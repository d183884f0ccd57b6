/** Link ordering: sorting by the `order` column, the links of one profile,
    and the density of their `order` values (0..n-1, each used once), which
    the dashboard relies on but no constraint enforces. */
module LinkOrder {
  import opened Schema
  import Tables

  /** Non-decreasing `order` along the sequence (ties in any arrangement). */
  predicate SortedByOrder(xs: seq<Link>)
  {
    forall i, j :: 0 <= i < j < |xs| ==> xs[i].order <= xs[j].order
  }

  /** Inserts `x` in front of the first element whose `order` is not smaller. */
  function InsertByOrder(x: Link, xs: seq<Link>): (r: seq<Link>)
    requires SortedByOrder(xs)
    ensures SortedByOrder(r)
    ensures multiset(r) == multiset(xs) + multiset{x}
  {
    if |xs| == 0 then [x]
    else if x.order <= xs[0].order then [x] + xs
    else
      var rest := InsertByOrder(x, xs[1..]);
      assert xs == [xs[0]] + xs[1..];
      AllAtLeast(rest, xs[1..], x, xs[0].order);
      [xs[0]] + rest
  }

  /** Every element of a sequence holding `x` and the elements of `ys` is
      bounded below by a common bound of them. */
  lemma AllAtLeast(rest: seq<Link>, ys: seq<Link>, x: Link, lo: int)
    requires multiset(rest) == multiset(ys) + multiset{x}
    requires forall i :: 0 <= i < |ys| ==> lo <= ys[i].order
    requires lo <= x.order
    ensures forall k :: 0 <= k < |rest| ==> lo <= rest[k].order
  {
    forall k | 0 <= k < |rest|
      ensures lo <= rest[k].order
    {
      assert rest[k] in multiset(rest);
      if rest[k] != x {
        assert rest[k] in multiset(ys);
        assert rest[k] in ys;
      }
    }
  }

  /** A sorted copy: the same links, each as often as in `xs`, in
      non-decreasing `order`. */
  function SortByOrder(xs: seq<Link>): (r: seq<Link>)
    ensures SortedByOrder(r)
    ensures multiset(r) == multiset(xs)
    ensures |r| == |xs|
  {
    if |xs| == 0 then []
    else
      assert xs == [xs[0]] + xs[1..];
      InsertByOrder(xs[0], SortByOrder(xs[1..]))
  }

  /** Sorting a sequence that is already sorted leaves it as it is: ties keep
      their arrangement, as a stable sort does. */
  lemma {:induction false} SortedIsFixed(xs: seq<Link>)
    requires SortedByOrder(xs)
    ensures SortByOrder(xs) == xs
  {
    if |xs| > 0 {
      SortedIsFixed(xs[1..]);
      assert xs == [xs[0]] + xs[1..];
    }
  }

  /** When no two links share an `order`, there is only one sorted
      arrangement of them. */
  lemma {:induction false} SortedUnique(a: seq<Link>, b: seq<Link>)
    requires SortedByOrder(a) && SortedByOrder(b)
    requires multiset(a) == multiset(b)
    requires forall i, j :: 0 <= i < j < |a| ==> a[i].order != a[j].order
    ensures a == b
    decreases |a|
  {
    assert |a| == |multiset(a)| == |multiset(b)| == |b|;
    if |a| > 0 {
      SortedHeads(a, b);
      TailMultiset(a, b);
      SortedUnique(a[1..], b[1..]);
      assert a == [a[0]] + a[1..] && b == [b[0]] + b[1..];
    }
  }

  /** Both sorted arrangements start with the link of the smallest `order`. */
  lemma SortedHeads(a: seq<Link>, b: seq<Link>)
    requires SortedByOrder(a) && SortedByOrder(b)
    requires multiset(a) == multiset(b) && |a| > 0 && |b| > 0
    requires forall i, j :: 0 <= i < j < |a| ==> a[i].order != a[j].order
    ensures a[0] == b[0]
  {
    assert a[0] in multiset(b) && b[0] in multiset(a);
    var j :| 0 <= j < |b| && b[j] == a[0];
    var i :| 0 <= i < |a| && a[i] == b[0];
    assert a[0].order <= a[i].order == b[0].order <= b[j].order == a[0].order;
  }

  lemma TailMultiset<T>(a: seq<T>, b: seq<T>)
    requires |a| > 0 && |b| > 0 && a[0] == b[0]
    requires multiset(a) == multiset(b)
    ensures multiset(a[1..]) == multiset(b[1..])
  {
    assert a == [a[0]] + a[1..] && b == [b[0]] + b[1..];
    assert multiset(a) == multiset{a[0]} + multiset(a[1..]);
    assert multiset(b) == multiset{b[0]} + multiset(b[1..]);
    forall x
      ensures multiset(a[1..])[x] == multiset(b[1..])[x]
    {
      assert multiset(a)[x] == multiset{a[0]}[x] + multiset(a[1..])[x];
      assert multiset(b)[x] == multiset{b[0]}[x] + multiset(b[1..])[x];
    }
  }

  /** The ids of the links that belong to profile `p`. */
  function ProfileIds(links: map<LinkId, Link>, p: ProfileId): (ids: set<LinkId>)
    ensures ids <= links.Keys
    ensures forall k :: k in ids <==> k in links && links[k].profileId == p
  {
    set k | k in links && links[k].profileId == p
  }

  /** The link rows of profile `p`. */
  function ProfileLinks(links: map<LinkId, Link>, p: ProfileId): set<Link>
  {
    Tables.RowSet(links, ProfileIds(links, p))
  }

  /** Profile `p`'s orders are exactly 0..n-1 for its n links: each in range
      and no two equal (which, by counting, uses every value once). */
  predicate Dense(links: map<LinkId, Link>, p: ProfileId)
  {
    var ids := ProfileIds(links, p);
    && (forall k :: k in ids ==> 0 <= links[k].order < |ids|)
    && (forall a, b :: a in ids && b in ids && a != b ==> links[a].order != links[b].order)
  }

  /** The `order` values used by the links `ids`. */
  function OrdersOf(links: map<LinkId, Link>, ids: set<LinkId>): set<int>
    requires ids <= links.Keys
  {
    set k | k in ids :: links[k].order
  }

  /** The order values 0..n-1. */
  function Range(n: int): (r: set<int>)
    ensures forall i :: i in r <==> 0 <= i < n
    decreases n
  {
    if n <= 0 then {} else Range(n - 1) + {n - 1}
  }

  /** A sequence that is a permutation of a set holds each member exactly
      once and nothing else. */
  lemma PermutationOfSet<T>(r: seq<T>, s: set<T>)
    requires multiset(r) == multiset(s)
    ensures |r| == |s|
    ensures forall i :: 0 <= i < |r| ==> r[i] in s
    ensures forall x :: x in s ==> x in r
    ensures forall i, j :: 0 <= i < j < |r| ==> r[i] != r[j]
  {
    assert |multiset(r)| == |r|;
    forall i | 0 <= i < |r|
      ensures r[i] in s
    {
      assert r[i] in multiset(r);
    }
    forall x | x in s
      ensures x in r
    {
      assert x in multiset(s);
    }
    forall i, j | 0 <= i < j < |r|
      ensures r[i] != r[j]
    {
      if r[i] == r[j] {
        RepeatedTwice(r, i, j);
        assert false;
      }
    }
  }

  lemma RepeatedTwice<T>(r: seq<T>, i: nat, j: nat)
    requires i < j < |r| && r[i] == r[j]
    ensures multiset(r)[r[i]] >= 2
  {
    assert r == r[..j] + [r[j]] + r[j+1..];
    assert r[i] in r[..j];
  }

  lemma {:induction false} RangeSize(n: nat)
    ensures |Range(n)| == n
  {
    if n > 0 {
      RangeSize(n - 1);
      assert Range(n) == Range(n - 1) + {n - 1};
    } else {
      assert Range(n) == {};
    }
  }

  /** Distinct ids with distinct orders use as many order values as ids. */
  lemma {:induction false} OrdersOfSize(links: map<LinkId, Link>, ids: set<LinkId>)
    requires ids <= links.Keys
    requires forall a, b :: a in ids && b in ids && a != b ==> links[a].order != links[b].order
    ensures |OrdersOf(links, ids)| == |ids|
    decreases |ids|
  {
    if ids != {} {
      var k := Tables.MinKey(ids);
      OrdersOfSize(links, ids - {k});
      assert OrdersOf(links, ids) == OrdersOf(links, ids - {k}) + {links[k].order};
      assert links[k].order !in OrdersOf(links, ids - {k});
    } else {
      assert OrdersOf(links, ids) == {};
    }
  }

  lemma {:induction false} SubsetOfSameSize(a: set<int>, b: set<int>)
    requires a <= b && |a| == |b|
    ensures a == b
  {
    if exists x :: x in b && x !in a {
      var x :| x in b && x !in a;
      assert a <= b - {x};
      SubsetCard(a, b - {x});
    }
    assert b <= a;
  }

  lemma {:induction false} SubsetCard(a: set<int>, b: set<int>)
    requires a <= b
    ensures |a| <= |b|
    decreases |b|
  {
    if a != {} {
      var x := Tables.MinKey(a);
      SubsetCard(a - {x}, b - {x});
    }
  }

  /** Pigeonhole: a dense profile of n links uses every order in 0..n-1. */
  lemma DenseIsOnto(links: map<LinkId, Link>, p: ProfileId)
    requires Dense(links, p)
    ensures OrdersOf(links, ProfileIds(links, p)) == Range(|ProfileIds(links, p)|)
  {
    var ids := ProfileIds(links, p);
    OrdersOfSize(links, ids);
    RangeSize(|ids|);
    SubsetOfSameSize(OrdersOf(links, ids), Range(|ids|));
  }

  /** In a sorted sequence whose orders are pairwise distinct and all lie in
      0..n-1, the order of each element is its position. */
  lemma OrdersArePositions(r: seq<Link>)
    requires SortedByOrder(r)
    requires forall i, j :: 0 <= i < j < |r| ==> r[i].order != r[j].order
    requires forall i :: 0 <= i < |r| ==> 0 <= r[i].order < |r|
    ensures forall i :: 0 <= i < |r| ==> r[i].order == i
  {
    forall i | 0 <= i < |r|
      ensures r[i].order == i
    {
      AtLeastPosition(r, i);
      AtMostPosition(r, i);
    }
  }

  lemma {:induction false} AtLeastPosition(r: seq<Link>, i: nat)
    requires SortedByOrder(r)
    requires forall i, j :: 0 <= i < j < |r| ==> r[i].order != r[j].order
    requires forall i :: 0 <= i < |r| ==> 0 <= r[i].order
    requires i < |r|
    ensures r[i].order >= i
  {
    if i > 0 {
      AtLeastPosition(r, i - 1);
      assert r[i - 1].order < r[i].order;
    }
  }

  lemma {:induction false} AtMostPosition(r: seq<Link>, i: nat)
    requires SortedByOrder(r)
    requires forall i, j :: 0 <= i < j < |r| ==> r[i].order != r[j].order
    requires forall i :: 0 <= i < |r| ==> r[i].order < |r|
    requires i < |r|
    ensures r[i].order <= i
    decreases |r| - i
  {
    if i < |r| - 1 {
      AtMostPosition(r, i + 1);
      assert r[i].order < r[i + 1].order;
    }
  }
}
