/** How a profile's links keep dense `order` values 0..n-1 on the server
    side: creating a link with `order = n` and reordering by a permutation of
    the profile's link ids keep them dense; deleting leaves a gap unless the
    last link goes, and never disturbs the others. */
module Density {
  import opened Wrappers
  import opened Schema
  import opened LinkOrder
  import opened Storage
  import Tables

  /** The link of profile `p` stored under `k` is a row of the profile. */
  lemma RowOfProfile(links: map<LinkId, Link>, p: ProfileId, k: LinkId)
    requires k in ProfileIds(links, p)
    ensures links[k] in ProfileLinks(links, p)
  {
    assert links[k] in Tables.RowSet(links, ProfileIds(links, p));
  }

  /** Every row of the profile is stored under its own id. */
  lemma ProfileRowIsStored(links: map<LinkId, Link>, p: ProfileId, l: Link)
    requires LinksKeyed(links)
    requires l in ProfileLinks(links, p)
    ensures l.id in ProfileIds(links, p) && links[l.id] == l
  {
    var k :| k in ProfileIds(links, p) && links[k] == l;
  }

  /** A listing of profile `p` holds each of its stored links once. */
  lemma ListingRows(links: map<LinkId, Link>, p: ProfileId, r: seq<Link>)
    requires LinksKeyed(links)
    requires multiset(r) == multiset(ProfileLinks(links, p))
    ensures forall i :: 0 <= i < |r| ==> r[i].id in ProfileIds(links, p) && links[r[i].id] == r[i]
    ensures forall i, j :: 0 <= i < j < |r| ==> r[i].id != r[j].id
    ensures forall k :: k in ProfileIds(links, p) ==> links[k] in r
  {
    PermutationOfSet(r, ProfileLinks(links, p));
    forall i | 0 <= i < |r|
      ensures r[i].id in ProfileIds(links, p) && links[r[i].id] == r[i]
    {
      ProfileRowIsStored(links, p, r[i]);
    }
    forall k | k in ProfileIds(links, p)
      ensures links[k] in r
    {
      RowOfProfile(links, p, k);
    }
  }

  lemma PositionsFromDense(links: map<LinkId, Link>, p: ProfileId, r: seq<Link>)
    requires LinksKeyed(links)
    requires SortedByOrder(r) && multiset(r) == multiset(ProfileLinks(links, p))
    requires |r| == |ProfileIds(links, p)|
    requires Dense(links, p)
    ensures forall i :: 0 <= i < |r| ==> r[i].order == i
  {
    ListingRows(links, p, r);
    OrdersArePositions(r);
  }

  lemma DenseFromPositions(links: map<LinkId, Link>, p: ProfileId, r: seq<Link>)
    requires LinksKeyed(links)
    requires multiset(r) == multiset(ProfileLinks(links, p))
    requires |r| == |ProfileIds(links, p)|
    requires forall i :: 0 <= i < |r| ==> r[i].order == i
    ensures Dense(links, p)
  {
    var ids := ProfileIds(links, p);
    ListingRows(links, p, r);
    forall a, b | a in ids && b in ids && a != b
      ensures links[a].order != links[b].order
    {
      var i :| 0 <= i < |r| && r[i] == links[a];
      var j :| 0 <= j < |r| && r[j] == links[b];
    }
  }

  /** Dense orders are exactly the positions in `GetLinks`: the profile's
      orders are 0..n-1 without repeats if and only if the i-th link read back
      has order i. */
  lemma DenseIffPositional(s: Store, p: ProfileId)
    requires LinksKeyed(s.links)
    ensures Dense(s.links, p) <==>
      forall i :: 0 <= i < |GetLinks(s, p)| ==> GetLinks(s, p)[i].order == i
  {
    var r := GetLinks(s, p);
    if Dense(s.links, p) {
      PositionsFromDense(s.links, p, r);
    }
    if forall i :: 0 <= i < |r| ==> r[i].order == i {
      DenseFromPositions(s.links, p, r);
    }
  }

  /** Creating a link with `order` equal to the current number of links keeps
      a dense profile dense (0..n-1 becomes 0..n); the insert succeeds as
      long as the serial sequence is inside the `integer` range. */
  lemma CreateKeepsDense(s: Store, p: ProfileId, input: InsertLink)
    requires WellFormed(s)
    requires p in s.profiles
    requires Dense(s.links, p)
    requires input.order == Some(|ProfileIds(s.links, p)|)
    ensures CreateLink(s, p, input).Written? <==> Int32(s.nextLinkId)
    ensures CreateLink(s, p, input).Written? ==> Dense(CreateLink(s, p, input).store.links, p)
    ensures CreateLink(s, p, input).Written? ==>
      |ProfileIds(CreateLink(s, p, input).store.links, p)| == |ProfileIds(s.links, p)| + 1
  {
    var w := CreateLink(s, p, input);
    if !w.Written? {
      return;
    }
    var l := w.row;
    var before := ProfileIds(s.links, p);
    var after := ProfileIds(w.store.links, p);
    assert after == before + {l.id};
    assert l.id !in before;
    forall k | k in after
      ensures 0 <= w.store.links[k].order < |after|
    {
      if k != l.id {
        assert w.store.links[k] == s.links[k];
      }
    }
    forall a, b | a in after && b in after && a != b
      ensures w.store.links[a].order != w.store.links[b].order
    {
      if a != l.id && b != l.id {
        assert w.store.links[a] == s.links[a] && w.store.links[b] == s.links[b];
      } else if a == l.id {
        assert w.store.links[b] == s.links[b];
      } else {
        assert w.store.links[a] == s.links[a];
      }
    }
  }

  /** The reorder loop changes no link's owner. */
  lemma WriteOrdersKeepsOwners(links: map<LinkId, Link>, ids: seq<LinkId>, p: ProfileId)
    ensures ProfileIds(WriteOrders(links, ids), p) == ProfileIds(links, p)
  {
    WriteOrdersFrame(links, ids);
  }

  /** The reorder loop run over a permutation of the profile's link ids
      gives the link at index i the order i. */
  lemma WritePermutationOrders(links: map<LinkId, Link>, p: ProfileId, ids: seq<LinkId>)
    requires multiset(ids) == multiset(ProfileIds(links, p))
    ensures forall i :: 0 <= i < |ids| ==> ids[i] in links && WriteOrders(links, ids)[ids[i]].order == i
    ensures Dense(WriteOrders(links, ids), p)
  {
    var w := WriteOrders(links, ids);
    var pids := ProfileIds(links, p);
    PermutationOfSet(ids, pids);
    WriteOrdersLastWins(links, ids);
    WriteOrdersKeepsOwners(links, ids, p);
    forall i | 0 <= i < |ids|
      ensures ids[i] in links && w[ids[i]].order == i
    {
      assert LastIndex(ids, i);
    }
    forall k | k in pids
      ensures 0 <= w[k].order < |pids|
    {
      var i :| 0 <= i < |ids| && ids[i] == k;
    }
    forall a, b | a in pids && b in pids && a != b
      ensures w[a].order != w[b].order
    {
      var i :| 0 <= i < |ids| && ids[i] == a;
      var j :| 0 <= j < |ids| && ids[j] == b;
    }
  }

  /** When the links named by `ids` have orders 0..|ids|-1 by index and the
      profile is dense, the sorted listing names them in the order of `ids`. */
  lemma ListingFollowsIds(links: map<LinkId, Link>, p: ProfileId, ids: seq<LinkId>, r: seq<Link>)
    requires LinksKeyed(links)
    requires Dense(links, p)
    requires forall i :: 0 <= i < |ids| ==> ids[i] in ProfileIds(links, p) && links[ids[i]].order == i
    requires SortedByOrder(r) && multiset(r) == multiset(ProfileLinks(links, p))
    requires |r| == |ProfileIds(links, p)| == |ids|
    ensures forall i :: 0 <= i < |ids| ==> r[i].id == ids[i]
  {
    PositionsFromDense(links, p, r);
    ListingRows(links, p, r);
  }

  /** Reordering by a permutation of the profile's link ids makes the
      profile dense whatever its orders were, and afterwards `GetLinks`
      reads the links back in exactly the submitted sequence. Links of other
      profiles are untouched. */
  lemma ReorderByPermutation(s: Store, p: ProfileId, ids: seq<LinkId>)
    requires WellFormed(s)
    requires multiset(ids) == multiset(ProfileIds(s.links, p))
    ensures ReorderLinks(s, p, ids).Reordered?
    ensures Dense(ReorderLinks(s, p, ids).store.links, p)
    ensures |ReorderLinks(s, p, ids).links| == |ids|
    ensures forall i :: 0 <= i < |ids| ==> ReorderLinks(s, p, ids).links[i].id == ids[i]
    ensures forall k :: k in s.links && s.links[k].profileId != p ==>
      ReorderLinks(s, p, ids).store.links[k] == s.links[k]
  {
    PermutationOfSet(ids, ProfileIds(s.links, p));
    assert forall i :: 0 <= i < |ids| ==> ids[i] in s.links;
    var res := ReorderLinks(s, p, ids);
    var s', r := res.store, res.links;
    WritePermutationOrders(s.links, p, ids);
    WriteOrdersKeepsOwners(s.links, ids, p);
    WriteOrdersFrame(s.links, ids);
    PermutationOfSet(ids, ProfileIds(s.links, p));
    ListingFollowsIds(s'.links, p, ids, r);
    forall k | k in s.links && s.links[k].profileId != p
      ensures s'.links[k] == s.links[k]
    {
      assert k !in multiset(ids);
    }
  }

  /** Deleting link `id` of a dense profile whose order is `k` leaves the
      orders 0..n-1 without `k`: dense again exactly when the deleted link was
      the last one. The remaining links keep their orders, so their relative
      order is unchanged. */
  lemma DeleteLeavesGap(s: Store, p: ProfileId, id: LinkId)
    requires WellFormed(s)
    requires Dense(s.links, p)
    requires id in ProfileIds(s.links, p)
    ensures DeleteLink(s, id).Some?
    ensures var s' := DeleteLink(s, id).value;
      && ProfileIds(s'.links, p) == ProfileIds(s.links, p) - {id}
      && OrdersOf(s'.links, ProfileIds(s'.links, p)) == Range(|ProfileIds(s.links, p)|) - {s.links[id].order}
      && (Dense(s'.links, p) <==> s.links[id].order == |ProfileIds(s.links, p)| - 1)
      && (forall a :: a in ProfileIds(s'.links, p) ==> s'.links[a].order == s.links[a].order)
  {
    var s' := DeleteLink(s, id).value;
    var ids := ProfileIds(s.links, p);
    var rest := ProfileIds(s'.links, p);
    var n := |ids|;
    var k := s.links[id].order;
    assert rest == ids - {id};
    assert |rest| == n - 1;
    DenseIsOnto(s.links, p);
    var used := OrdersOf(s'.links, rest);
    forall v | v in used
      ensures v in Range(n) - {k}
    {
      var a :| a in rest && s'.links[a].order == v;
      assert s.links[a].order == v;
    }
    forall v | v in Range(n) - {k}
      ensures v in used
    {
      assert v in OrdersOf(s.links, ids);
      var a :| a in ids && s.links[a].order == v;
      assert a != id && a in rest;
    }
    assert used == Range(n) - {k};
    if k == n - 1 {
      forall a | a in rest
        ensures 0 <= s'.links[a].order < |rest|
      {
        assert s'.links[a].order in used;
      }
    } else {
      assert n - 1 in used;
      var a :| a in rest && s'.links[a].order == n - 1;
      assert !(s'.links[a].order < |rest|);
    }
  }
}
