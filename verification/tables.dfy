/** Reading rows out of a keyed table in a fixed order: the stand-in for a
    sequential scan, whose row order SQL leaves unspecified. */
module Tables {

  /** The smallest key of a non-empty finite key set. */
  function MinKey(ks: set<int>): (m: int)
    requires ks != {}
    ensures m in ks
    ensures forall k :: k in ks ==> m <= k
  {
    MinExists(ks);
    var m :| m in ks && forall k :: k in ks ==> m <= k;
    m
  }

  lemma {:induction false} MinExists(ks: set<int>)
    requires ks != {}
    ensures exists m :: m in ks && forall k :: k in ks ==> m <= k
  {
    HasMember(ks);
    var x :| x in ks;
    if ks != {x} {
      MinExists(ks - {x});
      var m :| m in ks - {x} && forall k :: k in ks - {x} ==> m <= k;
      var least := if x < m then x else m;
      forall k | k in ks
        ensures least <= k
      {
        if k != x {
          assert k in ks - {x};
        }
      }
    } else {
      assert forall k :: k in ks ==> k == x;
    }
  }

  lemma HasMember(ks: set<int>)
    requires ks != {}
    ensures exists k :: k in ks
  {
    if forall k :: k !in ks {
      assert false;
    }
  }

  /** `m` maps distinct keys of `ks` to distinct rows. */
  predicate InjectiveOn<T(==)>(m: map<int, T>, ks: set<int>)
    requires ks <= m.Keys
  {
    forall a, b :: a in ks && b in ks && a != b ==> m[a] != m[b]
  }

  /** The rows stored under `ks`, as a set. */
  function RowSet<T(==)>(m: map<int, T>, ks: set<int>): set<T>
    requires ks <= m.Keys
  {
    set k | k in ks :: m[k]
  }

  /** The rows stored under `ks`, read in ascending key order: each row of
      the set exactly once. */
  function ScanById<T(==)>(m: map<int, T>, ks: set<int>): (r: seq<T>)
    requires ks <= m.Keys
    requires InjectiveOn(m, ks)
    ensures multiset(r) == multiset(RowSet(m, ks))
    ensures |r| == |ks|
    decreases |ks|
  {
    if ks == {} then []
    else
      var k := MinKey(ks);
      var rest := ScanById(m, ks - {k});
      RowSetSplit(m, ks, k);
      [m[k]] + rest
  }

  /** Taking one key out of `ks` takes exactly its row out of the row set. */
  lemma RowSetSplit<T>(m: map<int, T>, ks: set<int>, k: int)
    requires ks <= m.Keys && k in ks
    requires InjectiveOn(m, ks)
    ensures multiset(RowSet(m, ks)) == multiset{m[k]} + multiset(RowSet(m, ks - {k}))
  {
    var rest := RowSet(m, ks - {k});
    assert RowSet(m, ks) == {m[k]} + rest;
    assert m[k] !in rest;
  }
}
