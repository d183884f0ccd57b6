/** The links page against the server: the requests the page sends keep a
    profile's `order` values dense. A new link is created at `order = n`, an
    edit never touches `order`, and a drag sends a permutation of the shown
    ids, which the server turns back into 0..n-1 in the dragged order. */
module Dashboard {
  import opened Wrappers
  import opened Schema
  import opened LinkOrder
  import opened Storage
  import opened Routes
  import opened LinksPage
  import Density

  /** The links `GET /api/profiles/me` hands a signed-in user who already has
      a profile: the listing of the profile the other routes act on. */
  lemma ShownLinks(s: Store, uid: UserId, username: string)
    requires WellFormed(s)
    requires ProfilesOf(s, uid) != {}
    ensures GetMe(s, SignedIn(uid, username)).response.body.ProfileWithLinks?
    ensures GetMe(s, SignedIn(uid, username)).response.body.links
      == GetLinks(s, GetProfileByUserId(s, uid).value.id)
  {
  }

  /** Submitting "Add Link" from the page keeps the caller's profile dense
      and, unless the serial sequence has left the `integer` range, adds
      exactly one link to it. */
  lemma PageCreateKeepsDense(s: Store, uid: UserId, username: string, e: Editor)
    requires WellFormed(s)
    requires ProfilesOf(s, uid) != {}
    requires Dense(s.links, GetProfileByUserId(s, uid).value.id)
    requires e.editing.None?
    ensures var p := GetProfileByUserId(s, uid).value.id;
      var shown := DisplayLinks(GetMe(s, SignedIn(uid, username)).response.body.links);
      var m := SubmitMutation(e, shown);
      var h := PostLink(s, SignedIn(uid, username), CreateLinkBody(m.input, None));
      && m.CreateMutation?
      && (h.response.status == 201 <==> Int32(s.nextLinkId))
      && Dense(h.store.links, p)
      && (h.response.status == 201 ==> |ProfileIds(h.store.links, p)| == |shown| + 1)
  {
    var p := GetProfileByUserId(s, uid).value.id;
    ShownLinks(s, uid, username);
    var shown := DisplayLinks(GetMe(s, SignedIn(uid, username)).response.body.links);
    assert |shown| == |ProfileIds(s.links, p)|;
    var m := SubmitMutation(e, shown);
    Density.CreateKeepsDense(s, p, m.input);
  }

  /** Saving an edit from the page changes no link's `order`, so density of
      every profile survives it. */
  lemma PageEditKeepsOrders(s: Store, uid: UserId, username: string, e: Editor, shown: seq<Link>)
    requires WellFormed(s)
    requires e.editing.Some?
    ensures var m := SubmitMutation(e, shown);
      var h := PatchLink(s, SignedIn(uid, username), m.id, m.patch);
      && h.store.links.Keys == s.links.Keys
      && (forall k :: k in s.links ==> h.store.links[k].order == s.links[k].order)
      && (forall p :: Dense(s.links, p) ==> Dense(h.store.links, p))
  {
    var m := SubmitMutation(e, shown);
    var h := PatchLink(s, SignedIn(uid, username), m.id, m.patch);
    assert forall k :: k in s.links ==> h.store.links[k].profileId == s.links[k].profileId;
    forall p | Dense(s.links, p)
      ensures Dense(h.store.links, p)
    {
      assert ProfileIds(h.store.links, p) == ProfileIds(s.links, p);
    }
  }

  /** A sequence without repeats holds each member of its set exactly once. */
  lemma {:induction false} DistinctMultiset(xs: seq<LinkId>, ks: set<LinkId>)
    requires forall i, j :: 0 <= i < j < |xs| ==> xs[i] != xs[j]
    requires forall k :: k in ks <==> k in xs
    ensures multiset(xs) == multiset(ks)
  {
    if |xs| == 0 {
      assert forall k :: k !in ks;
      assert ks == {};
    } else {
      var rest := ks - {xs[0]};
      assert xs == [xs[0]] + xs[1..];
      forall k
        ensures k in rest <==> k in xs[1..]
      {
        if k in xs[1..] {
          var j :| 0 <= j < |xs[1..]| && xs[1..][j] == k;
          assert xs[j + 1] == k;
        }
      }
      DistinctMultiset(xs[1..], rest);
      assert xs[0] in xs;
      assert ks == rest + {xs[0]};
      assert xs[0] !in rest;
      assert multiset(ks) == multiset(rest) + multiset{xs[0]};
    }
  }

  /** Dragging rearranges the shown links; the request it sends is then a
      permutation of the profile's link ids. */
  lemma DragSendsPermutation(s: Store, p: ProfileId, shown: seq<Link>, newOrder: seq<Link>)
    requires WellFormed(s)
    requires multiset(shown) == multiset(ProfileLinks(s.links, p))
    requires multiset(newOrder) == multiset(shown)
    ensures multiset(ReorderRequest(newOrder)) == multiset(ProfileIds(s.links, p))
  {
    var ids := ReorderRequest(newOrder);
    Density.ListingRows(s.links, p, newOrder);
    forall k
      ensures k in ProfileIds(s.links, p) <==> k in ids
    {
      if k in ProfileIds(s.links, p) {
        var i :| 0 <= i < |newOrder| && newOrder[i] == s.links[k];
        assert ids[i] == k;
      }
    }
    DistinctMultiset(ids, ProfileIds(s.links, p));
  }

  /** Dropping a dragged arrangement of the shown links makes the caller's
      profile dense, and the listing the server answers with is the dragged
      arrangement; no other profile's links move. */
  lemma PageDragMakesDense(s: Store, uid: UserId, username: string, newOrder: seq<Link>)
    requires WellFormed(s)
    requires ProfilesOf(s, uid) != {}
    requires multiset(newOrder)
      == multiset(DisplayLinks(GetMe(s, SignedIn(uid, username)).response.body.links))
    ensures var p := GetProfileByUserId(s, uid).value.id;
      var h := PostReorder(s, SignedIn(uid, username), ReorderRequest(newOrder));
      && h.response.status == 200
      && Dense(h.store.links, p)
      && |h.response.body.links| == |newOrder|
      && (forall i :: 0 <= i < |newOrder| ==> h.response.body.links[i].id == newOrder[i].id)
      && (forall k :: k in s.links && s.links[k].profileId != p ==> h.store.links[k] == s.links[k])
  {
    var p := GetProfileByUserId(s, uid).value.id;
    ShownLinks(s, uid, username);
    var shown := DisplayLinks(GetMe(s, SignedIn(uid, username)).response.body.links);
    DragSendsPermutation(s, p, shown, newOrder);
    Density.ReorderByPermutation(s, p, ReorderRequest(newOrder));
  }
}
