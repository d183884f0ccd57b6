/** The repository over the relational store: every operation is a pure
    transition from one database state to the next. */
module Storage {
  import opened Wrappers
  import opened Schema
  import opened LinkOrder
  import Tables

  /** The outcome of a write followed by `.returning()`: the new state and the
      returned row; no row matched the `where` clause (the caller receives
      `undefined`); or a constraint rejected the statement (the promise
      rejects and the state is unchanged). */
  datatype Write<T> = Written(store: Store, row: T) | NoRow | Rejected

  /** A public profile: the profile row, its links and its owner's activation. */
  datatype PublicProfile = PublicProfile(profile: Profile, links: seq<Link>, isActivated: bool)

  /** `r` lists exactly the links of profile `p`, each once, in non-decreasing
      `order`: what `ORDER BY order` promises, ties in any arrangement. */
  predicate Listing(s: Store, p: ProfileId, r: seq<Link>)
  {
    && SortedByOrder(r)
    && multiset(r) == multiset(ProfileLinks(s.links, p))
  }

  // ---------------------------------------------------------------------
  // Users
  // ---------------------------------------------------------------------

  /** The user with a given username; at most one exists. */
  function GetUserByUsername(s: Store, name: string): (r: Option<User>)
    requires WellFormed(s)
    ensures r.Some? <==> exists k :: k in s.users && s.users[k].username == name
    ensures r.Some? ==> r.value.id in s.users && s.users[r.value.id] == r.value && r.value.username == name
  {
    if exists k :: k in s.users && s.users[k].username == name then
      var k :| k in s.users && s.users[k].username == name;
      Some(s.users[k])
    else None
  }

  /** Inserts the user, or on an id conflict overwrites the supplied columns
      and keeps the rest. A username owned by another user is a unique-key
      violation. */
  function UpsertUser(s: Store, u: UpsertUser): (r: Write<User>)
    requires WellFormed(s)
    ensures !r.NoRow?
    ensures r.Rejected? <==> exists k :: k in s.users && k != u.id && s.users[k].username == u.username
    ensures r.Written? ==> WellFormed(r.store)
    ensures r.Written? ==> r.store == s.(users := s.users[u.id := r.row])
    ensures r.Written? ==> r.row.id == u.id && r.row.username == u.username && r.row.email == u.email
    ensures r.Written? && u.id in s.users ==>
      && r.row.isAdmin == s.users[u.id].isAdmin
      && r.row.isActivated == s.users[u.id].isActivated
      && r.row.activatedBy == s.users[u.id].activatedBy
    ensures r.Written? && u.id !in s.users ==> !r.row.isAdmin && !r.row.isActivated && r.row.activatedBy.None?
  {
    if exists k :: k in s.users && k != u.id && s.users[k].username == u.username then Rejected
    else
      var row :=
        if u.id in s.users then s.users[u.id].(username := u.username, email := u.email)
        else User(u.id, u.username, u.email, false, false, None);
      Written(s.(users := s.users[u.id := row]), row)
  }

  /** Marks a user as activated by the given admin; no row for an unknown id. */
  function ActivateUser(s: Store, id: UserId, adminEmail: string): (r: Write<User>)
    requires WellFormed(s)
    ensures !r.Rejected?
    ensures r.NoRow? <==> id !in s.users
    ensures r.Written? ==> WellFormed(r.store)
    ensures r.Written? ==> r.store == s.(users := s.users[id := r.row])
    ensures r.Written? ==> r.row.isActivated && r.row.activatedBy == Some(adminEmail)
    ensures r.Written? ==>
      r.row.id == id && r.row.username == s.users[id].username &&
      r.row.email == s.users[id].email && r.row.isAdmin == s.users[id].isAdmin
  {
    if id !in s.users then NoRow
    else
      var row := s.users[id].(isActivated := true, activatedBy := Some(adminEmail));
      Written(s.(users := s.users[id := row]), row)
  }

  /** Activation cannot be undone by activating again: the user stays
      activated, credited to the latest admin, and repeating the same call
      changes nothing. */
  lemma ActivateTwice(s: Store, id: UserId, first: string, second: string)
    requires WellFormed(s)
    requires id in s.users
    ensures ActivateUser(s, id, first).Written?
    ensures ActivateUser(ActivateUser(s, id, first).store, id, second).Written?
    ensures ActivateUser(ActivateUser(s, id, first).store, id, second).row.isActivated
    ensures ActivateUser(ActivateUser(s, id, first).store, id, second).row.activatedBy == Some(second)
    ensures ActivateUser(ActivateUser(s, id, first).store, id, first).store == ActivateUser(s, id, first).store
  {
    var s1 := ActivateUser(s, id, first).store;
    assert s1.users[id].(isActivated := true, activatedBy := Some(first)) == s1.users[id];
  }

  // ---------------------------------------------------------------------
  // Profiles
  // ---------------------------------------------------------------------

  /** The profiles owned by a user (no constraint limits them to one). */
  function ProfilesOf(s: Store, uid: UserId): (ids: set<ProfileId>)
    ensures forall k :: k in ids <==> k in s.profiles && s.profiles[k].userId == uid
  {
    set k | k in s.profiles && s.profiles[k].userId == uid
  }

  /** The caller's profile: the first row of the lookup, taken as the one with
      the smallest id. */
  function GetProfileByUserId(s: Store, uid: UserId): (r: Option<Profile>)
    requires WellFormed(s)
    ensures r.None? <==> ProfilesOf(s, uid) == {}
    ensures r.Some? ==> r.value.id in ProfilesOf(s, uid) && s.profiles[r.value.id] == r.value
  {
    var ids := ProfilesOf(s, uid);
    if ids == {} then None else Some(s.profiles[Tables.MinKey(ids)])
  }

  /** Inserts a profile for `uid`: a fresh id, defaults for the colours. It
      is rejected when the slug is taken or the user row does not exist. */
  function CreateProfile(s: Store, uid: UserId, input: InsertProfile): (r: Write<Profile>)
    requires WellFormed(s)
    ensures !r.NoRow?
    ensures r.Rejected? <==>
      uid !in s.users || exists k :: k in s.profiles && s.profiles[k].slug == input.slug
    ensures r.Written? ==> WellFormed(r.store)
    ensures r.Written? ==>
      && r.row.id !in s.profiles
      && r.store == s.(profiles := s.profiles[r.row.id := r.row], nextProfileId := r.store.nextProfileId)
      && r.row == NewProfile(r.row.id, uid, input)
  {
    if uid !in s.users then Rejected
    else if exists k :: k in s.profiles && s.profiles[k].slug == input.slug then Rejected
    else
      var row := NewProfile(s.nextProfileId, uid, input);
      InsertProfileKeepsConstraints(s, row);
      Written(s.(profiles := s.profiles[row.id := row], nextProfileId := s.nextProfileId + 1), row)
  }

  lemma InsertProfileKeepsConstraints(s: Store, row: Profile)
    requires WellFormed(s)
    requires row.id == s.nextProfileId && row.userId in s.users
    requires forall k :: k in s.profiles ==> s.profiles[k].slug != row.slug
    ensures WellFormed(s.(profiles := s.profiles[row.id := row], nextProfileId := s.nextProfileId + 1))
  {
    var ps := s.profiles[row.id := row];
    assert row.id !in s.profiles;
    forall a, b | a in ps && b in ps && a != b
      ensures ps[a].slug != ps[b].slug
    {
      if a != row.id && b != row.id {
        assert ps[a] == s.profiles[a] && ps[b] == s.profiles[b];
      }
    }
    assert ProfilesValid(ps, s.users, s.nextProfileId + 1);
    assert LinksValid(s.links, ps, s.nextLinkId);
  }

  /** Writes the supplied fields of profile `id`; no row for an unknown id; a
      slug already used by another profile is rejected. A patch that supplies
      no field is refused by the query builder before any query runs ("No
      values to set"), whatever the id. */
  function UpdateProfile(s: Store, id: ProfileId, patch: ProfilePatch): (r: Write<Profile>)
    requires WellFormed(s)
    ensures r.NoRow? <==> patch != EmptyProfilePatch && id !in s.profiles
    ensures r.Rejected? <==>
      || patch == EmptyProfilePatch
      || (id in s.profiles &&
          exists k :: k in s.profiles && k != id && s.profiles[k].slug == ApplyProfilePatch(s.profiles[id], patch).slug)
    ensures r.Written? ==> WellFormed(r.store)
    ensures r.Written? ==> r.store == s.(profiles := s.profiles[id := r.row])
    ensures r.Written? ==> r.row == ApplyProfilePatch(s.profiles[id], patch)
  {
    if patch == EmptyProfilePatch then Rejected
    else if id !in s.profiles then NoRow
    else
      var row := ApplyProfilePatch(s.profiles[id], patch);
      if exists k :: k in s.profiles && k != id && s.profiles[k].slug == row.slug then Rejected
      else Written(s.(profiles := s.profiles[id := row]), row)
  }

  /** The profile with a given slug (at most one), its links sorted by order,
      and whether its owner is activated (false when the owner row is
      missing). */
  function GetProfileBySlug(s: Store, slug: string): (r: Option<PublicProfile>)
    requires WellFormed(s)
    ensures r.None? <==> !exists k :: k in s.profiles && s.profiles[k].slug == slug
    ensures r.Some? ==>
      && r.value.profile.id in s.profiles
      && s.profiles[r.value.profile.id] == r.value.profile
      && r.value.profile.slug == slug
      && Listing(s, r.value.profile.id, r.value.links)
      && |r.value.links| == |ProfileIds(s.links, r.value.profile.id)|
      && (r.value.isActivated <==>
            r.value.profile.userId in s.users && s.users[r.value.profile.userId].isActivated)
  {
    if exists k :: k in s.profiles && s.profiles[k].slug == slug then
      var k :| k in s.profiles && s.profiles[k].slug == slug;
      var profile := s.profiles[k];
      var activated := if profile.userId in s.users then s.users[profile.userId].isActivated else false;
      Some(PublicProfile(profile, GetLinks(s, profile.id), activated))
    else None
  }

  // ---------------------------------------------------------------------
  // Links
  // ---------------------------------------------------------------------

  /** The links of profile `p` in ascending `order`. */
  function GetLinks(s: Store, p: ProfileId): (r: seq<Link>)
    requires LinksKeyed(s.links)
    ensures Listing(s, p, r)
    ensures |r| == |ProfileIds(s.links, p)|
  {
    var ids := ProfileIds(s.links, p);
    assert Tables.InjectiveOn(s.links, ids) by {
      forall a, b | a in ids && b in ids && a != b
        ensures s.links[a] != s.links[b]
      {
        assert s.links[a].id == a && s.links[b].id == b;
      }
    }
    SortByOrder(Tables.ScanById(s.links, ids))
  }

  /** Inserts a link on profile `profileId` under a fresh id; rejected when
      the profile does not exist, or when the serial sequence has run past
      the `integer` range and `nextval` fails. */
  function CreateLink(s: Store, profileId: ProfileId, input: InsertLink): (r: Write<Link>)
    requires WellFormed(s)
    ensures !r.NoRow?
    ensures r.Rejected? <==> profileId !in s.profiles || !Int32(s.nextLinkId)
    ensures r.Written? ==> WellFormed(r.store)
    ensures r.Written? ==>
      && r.row.id !in s.links
      && r.store == s.(links := s.links[r.row.id := r.row], nextLinkId := r.store.nextLinkId)
      && r.row == NewLink(r.row.id, profileId, input)
  {
    if profileId !in s.profiles || !Int32(s.nextLinkId) then Rejected
    else
      var row := NewLink(s.nextLinkId, profileId, input);
      InsertLinkKeepsConstraints(s, row);
      Written(s.(links := s.links[row.id := row], nextLinkId := s.nextLinkId + 1), row)
  }

  lemma InsertLinkKeepsConstraints(s: Store, row: Link)
    requires WellFormed(s)
    requires row.id == s.nextLinkId && Int32(row.id) && row.profileId in s.profiles
    ensures WellFormed(s.(links := s.links[row.id := row], nextLinkId := s.nextLinkId + 1))
  {
    var ls := s.links[row.id := row];
    forall k | k in ls
      ensures ls[k].id == k && k < s.nextLinkId + 1 && Int32(k) && ls[k].profileId in s.profiles
    {
      if k != row.id {
        assert ls[k] == s.links[k];
      }
    }
  }

  /** Writes the supplied fields of link `id`, whoever owns it; no row for an
      unknown id. A patch that supplies no field is refused by the query
      builder, as for profiles, and an id outside the `integer` range is
      refused by the database as a parameter of the `where` clause. */
  function UpdateLink(s: Store, id: LinkId, patch: LinkPatch): (r: Write<Link>)
    requires WellFormed(s)
    ensures r.Rejected? <==> patch == EmptyLinkPatch || !Int32(id)
    ensures r.NoRow? <==> patch != EmptyLinkPatch && Int32(id) && id !in s.links
    ensures r.Written? ==> WellFormed(r.store)
    ensures r.Written? ==> r.store == s.(links := s.links[id := r.row])
    ensures r.Written? ==> r.row == ApplyLinkPatch(s.links[id], patch)
  {
    if patch == EmptyLinkPatch || !Int32(id) then Rejected
    else if id !in s.links then NoRow
    else
      var row := ApplyLinkPatch(s.links[id], patch);
      Written(s.(links := s.links[id := row]), row)
  }

  /** Removes link `id` if present; every other row keeps its values,
      `order` included. None when the database refuses an id outside the
      `integer` range (the promise rejects). */
  function DeleteLink(s: Store, id: LinkId): (r: Option<Store>)
    requires WellFormed(s)
    ensures r.None? <==> !Int32(id)
    ensures r.Some? ==> WellFormed(r.value)
    ensures r.Some? ==> r.value.links.Keys == s.links.Keys - {id}
    ensures r.Some? ==> forall k :: k in r.value.links ==> r.value.links[k] == s.links[k]
    ensures r.Some? ==> r.value.users == s.users && r.value.profiles == s.profiles
  {
    if !Int32(id) then None else Some(s.(links := s.links - {id}))
  }

  /** Position `i` holds the last occurrence of its id in `ids`. */
  predicate LastIndex(ids: seq<LinkId>, i: int)
  {
    0 <= i < |ids| && forall j :: i < j < |ids| ==> ids[j] != ids[i]
  }

  /** One statement of the reorder loop: `order := i` where `id` matches. */
  function WriteOrder(links: map<LinkId, Link>, id: LinkId, i: int): (r: map<LinkId, Link>)
    ensures r.Keys == links.Keys
    ensures id in links ==> r[id] == links[id].(order := i)
    ensures forall k :: k in links && k != id ==> r[k] == links[k]
  {
    if id in links then links[id := links[id].(order := i)] else links
  }

  /** The reorder loop: for i = 0, 1, ..., |ids|-1 in turn, sets the `order`
      of the link with id `ids[i]` to i. Unknown ids match no row. Only the
      `order` column is written; a repeated id keeps its last index. */
  function WriteOrders(links: map<LinkId, Link>, ids: seq<LinkId>): (r: map<LinkId, Link>)
    ensures r.Keys == links.Keys
    decreases |ids|
  {
    if |ids| == 0 then links
    else WriteOrder(WriteOrders(links, ids[..|ids| - 1]), ids[|ids| - 1], |ids| - 1)
  }

  /** The reorder loop writes only the `order` column, and only of the links
      it names. */
  lemma {:induction false} WriteOrdersFrame(links: map<LinkId, Link>, ids: seq<LinkId>)
    ensures forall k :: k in links ==> WriteOrders(links, ids)[k] == links[k].(order := WriteOrders(links, ids)[k].order)
    ensures forall k :: k in links && k !in ids ==> WriteOrders(links, ids)[k] == links[k]
    decreases |ids|
  {
    if |ids| > 0 {
      var n := |ids| - 1;
      WriteOrdersFrame(links, ids[..n]);
      PrefixLastIndex(ids);
    }
  }

  /** After the loop, the link named at a last occurrence `i` has order `i`. */
  lemma {:induction false} WriteOrdersLastWins(links: map<LinkId, Link>, ids: seq<LinkId>)
    ensures forall i :: LastIndex(ids, i) && ids[i] in links ==> WriteOrders(links, ids)[ids[i]].order == i
    decreases |ids|
  {
    if |ids| > 0 {
      var n := |ids| - 1;
      WriteOrdersLastWins(links, ids[..n]);
      PrefixLastIndex(ids);
      forall i | LastIndex(ids, i) && ids[i] in links
        ensures WriteOrders(links, ids)[ids[i]].order == i
      {
        if i < n {
          assert LastIndex(ids[..n], i);
          assert ids[..n][i] == ids[i];
        }
      }
    }
  }

  /** Dropping the final element keeps every other last occurrence a last
      occurrence, and each such id differs from the final one. */
  lemma PrefixLastIndex(ids: seq<LinkId>)
    requires |ids| > 0
    ensures forall i :: LastIndex(ids, i) && i < |ids| - 1 ==>
      LastIndex(ids[..|ids| - 1], i) && ids[i] != ids[|ids| - 1]
    ensures forall k :: k !in ids ==> k !in ids[..|ids| - 1] && k != ids[|ids| - 1]
  {
  }

  /** The number of leading ids the database accepts: all of `ids`, or up to
      the first one outside the `integer` range. */
  function AcceptedPrefix(ids: seq<LinkId>): (n: nat)
    ensures n <= |ids|
    ensures forall i :: 0 <= i < n ==> Int32(ids[i])
    ensures n < |ids| ==> !Int32(ids[n])
  {
    if |ids| == 0 || !Int32(ids[0]) then 0
    else
      var n := 1 + AcceptedPrefix(ids[1..]);
      assert forall i :: 1 <= i < n ==> ids[i] == ids[1..][i - 1];
      n
  }

  /** The outcome of the reorder loop. The statements run one by one outside
      any transaction, so when one is refused the earlier writes stay and the
      promise rejects. */
  datatype Reorder =
    | Reordered(store: Store, links: seq<Link>)
    | Stopped(store: Store)

  /** Writes `order := i` for each `ids[i]` (no check that the link belongs to
      `p`) and returns profile `p`'s links as `GetLinks` reads them
      afterwards; an id outside the `integer` range stops the loop there. */
  function ReorderLinks(s: Store, p: ProfileId, ids: seq<LinkId>): (r: Reorder)
    requires WellFormed(s)
    ensures WellFormed(r.store)
    ensures r.Stopped? <==> exists i :: 0 <= i < |ids| && !Int32(ids[i])
    ensures r.Reordered? ==> r.store == s.(links := WriteOrders(s.links, ids))
    ensures r.Reordered? ==> Listing(r.store, p, r.links)
    ensures r.Reordered? ==> |r.links| == |ProfileIds(r.store.links, p)|
    ensures r.Stopped? ==> exists n ::
      && 0 <= n < |ids|
      && !Int32(ids[n])
      && (forall i :: 0 <= i < n ==> Int32(ids[i]))
      && r.store == s.(links := WriteOrders(s.links, ids[..n]))
  {
    var n := AcceptedPrefix(ids);
    var s' := s.(links := WriteOrders(s.links, ids[..n]));
    WriteOrdersFrame(s.links, ids[..n]);
    if n < |ids| then Stopped(s')
    else
      assert ids[..n] == ids;
      Reordered(s', GetLinks(s', p))
  }
}
