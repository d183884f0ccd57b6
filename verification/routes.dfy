/** The HTTP handlers: each request is a transition of the store plus a
    response. Authentication is an input (`Session`); only the outcome of the
    session middleware is modelled. */
module Routes {
  import opened Wrappers
  import opened Schema
  import opened LinkOrder
  import opened Storage

  /** Who is calling, as the session middleware presents it. */
  datatype Session = Anonymous | SignedIn(id: UserId, username: string)

  datatype Body =
    | NoBody
    | Message(text: string)
    | ProfileWithLinks(profile: Profile, links: seq<Link>)
    | PublicCard(card: PublicProfile)
    | ProfileRow(profile: Profile)
    /** `json(undefined)` when no row matched is `LinkRow(None)`. */
    | LinkRow(link: Option<Link>)
    | LinkRows(links: seq<Link>)

  datatype Response = Response(status: int, body: Body)

  /** The state after a request and the answer sent. */
  datatype Handled = Handled(store: Store, response: Response)

  /** The body of `POST /api/links` as sent. The insert schema has no
      `profileId` key, so parsing drops whatever the client put there. */
  datatype CreateLinkBody = CreateLinkBody(fields: InsertLink, profileId: Option<ProfileId>)

  datatype Request =
    | GetPublicProfile(slug: string)
    | GetMyProfile
    | UpdateMyProfile(profilePatch: ProfilePatch)
    | CreateMyLink(body: CreateLinkBody)
    | UpdateLinkById(id: LinkId, linkPatch: LinkPatch)
    | DeleteLinkById(id: LinkId)
    | ReorderMyLinks(linkIds: seq<LinkId>)

  /** Every route except the public slug lookup sits behind `requireAuth`. */
  predicate Protected(req: Request)
  {
    !req.GetPublicProfile?
  }

  const Unauthorized := Response(401, Message("Unauthorized"))
  const ProfileNotFound := Response(404, Message("Profile not found"))
  /** A rejected store write rejects the handler's promise. The handlers
      have no `try`/`catch`; the answer is taken to be the framework's 500. */
  const ServerError := Response(500, NoBody)

  const WelcomeBio := "Welcome to my digital card!"

  /** The profile created on a user's first `GET /api/profiles/me`. */
  function FirstProfile(username: string): (input: InsertProfile)
    ensures input.displayName == username && input.slug == username
    ensures input.bio == Some(WelcomeBio) && input.avatarUrl.None?
    ensures input.themeColor == Some(Some(DefaultThemeColor))
    ensures input.backgroundColor == Some(Some(DefaultBackgroundColor))
  {
    InsertProfile(username, Some(WelcomeBio), username, None,
                  Some(Some("#000000")), Some(Some("#ffffff")))
  }

  /** `GET /api/public/profiles/:slug`: no authentication; 404 exactly when
      no profile has the slug. */
  function GetPublic(s: Store, slug: string): (h: Handled)
    requires WellFormed(s)
    ensures h.store == s
    ensures h.response.status in {200, 404}
    ensures h.response.status == 404 <==> !exists k :: k in s.profiles && s.profiles[k].slug == slug
    ensures h.response.status == 404 ==> h.response.body == Message("Profile not found")
    ensures h.response.status == 200 ==>
      && h.response.body.PublicCard?
      && h.response.body.card.profile.slug == slug
      && h.response.body.card.profile.id in s.profiles
      && s.profiles[h.response.body.card.profile.id] == h.response.body.card.profile
      && Listing(s, h.response.body.card.profile.id, h.response.body.card.links)
      && (h.response.body.card.isActivated <==>
            h.response.body.card.profile.userId in s.users &&
            s.users[h.response.body.card.profile.userId].isActivated)
  {
    match GetProfileBySlug(s, slug)
    case None => Handled(s, Response(404, Message("Profile not found")))
    case Some(card) => Handled(s, Response(200, PublicCard(card)))
  }

  /** `GET /api/profiles/me`: the caller's profile and its links; a default
      profile is created only when the caller has none. */
  function GetMe(s: Store, session: Session): (h: Handled)
    requires WellFormed(s)
    ensures WellFormed(h.store)
    ensures session.Anonymous? ==> h == Handled(s, Unauthorized)
    ensures h.response.status == 200 ==> h.response.body.ProfileWithLinks?
    ensures session.SignedIn? && ProfilesOf(s, session.id) != {} ==> h.store == s && h.response.status == 200
    ensures session.SignedIn? && ProfilesOf(s, session.id) == {} && h.response.status == 200 ==>
      var p := h.response.body.profile;
      && p.id !in s.profiles
      && h.store == s.(profiles := s.profiles[p.id := p], nextProfileId := h.store.nextProfileId)
      && p.userId == session.id
      && p.displayName == session.username && p.slug == session.username
      && p.bio == Some(WelcomeBio)
      && p.themeColor == Some(DefaultThemeColor) && p.backgroundColor == Some(DefaultBackgroundColor)
    ensures session.SignedIn? && ProfilesOf(s, session.id) == {} ==>
      (h.response.status == 200 <==>
         session.id in s.users && !exists k :: k in s.profiles && s.profiles[k].slug == session.username)
    ensures session.SignedIn? && h.response.status != 200 ==> h.response == ServerError
    ensures h.response.status != 200 ==> h.store == s
    ensures h.response.status == 200 ==>
      && h.response.body.profile.userId == session.id
      && h.response.body.profile.id in h.store.profiles
      && h.store.profiles[h.response.body.profile.id] == h.response.body.profile
      && Listing(h.store, h.response.body.profile.id, h.response.body.links)
  {
    match session
    case Anonymous => Handled(s, Unauthorized)
    case SignedIn(uid, username) =>
      match GetProfileByUserId(s, uid)
      case Some(p) => Handled(s, Response(200, ProfileWithLinks(p, GetLinks(s, p.id))))
      case None =>
        match CreateProfile(s, uid, FirstProfile(username))
        case Written(s1, p) => Handled(s1, Response(200, ProfileWithLinks(p, GetLinks(s1, p.id))))
        case _ => Handled(s, ServerError)
  }

  /** `PATCH /api/profiles/me`: a partial update of the caller's own profile. */
  function PatchMe(s: Store, session: Session, patch: ProfilePatch): (h: Handled)
    requires WellFormed(s)
    ensures WellFormed(h.store)
    ensures session.Anonymous? ==> h == Handled(s, Unauthorized)
    ensures session.SignedIn? && ProfilesOf(s, session.id) == {} ==> h == Handled(s, ProfileNotFound)
    ensures session.SignedIn? && ProfilesOf(s, session.id) != {} ==>
      var p := GetProfileByUserId(s, session.id).value;
      && (h.response.status == 200 <==>
            && patch != EmptyProfilePatch
            && forall k :: k in s.profiles && k != p.id ==> s.profiles[k].slug != ApplyProfilePatch(p, patch).slug)
      && (h.response.status != 200 ==> h.response == ServerError)
      && (h.response.status == 200 ==> h.response.body.ProfileRow? && h.response.body.profile.id == p.id)
    ensures h.response.status != 200 ==> h.store == s
    ensures h.response.status == 200 ==> session.SignedIn? && h.response.body.ProfileRow?
    ensures h.response.status == 200 ==>
      var p := h.response.body.profile;
      && p.id in s.profiles && s.profiles[p.id].userId == session.id
      && h.store == s.(profiles := s.profiles[p.id := p])
      && p == ApplyProfilePatch(s.profiles[p.id], patch)
  {
    match session
    case Anonymous => Handled(s, Unauthorized)
    case SignedIn(uid, _) =>
      match GetProfileByUserId(s, uid)
      case None => Handled(s, ProfileNotFound)
      case Some(p) =>
        match UpdateProfile(s, p.id, patch)
        case Written(s1, row) => Handled(s1, Response(200, ProfileRow(row)))
        case _ => Handled(s, ServerError)
  }

  /** `POST /api/links`: the new link goes on the caller's own profile,
      whatever `profileId` the body carries. */
  function PostLink(s: Store, session: Session, body: CreateLinkBody): (h: Handled)
    requires WellFormed(s)
    ensures WellFormed(h.store)
    ensures session.Anonymous? ==> h == Handled(s, Unauthorized)
    ensures session.SignedIn? && ProfilesOf(s, session.id) == {} ==> h == Handled(s, ProfileNotFound)
    ensures session.SignedIn? && ProfilesOf(s, session.id) != {} ==>
      (h.response.status == 201 <==> Int32(s.nextLinkId))
    ensures session.SignedIn? && h.response.status != 201 && ProfilesOf(s, session.id) != {} ==>
      h.response == ServerError
    ensures h.response.status != 201 ==> h.store == s
    ensures h.response.status == 201 ==>
      session.SignedIn? && h.response.body.LinkRow? && h.response.body.link.Some?
    ensures h.response.status == 201 ==>
      var l := h.response.body.link.value;
      && l.profileId in ProfilesOf(s, session.id)
      && l.id !in s.links
      && h.store == s.(links := s.links[l.id := l], nextLinkId := h.store.nextLinkId)
      && l == NewLink(l.id, l.profileId, body.fields)
  {
    match session
    case Anonymous => Handled(s, Unauthorized)
    case SignedIn(uid, _) =>
      match GetProfileByUserId(s, uid)
      case None => Handled(s, ProfileNotFound)
      case Some(p) =>
        match CreateLink(s, p.id, body.fields)
        case Written(s1, row) => Handled(s1, Response(201, LinkRow(Some(row))))
        case _ => Handled(s, ServerError)
  }

  /** `PATCH /api/links/:id`: updates any link by id, with no check that it
      belongs to the caller; an unknown id still answers 200, with no body.
      A patch with no field fails in the query builder, and an id outside the
      `integer` range fails in the database. */
  function PatchLink(s: Store, session: Session, id: LinkId, patch: LinkPatch): (h: Handled)
    requires WellFormed(s)
    ensures WellFormed(h.store)
    ensures session.Anonymous? ==> h == Handled(s, Unauthorized)
    ensures session.SignedIn? && (patch == EmptyLinkPatch || !Int32(id)) ==> h == Handled(s, ServerError)
    ensures session.SignedIn? ==> (h.response.status == 200 <==> patch != EmptyLinkPatch && Int32(id))
    ensures session.SignedIn? && patch != EmptyLinkPatch && Int32(id) && id !in s.links ==>
      h == Handled(s, Response(200, LinkRow(None)))
    ensures session.SignedIn? && patch != EmptyLinkPatch && id in s.links ==>
      && h.store == s.(links := s.links[id := ApplyLinkPatch(s.links[id], patch)])
      && h.response.body == LinkRow(Some(ApplyLinkPatch(s.links[id], patch)))
  {
    match session
    case Anonymous => Handled(s, Unauthorized)
    case SignedIn(_, _) =>
      match UpdateLink(s, id, patch)
      case Written(s1, row) => Handled(s1, Response(200, LinkRow(Some(row))))
      case NoRow => Handled(s, Response(200, LinkRow(None)))
      case Rejected => Handled(s, ServerError)
  }

  /** `DELETE /api/links/:id`: deletes any link by id and answers 204, whether
      or not the link existed or belonged to the caller. An id outside the
      `integer` range fails in the database. */
  function DeleteLinkRoute(s: Store, session: Session, id: LinkId): (h: Handled)
    requires WellFormed(s)
    ensures WellFormed(h.store)
    ensures session.Anonymous? ==> h == Handled(s, Unauthorized)
    ensures session.SignedIn? && !Int32(id) ==> h == Handled(s, ServerError)
    ensures session.SignedIn? && Int32(id) ==> h.response == Response(204, NoBody)
    ensures session.SignedIn? && Int32(id) ==> h.store.links.Keys == s.links.Keys - {id}
    ensures h.store.users == s.users && h.store.profiles == s.profiles
    ensures forall k :: k in h.store.links ==> h.store.links[k] == s.links[k]
  {
    match session
    case Anonymous => Handled(s, Unauthorized)
    case SignedIn(_, _) =>
      match DeleteLink(s, id)
      case Some(s1) => Handled(s1, Response(204, NoBody))
      case None => Handled(s, ServerError)
  }

  /** `POST /api/links/reorder`: runs the reorder loop over the raw `linkIds`
      and answers the caller's links in their new order. An id outside the
      `integer` range stops the loop with a 500, keeping the writes before it. */
  function PostReorder(s: Store, session: Session, linkIds: seq<LinkId>): (h: Handled)
    requires WellFormed(s)
    ensures WellFormed(h.store)
    ensures session.Anonymous? ==> h == Handled(s, Unauthorized)
    ensures session.SignedIn? && ProfilesOf(s, session.id) == {} ==> h == Handled(s, ProfileNotFound)
    ensures session.SignedIn? && ProfilesOf(s, session.id) != {} ==>
      (h.response.status == 200 <==> forall i :: 0 <= i < |linkIds| ==> Int32(linkIds[i]))
    ensures session.SignedIn? && ProfilesOf(s, session.id) != {} && h.response.status != 200 ==>
      && h.response == ServerError
      && exists n ::
        && 0 <= n < |linkIds|
        && !Int32(linkIds[n])
        && (forall i :: 0 <= i < n ==> Int32(linkIds[i]))
        && h.store == s.(links := WriteOrders(s.links, linkIds[..n]))
    ensures h.response.status == 200 ==>
      && session.SignedIn?
      && h.store == s.(links := WriteOrders(s.links, linkIds))
      && h.response.body.LinkRows?
      && exists p :: p in ProfilesOf(s, session.id) && Listing(h.store, p, h.response.body.links)
  {
    match session
    case Anonymous => Handled(s, Unauthorized)
    case SignedIn(uid, _) =>
      match GetProfileByUserId(s, uid)
      case None => Handled(s, ProfileNotFound)
      case Some(p) =>
        match ReorderLinks(s, p.id, linkIds)
        case Reordered(s1, links) => Handled(s1, Response(200, LinkRows(links)))
        case Stopped(s1) => Handled(s1, ServerError)
  }

  /** The route table. */
  function Handle(s: Store, session: Session, req: Request): (h: Handled)
    requires WellFormed(s)
    ensures WellFormed(h.store)
    ensures Protected(req) && session.Anonymous? ==> h == Handled(s, Unauthorized)
  {
    match req
    case GetPublicProfile(slug) => GetPublic(s, slug)
    case GetMyProfile => GetMe(s, session)
    case UpdateMyProfile(patch) => PatchMe(s, session, patch)
    case CreateMyLink(body) => PostLink(s, session, body)
    case UpdateLinkById(id, patch) => PatchLink(s, session, id, patch)
    case DeleteLinkById(id) => DeleteLinkRoute(s, session, id)
    case ReorderMyLinks(ids) => PostReorder(s, session, ids)
  }
}

/** Properties of the handlers that relate several requests. */
module RouteLaws {
  import opened Wrappers
  import opened Schema
  import opened Storage
  import opened Routes
  import Tables

  /** `GET /api/profiles/me` is idempotent: once it has succeeded, asking
      again creates nothing and returns the same answer. */
  lemma GetMeIdempotent(s: Store, uid: UserId, username: string)
    requires WellFormed(s)
    requires GetMe(s, SignedIn(uid, username)).response.status == 200
    ensures GetMe(GetMe(s, SignedIn(uid, username)).store, SignedIn(uid, username)) == GetMe(s, SignedIn(uid, username))
  {
    var h1 := GetMe(s, SignedIn(uid, username));
    if ProfilesOf(s, uid) == {} {
      var p := h1.response.body.profile;
      var s1 := h1.store;
      assert ProfilesOf(s1, uid) == {p.id} by {
        forall k | k in ProfilesOf(s1, uid)
          ensures k == p.id
        {
          if k != p.id {
            assert false;
          }
        }
      }
      assert Tables.MinKey({p.id}) == p.id;
    }
  }

  /** Whatever `profileId` the body of `POST /api/links` names, the request
      has the same effect and answer. */
  lemma CreateIgnoresClaimedProfile(s: Store, session: Session, fields: InsertLink, a: Option<ProfileId>, b: Option<ProfileId>)
    requires WellFormed(s)
    ensures PostLink(s, session, CreateLinkBody(fields, a)) == PostLink(s, session, CreateLinkBody(fields, b))
    ensures PostLink(s, session, CreateLinkBody(fields, a)).response.status == 201 ==>
      PostLink(s, session, CreateLinkBody(fields, a)).response.body.link.value.profileId in ProfilesOf(s, session.id)
  {
  }

  /** Link update and delete never consult ownership: a signed-in user who
      does not own link `id` still rewrites or removes it. */
  lemma ForeignLinkWrites(s: Store, uid: UserId, username: string, id: LinkId, patch: LinkPatch)
    requires WellFormed(s)
    requires id in s.links && s.links[id].profileId !in ProfilesOf(s, uid)
    ensures id !in DeleteLinkRoute(s, SignedIn(uid, username), id).store.links
    ensures PatchLink(s, SignedIn(uid, username), id, patch).store.links[id] == ApplyLinkPatch(s.links[id], patch)
  {
  }

  /** An id past the `integer` range fails in the database: the delete
      answers 500, and a reorder naming a valid id first keeps that write
      before answering 500. */
  lemma OverflowingIdFails(s: Store, uid: UserId, username: string, k: LinkId)
    requires WellFormed(s)
    requires ProfilesOf(s, uid) != {}
    requires Int32(k)
    ensures DeleteLinkRoute(s, SignedIn(uid, username), 3_000_000_000) == Handled(s, ServerError)
    ensures PostReorder(s, SignedIn(uid, username), [k, 3_000_000_000])
      == Handled(s.(links := WriteOrders(s.links, [k])), ServerError)
  {
    var ids := [k, 3_000_000_000];
    var h := PostReorder(s, SignedIn(uid, username), ids);
    assert !Int32(ids[1]);
    var n :| 0 <= n < |ids| && !Int32(ids[n]) && (forall i :: 0 <= i < n ==> Int32(ids[i]))
      && h.store == s.(links := WriteOrders(s.links, ids[..n]));
    assert n == 1 && ids[..n] == [k];
  }

  /** Every protected route answers 401 to an unauthenticated caller and
      changes nothing. */
  lemma AnonymousIsRejected(s: Store, req: Request)
    requires WellFormed(s)
    requires Protected(req)
    ensures Handle(s, Anonymous, req) == Handled(s, Unauthorized)
  {
  }
}
