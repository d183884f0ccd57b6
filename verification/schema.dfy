/** The relational schema: users, profiles and links, the shapes the insert
    schemas accept, and the constraints the database enforces on every state. */
module Schema {
  import opened Wrappers

  /** The authentication provider's user id. */
  type UserId = string
  /** `serial` primary keys. */
  type ProfileId = int
  type LinkId = int

  /** A user row. Only the fields the modelled code reads or writes are kept. */
  datatype User = User(
    id: UserId,
    username: string,
    email: Option<string>,
    isAdmin: bool,
    isActivated: bool,
    activatedBy: Option<string>)

  /** A profile row; `bio`, `avatarUrl` and the two colours are nullable. */
  datatype Profile = Profile(
    id: ProfileId,
    userId: UserId,
    displayName: string,
    bio: Option<string>,
    slug: string,
    avatarUrl: Option<string>,
    themeColor: Option<string>,
    backgroundColor: Option<string>)

  /** A link row; every column is non-null. */
  datatype Link = Link(
    id: LinkId,
    profileId: ProfileId,
    title: string,
    url: string,
    icon: string,
    order: int)

  const DefaultThemeColor: string := "#000000"
  const DefaultBackgroundColor: string := "#ffffff"
  const DefaultLinkOrder: int := 0

  /** What the sign-in flow writes into the user row: the provider's id and
      the identity claims. The admin and activation columns are not part of it. */
  datatype UpsertUser = UpsertUser(id: UserId, username: string, email: Option<string>)

  /** What the profile insert schema accepts: `id` and `userId` are omitted, so
      a client cannot choose them. For a column with a default the outer
      option is "key present"; for the other nullable columns an absent key
      and an explicit null both store null. */
  datatype InsertProfile = InsertProfile(
    displayName: string,
    bio: Option<string>,
    slug: string,
    avatarUrl: Option<string>,
    themeColor: Option<Option<string>>,
    backgroundColor: Option<Option<string>>)

  /** What the link insert schema accepts: `id` and `profileId` are omitted. */
  datatype InsertLink = InsertLink(
    title: string,
    url: string,
    icon: string,
    order: Option<int>)

  /** The partial profile schema: every key may be left out (outer `None`);
      a nullable column may also be set to null (`Some(None)`). */
  datatype ProfilePatch = ProfilePatch(
    displayName: Option<string>,
    bio: Option<Option<string>>,
    slug: Option<string>,
    avatarUrl: Option<Option<string>>,
    themeColor: Option<Option<string>>,
    backgroundColor: Option<Option<string>>)

  /** The partial link schema. */
  datatype LinkPatch = LinkPatch(
    title: Option<string>,
    url: Option<string>,
    icon: Option<string>,
    order: Option<int>)

  const EmptyProfilePatch := ProfilePatch(None, None, None, None, None, None)
  const EmptyLinkPatch := LinkPatch(None, None, None, None)

  /** The whole database; `nextProfileId`/`nextLinkId` stand for the serial
      sequences. */
  datatype Store = Store(
    users: map<UserId, User>,
    profiles: map<ProfileId, Profile>,
    links: map<LinkId, Link>,
    nextProfileId: ProfileId,
    nextLinkId: LinkId)

  const EmptyStore := Store(map[], map[], map[], 1, 1)

  /** A new profile row: defaults fill the colour columns that were left out. */
  function NewProfile(id: ProfileId, userId: UserId, input: InsertProfile): (p: Profile)
    ensures p.id == id && p.userId == userId
    ensures p.displayName == input.displayName && p.slug == input.slug
    ensures p.bio == input.bio && p.avatarUrl == input.avatarUrl
    ensures input.themeColor.None? ==> p.themeColor == Some(DefaultThemeColor)
    ensures input.backgroundColor.None? ==> p.backgroundColor == Some(DefaultBackgroundColor)
    ensures input.themeColor.Some? ==> p.themeColor == input.themeColor.value
    ensures input.backgroundColor.Some? ==> p.backgroundColor == input.backgroundColor.value
  {
    Profile(id, userId, input.displayName, input.bio, input.slug, input.avatarUrl,
            input.themeColor.GetOr(Some(DefaultThemeColor)),
            input.backgroundColor.GetOr(Some(DefaultBackgroundColor)))
  }

  /** A new link row: `order` defaults to 0 when left out. */
  function NewLink(id: LinkId, profileId: ProfileId, input: InsertLink): (l: Link)
    ensures l.id == id && l.profileId == profileId
    ensures l.title == input.title && l.url == input.url && l.icon == input.icon
    ensures input.order.None? ==> l.order == DefaultLinkOrder
    ensures input.order.Some? ==> l.order == input.order.value
  {
    Link(id, profileId, input.title, input.url, input.icon, input.order.GetOr(DefaultLinkOrder))
  }

  /** A partial profile update: the supplied keys are written, every other
      column (including `id` and the owner `userId`) keeps its value. */
  function ApplyProfilePatch(p: Profile, u: ProfilePatch): (r: Profile)
    ensures r.id == p.id && r.userId == p.userId
    ensures r.displayName == (if u.displayName.Some? then u.displayName.value else p.displayName)
    ensures r.bio == (if u.bio.Some? then u.bio.value else p.bio)
    ensures r.slug == (if u.slug.Some? then u.slug.value else p.slug)
    ensures r.avatarUrl == (if u.avatarUrl.Some? then u.avatarUrl.value else p.avatarUrl)
    ensures r.themeColor == (if u.themeColor.Some? then u.themeColor.value else p.themeColor)
    ensures r.backgroundColor == (if u.backgroundColor.Some? then u.backgroundColor.value else p.backgroundColor)
  {
    p.(displayName := u.displayName.GetOr(p.displayName),
       bio := u.bio.GetOr(p.bio),
       slug := u.slug.GetOr(p.slug),
       avatarUrl := u.avatarUrl.GetOr(p.avatarUrl),
       themeColor := u.themeColor.GetOr(p.themeColor),
       backgroundColor := u.backgroundColor.GetOr(p.backgroundColor))
  }

  /** A partial link update: the supplied keys are written; `id` and the
      owning `profileId` cannot be supplied and never change. */
  function ApplyLinkPatch(l: Link, u: LinkPatch): (r: Link)
    ensures r.id == l.id && r.profileId == l.profileId
    ensures r.title == (if u.title.Some? then u.title.value else l.title)
    ensures r.url == (if u.url.Some? then u.url.value else l.url)
    ensures r.icon == (if u.icon.Some? then u.icon.value else l.icon)
    ensures r.order == (if u.order.Some? then u.order.value else l.order)
  {
    l.(title := u.title.GetOr(l.title),
       url := u.url.GetOr(l.url),
       icon := u.icon.GetOr(l.icon),
       order := u.order.GetOr(l.order))
  }

  /** Sending the same partial update twice has the effect of sending it once,
      and an update with no keys changes nothing. */
  lemma ProfilePatchIdempotent(p: Profile, u: ProfilePatch)
    ensures ApplyProfilePatch(ApplyProfilePatch(p, u), u) == ApplyProfilePatch(p, u)
    ensures ApplyProfilePatch(p, EmptyProfilePatch) == p
  {
  }

  lemma LinkPatchIdempotent(l: Link, u: LinkPatch)
    ensures ApplyLinkPatch(ApplyLinkPatch(l, u), u) == ApplyLinkPatch(l, u)
    ensures ApplyLinkPatch(l, EmptyLinkPatch) == l
  {
  }

  // ---------------------------------------------------------------------
  // Constraints the database enforces on every state
  // ---------------------------------------------------------------------

  /** Each user row is stored under its own id; usernames are unique. */
  predicate UsersValid(users: map<UserId, User>)
  {
    && (forall k :: k in users ==> users[k].id == k)
    && (forall a, b :: a in users && b in users && a != b ==> users[a].username != users[b].username)
  }

  /** Each profile is stored under its own serial id, references an existing
      user, and slugs are unique. */
  predicate ProfilesValid(profiles: map<ProfileId, Profile>, users: map<UserId, User>, next: ProfileId)
  {
    && (forall k :: k in profiles ==> profiles[k].id == k && k < next)
    && (forall k :: k in profiles ==> profiles[k].userId in users)
    && (forall a, b :: a in profiles && b in profiles && a != b ==> profiles[a].slug != profiles[b].slug)
  }

  /** The values PostgreSQL accepts for an `integer` column or parameter:
      32-bit two's complement. */
  const MaxInt32 := 0x7fff_ffff

  predicate Int32(x: int)
  {
    -0x8000_0000 <= x <= MaxInt32
  }

  /** Each link is stored under its own serial id, which fits the `integer`
      column, and references an existing profile. */
  predicate LinksValid(links: map<LinkId, Link>, profiles: map<ProfileId, Profile>, next: LinkId)
  {
    && (forall k :: k in links ==> links[k].id == k && k < next && Int32(k))
    && (forall k :: k in links ==> links[k].profileId in profiles)
  }

  predicate WellFormed(s: Store)
  {
    && UsersValid(s.users)
    && ProfilesValid(s.profiles, s.users, s.nextProfileId)
    && LinksValid(s.links, s.profiles, s.nextLinkId)
  }

  /** Links are stored under their own ids (the part of `LinksValid` the
      ordering code relies on). */
  predicate LinksKeyed(links: map<LinkId, Link>)
  {
    forall k :: k in links ==> links[k].id == k
  }
}
