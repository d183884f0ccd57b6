# Digital business card — a Dafny model of its core

The system is a "digital business card" web app. A signed-in user owns a
profile with a display name, bio, slug, avatar and two colours. The profile
holds an ordered list of links, each with a title, URL, free-text icon tag and
an integer `order`. Anyone can read the profile at `/api/public/profiles/:slug`.
The public page renders it, and its "Save Contact" button downloads a vCard.
The dashboard's links page creates, edits, deletes and drag-reorders links.

This project models that core as pure Dafny functions over an immutable store
and proves properties of it:

- `Schema` (`schema.dfy`): the three tables as datatypes. It also has the
  insert defaults, partial updates, and the constraints the database keeps:
  ids, foreign keys, unique slugs and unique usernames.
- `Tables`, `LinkOrder`: scanning a keyed table, and sorting by `order`. Also
  "dense" orders: a profile's n links use exactly the orders 0..n-1.
- `Storage` (`storage.dfy`): the storage methods. Each one is a transition of
  the store that keeps it well formed. A write that breaks a constraint is
  `Rejected`; an update or activation that matches no row is `NoRow`. An
  update that supplies no column at all is `Rejected` too: the query
  builder (drizzle-orm) refuses it with "No values to set" before any
  query runs. The database also refuses a link id outside its 32-bit
  `integer` range; the reorder loop then stops, and the writes it already
  made stay.
- `Routes`, `RouteLaws` (`routes.dfy`): the HTTP handlers. Each one is a
  request turned into a new store plus a response. The session middleware
  appears as an input (`Session`).
- `Density`: how creating, reordering and deleting links affect dense orders.
- `Api` (`api.dfy`): the route table, the declared reorder body schema, and
  `buildUrl`.
- `LinksPage`, `Dashboard`: the links page's dialog, and the requests it
  sends. The dashboard lemmas prove those requests keep orders dense.
- `Icons`, `PublicPage`, `VCardText`: the icon lookup, the public page's
  fallbacks and tiles, and the vCard text.
- `Layout`: the client-side admin check and the navigation tabs.
- `Text`, `Wrappers`: `String`/`Number` on integers, ASCII `toLowerCase`, and
  `Option`.

User ids are strings in the model. `server/storage.ts` and `server/routes.ts`
treat them as strings (`getUser(id: string)`, `req.user.id`). `shared/schema.ts`
declares `users.id` and `profiles.user_id` as integers. The model follows the
code that runs the queries.

## Model

| member | source | states |
|---|---|---|
| Schema.NewProfile | shared/schema.ts:15-24 | A new profile keeps every supplied column; an omitted theme colour becomes `#000000`, an omitted background `#ffffff`, an explicit null stays null |
| Schema.NewLink | shared/schema.ts:26-33 | A new link keeps title, url and icon; an omitted `order` becomes 0 |
| Schema.ApplyProfilePatch | server/storage.ts:92-95 | A partial update writes exactly the supplied columns; id and owner never change |
| Schema.ApplyLinkPatch | server/storage.ts:106-109 | A partial link update writes exactly the supplied columns; id and owning profile never change |
| Schema.ProfilePatchIdempotent | server/storage.ts:92-95 | Applying a profile update twice equals applying it once; an empty update is the identity |
| Schema.LinkPatchIdempotent | server/storage.ts:106-109 | Applying a link update twice equals applying it once; an empty update is the identity |
| Tables.MinKey | server/storage.ts:67-70 | The key picked is in the set and no larger than any other key (the first row of an id-ordered scan) |
| Tables.ScanById | server/storage.ts:97-99 | The scan returns every row of the key set exactly once (same multiset, one per key) |
| LinkOrder.InsertByOrder | server/storage.ts:97-99 | Inserting into an `order`-sorted list keeps it sorted and adds exactly that row |
| LinkOrder.SortByOrder | server/storage.ts:98 | `ORDER BY order ASC`: the result is sorted by `order` and is a permutation of the input |
| LinkOrder.SortedIsFixed | client/src/pages/public-profile.tsx:44 | Sorting an already sorted list returns it as it is, ties included, as a stable sort does |
| LinkOrder.SortedUnique | client/src/pages/public-profile.tsx:44 | When no two links share an `order`, any two sorted permutations of them are equal |
| LinkOrder.ProfileIds | server/storage.ts:98 | A link id is selected exactly when the link belongs to the profile |
| LinkOrder.PermutationOfSet | server/storage.ts:115-122 | A sequence with the same multiset as a set has each member once, nothing else, and the set's size |
| LinkOrder.DenseIsOnto | server/storage.ts:115-122 | The orders of a dense profile are exactly 0..n-1 (pigeonhole) |
| LinkOrder.OrdersArePositions | client/src/pages/public-profile.tsx:44 | In a sorted list of distinct orders from 0..n-1, each link's order equals its position |
| Storage.GetUserByUsername | server/storage.ts:37-40 | Finds a user exactly when one has that username, and returns that stored row |
| Storage.UpsertUser | server/storage.ts:47-60 | Inserts, or on an id conflict overwrites username and email and keeps admin and activation state; rejected exactly when another user holds the username; the store stays well formed |
| Storage.ActivateUser | server/storage.ts:123-135 | Marks the user activated and credited to the admin; no row exactly for an unknown id; other columns kept |
| Storage.ActivateTwice | server/storage.ts:123-135 | Re-activation keeps the user activated and credits the latest admin; repeating the same call changes nothing |
| Storage.ProfilesOf | server/storage.ts:68 | A profile is selected exactly when the user owns it |
| Storage.GetProfileByUserId | server/storage.ts:67-70 | No profile exactly when the user owns none; otherwise one of the user's stored profiles |
| Storage.CreateProfile | server/storage.ts:87-90 | Rejected exactly when the user is missing or the slug is taken; otherwise adds one fresh row built with the defaults and keeps the store well formed |
| Storage.InsertProfileKeepsConstraints | server/storage.ts:87-90 | Inserting a profile with a fresh id, an existing owner and an unused slug keeps every constraint |
| Storage.UpdateProfile | server/storage.ts:92-95 | Rejected exactly when the patch supplies no field, or the new slug belongs to another profile; otherwise no row exactly for an unknown id, and else only that row changes |
| Storage.GetProfileBySlug | server/storage.ts:72-85 | Found exactly when a profile has the slug; returns that stored profile, its links sorted by order, and activation true exactly when the owner exists and is activated |
| Storage.GetLinks | server/storage.ts:97-99 | The profile's links, each exactly once, sorted by `order` |
| Storage.CreateLink | server/storage.ts:101-104 | Rejected exactly when the profile is missing or the serial sequence has passed 2^31-1; otherwise adds one fresh link row and keeps the store well formed |
| Storage.InsertLinkKeepsConstraints | server/storage.ts:101-104 | Inserting a link with a fresh id and an existing profile keeps every constraint |
| Storage.UpdateLink | server/storage.ts:106-109 | Rejected exactly when the patch supplies no field or the id is outside the 32-bit `integer` range; otherwise no row exactly for an unknown id, whoever owns the link, and else only that row changes, to the patched row |
| Storage.DeleteLink | server/storage.ts:111-113 | Fails exactly for an id outside the 32-bit `integer` range; otherwise removes that key only, and every other row keeps all its values, order included |
| Storage.WriteOrder | server/storage.ts:117-119 | One loop step sets the named link's order and touches no other row |
| Storage.WriteOrders | server/storage.ts:116-120 | The loop keeps the key set; unknown ids match no row |
| Storage.WriteOrdersFrame | server/storage.ts:116-120 | The loop writes only the `order` column, and only of links it names |
| Storage.WriteOrdersLastWins | server/storage.ts:116-120 | A link named several times ends with the index of its last occurrence |
| Storage.PrefixLastIndex | server/storage.ts:116-120 | Dropping the final id keeps earlier last occurrences last |
| Storage.AcceptedPrefix | server/storage.ts:116-120 | The loop gets as far as the first id outside the 32-bit range: every id before it is in range |
| Storage.ReorderLinks | server/storage.ts:115-122 | Writes the loop over the raw ids, with no ownership check, then returns the profile's listing, one row per link; stops exactly when some id is outside the 32-bit range, keeping the writes for the ids before the first such id |
| Density.ListingRows | server/storage.ts:97-99 | Every row of a listing is a stored link of the profile, ids do not repeat, and every link of the profile appears |
| Density.PositionsFromDense | server/storage.ts:97-99 | On a dense profile the i-th listed link has order i |
| Density.DenseFromPositions | server/storage.ts:97-99 | If the i-th listed link has order i for every i, the profile is dense |
| Density.DenseIffPositional | server/storage.ts:97-99 | Dense exactly when `getLinks` shows order i at position i |
| Density.CreateKeepsDense | client/src/pages/dashboard/links.tsx:56 | Creating with `order = n` on a dense profile succeeds exactly while the serial sequence is in range, and then keeps the profile dense and adds one link |
| Density.WriteOrdersKeepsOwners | server/storage.ts:115-122 | Reordering moves no link to another profile |
| Density.WritePermutationOrders | server/storage.ts:115-122 | Over a permutation of the profile's ids, the link at index i gets order i and the profile is dense |
| Density.ListingFollowsIds | server/storage.ts:121 | When the named links have orders 0..n-1 by index, the listing names them in that sequence |
| Density.ReorderByPermutation | server/storage.ts:115-122 | Reordering by a permutation runs to the end, makes the profile dense, reads the links back in the submitted order, and leaves other profiles untouched |
| Density.DeleteLeavesGap | server/storage.ts:111-113 | Deleting a stored link succeeds; from a dense profile it leaves orders 0..n-1 minus the deleted order; dense again exactly when the last link went; the rest keep their orders |
| Routes.FirstProfile | server/routes.ts:38-45 | The first profile uses the username as display name and slug, the welcome bio, and black/white colours |
| Routes.GetPublic | server/routes.ts:16-22 | Unauthenticated; 404 with "Profile not found" exactly when no profile has the slug; otherwise the stored profile row with that slug, its sorted links, and `isActivated` exactly when its owner is an activated user; the store is unchanged |
| Routes.GetMe | server/routes.ts:32-49 | 401 when anonymous. A user with a profile gets it and its sorted links, store unchanged. A user without one gets a new default profile exactly when the user row exists and no profile holds the username as slug; otherwise the insert is rejected, the answer is the 500 of a failed handler and nothing changes |
| Routes.PatchMe | server/routes.ts:51-58 | 401 anonymous, 404 without a profile; with one, 200 exactly when the patch supplies some field and the patched slug is held by no other profile, and then exactly the caller's own profile becomes the patched row; otherwise the 500 of a failed handler and nothing changes |
| Routes.PostLink | server/routes.ts:60-67 | 401 anonymous, 404 without a profile; otherwise 201 with one new link on the caller's profile exactly while the serial sequence is in range, else the 500 of a failed handler |
| Routes.PatchLink | server/routes.ts:69-75 | A signed-in user's request answers 200 exactly when the patch is non-empty and `id` is in the 32-bit range, and then patches link `id` with no ownership check; an unknown id answers with no body; otherwise it is the 500 of a failed handler and changes nothing |
| Routes.DeleteLinkRoute | server/routes.ts:77-80 | Any signed-in user gets 204 and link `id` is gone when `id` is in the 32-bit range, and a 500 with nothing changed otherwise; no other row changes |
| Routes.PostReorder | server/routes.ts:82-89 | 401 anonymous, 404 without a profile; with one, 200 exactly when every id is in the 32-bit range: runs the loop over the raw ids and answers a sorted listing of one of the caller's profiles; otherwise a 500 after the writes for the ids before the first out-of-range one |
| Routes.Handle | server/routes.ts:25-30 | Every route keeps the store well formed; protected routes answer 401 to anonymous callers |
| RouteLaws.GetMeIdempotent | server/routes.ts:32-49 | A second `GET /api/profiles/me` after a success creates nothing and answers the same |
| RouteLaws.CreateIgnoresClaimedProfile | server/routes.ts:64-65 | The `profileId` a create body claims has no effect; the link lands on the caller's profile |
| RouteLaws.ForeignLinkWrites | server/routes.ts:69-80 | A user can patch or delete a link on someone else's profile |
| RouteLaws.OverflowingIdFails | server/routes.ts:77-89 | `DELETE /api/links/3000000000` answers 500; a reorder of `[k, 3000000000]` keeps the write for `k` and answers 500 |
| RouteLaws.AnonymousIsRejected | server/routes.ts:25-30 | Every protected request from an anonymous caller answers 401 and leaves the store as it was |
| Api.EndpointsDistinct | shared/routes.ts:16-83 | No two routes share method and path |
| Api.Numbers | shared/routes.ts:76 | An array parses exactly when every item is a number, and yields those numbers in order |
| Api.ParseReorderBody | shared/routes.ts:76 | The declared reorder input accepts exactly an object with a `linkIds` number array, and yields its numbers |
| Api.ReorderBodyRoundTrip | client/src/hooks/use-profile.ts:127 | The body the client sends, `{ linkIds }`, parses back to the same ids |
| Api.FindFrom | shared/routes.ts:89 | The first index at or after the start where the pattern occurs, or none when it never occurs |
| Api.ReplaceFirst | shared/routes.ts:89 | `replace` with a string pattern swaps only the first occurrence, and leaves text without one unchanged |
| Api.ValueText | shared/routes.ts:89 | A string value is substituted as it is; a number is substituted as text that `Number` reads back as the same number |
| Api.Substitute | shared/routes.ts:88-90 | Applying the entries in turn leaves a URL that holds none of their placeholders unchanged |
| Api.BuildUrl | shared/routes.ts:85-93 | Without params, or with none, the path is returned unchanged |
| Api.AbsentKeyUnchanged | shared/routes.ts:88-90 | A key whose placeholder does not occur leaves the URL unchanged |
| Api.FirstOccurrenceOnly | shared/routes.ts:88-90 | Only the first occurrence of `:key` is filled; the text after it is kept |
| Api.FillPlaceholder | shared/routes.ts:88-90 | When the only colon starts `:key`, the value replaces the placeholder |
| Api.LinkUrl | client/src/hooks/use-profile.ts:85 | `buildUrl("/api/links/:id", { id })` is `/api/links/` followed by the id's decimal form |
| Api.SlugUrl | shared/routes.ts:29 | `buildUrl` on the public path gives `/api/public/profiles/` followed by the slug |
| Api.LinkUrlRoundTrip | server/routes.ts:73 | `Number(req.params.id)` on the URL the client built recovers the id |
| Text.NatToString | shared/routes.ts:89 | `String(n)` is a non-empty string of decimal digits |
| Text.IntToString | shared/routes.ts:89 | `String(n)` is non-empty, starts with `-` exactly for negative `n`, and is decimal digits after that |
| Text.DecimalValue | server/routes.ts:73 | On the forms `String` produces, `Number(s)` gives an integer exactly for an optional minus sign followed by decimal digits; non-negative without the sign, non-positive with it |
| Text.IntToStringRoundTrip | server/routes.ts:73 | `Number(String(n)) == n` for every integer |
| Text.LowerChar | client/src/components/link-card.tsx:27 | An upper-case ASCII letter becomes the lower-case letter at the same alphabet position; every other character is kept |
| Text.ToLower | client/src/components/link-card.tsx:27 | Lower-casing keeps the length and lower-cases each letter |
| Text.ToLowerIdempotent | client/src/components/link-card.tsx:27 | Lower-casing twice equals lower-casing once |
| Icons.OwnEntry | client/src/components/link-card.tsx:7-17 | Exactly the eight brand keys and `default` are own entries; `default` is the external-link icon and no brand maps to it |
| Icons.Resolve | client/src/pages/public-profile.tsx:135 | A tag whose lower-cased form is a brand key gets that brand's icon; every other tag gets the default |
| Icons.ResolveIgnoresCase | client/src/components/link-card.tsx:27 | Tags equal up to case get the same icon |
| Icons.TablesDifferOnlyOnTwitter | client/src/pages/public-profile.tsx:9-19 | The card's and the public page's tables agree on every key except `twitter` |
| Icons.PropertyAsWritten | client/src/components/link-card.tsx:27 | The indexed read finds own entries first, then the inherited names, otherwise nothing |
| Icons.ResolveAsWritten | client/src/components/link-card.tsx:27 | As written, the lookup yields an inherited member exactly for tags that lower-case to an inherited name; a brand tag gets its icon and any other tag the default icon |
| Icons.InheritedMemberEscapesFallback | client/src/components/link-card.tsx:27 | A tag that lower-cases to an inherited name yields that inherited member, not an icon |
| Icons.ConstructorTagEscapesFallback | client/src/pages/public-profile.tsx:135 | The tag "Constructor" resolves to `Object`'s constructor as written |
| Icons.ResolveMatchesAsWritten | client/src/components/link-card.tsx:27 | Away from the inherited names the lookup as written and the corrected lookup agree |
| LinksPage.IconOptionsWellFormed | client/src/pages/dashboard/links.tsx:15-27 | Eleven distinct choices, and the blank form's `globe` is the first |
| LinksPage.DisplayLinks | client/src/pages/dashboard/links.tsx:47 | The page shows the fetched links sorted by `order`, a permutation of them |
| LinksPage.OpenCreate | client/src/pages/dashboard/links.tsx:67-71 | "Add Link" opens a blank form with nothing being edited |
| LinksPage.OpenEdit | client/src/pages/dashboard/links.tsx:73-77 | Editing opens the form on the link's own title, url and icon |
| LinksPage.SubmitMutation | client/src/pages/dashboard/links.tsx:49-58 | Submitting updates exactly when a link is being edited, sending its id and the three form fields; otherwise it creates with `order` = the number shown |
| LinksPage.AfterSubmit | client/src/pages/dashboard/links.tsx:59-64 | A success closes and resets the dialog; a failure leaves it as it was |
| LinksPage.UnchangedEditIsIdentity | client/src/pages/dashboard/links.tsx:73-77 | Opening a link and saving it unchanged writes it back unchanged |
| LinksPage.EditKeepsOrder | client/src/pages/dashboard/links.tsx:53 | An edit writes the three form fields and never the `order` |
| LinksPage.SaveResetsDialog | client/src/pages/dashboard/links.tsx:59-61 | After a save the form is the blank form and nothing is being edited |
| LinksPage.PressCardButton | client/src/components/link-card.tsx:45-48 | Edit opens the dialog on the link; delete requests the link's id exactly when confirmed |
| LinksPage.ReorderRequest | client/src/pages/dashboard/links.tsx:86-91 | The reorder request lists the dragged links' ids in the new order |
| Dashboard.PageCreateKeepsDense | client/src/pages/dashboard/links.tsx:56 | A link created from the page (order = number shown) keeps a dense profile dense; it answers 201 exactly while the serial sequence is in range, and then the profile is one link larger |
| Dashboard.PageEditKeepsOrders | client/src/pages/dashboard/links.tsx:53 | Saving an edit changes no link's order, so every dense profile stays dense |
| Dashboard.DistinctMultiset | client/src/pages/dashboard/links.tsx:89 | A repeat-free id list holding exactly a set's members is a permutation of that set |
| Dashboard.DragSendsPermutation | client/src/pages/dashboard/links.tsx:86-91 | Dragging the shown links sends a permutation of the profile's link ids |
| Dashboard.PageDragMakesDense | client/src/pages/dashboard/links.tsx:86-91 | After a drag the profile is dense, the server answers the dragged order, and other profiles are untouched |
| PublicPage.OrElse | client/src/pages/public-profile.tsx:78 | A colour with a fallback: the value when present and non-empty, the fallback otherwise |
| PublicPage.Background | client/src/pages/public-profile.tsx:78 | The background is the profile's colour, or `#f9fafb` when unset or empty |
| PublicPage.Theme | client/src/pages/public-profile.tsx:88 | The border and badge colour is the theme colour, or `#000000` when unset or empty |
| PublicPage.ColoursShown | client/src/pages/public-profile.tsx:78-88 | Schema defaults show as stored; cleared colours show the page fallbacks, and the background fallback differs from the schema default |
| PublicPage.AvatarOf | client/src/pages/public-profile.tsx:90-95 | The picture exactly when an avatar URL is set; otherwise the name's first character, or nothing for an empty name |
| PublicPage.TileOf | client/src/pages/public-profile.tsx:134-155 | A tile links to the URL, shows the title, the public table's icon and the theme badge |
| PublicPage.Tiles | client/src/pages/public-profile.tsx:44 | One tile per link; a listing that arrives sorted by `order` is shown in its own arrangement |
| PublicPage.TilesFollowSortedLinks | client/src/pages/public-profile.tsx:44 | When no two links share an `order`, the i-th tile is the tile of the link at position i of their ascending-`order` arrangement, whatever order they arrived in |
| PublicPage.TilesShowTheLinks | client/src/pages/public-profile.tsx:134 | Every tile shows one of the links and every link has a tile |
| PublicPage.DenseTilesFollowOrder | client/src/pages/public-profile.tsx:44 | On a dense profile the i-th tile is the link stored with order i |
| PublicPage.ContactFileName | client/src/pages/public-profile.tsx:59 | The file is named the slug followed by `.vcf` |
| PublicPage.ContactFilesDistinct | client/src/pages/public-profile.tsx:59 | Distinct profiles download to distinct file names |
| PublicPage.NoteText | client/src/pages/public-profile.tsx:51 | The note is the bio, or empty when it is null or empty |
| PublicPage.ShowsBio | client/src/pages/public-profile.tsx:105-109 | The bio paragraph is shown exactly when the card's note is not empty |
| PublicPage.VCardAsWritten | client/src/pages/public-profile.tsx:48-53 | The card as written splits back into its six lines with the raw name and note when no value spans lines |
| PublicPage.VCard | client/src/pages/public-profile.tsx:48-53 | The escaped card, with a one-line URL, always splits back into its six lines holding the escaped name and note |
| PublicPage.VCardReadsBack | client/src/pages/public-profile.tsx:48-53 | The escaped card has exactly six lines, and the name and note read back from it are the profile's |
| PublicPage.AsWrittenAgreesOnPlainText | client/src/pages/public-profile.tsx:48-53 | Without backslash, line break, comma or semicolon, the card as written equals the escaped card |
| PublicPage.AsWrittenLines | client/src/pages/public-profile.tsx:50-51 | As written, each line break in the name or the bio adds a line to the card: 6 plus the breaks of both, the extra lines being the pieces of the name and of the bio |
| PublicPage.OpenCard | client/src/pages/public-profile.tsx:48-53 | The raw card of any name and note splits into the fixed lines around the pieces of the name and of the note |
| PublicPage.NameInjectsProperty | client/src/pages/public-profile.tsx:50 | The name "A\nTEL:1" gives a seven-line card whose fourth line is a `TEL` property |
| PublicPage.BioInjectsProperty | client/src/pages/public-profile.tsx:51 | The bio "Hi\nTEL:1" gives a seven-line card whose fifth line is a `TEL` property |
| VCardText.Split | client/src/pages/public-profile.tsx:48-53 | Splitting gives at least one line, none containing a break |
| VCardText.SplitJoin | client/src/pages/public-profile.tsx:48-53 | Joined one-line values split back into the same lines |
| VCardText.JoinSplit | client/src/pages/public-profile.tsx:48-53 | Any text split and joined again is unchanged |
| VCardText.SplitCount | client/src/pages/public-profile.tsx:48-53 | A text with n breaks splits into n + 1 lines |
| VCardText.Escape | client/src/pages/public-profile.tsx:50-51 | An escaped value never spans lines |
| VCardText.UnescapeEscape | client/src/pages/public-profile.tsx:50-51 | Unescaping an escaped value gives the value back |
| VCardText.EscapePlain | client/src/pages/public-profile.tsx:50-51 | Escaping leaves plain text unchanged |
| Layout.IsAdmin | client/src/components/layout.tsx:11-19 | Admin exactly when the `email` claim is strictly the owner's address string or the `is_admin` claim is truthy in JavaScript terms; nobody when signed out or without claims |
| Layout.TruthyClaimsAdmit | client/src/components/layout.tsx:11-19 | An `is_admin` claim of "false" or 1 shows the Admin tab; `false`, 0, "" or null do not |
| Layout.Tabs | client/src/components/layout.tsx:13-21 | Profile, Links and NFC in that order, then Admin exactly for administrators |
| Layout.AdminTabOnlyForAdmins | client/src/components/layout.tsx:19-21 | The Admin tab is shown exactly to administrators |
| Layout.ActiveTabs | client/src/components/layout.tsx:51 | A tab is highlighted exactly when the location equals its path |
| Layout.OneActiveTab | client/src/components/layout.tsx:50-51 | At most one tab is highlighted, and exactly one when the location is a tab's path |

## Left out

- Authentication, sessions, OIDC and the auth storage are left out. The model sees only the session middleware's outcome (`Session`).
- NFC tokens and QR codes are not part of this model: the NFC page, its routes and its storage.
- Object storage and image upload are not part of this model, including the image cropper.
- The admin page and `getAllUsers` are left out. They only list users, and `getAllUsers` orders them by the `createdAt` timestamp, which the model does not carry.
- `createUser`, `getUser` and `getProfile` are left out. Nothing in the modelled routes calls them.
- Timestamps (`createdAt`, `updatedAt`, `activationDate`) are left out. The model has no clock.
- The React Query hooks, caching and the service worker are left out. Each page's effect is modelled as the request it sends.
- The landing page, the profile editor page and the share button are left out. The share button is a browser API call with no state.
- zod parse failures of request bodies are left out. Bodies are modelled as already-parsed values, and the framework's 400/500 on a bad body is not modelled.
- Storage.CreateProfile: a rejected insert does not use up a serial id here. In PostgreSQL a failed insert still advances the sequence, so real ids can have gaps.
- Storage.CreateLink: same as `CreateProfile`; a rejected insert consumes no id in the model.
- Storage.CreateLink: the `order` column is a 32-bit PostgreSQL `integer`, so an `order` outside -2^31..2^31-1 is rejected by the database; the model writes it. The serial limit of 2^31-1 is modelled.
- Storage.UpdateLink: integers are unbounded, so a patched `order` outside the 32-bit range, which the database rejects, is written in the model; the contract's rejection iff holds only within that range.
- Storage.CreateProfile: the serial id is unbounded; the 32-bit sequence limit is not modelled.
- Storage.GetLinks: only promises non-decreasing `order` and a permutation. The database leaves ties unordered, and the model's deterministic tie order is not part of the contract.
- Storage.GetProfileByUserId: which of several profiles a user gets is taken as the smallest id. The query has no `ORDER BY`, so the database may return any of them.
- Routes.GetMe: a rejected write is taken to answer 500 (`ServerError`). The handlers have no `try`/`catch`, and the server's error middleware (`server/index.ts`) is not part of this model. Whether a rejected promise reaches it (Express 5) or leaves the request unanswered (Express 4) is assumed, not modelled. The same holds for Routes.PatchMe, Routes.PatchLink (an empty patch or an id out of range), Routes.DeleteLinkRoute and Routes.PostReorder (an id out of range), and Routes.PostLink.
- Routes.PatchMe: see `Routes.GetMe` for the 500 on a rejected update, including an empty patch.
- Routes.PostLink: see `Routes.GetMe` for the 500 on a rejected insert.
- Routes.DeleteLinkRoute, Routes.PatchLink, Routes.PostReorder: the id is `Number(req.params.id)` or a raw `linkIds` item, taken here as an integer. A path segment that `Number` does not read as an integer (`NaN`, a fraction) also ends in a database error, the 500 path; that case is not modelled. The same holds for Storage.UpdateLink, Storage.DeleteLink and Storage.ReorderLinks. An id outside -2^31..2^31-1 is modelled: it ends in the 500 path, and in the reorder loop the writes for earlier ids stay.
- Storage.WriteOrders: the loop writes the index `i` into the 32-bit `order` column; a list longer than 2^31 ids, whose index would overflow it, is not modelled.
- Routes.PostReorder: takes `linkIds` as a list of integers. The handler reads `req.body.linkIds` without validating it, so non-array bodies are not modelled.
- Routes.PatchLink: the route table declares a 404 for this route, but the handler never sends one; the model follows the handler.
- Api.ParseReorderBody: JSON numbers are integers here. `z.number()` also accepts fractions, which the model cannot express.
- Api.BuildUrl: values must not contain `$`. JavaScript's `replace` treats `$` sequences in the replacement as patterns. Entries are taken in the order given, and the reordering of integer-like keys by `Object.entries` is not modelled.
- Text.LowerChar, Text.ToLower: lower-cases ASCII letters only. Unicode case mapping is not modelled.
- Text.NatToString: produces the full decimal digits of any natural number. JavaScript's `String` switches to exponent form from 1e21 on, so the contract holds only below that.
- Text.IntToString: the same bound as `NatToString` applies.
- Text.IntToStringRoundTrip: holds for unbounded integers. In JavaScript `Number(String(n)) == n` holds only for safe integers, up to 2^53 in magnitude; ids and orders are 32-bit, well inside that.
- Text.DecimalValue: models `Number` only on the integer forms `String` produces. Other strings, and `NaN`, are not modelled.
- PublicPage.TileOf: uses the corrected lookup `Icons.Resolve` (see Findings). The page as written uses `Icons.ResolveAsWritten`, which for tags such as "constructor" yields `Object` rather than an icon.
- PublicPage.Tiles: when links share an `order`, their arrangement is stated only for a listing that arrives sorted, which is kept as it is. The page's sort is stable; the model's sort is not proved stable in general.
- Layout.IsAdmin: claim values are JSON values with integer numbers; a fractional or NaN `is_admin` claim is not modelled.
- PublicPage.AvatarOf: takes the first Unicode character. `charAt(0)` takes the first UTF-16 unit, which differs for characters outside the Basic Multilingual Plane.
- PublicPage.VCard: lines are joined with a bare line feed, as the page does. RFC 2426 asks for CRLF. The URL line is not escaped, and `VCardReadsBack` assumes the page URL has no line break.
- The Blob download and the DOM anchor are left out. Only the file name and the text are modelled.
- The public page never consults `isActivated`. It is returned by the route and modelled there, but nothing on the page depends on it.

## Findings

| source | as written | input that shows it | evidently intended | confidence | as-written member | corrected member |
|---|---|---|---|---|---|---|
| client/src/components/link-card.tsx:27 (and client/src/pages/public-profile.tsx:135) | the lookup indexes a plain object with the lower-cased tag and falls back to the default only on a falsy result, so tags that lower-case to inherited names (`constructor`, `__proto__`) find `Object` or `Object.prototype` instead of falling back | a link whose icon tag is "Constructor" | an icon tag that is not a table key shows the default icon | medium, not executed | Icons.ConstructorTagEscapesFallback | Icons.Resolve |
| client/src/pages/public-profile.tsx:48-53 | name and bio are pasted into the vCard without escaping, so a line break in them starts a new property | display name "A\nTEL:1": the card has seven lines, the fourth being `TEL:1`; likewise a bio "Hi\nTEL:1" typed in the profile editor, the fifth line being `TEL:1` | text values escaped per section 4 of RFC 2426, so the card keeps its six lines and reads back the exact name and note | high, not executed | PublicPage.NameInjectsProperty | PublicPage.VCardReadsBack |
