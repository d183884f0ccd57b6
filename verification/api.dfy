/** The shared API description: the route table, the reorder body schema, and
    `buildUrl`, which fills `:key` placeholders of a path template. */
module Api {
  import opened Wrappers
  import opened Text

  datatype Method = GET | POST | PATCH | DELETE

  datatype Endpoint = Endpoint(verb: Method, path: string)

  const ProfilesMe := Endpoint(GET, "/api/profiles/me")
  const ProfileBySlug := Endpoint(GET, "/api/public/profiles/:slug")
  const ProfileUpdate := Endpoint(PATCH, "/api/profiles/me")
  const LinkCreate := Endpoint(POST, "/api/links")
  const LinkUpdate := Endpoint(PATCH, "/api/links/:id")
  const LinkDelete := Endpoint(DELETE, "/api/links/:id")
  const LinkReorder := Endpoint(POST, "/api/links/reorder")

  const Endpoints: seq<Endpoint> :=
    [ProfilesMe, ProfileBySlug, ProfileUpdate, LinkCreate, LinkUpdate, LinkDelete, LinkReorder]

  /** No two entries of the route table share both method and path, so each
      request reaches one handler. */
  lemma EndpointsDistinct()
    ensures forall i, j :: 0 <= i < j < |Endpoints| ==> Endpoints[i] != Endpoints[j]
  {
  }

  // ---------------------------------------------------------------------
  // The reorder body schema
  // ---------------------------------------------------------------------

  /** A parsed JSON value (numbers restricted to integers). */
  datatype Json =
    | JNull
    | JBool(b: bool)
    | JNum(n: int)
    | JStr(s: string)
    | JArr(items: seq<Json>)
    | JObj(fields: map<string, Json>)

  /** The integers of an array whose items are all numbers. */
  function Numbers(items: seq<Json>): (r: Option<seq<int>>)
    ensures r.Some? <==> forall i :: 0 <= i < |items| ==> items[i].JNum?
    ensures r.Some? ==> |r.value| == |items| && forall i :: 0 <= i < |items| ==> r.value[i] == items[i].n
  {
    if |items| == 0 then Some([])
    else if !items[0].JNum? then None
    else
      match Numbers(items[1..])
      case None => None
      case Some(rest) => Some([items[0].n] + rest)
  }

  /** The reorder input schema: an object holding a `linkIds` array of
      numbers; other keys are dropped. */
  function ParseReorderBody(v: Json): (r: Option<seq<int>>)
    ensures r.Some? <==>
      && v.JObj? && "linkIds" in v.fields && v.fields["linkIds"].JArr?
      && forall i :: 0 <= i < |v.fields["linkIds"].items| ==> v.fields["linkIds"].items[i].JNum?
    ensures r.Some? ==>
      && |r.value| == |v.fields["linkIds"].items|
      && forall i :: 0 <= i < |r.value| ==> r.value[i] == v.fields["linkIds"].items[i].n
  {
    if v.JObj? && "linkIds" in v.fields && v.fields["linkIds"].JArr? then
      Numbers(v.fields["linkIds"].items)
    else None
  }

  /** The body the client sends is accepted and yields the same ids back. */
  lemma ReorderBodyRoundTrip(ids: seq<int>)
    ensures ParseReorderBody(JObj(map["linkIds" := JArr(seq(|ids|, i requires 0 <= i < |ids| => JNum(ids[i])))])) == Some(ids)
  {
    var items := seq(|ids|, i requires 0 <= i < |ids| => JNum(ids[i]));
    var r := Numbers(items);
    assert r.Some?;
    assert r.value == ids;
  }

  // ---------------------------------------------------------------------
  // buildUrl
  // ---------------------------------------------------------------------

  /** `pat` occurs in `s` starting at index `j`. */
  predicate OccursAt(s: string, pat: string, j: int)
  {
    0 <= j && j + |pat| <= |s| && s[j..j + |pat|] == pat
  }

  /** The first index at or after `from` where `pat` occurs. */
  function FindFrom(s: string, pat: string, from: nat): (r: Option<nat>)
    requires from <= |s|
    ensures r.Some? ==> from <= r.value && OccursAt(s, pat, r.value)
    ensures r.Some? ==> forall j :: from <= j < r.value ==> !OccursAt(s, pat, j)
    ensures r.None? ==> forall j :: from <= j ==> !OccursAt(s, pat, j)
    decreases |s| - from
  {
    if from + |pat| > |s| then None
    else if s[from..from + |pat|] == pat then Some(from)
    else if from == |s| then None
    else FindFrom(s, pat, from + 1)
  }

  /** `s.replace(pat, rep)` with a string pattern: the first occurrence is
      replaced, later ones stay; with no occurrence `s` is unchanged. The
      replacement is inserted literally, which holds when it has no `$`. */
  function ReplaceFirst(s: string, pat: string, rep: string): (r: string)
    ensures FindFrom(s, pat, 0).None? ==> r == s
    ensures FindFrom(s, pat, 0).Some? ==>
      var i := FindFrom(s, pat, 0).value;
      r == s[..i] + rep + s[i + |pat|..]
  {
    match FindFrom(s, pat, 0)
    case None => s
    case Some(i) => s[..i] + rep + s[i + |pat|..]
  }

  /** A parameter value: `String(value)` is what gets substituted. */
  datatype ParamValue = Str(s: string) | Num(n: int)

  function ValueText(v: ParamValue): (t: string)
    ensures v.Str? ==> t == v.s
    ensures v.Num? ==> DecimalValue(t) == Some(v.n)
  {
    assert v.Num? ==> DecimalValue(IntToString(v.n)) == Some(v.n) by {
      if v.Num? {
        IntToStringRoundTrip(v.n);
      }
    }
    match v
    case Str(s) => s
    case Num(n) => IntToString(n)
  }

  /** Values free of `$`, for which `replace` inserts the text literally. */
  predicate LiteralValues(entries: seq<(string, ParamValue)>)
  {
    forall i :: 0 <= i < |entries| ==> '$' !in ValueText(entries[i].1)
  }

  /** No entry's placeholder occurs anywhere in `url`. */
  ghost predicate NoPlaceholders(url: string, entries: seq<(string, ParamValue)>)
  {
    forall i, j :: 0 <= i < |entries| ==> !OccursAt(url, ":" + entries[i].0, j)
  }

  /** Applies the entries in order, each replacing the first `":" + key`.
      A URL holding none of the placeholders comes back unchanged. */
  function Substitute(url: string, entries: seq<(string, ParamValue)>): (r: string)
    requires LiteralValues(entries)
    ensures NoPlaceholders(url, entries) ==> r == url
    decreases |entries|
  {
    if |entries| == 0 then url
    else Substitute(ReplaceFirst(url, ":" + entries[0].0, ValueText(entries[0].1)), entries[1..])
  }

  /** `buildUrl(path, params)`, with the params given as the list of their
      entries in enumeration order. */
  function BuildUrl(path: string, params: Option<seq<(string, ParamValue)>>): (url: string)
    requires params.Some? ==> LiteralValues(params.value)
    ensures params.None? ==> url == path
    ensures params.Some? && params.value == [] ==> url == path
  {
    match params
    case None => path
    case Some(entries) => Substitute(path, entries)
  }

  /** A key whose placeholder does not occur leaves the URL unchanged. */
  lemma AbsentKeyUnchanged(path: string, key: string, v: ParamValue)
    requires '$' !in ValueText(v)
    requires forall j :: !OccursAt(path, ":" + key, j)
    ensures BuildUrl(path, Some([(key, v)])) == path
  {
    assert FindFrom(path, ":" + key, 0).None?;
    assert [(key, v)][1..] == [];
    assert Substitute(path, [(key, v)]) == Substitute(path, []);
  }

  /** Only the first occurrence of a placeholder is filled: text after it,
      including a repeated placeholder, is kept. */
  lemma FirstOccurrenceOnly(path: string, key: string, v: ParamValue, i: nat)
    requires '$' !in ValueText(v)
    requires OccursAt(path, ":" + key, i)
    requires forall j :: 0 <= j < i ==> !OccursAt(path, ":" + key, j)
    ensures BuildUrl(path, Some([(key, v)])) == path[..i] + ValueText(v) + path[i + |key| + 1..]
  {
    var f := FindFrom(path, ":" + key, 0);
    assert f.Some? && f.value == i;
    var filled := ReplaceFirst(path, ":" + key, ValueText(v));
    assert [(key, v)][1..] == [];
    assert Substitute(path, [(key, v)]) == Substitute(filled, []);
  }

  /** A placeholder cannot start where the text has no colon. */
  lemma NoColonNoOccurrence(s: string, pat: string, j: int)
    requires |pat| > 0 && pat[0] == ':'
    requires 0 <= j < |s| && s[j] != ':'
    ensures !OccursAt(s, pat, j)
  {
  }

  /** A path whose only colon starts the placeholder `:key` at `i` gets the
      value in place of the placeholder. */
  lemma FillPlaceholder(path: string, key: string, v: ParamValue, i: nat)
    requires '$' !in ValueText(v)
    requires i + |key| + 1 <= |path| && path[i..i + |key| + 1] == ":" + key
    requires forall j :: 0 <= j < i ==> path[j] != ':'
    ensures BuildUrl(path, Some([(key, v)])) == path[..i] + ValueText(v) + path[i + |key| + 1..]
  {
    forall j | 0 <= j < i
      ensures !OccursAt(path, ":" + key, j)
    {
      NoColonNoOccurrence(path, ":" + key, j);
    }
    FirstOccurrenceOnly(path, key, v, i);
  }

  /** `buildUrl("/api/links/:id", { id })` is the link's resource path. */
  lemma LinkUrl(id: int)
    ensures BuildUrl(LinkUpdate.path, Some([("id", Num(id))])) == "/api/links/" + IntToString(id)
  {
    var path := LinkUpdate.path;
    assert path[11..14] == ":" + "id";
    assert path[..11] == "/api/links/" && path[14..] == "";
    FillPlaceholder(path, "id", Num(id), 11);
  }

  /** `buildUrl("/api/public/profiles/:slug", { slug })` is the public path. */
  lemma SlugUrl(slug: string)
    requires '$' !in slug
    ensures BuildUrl(ProfileBySlug.path, Some([("slug", Str(slug))])) == "/api/public/profiles/" + slug
  {
    var path := ProfileBySlug.path;
    assert path[21..26] == ":" + "slug";
    assert path[..21] == "/api/public/profiles/" && path[26..] == "";
    FillPlaceholder(path, "slug", Str(slug), 21);
  }

  /** The server reads the id back from the URL the client built:
      `Number(req.params.id)` recovers the id. */
  lemma LinkUrlRoundTrip(id: int)
    ensures var url := BuildUrl(LinkUpdate.path, Some([("id", Num(id))]));
      |url| > 11 && url[..11] == "/api/links/" && DecimalValue(url[11..]) == Some(id)
  {
    LinkUrl(id);
    var url := BuildUrl(LinkUpdate.path, Some([("id", Num(id))]));
    assert url[11..] == IntToString(id);
    IntToStringRoundTrip(id);
  }
}
