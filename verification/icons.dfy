/** The icon tables of the link card and the public profile page, and the
    case-insensitive icon lookup with its fallback to the default icon. */
module Icons {
  import opened Wrappers
  import opened Text

  /** The rendered icon components. */
  datatype Glyph =
    | Instagram | LinkedIn | GitHub | TwitterBird | XLogo
    | YouTube | TikTok | Facebook | Twitch | ExternalLink

  /** The link card's table, or the public profile page's table. */
  datatype Table = CardTable | PublicTable

  /** The brand keys of both tables (besides `default`). */
  const BrandKeys: seq<string> :=
    ["instagram", "linkedin", "github", "twitter", "youtube", "tiktok", "facebook", "twitch"]

  /** The tables' own entries: the eight brands plus `default`. Only the
      `twitter` entry differs between the two tables. */
  function OwnEntry(t: Table, key: string): (r: Option<Glyph>)
    ensures r.Some? <==> key in BrandKeys || key == "default"
    ensures key == "default" ==> r == Some(ExternalLink)
    ensures key in BrandKeys ==> r.Some? && r.value != ExternalLink
  {
    if key == "instagram" then Some(Instagram)
    else if key == "linkedin" then Some(LinkedIn)
    else if key == "github" then Some(GitHub)
    else if key == "twitter" then Some(if t == CardTable then TwitterBird else XLogo)
    else if key == "youtube" then Some(YouTube)
    else if key == "tiktok" then Some(TikTok)
    else if key == "facebook" then Some(Facebook)
    else if key == "twitch" then Some(Twitch)
    else if key == "default" then Some(ExternalLink)
    else None
  }

  /** The icon for a link's free-text `icon`: looked up by its lower-cased
      form among the table's own keys, the default icon otherwise. */
  function Resolve(t: Table, tag: string): (g: Glyph)
    ensures ToLower(tag) !in BrandKeys ==> g == ExternalLink
    ensures ToLower(tag) in BrandKeys ==> Some(g) == OwnEntry(t, ToLower(tag)) && g != ExternalLink
  {
    OwnEntry(t, ToLower(tag)).GetOr(ExternalLink)
  }

  /** The lookup ignores case: tags equal up to case get the same icon. */
  lemma ResolveIgnoresCase(t: Table, a: string, b: string)
    requires ToLower(a) == ToLower(b)
    ensures Resolve(t, a) == Resolve(t, b)
    ensures Resolve(t, a) == Resolve(t, ToLower(a))
  {
    ToLowerIdempotent(a);
  }

  /** The two tables agree on every key except `twitter`, where the card
      shows the bird and the public page the X logo. */
  lemma TablesDifferOnlyOnTwitter(key: string)
    ensures key != "twitter" ==> OwnEntry(CardTable, key) == OwnEntry(PublicTable, key)
    ensures OwnEntry(CardTable, "twitter") == Some(TwitterBird)
    ensures OwnEntry(PublicTable, "twitter") == Some(XLogo)
  {
  }

  // ---------------------------------------------------------------------
  // The lookup as written: `ICONS[key] || ICONS.default` on a plain object
  // ---------------------------------------------------------------------

  /** Lower-case names that a plain object inherits from `Object.prototype`
      and that an indexed read therefore finds. */
  const InheritedNames: seq<string> := ["constructor", "__proto__"]

  /** What an indexed read yields: an own entry, or an inherited member (the
      `Object` function or `Object.prototype`), both truthy. */
  datatype IconValue = Icon(glyph: Glyph) | Inherited(name: string)

  function PropertyAsWritten(t: Table, key: string): (r: Option<IconValue>)
    ensures OwnEntry(t, key).Some? ==> r == Some(Icon(OwnEntry(t, key).value))
    ensures OwnEntry(t, key).None? && key in InheritedNames ==> r == Some(Inherited(key))
    ensures OwnEntry(t, key).None? && key !in InheritedNames ==> r.None?
  {
    match OwnEntry(t, key)
    case Some(g) => Some(Icon(g))
    case None => if key in InheritedNames then Some(Inherited(key)) else None
  }

  /** `ICONS[link.icon.toLowerCase()] || ICONS.default`: a brand key finds
      its icon, an inherited name finds the inherited member, and anything
      else falls back to the default icon. */
  function ResolveAsWritten(t: Table, tag: string): (r: IconValue)
    ensures r.Inherited? <==> ToLower(tag) in InheritedNames
    ensures r.Inherited? ==> r.name == ToLower(tag)
    ensures ToLower(tag) in BrandKeys ==> r == Icon(OwnEntry(t, ToLower(tag)).value)
    ensures ToLower(tag) !in BrandKeys && ToLower(tag) !in InheritedNames ==> r == Icon(ExternalLink)
  {
    PropertyAsWritten(t, ToLower(tag)).GetOr(Icon(ExternalLink))
  }

  /** A tag whose lower-cased form is an inherited name makes the lookup
      return that inherited member, neither an icon nor the default. */
  lemma InheritedMemberEscapesFallback(t: Table, tag: string)
    requires ToLower(tag) in InheritedNames
    ensures ResolveAsWritten(t, tag) == Inherited(ToLower(tag))
  {
    assert ToLower(tag) !in BrandKeys && ToLower(tag) != "default";
  }

  /** The link icon "Constructor" is such a tag. */
  lemma ConstructorTagEscapesFallback(t: Table)
    ensures ResolveAsWritten(t, "Constructor") == Inherited("constructor")
  {
    LowerConstructor();
    assert "constructor" == InheritedNames[0];
    InheritedMemberEscapesFallback(t, "Constructor");
  }

  lemma LowerConstructor()
    ensures ToLower("Constructor") == "constructor"
  {
    assert "Constructor" == ['C'] + "onstructor";
    LowerTextFixed("onstructor");
  }

  /** Away from the inherited names the lookup as written and `Resolve` agree. */
  lemma ResolveMatchesAsWritten(t: Table, tag: string)
    requires ToLower(tag) !in InheritedNames
    ensures ResolveAsWritten(t, tag) == Icon(Resolve(t, tag))
  {
  }
}
