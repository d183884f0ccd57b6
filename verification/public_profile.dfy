/** The public profile page: colours with their fallbacks, the avatar, the
    link tiles in `order`, the contact file name and the vCard text. The
    vCard is modelled twice: as the page writes it (values pasted in raw) and
    with the text values escaped, which is what the rest of the model uses. */
module PublicPage {
  import opened Wrappers
  import opened Schema
  import opened LinkOrder
  import opened Storage
  import opened VCardText
  import Icons
  import Density

  const FallbackBackground := "#f9fafb"
  const FallbackTheme := "#000000"

  /** JavaScript truthiness of an optional text: present and not empty. */
  predicate Truthy(o: Option<string>)
  {
    o.Some? && o.value != ""
  }

  /** `value || fallback` on an optional text. */
  function OrElse(o: Option<string>, fallback: string): (r: string)
    ensures Truthy(o) ==> r == o.value
    ensures !Truthy(o) ==> r == fallback
  {
    if Truthy(o) then o.value else fallback
  }

  /** The page background: the profile's colour, light grey when unset. */
  function Background(p: Profile): (c: string)
    ensures c != ""
    ensures Truthy(p.backgroundColor) ==> c == p.backgroundColor.value
    ensures !Truthy(p.backgroundColor) ==> c == FallbackBackground
  {
    OrElse(p.backgroundColor, FallbackBackground)
  }

  /** The avatar border and the icon badges: the theme colour, black when unset. */
  function Theme(p: Profile): (c: string)
    ensures c != ""
    ensures Truthy(p.themeColor) ==> c == p.themeColor.value
    ensures !Truthy(p.themeColor) ==> c == FallbackTheme
  {
    OrElse(p.themeColor, FallbackTheme)
  }

  /** A new profile stored with the schema's default colours shows exactly
      those colours; a colour cleared by an update shows the page's
      fallback, which for the background is not the schema default. */
  lemma ColoursShown(id: ProfileId, uid: UserId, input: InsertProfile, p: Profile, patch: ProfilePatch)
    requires input.themeColor.None? && input.backgroundColor.None?
    requires patch.backgroundColor == Some(None) && patch.themeColor == Some(None)
    ensures Background(NewProfile(id, uid, input)) == DefaultBackgroundColor
    ensures Theme(NewProfile(id, uid, input)) == DefaultThemeColor
    ensures Background(ApplyProfilePatch(p, patch)) == FallbackBackground != DefaultBackgroundColor
    ensures Theme(ApplyProfilePatch(p, patch)) == FallbackTheme == DefaultThemeColor
  {
  }

  /** The avatar: the picture when an avatar URL is set, otherwise the first
      character of the display name (nothing for an empty name). */
  datatype Avatar = Picture(src: string, alt: string) | Initial(text: string)

  function AvatarOf(p: Profile): (a: Avatar)
    ensures a.Picture? <==> Truthy(p.avatarUrl)
    ensures a.Picture? ==> a.src == p.avatarUrl.value && a.alt == p.displayName
    ensures a.Initial? ==> a.text <= p.displayName
    ensures a.Initial? ==> (|a.text| == 1 <==> |p.displayName| > 0) && |a.text| <= 1
  {
    if Truthy(p.avatarUrl) then Picture(p.avatarUrl.value, p.displayName)
    else Initial(if |p.displayName| > 0 then p.displayName[..1] else "")
  }

  /** The bio paragraph appears only for a non-empty bio, exactly when the
      contact card's note is not empty. */
  function ShowsBio(p: Profile): (b: bool)
    ensures b <==> NoteText(p) != ""
  {
    Truthy(p.bio)
  }

  // ---------------------------------------------------------------------
  // Link tiles
  // ---------------------------------------------------------------------

  /** One link as the page renders it: an anchor to the URL, the title, the
      icon, and the badge colour. */
  datatype Tile = Tile(href: string, title: string, icon: Icons.Glyph, badge: string)

  function TileOf(p: Profile, l: Link): (t: Tile)
    ensures t.href == l.url && t.title == l.title
    ensures t.icon == Icons.Resolve(Icons.PublicTable, l.icon)
    ensures t.badge == Theme(p)
  {
    Tile(l.url, l.title, Icons.Resolve(Icons.PublicTable, l.icon), Theme(p))
  }

  /** The tiles, one per link, after the page sorts the links by `order`.
      A listing that arrives sorted, as the server sends it, is shown in its
      own arrangement. */
  function Tiles(p: Profile, links: seq<Link>): (r: seq<Tile>)
    ensures |r| == |links|
    ensures SortedByOrder(links) ==> forall i :: 0 <= i < |links| ==> r[i] == TileOf(p, links[i])
  {
    var sorted := SortByOrder(links);
    assert SortedByOrder(links) ==> sorted == links by {
      if SortedByOrder(links) {
        SortedIsFixed(links);
      }
    }
    seq(|sorted|, i requires 0 <= i < |sorted| => TileOf(p, sorted[i]))
  }

  /** When no two links share an `order`, the tiles are the links' tiles in
      ascending `order`, whatever arrangement the links arrived in. */
  lemma TilesFollowSortedLinks(p: Profile, links: seq<Link>, sorted: seq<Link>)
    requires SortedByOrder(sorted) && multiset(sorted) == multiset(links)
    requires forall i, j :: 0 <= i < j < |sorted| ==> sorted[i].order != sorted[j].order
    ensures |Tiles(p, links)| == |sorted|
    ensures forall i :: 0 <= i < |sorted| ==> Tiles(p, links)[i] == TileOf(p, sorted[i])
  {
    SortedUnique(sorted, SortByOrder(links));
  }

  /** Every tile shows one of the links, and every link has a tile. */
  lemma TilesShowTheLinks(p: Profile, links: seq<Link>)
    ensures forall i :: 0 <= i < |links| ==> exists l :: l in links && Tiles(p, links)[i] == TileOf(p, l)
    ensures forall l :: l in links ==> TileOf(p, l) in Tiles(p, links)
  {
    var sorted := SortByOrder(links);
    forall i | 0 <= i < |links|
      ensures exists l :: l in links && Tiles(p, links)[i] == TileOf(p, l)
    {
      assert sorted[i] in multiset(links);
      assert sorted[i] in links && Tiles(p, links)[i] == TileOf(p, sorted[i]);
    }
    forall l | l in links
      ensures TileOf(p, l) in Tiles(p, links)
    {
      assert l in multiset(sorted);
      var i :| 0 <= i < |sorted| && sorted[i] == l;
      assert Tiles(p, links)[i] == TileOf(p, l);
    }
  }

  /** On the public card of a profile whose orders are dense, the i-th tile
      is the link stored with `order` i. */
  lemma DenseTilesFollowOrder(s: Store, slug: string, i: int, k: LinkId)
    requires WellFormed(s)
    requires GetProfileBySlug(s, slug).Some?
    requires Dense(s.links, GetProfileBySlug(s, slug).value.profile.id)
    requires k in ProfileIds(s.links, GetProfileBySlug(s, slug).value.profile.id)
    requires s.links[k].order == i
    ensures 0 <= i < |GetProfileBySlug(s, slug).value.links|
    ensures Tiles(GetProfileBySlug(s, slug).value.profile, GetProfileBySlug(s, slug).value.links)[i]
      == TileOf(GetProfileBySlug(s, slug).value.profile, s.links[k])
  {
    var card := GetProfileBySlug(s, slug).value;
    var p := card.profile.id;
    var sorted := SortByOrder(card.links);
    Density.PositionsFromDense(s.links, p, sorted);
    Density.ListingRows(s.links, p, sorted);
    assert 0 <= i < |sorted|;
    assert sorted[i].id == k;
  }

  // ---------------------------------------------------------------------
  // Save contact
  // ---------------------------------------------------------------------

  /** The downloaded file's name: the slug with a `.vcf` extension. */
  function ContactFileName(slug: string): (f: string)
    ensures |f| == |slug| + 4
    ensures f[..|slug|] == slug && f[|slug|..] == ".vcf"
  {
    slug + ".vcf"
  }

  /** Distinct profiles of a well-formed store download to distinct files. */
  lemma ContactFilesDistinct(s: Store, a: ProfileId, b: ProfileId)
    requires WellFormed(s)
    requires a in s.profiles && b in s.profiles && a != b
    ensures ContactFileName(s.profiles[a].slug) != ContactFileName(s.profiles[b].slug)
  {
  }

  /** The bio as the card shows it: `bio || ""`. */
  function NoteText(p: Profile): (t: string)
    ensures Truthy(p.bio) ==> t == p.bio.value
    ensures !Truthy(p.bio) ==> t == ""
  {
    p.bio.GetOr("")
  }

  /** The six lines of the card around the three values. */
  function CardLines(name: string, note: string, href: string): seq<string>
  {
    ["BEGIN:VCARD", "VERSION:3.0", "FN:" + name, "NOTE:" + note, "URL:" + href, "END:VCARD"]
  }

  /** The card as the page writes it: values pasted in without escaping.
      Only when no value spans lines does it split back into its six lines. */
  function VCardAsWritten(p: Profile, href: string): (c: string)
    ensures OneLine(p.displayName) && OneLine(NoteText(p)) && OneLine(href) ==>
      Split(c) == CardLines(p.displayName, NoteText(p), href)
  {
    var lines := CardLines(p.displayName, NoteText(p), href);
    assert OneLine(p.displayName) && OneLine(NoteText(p)) && OneLine(href) ==> Split(Join(lines)) == lines by {
      if OneLine(p.displayName) && OneLine(NoteText(p)) && OneLine(href) {
        OneLineCard(p.displayName, NoteText(p), href);
        SplitJoin(lines);
      }
    }
    Join(lines)
  }

  /** The card with the name and the note escaped as text values: with a
      one-line URL it always splits back into its six lines. */
  function VCard(p: Profile, href: string): (c: string)
    ensures OneLine(href) ==> Split(c) == CardLines(Escape(p.displayName), Escape(NoteText(p)), href)
  {
    var lines := CardLines(Escape(p.displayName), Escape(NoteText(p)), href);
    assert OneLine(href) ==> Split(Join(lines)) == lines by {
      if OneLine(href) {
        OneLineCard(Escape(p.displayName), Escape(NoteText(p)), href);
        SplitJoin(lines);
      }
    }
    Join(lines)
  }

  /** One-line values give six one-line card lines. */
  lemma OneLineCard(name: string, note: string, href: string)
    requires OneLine(name) && OneLine(note) && OneLine(href)
    ensures forall i :: 0 <= i < 6 ==> OneLine(CardLines(name, note, href)[i])
  {
  }

  /** The pieces of each line, concatenated. */
  function SplitEach(lines: seq<string>): (r: seq<string>)
  {
    if |lines| == 0 then [] else Split(lines[0]) + SplitEach(lines[1..])
  }

  /** Splitting joined lines splits each line. */
  lemma {:induction false} SplitJoinEach(lines: seq<string>)
    requires |lines| >= 1
    ensures Split(Join(lines)) == SplitEach(lines)
    decreases |lines|
  {
    if |lines| == 1 {
      assert SplitEach(lines[1..]) == [];
    } else {
      SplitJoinEach(lines[1..]);
      SplitAtBreak(lines[0], Join(lines[1..]));
    }
  }

  /** The escaped card always has exactly its six lines, and the name and
      the note read back from their lines are the profile's own. */
  lemma VCardReadsBack(p: Profile, href: string)
    requires OneLine(href)
    ensures Split(VCard(p, href)) == CardLines(Escape(p.displayName), Escape(NoteText(p)), href)
    ensures |Split(VCard(p, href))| == 6
    ensures Unescape(Split(VCard(p, href))[2][3..]) == p.displayName
    ensures Unescape(Split(VCard(p, href))[3][5..]) == NoteText(p)
  {
    var lines := CardLines(Escape(p.displayName), Escape(NoteText(p)), href);
    forall i | 0 <= i < |lines|
      ensures OneLine(lines[i])
    {
    }
    SplitJoin(lines);
    assert lines[2][3..] == Escape(p.displayName);
    assert lines[3][5..] == Escape(NoteText(p));
    UnescapeEscape(p.displayName);
    UnescapeEscape(NoteText(p));
  }

  /** On plain values (no backslash, line break, comma or semicolon) the
      card as written and the escaped card are the same text. */
  lemma AsWrittenAgreesOnPlainText(p: Profile, href: string)
    requires Plain(p.displayName) && Plain(NoteText(p))
    ensures VCardAsWritten(p, href) == VCard(p, href)
  {
    EscapePlain(p.displayName);
    EscapePlain(NoteText(p));
  }

  /** As written, the display name and the note are pasted across lines:
      the card has its four other lines plus one per line of the name and
      one per line of the note, so each line break in either adds a line
      that a contacts app reads as a property. */
  lemma AsWrittenLines(p: Profile, href: string)
    requires OneLine(href)
    ensures Split(VCardAsWritten(p, href))
      == ["BEGIN:VCARD", "VERSION:3.0", "FN:" + Split(p.displayName)[0]]
         + Split(p.displayName)[1..]
         + ["NOTE:" + Split(NoteText(p))[0]]
         + Split(NoteText(p))[1..]
         + ["URL:" + href, "END:VCARD"]
    ensures |Split(VCardAsWritten(p, href))| == 6 + Breaks(p.displayName) + Breaks(NoteText(p))
  {
    OpenCard(p.displayName, NoteText(p), href);
    SplitCount(p.displayName);
    SplitCount(NoteText(p));
  }

  /** The raw card of any name and note, split into its lines. */
  lemma OpenCard(name: string, note: string, href: string)
    requires OneLine(href)
    ensures Split(Join(CardLines(name, note, href)))
      == ["BEGIN:VCARD", "VERSION:3.0", "FN:" + Split(name)[0]]
         + Split(name)[1..]
         + ["NOTE:" + Split(note)[0]]
         + Split(note)[1..]
         + ["URL:" + href, "END:VCARD"]
  {
    var url := "URL:" + href;
    assert OneLine(url);
    OpenLines("BEGIN:VCARD", "VERSION:3.0", "FN:", name, "NOTE:", note, url, "END:VCARD");
  }

  /** Six joined lines whose third and fourth are a one-line prefix followed
      by a value that may span lines. */
  lemma OpenLines(l0: string, l1: string, a: string, x: string, b: string, y: string, l4: string, l5: string)
    requires OneLine(l0) && OneLine(l1) && OneLine(a) && OneLine(b) && OneLine(l4) && OneLine(l5)
    ensures Split(Join([l0, l1, a + x, b + y, l4, l5]))
      == [l0, l1, a + Split(x)[0]] + Split(x)[1..] + [b + Split(y)[0]] + Split(y)[1..] + [l4, l5]
  {
    CardWithTwoOpenLines(l0, l1, a + x, b + y, l4, l5);
    SplitOneLinePrefix(a, x);
    SplitOneLinePrefix(b, y);
  }

  /** Six joined lines of which only the third and fourth may hold line
      breaks split into the other four around the pieces of those two. */
  lemma CardWithTwoOpenLines(l0: string, l1: string, l2: string, l3: string, l4: string, l5: string)
    requires OneLine(l0) && OneLine(l1) && OneLine(l4) && OneLine(l5)
    ensures Split(Join([l0, l1, l2, l3, l4, l5])) == [l0, l1] + Split(l2) + Split(l3) + [l4, l5]
  {
    var lines := [l0, l1, l2, l3, l4, l5];
    SplitJoinEach(lines);
    SplitOneLine(l0);
    SplitOneLine(l1);
    SplitOneLine(l4);
    SplitOneLine(l5);
    assert lines[5..] == [l5] && lines[5..][1..] == [];
    assert SplitEach(lines[5..]) == [l5];
    assert lines[4..][1..] == lines[5..];
    assert SplitEach(lines[4..]) == [l4, l5];
    assert lines[3..][1..] == lines[4..];
    assert SplitEach(lines[3..]) == Split(l3) + [l4, l5];
    assert lines[2..][1..] == lines[3..];
    assert SplitEach(lines[2..]) == Split(l2) + Split(l3) + [l4, l5];
    assert lines[1..][1..] == lines[2..];
    assert SplitEach(lines[1..]) == [l1] + Split(l2) + Split(l3) + [l4, l5];
  }

  /** The name "A\nTEL:1" adds a `TEL` property: seven lines in all. */
  lemma NameInjectsProperty(p: Profile, href: string)
    requires p.displayName == "A\nTEL:1" && p.bio.None?
    requires OneLine(href)
    ensures |Split(VCardAsWritten(p, href))| == 7
    ensures Split(VCardAsWritten(p, href))[3] == "TEL:1"
  {
    assert p.displayName == "A" + "\n" + "TEL:1";
    SplitAtBreak("A", "TEL:1");
    SplitOneLine("A");
    SplitOneLine("TEL:1");
    assert Split(p.displayName) == ["A", "TEL:1"];
    AsWrittenLines(p, href);
  }

  /** A bio typed with a line break, "Hi\nTEL:1", adds a `TEL` property
      in the same way. */
  lemma BioInjectsProperty(p: Profile, href: string)
    requires p.displayName == "A" && p.bio == Some("Hi\nTEL:1")
    requires OneLine(href)
    ensures |Split(VCardAsWritten(p, href))| == 7
    ensures Split(VCardAsWritten(p, href))[4] == "TEL:1"
  {
    assert NoteText(p) == "Hi" + "\n" + "TEL:1";
    SplitAtBreak("Hi", "TEL:1");
    SplitOneLine("Hi");
    SplitOneLine("TEL:1");
    SplitOneLine("A");
    assert Split(NoteText(p)) == ["Hi", "TEL:1"];
    AsWrittenLines(p, href);
  }
}
