/** vCard text: lines joined by a line break, splitting a card back into its
    lines, and the text-value escaping of section 4 of RFC 2426 (backslash,
    line break, comma and semicolon written as backslash sequences). */
module VCardText {

  /** No line break anywhere in `s`. */
  predicate OneLine(s: string)
  {
    forall i :: 0 <= i < |s| ==> s[i] != '\n'
  }

  /** The lines joined with a line break between neighbours (the page's
      template literal). */
  function Join(lines: seq<string>): (r: string)
    requires |lines| >= 1
    decreases |lines|
  {
    if |lines| == 1 then lines[0] else lines[0] + "\n" + Join(lines[1..])
  }

  /** The pieces of `s` between line breaks: one more than there are breaks. */
  function Split(s: string): (r: seq<string>)
    ensures |r| >= 1
    ensures forall i :: 0 <= i < |r| ==> OneLine(r[i])
    decreases |s|
  {
    if |s| == 0 then [""]
    else
      var rest := Split(s[1..]);
      if s[0] == '\n' then [""] + rest
      else [[s[0]] + rest[0]] + rest[1..]
  }

  /** The number of line breaks in `s`. */
  function Breaks(s: string): nat
  {
    if |s| == 0 then 0 else (if s[0] == '\n' then 1 else 0) + Breaks(s[1..])
  }

  /** A text without line breaks is one line. */
  lemma {:induction false} SplitOneLine(s: string)
    requires OneLine(s)
    ensures Split(s) == [s]
    decreases |s|
  {
    if |s| > 0 {
      SplitOneLine(s[1..]);
      assert [s[0]] + s[1..] == s;
    }
  }

  /** Splitting at a line break splits both sides. */
  lemma {:induction false} SplitAtBreak(a: string, b: string)
    ensures Split(a + "\n" + b) == Split(a) + Split(b)
    decreases |a|
  {
    var t := a + "\n" + b;
    if |a| == 0 {
      assert t == ['\n'] + b;
      assert t[1..] == b;
    } else {
      var t1 := a[1..] + "\n" + b;
      assert t[0] == a[0] && t[1..] == t1;
      SplitAtBreak(a[1..], b);
      var rest := Split(a[1..]);
      var tail := Split(b);
      assert Split(t1) == rest + tail;
      if a[0] == '\n' {
        assert Split(t) == [""] + Split(t1);
        assert Split(a) == [""] + rest;
      } else {
        assert Split(t) == [[a[0]] + Split(t1)[0]] + Split(t1)[1..];
        assert Split(a) == [[a[0]] + rest[0]] + rest[1..];
        assert Split(t1)[0] == rest[0];
        assert Split(t1)[1..] == rest[1..] + tail;
      }
    }
  }

  /** A one-line prefix joins the first line of what follows it. */
  lemma {:induction false} SplitOneLinePrefix(a: string, b: string)
    requires OneLine(a)
    ensures Split(a + b) == [a + Split(b)[0]] + Split(b)[1..]
    decreases |a|
  {
    if |a| == 0 {
      assert a + b == b;
      assert a + Split(b)[0] == Split(b)[0];
      assert Split(b) == [Split(b)[0]] + Split(b)[1..];
    } else {
      var t1 := a[1..] + b;
      assert (a + b)[0] == a[0] && (a + b)[1..] == t1;
      SplitOneLinePrefix(a[1..], b);
      assert Split(a + b) == [[a[0]] + Split(t1)[0]] + Split(t1)[1..];
      assert [a[0]] + (a[1..] + Split(b)[0]) == a + Split(b)[0];
    }
  }

  /** Joining lines and splitting the card gives the lines back. */
  lemma {:induction false} SplitJoin(lines: seq<string>)
    requires |lines| >= 1
    requires forall i :: 0 <= i < |lines| ==> OneLine(lines[i])
    ensures Split(Join(lines)) == lines
    decreases |lines|
  {
    SplitOneLine(lines[0]);
    if |lines| > 1 {
      SplitJoin(lines[1..]);
      SplitAtBreak(lines[0], Join(lines[1..]));
      assert lines == [lines[0]] + lines[1..];
    }
  }

  /** Splitting any text and joining the pieces gives the text back. */
  lemma {:induction false} JoinSplit(s: string)
    ensures Join(Split(s)) == s
    decreases |s|
  {
    if |s| > 0 {
      JoinSplit(s[1..]);
      var rest := Split(s[1..]);
      if s[0] == '\n' {
        assert ([""] + rest)[1..] == rest;
        assert s == "" + "\n" + s[1..];
      } else {
        var r := [[s[0]] + rest[0]] + rest[1..];
        if |rest| == 1 {
          assert Join(r) == [s[0]] + rest[0];
        } else {
          assert r[1..] == rest[1..];
          assert Join(rest) == rest[0] + "\n" + Join(rest[1..]);
        }
        assert s == [s[0]] + s[1..];
      }
    }
  }

  /** A text with n line breaks splits into n + 1 lines. */
  lemma {:induction false} SplitCount(s: string)
    ensures |Split(s)| == Breaks(s) + 1
    decreases |s|
  {
    if |s| > 0 {
      SplitCount(s[1..]);
    }
  }

  // ---------------------------------------------------------------------
  // Text-value escaping (section 4 of RFC 2426)
  // ---------------------------------------------------------------------

  function EscapeChar(c: char): (r: string)
    ensures OneLine(r) && 1 <= |r| <= 2
  {
    if c == '\\' then "\\\\"
    else if c == '\n' then "\\n"
    else if c == ',' then "\\,"
    else if c == ';' then "\\;"
    else [c]
  }

  /** The escaped form of a text value: never more than one line. */
  function Escape(s: string): (r: string)
    ensures OneLine(r)
    ensures |s| <= |r| <= 2 * |s|
  {
    if |s| == 0 then "" else EscapeChar(s[0]) + Escape(s[1..])
  }

  /** Reading an escaped text value: `\n` and `\N` are line breaks, a
      backslash before any other character stands for that character. */
  function Unescape(s: string): string
    decreases |s|
  {
    if |s| == 0 then ""
    else if s[0] == '\\' && |s| >= 2 then
      (if s[1] == 'n' || s[1] == 'N' then "\n" else [s[1]]) + Unescape(s[2..])
    else [s[0]] + Unescape(s[1..])
  }

  /** No character that escaping rewrites. */
  predicate Plain(s: string)
  {
    forall i :: 0 <= i < |s| ==> s[i] !in {'\\', '\n', ',', ';'}
  }

  lemma UnescapeChar(c: char, t: string)
    ensures Unescape(EscapeChar(c) + t) == [c] + Unescape(t)
  {
    var e := EscapeChar(c);
    if |e| == 2 {
      assert (e + t)[0] == '\\' && (e + t)[1] == e[1];
      assert (e + t)[2..] == t;
    } else {
      assert (e + t)[1..] == t;
    }
  }

  /** Escaping is undone by unescaping: the value read back from the card is
      exactly the value written. */
  lemma {:induction false} UnescapeEscape(s: string)
    ensures Unescape(Escape(s)) == s
  {
    if |s| > 0 {
      UnescapeChar(s[0], Escape(s[1..]));
      UnescapeEscape(s[1..]);
      assert s == [s[0]] + s[1..];
    }
  }

  /** Escaping leaves plain text alone. */
  lemma {:induction false} EscapePlain(s: string)
    requires Plain(s)
    ensures Escape(s) == s
  {
    if |s| > 0 {
      EscapePlain(s[1..]);
      assert s == [s[0]] + s[1..];
    }
  }
}
