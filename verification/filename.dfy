/** The name under which the ingestion script saves a converted document: the first
    line of its markdown, without a leading `#` heading marker and surrounding
    whitespace, with every character other than a word character, whitespace or `-`
    deleted, spaces turned into underscores, and `.md` appended.

    Python's `\w` is Unicode-aware and depends on the Unicode database, so the
    alphanumeric part of it is a parameter `alnum`; `\w` is `alnum` or `_`. Whitespace
    (`\s`, `str.strip`) and the line boundaries of `str.splitlines` are the fixed
    character sets the Python documentation lists. */
module FileName {
  import opened Results

  /** `splitlines()` returned no line, so taking its first element raised an index error. */
  datatype NameError = NoFirstLine

  /** The characters at which `str.splitlines` ends a line. */
  predicate IsLineBreak(c: char) {
    c == '\n' || c == '\r' || c == '\U{B}' || c == '\U{C}' || c == '\U{1C}' || c == '\U{1D}'
    || c == '\U{1E}' || c == '\U{85}' || c == '\U{2028}' || c == '\U{2029}'
  }

  /** Whitespace as `str.isspace` and the `\s` of a `str` pattern define it. */
  predicate IsSpace(c: char) {
    ('\t' <= c <= '\r') || ('\U{1C}' <= c <= ' ') || c == '\U{85}' || c == '\U{A0}'
    || c == '\U{1680}' || ('\U{2000}' <= c <= '\U{200A}') || c == '\U{2028}' || c == '\U{2029}'
    || c == '\U{202F}' || c == '\U{205F}' || c == '\U{3000}'
  }

  /** `\w`: an alphanumeric character or the underscore. */
  predicate IsWord(alnum: char -> bool, c: char) {
    c == '_' || alnum(c)
  }

  /** The characters `[\w\s-]` lets through. */
  predicate Kept(alnum: char -> bool, c: char) {
    IsWord(alnum, c) || IsSpace(c) || c == '-'
  }

  // ---------------------------------------------------------------------------
  // First line
  // ---------------------------------------------------------------------------

  /** Index of the first line break of `s`, or `|s|`. */
  function BreakIndex(s: string): (i: nat)
    ensures i <= |s|
    ensures forall k :: 0 <= k < i ==> !IsLineBreak(s[k])
    ensures i < |s| ==> IsLineBreak(s[i])
  {
    if s == [] || IsLineBreak(s[0]) then 0 else 1 + BreakIndex(s[1..])
  }

  /** `doc.splitlines()[0]`: the longest prefix without a line break; an empty document
      has no lines at all. */
  function FirstLine(doc: string): (r: Result<string, NameError>)
    ensures r.Err? <==> doc == []
    ensures r.Ok? ==> r.value <= doc
    ensures r.Ok? ==> forall k :: 0 <= k < |r.value| ==> !IsLineBreak(r.value[k])
    ensures r.Ok? && |r.value| < |doc| ==> IsLineBreak(doc[|r.value|])
  {
    if doc == [] then Err(NoFirstLine) else Ok(doc[..BreakIndex(doc)])
  }

  // ---------------------------------------------------------------------------
  // Title
  // ---------------------------------------------------------------------------

  /** `s` without its leading whitespace. */
  function TrimStart(s: string): (r: string)
    ensures |r| <= |s| && r == s[|s| - |r|..]
    ensures forall k :: 0 <= k < |s| - |r| ==> IsSpace(s[k])
    ensures r == [] || !IsSpace(r[0])
  {
    if s != [] && IsSpace(s[0]) then TrimStart(s[1..]) else s
  }

  /** `s` without its trailing whitespace. */
  function TrimEnd(s: string): (r: string)
    ensures |r| <= |s| && r == s[..|r|]
    ensures forall k :: |r| <= k < |s| ==> IsSpace(s[k])
    ensures r == [] || !IsSpace(r[|r| - 1])
  {
    if s != [] && IsSpace(s[|s| - 1]) then TrimEnd(s[..|s| - 1]) else s
  }

  /** `str.strip()`: the result is a slice of `s` whose removed ends are all whitespace
      and which neither starts nor ends with whitespace. */
  function Strip(s: string): (r: string)
    ensures exists i :: StrippedAt(s, r, i)
    ensures r == [] || (!IsSpace(r[0]) && !IsSpace(r[|r| - 1]))
  {
    var t := TrimStart(s);
    var r := TrimEnd(t);
    StripSlices(s, t, r);
    r
  }

  lemma StripSlices(s: string, t: string, r: string)
    requires |t| <= |s| && t == s[|s| - |t|..]
    requires forall k :: 0 <= k < |s| - |t| ==> IsSpace(s[k])
    requires |r| <= |t| && r == t[..|r|]
    requires forall k :: |r| <= k < |t| ==> IsSpace(t[k])
    ensures StrippedAt(s, r, |s| - |t|)
  {
    var i := |s| - |t|;
    assert r == s[i..i + |r|];
    TrailingSpaces(s, t, r);
  }

  lemma TrailingSpaces(s: string, t: string, r: string)
    requires |t| <= |s| && t == s[|s| - |t|..]
    requires |r| <= |t| && forall k :: |r| <= k < |t| ==> IsSpace(t[k])
    ensures forall k :: |s| - |t| + |r| <= k < |s| ==> IsSpace(s[k])
  {
    var i := |s| - |t|;
    forall k | i + |r| <= k < |s| ensures IsSpace(s[k]) {
      assert s[k] == t[k - i];
    }
  }

  /** `r` is the slice of `s` starting at `i`, and everything of `s` outside it is
      whitespace. */
  predicate StrippedAt(s: string, r: string, i: int) {
    && 0 <= i <= |s| - |r|
    && r == s[i..i + |r|]
    && (forall k :: 0 <= k < i ==> IsSpace(s[k]))
    && (forall k :: i + |r| <= k < |s| ==> IsSpace(s[k]))
  }

  /** `re.sub(r'^#\s*', '', line)`: a leading `#` goes, with all the whitespace after it. */
  function DropHeadingMark(line: string): (r: string)
    ensures |line| > 0 && line[0] == '#' ==>
      1 <= |line| - |r| && r == line[|line| - |r|..]
      && (forall k :: 1 <= k < |line| - |r| ==> IsSpace(line[k]))
      && (r == [] || !IsSpace(r[0]))
    ensures !(|line| > 0 && line[0] == '#') ==> r == line
  {
    if |line| > 0 && line[0] == '#' then
      var r := TrimStart(line[1..]);
      assert line[1..][|line[1..]| - |r|..] == line[|line| - |r|..];
      assert forall k :: 1 <= k < |line| - |r| ==> line[k] == line[1..][k - 1];
      r
    else line
  }

  /** The title: the first line without heading mark and surrounding whitespace. */
  function Title(line: string): string {
    Strip(DropHeadingMark(line))
  }

  // ---------------------------------------------------------------------------
  // Stem
  // ---------------------------------------------------------------------------

  /** `re.sub(r'[^\w\s-]', '', s)`: the kept characters of `s`, in order. */
  function Filter(alnum: char -> bool, s: string): (r: string)
    ensures |r| <= |s|
    ensures forall c :: c in r <==> c in s && Kept(alnum, c)
  {
    if s == [] then []
    else if Kept(alnum, s[0]) then [s[0]] + Filter(alnum, s[1..])
    else Filter(alnum, s[1..])
  }

  /** `s.replace(' ', '_')`. */
  function Underscore(s: string): (r: string)
    ensures |r| == |s|
    ensures forall k :: 0 <= k < |s| ==> r[k] == (if s[k] == ' ' then '_' else s[k])
  {
    if s == [] then [] else [if s[0] == ' ' then '_' else s[0]] + Underscore(s[1..])
  }

  /** The file name without extension: no spaces, no character the filter deletes, and
      no longer than the title. */
  function Stem(alnum: char -> bool, title: string): (r: string)
    ensures |r| <= |title|
    ensures ' ' !in r
    ensures forall k :: 0 <= k < |r| ==> Kept(alnum, r[k])
  {
    var f := Filter(alnum, title);
    var r := Underscore(f);
    assert forall k :: 0 <= k < |r| ==> Kept(alnum, r[k]) by {
      forall k | 0 <= k < |r| ensures Kept(alnum, r[k]) {
        assert f[k] in f;
      }
    }
    r
  }

  /** The name `extract_data` writes a document's markdown to. */
  function DocumentFileName(alnum: char -> bool, doc: string): (r: Result<string, NameError>)
    ensures r.Err? <==> doc == []
    ensures r.Ok? ==> |r.value| >= 3 && r.value[|r.value| - 3..] == ".md"
    ensures r.Ok? ==> ' ' !in r.value
  {
    match FirstLine(doc)
    case Err(e) => Err(e)
    case Ok(line) =>
      var stem := Stem(alnum, Title(line));
      WithExtension(stem);
      Ok(stem + ".md")
  }

  lemma WithExtension(stem: string)
    requires ' ' !in stem
    ensures |stem + ".md"| >= 3 && (stem + ".md")[|stem + ".md"| - 3..] == ".md"
    ensures ' ' !in stem + ".md"
  {
    var r := stem + ".md";
    assert r[|stem|..] == ".md";
    forall k | 0 <= k < |r| ensures r[k] != ' ' {
      if k < |stem| {
        assert r[k] == stem[k];
      } else {
        assert r[k] == ".md"[k - |stem|];
      }
    }
  }

  // ---------------------------------------------------------------------------
  // Properties
  // ---------------------------------------------------------------------------

  /** Only the first line names the file: whatever follows the first line break is
      ignored. */
  lemma OnlyFirstLineMatters(alnum: char -> bool, line: string, brk: char, rest: string)
    requires forall k :: 0 <= k < |line| ==> !IsLineBreak(line[k])
    requires IsLineBreak(brk)
    ensures DocumentFileName(alnum, line + [brk] + rest) == Ok(Stem(alnum, Title(line)) + ".md")
  {
    var doc := line + [brk] + rest;
    assert doc[..|line|] == line;
    assert doc[|line|] == brk;
    assert FirstLine(doc).value == line;
  }

  /** The filter leaves a string unchanged exactly when it keeps every character. */
  lemma {:induction false} FilterIdentity(alnum: char -> bool, s: string)
    ensures Filter(alnum, s) == s <==> forall k :: 0 <= k < |s| ==> Kept(alnum, s[k])
  {
    if s != [] {
      FilterIdentity(alnum, s[1..]);
      if Filter(alnum, s) == s {
        assert Kept(alnum, s[0]) by {
          assert s[0] in Filter(alnum, s);
        }
        assert Filter(alnum, s[1..]) == s[1..];
      }
      if forall k :: 0 <= k < |s| ==> Kept(alnum, s[k]) {
        assert forall k :: 0 <= k < |s[1..]| ==> s[1..][k] == s[k + 1];
        assert [s[0]] + s[1..] == s;
      }
    }
  }

  /** The filter deletes characters in place: it works character by character and
      keeps the survivors in their order, so filtering a concatenation filters each
      part. */
  lemma {:induction false} FilterConcat(alnum: char -> bool, a: string, b: string)
    ensures Filter(alnum, a + b) == Filter(alnum, a) + Filter(alnum, b)
  {
    if a == [] {
      assert a + b == b;
    } else {
      assert (a + b)[0] == a[0];
      assert (a + b)[1..] == a[1..] + b;
      FilterConcat(alnum, a[1..], b);
    }
  }

  /** A single character survives the filter exactly when it is kept. */
  lemma FilterChar(alnum: char -> bool, c: char)
    ensures Filter(alnum, [c]) == if Kept(alnum, c) then [c] else []
  {
    assert [c][1..] == [];
  }

  /** Replacing spaces changes nothing in a string without spaces. */
  lemma UnderscoreIdentity(s: string)
    requires ' ' !in s
    ensures Underscore(s) == s
  {
    assert forall k :: 0 <= k < |s| ==> s[k] != ' ';
  }

  /** Filtering and replacing spaces is idempotent: a stem is its own stem. */
  lemma StemIdempotent(alnum: char -> bool, title: string)
    ensures Stem(alnum, Stem(alnum, title)) == Stem(alnum, title)
  {
    var s := Stem(alnum, title);
    FilterIdentity(alnum, s);
    UnderscoreIdentity(s);
  }

  /** Whitespace after the heading mark and around the title never reaches the name: a
      heading `#   x  ` has the title `x`, and so has the plain line `x  `. */
  lemma HeadingMarkIgnored(pad: string, text: string, trail: string)
    requires forall k :: 0 <= k < |pad| ==> IsSpace(pad[k])
    requires forall k :: 0 <= k < |trail| ==> IsSpace(trail[k])
    requires text != [] && !IsSpace(text[0]) && !IsSpace(text[|text| - 1])
    ensures Title("#" + pad + text + trail) == text
    ensures text[0] != '#' ==> Title(text + trail) == text
  {
    var line := "#" + pad + text + trail;
    assert line[0] == '#';
    assert line[1..] == pad + (text + trail);
    TrimStartOf(pad, text + trail);
    assert DropHeadingMark(line) == text + trail;
    StripOf(text, trail);
    if text[0] != '#' {
      assert (text + trail)[0] == text[0];
    }
  }

  lemma {:induction false} TrimStartOf(pad: string, text: string)
    requires forall k :: 0 <= k < |pad| ==> IsSpace(pad[k])
    requires text == [] || !IsSpace(text[0])
    ensures TrimStart(pad + text) == text
  {
    if pad == [] {
      assert pad + text == text;
    } else {
      assert (pad + text)[1..] == pad[1..] + text;
      TrimStartOf(pad[1..], text);
    }
  }

  lemma {:induction false} TrimEndOf(text: string, trail: string)
    requires forall k :: 0 <= k < |trail| ==> IsSpace(trail[k])
    requires text == [] || !IsSpace(text[|text| - 1])
    ensures TrimEnd(text + trail) == text
  {
    if trail == [] {
      assert text + trail == text;
    } else {
      var s := text + trail;
      assert s[..|s| - 1] == text + trail[..|trail| - 1];
      TrimEndOf(text, trail[..|trail| - 1]);
    }
  }

  lemma StripOf(text: string, trail: string)
    requires forall k :: 0 <= k < |trail| ==> IsSpace(trail[k])
    requires text != [] && !IsSpace(text[0]) && !IsSpace(text[|text| - 1])
    ensures Strip(text + trail) == text
  {
    assert (text + trail)[0] == text[0];
    assert TrimStart(text + trail) == text + trail;
    TrimEndOf(text, trail);
  }
}
