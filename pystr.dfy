/**
 * The few Python `str` operations the services rely on: `isspace`, `strip`
 * and `sep.join(parts)`, over strings of Unicode code points.
 */
module PyStr {

  /** Python's `str.isspace` for one character (the code points Python treats as whitespace). */
  predicate IsSpace(c: char)
  {
    || c == ' ' || c == '\t' || c == '\n' || c == '\r'
    || c == '\U{B}' || c == '\U{C}'
    || ('\U{1C}' <= c <= '\U{1F}')
    || c == '\U{85}' || c == '\U{A0}' || c == '\U{1680}'
    || ('\U{2000}' <= c <= '\U{200A}')
    || c == '\U{2028}' || c == '\U{2029}' || c == '\U{202F}' || c == '\U{205F}' || c == '\U{3000}'
  }

  /**
   * Among ASCII characters the whitespace is the space, tab to carriage
   * return, and the four information separators; no whitespace lies above U+3000.
   */
  lemma AsciiSpaces(c: char)
    ensures c as int < 0x80 ==> (IsSpace(c) <==> c == ' ' || '\t' <= c <= '\r' || '\U{1C}' <= c <= '\U{1F}')
    ensures IsSpace(c) ==> c as int <= 0x3000
  {
  }

  predicate AllSpace(s: string)
  {
    forall i :: 0 <= i < |s| ==> IsSpace(s[i])
  }

  /** A run of `n` space characters, as source-code indentation produces. */
  function Blanks(n: nat): (s: string)
    ensures |s| == n && AllSpace(s)
  {
    seq(n, _ => ' ')
  }

  function LStrip(s: string): (r: string)
    ensures |r| <= |s| && r == s[|s| - |r|..]
    ensures r == [] || !IsSpace(r[0])
    ensures AllSpace(s[..|s| - |r|])
  {
    if s != [] && IsSpace(s[0]) then
      var r := LStrip(s[1..]);
      assert s[..|s| - |r|] == [s[0]] + s[1..][..|s| - 1 - |r|];
      r
    else s
  }

  function RStrip(s: string): (r: string)
    ensures |r| <= |s| && r == s[..|r|]
    ensures r == [] || !IsSpace(r[|r| - 1])
    ensures AllSpace(s[|r|..])
  {
    if s != [] && IsSpace(s[|s| - 1]) then
      var r := RStrip(s[..|s| - 1]);
      assert s[|r|..] == s[..|s| - 1][|r|..] + [s[|s| - 1]];
      r
    else s
  }

  /** Python's `s.strip()`: leading and trailing whitespace removed. */
  function Strip(s: string): (r: string)
    ensures |r| <= |s|
    ensures r == "" || (!IsSpace(r[0]) && !IsSpace(r[|r| - 1]))
  {
    var l := LStrip(s);
    var r := RStrip(l);
    assert r != "" ==> r[0] == l[0];
    r
  }

  predicate IsIdentifierStart(c: char)
  {
    ('a' <= c <= 'z') || ('A' <= c <= 'Z') || c == '_'
  }

  predicate IsIdentifierChar(c: char)
  {
    IsIdentifierStart(c) || ('0' <= c <= '9')
  }

  /** Python's `str.isidentifier`, over ASCII: a letter or underscore, then letters, digits and underscores. */
  predicate IsIdentifier(s: string)
  {
    |s| > 0 && IsIdentifierStart(s[0]) && forall i :: 1 <= i < |s| ==> IsIdentifierChar(s[i])
  }

  /** Python's `keyword.kwlist`: the hard keywords, which no name may be. */
  const Keywords: set<string> := {
    "False", "None", "True", "and", "as", "assert", "async", "await", "break",
    "class", "continue", "def", "del", "elif", "else", "except", "finally",
    "for", "from", "global", "if", "import", "in", "is", "lambda", "nonlocal",
    "not", "or", "pass", "raise", "return", "try", "while", "with", "yield"
  }

  /** Python's `sep.join(parts)`. */
  function Join(sep: string, parts: seq<string>): string
  {
    if parts == [] then ""
    else if |parts| == 1 then parts[0]
    else parts[0] + sep + Join(sep, parts[1..])
  }

  /** The joined text opens with the first part, and then the separator when more parts follow. */
  lemma JoinStartsWithFirst(sep: string, parts: seq<string>)
    requires parts != []
    ensures |parts[0]| <= |Join(sep, parts)| && Join(sep, parts)[..|parts[0]|] == parts[0]
    ensures |parts| > 1 ==> Join(sep, parts)[..|parts[0]| + |sep|] == parts[0] + sep
  {
    if |parts| > 1 {
      assert Join(sep, parts) == parts[0] + sep + Join(sep, parts[1..]);
    }
  }

  /** A string strips to nothing exactly when every character of it is whitespace. */
  lemma StripEmptyIff(s: string)
    ensures Strip(s) == "" <==> AllSpace(s)
  {
    var l := LStrip(s);
    assert l == s[|s| - |l|..];
    if l != [] {
      assert l[0] == s[|s| - |l|];
      assert !IsSpace(s[|s| - |l|]);
    } else {
      assert s[..|s| - |l|] == s;
    }
  }

  /** The stripped string is a slice of the input bounded by non-space characters. */
  lemma StripIsTrimmedSlice(s: string)
    ensures exists i, j :: 0 <= i <= j <= |s| && Strip(s) == s[i..j] && AllSpace(s[..i]) && AllSpace(s[j..])
    ensures Strip(s) == "" || (!IsSpace(Strip(s)[0]) && !IsSpace(Strip(s)[|Strip(s)| - 1]))
  {
    var l := LStrip(s);
    var r := RStrip(l);
    var i := |s| - |l|;
    var j := i + |r|;
    assert l == s[i..];
    assert r == s[i..j];
    assert s[j..] == l[|r|..];
    assert AllSpace(s[..i]) && AllSpace(s[j..]);
    assert 0 <= i <= j <= |s| && Strip(s) == s[i..j];
  }

  lemma {:induction false} LStripSpacePrefix(ws: string, t: string)
    requires AllSpace(ws)
    ensures LStrip(ws + t) == LStrip(t)
  {
    if ws != [] {
      assert (ws + t)[1..] == ws[1..] + t;
      LStripSpacePrefix(ws[1..], t);
    } else {
      assert ws + t == t;
    }
  }

  lemma {:induction false} RStripSpaceSuffix(t: string, ws: string)
    requires AllSpace(ws)
    ensures RStrip(t + ws) == RStrip(t)
  {
    if ws != [] {
      var n := |ws| - 1;
      assert (t + ws)[..|t + ws| - 1] == t + ws[..n];
      RStripSpaceSuffix(t, ws[..n]);
    } else {
      assert t + ws == t;
    }
  }

  lemma {:induction false} StripSpaceSuffix(t: string, ws: string)
    requires AllSpace(ws)
    ensures Strip(t + ws) == Strip(t)
  {
    if t == [] {
      assert t + ws == ws;
      LStripSpacePrefix(ws, []);
      assert ws + [] == ws;
    } else if IsSpace(t[0]) {
      assert (t + ws)[1..] == t[1..] + ws;
      StripSpaceSuffix(t[1..], ws);
    } else {
      RStripSpaceSuffix(t, ws);
    }
  }

  /** Whitespace added around a string is removed again by `strip`. */
  lemma StripSurrounded(ws: string, t: string, ws': string)
    requires AllSpace(ws) && AllSpace(ws')
    ensures Strip(ws + t + ws') == Strip(t)
  {
    assert ws + t + ws' == ws + (t + ws');
    LStripSpacePrefix(ws, t + ws');
    assert LStrip(ws + t + ws') == LStrip(t + ws');
    assert Strip(ws + t + ws') == RStrip(LStrip(t + ws')) == Strip(t + ws');
    StripSpaceSuffix(t, ws');
  }
}
