/**
 * Character classes and the string clean-up steps the backends apply:
 * JavaScript `trim()` and the regular-expression class `\s`, Python
 * `str.strip()`, and removal of angle brackets.
 */
module Text {
  import opened Seqs

  /** ECMAScript WhiteSpace and LineTerminator code points: what `\s`
      matches and what `String.prototype.trim` removes. */
  predicate IsJsSpace(c: char) {
    var n := c as int;
    n == 0x09 || n == 0x0A || n == 0x0B || n == 0x0C || n == 0x0D || n == 0x20 ||
    n == 0xA0 || n == 0x1680 || (0x2000 <= n <= 0x200A) || n == 0x2028 || n == 0x2029 ||
    n == 0x202F || n == 0x205F || n == 0x3000 || n == 0xFEFF
  }

  /** Python `str.isspace` code points: what `str.strip()` removes. Unlike
      JavaScript it includes the separators 0x1C-0x1F and 0x85 and excludes
      the byte-order mark 0xFEFF. */
  predicate IsPySpace(c: char) {
    var n := c as int;
    (0x09 <= n <= 0x0D) || (0x1C <= n <= 0x20) || n == 0x85 || n == 0xA0 ||
    n == 0x1680 || (0x2000 <= n <= 0x200A) || n == 0x2028 || n == 0x2029 ||
    n == 0x202F || n == 0x205F || n == 0x3000
  }

  /** Which language's notion of white space a trim uses. */
  datatype Spaces = JsSpaces | PySpaces

  predicate IsSpace(ws: Spaces, c: char) {
    match ws
    case JsSpaces => IsJsSpace(c)
    case PySpaces => IsPySpace(c)
  }

  predicate AllSpace(s: string, ws: Spaces) {
    forall k | 0 <= k < |s| :: IsSpace(ws, s[k])
  }

  /** Drops the longest prefix of white space. */
  function TrimStart(s: string, ws: Spaces): (r: string)
    ensures |r| <= |s| && r == s[|s| - |r|..]
    ensures r == [] || !IsSpace(ws, r[0])
    ensures AllSpace(s[..|s| - |r|], ws)
  {
    if s != [] && IsSpace(ws, s[0]) then TrimStart(s[1..], ws) else s
  }

  /** Drops the longest suffix of white space. */
  function TrimEnd(s: string, ws: Spaces): (r: string)
    ensures |r| <= |s| && r == s[..|r|]
    ensures r == [] || !IsSpace(ws, r[|r| - 1])
    ensures AllSpace(s[|r|..], ws)
  {
    if s != [] && IsSpace(ws, s[|s| - 1]) then TrimEnd(s[..|s| - 1], ws) else s
  }

  /** Both ends trimmed, as JavaScript `trim()` and Python `strip()` do. */
  function Trim(s: string, ws: Spaces): string {
    TrimEnd(TrimStart(s, ws), ws)
  }

  function JsTrim(s: string): string { Trim(s, JsSpaces) }

  function PyStrip(s: string): string { Trim(s, PySpaces) }

  /** Trimming only removes characters. */
  lemma TrimSubset(s: string, ws: Spaces)
    ensures forall c :: c in Trim(s, ws) ==> c in s
  {
    var t := TrimStart(s, ws);
    assert forall c :: c in t ==> c in s;
  }

  /** Trimming gives the empty string exactly when the input is all white
      space; this is the "blank" test `not s.strip()`. */
  lemma TrimEmptyIffBlank(s: string, ws: Spaces)
    ensures Trim(s, ws) == [] <==> AllSpace(s, ws)
  {
    var t := TrimStart(s, ws);
    if Trim(s, ws) == [] {
      assert t[0..] == t;
      assert t == [];
      assert s[..|s|] == s;
    }
  }

  /** A trimmed string that is not empty starts and ends with a character
      that is not white space. */
  lemma TrimEnds(s: string, ws: Spaces)
    ensures var r := Trim(s, ws); r == [] || (!IsSpace(ws, r[0]) && !IsSpace(ws, r[|r| - 1]))
  {
    var t := TrimStart(s, ws);
    var r := TrimEnd(t, ws);
    if r != [] {
      assert r[0] == t[0];
    }
  }

  /** One white-space character on each side of a clean string is trimmed away. */
  lemma TrimPadded(core: string, c: char, d: char, ws: Spaces)
    requires core != [] && !IsSpace(ws, core[0]) && !IsSpace(ws, core[|core| - 1]) && IsSpace(ws, c) && IsSpace(ws, d)
    ensures Trim([c] + core + [d], ws) == core
  {
    TrimStartPadded(core, c, d, ws);
    TrimEndPadded(core, d, ws);
  }

  lemma TrimStartPadded(core: string, c: char, d: char, ws: Spaces)
    requires core != [] && !IsSpace(ws, core[0]) && IsSpace(ws, c)
    ensures TrimStart([c] + core + [d], ws) == core + [d]
  {
    var s, t := [c] + core + [d], core + [d];
    assert s[0] == c && s[1..] == t;
    assert t[0] == core[0];
  }

  lemma TrimEndPadded(core: string, d: char, ws: Spaces)
    requires core != [] && !IsSpace(ws, core[|core| - 1]) && IsSpace(ws, d)
    ensures TrimEnd(core + [d], ws) == core
  {
    var t := core + [d];
    assert t[|t| - 1] == d && t[..|t| - 1] == core;
  }

  /** Trimming an already trimmed string changes nothing. */
  lemma TrimIdempotent(s: string, ws: Spaces)
    ensures Trim(Trim(s, ws), ws) == Trim(s, ws)
  {
    var r := Trim(s, ws);
    if r != [] {
      assert !IsSpace(ws, r[0]);
      assert TrimStart(r, ws) == r;
      assert !IsSpace(ws, r[|r| - 1]);
    }
  }

  /** Removes every `<` and `>`: `text.replace(/[<>]/g, '')`. */
  function StripBrackets(s: string): (r: string)
    ensures |r| <= |s|
    ensures forall c :: c in r <==> c in s && c != '<' && c != '>'
  {
    if s == [] then []
    else if s[0] == '<' || s[0] == '>' then StripBrackets(s[1..])
    else [s[0]] + StripBrackets(s[1..])
  }

  /** `s.slice(0, n)` for a non-negative `n`. */
  function Take(s: string, n: nat): (r: string)
    ensures r == s[..if |s| <= n then |s| else n]
  {
    if |s| <= n then s else s[..n]
  }

  lemma {:induction false} StripBracketsOfClean(s: string)
    requires '<' !in s && '>' !in s
    ensures StripBrackets(s) == s
  {
    if s != [] {
      assert s[0] in s;
      assert forall c :: c in s[1..] ==> c in s;
      StripBracketsOfClean(s[1..]);
    }
  }

  /** Every character other than `<` and `>` is kept as often as it occurs ... */
  lemma {:induction false} StripBracketsCounts(s: string, c: char)
    ensures multiset(StripBrackets(s))[c] == if c == '<' || c == '>' then 0 else multiset(s)[c]
  {
    if s != [] {
      assert s == [s[0]] + s[1..];
      StripBracketsCounts(s[1..], c);
    }
  }

  /** ... the characters kept stay in their order ... */
  lemma {:induction false} StripBracketsSubsequence(s: string)
    ensures Subsequence(StripBrackets(s), s)
  {
    if s != [] {
      StripBracketsSubsequence(s[1..]);
    }
  }

  /** ... and the removal works piece by piece: stripping a concatenation
      strips each part. */
  lemma {:induction false} StripBracketsConcat(a: string, b: string)
    ensures StripBrackets(a + b) == StripBrackets(a) + StripBrackets(b)
  {
    if a != [] {
      assert (a + b)[0] == a[0] && (a + b)[1..] == a[1..] + b;
      StripBracketsConcat(a[1..], b);
    } else {
      assert a + b == b;
    }
  }
}
