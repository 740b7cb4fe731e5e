/**
 * The two e-mail patterns used across the backends, read literally as
 * regular expressions (the `+` groups become split points the matcher may
 * choose), together with direct characterisations of what they accept.
 *
 * Loose:  /^[^\s@]+@[^\s@]+\.[^\s@]+$/                    (worker, browser form)
 * Strict: /^[a-zA-Z0-9._%+-]+@[a-zA-Z0-9.-]+\.[a-zA-Z]{2,}$/  (bundle, Flask, Vercel)
 */
module EmailPatterns {
  import opened Text

  // ---------------------------------------------------------------- loose

  /** `[^\s@]` */
  predicate LooseChar(c: char) { !IsJsSpace(c) && c != '@' }

  predicate AllLoose(t: string) { forall k | 0 <= k < |t| :: LooseChar(t[k]) }

  /** JavaScript `test` of the loose pattern: some '@' at `at` and some '.'
      at `dot` split the input into three non-empty runs of `[^\s@]`. */
  predicate LooseEmail(s: string) {
    exists at, dot | 0 < at && at + 1 < dot && dot + 1 < |s| :: LooseSplit(s, at, dot)
  }

  predicate LooseSplit(s: string, at: int, dot: int)
    requires 0 < at && at + 1 < dot && dot + 1 < |s|
  {
    && s[at] == '@' && s[dot] == '.'
    && AllLoose(s[..at]) && AllLoose(s[at + 1..dot]) && AllLoose(s[dot + 1..])
  }

  predicate NoJsSpace(s: string) { forall k | 0 <= k < |s| :: !IsJsSpace(s[k]) }

  /** Position `at` holds the only '@' of `s`. */
  predicate SoleAt(s: string, at: int) {
    0 <= at < |s| && s[at] == '@' && forall k | 0 <= k < |s| && k != at :: s[k] != '@'
  }

  /** Exactly one '@', no white space, a non-empty local part, and a domain
      with a '.' that has at least one character on each side. */
  predicate LooseShape(s: string) {
    && NoJsSpace(s)
    && exists at | 0 < at < |s| ::
         SoleAt(s, at) && exists dot | at + 1 < dot < |s| - 1 :: s[dot] == '.'
  }

  lemma LooseSplitShape(s: string, at: int, dot: int)
    requires 0 < at && at + 1 < dot && dot + 1 < |s|
    requires s[at] == '@' && s[dot] == '.'
    ensures AllLoose(s[..at]) && AllLoose(s[at + 1..dot]) && AllLoose(s[dot + 1..])
        <==> NoJsSpace(s) && SoleAt(s, at)
  {
    var a, b, c := s[..at], s[at + 1..dot], s[dot + 1..];
    if AllLoose(a) && AllLoose(b) && AllLoose(c) {
      forall k | 0 <= k < |s|
        ensures !IsJsSpace(s[k]) && (k != at ==> s[k] != '@')
      {
        if k < at { assert s[k] == a[k]; }
        else if at < k < dot { assert s[k] == b[k - at - 1]; }
        else if dot < k { assert s[k] == c[k - dot - 1]; }
      }
    }
  }

  /** The loose pattern accepts exactly the strings of `LooseShape`. */
  lemma LooseEmailShape(s: string)
    ensures LooseEmail(s) <==> LooseShape(s)
  {
    if LooseEmail(s) {
      var at, dot :| 0 < at && at + 1 < dot && dot + 1 < |s| && LooseSplit(s, at, dot);
      LooseSplitShape(s, at, dot);
    }
    if LooseShape(s) {
      var at :| 0 < at < |s| && SoleAt(s, at) && exists dot | at + 1 < dot < |s| - 1 :: s[dot] == '.';
      var dot :| at + 1 < dot < |s| - 1 && s[dot] == '.';
      LooseSplitShape(s, at, dot);
      assert LooseSplit(s, at, dot);
    }
  }

  // --------------------------------------------------------------- strict

  predicate IsAsciiLetter(c: char) { 'a' <= c <= 'z' || 'A' <= c <= 'Z' }

  predicate IsAsciiDigit(c: char) { '0' <= c <= '9' }

  /** `[a-zA-Z0-9._%+-]` */
  predicate LocalChar(c: char) {
    IsAsciiLetter(c) || IsAsciiDigit(c) || c == '.' || c == '_' || c == '%' || c == '+' || c == '-'
  }

  /** `[a-zA-Z0-9.-]` */
  predicate DomainChar(c: char) { IsAsciiLetter(c) || IsAsciiDigit(c) || c == '.' || c == '-' }

  predicate AllLocal(t: string) { forall k | 0 <= k < |t| :: LocalChar(t[k]) }

  predicate AllDomain(t: string) { forall k | 0 <= k < |t| :: DomainChar(t[k]) }

  predicate AllLetters(t: string) { forall k | 0 <= k < |t| :: IsAsciiLetter(t[k]) }

  /** JavaScript `test` of the strict pattern: local part, '@', domain, '.',
      and a top-level label of at least two ASCII letters. */
  predicate StrictEmail(s: string) {
    exists at, dot | 0 < at && at + 1 < dot && dot + 2 < |s| :: StrictSplit(s, at, dot)
  }

  predicate StrictSplit(s: string, at: int, dot: int)
    requires 0 < at && at + 1 < dot && dot + 2 < |s|
  {
    && s[at] == '@' && s[dot] == '.'
    && AllLocal(s[..at]) && AllDomain(s[at + 1..dot]) && AllLetters(s[dot + 1..])
  }

  /** Python `re.match(pattern, s)` with the same pattern: `$` also matches
      just before a final newline, so one trailing '\n' is accepted. */
  predicate PyStrictMatch(s: string) {
    StrictEmail(s) || (|s| > 0 && s[|s| - 1] == '\n' && StrictEmail(s[..|s| - 1]))
  }

  /** Index of the last occurrence of `c` in `t`, or -1. */
  function LastIndexOf(t: string, c: char): (i: int)
    ensures -1 <= i < |t|
    ensures i >= 0 ==> t[i] == c
    ensures forall k | i < k < |t| :: t[k] != c
  {
    if t == [] then -1
    else if t[|t| - 1] == c then |t| - 1
    else LastIndexOf(t[..|t| - 1], c)
  }

  /** The strict shape stated without choosing split points: a non-empty
      local part over `[A-Za-z0-9._%+-]`, a single '@', everything after it
      over `[A-Za-z0-9.-]`, and after the LAST dot of that domain two or
      more letters, with something before that dot. */
  predicate StrictShape(s: string) {
    exists at | 0 < at < |s| :: ShapeAt(s, at)
  }

  predicate ShapeAt(s: string, at: int)
    requires 0 < at < |s|
  {
    && s[at] == '@' && AllLocal(s[..at]) && AllDomain(s[at + 1..])
    && var d := s[at + 1..];
       var p := LastIndexOf(d, '.');
       p > 0 && |d| - p - 1 >= 2 && AllLetters(d[p + 1..])
  }

  lemma StrictEmailShape(s: string)
    ensures StrictEmail(s) <==> StrictShape(s)
  {
    if StrictEmail(s) {
      var at, dot :| 0 < at && at + 1 < dot && dot + 2 < |s| && StrictSplit(s, at, dot);
      StrictSplitHasShape(s, at, dot);
    }
    if StrictShape(s) {
      var at :| 0 < at < |s| && ShapeAt(s, at);
      ShapeHasStrictSplit(s, at);
    }
  }

  /** Splitting at the '@' and the domain's last dot matches the pattern. */
  lemma ShapeHasStrictSplit(s: string, at: int)
    requires 0 < at < |s| && ShapeAt(s, at)
    ensures StrictEmail(s)
  {
    var d := s[at + 1..];
    var p := LastIndexOf(d, '.');
    var dot := at + 1 + p;
    assert s[at + 1..dot] == d[..p];
    assert s[dot + 1..] == d[p + 1..];
    assert StrictSplit(s, at, dot);
  }

  /** A match's dot is necessarily the last dot of the domain. */
  lemma StrictSplitHasShape(s: string, at: int, dot: int)
    requires 0 < at && at + 1 < dot && dot + 2 < |s| && StrictSplit(s, at, dot)
    ensures StrictShape(s)
  {
    var d := s[at + 1..];
    var q := dot - at - 1;
    assert d[q] == '.';
    assert d[q + 1..] == s[dot + 1..];
    forall k | 0 <= k < |d| ensures DomainChar(d[k]) {
      if k < q { assert d[k] == s[at + 1..dot][k]; }
      else if k > q { assert d[k] == s[dot + 1..][k - q - 1]; }
    }
    var p := LastIndexOf(d, '.');
    assert p >= q;
    assert p == q;
    assert ShapeAt(s, at);
  }

  /** Every address the strict pattern accepts, the loose one accepts too. */
  lemma StrictImpliesLoose(s: string)
    ensures StrictEmail(s) ==> LooseEmail(s)
  {
    if StrictEmail(s) {
      var at, dot :| 0 < at && at + 1 < dot && dot + 2 < |s| && StrictSplit(s, at, dot);
      assert LooseSplit(s, at, dot);
    }
  }

  /** ... but not conversely: a one-letter top-level label is loose-only. */
  lemma LooseButNotStrict()
    ensures LooseEmail("a@b.c") && !StrictEmail("a@b.c")
  {
    var s := "a@b.c";
    assert LooseSplit(s, 1, 3);
  }

  /** Python accepts a trailing newline that JavaScript rejects. */
  lemma PythonTrailingNewline()
    ensures PyStrictMatch("a@b.co\n") && !StrictEmail("a@b.co\n")
  {
    var s := "a@b.co";
    assert StrictSplit(s, 1, 3);
    var t := "a@b.co\n";
    assert t[..6] == s;
    forall at, dot | 0 < at && at + 1 < dot && dot + 2 < |t|
      ensures !StrictSplit(t, at, dot)
    {
      assert t[dot + 1..][|t| - dot - 2] == '\n';
    }
  }

  /** On a string without a final newline (any stripped string) the Python
      match and the JavaScript test agree. */
  lemma PyStrictMatchNoNewline(s: string)
    requires s == [] || s[|s| - 1] != '\n'
    ensures PyStrictMatch(s) == StrictEmail(s)
  {
  }

  lemma PyStrippedNoNewline(s: string)
    ensures var t := PyStrip(s); t == [] || t[|t| - 1] != '\n'
  {
  }

  /** A match contains a character that is not white space (its '@'). */
  lemma StrictNotBlank(s: string)
    ensures StrictEmail(s) ==> !AllSpace(s, PySpaces)
  {
    if StrictEmail(s) {
      var at, dot :| 0 < at && at + 1 < dot && dot + 2 < |s| && StrictSplit(s, at, dot);
      assert !IsPySpace(s[at]);
    }
  }

  /** A string made only of white space never matches the strict pattern,
      with or without Python's trailing-newline allowance. */
  lemma BlankNotStrict(s: string)
    requires AllSpace(s, PySpaces)
    ensures !PyStrictMatch(s)
  {
    StrictNotBlank(s);
    if |s| > 0 {
      StrictNotBlank(s[..|s| - 1]);
      assert AllSpace(s[..|s| - 1], PySpaces);
    }
  }
}
