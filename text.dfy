/**
 * String helpers the source relies on: JavaScript's `String.prototype.trim`,
 * Python's `str.strip`, `str.startswith` and `str.split(sep, 1)`.
 */
module Text {

  /** Characters JavaScript's `trim` removes: WhiteSpace and LineTerminator code points. */
  predicate IsJsSpace(c: char) {
    c == '\t' || c == '\n' || c == '\U{000B}' || c == '\U{000C}' || c == '\r' || c == ' '
    || c == '\U{00A0}' || c == '\U{1680}' || ('\U{2000}' <= c <= '\U{200A}')
    || c == '\U{2028}' || c == '\U{2029}' || c == '\U{202F}' || c == '\U{205F}'
    || c == '\U{3000}' || c == '\U{FEFF}'
  }

  /** Characters for which Python's `str.isspace` holds, i.e. those `str.strip()` removes. */
  predicate IsPySpace(c: char) {
    ('\t' <= c <= '\r') || ('\U{001C}' <= c <= ' ') || c == '\U{0085}' || c == '\U{00A0}'
    || c == '\U{1680}' || ('\U{2000}' <= c <= '\U{200A}') || c == '\U{2028}' || c == '\U{2029}'
    || c == '\U{202F}' || c == '\U{205F}' || c == '\U{3000}'
  }

  /** Every character of `s` is blank under `ws`. */
  ghost predicate AllSpace(s: string, ws: char -> bool) {
    forall i :: 0 <= i < |s| ==> ws(s[i])
  }

  /** `s` without its leading run of `ws` characters. */
  function DropLeading(s: string, ws: char -> bool): (r: string)
    ensures |r| <= |s| && r == s[|s| - |r|..]
    ensures r != [] ==> !ws(r[0])
    ensures forall i :: 0 <= i < |s| - |r| ==> ws(s[i])
  {
    if s != [] && ws(s[0]) then DropLeading(s[1..], ws) else s
  }

  /** `s` without its trailing run of `ws` characters. */
  function DropTrailing(s: string, ws: char -> bool): (r: string)
    ensures |r| <= |s| && r == s[..|r|]
    ensures r != [] ==> !ws(r[|r| - 1])
    ensures forall i :: |r| <= i < |s| ==> ws(s[i])
  {
    if s != [] && ws(s[|s| - 1]) then DropTrailing(s[..|s| - 1], ws) else s
  }

  /** Both ends stripped: the common shape of `trim()` and `strip()`. */
  function Strip(s: string, ws: char -> bool): string {
    DropTrailing(DropLeading(s, ws), ws)
  }

  /** `name.trim()` in JavaScript. */
  function JsTrim(s: string): string {
    Strip(s, IsJsSpace)
  }

  /** `content.strip()` in Python. */
  function PyStrip(s: string): string {
    Strip(s, IsPySpace)
  }

  /** A prefix `r` of a suffix `d` of `s` is the slice of `s` it occupies. */
  lemma PrefixOfSuffix(s: string, d: string, r: string)
    requires |d| <= |s| && d == s[|s| - |d|..]
    requires |r| <= |d| && r == d[..|r|]
    ensures r == s[|s| - |d|..|s| - |d| + |r|]
  {
  }

  /** Blanks after the prefix `r` of a suffix `d` of `s` are blanks of `s`. */
  lemma TailOfSuffix(s: string, d: string, r: string, ws: char -> bool)
    requires |d| <= |s| && d == s[|s| - |d|..] && |r| <= |d|
    requires forall i :: |r| <= i < |d| ==> ws(d[i])
    ensures forall i :: |s| - |d| + |r| <= i < |s| ==> ws(s[i])
  {
    var lo := |s| - |d|;
    forall i | lo + |r| <= i < |s| ensures ws(s[i]) {
      assert s[i] == d[i - lo];
    }
  }

  /** The stripped string is the slice of `s` after its leading blanks. */
  lemma StripSlice(s: string, ws: char -> bool)
    ensures var lo := |s| - |DropLeading(s, ws)|; var r := Strip(s, ws);
      lo + |r| <= |s| && r == s[lo..lo + |r|]
  {
    PrefixOfSuffix(s, DropLeading(s, ws), Strip(s, ws));
  }

  /** Everything after the stripped slice is blank. */
  lemma StripTail(s: string, ws: char -> bool)
    ensures var lo := |s| - |DropLeading(s, ws)|; var r := Strip(s, ws);
      forall i :: lo + |r| <= i < |s| ==> ws(s[i])
  {
    TailOfSuffix(s, DropLeading(s, ws), Strip(s, ws), ws);
  }

  /** The stripped string neither starts nor ends with a blank. */
  lemma StripEnds(s: string, ws: char -> bool)
    ensures var r := Strip(s, ws); r != [] ==> !ws(r[0]) && !ws(r[|r| - 1])
  {
    var d := DropLeading(s, ws);
    var r := Strip(s, ws);
    if r != [] {
      assert r[0] == d[0];
    }
  }

  /** What `trim()`/`strip()` keep: the part of `s` between its leading and trailing blanks. */
  lemma StripShape(s: string, ws: char -> bool)
    ensures var lo := |s| - |DropLeading(s, ws)|; var r := Strip(s, ws);
      lo + |r| <= |s| && r == s[lo..lo + |r|]
      && (forall i :: 0 <= i < lo ==> ws(s[i]))
      && (forall i :: lo + |r| <= i < |s| ==> ws(s[i]))
      && (r != [] ==> !ws(r[0]) && !ws(r[|r| - 1]))
  {
    StripSlice(s, ws);
    StripTail(s, ws);
    StripEnds(s, ws);
  }

  /** Stripping leaves nothing exactly when every character is blank. */
  lemma StripEmptyIff(s: string, ws: char -> bool)
    ensures Strip(s, ws) == [] <==> AllSpace(s, ws)
  {
    StripShape(s, ws);
  }

  /**
   * Every character of `s` is JavaScript whitespace: `AllSpace(s, IsJsSpace)` in
   * recursive form, which callers can use without unfolding `trim` (much cheaper to
   * verify); `JsTrimEmptyIff` ties it to `!s.trim()`.
   */
  function IsJsBlank(s: string): (b: bool)
    ensures b <==> AllSpace(s, IsJsSpace)
    decreases |s|
  {
    s == [] || (IsJsSpace(s[0]) && IsJsBlank(s[1..]))
  }

  /** `!s.trim()` in JavaScript: nothing is left once `s` is trimmed exactly when `s` is blank. */
  lemma JsTrimEmptyIff(s: string)
    ensures JsTrim(s) == [] <==> IsJsBlank(s)
  {
    StripEmptyIff(s, IsJsSpace);
  }

  /** `s.startswith(p)` / `s.startsWith(p)`. */
  predicate StartsWith(s: string, p: string) {
    |p| <= |s| && s[..|p|] == p
  }

  /** Index of the first `c` in `s`, or `|s|` when there is none. */
  function IndexOf(s: string, c: char): (k: nat)
    ensures k <= |s|
    ensures k < |s| ==> s[k] == c
    ensures forall j :: 0 <= j < k ==> s[j] != c
  {
    if s == [] then 0
    else if s[0] == c then 0
    else 1 + IndexOf(s[1..], c)
  }

  /** Python's `s.split(c, 1)` for a one-character separator: at most two parts. */
  function SplitOnce(s: string, c: char): (parts: seq<string>)
    ensures 1 <= |parts| <= 2
  {
    var k := IndexOf(s, c);
    if k < |s| then [s[..k], s[k + 1..]] else [s]
  }

  /** Splitting at the first separator and joining the parts back gives the input. */
  lemma SplitOnceJoin(s: string, c: char)
    ensures var parts := SplitOnce(s, c);
      (|parts| == 1 ==> parts[0] == s && c !in s)
      && (|parts| == 2 ==> parts[0] + [c] + parts[1] == s && c !in parts[0])
  {
    var k := IndexOf(s, c);
    if k < |s| {
      assert s[..k] + [c] + s[k + 1..] == s;
    } else {
      assert forall j :: 0 <= j < |s| ==> s[j] != c;
    }
  }
}
