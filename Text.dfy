/** The string operations of the Kotlin standard library that the converter's
    command generation relies on, written over `string` (`seq<char>`). */
module Text {

  datatype Option<T> = None | Some(value: T)

  /** Largest value of Kotlin's `Int`; `String.toInt` fails above it. */
  const IntMax: int := 2147483647

  // ---------------------------------------------------------------------------
  // Character classes
  // ---------------------------------------------------------------------------

  /** `\d` of a Java pattern without UNICODE_CHARACTER_CLASS. */
  predicate IsDigit(c: char) { '0' <= c <= '9' }

  /** `\w` of a Java pattern: `[a-zA-Z_0-9]`. */
  predicate IsWordChar(c: char) {
    ('a' <= c <= 'z') || ('A' <= c <= 'Z') || IsDigit(c) || c == '_'
  }

  /** `\s` of a Java pattern: `[ \t\n\x0B\f\r]`. */
  predicate IsPatternSpace(c: char) {
    c == ' ' || c == '\t' || c == '\n' || c == '\U{000B}' || c == '\U{000C}' || c == '\r'
  }

  /** The characters that `.` of a Java pattern does not match. */
  predicate IsLineTerminator(c: char) {
    c == '\n' || c == '\r' || c == '\U{0085}' || c == '\U{2028}' || c == '\U{2029}'
  }

  /** What `.` of a Java pattern matches. */
  predicate IsPatternDot(c: char) { !IsLineTerminator(c) }

  /** Kotlin's `Char.isWhitespace`: Java whitespace or a Unicode space separator. */
  predicate IsWhitespace(c: char) {
    ('\t' <= c <= '\r') || ('\U{001C}' <= c <= ' ')
    || c == '\U{00A0}' || c == '\U{1680}' || ('\U{2000}' <= c <= '\U{200A}')
    || c == '\U{2028}' || c == '\U{2029}' || c == '\U{202F}' || c == '\U{205F}' || c == '\U{3000}'
  }

  predicate All(s: string, p: char -> bool) { forall i :: 0 <= i < |s| ==> p(s[i]) }

  // ---------------------------------------------------------------------------
  // Prefixes, suffixes and occurrences
  // ---------------------------------------------------------------------------

  predicate StartsWith(s: string, prefix: string) {
    |prefix| <= |s| && s[..|prefix|] == prefix
  }

  predicate EndsWith(s: string, suffix: string) {
    |suffix| <= |s| && s[|s| - |suffix|..] == suffix
  }

  predicate OccursAt(s: string, t: string, i: nat) {
    i + |t| <= |s| && s[i..i + |t|] == t
  }

  /** `indexOf(t, from)`: the first occurrence of `t` in `s` at or after `from`. */
  function IndexOfFrom(s: string, t: string, from: nat): (r: Option<nat>)
    requires from <= |s|
    ensures r.Some? ==> from <= r.value && OccursAt(s, t, r.value)
    ensures r.Some? ==> forall j: nat :: from <= j < r.value ==> !OccursAt(s, t, j)
    ensures r.None? ==> forall j: nat :: from <= j ==> !OccursAt(s, t, j)
    decreases |s| - from
  {
    if OccursAt(s, t, from) then Some(from)
    else if from == |s| then None
    else IndexOfFrom(s, t, from + 1)
  }

  /** `indexOf(t)`, with `None` for Kotlin's `-1`. */
  function IndexOf(s: string, t: string): Option<nat> {
    IndexOfFrom(s, t, 0)
  }

  /** `s.contains(t)`. */
  predicate Contains(s: string, t: string) {
    IndexOf(s, t).Some?
  }

  lemma ContainsIff(s: string, t: string)
    ensures Contains(s, t) <==> exists i: nat :: OccursAt(s, t, i)
  {
  }

  /** `lastIndexOf(t)` over the positions `< bound`. */
  function LastIndexBefore(s: string, t: string, bound: nat): (r: Option<nat>)
    requires bound <= |s| + 1
    ensures r.Some? ==> r.value < bound && OccursAt(s, t, r.value)
    ensures r.Some? ==> forall j: nat :: r.value < j < bound ==> !OccursAt(s, t, j)
    ensures r.None? ==> forall j: nat :: j < bound ==> !OccursAt(s, t, j)
  {
    if bound == 0 then None
    else if OccursAt(s, t, bound - 1) then Some(bound - 1)
    else LastIndexBefore(s, t, bound - 1)
  }

  /** `lastIndexOf(t)`, with `None` for Kotlin's `-1`. */
  function LastIndexOf(s: string, t: string): (r: Option<nat>)
    ensures r.Some? ==> OccursAt(s, t, r.value) && forall j: nat :: r.value < j ==> !OccursAt(s, t, j)
    ensures r.None? ==> forall j: nat :: !OccursAt(s, t, j)
  {
    LastIndexBefore(s, t, |s| + 1)
  }

  /** `s.substringAfter(d)`: what follows the first occurrence of `d`, or all of `s`
      when `d` does not occur. */
  function SubstringAfter(s: string, d: string): (r: string)
    ensures !Contains(s, d) ==> r == s
    ensures Contains(s, d) ==> exists i: nat ::
      OccursAt(s, d, i) && r == s[i + |d|..] && forall j: nat :: j < i ==> !OccursAt(s, d, j)
  {
    match IndexOf(s, d)
    case None => s
    case Some(i) => s[i + |d|..]
  }

  /** `s.substringBeforeLast(d)`: what precedes the last occurrence of `d`, or all
      of `s` when `d` does not occur. */
  function SubstringBeforeLast(s: string, d: string): (r: string)
    ensures (forall j: nat :: !OccursAt(s, d, j)) ==> r == s
    ensures (exists j: nat :: OccursAt(s, d, j)) ==> exists i: nat ::
      OccursAt(s, d, i) && r == s[..i] && forall j: nat :: i < j ==> !OccursAt(s, d, j)
  {
    match LastIndexOf(s, d)
    case None => s
    case Some(i) => s[..i]
  }

  // ---------------------------------------------------------------------------
  // Trimming
  // ---------------------------------------------------------------------------

  function TrimStart(s: string): (r: string)
    ensures |r| <= |s| && r == s[|s| - |r|..]
    ensures forall k :: 0 <= k < |s| - |r| ==> IsWhitespace(s[k])
    ensures r == [] || !IsWhitespace(r[0])
  {
    if s != [] && IsWhitespace(s[0]) then TrimStart(s[1..]) else s
  }

  function TrimEnd(s: string): (r: string)
    ensures |r| <= |s| && r == s[..|r|]
    ensures forall k :: |r| <= k < |s| ==> IsWhitespace(s[k])
    ensures r == [] || !IsWhitespace(r[|r| - 1])
  {
    if s != [] && IsWhitespace(s[|s| - 1]) then TrimEnd(s[..|s| - 1]) else s
  }

  /** Kotlin's `trim()`: `s` without its leading and trailing whitespace. */
  function Trim(s: string): (r: string)
    ensures exists i, j ::
              && 0 <= i <= j <= |s| && r == s[i..j]
              && (forall k :: 0 <= k < i ==> IsWhitespace(s[k]))
              && (forall k :: j <= k < |s| ==> IsWhitespace(s[k]))
    ensures r == [] || (!IsWhitespace(r[0]) && !IsWhitespace(r[|r| - 1]))
  {
    var t := TrimStart(s);
    var r := TrimEnd(t);
    assert r == s[|s| - |t|..|s| - |t| + |r|];
    r
  }

  /** Trimming twice is trimming once. */
  lemma TrimIdempotent(s: string)
    ensures Trim(Trim(s)) == Trim(s)
  {
    var r := Trim(s);
    if r != [] {
      assert TrimStart(r) == r;
      assert TrimEnd(r) == r;
    }
  }

  // ---------------------------------------------------------------------------
  // Numbers
  // ---------------------------------------------------------------------------

  function DigitValue(c: char): nat
    requires IsDigit(c)
  {
    (c as int) - ('0' as int)
  }

  /** The value of a run of decimal digits, most significant first. */
  function DigitsValue(ds: string): nat
    requires All(ds, IsDigit)
  {
    if ds == [] then 0 else DigitsValue(ds[..|ds| - 1]) * 10 + DigitValue(ds[|ds| - 1])
  }

  /** Kotlin's `String.toInt()` on a non-empty run of digits (all the patterns here
      let through): it fails exactly when the value does not fit in an `Int`. */
  function ToInt(ds: string): (r: Option<int>)
    requires |ds| > 0 && All(ds, IsDigit)
    ensures r.Some? <==> DigitsValue(ds) <= IntMax
    ensures r.Some? ==> r.value == DigitsValue(ds) && 0 <= r.value
  {
    if DigitsValue(ds) <= IntMax then Some(DigitsValue(ds)) else None
  }

  function DigitChar(d: nat): (c: char)
    requires d < 10
    ensures IsDigit(c) && DigitValue(c) == d
  {
    ('0' as int + d) as char
  }

  /** The decimal rendering of a non-negative `Int` in a Kotlin string template. */
  function NatToString(n: nat): (s: string)
    ensures |s| > 0 && All(s, IsDigit)
    ensures DigitsValue(s) == n
    ensures |s| > 1 ==> s[0] != '0'
  {
    if n < 10 then [DigitChar(n)]
    else
      var p := NatToString(n / 10);
      var s := p + [DigitChar(n % 10)];
      assert s[..|s| - 1] == p;
      s
  }

  /** `toInt` reads back what a string template rendered. */
  lemma ToIntOfNatToString(n: nat)
    requires n <= IntMax
    ensures ToInt(NatToString(n)) == Some(n)
  {
  }

  /** Rendering is injective, so distinct indices give distinct arguments. */
  lemma NatToStringInjective(m: nat, n: nat)
    requires NatToString(m) == NatToString(n)
    ensures m == n
  {
  }

  // ---------------------------------------------------------------------------
  // Maximal runs, the greedy `\d+` and `\w+`
  // ---------------------------------------------------------------------------

  /** The length of the longest prefix of `s` whose characters satisfy `p`. */
  function RunLength(s: string, p: char -> bool): (n: nat)
    ensures n <= |s| && All(s[..n], p)
    ensures n < |s| ==> !p(s[n])
  {
    if s != [] && p(s[0]) then
      var n := 1 + RunLength(s[1..], p);
      assert s[..n] == [s[0]] + s[1..][..n - 1];
      n
    else 0
  }

  /** A run followed by a character outside the class is measured exactly. */
  lemma {:induction false} RunLengthOfConcat(run: string, rest: string, p: char -> bool)
    requires All(run, p)
    requires rest == [] || !p(rest[0])
    ensures RunLength(run + rest, p) == |run|
  {
    if run != [] {
      assert (run + rest)[1..] == run[1..] + rest;
      RunLengthOfConcat(run[1..], rest, p);
    }
  }
}
