/**
 * The string primitives the screens and the proxy rely on: ASCII lower-casing,
 * substring search (`includes`, `indexOf`, `lastIndexOf`, `endsWith`), literal
 * replacement of the first occurrence (`replace` with a string pattern) and the
 * decimal rendering of a non-negative integer (template-literal interpolation).
 */
module Strings {
  import opened Wrappers

  /** `s || fallback` on a nullable string: null and the empty string both give `fallback`. */
  function OrDefault(s: Option<string>, fallback: string): (r: string)
    ensures s.Some? && s.value != "" ==> r == s.value
    ensures s.None? || s.value == "" ==> r == fallback
  {
    if s.Some? && s.value != "" then s.value else fallback
  }

  /** Lower-cases one character; only the ASCII letters A..Z are mapped. */
  function LowerChar(c: char): (r: char)
    ensures 'A' <= c <= 'Z' ==> 'a' <= r <= 'z'
    ensures !('A' <= c <= 'Z') ==> r == c
  {
    if 'A' <= c <= 'Z' then (c as int + 32) as char else c
  }

  function Lower(s: string): (r: string)
    ensures |r| == |s|
    ensures forall i :: 0 <= i < |s| ==> r[i] == LowerChar(s[i])
  {
    seq(|s|, i requires 0 <= i < |s| => LowerChar(s[i]))
  }

  /** `p` occurs in `s` at position `i`. */
  predicate OccursAt(s: string, p: string, i: nat)
  {
    i + |p| <= |s| && s[i..i + |p|] == p
  }

  /** `s.includes(p)`: some occurrence of `p` in `s` (the empty string occurs everywhere). */
  predicate Contains(s: string, p: string)
  {
    exists i :: 0 <= i <= |s| && OccursAt(s, p, i)
  }

  /** The first occurrence of `p` in `s` at or after `k`. */
  function IndexOfFrom(s: string, p: string, k: nat): (r: Option<nat>)
    requires k <= |s|
    ensures r.Some? ==> k <= r.value && OccursAt(s, p, r.value)
    ensures r.Some? ==> forall j: nat :: k <= j < r.value ==> !OccursAt(s, p, j)
    ensures r.None? ==> forall j: nat :: k <= j ==> !OccursAt(s, p, j)
    decreases |s| - k
  {
    if k + |p| > |s| then None
    else if s[k..k + |p|] == p then Some(k)
    else IndexOfFrom(s, p, k + 1)
  }

  /** `s.indexOf(p)`, with `None` for JavaScript's -1. */
  function IndexOf(s: string, p: string): (r: Option<nat>)
    ensures r.Some? ==> OccursAt(s, p, r.value) && forall j: nat :: j < r.value ==> !OccursAt(s, p, j)
    ensures r.None? <==> !Contains(s, p)
  {
    IndexOfFrom(s, p, 0)
  }

  /** `s.lastIndexOf(c)` for a single character: -1 when `c` does not occur. */
  function LastIndexOf(s: string, c: char): (r: int)
    ensures -1 <= r < |s|
    ensures r >= 0 ==> s[r] == c
    ensures forall j :: r < j < |s| ==> s[j] != c
  {
    if |s| == 0 then -1
    else if s[|s| - 1] == c then |s| - 1
    else LastIndexOf(s[..|s| - 1], c)
  }

  predicate EndsWith(s: string, suffix: string)
  {
    |suffix| <= |s| && s[|s| - |suffix|..] == suffix
  }

  /**
   * `s.replace(p, rep)` for a string pattern: only the first occurrence is
   * replaced, and `rep` is inserted literally (no `$` substitution patterns).
   */
  function ReplaceFirst(s: string, p: string, rep: string): (r: string)
    ensures !Contains(s, p) ==> r == s
    ensures Contains(s, p) ==> |r| == |s| - |p| + |rep|
  {
    match IndexOf(s, p)
    case None => s
    case Some(i) => s[..i] + rep + s[i + |p|..]
  }

  /** Replacing the first `p` by `inj + p` inserts `inj` just before that occurrence. */
  lemma SpliceBeforeMatch(s: string, p: string, inj: string)
    requires Contains(s, p)
    ensures IndexOf(s, p).Some?
    ensures ReplaceFirst(s, p, inj + p) == s[..IndexOf(s, p).value] + inj + s[IndexOf(s, p).value..]
  {
    var i := IndexOf(s, p).value;
    assert s[i..] == p + s[i + |p|..];
  }

  /** Replacing the first `p` by `p + inj` inserts `inj` just after that occurrence. */
  lemma SpliceAfterMatch(s: string, p: string, inj: string)
    requires Contains(s, p)
    ensures IndexOf(s, p).Some?
    ensures var j := IndexOf(s, p).value + |p|;
            j <= |s| && ReplaceFirst(s, p, p + inj) == s[..j] + inj + s[j..]
  {
    var i := IndexOf(s, p).value;
    var j := i + |p|;
    assert s[i..j] == p;
    assert ReplaceFirst(s, p, p + inj) == s[..i] + (p + inj) + s[j..];
    assert s[..j] == s[..i] + s[i..j];
  }

  function DigitChar(d: nat): (c: char)
    requires d < 10
    ensures '0' <= c <= '9' && c as int - '0' as int == d
  {
    (d + '0' as int) as char
  }

  predicate IsDigits(s: string)
  {
    forall i :: 0 <= i < |s| ==> '0' <= s[i] <= '9'
  }

  /** The decimal rendering of `n`, as JavaScript prints an integer-valued number. */
  function Decimal(n: nat): (s: string)
    ensures |s| >= 1 && IsDigits(s)
    ensures |s| == 1 || s[0] != '0'
  {
    if n < 10 then [DigitChar(n)] else Decimal(n / 10) + [DigitChar(n % 10)]
  }

  /** Reads a string of decimal digits back as a number. */
  function ParseDecimal(s: string): nat
    requires IsDigits(s)
  {
    if s == [] then 0 else 10 * ParseDecimal(s[..|s| - 1]) + (s[|s| - 1] as int - '0' as int)
  }

  /** The decimal rendering loses nothing: parsing it gives the number back. */
  lemma {:induction false} DecimalRoundTrip(n: nat)
    ensures ParseDecimal(Decimal(n)) == n
  {
    if n >= 10 {
      DecimalRoundTrip(n / 10);
      var s := Decimal(n);
      assert s[..|s| - 1] == Decimal(n / 10);
    }
  }
}
