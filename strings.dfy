/**
 * The handful of .NET string and path operations the view-models rely on:
 * blank tests, invariant lower-casing, substring and suffix tests, path
 * extension and file name, decimal formatting of integers, and the order
 * used to sort column headers and directory entries.
 */
module Strings {
  import opened Wrappers

  /** `char.IsWhiteSpace`: the Unicode separators and the whitespace control characters. */
  predicate IsWhiteSpace(c: char) {
    ('\U{0009}' <= c <= '\U{000D}') || c == ' ' || c == '\U{0085}' || c == '\U{00A0}'
    || c == '\U{1680}' || ('\U{2000}' <= c <= '\U{200A}') || c == '\U{2028}' || c == '\U{2029}'
    || c == '\U{202F}' || c == '\U{205F}' || c == '\U{3000}'
  }

  /** `string.IsNullOrWhiteSpace` */
  predicate IsNullOrWhiteSpace(s: Option<string>) {
    s.None? || forall i :: 0 <= i < |s.value| ==> IsWhiteSpace(s.value[i])
  }

  /** `string.IsNullOrEmpty` */
  predicate IsNullOrEmpty(s: Option<string>) {
    s.None? || s.value == ""
  }

  // ---------------------------------------------------------------------------
  // Lower-casing, substring and suffix tests

  function LowerChar(c: char): char {
    if 'A' <= c <= 'Z' then (c as int + 32) as char else c
  }

  /** `ToLowerInvariant`, restricted to the ASCII letters. */
  function Lower(s: string): (r: string)
    ensures |r| == |s|
    ensures forall i :: 0 <= i < |s| ==> r[i] == LowerChar(s[i])
  {
    seq(|s|, i requires 0 <= i < |s| => LowerChar(s[i]))
  }

  lemma LowerIdempotent(s: string)
    ensures Lower(Lower(s)) == Lower(s)
  {
  }

  lemma LowerSlice(s: string, k: nat)
    requires k <= |s|
    ensures Lower(s)[k..] == Lower(s[k..])
  {
  }

  /** `sub` occurs in `s` starting at position `i`. */
  predicate OccursAt(s: string, sub: string, i: int) {
    0 <= i <= |s| - |sub| && s[i..i + |sub|] == sub
  }

  /** Ordinal `Contains`: `sub` occurs somewhere in `s`. */
  predicate Contains(s: string, sub: string) {
    exists i :: 0 <= i <= |s| && OccursAt(s, sub, i)
  }

  /** `EndsWith`, compared character by character. */
  predicate EndsWith(s: string, suffix: string) {
    |suffix| <= |s| && s[|s| - |suffix|..] == suffix
  }

  // ---------------------------------------------------------------------------
  // Paths

  /** A directory separator on Windows. */
  predicate IsSeparator(c: char) {
    c == '\\' || c == '/'
  }

  /** No character of `s` is a period or a directory separator. */
  predicate PlainSegment(s: string) {
    forall j :: 0 <= j < |s| ==> s[j] != '.' && !IsSeparator(s[j])
  }

  /**
   * `Path.GetExtension`, scanning backwards from position `i`: the period that
   * starts the extension must come after the last separator, and a period in
   * the last position yields no extension.
   */
  function ExtensionScan(path: string, i: nat): (ext: string)
    requires i <= |path|
    requires PlainSegment(path[i..])
    ensures ext == "" || (|ext| >= 2 && ext[0] == '.' && EndsWith(path, ext) && PlainSegment(ext[1..]))
    decreases i
  {
    if i == 0 then ""
    else if path[i - 1] == '.' then (if i == |path| then "" else path[i - 1..])
    else if IsSeparator(path[i - 1]) then ""
    else (assert path[i - 1..] == [path[i - 1]] + path[i..]; ExtensionScan(path, i - 1))
  }

  /** `Path.GetExtension`: the final `.xyz` of the last path segment, or "" when it has none. */
  function Extension(path: string): (ext: string)
    ensures ext == "" || (|ext| >= 2 && ext[0] == '.' && EndsWith(path, ext) && PlainSegment(ext[1..]))
  {
    ExtensionScan(path, |path|)
  }

  lemma {:induction false} ExtensionScanFinds(path: string, i: nat, k: nat)
    requires k < i <= |path| && k < |path| - 1
    requires path[k] == '.' && PlainSegment(path[k + 1..])
    ensures PlainSegment(path[i..]) && ExtensionScan(path, i) == path[k..]
    decreases i
  {
    assert forall j :: i <= j < |path| ==> path[j] == path[k + 1..][j - (k + 1)];
    if i - 1 != k {
      assert path[i - 1] == path[k + 1..][i - 1 - (k + 1)];
      ExtensionScanFinds(path, i - 1, k);
    }
  }

  /** The converse of `Extension`'s contract: a path that ends in `.w`, `w` a non-empty plain segment, has extension `.w`. */
  lemma ExtensionOfSuffix(path: string, w: string)
    requires w != "" && PlainSegment(w) && EndsWith(path, "." + w)
    ensures Extension(path) == "." + w
  {
    var k := |path| - |w| - 1;
    assert path[k..] == "." + w;
    assert path[k] == '.' && path[k + 1..] == w;
    ExtensionScanFinds(path, |path|, k);
  }

  /** Lower-casing keeps a plain segment plain. */
  lemma LowerPlainSegment(s: string)
    requires PlainSegment(s)
    ensures PlainSegment(Lower(s))
  {
  }

  lemma {:induction false} ExtensionScanLower(path: string, i: nat)
    requires i <= |path| && PlainSegment(path[i..])
    ensures PlainSegment(Lower(path)[i..])
    ensures ExtensionScan(Lower(path), i) == Lower(ExtensionScan(path, i))
    decreases i
  {
    LowerSlice(path, i);
    LowerPlainSegment(path[i..]);
    if i > 0 {
      var c := path[i - 1];
      assert Lower(path)[i - 1] == LowerChar(c);
      if c == '.' {
        if i != |path| {
          LowerSlice(path, i - 1);
        }
      } else if !IsSeparator(c) {
        assert path[i - 1..] == [c] + path[i..];
        ExtensionScanLower(path, i - 1);
      }
    }
  }

  /** Lower-casing a path lower-cases its extension and nothing more. */
  lemma ExtensionLower(path: string)
    ensures Extension(Lower(path)) == Lower(Extension(path))
  {
    ExtensionScanLower(path, |path|);
  }

  /** `Path.GetFileName`, scanning backwards from position `i`. */
  function FileNameScan(path: string, i: nat): (name: string)
    requires i <= |path|
    requires forall j :: i <= j < |path| ==> !IsSeparator(path[j])
    ensures EndsWith(path, name)
    ensures forall j :: 0 <= j < |name| ==> !IsSeparator(name[j])
    ensures |name| == |path| || IsSeparator(path[|path| - |name| - 1])
    decreases i
  {
    if i == 0 then path
    else if IsSeparator(path[i - 1]) then path[i..]
    else FileNameScan(path, i - 1)
  }

  /** `Path.GetFileName`: the part of the path after its last separator. */
  function FileName(path: string): (name: string)
    ensures EndsWith(path, name)
    ensures forall j :: 0 <= j < |name| ==> !IsSeparator(name[j])
    ensures |name| == |path| || IsSeparator(path[|path| - |name| - 1])
  {
    FileNameScan(path, |path|)
  }

  // ---------------------------------------------------------------------------
  // Decimal formatting

  function DigitChar(d: nat): (c: char)
    requires d < 10
    ensures '0' <= c <= '9'
  {
    "0123456789"[d]
  }

  predicate AllDigits(s: string) {
    forall i :: 0 <= i < |s| ==> '0' <= s[i] <= '9'
  }

  /** `ToString()` of a non-negative integer: its decimal digits, without leading zeros. */
  function NatToString(n: nat): (s: string)
    ensures |s| >= 1 && AllDigits(s)
    ensures |s| > 1 ==> s[0] != '0'
    ensures n < 10 <==> |s| == 1
    decreases n
  {
    if n < 10 then [DigitChar(n)] else NatToString(n / 10) + [DigitChar(n % 10)]
  }

  /** `ToString()` of an integer, with a leading minus sign when negative. */
  function IntToString(n: int): string {
    if n < 0 then "-" + NatToString(-n) else NatToString(n)
  }

  /** Reads a string of decimal digits back as a number: the inverse of `NatToString`. */
  function ParseDigits(s: string): nat
    requires AllDigits(s)
  {
    if s == [] then 0 else ParseDigits(s[..|s| - 1]) * 10 + (s[|s| - 1] as int - '0' as int)
  }

  lemma {:induction false} ParseNatToString(n: nat)
    ensures ParseDigits(NatToString(n)) == n
    decreases n
  {
    var s := NatToString(n);
    if n >= 10 {
      assert s[..|s| - 1] == NatToString(n / 10);
      ParseNatToString(n / 10);
    }
  }

  /** Distinct numbers print differently. */
  lemma NatToStringInjective(a: nat, b: nat)
    requires NatToString(a) == NatToString(b)
    ensures a == b
  {
    ParseNatToString(a);
    ParseNatToString(b);
  }

  // ---------------------------------------------------------------------------
  // Order

  /**
   * Ordinal order on strings: lexicographic by character code. It stands in
   * for the culture-aware comparison that `OrderBy(k => k)` uses.
   */
  predicate Le(a: string, b: string)
    decreases |a|
  {
    a == [] || (b != [] && (a[0] < b[0] || (a[0] == b[0] && Le(a[1..], b[1..]))))
  }

  lemma {:induction false} LeReflexive(a: string)
    ensures Le(a, a)
    decreases |a|
  {
    if a != [] {
      LeReflexive(a[1..]);
    }
  }

  lemma {:induction false} LeTotal(a: string, b: string)
    ensures Le(a, b) || Le(b, a)
    decreases |a|
  {
    if a != [] && b != [] && a[0] == b[0] {
      LeTotal(a[1..], b[1..]);
    }
  }

  lemma {:induction false} LeTransitive(a: string, b: string, c: string)
    requires Le(a, b) && Le(b, c)
    ensures Le(a, c)
    decreases |a|
  {
    if a != [] && b != [] && c != [] && a[0] == b[0] && b[0] == c[0] {
      LeTransitive(a[1..], b[1..], c[1..]);
    }
  }

  lemma {:induction false} LeAntisymmetric(a: string, b: string)
    requires Le(a, b) && Le(b, a)
    ensures a == b
    decreases |a|
  {
    if a != [] && b != [] {
      LeAntisymmetric(a[1..], b[1..]);
      assert a == [a[0]] + a[1..] && b == [b[0]] + b[1..];
    }
  }
}
