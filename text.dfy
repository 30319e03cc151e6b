/**
 * Character-level helpers that stand for the Rust standard-library string
 * operations the formatter relies on (`str::lines`, `trim`, `trim_end`,
 * `to_lowercase`, `usize::from_str`, `" ".repeat(n)`). Text is ASCII: one
 * character is one byte, so a string's `len()` is its length here.
 */
module Text {
  import opened Wrappers

  /** The largest `usize` on a 64-bit target. */
  const USIZE_MAX: int := 0xFFFF_FFFF_FFFF_FFFF

  type usize = x: int | 0 <= x <= USIZE_MAX

  /** `usize::saturating_add`. */
  function SaturatingAdd(a: usize, b: usize): (r: usize)
    ensures a + b <= USIZE_MAX ==> r == a + b
    ensures a + b > USIZE_MAX ==> r == USIZE_MAX
    ensures a <= r && b <= r
  {
    if a + b <= USIZE_MAX then a + b else USIZE_MAX
  }

  /** ASCII whitespace as `char::is_whitespace` sees it. */
  predicate IsWhitespace(c: char) {
    c == ' ' || c == '\t' || c == '\n' || c == '\r' || c == '\U{000B}' || c == '\U{000C}'
  }

  predicate AllWhitespace(s: string) {
    forall i :: 0 <= i < |s| ==> IsWhitespace(s[i])
  }

  /** `str::trim_end`: drop the longest whitespace suffix. */
  function TrimEnd(s: string): (r: string)
    ensures r <= s
    ensures AllWhitespace(s[|r|..])
    ensures r == [] || !IsWhitespace(r[|r| - 1])
  {
    if s == [] || !IsWhitespace(s[|s| - 1]) then s
    else
      var r := TrimEnd(s[..|s| - 1]);
      assert s[..|s| - 1][|r|..] + [s[|s| - 1]] == s[|r|..];
      r
  }

  /** `str::trim_start`: drop the longest whitespace prefix. */
  function TrimStart(s: string): (r: string)
    ensures |r| <= |s| && r == s[|s| - |r|..]
    ensures AllWhitespace(s[..|s| - |r|])
    ensures r == [] || !IsWhitespace(r[0])
  {
    if s == [] || !IsWhitespace(s[0]) then s
    else
      var r := TrimStart(s[1..]);
      assert [s[0]] + s[1..][..|s| - 1 - |r|] == s[..|s| - |r|];
      r
  }

  /** `str::trim`. */
  function Trim(s: string): (r: string)
    ensures r == [] || (!IsWhitespace(r[0]) && !IsWhitespace(r[|r| - 1]))
  {
    TrimStart(TrimEnd(s))
  }

  function IndexOf(s: string, c: char): (r: Option<nat>)
    ensures r.None? <==> c !in s
    ensures r.Some? ==> r.value < |s| && s[r.value] == c && c !in s[..r.value]
  {
    if s == [] then None
    else if s[0] == c then Some(0)
    else
      match IndexOf(s[1..], c)
      case None => None
      case Some(i) =>
        assert s[..i + 1] == [s[0]] + s[1..][..i];
        Some(i + 1)
  }

  /** Removes one `'\r'` that ends a line terminated by `'\n'`. */
  function StripCarriageReturn(line: string): string {
    if line != [] && line[|line| - 1] == '\r' then line[..|line| - 1] else line
  }

  /**
   * `str::lines`: pieces separated by `'\n'`, each stripped of a final
   * `'\r'`; a final empty piece is not a line, so `""` has no lines.
   */
  function Lines(s: string): (r: seq<string>)
    ensures s == [] <==> r == []
    ensures s != [] && '\n' !in s ==> r == [s]
    decreases |s|
  {
    if s == [] then []
    else
      match IndexOf(s, '\n')
      case None => [s]
      case Some(i) => [StripCarriageReturn(s[..i])] + Lines(s[i + 1..])
  }

  /** Length of the first line, `lines().next().unwrap_or("").len()`. */
  function FirstLineLength(s: string): nat {
    var ls := Lines(s);
    if ls == [] then 0 else |ls[0]|
  }

  /** Length of the last line, `lines().next_back().unwrap_or("").len()`. */
  function LastLineLength(s: string): nat {
    var ls := Lines(s);
    if ls == [] then 0 else |ls[|ls| - 1]|
  }

  function Count(s: string, c: char): (n: nat)
    ensures n <= |s|
    ensures n == 0 <==> c !in s
  {
    if s == [] then 0 else (if s[0] == c then 1 else 0) + Count(s[1..], c)
  }

  /** `c` repeated `n` times (`" ".repeat(n)`, `"\t".repeat(n)`). */
  function Repeat(c: char, n: nat): (r: string)
    ensures |r| == n
    ensures forall i :: 0 <= i < n ==> r[i] == c
  {
    if n == 0 then [] else [c] + Repeat(c, n - 1)
  }

  function LowerChar(c: char): char {
    if 'A' <= c <= 'Z' then (c as int + 32) as char else c
  }

  /** `str::to_lowercase` on ASCII text. */
  function ToLower(s: string): (r: string)
    ensures |r| == |s|
    ensures forall i :: 0 <= i < |s| ==> r[i] == LowerChar(s[i])
  {
    if s == [] then [] else [LowerChar(s[0])] + ToLower(s[1..])
  }

  predicate IsDigit(c: char) { '0' <= c <= '9' }

  predicate IsUpper(c: char) { 'A' <= c <= 'Z' }

  predicate AllDigits(s: string) { forall i :: 0 <= i < |s| ==> IsDigit(s[i]) }

  function DigitsValue(s: string): nat
    requires AllDigits(s)
  {
    if s == [] then 0
    else
      assert IsDigit(s[|s| - 1]);
      DigitsValue(s[..|s| - 1]) * 10 + (s[|s| - 1] as int - '0' as int)
  }

  /**
   * `usize::from_str`: an optional `+`, then one or more decimal digits,
   * whose value must fit a `usize`.
   */
  function ParseUsize(s: string): (r: Option<usize>)
    ensures r.Some? ==> s != [] && (s[0] == '+' || IsDigit(s[0]))
    ensures s != [] && s[0] != '+' && AllDigits(s) && DigitsValue(s) <= USIZE_MAX ==> r == Some(DigitsValue(s))
    ensures s != [] && s[0] != '+' && !AllDigits(s) ==> r == None
  {
    var digits := if s != [] && s[0] == '+' then s[1..] else s;
    if digits != [] && AllDigits(digits) && DigitsValue(digits) <= USIZE_MAX
    then Some(DigitsValue(digits))
    else None
  }

  /** Lines of a text with no line break are the text itself. */
  lemma {:induction false} LinesOfConcatenation(a: string, b: string)
    requires '\n' !in a && a != [] && a[|a| - 1] != '\r'
    ensures Lines(a + "\n" + b) == [a] + Lines(b)
  {
    var s := a + "\n" + b;
    assert s[|a|] == '\n';
    assert s[..|a|] == a;
    match IndexOf(s, '\n')
    case None =>
    case Some(i) =>
      assert '\n' !in s[..|a|];
      assert i == |a|;
      assert s[i + 1..] == b;
  }

  /** Sequence concatenation associates; stated once for the loops that build output piecewise. */
  lemma {:induction false} AppendAssoc<T>(a: seq<T>, b: seq<T>, c: seq<T>)
    ensures a + (b + c) == (a + b) + c
  {
  }
}
