/** Python built-in behaviour the game relies on, stated once: optional values,
    int() of a quotient in tenths, the slice `s[start:]`, `str(n)` for integers,
    `"c" * n` and `sep.join(parts)`. */
module Builtins {

  datatype Option<T> = None | Some(value: T)

  function Min(a: int, b: int): int { if a <= b then a else b }

  function Max(a: int, b: int): int { if a >= b then a else b }

  /** A non-negative rational `num / den`, used where the source computes a float
      ratio (hp / max_hp, a progress percentage). */
  datatype Ratio = Ratio(num: int, den: int)

  /** Python's `int(n / 10)`: the quotient truncated toward zero. Scores kept in
      tenths (talent multipliers such as 0.8 become 8) go through it. */
  function TruncTenths(n: int): (q: int)
    ensures n >= 0 ==> 0 <= 10 * q <= n < 10 * q + 10
    ensures n < 0 ==> 10 * q - 10 < n <= 10 * q <= 0
  {
    if n >= 0 then n / 10 else -((-n) / 10)
  }

  /** Python's `int(n / 100)`: the quotient truncated toward zero. A product of
      two quantities kept in tenths goes through it. */
  function TruncHundredths(n: int): (q: int)
    ensures n >= 0 ==> 0 <= 100 * q <= n < 100 * q + 100
    ensures n < 0 ==> 100 * q - 100 < n <= 100 * q <= 0
  {
    if n >= 0 then n / 100 else -((-n) / 100)
  }

  /** Where Python's `s[start:]` begins, after negative indices are counted from
      the end and both kinds are clamped into the sequence. */
  function SliceStart(length: nat, start: int): (k: nat)
    ensures k <= length
  {
    if start < 0 then Max(0, length + start) else Min(start, length)
  }

  /** Python's `s[start:]`. */
  function SliceFrom<T>(s: seq<T>, start: int): (r: seq<T>)
    ensures |r| <= |s|
    ensures r == s[|s| - |r|..]
    ensures start > 0 ==> |r| == Max(0, |s| - start)
    ensures start < 0 ==> |r| == Min(-start, |s|)
    ensures start == 0 ==> r == s
  {
    s[SliceStart(|s|, start)..]
  }

  /** Python's `c * n` for a one-character string: empty when n <= 0. */
  function Repeat(c: char, n: int): (r: string)
    ensures |r| == Max(0, n)
    ensures forall i :: 0 <= i < |r| ==> r[i] == c
  {
    if n <= 0 then "" else [c] + Repeat(c, n - 1)
  }

  function DigitChar(d: nat): (c: char)
    requires d < 10
    ensures '0' <= c <= '9'
  {
    "0123456789"[d]
  }

  /** `str(n)` for a natural number: its decimal digits, most significant first. */
  function NatToString(n: nat): (s: string)
    ensures |s| > 0
    ensures forall i :: 0 <= i < |s| ==> '0' <= s[i] <= '9'
    decreases n
  {
    if n < 10 then [DigitChar(n)] else NatToString(n / 10) + [DigitChar(n % 10)]
  }

  /** `str(n)` for any integer. */
  function IntToString(n: int): (s: string)
    ensures |s| > 0
    ensures (s[0] == '-') <==> n < 0
  {
    if n < 0 then "-" + NatToString(-n) else NatToString(n)
  }

  /** `sep.join(parts)`. */
  function Join(sep: string, parts: seq<string>): (r: string)
    ensures |parts| == 1 ==> r == parts[0]
  {
    if parts == [] then "" else JoinFrom(sep, parts, 0)
  }

  /** `sep.join(parts[i:])` for a non-empty tail. */
  function JoinFrom(sep: string, parts: seq<string>, i: nat): (r: string)
    requires i < |parts|
    ensures i == |parts| - 1 ==> r == parts[i]
    decreases |parts| - i
  {
    if i == |parts| - 1 then parts[i] else parts[i] + sep + JoinFrom(sep, parts, i + 1)
  }
}
