/**
 * The parts of JavaScript's string semantics the intake bot relies on:
 * `trim`, `toLowerCase`, `endsWith`, `.length` and `<` (both on UTF-16 code
 * units), `String(n)` for integers, `padStart` and `slice(-n)`.
 */
module JsString {

  // ---------------------------------------------------------------- trim

  /** The code points `String.prototype.trim` removes: WhiteSpace and LineTerminator. */
  predicate IsTrimmable(c: char) {
    var n := c as int;
    n == 0x09 || n == 0x0A || n == 0x0B || n == 0x0C || n == 0x0D || n == 0x20 ||
    n == 0xA0 || n == 0x1680 || (0x2000 <= n <= 0x200A) || n == 0x2028 || n == 0x2029 ||
    n == 0x202F || n == 0x205F || n == 0x3000 || n == 0xFEFF
  }

  predicate AllTrimmable(s: string) {
    forall i :: 0 <= i < |s| ==> IsTrimmable(s[i])
  }

  /** The number of trimmable code points at the front of `s`. */
  function LeadingTrimmable(s: string): (n: nat)
    ensures n <= |s| && forall i :: 0 <= i < n ==> IsTrimmable(s[i])
    ensures n < |s| ==> !IsTrimmable(s[n])
  {
    if s != [] && IsTrimmable(s[0]) then 1 + LeadingTrimmable(s[1..]) else 0
  }

  /** The number of trimmable code points at the back of `s`. */
  function TrailingTrimmable(s: string): (n: nat)
    ensures n <= |s| && forall i :: |s| - n <= i < |s| ==> IsTrimmable(s[i])
    ensures n < |s| ==> !IsTrimmable(s[|s| - n - 1])
  {
    if s != [] && IsTrimmable(s[|s| - 1]) then 1 + TrailingTrimmable(s[..|s| - 1]) else 0
  }

  /**
   * `s.trim()`: the piece of `s` left once its leading and trailing white
   * space is removed; the piece neither starts nor ends with white space.
   */
  function Trim(s: string): (r: string)
    ensures var lead := LeadingTrimmable(s);
      lead + |r| <= |s| && (forall i :: 0 <= i < |r| ==> r[i] == s[lead + i]) &&
      (forall i :: 0 <= i < lead ==> IsTrimmable(s[i])) &&
      (forall i :: lead + |r| <= i < |s| ==> IsTrimmable(s[i]))
    ensures r != [] ==> !IsTrimmable(r[0]) && !IsTrimmable(r[|r| - 1])
  {
    var lead := LeadingTrimmable(s);
    var rest := s[lead..];
    var trail := TrailingTrimmable(rest);
    assert forall i :: lead <= i < |s| ==> s[i] == rest[i - lead];
    var r := rest[..|rest| - trail];
    assert r != [] ==> r[|r| - 1] == rest[|rest| - trail - 1];
    r
  }

  // ---------------------------------------------------------- toLowerCase

  predicate IsAsciiUpper(c: char) {
    'A' <= c <= 'Z'
  }

  const KELVIN_SIGN: char := '\U{212A}'
  const CAPITAL_I_WITH_DOT: char := '\U{0130}'
  const COMBINING_DOT_ABOVE: char := '\U{0307}'

  /**
   * The lower-case form of one code point: ASCII and Latin-1 capitals, the
   * Kelvin sign (which lower-cases to ASCII 'k') and the capital I with dot
   * (which lower-cases to two code points). Every other code point is kept.
   */
  function LowerChar(c: char): (r: string)
    ensures 1 <= |r| <= 2
    ensures forall i :: 0 <= i < |r| ==> !IsAsciiUpper(r[i])
    ensures |r| == 2 <==> c == CAPITAL_I_WITH_DOT
  {
    var n := c as int;
    if 'A' <= c <= 'Z' || (0xC0 <= n <= 0xDE && n != 0xD7) then [(n + 32) as char]
    else if c == CAPITAL_I_WITH_DOT then ['i', COMBINING_DOT_ABOVE]
    else if c == KELVIN_SIGN then ['k']
    else [c]
  }

  /** `s.toLowerCase()`. */
  function ToLowerCase(s: string): (r: string)
    ensures |s| <= |r|
    ensures forall i :: 0 <= i < |r| ==> !IsAsciiUpper(r[i])
  {
    if s == [] then [] else LowerChar(s[0]) + ToLowerCase(s[1..])
  }

  /**
   * Comparing a lower-cased string with a word that has no U+0307 in it
   * (every keyword the dialogue compares with) is a comparison code point
   * by code point: each code point of `t` must lower-case to the one of `w`
   * at the same position.
   */
  lemma {:induction false} ToLowerCaseEquals(t: string, w: string)
    requires forall i :: 0 <= i < |w| ==> w[i] != COMBINING_DOT_ABOVE
    ensures ToLowerCase(t) == w <==>
      |t| == |w| && forall i :: 0 <= i < |t| ==> LowerChar(t[i]) == [w[i]]
  {
    if t != [] && w != [] {
      ToLowerCaseEquals(t[1..], w[1..]);
      var head := LowerChar(t[0]);
      if |head| == 1 {
        if ToLowerCase(t) == w {
          assert ToLowerCase(t[1..]) == w[1..];
        }
        if |t| == |w| && forall i :: 0 <= i < |t| ==> LowerChar(t[i]) == [w[i]] {
          assert forall i :: 0 <= i < |t| - 1 ==> LowerChar(t[1..][i]) == [w[1..][i]] by {
            forall i | 0 <= i < |t| - 1 ensures LowerChar(t[1..][i]) == [w[1..][i]] {
              assert t[1..][i] == t[i + 1];
            }
          }
          assert w == [w[0]] + w[1..];
        }
      } else {
        assert LowerChar(t[0]) != [w[0]];
        assert ToLowerCase(t)[1] == COMBINING_DOT_ABOVE;
      }
    }
  }

  // ------------------------------------------------------------ endsWith

  /** `s.endsWith(suffix)`. */
  predicate EndsWith(s: string, suffix: string) {
    |suffix| <= |s| && s[|s| - |suffix|..] == suffix
  }

  // ------------------------------------------------ UTF-16 code units

  const FIRST_ASTRAL := 0x10000

  /** The UTF-16 code units of one code point (one unit, or a surrogate pair). */
  function Units(c: char): (u: seq<int>)
    ensures 1 <= |u| <= 2
    ensures |u| == 1 <==> c as int < FIRST_ASTRAL
    ensures c as int < FIRST_ASTRAL ==> u[0] == c as int
    ensures c as int >= FIRST_ASTRAL ==> 0xD800 <= u[0] < 0xDC00
  {
    var n := c as int;
    if n < FIRST_ASTRAL then [n]
    else [0xD800 + (n - FIRST_ASTRAL) / 0x400, 0xDC00 + (n - FIRST_ASTRAL) % 0x400]
  }

  /** The string as JavaScript stores it: a sequence of UTF-16 code units. */
  function CodeUnits(s: string): (u: seq<int>)
    ensures |s| <= |u| <= 2 * |s|
    ensures s != [] ==> u[0] == Units(s[0])[0]
  {
    if s == [] then [] else Units(s[0]) + CodeUnits(s[1..])
  }

  /** `s.length`: the number of UTF-16 code units. */
  function Length(s: string): nat {
    |CodeUnits(s)|
  }

  /** Lexicographic order on code units, the order of JavaScript's `<` on strings. */
  predicate UnitsLess(a: seq<int>, b: seq<int>) {
    if a == [] then b != []
    else if b == [] then false
    else if a[0] != b[0] then a[0] < b[0]
    else UnitsLess(a[1..], b[1..])
  }

  /** `a < b` on strings; `a >= b` is its negation and `a <= b` is `!(b < a)`. */
  predicate Less(a: string, b: string) {
    UnitsLess(CodeUnits(a), CodeUnits(b))
  }

  lemma {:induction false} BmpLength(s: string)
    requires forall i :: 0 <= i < |s| ==> s[i] as int < FIRST_ASTRAL
    ensures Length(s) == |s|
  {
    if s != [] {
      BmpLength(s[1..]);
    }
  }

  // ------------------------------------------------------------ numbers

  /** The decimal digits in order: the digit `d` is written `DIGITS[d]`. */
  const DIGITS := "0123456789"

  /** The character of the digit `d`: the `d`-th decimal digit, which reads back as `d`. */
  function DigitChar(d: nat): (c: char)
    requires d < 10
    ensures c == DIGITS[d] && IsDigit(c)
    ensures DigitsValue([c]) == d
    ensures c as int - '0' as int == d
  {
    ('0' as int + d) as char
  }

  predicate IsDigit(c: char) {
    '0' <= c <= '9'
  }

  predicate AllDigits(s: string) {
    forall i :: 0 <= i < |s| ==> IsDigit(s[i])
  }

  lemma AllDigitsAppend(a: string, b: string)
    requires AllDigits(a) && AllDigits(b)
    ensures AllDigits(a + b)
  {
    forall i | 0 <= i < |a + b| ensures IsDigit((a + b)[i]) {
      if i >= |a| {
        assert (a + b)[i] == b[i - |a|];
      }
    }
  }

  /** `String(n)` for a natural number: its decimal digits, without leading zeros. */
  function NatToString(n: nat): (s: string)
    ensures s != [] && AllDigits(s)
    ensures s[0] == '0' ==> n == 0
  {
    if n < 10 then [DigitChar(n)] else NatToString(n / 10) + [DigitChar(n % 10)]
  }

  /** `String(n)` for an integer: a minus sign in front of a negative number. */
  function IntToString(n: int): string {
    if n < 0 then "-" + NatToString(-n) else NatToString(n)
  }

  /** The value of a string read as decimal digits (meaningful when `AllDigits(s)`). */
  function DigitsValue(s: string): int {
    if s == [] then 0
    else 10 * DigitsValue(s[..|s| - 1]) + (s[|s| - 1] as int - '0' as int)
  }

  /** Reading the digits back gives the number: `String` is injective on naturals. */
  lemma {:induction false} DigitsValueOfNatToString(n: nat)
    ensures DigitsValue(NatToString(n)) == n
  {
    var s := NatToString(n);
    if n >= 10 {
      DigitsValueOfNatToString(n / 10);
      assert s[..|s| - 1] == NatToString(n / 10);
    }
  }

  function Pow10(k: nat): (p: nat)
    ensures p >= 1
  {
    if k == 0 then 1 else 10 * Pow10(k - 1)
  }

  /** A number has exactly `k` digits when it lies in [10^(k-1), 10^k). */
  lemma {:induction false} NatToStringLength(n: nat, k: nat)
    requires 1 <= k
    requires (k == 1 || Pow10(k - 1) <= n) && n < Pow10(k)
    ensures |NatToString(n)| == k
  {
    if k > 1 {
      assert n >= 10 by { Pow10Grows(1, k - 1); }
      NatToStringLength(n / 10, k - 1);
    }
  }

  lemma {:induction false} Pow10Grows(i: nat, j: nat)
    requires i <= j
    ensures Pow10(i) <= Pow10(j)
  {
    if i < j {
      Pow10Grows(i, j - 1);
    }
  }

  /** A number of at least 10^k has more than `k` digits. */
  lemma {:induction false} NatToStringLongEnough(n: nat, k: nat)
    requires Pow10(k) <= n
    ensures |NatToString(n)| > k
  {
    if k > 0 {
      NatToStringLongEnough(n / 10, k - 1);
    }
  }

  // ---------------------------------------------------- padStart, slice

  /** `s.padStart(width, fill)` for a one-character fill string. */
  function PadStart(s: string, width: nat, fill: char): (r: string)
    ensures |r| == if |s| >= width then |s| else width
    ensures forall i :: 0 <= i < |s| ==> r[|r| - |s| + i] == s[i]
    ensures forall i :: 0 <= i < |r| - |s| ==> r[i] == fill
  {
    if |s| >= width then s else seq(width - |s|, _ => fill) + s
  }

  /**
   * `s.slice(-n)`: a suffix of `s`, `n` characters long, or all of `s` when
   * it is shorter or when `n` is 0 (`-0` is the start index 0).
   */
  function SliceLast(s: string, n: nat): (r: string)
    ensures |r| <= |s| && r == s[|s| - |r|..]
    ensures |r| == if n == 0 || |s| < n then |s| else n
  {
    if n == 0 || |s| < n then s else s[|s| - n..]
  }
}
