/** The parts of JavaScript's value semantics that the application code relies on:
    values that may be null, the truthiness of strings, String.prototype.trim,
    the UTF-16 `length` of a string, Number-to-string conversion of integers,
    parseInt and String.prototype.repeat. */
module Js {

  /** A value that may be null or undefined. */
  datatype Option<+T> = None | Some(value: T)

  /** A string is truthy exactly when it is not empty. */
  predicate Truthy(s: string) {
    s != ""
  }

  /** A possibly missing string is truthy when it is present and not empty
      (`if (token)`, `!rating`). */
  predicate Present(o: Option<string>) {
    o.Some? && Truthy(o.value)
  }

  /** `a || b` where `a` is a possibly missing string. */
  function Or(a: Option<string>, b: string): (r: string)
    ensures Present(a) ==> r == a.value
    ensures !Present(a) ==> r == b
  {
    if Present(a) then a.value else b
  }

  /** The code points that ECMA-262 calls WhiteSpace or LineTerminator: what
      `trim` removes and what `parseInt` skips. */
  predicate IsSpace(c: char) {
    var n := c as int;
    n == 0x09 || n == 0x0A || n == 0x0B || n == 0x0C || n == 0x0D || n == 0x20 ||
    n == 0xA0 || n == 0x1680 || (0x2000 <= n <= 0x200A) || n == 0x2028 ||
    n == 0x2029 || n == 0x202F || n == 0x205F || n == 0x3000 || n == 0xFEFF
  }

  /** No white space lies strictly between the space character and the
      no-break space: in particular no digit, sign or ASCII letter. */
  lemma PrintableAsciiIsNotSpace(c: char)
    requires ' ' < c < '\U{A0}'
    ensures !IsSpace(c)
  {
  }

  /** Every character of `s` satisfies `sp`. */
  predicate All(s: string, sp: char -> bool) {
    forall k :: 0 <= k < |s| ==> sp(s[k])
  }

  // Trimming is stated for any notion of white space `sp`; the string methods
  // below instantiate it with IsSpace.

  /** How many characters satisfying `sp` the string starts with. */
  function LeadingBy(s: string, sp: char -> bool): (n: nat)
    ensures n <= |s|
    ensures forall k :: 0 <= k < n ==> sp(s[k])
    ensures n < |s| ==> !sp(s[n])
  {
    if s != [] && sp(s[0]) then 1 + LeadingBy(s[1..], sp) else 0
  }

  /** How many characters satisfying `sp` the string ends with, counting on
      from `n` and never reaching below index `lo`. */
  function TrailingAbove(s: string, lo: nat, n: nat, sp: char -> bool): (m: nat)
    requires lo + n <= |s|
    requires forall k :: |s| - n <= k < |s| ==> sp(s[k])
    ensures n <= m && lo + m <= |s|
    ensures forall k :: |s| - m <= k < |s| ==> sp(s[k])
    ensures lo + m < |s| ==> !sp(s[|s| - 1 - m])
    decreases |s| - lo - n
  {
    if lo + n < |s| && sp(s[|s| - 1 - n]) then TrailingAbove(s, lo, n + 1, sp) else n
  }

  /** The suffix left after dropping the leading characters that satisfy `sp`. */
  function TrimStartBy(s: string, sp: char -> bool): string {
    s[LeadingBy(s, sp)..]
  }

  /** Both ends trimmed: the slice of `s` that starts and ends with a character
      outside `sp`, everything cut off on either side satisfying `sp`. */
  function TrimBy(s: string, sp: char -> bool): (r: string)
    ensures var i := LeadingBy(s, sp);
            i + |r| <= |s| && r == s[i..i + |r|] && All(s[i + |r|..], sp)
    ensures r == [] || (!sp(r[0]) && !sp(r[|r| - 1]))
  {
    var i := LeadingBy(s, sp);
    var m := TrailingAbove(s, i, 0, sp);
    s[i..|s| - m]
  }

  /** Trimming leaves nothing exactly when every character is trimmable. */
  lemma TrimByEmptyIffAll(s: string, sp: char -> bool)
    ensures TrimBy(s, sp) == "" <==> All(s, sp)
  {
    var i := LeadingBy(s, sp);
  }

  /** Trimming twice is trimming once. */
  lemma TrimByIdempotent(s: string, sp: char -> bool)
    ensures TrimBy(TrimBy(s, sp), sp) == TrimBy(s, sp)
  {
    var r := TrimBy(s, sp);
    TrimmedIsFixed(r, sp);
  }

  /** A string that neither starts nor ends with a trimmable character is its
      own trim. */
  lemma TrimmedIsFixed(s: string, sp: char -> bool)
    requires s == [] || (!sp(s[0]) && !sp(s[|s| - 1]))
    ensures TrimBy(s, sp) == s
  {
    assert LeadingBy(s, sp) == 0;
  }

  /** String.prototype.trimStart. */
  function TrimStart(s: string): string {
    TrimStartBy(s, IsSpace)
  }

  /** String.prototype.trim. */
  function Trim(s: string): string {
    TrimBy(s, IsSpace)
  }

  /** A string is blank when trimming leaves nothing (`!s.trim()`). */
  predicate Blank(s: string) {
    Trim(s) == ""
  }

  /** The value of `s.length`: the number of UTF-16 code units, so a code
      point outside the Basic Multilingual Plane counts twice. */
  function Utf16Length(s: string): (n: nat)
    ensures |s| <= n <= 2 * |s|
    ensures (forall k :: 0 <= k < |s| ==> s[k] as int <= 0xFFFF) ==> n == |s|
  {
    if s == [] then 0 else (if s[0] as int > 0xFFFF then 2 else 1) + Utf16Length(s[1..])
  }

  // ---------------------------------------------------------------------------
  // Integers as decimal text

  predicate IsDigit(c: char) {
    '0' <= c <= '9'
  }

  /** A non-empty run of decimal digits. */
  predicate IsDigits(s: string) {
    |s| > 0 && forall k :: 0 <= k < |s| ==> IsDigit(s[k])
  }

  function DigitChar(d: nat): (c: char)
    requires d < 10
    ensures IsDigit(c) && c as int - '0' as int == d
  {
    ('0' as int + d) as char
  }

  /** The value of a character as a digit in any radix up to 36, or 36 when
      it is no digit at all. */
  function DigitValue(c: char): (v: nat)
    ensures v <= 36
    ensures IsDigit(c) <==> v < 10
    ensures IsDigit(c) ==> v == c as int - '0' as int
  {
    if '0' <= c <= '9' then c as int - '0' as int
    else if 'a' <= c <= 'z' then c as int - 'a' as int + 10
    else if 'A' <= c <= 'Z' then c as int - 'A' as int + 10
    else 36
  }

  /** The number that a run of radix digits denotes, most significant first. */
  function RadixValue(s: string, radix: nat): nat {
    if s == [] then 0
    else RadixValue(s[..|s| - 1], radix) * radix + DigitValue(s[|s| - 1])
  }

  /** Number.prototype.toString of a non-negative integer: its shortest decimal numeral. */
  function NatToString(n: nat): (s: string)
    ensures IsDigits(s)
    ensures |s| > 1 ==> s[0] != '0'
  {
    if n < 10 then [DigitChar(n)] else NatToString(n / 10) + [DigitChar(n % 10)]
  }

  /** Number.prototype.toString of any integer. */
  function IntToString(i: int): string {
    if i < 0 then "-" + NatToString(-i) else NatToString(i)
  }

  /** Reading back the numeral that NatToString writes gives the number. */
  lemma {:induction false} DecimalRoundTrip(n: nat)
    ensures RadixValue(NatToString(n), 10) == n
  {
    var s := NatToString(n);
    if n >= 10 {
      DecimalRoundTrip(n / 10);
      assert s[..|s| - 1] == NatToString(n / 10);
    }
  }

  // ---------------------------------------------------------------------------
  // parseInt and repeat

  /** What parseInt returns: NaN, or an integer (a negative zero is read as zero). */
  datatype Number = NaN | Num(value: int)

  /** The longest prefix of `s` made of digits of the given radix. */
  function DigitPrefix(s: string, radix: nat): (p: string)
    ensures |p| <= |s| && p == s[..|p|]
    ensures forall k :: 0 <= k < |p| ==> DigitValue(p[k]) < radix
    ensures |p| < |s| ==> DigitValue(s[|p|]) >= radix
  {
    if s != [] && DigitValue(s[0]) < radix then [s[0]] + DigitPrefix(s[1..], radix) else []
  }

  /** The text after one optional leading sign. */
  function AfterSign(t: string): string {
    if t != [] && (t[0] == '-' || t[0] == '+') then t[1..] else t
  }

  /** A "0x" or "0X" prefix, which makes parseInt read hexadecimal. */
  predicate HexPrefix(u: string) {
    |u| >= 2 && u[0] == '0' && (u[1] == 'x' || u[1] == 'X')
  }

  /** The number parseInt reads after the sign: hexadecimal digits after a
      hexadecimal prefix, decimal digits otherwise, as many as there are;
      nothing when there are none. */
  function Magnitude(u: string): Option<nat> {
    var radix := if HexPrefix(u) then 16 else 10;
    var digits := DigitPrefix(if HexPrefix(u) then u[2..] else u, radix);
    if digits == [] then None else Some(RadixValue(digits, radix))
  }

  /** parseInt(s) with no radix argument: skip leading white space, take an
      optional sign, then read the magnitude; NaN when there is none. A
      number comes out only when a decimal digit follows the sign, and always
      when one does that does not open a hexadecimal prefix; it is negative
      only after a minus sign. */
  function ParseInt(s: string): (r: Number)
    ensures var u := AfterSign(TrimStart(s));
            r.Num? ==> u != [] && IsDigit(u[0])
    ensures var u := AfterSign(TrimStart(s));
            u != [] && IsDigit(u[0]) && !HexPrefix(u) ==> r.Num?
    ensures r.Num? && r.value < 0 ==> TrimStart(s) != [] && TrimStart(s)[0] == '-'
  {
    var t := TrimStart(s);
    var negative := t != [] && t[0] == '-';
    match Magnitude(AfterSign(t))
    case None => NaN
    case Some(m) => Num(if negative then -(m as int) else m)
  }

  /** A run of decimal digits is read whole, in decimal. */
  lemma MagnitudeOfDigits(u: string)
    requires IsDigits(u)
    ensures Magnitude(u) == Some(RadixValue(u, 10))
  {
    assert |u| >= 2 ==> u[1] != 'x' && u[1] != 'X';
    DigitsArePrefix(u);
  }

  /** A string that does not start with white space is not trimmed. */
  lemma NoLeadingSpace(s: string)
    requires s != [] && !IsSpace(s[0])
    ensures TrimStart(s) == s
  {
    assert LeadingBy(s, IsSpace) == 0;
  }

  /** A run of decimal digits parses to the number it denotes. */
  lemma ParseIntOfDigits(s: string)
    requires IsDigits(s)
    ensures ParseInt(s) == Num(RadixValue(s, 10))
  {
    PrintableAsciiIsNotSpace(s[0]);
    NoLeadingSpace(s);
    MagnitudeOfDigits(s);
  }

  /** A minus sign followed by a run of decimal digits parses to the negated
      number. */
  lemma ParseIntOfNegativeDigits(s: string)
    requires IsDigits(s)
    ensures ParseInt("-" + s) == Num(-(RadixValue(s, 10) as int))
  {
    var t := "-" + s;
    PrintableAsciiIsNotSpace('-');
    NoLeadingSpace(t);
    assert t[1..] == s;
    MagnitudeOfDigits(s);
  }

  lemma {:induction false} DigitsArePrefix(s: string)
    requires forall k :: 0 <= k < |s| ==> IsDigit(s[k])
    ensures DigitPrefix(s, 10) == s
  {
    if s != [] {
      DigitsArePrefix(s[1..]);
    }
  }

  /** String.prototype.repeat with a count it accepts. */
  function Repeat(s: string, n: nat): string {
    if n == 0 then "" else s + Repeat(s, n - 1)
  }

  lemma {:induction false} RepeatLength(s: string, n: nat)
    ensures |Repeat(s, n)| == n * |s|
  {
    if n > 0 {
      RepeatLength(s, n - 1);
    }
  }
}
