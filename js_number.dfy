/**
 * The integer-valued part of JavaScript's `parseInt(string)` (radix omitted):
 * leading white space is skipped, an optional sign is read, a `0x`/`0X`
 * prefix switches to base 16, and the longest run of digits that follows is
 * the value; with no digit at all the result is NaN.
 */
module JsNumber {
  import opened Results
  import opened Text

  /** A number `parseInt` can produce: NaN or an integer. */
  datatype ParsedInt = NaN | Int(value: int)

  /** JavaScript's StrWhiteSpaceChar: WhiteSpace and LineTerminator code points. */
  predicate IsJsWhiteSpace(c: char) {
    var k := c as int;
    k == 0x09 || k == 0x0A || k == 0x0B || k == 0x0C || k == 0x0D || k == 0x20 ||
    k == 0xA0 || k == 0x1680 || (0x2000 <= k <= 0x200A) || k == 0x2028 || k == 0x2029 ||
    k == 0x202F || k == 0x205F || k == 0x3000 || k == 0xFEFF
  }

  function TrimStart(s: string): (t: string)
    ensures |t| <= |s| && t == s[|s| - |t|..]
    ensures t == [] || !IsJsWhiteSpace(t[0])
  {
    if s != [] && IsJsWhiteSpace(s[0]) then TrimStart(s[1..]) else s
  }

  /** `parseInt(s)`. */
  function ParseInt(s: string): (r: ParsedInt)
  {
    var t := TrimStart(s);
    var negative := t != [] && t[0] == '-';
    var unsigned := if t != [] && (t[0] == '-' || t[0] == '+') then t[1..] else t;
    var hex := |unsigned| >= 2 && unsigned[0] == '0' && (unsigned[1] == 'x' || unsigned[1] == 'X');
    var radix := if hex then 16 else 10;
    var digits := if hex then unsigned[2..] else unsigned;
    match LeadingNumber(digits, radix)
    case None => NaN
    case Some((magnitude, _)) => Int(if negative then -(magnitude as int) else magnitude)
  }

  /** `parseInt(undefined)` is NaN: the argument is converted to the string "undefined". */
  function ParseIntOrUndefined(s: Option<string>): ParsedInt {
    match s
    case None => NaN
    case Some(v) => ParseInt(v)
  }

  /**
   * A rendered natural number followed by anything that cannot continue it
   * parses back to that number; only after a lone `0` could an `x` turn the
   * digits into a hexadecimal prefix.
   */
  lemma ParseIntOfNatToString(n: nat, rest: string)
    requires rest == [] || (!('0' <= rest[0] <= '9') && (n == 0 ==> rest[0] != 'x' && rest[0] != 'X'))
    ensures ParseInt(NatToString(n) + rest) == Int(n)
  {
    var a := NatToString(n);
    var s := a + rest;
    assert s[0] == a[0];
    if n != 0 && n < 10 {
      assert a == [DigitChar(n)];
    }
    assert |s| >= 2 ==> s[1] == if |a| >= 2 then a[1] else rest[0];
    LeadingNumberOfNatToString(n, rest);
    ParseIntOfDecimal(s);
  }

  /** `parseInt` of a string that starts with a decimal digit and has no hex prefix reads its leading digits. */
  lemma ParseIntOfDecimal(s: string)
    requires s != [] && '0' <= s[0] <= '9'
    requires !(|s| >= 2 && s[0] == '0' && (s[1] == 'x' || s[1] == 'X'))
    ensures LeadingNumber(s, 10).Some?
    ensures ParseInt(s) == Int(LeadingNumber(s, 10).value.0)
  {
    assert TrimStart(s) == s;
  }

  /**
   * The signed decimal integer at the start of `s` and its length: an
   * optional `-` and at least one decimal digit. This reads back what
   * `IntToString` renders.
   */
  function ScanInt(s: string): (r: Option<(int, nat)>)
    ensures r.Some? ==> 0 < r.value.1 <= |s|
  {
    var negative := s != [] && s[0] == '-';
    var digits := if negative then s[1..] else s;
    match LeadingNumber(digits, 10)
    case None => None
    case Some((magnitude, k)) => Some((if negative then -(magnitude as int) else magnitude, if negative then k + 1 else k))
  }

  /** `ScanInt` inverts `IntToString` when the rendering is followed by a non-digit. */
  lemma ScanIntOfIntToString(n: int, rest: string)
    requires rest == [] || !('0' <= rest[0] <= '9')
    ensures ScanInt(IntToString(n) + rest) == Some((n, |IntToString(n)|))
  {
    if n < 0 {
      ScanIntOfNegative(n, rest);
    } else {
      ScanIntOfNonNegative(n, rest);
    }
  }

  lemma ScanIntOfNegative(n: int, rest: string)
    requires n < 0
    requires rest == [] || !('0' <= rest[0] <= '9')
    ensures ScanInt(IntToString(n) + rest) == Some((n, |IntToString(n)|))
  {
    var a := NatToString(-n);
    assert IntToString(n) == "-" + a;
    LeadingNumberOfNatToString(-n, rest);
    ScanIntOfSignedDigits(a, rest, -n);
  }

  lemma ScanIntOfNonNegative(n: nat, rest: string)
    requires rest == [] || !('0' <= rest[0] <= '9')
    ensures ScanInt(IntToString(n) + rest) == Some((n, |IntToString(n)|))
  {
    var a := NatToString(n);
    assert (a + rest)[0] == a[0];
    LeadingNumberOfNatToString(n, rest);
    ScanIntUnsigned(a + rest);
  }

  /** Without a sign, `ScanInt` reads the leading digits. */
  lemma ScanIntUnsigned(s: string)
    requires s == [] || s[0] != '-'
    requires LeadingNumber(s, 10).Some?
    ensures ScanInt(s) == Some((LeadingNumber(s, 10).value.0, LeadingNumber(s, 10).value.1))
  {
  }

  /** A minus sign in front of digits that `LeadingNumber` reads as `v` scans as `-v`. */
  lemma ScanIntOfSignedDigits(a: string, rest: string, v: nat)
    requires LeadingNumber(a + rest, 10) == Some((v, |a|))
    ensures ScanInt(("-" + a) + rest) == Some((-(v as int), |a| + 1))
  {
    assert ("-" + a) + rest == "-" + (a + rest);
    ScanIntSigned(a + rest);
  }

  /** After a minus sign, `ScanInt` reads the negated leading digits, one character longer. */
  lemma ScanIntSigned(t: string)
    requires LeadingNumber(t, 10).Some?
    ensures ScanInt("-" + t) == Some((-(LeadingNumber(t, 10).value.0 as int), LeadingNumber(t, 10).value.1 + 1))
  {
    assert ("-" + t)[1..] == t;
  }
}
