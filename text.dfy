/**
 * Strings as the spec builder manipulates them: decimal rendering of integers
 * (template-literal interpolation of an integral number), `Array.prototype.join`,
 * `String.prototype.split(sep)[1]`, and the digit scanner JavaScript's `parseInt` uses.
 */
module Text {
  import opened Results

  /** The character of a decimal digit. */
  function DigitChar(d: nat): (c: char)
    requires d < 10
    ensures '0' <= c <= '9'
  {
    ('0' as int + d) as char
  }

  /** Value of `c` as a digit in base `radix` (10 or 16), or -1 when it is not one. */
  function DigitValue(c: char, radix: nat): (v: int)
    requires radix == 10 || radix == 16
    ensures -1 <= v < radix
  {
    var d := if '0' <= c <= '9' then c as int - '0' as int
             else if 'a' <= c <= 'f' then c as int - 'a' as int + 10
             else if 'A' <= c <= 'F' then c as int - 'A' as int + 10
             else -1;
    if d < radix then d else -1
  }

  predicate AllDigits(s: string, radix: nat)
    requires radix == 10 || radix == 16
  {
    forall i :: 0 <= i < |s| ==> DigitValue(s[i], radix) >= 0
  }

  /** Decimal rendering of a natural number, most significant digit first, no leading zeros. */
  function NatToString(n: nat): (s: string)
    ensures |s| >= 1
    ensures forall i :: 0 <= i < |s| ==> '0' <= s[i] <= '9'
    ensures |s| > 1 ==> s[0] != '0'
    decreases n
  {
    if n < 10 then [DigitChar(n)] else NatToString(n / 10) + [DigitChar(n % 10)]
  }

  /** Decimal rendering of an integer: a minus sign for negative values. */
  function IntToString(n: int): (s: string)
    ensures |s| >= 1
    ensures n < 0 <==> s[0] == '-'
  {
    if n < 0 then "-" + NatToString(-n) else NatToString(n)
  }

  /** Number of leading characters of `s` that are digits in base `radix`. */
  function LeadingDigitCount(s: string, radix: nat): (k: nat)
    requires radix == 10 || radix == 16
    ensures k <= |s|
    ensures AllDigits(s[..k], radix)
    ensures k < |s| ==> DigitValue(s[k], radix) < 0
  {
    if s == [] || DigitValue(s[0], radix) < 0 then 0
    else
      var k := 1 + LeadingDigitCount(s[1..], radix);
      assert s[..k] == [s[0]] + s[1..][..k - 1];
      k
  }

  /** Positional value of a string of digits in base `radix`. */
  function DigitsValue(s: string, radix: nat): nat
    requires radix == 10 || radix == 16
    requires AllDigits(s, radix)
  {
    if s == [] then 0
    else DigitsValue(s[..|s| - 1], radix) * radix + DigitValue(s[|s| - 1], radix)
  }

  /** Reading back a rendered natural number yields that number. */
  lemma {:induction false} DigitsValueOfNatToString(n: nat)
    ensures AllDigits(NatToString(n), 10)
    ensures DigitsValue(NatToString(n), 10) == n
    decreases n
  {
    var s := NatToString(n);
    if n >= 10 {
      DigitsValueOfNatToString(n / 10);
      assert s[..|s| - 1] == NatToString(n / 10);
    }
  }

  /** Rendering is injective: distinct numbers give distinct strings. */
  lemma NatToStringInjective(m: nat, n: nat)
    requires NatToString(m) == NatToString(n)
    ensures m == n
  {
    DigitsValueOfNatToString(m);
    DigitsValueOfNatToString(n);
  }

  /** A digit string followed by a non-digit (or nothing) is scanned exactly to its end. */
  lemma {:induction false} LeadingDigitCountOfDigitsThen(a: string, rest: string, radix: nat)
    requires radix == 10 || radix == 16
    requires AllDigits(a, radix)
    requires rest == [] || DigitValue(rest[0], radix) < 0
    ensures LeadingDigitCount(a + rest, radix) == |a|
    decreases |a|
  {
    if a != [] {
      assert (a + rest)[1..] == a[1..] + rest;
      LeadingDigitCountOfDigitsThen(a[1..], rest, radix);
    } else {
      assert a + rest == rest;
    }
  }

  lemma ConcatAssoc(a: string, b: string, c: string)
    ensures (a + b) + c == a + (b + c)
  {
  }

  /** The value and length of the run of base-`radix` digits at the start of `s`, when there is one. */
  function LeadingNumber(s: string, radix: nat): (r: Option<(nat, nat)>)
    requires radix == 10 || radix == 16
    ensures r.Some? ==> 0 < r.value.1 <= |s|
  {
    var k := LeadingDigitCount(s, radix);
    if k == 0 then None else Some((DigitsValue(s[..k], radix), k))
  }

  /** A rendered natural number followed by a non-digit (or nothing) is read back with its length. */
  lemma LeadingNumberOfNatToString(n: nat, rest: string)
    requires rest == [] || !('0' <= rest[0] <= '9')
    ensures LeadingNumber(NatToString(n) + rest, 10) == Some((n, |NatToString(n)|))
  {
    var a := NatToString(n);
    DigitsValueOfNatToString(n);
    LeadingDigitCountOfDigitsThen(a, rest, 10);
    assert (a + rest)[..|a|] == a;
  }

  /**
   * Two decimal digit strings each followed by a suffix that starts with a
   * non-digit can only be equal when the digit strings and the suffixes are.
   */
  lemma DigitsThenSuffixSplit(a: string, s: string, b: string, t: string)
    requires forall i :: 0 <= i < |a| ==> '0' <= a[i] <= '9'
    requires forall i :: 0 <= i < |b| ==> '0' <= b[i] <= '9'
    requires |s| > 0 && !('0' <= s[0] <= '9')
    requires |t| > 0 && !('0' <= t[0] <= '9')
    requires a + s == b + t
    ensures a == b && s == t
  {
    LeadingDigitCountOfDigitsThen(a, s, 10);
    LeadingDigitCountOfDigitsThen(b, t, 10);
    assert |a| == |b|;
    assert a == (a + s)[..|a|] == (b + t)[..|b|] == b;
    assert s == (a + s)[|a|..] == (b + t)[|b|..] == t;
  }

  /** `t` occurs in `s` starting at index `i`. */
  predicate OccursAt(t: string, s: string, i: int) {
    0 <= i && i + |t| <= |s| && s[i..i + |t|] == t
  }

  /** `s.includes(t)`. */
  predicate Occurs(t: string, s: string) {
    exists i :: 0 <= i <= |s| && OccursAt(t, s, i)
  }

  /** A string occurs in any text that has it between two others. */
  lemma OccursBetween(a: string, t: string, b: string)
    ensures OccursAt(t, a + t + b, |a|)
  {
    assert (a + t + b)[|a|..|a| + |t|] == t;
  }

  /** An occurrence survives appending text after it. */
  lemma OccursExtend(t: string, s: string, i: int, u: string)
    requires OccursAt(t, s, i)
    ensures OccursAt(t, s + u, i)
  {
    assert (s + u)[i..i + |t|] == s[i..i + |t|];
  }

  /** An occurrence of `m + u` in `m + v` puts `u` at the same index of `v`. */
  lemma OccursAfterCommonPrefix(m: string, u: string, v: string, i: int)
    requires OccursAt(m + u, m + v, i)
    ensures OccursAt(u, v, i)
  {
    var w := (m + v)[i..i + |m| + |u|];
    assert w[|m|..] == (m + u)[|m|..] == u;
    assert w[|m|..] == v[i..i + |u|];
  }

  /** Equal strings with a common suffix have equal prefixes. */
  lemma CancelSuffix(a: string, b: string, d: string)
    requires a + d == b + d
    ensures a == b
  {
    assert a == (a + d)[..|a|] == (b + d)[..|b|] == b;
  }

  /** `parts.join(sep)`: the parts in order with `sep` between neighbours. */
  function Join(parts: seq<string>, sep: string): (s: string)
    ensures |parts| == 1 ==> s == parts[0]
    ensures |parts| == 0 ==> s == ""
  {
    if |parts| == 0 then ""
    else if |parts| == 1 then parts[0]
    else Join(parts[..|parts| - 1], sep) + sep + parts[|parts| - 1]
  }

  /** Index of the first occurrence of `c` in `s`, or -1 (`indexOf`). */
  function IndexOf(s: string, c: char): (i: int)
    ensures -1 <= i < |s|
    ensures i == -1 <==> c !in s
    ensures 0 <= i ==> s[i] == c && c !in s[..i]
  {
    if s == [] then -1
    else if s[0] == c then 0
    else
      var j := IndexOf(s[1..], c);
      if j == -1 then -1
      else
        assert s[..j + 1] == [s[0]] + s[1..][..j];
        j + 1
  }

  /**
   * `s.split(sep)[1]`: the piece between the first and the second separator
   * (or the end), or `undefined` when `s` holds no separator.
   */
  function SecondSplitField(s: string, sep: char): (r: Option<string>)
    ensures r.None? <==> sep !in s
    ensures r.Some? ==> sep !in r.value
  {
    var i := IndexOf(s, sep);
    if i < 0 then None
    else
      var rest := s[i + 1..];
      var j := IndexOf(rest, sep);
      Some(if j < 0 then rest else rest[..j])
  }

  /** The second split field of `prefix + field + rest` is `field` when only the prefix ends in the separator. */
  lemma SecondSplitFieldOf(prefix: string, field: string, rest: string, sep: char)
    requires |prefix| > 0 && prefix[|prefix| - 1] == sep && sep !in prefix[..|prefix| - 1]
    requires sep !in field
    requires rest == [] || rest[0] == sep
    ensures SecondSplitField(prefix + field + rest, sep) == Some(field)
  {
    var s := prefix + field + rest;
    var p := |prefix| - 1;
    assert s[..p] == prefix[..p];
    assert s[p] == sep;
    assert IndexOf(s, sep) == p;
    var tail := s[p + 1..];
    assert tail == field + rest;
    if rest == [] {
      assert tail == field;
      assert IndexOf(tail, sep) == -1;
    } else {
      assert tail[..|field|] == field;
      assert tail[|field|] == sep;
      assert IndexOf(tail, sep) == |field|;
    }
  }
}
