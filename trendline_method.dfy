/**
 * Classification of trendline method names and extraction of the integer
 * parameter some of them carry (`polynomial-<order>`, `movingAverage-<width>`).
 */
module TrendlineMethod {
  import opened Results
  import opened Text
  import opened JsNumber

  /** The errors the spec builder throws while building trendlines. */
  datatype BuildError =
    | InvalidPolynomialOrder(order: int)
    | InvalidFrameWidth(width: ParsedInt)
      /** `Array(n)` with n NaN, negative or not below 2^32 (a RangeError). */
    | InvalidArrayLength(length: ParsedInt)
      /** Reading `transform` of the table source when there is none (a TypeError). */
    | MissingTableData

  const POLYNOMIAL_PREFIX: string := "polynomial-"
  const MOVING_AVERAGE_PREFIX: string := "movingAverage-"

  predicate IsPolynomialMethod(methodName: string) {
    POLYNOMIAL_PREFIX <= methodName || methodName == "linear" || methodName == "quadratic"
  }

  predicate IsRegressionMethod(methodName: string) {
    IsPolynomialMethod(methodName) || methodName == "exponential" || methodName == "logarithmic" || methodName == "power"
  }

  predicate IsWindowMethod(methodName: string) {
    MOVING_AVERAGE_PREFIX <= methodName
  }

  /** `parseInt(methodName.split('-')[1])`. */
  function MethodParameter(methodName: string): ParsedInt {
    ParseIntOrUndefined(SecondSplitField(methodName, '-'))
  }

  /**
   * `getPolynomialOrder`: 1 for `linear`, 2 for `quadratic`, otherwise the
   * parsed suffix; throws when the suffix parses to an integer below 1, and
   * lets NaN through.
   */
  function GetPolynomialOrder(methodName: string): (r: Result<ParsedInt, BuildError>)
    ensures methodName == "linear" ==> r == Ok(Int(1))
    ensures methodName == "quadratic" ==> r == Ok(Int(2))
    ensures r.Err? <==> methodName != "linear" && methodName != "quadratic"
                        && MethodParameter(methodName).Int? && MethodParameter(methodName).value < 1
    ensures r.Ok? && r.value.Int? ==> r.value.value >= 1
    ensures r.Ok? && r.value.NaN? ==> MethodParameter(methodName).NaN?
  {
    if methodName == "linear" then Ok(Int(1))
    else if methodName == "quadratic" then Ok(Int(2))
    else
      var order := MethodParameter(methodName);
      if order.Int? && order.value < 1 then Err(InvalidPolynomialOrder(order.value))
      else Ok(order)
  }

  lemma PolynomialIsRegression(methodName: string)
    ensures IsPolynomialMethod(methodName) ==> IsRegressionMethod(methodName)
  {
  }

  /** No methodName is both a window methodName and a regression methodName. */
  lemma WindowAndRegressionDisjoint(methodName: string)
    ensures !(IsWindowMethod(methodName) && IsRegressionMethod(methodName))
  {
    if IsWindowMethod(methodName) {
      assert methodName[0] == 'm';
    }
  }

  /** `average` is in none of the three classes. */
  lemma AverageIsUnclassified()
    ensures !IsPolynomialMethod("average") && !IsRegressionMethod("average") && !IsWindowMethod("average")
  {
    assert "average"[0] == 'a';
  }

  /**
   * The parameter of `<prefix><n><rest>` is n, for a prefix that ends in its
   * only `-` and a rest that cannot continue the digits.
   */
  lemma MethodParameterOf(prefix: string, n: nat, rest: string)
    requires |prefix| > 0 && prefix[|prefix| - 1] == '-' && '-' !in prefix[..|prefix| - 1]
    requires rest == [] || (!('0' <= rest[0] <= '9') && (n == 0 ==> rest[0] != 'x' && rest[0] != 'X'))
    ensures MethodParameter(prefix + NatToString(n) + rest) == Int(n)
  {
    var digits := NatToString(n);
    var j := IndexOf(rest, '-');
    var piece := if j < 0 then rest else rest[..j];
    var tail := if j < 0 then [] else rest[j..];
    assert rest == piece + tail;
    assert forall k :: 0 <= k < |digits| ==> digits[k] != '-';
    assert '-' !in digits + piece;
    assert prefix + digits + rest == prefix + (digits + piece) + tail;
    SecondSplitFieldOf(prefix, digits + piece, tail, '-');
    ParseIntOfNatToString(n, piece);
  }

  /** `polynomial-<n>` has order n for n ≥ 1 and is rejected for n = 0. */
  lemma PolynomialOrderOf(n: nat, rest: string)
    requires rest == [] || (!('0' <= rest[0] <= '9') && (n == 0 ==> rest[0] != 'x' && rest[0] != 'X'))
    ensures n >= 1 ==> GetPolynomialOrder(POLYNOMIAL_PREFIX + NatToString(n) + rest) == Ok(Int(n))
    ensures n == 0 ==> GetPolynomialOrder(POLYNOMIAL_PREFIX + NatToString(n) + rest) == Err(InvalidPolynomialOrder(0))
  {
    var methodName := POLYNOMIAL_PREFIX + NatToString(n) + rest;
    MethodParameterOf(POLYNOMIAL_PREFIX, n, rest);
    assert methodName[0] == 'p';
  }

  /**
   * A suffix with no digits is not rejected: the order is NaN. The
   * moving-average width check, by contrast, rejects NaN.
   */
  lemma PolynomialOrderNaNPassesThrough(methodName: string)
    requires POLYNOMIAL_PREFIX <= methodName && MethodParameter(methodName).NaN?
    ensures GetPolynomialOrder(methodName) == Ok(NaN)
  {
    assert methodName[0] == 'p';
  }
}
