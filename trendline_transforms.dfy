/**
 * The individual transforms of a trendline's data sources: the dimension
 * range filter, the statistical transform of each method class, the formula
 * that re-evaluates a fitted curve from its coefficients, and the
 * normalised time dimension added to the table.
 */
module TrendlineTransforms {
  import opened Results
  import opened Text
  import opened JsNumber
  import opened Constants
  import opened VegaExpr
  import opened VegaSpec
  import opened TrendlineMethod
  import opened TrendlineProps

  // ---------------------------------------------------------------------
  // Dimension range filter

  function LowerBoundClause(dimension: string, bound: int): string {
    "datum." + dimension + " >= " + IntToString(bound)
  }

  function UpperBoundClause(dimension: string, bound: int): string {
    "datum." + dimension + " <= " + IntToString(bound)
  }

  /** The filter expressions pushed for each non-null bound, lower bound first. */
  function RangeFilterClauses(dimension: string, range: DimensionRange): seq<string> {
    (if range.min.Some? then [LowerBoundClause(dimension, range.min.value)] else [])
    + (if range.max.Some? then [UpperBoundClause(dimension, range.max.value)] else [])
  }

  /** `getTrendlineDimensionRangeTransforms`. */
  function DimensionRangeTransforms(dimension: string, range: DimensionRange): (r: seq<Transform>)
    ensures r == [] <==> range.min.None? && range.max.None?
    ensures |r| <= 1 && (r != [] ==> r[0].Filter?)
    ensures range.min.Some? && range.max.None? ==>
              r == [Filter(LowerBoundClause(dimension, range.min.value))]
    ensures range.min.None? && range.max.Some? ==>
              r == [Filter(UpperBoundClause(dimension, range.max.value))]
    ensures range.min.Some? && range.max.Some? ==>
              r == [Filter(LowerBoundClause(dimension, range.min.value) + " && "
                           + UpperBoundClause(dimension, range.max.value))]
  {
    var clauses := RangeFilterClauses(dimension, range);
    if |clauses| > 0 then [Filter(Join(clauses, " && "))] else []
  }

  /**
   * Reads a range filter expression back into the range it was built from:
   * `datum.<d> >= <min>`, `datum.<d> <= <max>`, or the two joined by ` && `.
   */
  function DecodeRangeFilter(dimension: string, expr: string): Option<DimensionRange> {
    var lower := "datum." + dimension + " >= ";
    var upper := "datum." + dimension + " <= ";
    if lower <= expr then DecodeFromLowerBound(dimension, expr[|lower|..])
    else if upper <= expr then
      match ScanWhole(expr[|upper|..])
      case None => None
      case Some(hi) => Some(DimensionRange(None, Some(hi)))
    else None
  }

  /** The integer `s` consists of, when it is exactly one. */
  function ScanWhole(s: string): Option<int> {
    match ScanInt(s)
    case None => None
    case Some((v, k)) => if k == |s| then Some(v) else None
  }

  /** The rest of a filter after `datum.<d> >= `: the lower bound, then nothing or the upper-bound clause. */
  function DecodeFromLowerBound(dimension: string, s: string): Option<DimensionRange> {
    match ScanInt(s)
    case None => None
    case Some((lo, k)) =>
      var rest := s[k..];
      var separator := " && " + ("datum." + dimension + " <= ");
      if rest == [] then Some(DimensionRange(Some(lo), None))
      else if separator <= rest then
        match ScanWhole(rest[|separator|..])
        case None => None
        case Some(hi) => Some(DimensionRange(Some(lo), Some(hi)))
      else None
  }

  /** The filter emitted for a range with a bound determines that range. */
  lemma RangeFilterRoundTrip(dimension: string, range: DimensionRange)
    requires range.min.Some? || range.max.Some?
    ensures DecodeRangeFilter(dimension, DimensionRangeTransforms(dimension, range)[0].expr) == Some(range)
  {
    if range.min.Some? && range.max.Some? {
      DecodeBothBounds(dimension, range.min.value, range.max.value);
    } else if range.min.Some? {
      DecodeLowerBound(dimension, range.min.value);
    } else {
      DecodeUpperBound(dimension, range.max.value);
    }
  }

  lemma PrefixOfConcat(a: string, b: string)
    ensures a <= a + b && (a + b)[|a|..] == b
  {
  }

  lemma ScanWholeOfIntToString(n: int)
    ensures ScanWhole(IntToString(n)) == Some(n)
  {
    ScanIntOfIntToString(n, []);
    assert IntToString(n) + [] == IntToString(n);
  }

  lemma DecodeLowerBound(dimension: string, lo: int)
    ensures DecodeRangeFilter(dimension, LowerBoundClause(dimension, lo)) == Some(DimensionRange(Some(lo), None))
  {
    var lower := "datum." + dimension + " >= ";
    var digits := IntToString(lo);
    PrefixOfConcat(lower, digits);
    ScanIntOfIntToString(lo, []);
    assert digits + [] == digits;
    assert digits[|digits|..] == [];
  }

  lemma DecodeUpperBound(dimension: string, hi: int)
    ensures DecodeRangeFilter(dimension, UpperBoundClause(dimension, hi)) == Some(DimensionRange(None, Some(hi)))
  {
    var expr := UpperBoundClause(dimension, hi);
    var lower := "datum." + dimension + " >= ";
    var upper := "datum." + dimension + " <= ";
    var p := |"datum." + dimension| + 1;
    assert expr[p] == upper[p] == '<';
    assert lower[p] == '>';
    assert !(lower <= expr);
    PrefixOfConcat(upper, IntToString(hi));
    ScanWholeOfIntToString(hi);
  }

  lemma DecodeBothBounds(dimension: string, lo: int, hi: int)
    ensures DecodeRangeFilter(dimension, LowerBoundClause(dimension, lo) + " && " + UpperBoundClause(dimension, hi))
            == Some(DimensionRange(Some(lo), Some(hi)))
  {
    var expr := LowerBoundClause(dimension, lo) + " && " + UpperBoundClause(dimension, hi);
    var lower := "datum." + dimension + " >= ";
    var upper := "datum." + dimension + " <= ";
    var separator := " && " + upper;
    var loDigits := IntToString(lo);
    var hiDigits := IntToString(hi);
    var rest := separator + hiDigits;
    ConcatAssoc(lower + loDigits, " && ", upper + hiDigits);
    ConcatAssoc(lower, loDigits, " && " + (upper + hiDigits));
    ConcatAssoc(" && ", upper, hiDigits);
    assert expr == lower + (loDigits + rest);
    PrefixOfConcat(lower, loDigits + rest);
    DecodeLowerThenUpper(dimension, loDigits, rest, lo, hi);
  }

  lemma DecodeLowerThenUpper(dimension: string, loDigits: string, rest: string, lo: int, hi: int)
    requires loDigits == IntToString(lo) && rest == " && " + ("datum." + dimension + " <= ") + IntToString(hi)
    ensures DecodeFromLowerBound(dimension, loDigits + rest) == Some(DimensionRange(Some(lo), Some(hi)))
  {
    var separator := " && " + ("datum." + dimension + " <= ");
    assert rest[0] == ' ';
    ScanIntOfIntToString(lo, rest);
    PrefixOfConcat(loDigits, rest);
    PrefixOfConcat(separator, IntToString(hi));
    ScanWholeOfIntToString(hi);
  }

  // ---------------------------------------------------------------------
  // Fitted curve formula

  /** The field the regression runs on: the normalised dimension for a time scale. */
  function TrendlineDimension(dimension: string, scaleType: Option<string>): (x: string)
    ensures scaleType == Some("time") <==> x == dimension + "Normalized"
  {
    if scaleType == Some("time") then dimension + "Normalized" else dimension
  }

  /** `datum.coef[i] * pow(datum.<x>, i)`. */
  function PolynomialTerm(i: nat, x: string): string {
    "datum.coef[" + NatToString(i) + "] * pow(datum." + x + ", " + NatToString(i) + ")"
  }

  /** `['datum.coef[0]', ...Array(order).fill(0).map((_e, i) => term(i + 1))]`. */
  function PolynomialTerms(order: nat, x: string): seq<string> {
    ["datum.coef[0]"] + seq(order, i requires 0 <= i < order => PolynomialTerm(i + 1, x))
  }

  /** coef[0] + coef[1]·x + … + coef[order]·x^order, as a tree summed left to right. */
  function PolynomialExpr(order: nat, x: string): Expr {
    if order == 0 then Coef(0)
    else Add(PolynomialExpr(order - 1, x), Mul(Coef(order), Pow(Field(x), Num(order))))
  }

  /** The curve the builder's formula evaluates from `coef` for each regression kind. */
  function FittedCurve(methodName: string, order: nat, x: string): Expr {
    if methodName == "exponential" then Add(Coef(0), ExpOf(Mul(Coef(1), Field(x))))
    else if methodName == "logarithmic" then Add(Coef(0), Mul(Coef(1), LogOf(Field(x))))
    else if methodName == "power" then Mul(Coef(0), Pow(Field(x), Coef(1)))
    else PolynomialExpr(order, x)
  }

  /** The joined terms are the rendering of the polynomial tree. */
  lemma {:induction false} PolynomialTermsRender(order: nat, x: string)
    ensures |PolynomialTerms(order, x)| == order + 1
    ensures Join(PolynomialTerms(order, x), " + ") == Render(PolynomialExpr(order, x))
  {
    var terms := PolynomialTerms(order, x);
    if order == 0 {
      assert terms == ["datum.coef[0]"];
      assert NatToString(0) == "0";
    } else {
      PolynomialTermsRender(order - 1, x);
      assert terms[..order] == PolynomialTerms(order - 1, x);
      assert terms[order] == PolynomialTerm(order, x);
      var n := NatToString(order);
      var power := Pow(Field(x), Num(order));
      assert Render(power) == "pow(" + ("datum." + x) + ", " + n + ")";
      assert Render(Mul(Coef(order), power)) == "datum.coef[" + n + "]" + " * " + Render(power);
      PolynomialTermShape(n, x);
    }
  }

  lemma PolynomialTermShape(n: string, x: string)
    ensures "datum.coef[" + n + "]" + " * " + ("pow(" + ("datum." + x) + ", " + n + ")")
         == "datum.coef[" + n + "] * pow(datum." + x + ", " + n + ")"
  {
    assert "]" + " * " + "pow(" + "datum." == "] * pow(datum.";
  }

  /** The polynomial tree evaluates to the polynomial with the fitted coefficients. */
  lemma {:induction false} PolynomialExprValue(order: nat, x: string, coef: seq<real>, v: real)
    requires order < |coef|
    ensures Eval(PolynomialExpr(order, x), coef, v) == Some(PolynomialValue(coef, v, order))
  {
    if order > 0 {
      PolynomialExprValue(order - 1, x, coef, v);
      var term := Mul(Coef(order), Pow(Field(x), Num(order)));
      assert Eval(Field(x), coef, v) == Some(v);
      assert Eval(Pow(Field(x), Num(order)), coef, v) == Some(RealPow(v, order));
      assert Eval(Coef(order), coef, v) == Some(coef[order]);
      assert (Eval(Coef(order), coef, v), Eval(Pow(Field(x), Num(order)), coef, v))
          == (Some(coef[order]), Some(RealPow(v, order)));
      assert Eval(term, coef, v) == Some(Times(coef[order], RealPow(v, order)));
    }
  }

  /** The exponential, logarithmic and power formulas are renderings of their curves. */
  lemma FittedCurveRender(x: string)
    ensures Render(FittedCurve("exponential", 0, x)) == "datum.coef[0] + exp(datum.coef[1] * datum." + x + ")"
    ensures Render(FittedCurve("logarithmic", 0, x)) == "datum.coef[0] + datum.coef[1] * log(datum." + x + ")"
    ensures Render(FittedCurve("power", 0, x)) == "datum.coef[0] * pow(datum." + x + ", datum.coef[1])"
  {
    assert NatToString(0) == "0" && NatToString(1) == "1";
    ExponentialRender("datum.coef[" + "0" + "]", "datum.coef[" + "1" + "]", x);
    LogarithmicRender("datum.coef[" + "0" + "]", "datum.coef[" + "1" + "]", x);
    PowerRender("datum.coef[" + "0" + "]", "datum.coef[" + "1" + "]", x);
  }

  lemma ExponentialRender(c0: string, c1: string, x: string)
    requires c0 == Render(Coef(0)) == "datum.coef[0]" && c1 == Render(Coef(1)) == "datum.coef[1]"
    ensures Render(FittedCurve("exponential", 0, x)) == "datum.coef[0] + exp(datum.coef[1] * datum." + x + ")"
  {
    assert Render(Mul(Coef(1), Field(x))) == c1 + " * " + ("datum." + x);
    assert Render(ExpOf(Mul(Coef(1), Field(x)))) == "exp(" + (c1 + " * " + ("datum." + x)) + ")";
    assert c0 + " + " + "exp(" + c1 + " * " + "datum." == "datum.coef[0] + exp(datum.coef[1] * datum.";
  }

  lemma LogarithmicRender(c0: string, c1: string, x: string)
    requires c0 == Render(Coef(0)) == "datum.coef[0]" && c1 == Render(Coef(1)) == "datum.coef[1]"
    ensures Render(FittedCurve("logarithmic", 0, x)) == "datum.coef[0] + datum.coef[1] * log(datum." + x + ")"
  {
    assert Render(LogOf(Field(x))) == "log(" + ("datum." + x) + ")";
    assert Render(Mul(Coef(1), LogOf(Field(x)))) == c1 + " * " + ("log(" + ("datum." + x) + ")");
    assert c0 + " + " + c1 + " * " + "log(" + "datum." == "datum.coef[0] + datum.coef[1] * log(datum.";
  }

  lemma PowerRender(c0: string, c1: string, x: string)
    requires c0 == Render(Coef(0)) == "datum.coef[0]" && c1 == Render(Coef(1)) == "datum.coef[1]"
    ensures Render(FittedCurve("power", 0, x)) == "datum.coef[0] * pow(datum." + x + ", datum.coef[1])"
  {
    assert Render(Pow(Field(x), Coef(1))) == "pow(" + ("datum." + x) + ", " + c1 + ")";
    assert ", " + c1 + ")" == ", datum.coef[1])";
    assert c0 + " * " + "pow(" + "datum." == "datum.coef[0] * pow(datum.";
  }

  const ARRAY_LENGTH_LIMIT: nat := 0x1_0000_0000

  /** `Array(n)`: a RangeError unless n is an integer in [0, 2^32). */
  function ArrayLength(n: ParsedInt): (r: Result<nat, BuildError>)
    ensures r.Ok? <==> n.Int? && 0 <= n.value < ARRAY_LENGTH_LIMIT
    ensures r.Ok? ==> r.value == n.value
  {
    if n.Int? && 0 <= n.value < ARRAY_LENGTH_LIMIT then Ok(n.value) else Err(InvalidArrayLength(n))
  }

  /** `getTrendlineParamFormulaTransforms`. */
  function ParamFormulaTransforms(dimension: string, methodName: string, scaleType: Option<string>)
    : (r: Result<seq<Transform>, BuildError>)
    ensures !IsRegressionMethod(methodName) ==> r == Ok([])
    ensures IsRegressionMethod(methodName) && !IsPolynomialMethod(methodName) ==>
              r == Ok([Formula(Render(FittedCurve(methodName, 0, TrendlineDimension(dimension, scaleType))),
                               TRENDLINE_VALUE)])
    ensures IsPolynomialMethod(methodName) ==>
              var order := GetPolynomialOrder(methodName);
              && (r.Ok? <==> order.Ok? && order.value.Int? && order.value.value < ARRAY_LENGTH_LIMIT)
              && (r.Ok? ==>
                    (&& order.value.value >= 1
                     && r.value == [Formula(Render(PolynomialExpr(order.value.value, TrendlineDimension(dimension, scaleType))),
                                            TRENDLINE_VALUE)]))
  {
    var x := TrendlineDimension(dimension, scaleType);
    var expr :-
      if IsPolynomialMethod(methodName) then
        var order :- GetPolynomialOrder(methodName);
        var count :- ArrayLength(order);
        PolynomialTermsRender(count, x);
        Ok(Join(PolynomialTerms(count, x), " + "))
      else if methodName == "exponential" then
        Ok("datum.coef[0] + exp(datum.coef[1] * datum." + x + ")")
      else if methodName == "logarithmic" then
        Ok("datum.coef[0] + datum.coef[1] * log(datum." + x + ")")
      else if methodName == "power" then
        Ok("datum.coef[0] * pow(datum." + x + ", datum.coef[1])")
      else
        Ok("");
    FittedCurveRender(x);
    if expr == "" then Ok([]) else Ok([Formula(expr, TRENDLINE_VALUE)])
  }

  // ---------------------------------------------------------------------
  // Statistical transforms

  /** `getAverageTransform`. */
  function AverageTransform(mark: MarkProps): (t: Transform)
    ensures t.JoinAggregate? && t.joinGroupby == Some(mark.facets)
    ensures t.ops == ["mean"] && t.fields == [mark.metric] && t.asFields == [TRENDLINE_VALUE]
  {
    JoinAggregate(Some(mark.facets), [mark.metric], ["mean"], [TRENDLINE_VALUE])
  }

  /** `getRegressionTransform`. */
  function RegressionTransform(mark: MarkProps, methodName: string, params: bool): (r: Result<Transform, BuildError>)
    ensures r.Ok? ==>
              var x := TrendlineDimension(mark.dimension, mark.scaleType);
              && r.value.Regression? && r.value.groupby == mark.facets
              && r.value.x == x && r.value.y == mark.metric && r.value.params == params
              && r.value.outputFields == (if params then None else Some([x, TRENDLINE_VALUE]))
              && (r.value.order.Some? <==> r.value.regressionMethod == "poly")
    ensures methodName == "exponential" ==> r.Ok? && r.value.regressionMethod == "exp"
    ensures methodName == "logarithmic" ==> r.Ok? && r.value.regressionMethod == "log"
    ensures methodName == "power" ==> r.Ok? && r.value.regressionMethod == "pow"
    ensures methodName != "exponential" && methodName != "logarithmic" && methodName != "power" ==>
              && (r.Ok? <==> GetPolynomialOrder(methodName).Ok?)
              && (r.Ok? ==> r.value.order == Some(GetPolynomialOrder(methodName).value))
              && (r.Err? ==> r.error == GetPolynomialOrder(methodName).error)
  {
    var kind: (string, Option<ParsedInt>) :-
      if methodName == "exponential" then Ok(("exp", None))
      else if methodName == "logarithmic" then Ok(("log", None))
      else if methodName == "power" then Ok(("pow", None))
      else
        var order :- GetPolynomialOrder(methodName);
        Ok(("poly", Some(order)));
    var x := if HasTimeScale(mark) then mark.dimension + "Normalized" else mark.dimension;
    Ok(Regression(kind.0, kind.1, mark.facets, x, mark.metric,
                  if params then None else Some([x, TRENDLINE_VALUE]), params))
  }

  /** `getMovingAverageTransform`: a trailing mean over the previous `width - 1` rows and the current one. */
  function MovingAverageTransform(mark: MarkProps, methodName: string): (r: Result<Transform, BuildError>)
    ensures var width := MethodParameter(methodName);
            && (r.Ok? <==> width.Int? && width.value >= 1)
            && (r.Err? ==> r.error == InvalidFrameWidth(width))
            && (r.Ok? ==> r.value.Window? && r.value.frame == (width.value - 1, 0))
    ensures r.Ok? ==> r.value.ops == ["mean"] && r.value.groupby == mark.facets
                      && r.value.fields == [mark.metric] && r.value.asFields == [TRENDLINE_VALUE]
  {
    var frameWidth := MethodParameter(methodName);
    if frameWidth.NaN? || frameWidth.value < 1 then Err(InvalidFrameWidth(frameWidth))
    else Ok(Window(["mean"], mark.facets, [mark.metric], [TRENDLINE_VALUE], (frameWidth.value - 1, 0)))
  }

  /** `movingAverage-<w>` frames `[w - 1, 0]` for w ≥ 1 and is rejected for w = 0. */
  lemma MovingAverageFrameOf(mark: MarkProps, w: nat, rest: string)
    requires rest == [] || (!('0' <= rest[0] <= '9') && (w == 0 ==> rest[0] != 'x' && rest[0] != 'X'))
    ensures var r := MovingAverageTransform(mark, MOVING_AVERAGE_PREFIX + NatToString(w) + rest);
            && (w >= 1 ==> r.Ok? && r.value.frame == (w - 1, 0) && r.value.ops == ["mean"])
            && (w == 0 ==> r == Err(InvalidFrameWidth(Int(0))))
  {
    MethodParameterOf(MOVING_AVERAGE_PREFIX, w, rest);
  }

  /** `getTrendlineStatisticalTransforms`. */
  function StatisticalTransforms(mark: MarkProps, methodName: string, params: bool)
    : (r: Result<seq<Transform>, BuildError>)
    ensures methodName == "average" ==> r == Ok([AverageTransform(mark)])
    ensures IsRegressionMethod(methodName) ==>
              r == (var t := RegressionTransform(mark, methodName, params);
                    if t.Ok? then Ok([t.value]) else Err(t.error))
    ensures IsWindowMethod(methodName) ==>
              r == (var t := MovingAverageTransform(mark, methodName);
                    if t.Ok? then Ok([t.value]) else Err(t.error))
    ensures methodName != "average" && !IsRegressionMethod(methodName) && !IsWindowMethod(methodName) ==> r == Ok([])
  {
    WindowAndRegressionDisjoint(methodName);
    AverageIsUnclassified();
    if methodName == "average" then Ok([AverageTransform(mark)])
    else if IsRegressionMethod(methodName) then
      var t :- RegressionTransform(mark, methodName, params);
      Ok([t])
    else if IsWindowMethod(methodName) then
      var t :- MovingAverageTransform(mark, methodName);
      Ok([t])
    else Ok([])
  }

  /** `getTrendlineParamLookupTransform`: the coefficients of the row's facet group. */
  function ParamLookupTransform(mark: MarkProps, t: TrendlineSpec): (l: Transform)
    ensures l.Lookup? && l.from == t.name + "_params" && l.fields == mark.facets && l.values == ["coef"]
  {
    Lookup(t.name + "_params", "keys", mark.facets, ["coef"])
  }

  // ---------------------------------------------------------------------
  // Normalised time dimension

  /** `transform.as` when it is a single field name (a list of names never equals a string). */
  function StringAs(t: Transform): Option<string> {
    match t
    case Formula(_, a) => Some(a)
    case SeriesId(_) => Some(SERIES_ID)
    case OtherTransform(_, a) => a
    case _ => None
  }

  predicate HasNormalizedDimension(transforms: seq<Transform>, dimension: string) {
    exists k :: 0 <= k < |transforms| && StringAs(transforms[k]) == Some(dimension + "Normalized")
  }

  /** `transforms.findIndex((t) => 'as' in t && t.as === field)`. */
  function FindIndexByAs(transforms: seq<Transform>, field: string): (i: int)
    ensures -1 <= i < |transforms|
    ensures i == -1 <==> forall k :: 0 <= k < |transforms| ==> StringAs(transforms[k]) != Some(field)
    ensures 0 <= i ==> StringAs(transforms[i]) == Some(field)
                       && forall k :: 0 <= k < i ==> StringAs(transforms[k]) != Some(field)
  {
    if transforms == [] then -1
    else if StringAs(transforms[0]) == Some(field) then 0
    else
      var j := FindIndexByAs(transforms[1..], field);
      if j == -1 then -1 else j + 1
  }

  /** `(datum.<d> - datum.<d>Min + MS_PER_DAY) / MS_PER_DAY`: days since the earliest row, from 1. */
  function NormalizedDimensionExpr(dimension: string): string {
    "(datum." + dimension + " - datum." + dimension + "Min + " + NatToString(MS_PER_DAY) + ") / "
    + NatToString(MS_PER_DAY)
  }

  function NormalizedDimensionTransforms(dimension: string): seq<Transform> {
    [JoinAggregate(None, [dimension], ["min"], [dimension + "Min"]),
     Formula(NormalizedDimensionExpr(dimension), dimension + "Normalized")]
  }

  /** `addNormalizedDimensionTransform`: append the pair unless a transform already writes `<d>Normalized`. */
  function AddNormalizedDimensionTransform(transforms: seq<Transform>, dimension: string): (r: seq<Transform>)
    ensures HasNormalizedDimension(transforms, dimension) ==> r == transforms
    ensures !HasNormalizedDimension(transforms, dimension) ==>
              r == transforms + NormalizedDimensionTransforms(dimension)
    ensures HasNormalizedDimension(r, dimension)
  {
    if FindIndexByAs(transforms, dimension + "Normalized") == -1 then
      var r := transforms + NormalizedDimensionTransforms(dimension);
      assert StringAs(r[|transforms| + 1]) == Some(dimension + "Normalized");
      r
    else transforms
  }

  /** Applying the insertion twice is the same as applying it once. */
  lemma AddNormalizedDimensionIdempotent(transforms: seq<Transform>, dimension: string)
    ensures AddNormalizedDimensionTransform(AddNormalizedDimensionTransform(transforms, dimension), dimension)
            == AddNormalizedDimensionTransform(transforms, dimension)
  {
  }
}
