/**
 * The fragment of the Vega expression language the trendline formulas use,
 * as a small syntax tree with its textual rendering and, for the polynomial
 * part, its value. The spec builder writes these formulas by string
 * interpolation; the lemmas in TrendlineTransforms show that what it writes
 * is the rendering of the intended tree.
 */
module VegaExpr {
  import opened Results
  import opened Text

  datatype Expr =
    | Coef(index: nat)           // datum.coef[index]
    | Field(name: string)        // datum.name
    | Num(n: nat)                // an integer literal
    | Add(left: Expr, right: Expr)
    | Mul(left: Expr, right: Expr)
    | Pow(base: Expr, exponent: Expr)
    | ExpOf(arg: Expr)
    | LogOf(arg: Expr)

  /**
   * Textual form. Sums and products are written without parentheses: in the
   * trees built here every product's operands are atoms or calls, so the
   * usual precedence of `*` over `+` and left-associativity of `+` read the
   * text back as the tree.
   */
  function Render(e: Expr): string {
    match e
    case Coef(i) => "datum.coef[" + NatToString(i) + "]"
    case Field(f) => "datum." + f
    case Num(n) => NatToString(n)
    case Add(l, r) => Render(l) + " + " + Render(r)
    case Mul(l, r) => Render(l) + " * " + Render(r)
    case Pow(b, x) => "pow(" + Render(b) + ", " + Render(x) + ")"
    case ExpOf(a) => "exp(" + Render(a) + ")"
    case LogOf(a) => "log(" + Render(a) + ")"
  }

  /** Product of two values (named so that products of evaluated subterms compare by congruence). */
  function Times(a: real, b: real): real {
    a * b
  }

  function RealPow(b: real, n: nat): real {
    if n == 0 then 1.0 else RealPow(b, n - 1) * b
  }

  /**
   * Value of `e` for coefficients `coef` when every field reads `x`.
   * Coefficients out of range, `exp`, `log` and `pow` with a non-literal
   * exponent are evaluated by the rendering engine in floating point and have
   * no value here.
   */
  function Eval(e: Expr, coef: seq<real>, x: real): Option<real> {
    match e
    case Coef(i) => if i < |coef| then Some(coef[i]) else None
    case Field(_) => Some(x)
    case Num(n) => Some(n as real)
    case Add(l, r) =>
      var a := Eval(l, coef, x);
      var b := Eval(r, coef, x);
      if a.Some? && b.Some? then Some(a.value + b.value) else None
    case Mul(l, r) =>
      var a := Eval(l, coef, x);
      var b := Eval(r, coef, x);
      if a.Some? && b.Some? then Some(Times(a.value, b.value)) else None
    case Pow(b, k) =>
      var v := Eval(b, coef, x);
      if k.Num? && v.Some? then Some(RealPow(v.value, k.n)) else None
    case ExpOf(_) => None
    case LogOf(_) => None
  }

  /** coef[0] + coef[1]·x + … + coef[k]·x^k. */
  function PolynomialValue(coef: seq<real>, x: real, k: nat): real
    requires k < |coef|
  {
    if k == 0 then coef[0] else PolynomialValue(coef, x, k - 1) + Times(coef[k], RealPow(x, k))
  }
}
