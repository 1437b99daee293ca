/**
 * differentiate: the symbolic derivative with respect to one variable, built
 * bottom-up from fresh nodes and left unsimplified.
 */
module Differentiation {
  import opened Expressions

  /** The derivative of an expression with respect to the variable named v.
    * A Number gives Number(0); a Variable gives Number(1) when its name equals v
    * exactly (case-sensitive), else Number(0); a Plus differentiates its children
    * in order; a Times follows the product rule as
    * Plus(Times(l, d r), Times(r, d l)). The result never mentions a variable the
    * input does not, and is itself never a Variable or a Times. */
  function Differentiate(e: Expr, v: string): (r: Expr)
    ensures Vars(r) <= Vars(e)
    ensures r.Number? || r.Plus?
  {
    match e
    case Number(_) => Number(0.0)
    case Variable(name) => if v == name then Number(1.0) else Number(0.0)
    case Plus(l, r) => Plus(Differentiate(l, v), Differentiate(r, v))
    case Times(l, r) => Plus(Times(l, Differentiate(r, v)), Times(r, Differentiate(l, v)))
  }

  /** A dual number: a value together with its rate of change. */
  datatype Dual = Dual(value: real, slope: real)

  /** Forward-mode evaluation with dual numbers, an independent reference for the
    * derivative: the slope of a variable is 1 for v and 0 for any other, sums add
    * slopes, and products obey (a, a') * (b, b') = (a * b, a * b' + b * a'). */
  function DualEval(e: Expr, env: Env, v: string): Dual
    requires Vars(e) <= env.Keys
  {
    match e
    case Number(n) => Dual(n, 0.0)
    case Variable(name) => Dual(env[name], if name == v then 1.0 else 0.0)
    case Plus(l, r) =>
      var a, b := DualEval(l, env, v), DualEval(r, env, v);
      Dual(a.value + b.value, a.slope + b.slope)
    case Times(l, r) =>
      var a, b := DualEval(l, env, v), DualEval(r, env, v);
      Dual(Mul(a.value, b.value), Mul(a.value, b.slope) + Mul(b.value, a.slope))
  }

  /** The value part of dual evaluation is ordinary evaluation. */
  lemma {:induction false} DualValue(e: Expr, env: Env, v: string)
    requires Vars(e) <= env.Keys
    ensures DualEval(e, env, v).value == Eval(e, env)
  {
    match e
    case Number(_) =>
    case Variable(_) =>
    case Plus(l, r) =>
      DualValue(l, env, v);
      DualValue(r, env, v);
    case Times(l, r) =>
      DualValue(l, env, v);
      DualValue(r, env, v);
  }

  /** Soundness of differentiate: evaluating the symbolic derivative anywhere
    * gives the slope that dual-number evaluation computes there. */
  lemma {:induction false} DifferentiateSound(e: Expr, env: Env, v: string)
    requires Vars(e) <= env.Keys
    ensures Vars(Differentiate(e, v)) <= env.Keys
    ensures Eval(Differentiate(e, v), env) == DualEval(e, env, v).slope
  {
    match e
    case Number(_) =>
    case Variable(_) =>
    case Plus(l, r) =>
      DifferentiateSound(l, env, v);
      DifferentiateSound(r, env, v);
    case Times(l, r) =>
      DifferentiateSound(l, env, v);
      DifferentiateSound(r, env, v);
      DualValue(l, env, v);
      DualValue(r, env, v);
  }

  /** An expression that does not mention v has a derivative that evaluates to 0
    * everywhere, although it is not folded to Number(0). */
  lemma {:induction false} DifferentiateConstant(e: Expr, env: Env, v: string)
    requires Vars(e) <= env.Keys
    requires v !in Vars(e)
    ensures Vars(Differentiate(e, v)) <= env.Keys
    ensures Eval(Differentiate(e, v), env) == 0.0
  {
    match e
    case Number(_) =>
    case Variable(_) =>
    case Plus(l, r) =>
      DifferentiateConstant(l, env, v);
      DifferentiateConstant(r, env, v);
    case Times(l, r) =>
      DifferentiateConstant(l, env, v);
      DifferentiateConstant(r, env, v);
  }

  /** The derivative of a valid expression is valid: the only new leaves are
    * Number(0) and Number(1). */
  lemma {:induction false} DifferentiateValid(e: Expr, v: string)
    requires Valid(e)
    ensures Valid(Differentiate(e, v))
  {
    match e
    case Number(_) =>
    case Variable(_) =>
    case Plus(l, r) =>
      DifferentiateValid(l, v);
      DifferentiateValid(r, v);
    case Times(l, r) =>
      DifferentiateValid(l, v);
      DifferentiateValid(r, v);
  }

  /** The differentiation scenarios of the unit tests, on trees. */
  lemma DifferentiateExamples()
    ensures Differentiate(Variable("x"), "x") == Number(1.0)
    ensures Differentiate(Variable("x"), "z") == Number(0.0)
    ensures Differentiate(Variable("x"), "X") == Number(0.0)
    ensures Differentiate(Number(5.0), "x") == Number(0.0)
    ensures Differentiate(Plus(Variable("x"), Number(8.0)), "x") == Plus(Number(1.0), Number(0.0))
    ensures Differentiate(Plus(Variable("x"), Variable("x")), "x") == Plus(Number(1.0), Number(1.0))
    ensures Differentiate(Plus(Variable("x"), Variable("y")), "x") == Plus(Number(1.0), Number(0.0))
    ensures Differentiate(Times(Variable("x"), Variable("x")), "x")
         == Plus(Times(Variable("x"), Number(1.0)), Times(Variable("x"), Number(1.0)))
    ensures Differentiate(Times(Number(8.0), Variable("x")), "x")
         == Plus(Times(Number(8.0), Number(1.0)), Times(Variable("x"), Number(0.0)))
  {
  }
}
