/**
 * simplify: substitute the environment's values for bound variables, then fold
 * a Plus or Times into a Number exactly when both simplified children carry a
 * value (hasValue), using getValue on them (combineTerms).
 */
module Simplification {
  import opened Expressions

  /** hasValue: true for a Number, false for a Variable, and for Plus and Times
    * true iff both children have a value. */
  predicate HasValue(e: Expr) {
    match e
    case Number(_) => true
    case Variable(_) => false
    case Plus(l, r) => HasValue(l) && HasValue(r)
    case Times(l, r) => HasValue(l) && HasValue(r)
  }

  /** getValue: the stored value of a Number. On a Variable, Plus or Times it
    * throws UnsupportedOperationException, so it demands a Number. */
  function GetValue(e: Expr): real
    requires e.Number?
  {
    e.n
  }

  /** An expression has a value exactly when it mentions no variable. */
  lemma {:induction false} HasValueIffClosed(e: Expr)
    ensures HasValue(e) <==> Vars(e) == {}
  {
    match e
    case Number(_) =>
    case Variable(_) =>
    case Plus(l, r) =>
      HasValueIffClosed(l);
      HasValueIffClosed(r);
    case Times(l, r) =>
      HasValueIffClosed(l);
      HasValueIffClosed(r);
  }

  /** Plus.combineTerms: a Number holding the sum when both terms have a value,
    * otherwise a Plus of the two terms. Each term that has a value must be a
    * Number, since getValue throws on anything else. */
  function CombinePlus(a: Expr, b: Expr): (r: Expr)
    requires HasValue(a) ==> a.Number?
    requires HasValue(b) ==> b.Number?
    ensures HasValue(r) ==> r.Number?
    ensures Vars(r) == Vars(a) + Vars(b)
  {
    if HasValue(a) && HasValue(b) then Number(GetValue(a) + GetValue(b)) else Plus(a, b)
  }

  /** The same combination for Times, folding by multiplication. */
  function CombineTimes(a: Expr, b: Expr): (r: Expr)
    requires HasValue(a) ==> a.Number?
    requires HasValue(b) ==> b.Number?
    ensures HasValue(r) ==> r.Number?
    ensures Vars(r) == Vars(a) + Vars(b)
  {
    if HasValue(a) && HasValue(b) then Number(Mul(GetValue(a), GetValue(b))) else Times(a, b)
  }

  /** simplify, bottom-up. A Number is returned unchanged, a bound Variable
    * becomes Number(env[name]) and an unbound one is returned as it is. The
    * result has a value only if it is a Number, so combineTerms never calls
    * getValue on a node that throws; and the result mentions exactly the
    * variables the environment does not bind. */
  function Simplify(e: Expr, env: Env): (r: Expr)
    ensures HasValue(r) ==> r.Number?
    ensures Vars(r) == Vars(e) - env.Keys
  {
    match e
    case Number(_) => e
    case Variable(name) => if name in env then Number(env[name]) else e
    case Plus(l, r) => CombinePlus(Simplify(l, env), Simplify(r, env))
    case Times(l, r) => CombineTimes(Simplify(l, env), Simplify(r, env))
  }

  /** If the environment binds every variable, simplify yields a single Number
    * holding the expression's value. */
  lemma {:induction false} SimplifyClosed(e: Expr, env: Env)
    requires Vars(e) <= env.Keys
    ensures Simplify(e, env) == Number(Eval(e, env))
  {
    match e
    case Number(_) =>
    case Variable(_) =>
    case Plus(l, r) =>
      SimplifyClosed(l, env);
      SimplifyClosed(r, env);
    case Times(l, r) =>
      SimplifyClosed(l, env);
      SimplifyClosed(r, env);
  }

  /** Simplification preserves meaning: under any environment that extends env
    * and binds the remaining variables, the simplified expression has the same
    * value as the original. */
  lemma {:induction false} SimplifySound(e: Expr, env: Env, full: Env)
    requires Vars(e) <= full.Keys
    requires forall k :: k in env ==> k in full && full[k] == env[k]
    ensures Vars(Simplify(e, env)) <= full.Keys
    ensures Eval(Simplify(e, env), full) == Eval(e, full)
  {
    match e
    case Number(_) =>
    case Variable(_) =>
    case Plus(l, r) =>
      SimplifySound(l, env, full);
      SimplifySound(r, env, full);
    case Times(l, r) =>
      SimplifySound(l, env, full);
      SimplifySound(r, env, full);
  }

  /** No partial folding: when either operand of a Plus mentions an unbound
    * variable, simplify keeps the Plus over the simplified operands, even if the
    * other operand folds to a Number. */
  lemma PlusNoPartialFolding(l: Expr, r: Expr, env: Env)
    requires !(Vars(l) <= env.Keys) || !(Vars(r) <= env.Keys)
    ensures Simplify(Plus(l, r), env) == Plus(Simplify(l, env), Simplify(r, env))
  {
    HasValueIffClosed(Simplify(l, env));
    HasValueIffClosed(Simplify(r, env));
  }

  /** The same for Times. */
  lemma TimesNoPartialFolding(l: Expr, r: Expr, env: Env)
    requires !(Vars(l) <= env.Keys) || !(Vars(r) <= env.Keys)
    ensures Simplify(Times(l, r), env) == Times(Simplify(l, env), Simplify(r, env))
  {
    HasValueIffClosed(Simplify(l, env));
    HasValueIffClosed(Simplify(r, env));
  }

  /** The shape simplify leaves behind: no Plus or Times node both of whose
    * children have a value. */
  predicate Folded(e: Expr) {
    match e
    case Number(_) => true
    case Variable(_) => true
    case Plus(l, r) => Folded(l) && Folded(r) && !(HasValue(l) && HasValue(r))
    case Times(l, r) => Folded(l) && Folded(r) && !(HasValue(l) && HasValue(r))
  }

  lemma {:induction false} SimplifyFolded(e: Expr, env: Env)
    ensures Folded(Simplify(e, env))
  {
    match e
    case Number(_) =>
    case Variable(_) =>
    case Plus(l, r) =>
      SimplifyFolded(l, env);
      SimplifyFolded(r, env);
    case Times(l, r) =>
      SimplifyFolded(l, env);
      SimplifyFolded(r, env);
  }

  /** A folded expression none of whose variables is bound is a fixed point. */
  lemma {:induction false} SimplifyFixpoint(e: Expr, env: Env)
    requires Folded(e)
    requires Vars(e) !! env.Keys
    ensures Simplify(e, env) == e
  {
    match e
    case Number(_) =>
    case Variable(_) =>
    case Plus(l, r) =>
      SimplifyFixpoint(l, env);
      SimplifyFixpoint(r, env);
    case Times(l, r) =>
      SimplifyFixpoint(l, env);
      SimplifyFixpoint(r, env);
  }

  /** Simplifying twice with the same environment is the same as simplifying
    * once; in particular re-simplifying a fully folded Number is a no-op. */
  lemma SimplifyIdempotent(e: Expr, env: Env)
    ensures Simplify(Simplify(e, env), env) == Simplify(e, env)
  {
    SimplifyFolded(e, env);
    SimplifyFixpoint(Simplify(e, env), env);
  }

  /** Every Number simplify creates satisfies n >= 0, provided the input does and
    * the environment holds only nonnegative values. */
  lemma {:induction false} SimplifyValid(e: Expr, env: Env)
    requires Valid(e) && NonNegative(env)
    ensures Valid(Simplify(e, env))
  {
    match e
    case Number(_) =>
    case Variable(_) =>
    case Plus(l, r) =>
      SimplifyValid(l, env);
      SimplifyValid(r, env);
    case Times(l, r) =>
      SimplifyValid(l, env);
      SimplifyValid(r, env);
  }

  /** The simplification scenarios of the unit tests. */
  lemma SimplifyExamples()
    ensures Simplify(Variable("x"), map["x" := 1.0]) == Number(1.0)
    ensures Simplify(Plus(Number(1.0), Number(1.0)), map[]) == Number(2.0)
    ensures Simplify(Plus(Variable("x"), Number(5.0)), map["x" := 10.0]) == Number(15.0)
    ensures Simplify(Times(Variable("x"), Number(10.0)), map["x" := 10.0]) == Number(100.0)
    ensures Simplify(Plus(Plus(Variable("y"), Number(6.0)), Variable("x")), map["x" := 10.0, "y" := 20.0])
         == Number(36.0)
    ensures Simplify(Plus(Times(Number(2.0), Variable("x")), Variable("y")), map["x" := 10.0, "y" := 20.0])
         == Number(40.0)
    ensures Simplify(Plus(Variable("y"), Number(8.0)), map["x" := 3.0])
         == Plus(Variable("y"), Number(8.0))
    ensures Simplify(Plus(Plus(Variable("y"), Number(8.0)), Variable("x")), map["x" := 3.0])
         == Plus(Plus(Variable("y"), Number(8.0)), Number(3.0))
    ensures Simplify(Times(Plus(Variable("x"), Number(5.0)), Plus(Number(5.0), Variable("x"))), map["x" := 5.0])
         == Number(100.0)
    ensures Simplify(Plus(Times(Variable("x"), Number(5.0)), Times(Number(5.0), Variable("x"))), map["x" := 5.0])
         == Number(50.0)
  {
  }
}
