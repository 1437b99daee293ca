/**
 * The expression abstract data type of expressivo: an immutable, closed
 * four-variant tree of nonnegative numbers, variables, sums and products,
 * together with its representation invariant, the set of variables it
 * mentions and its arithmetic meaning under an environment.
 */
module Expressions {

  /** Expression = Number(n) + Variable(name) + Plus(left, right) + Times(left, right).
    * Numbers are modelled as mathematical reals rather than IEEE doubles. */
  datatype Expr =
    | Number(n: real)
    | Variable(name: string)
    | Plus(left: Expr, right: Expr)
    | Times(left: Expr, right: Expr)

  /** An environment maps variable names to values, as Map<String, Double> does. */
  type Env = map<string, real>

  predicate IsLetter(c: char) {
    'a' <= c <= 'z' || 'A' <= c <= 'Z'
  }

  /** A variable name is a nonempty string of letters. */
  predicate IsName(s: string) {
    |s| > 0 && forall i :: 0 <= i < |s| ==> IsLetter(s[i])
  }

  /** The representation invariant of every node: a Number holds n >= 0 and a
    * Variable holds a nonempty string of letters, recursively. */
  predicate Valid(e: Expr) {
    match e
    case Number(n) => n >= 0.0
    case Variable(name) => IsName(name)
    case Plus(l, r) => Valid(l) && Valid(r)
    case Times(l, r) => Valid(l) && Valid(r)
  }

  /** The variable names occurring in an expression. */
  function Vars(e: Expr): set<string> {
    match e
    case Number(_) => {}
    case Variable(name) => {name}
    case Plus(l, r) => Vars(l) + Vars(r)
    case Times(l, r) => Vars(l) + Vars(r)
  }

  /** Every value in the environment is nonnegative, so a Number built from one is valid. */
  predicate NonNegative(env: Env) {
    forall k :: k in env ==> env[k] >= 0.0
  }

  /** The arithmetic meaning of an expression whose variables are all bound. */
  function Eval(e: Expr, env: Env): real
    requires Vars(e) <= env.Keys
  {
    match e
    case Number(n) => n
    case Variable(name) => env[name]
    case Plus(l, r) => Eval(l, env) + Eval(r, env)
    case Times(l, r) => Mul(Eval(l, env), Eval(r, env))
  }

  /** The product of two values. It is a named operation so that products of
    * equal factors are recognised as equal without arithmetic reasoning. */
  function Mul(a: real, b: real): real {
    a * b
  }

  /** A valid expression evaluated under nonnegative values is nonnegative. */
  lemma {:induction false} EvalNonNegative(e: Expr, env: Env)
    requires Valid(e) && NonNegative(env) && Vars(e) <= env.Keys
    ensures Eval(e, env) >= 0.0
  {
    match e
    case Number(_) =>
    case Variable(_) =>
    case Plus(l, r) =>
      EvalNonNegative(l, env);
      EvalNonNegative(r, env);
    case Times(l, r) =>
      EvalNonNegative(l, env);
      EvalNonNegative(r, env);
  }
}
