/**
 * equals and hashCode: ordered structural equality (a Plus equals only a Plus
 * with equal left and equal right children, never the swapped pair) and a hash
 * code consistent with it, computed in 32-bit two's-complement arithmetic.
 */
module Equality {
  import opened Expressions

  /** Java's int. */
  type Int32 = x: int | -0x8000_0000 <= x < 0x8000_0000

  /** Two's-complement wrap-around of an exact integer into an int. */
  function Wrap32(x: int): (r: Int32)
    ensures (r - x) % 0x1_0000_0000 == 0
  {
    var m := x % 0x1_0000_0000;
    if m < 0x8000_0000 then m else m - 0x1_0000_0000
  }

  /** equals: same variant and, recursively, equal fields. Numbers compare their
    * stored values numerically, names compare with exact, case-sensitive String.equals. */
  predicate Equals(a: Expr, b: Expr) {
    match a
    case Number(n) => b.Number? && n == b.n
    case Variable(name) => b.Variable? && name == b.name
    case Plus(l, r) => b.Plus? && Equals(l, b.left) && Equals(r, b.right)
    case Times(l, r) => b.Times? && Equals(l, b.left) && Equals(r, b.right)
  }

  /** equals is exactly equality of trees: in particular it is reflexive,
    * symmetric and transitive, and a Plus is not equal to its mirror image. */
  lemma {:induction false} EqualsIsIdentity(a: Expr, b: Expr)
    ensures Equals(a, b) <==> a == b
  {
    match a
    case Number(_) =>
    case Variable(_) =>
    case Plus(l, r) =>
      if b.Plus? {
        EqualsIsIdentity(l, b.left);
        EqualsIsIdentity(r, b.right);
      }
    case Times(l, r) =>
      if b.Times? {
        EqualsIsIdentity(l, b.left);
        EqualsIsIdentity(r, b.right);
      }
  }

  /** Plus equality is ordered: Plus(a, b) equals Plus(b, a) only when a equals b. */
  lemma PlusOrdered(a: Expr, b: Expr)
    ensures Equals(Plus(a, b), Plus(b, a)) <==> Equals(a, b)
  {
    EqualsIsIdentity(Plus(a, b), Plus(b, a));
    EqualsIsIdentity(a, b);
  }

  /** String.hashCode: s[0]*31^(n-1) + ... + s[n-1] in int arithmetic. */
  function StringHash(s: string): Int32 {
    if |s| == 0 then 0 else Wrap32(31 * StringHash(s[..|s| - 1]) + s[|s| - 1] as int)
  }

  /** The hash functions this model does not fix: Double.hashCode for a
    * Number's value, and how a Times combines its children's hashes. */
  datatype Hashers = Hashers(number: real -> Int32, times: (Int32, Int32) -> Int32)

  /** hashCode: a Number hashes its value, a Variable its name, a Plus the
    * int sum of its children's hashes. */
  function HashCode(e: Expr, h: Hashers): Int32 {
    match e
    case Number(n) => h.number(n)
    case Variable(name) => StringHash(name)
    case Plus(l, r) => Wrap32(HashCode(l, h) + HashCode(r, h))
    case Times(l, r) => h.times(HashCode(l, h), HashCode(r, h))
  }

  /** hashCode is consistent with equals, for all e1 and e2. */
  lemma EqualsHash(e1: Expr, e2: Expr, h: Hashers)
    requires Equals(e1, e2)
    ensures HashCode(e1, h) == HashCode(e2, h)
  {
    EqualsIsIdentity(e1, e2);
  }

  /** A Plus hashes to the sum of its children's hashes modulo 2^32, so the
    * hash ignores the order that equals respects. */
  lemma PlusHash(l: Expr, r: Expr, h: Hashers)
    ensures (HashCode(Plus(l, r), h) - HashCode(l, h) - HashCode(r, h)) % 0x1_0000_0000 == 0
    ensures HashCode(Plus(l, r), h) == HashCode(Plus(r, l), h)
  {
  }

  /** The equality and hash scenarios of the unit tests. */
  lemma EqualityExamples(h: Hashers)
    ensures Equals(Variable("x"), Variable("x"))
    ensures !Equals(Variable("x"), Variable("z"))
    ensures !Equals(Variable("x"), Variable("X"))
    ensures HashCode(Variable("x"), h) == 120 && HashCode(Variable("z"), h) == 122
    ensures Equals(Number(5.0), Number(5 as real))
    ensures HashCode(Number(5.0), h) == HashCode(Number(5 as real), h)
    ensures Equals(Plus(Number(5.0), Number(5.0)), Plus(Number(5.0), Number(5.0)))
    ensures Equals(Times(Number(5.0), Number(5.0)), Times(Number(5.0), Number(5.0)))
    ensures !Equals(Plus(Variable("x"), Number(1.0)), Plus(Number(1.0), Variable("x")))
    ensures !Equals(Plus(Number(1.0), Number(2.0)), Times(Number(1.0), Number(2.0)))
  {
    assert "x"[..0] == [] && "z"[..0] == [];
  }
}
