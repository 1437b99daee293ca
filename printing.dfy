/**
 * toString: the printed form of an expression. A Number prints as
 * Double.toString of its value, a Variable as its name, a Plus as
 * "(" left "+" right ")" and a Times as left "*" right with no parentheses.
 * Double.toString is not modelled; it is the parameter showNum.
 */
module Printing {
  import opened Expressions

  /** toString as the classes implement it: Number, Variable and Plus as their
    * toString methods write them; the Times case, whose class is not part of
    * this model, prints without parentheses as the unit tests show. */
  function ToStringAsWritten(e: Expr, showNum: real -> string): string {
    match e
    case Number(n) => showNum(n)
    case Variable(name) => name
    case Plus(l, r) => "(" + ToStringAsWritten(l, showNum) + "+" + ToStringAsWritten(r, showNum) + ")"
    case Times(l, r) => ToStringAsWritten(l, showNum) + "*" + ToStringAsWritten(r, showNum)
  }

  /** toString with the one correction that makes it parse back: a right
    * operand of a Times that is itself a Times is parenthesised. */
  function ToString(e: Expr, showNum: real -> string): string
    decreases e, 0
  {
    match e
    case Number(n) => showNum(n)
    case Variable(name) => name
    case Plus(l, r) => "(" + ToString(l, showNum) + "+" + ToString(r, showNum) + ")"
    case Times(l, r) => ToString(l, showNum) + "*" + OperandString(r, showNum)
  }

  function OperandString(r: Expr, showNum: real -> string): string
    decreases r, 1
  {
    if r.Times? then "(" + ToString(r, showNum) + ")" else ToString(r, showNum)
  }

  /** No Times has a Times as its right operand. */
  predicate NoRightNestedTimes(e: Expr) {
    match e
    case Number(_) => true
    case Variable(_) => true
    case Plus(l, r) => NoRightNestedTimes(l) && NoRightNestedTimes(r)
    case Times(l, r) => NoRightNestedTimes(l) && NoRightNestedTimes(r) && !r.Times?
  }

  /** The correction changes nothing on expressions without a right-nested
    * Times; only a parenthesised product as right operand prints differently. */
  lemma {:induction false} PrintersAgree(e: Expr, showNum: real -> string)
    requires NoRightNestedTimes(e)
    ensures ToString(e, showNum) == ToStringAsWritten(e, showNum)
  {
    match e
    case Number(_) =>
    case Variable(_) =>
    case Plus(l, r) =>
      PrintersAgree(l, showNum);
      PrintersAgree(r, showNum);
    case Times(l, r) =>
      PrintersAgree(l, showNum);
      PrintersAgree(r, showNum);
  }

  // ----- the printed form as a sequence of grammar tokens -----

  /** The terminals of the expression grammar. */
  datatype Token = NumTok(text: string) | VarTok(name: string) | PlusTok | TimesTok | LParen | RParen

  function TokenText(tk: Token): string {
    match tk
    case NumTok(text) => text
    case VarTok(name) => name
    case PlusTok => "+"
    case TimesTok => "*"
    case LParen => "("
    case RParen => ")"
  }

  /** The text of a token sequence, written with no whitespace. */
  function Render(ts: seq<Token>): string {
    if |ts| == 0 then "" else TokenText(ts[0]) + Render(ts[1..])
  }

  lemma {:induction false} RenderAppend(a: seq<Token>, b: seq<Token>)
    ensures Render(a + b) == Render(a) + Render(b)
  {
    if |a| == 0 {
      assert a + b == b;
    } else {
      assert (a + b)[0] == a[0];
      assert (a + b)[1..] == a[1..] + b;
      RenderAppend(a[1..], b);
    }
  }

  /** The tokens the corrected toString writes. */
  function Tokens(e: Expr, showNum: real -> string): seq<Token>
    decreases e, 0
  {
    match e
    case Number(n) => [NumTok(showNum(n))]
    case Variable(name) => [VarTok(name)]
    case Plus(l, r) => [LParen] + Tokens(l, showNum) + [PlusTok] + Tokens(r, showNum) + [RParen]
    case Times(l, r) => Tokens(l, showNum) + [TimesTok] + OperandTokens(r, showNum)
  }

  function OperandTokens(r: Expr, showNum: real -> string): seq<Token>
    decreases r, 1
  {
    if r.Times? then [LParen] + Tokens(r, showNum) + [RParen] else Tokens(r, showNum)
  }

  /** The corrected toString is the text of its token sequence. */
  lemma {:induction false} RenderTokens(e: Expr, showNum: real -> string)
    ensures Render(Tokens(e, showNum)) == ToString(e, showNum)
    decreases e, 0
  {
    match e
    case Number(_) =>
    case Variable(_) =>
    case Plus(l, r) =>
      RenderTokens(l, showNum);
      RenderTokens(r, showNum);
      RenderAppend([LParen] + Tokens(l, showNum) + [PlusTok] + Tokens(r, showNum), [RParen]);
      RenderAppend([LParen] + Tokens(l, showNum) + [PlusTok], Tokens(r, showNum));
      RenderAppend([LParen] + Tokens(l, showNum), [PlusTok]);
      RenderAppend([LParen], Tokens(l, showNum));
    case Times(l, r) =>
      RenderTokens(l, showNum);
      RenderOperand(r, showNum);
      RenderAppend(Tokens(l, showNum) + [TimesTok], OperandTokens(r, showNum));
      RenderAppend(Tokens(l, showNum), [TimesTok]);
  }

  lemma {:induction false} RenderOperand(r: Expr, showNum: real -> string)
    ensures Render(OperandTokens(r, showNum)) == OperandString(r, showNum)
    decreases r, 1
  {
    RenderTokens(r, showNum);
    if r.Times? {
      RenderAppend([LParen] + Tokens(r, showNum), [RParen]);
      RenderAppend([LParen], Tokens(r, showNum));
    }
  }

  /** Double.toString on the values the unit tests print. */
  predicate ShowsTestValues(showNum: real -> string) {
    showNum(0.0) == "0.0" && showNum(1.0) == "1.0" && showNum(3.0) == "3.0" && showNum(4.0) == "4.0"
    && showNum(5.0) == "5.0" && showNum(7.0) == "7.0" && showNum(8.0) == "8.0"
  }

  /** The printing scenarios of the unit tests: sums are parenthesised, by the
    * printer as written and by the corrected one alike. */
  lemma PrintSumExamples(showNum: real -> string)
    requires ShowsTestValues(showNum)
    ensures ToStringAsWritten(Plus(Number(5.0), Number(5.0)), showNum) == "(5.0+5.0)"
    ensures ToStringAsWritten(Plus(Number(3.0), Variable("x")), showNum) == "(3.0+x)"
    ensures ToStringAsWritten(Plus(Plus(Variable("y"), Number(8.0)), Number(3.0)), showNum) == "((y+8.0)+3.0)"
    ensures ToString(Plus(Plus(Variable("y"), Number(8.0)), Number(3.0)), showNum) == "((y+8.0)+3.0)"
  {
  }

  /** Products are not parenthesised, inside or outside a sum, by either printer. */
  lemma PrintProductExamples(showNum: real -> string)
    requires ShowsTestValues(showNum)
    ensures ToStringAsWritten(Times(Number(4.0), Number(5.0)), showNum) == "4.0*5.0"
    ensures ToStringAsWritten(Times(Plus(Number(3.0), Number(5.0)), Number(7.0)), showNum) == "(3.0+5.0)*7.0"
    ensures ToStringAsWritten(Plus(Times(Number(8.0), Number(1.0)), Times(Variable("x"), Number(0.0))), showNum)
         == "(8.0*1.0+x*0.0)"
    ensures ToString(Plus(Times(Number(8.0), Number(1.0)), Times(Variable("x"), Number(0.0))), showNum)
         == "(8.0*1.0+x*0.0)"
  {
  }
}
