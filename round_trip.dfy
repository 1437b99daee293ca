/**
 * The documented promise of toString: for every expression e,
 * e.equals(parse(e.toString())). The parser here reads the grammar
 *   root ::= sum;  sum ::= product ('+' product)*;
 *   product ::= factor ('*' factor)*;  factor ::= number | variable | '(' sum ')'
 * over tokens and builds the concrete parse tree that buildAST consumes.
 */
module RoundTrip {
  import opened Wrappers
  import opened Expressions
  import opened AstBuilder
  import opened Printing

  /** A subtree parsed from a prefix of the tokens, and the tokens after it. */
  datatype Parsed = Parsed(tree: ParseTree, rest: seq<Token>)

  /** An inner node; buildAST reads the text of NUMBER and VARIABLE leaves only. */
  function Node(name: Symbol, kids: seq<ParseTree>): ParseTree {
    ParseTree(name, "", kids)
  }

  /** A tree the grammar derives: a ROOT over one SUM, a SUM over one or more
    * TIMES, a TIMES over one or more FACTORs, a FACTOR over one NUMBER,
    * VARIABLE or SUM, a NUMBER leaf of the shape digit+ ('.' digit+)? and a
    * VARIABLE leaf of the shape letter+. */
  predicate Sentence(t: ParseTree) {
    match t.name
    case ROOT => |t.children| == 1 && t.children[0].name == SUM && Sentence(t.children[0])
    case SUM => |t.children| > 0 && forall i :: 0 <= i < |t.children| ==>
      t.children[i].name == TIMES && Sentence(t.children[i])
    case TIMES => |t.children| > 0 && forall i :: 0 <= i < |t.children| ==>
      t.children[i].name == FACTOR && Sentence(t.children[i])
    case FACTOR => |t.children| == 1 && t.children[0].name in {NUMBER, VARIABLE, SUM}
      && Sentence(t.children[0])
    case NUMBER => ParseDecimal(t.contents).Some?
    case VARIABLE => IsName(t.contents)
    case WHITESPACE => false
  }

  /** Trees with the given symbol that the grammar derives. */
  predicate Operands(kids: seq<ParseTree>, name: Symbol) {
    forall i :: 0 <= i < |kids| ==> kids[i].name == name && Sentence(kids[i])
  }

  /** root ::= sum, with every token consumed. */
  function Parse(ts: seq<Token>): (r: Option<ParseTree>)
    ensures r.Some? ==> r.value.name == ROOT && Sentence(r.value)
  {
    match ParseSum(ts)
    case None => None
    case Some(p) => if p.rest == [] then Some(Node(ROOT, [p.tree])) else None
  }

  /** sum ::= product ('+' product)* */
  function ParseSum(ts: seq<Token>): (r: Option<Parsed>)
    ensures r.Some? ==> |r.value.rest| < |ts|
    ensures r.Some? ==> r.value.tree.name == SUM && Sentence(r.value.tree)
    decreases |ts|, 3
  {
    match ParseProduct(ts)
    case None => None
    case Some(p) => ParseTerms(p.rest, [p.tree])
  }

  /** The ('+' product)* loop, collecting the products of one SUM node. */
  function ParseTerms(ts: seq<Token>, acc: seq<ParseTree>): (r: Option<Parsed>)
    ensures r.Some? ==> |r.value.rest| <= |ts| && r.value.tree.name == SUM
    ensures r.Some? && |acc| > 0 && Operands(acc, TIMES) ==> Sentence(r.value.tree)
    decreases |ts|, 3
  {
    if |ts| > 0 && ts[0] == PlusTok then
      match ParseProduct(ts[1..])
      case None => None
      case Some(p) => ParseTerms(p.rest, acc + [p.tree])
    else Some(Parsed(Node(SUM, acc), ts))
  }

  /** product ::= factor ('*' factor)* */
  function ParseProduct(ts: seq<Token>): (r: Option<Parsed>)
    ensures r.Some? ==> |r.value.rest| < |ts|
    ensures r.Some? ==> r.value.tree.name == TIMES && Sentence(r.value.tree)
    decreases |ts|, 2
  {
    match ParseFactor(ts)
    case None => None
    case Some(f) => ParseFactors(f.rest, [f.tree])
  }

  /** The ('*' factor)* loop, collecting the factors of one TIMES node. */
  function ParseFactors(ts: seq<Token>, acc: seq<ParseTree>): (r: Option<Parsed>)
    ensures r.Some? ==> |r.value.rest| <= |ts| && r.value.tree.name == TIMES
    ensures r.Some? && |acc| > 0 && Operands(acc, FACTOR) ==> Sentence(r.value.tree)
    decreases |ts|, 2
  {
    if |ts| > 0 && ts[0] == TimesTok then
      match ParseFactor(ts[1..])
      case None => None
      case Some(f) => ParseFactors(f.rest, acc + [f.tree])
    else Some(Parsed(Node(TIMES, acc), ts))
  }

  /** factor ::= number | variable | '(' sum ')', where a number token must
    * have the shape digit+ ('.' digit+)? and a variable token the shape letter+. */
  function ParseFactor(ts: seq<Token>): (r: Option<Parsed>)
    ensures r.Some? ==> |r.value.rest| < |ts|
    ensures r.Some? ==> r.value.tree.name == FACTOR && Sentence(r.value.tree)
    decreases |ts|, 1
  {
    if |ts| == 0 then None
    else match ts[0]
      case NumTok(text) =>
        if ParseDecimal(text).Some?
        then Some(Parsed(Node(FACTOR, [ParseTree(NUMBER, text, [])]), ts[1..]))
        else None
      case VarTok(name) =>
        if IsName(name)
        then Some(Parsed(Node(FACTOR, [ParseTree(VARIABLE, name, [])]), ts[1..]))
        else None
      case LParen =>
        (match ParseSum(ts[1..])
         case None => None
         case Some(p) =>
           if |p.rest| > 0 && p.rest[0] == RParen
           then Some(Parsed(Node(FACTOR, [p.tree]), p.rest[1..]))
           else None)
      case _ => None
  }

  // ----- buildAST on the trees of the grammar -----

  /** buildAST accepts every tree the grammar derives, and builds an
    * expression satisfying the representation invariant. */
  lemma {:induction false} SentenceBuilds(t: ParseTree)
    requires Sentence(t)
    ensures Ast(t).Ok? && Valid(Ast(t).value)
    decreases t
  {
    match t.name
    case NUMBER =>
    case VARIABLE =>
    case FACTOR =>
      var c := t.children[0];
      SentenceBuilds(c);
      if c.name == NUMBER {
        FactorNumber(t, 0);
      } else if c.name == VARIABLE {
        FactorVariable(t, 0);
      } else {
        FactorSum(t, 0);
      }
    case TIMES =>
      OperandsBuild(t, FACTOR, TimesOp, EmptyTimes);
    case SUM =>
      OperandsBuild(t, TIMES, PlusOp, EmptySum);
    case ROOT =>
      SentenceBuilds(t.children[0]);
      FirstChildByName(t.children, SUM, 0);
      assert Ast(t) == RootAst(t);
  }

  /** A TIMES or SUM node over operands the grammar derives builds to the
    * left fold of their valid ASTs. */
  lemma {:induction false} OperandsBuild(t: ParseTree, child: Symbol, op: Op, empty: BuildError)
    requires |t.children| > 0 && Operands(t.children, child)
    ensures FoldOf(t, child, op, empty).Ok? && Valid(FoldOf(t, child, op, empty).value)
    decreases t, 0
  {
    var kids := t.children;
    forall i | 0 <= i < |kids|
      ensures Ast(kids[i]).Ok? && Valid(Ast(kids[i]).value)
    {
      SentenceBuilds(kids[i]);
    }
    var es := seq(|kids|, i requires 0 <= i < |kids| => Ast(kids[i]).value);
    AllByName(kids, child);
    FoldNode(t, child, op, empty, es);
    FoldPreservesValid(op, es);
  }

  /** Every token sequence the grammar accepts is read into a tree that
    * buildAST turns into a valid expression without an exception. */
  lemma ParsedBuilds(ts: seq<Token>)
    requires Parse(ts).Some?
    ensures Ast(Parse(ts).value).Ok?
    ensures Valid(Ast(Parse(ts).value).value)
  {
    SentenceBuilds(Parse(ts).value);
  }

  // ----- the parse trees of printed expressions -----

  /** The FACTOR trees of the operands along a product's left spine. */
  function FactorTrees(e: Expr, showNum: real -> string): (r: seq<ParseTree>)
    ensures |r| > 0
    decreases e, 1
  {
    if e.Times? then FactorTrees(e.left, showNum) + [OperandTree(e.right, showNum)]
    else [AtomTree(e, showNum)]
  }

  /** The FACTOR tree of a right operand: a Times operand sits in parentheses. */
  function OperandTree(x: Expr, showNum: real -> string): ParseTree
    decreases x, 2
  {
    if x.Times? then Node(FACTOR, [Node(SUM, [Node(TIMES, FactorTrees(x, showNum))])])
    else AtomTree(x, showNum)
  }

  /** The FACTOR tree of a Number, a Variable or a parenthesised Plus. */
  function AtomTree(x: Expr, showNum: real -> string): ParseTree
    requires !x.Times?
    decreases x, 0
  {
    match x
    case Number(n) => Node(FACTOR, [ParseTree(NUMBER, showNum(n), [])])
    case Variable(name) => Node(FACTOR, [ParseTree(VARIABLE, name, [])])
    case Plus(l, r) =>
      Node(FACTOR, [Node(SUM, [Node(TIMES, FactorTrees(l, showNum)), Node(TIMES, FactorTrees(r, showNum))])])
  }

  // ----- parsing printed tokens -----

  /** The ('*' factor)* loop stops at any token other than '*'. */
  lemma FactorsStop(ts: seq<Token>, acc: seq<ParseTree>)
    requires |ts| == 0 || ts[0] != TimesTok
    ensures ParseFactors(ts, acc) == Some(Parsed(Node(TIMES, acc), ts))
  {
  }

  /** The ('+' product)* loop stops at any token other than '+'. */
  lemma TermsStop(ts: seq<Token>, acc: seq<ParseTree>)
    requires |ts| == 0 || ts[0] != PlusTok
    ensures ParseTerms(ts, acc) == Some(Parsed(Node(SUM, acc), ts))
  {
  }

  /** A printed operand followed by anything parses as one factor. */
  lemma {:induction false} ParseOperand(x: Expr, showNum: real -> string, rest: seq<Token>)
    requires Valid(x) && Printable(x, showNum)
    ensures ParseFactor(OperandTokens(x, showNum) + rest) == Some(Parsed(OperandTree(x, showNum), rest))
    decreases x, 3
  {
    if x.Times? {
      var inner := Tokens(x, showNum);
      var after := [RParen] + rest;
      var ts := [LParen] + inner + [RParen] + rest;
      assert OperandTokens(x, showNum) + rest == ts;
      assert ts[0] == LParen;
      assert ts[1..] == inner + after;
      var tm := Node(TIMES, FactorTrees(x, showNum));
      ParseProductOf(x, showNum, after);
      FactorsStop(after, FactorTrees(x, showNum));
      assert ParseProduct(ts[1..]) == Some(Parsed(tm, after));
      TermsStop(after, [tm]);
      assert ParseSum(ts[1..]) == Some(Parsed(Node(SUM, [tm]), after));
      assert after[1..] == rest;
    } else {
      ParseAtom(x, showNum, rest);
    }
  }

  /** A printed Number, Variable or Plus followed by anything parses as one factor. */
  lemma {:induction false} ParseAtom(x: Expr, showNum: real -> string, rest: seq<Token>)
    requires !x.Times? && Valid(x) && Printable(x, showNum)
    ensures ParseFactor(Tokens(x, showNum) + rest) == Some(Parsed(AtomTree(x, showNum), rest))
    decreases x, 1
  {
    match x
    case Number(n) =>
      assert ([NumTok(showNum(n))] + rest)[1..] == rest;
    case Variable(name) =>
      assert ([VarTok(name)] + rest)[1..] == rest;
    case Plus(l, r) =>
      var tl, tr := Tokens(l, showNum), Tokens(r, showNum);
      var after := [RParen] + rest;
      var mid := [PlusTok] + tr + after;
      var ts := [LParen] + tl + [PlusTok] + tr + [RParen] + rest;
      assert Tokens(x, showNum) + rest == ts;
      assert ts[0] == LParen;
      assert ts[1..] == tl + mid;
      ParseSumOfPlus(l, r, showNum, after);
      assert after[1..] == rest;
  }

  /** The inside of a printed Plus, followed by tokens starting with ')', is one
    * sum with the two products of its operands. */
  lemma {:induction false} ParseSumOfPlus(l: Expr, r: Expr, showNum: real -> string, after: seq<Token>)
    requires Valid(l) && Printable(l, showNum) && Valid(r) && Printable(r, showNum)
    requires |after| > 0 && after[0] == RParen
    ensures ParseSum(Tokens(l, showNum) + ([PlusTok] + Tokens(r, showNum) + after))
         == Some(Parsed(Node(SUM, [Node(TIMES, FactorTrees(l, showNum)), Node(TIMES, FactorTrees(r, showNum))]), after))
    decreases Plus(l, r), 0
  {
    var tr := Tokens(r, showNum);
    var mid := [PlusTok] + tr + after;
    var pl, pr := Node(TIMES, FactorTrees(l, showNum)), Node(TIMES, FactorTrees(r, showNum));
    ParseProductOf(l, showNum, mid);
    FactorsStop(mid, FactorTrees(l, showNum));
    assert ParseSum(Tokens(l, showNum) + mid) == ParseTerms(mid, [pl]);
    ParseSecondTerm(r, showNum, after, [pl]);
    assert [pl] + [pr] == [pl, pr];
  }

  /** One more '+' product after acc, then ')' : the loop collects it and stops. */
  lemma {:induction false} ParseSecondTerm(r: Expr, showNum: real -> string, after: seq<Token>, acc: seq<ParseTree>)
    requires Valid(r) && Printable(r, showNum)
    requires |after| > 0 && after[0] == RParen
    ensures ParseTerms([PlusTok] + Tokens(r, showNum) + after, acc)
         == Some(Parsed(Node(SUM, acc + [Node(TIMES, FactorTrees(r, showNum))]), after))
    decreases r, 3
  {
    var mid := [PlusTok] + Tokens(r, showNum) + after;
    var pr := Node(TIMES, FactorTrees(r, showNum));
    assert mid[0] == PlusTok;
    assert mid[1..] == Tokens(r, showNum) + after;
    ParseProductOf(r, showNum, after);
    FactorsStop(after, FactorTrees(r, showNum));
    assert ParseProduct(mid[1..]) == Some(Parsed(pr, after));
    TermsStop(after, acc + [pr]);
  }

  /** A printed expression followed by anything is read by product as the
    * factors of its left spine, after which the ('*' factor)* loop goes on. */
  lemma {:induction false} ParseProductOf(e: Expr, showNum: real -> string, rest: seq<Token>)
    requires Valid(e) && Printable(e, showNum)
    ensures ParseProduct(Tokens(e, showNum) + rest) == ParseFactors(rest, FactorTrees(e, showNum))
    decreases e, 2
  {
    if e.Times? {
      var tl, to := Tokens(e.left, showNum), OperandTokens(e.right, showNum);
      assert Tokens(e, showNum) + rest == tl + ([TimesTok] + to + rest);
      ParseProductOf(e.left, showNum, [TimesTok] + to + rest);
      assert ([TimesTok] + to + rest)[1..] == to + rest;
      ParseOperand(e.right, showNum, rest);
    } else {
      ParseAtom(e, showNum, rest);
    }
  }

  /** The printed tokens of every valid expression whose numbers print in the
    * NUMBER shape are a sentence of the grammar, read to the expected tree. */
  lemma ParsePrinted(e: Expr, showNum: real -> string)
    requires Valid(e) && Printable(e, showNum)
    ensures Parse(Tokens(e, showNum))
         == Some(Node(ROOT, [Node(SUM, [Node(TIMES, FactorTrees(e, showNum))])]))
  {
    var ts := Tokens(e, showNum);
    var tm := Node(TIMES, FactorTrees(e, showNum));
    ParseProductOf(e, showNum, []);
    assert ts + [] == ts;
    FactorsStop([], FactorTrees(e, showNum));
    TermsStop([], [tm]);
    assert ParseSum(ts) == Some(Parsed(Node(SUM, [tm]), []));
  }

  // ----- building the AST of the expected trees -----

  /** Every number prints in the NUMBER shape, as a text that reads back as
    * the same value. */
  predicate Printable(e: Expr, showNum: real -> string) {
    match e
    case Number(n) => ParseDecimal(showNum(n)) == Some(n)
    case Variable(_) => true
    case Plus(l, r) => Printable(l, showNum) && Printable(r, showNum)
    case Times(l, r) => Printable(l, showNum) && Printable(r, showNum)
  }

  /** childrenByName returns all children when they all carry the symbol. */
  lemma {:induction false} AllByName(kids: seq<ParseTree>, name: Symbol)
    requires forall i :: 0 <= i < |kids| ==> kids[i].name == name
    ensures ChildrenByName(kids, name) == kids
  {
    if |kids| > 0 {
      AllByName(kids[1..], name);
      assert kids == [kids[0]] + kids[1..];
    }
  }

  /** A SUM or TIMES node whose children are operands building to es folds them. */
  lemma NodeFolds(t: ParseTree, child: Symbol, op: Op, empty: BuildError, es: seq<Expr>)
    requires forall i :: 0 <= i < |t.children| ==> t.children[i].name == child
    requires |es| == |t.children| > 0
    requires forall i :: 0 <= i < |es| ==> Ast(t.children[i]) == Ok(es[i])
    ensures FoldOf(t, child, op, empty) == Ok(Fold(op, es))
  {
    AllByName(t.children, child);
    FoldNode(t, child, op, empty, es);
  }

  /** The TIMES node of a printed expression builds back to it. */
  lemma {:induction false} AstProduct(e: Expr, showNum: real -> string)
    requires Printable(e, showNum)
    ensures Ast(Node(TIMES, FactorTrees(e, showNum))) == Ok(e)
    decreases e, 3
  {
    var fs := FactorTrees(e, showNum);
    var sp := Spine(TimesOp, e);
    AstFactors(e, showNum);
    NodeFolds(Node(TIMES, fs), FACTOR, TimesOp, EmptyTimes, sp);
    FoldOfSpine(TimesOp, e);
  }

  /** Each spine factor tree builds back to its spine operand. */
  lemma {:induction false} AstFactors(e: Expr, showNum: real -> string)
    requires Printable(e, showNum)
    ensures |FactorTrees(e, showNum)| == |Spine(TimesOp, e)|
    ensures forall i :: 0 <= i < |FactorTrees(e, showNum)| ==> FactorTrees(e, showNum)[i].name == FACTOR
    ensures forall i :: 0 <= i < |FactorTrees(e, showNum)| ==>
      Ast(FactorTrees(e, showNum)[i]) == Ok(Spine(TimesOp, e)[i])
    decreases e, 2
  {
    if e.Times? {
      AstFactors(e.left, showNum);
      AstOperand(e.right, showNum);
    } else {
      AstAtom(e, showNum);
    }
  }

  lemma {:induction false} AstOperand(x: Expr, showNum: real -> string)
    requires Printable(x, showNum)
    ensures OperandTree(x, showNum).name == FACTOR
    ensures Ast(OperandTree(x, showNum)) == Ok(x)
    decreases x, 4
  {
    if x.Times? {
      var tm := Node(TIMES, FactorTrees(x, showNum));
      var sm := Node(SUM, [tm]);
      AstProduct(x, showNum);
      SingleOperand(sm, TIMES, PlusOp, EmptySum);
      FactorSum(OperandTree(x, showNum), 0);
    } else {
      AstAtom(x, showNum);
    }
  }

  lemma {:induction false} AstAtom(x: Expr, showNum: real -> string)
    requires !x.Times? && Printable(x, showNum)
    ensures AtomTree(x, showNum).name == FACTOR
    ensures Ast(AtomTree(x, showNum)) == Ok(x)
    decreases x, 1
  {
    var f := AtomTree(x, showNum);
    match x
    case Number(n) =>
      FactorNumber(f, 0);
    case Variable(name) =>
      FactorVariable(f, 0);
    case Plus(l, r) =>
      var sm := f.children[0];
      AstProduct(l, showNum);
      AstProduct(r, showNum);
      NodeFolds(sm, TIMES, PlusOp, EmptySum, [l, r]);
      FactorSum(f, 0);
  }

  /** parse(toString(e)) equals e: the corrected printer's tokens parse, and
    * buildAST returns the expression back, for every expression whose
    * numbers print as decimals that read back as the same value. */
  lemma RoundTrips(e: Expr, showNum: real -> string)
    requires Valid(e) && Printable(e, showNum)
    ensures Render(Tokens(e, showNum)) == ToString(e, showNum)
    ensures Parse(Tokens(e, showNum)).Some?
    ensures Ast(Parse(Tokens(e, showNum)).value) == Ok(e)
  {
    RenderTokens(e, showNum);
    ParsePrinted(e, showNum);
    var tm := Node(TIMES, FactorTrees(e, showNum));
    var sm := Node(SUM, [tm]);
    AstProduct(e, showNum);
    SingleOperand(sm, TIMES, PlusOp, EmptySum);
    ParenthesesTransparent(sm, [], []);
    assert [] + [sm] + [] == [sm];
  }

  // ----- the printer as written -----

  /** x*(y*z), which the grammar reads as a product whose right factor is a
    * parenthesised product. */
  const Nested := Times(Variable("x"), Times(Variable("y"), Variable("z")))

  /** x*y*z, which the grammar reads as a left-folded product of three factors. */
  const Flat := Times(Times(Variable("x"), Variable("y")), Variable("z"))

  /** The two products print alike as written, and differently once corrected. */
  lemma MisprintedText(showNum: real -> string)
    ensures ToStringAsWritten(Nested, showNum) == "x*y*z"
    ensures ToString(Flat, showNum) == "x*y*z"
    ensures ToString(Nested, showNum) == "x*(y*z)"
  {
  }

  /** Printed as written, a product whose right operand is a product loses its
    * parentheses: Nested, which is what x*(y*z) builds, prints as x*y*z, and
    * the tokens of x*y*z build Flat, a different expression. So
    * parse(toString(e)) equals e fails at e = Nested. */
  lemma RightNestedTimesMisprinted(showNum: real -> string)
    ensures Render(Tokens(Nested, showNum)) == "x*(y*z)"
    ensures Parse(Tokens(Nested, showNum)).Some?
    ensures Ast(Parse(Tokens(Nested, showNum)).value) == Ok(Nested)
    ensures Render(Tokens(Flat, showNum)) == ToStringAsWritten(Nested, showNum)
    ensures Parse(Tokens(Flat, showNum)).Some?
    ensures Ast(Parse(Tokens(Flat, showNum)).value) == Ok(Flat)
    ensures Flat != Nested
  {
    MisprintedText(showNum);
    RoundTrips(Nested, showNum);
    RoundTrips(Flat, showNum);
  }

  /** Wherever no product has a product as its right operand, the printer as
    * written does keep the documented promise: its text is the printed tokens,
    * which parse and build back to the expression. */
  lemma AsWrittenRoundTrips(e: Expr, showNum: real -> string)
    requires Valid(e) && Printable(e, showNum) && NoRightNestedTimes(e)
    ensures Render(Tokens(e, showNum)) == ToStringAsWritten(e, showNum)
    ensures Parse(Tokens(e, showNum)).Some?
    ensures Ast(Parse(Tokens(e, showNum)).value) == Ok(e)
  {
    PrintersAgree(e, showNum);
    RoundTrips(e, showNum);
  }

  // ----- numbers printed in scientific notation -----

  /** Ten million, the least whole value Double.toString writes in
    * scientific notation, as 1.0E7. */
  const TenMillion: real := 10000000.0

  /** Printed as written, Number(10^7), which satisfies the representation
    * invariant, is the text 1.0E7. That text is not a NUMBER, so the grammar
    * rejects it and parse(toString(e)) fails there before buildAST runs. */
  lemma ScientificNotReadBack(showNum: real -> string)
    requires showNum(TenMillion) == "1.0E7"
    ensures Valid(Number(TenMillion))
    ensures Tokens(Number(TenMillion), showNum) == [NumTok("1.0E7")]
    ensures Parse(Tokens(Number(TenMillion), showNum)) == None
  {
    ScientificTextRejected();
    var ts := Tokens(Number(TenMillion), showNum);
    assert ParseFactor(ts) == None;
    assert ParseProduct(ts) == None;
    assert ParseSum(ts) == None;
  }

  /** The text 10000000 is a sentence of the grammar, and buildAST reads it as
    * Number(10^7): the expression that prints as 1.0E7 is one parse builds. */
  lemma TenMillionParsed()
    ensures Parse([NumTok("10000000")]).Some?
    ensures Ast(Parse([NumTok("10000000")]).value) == Ok(Number(TenMillion))
  {
    var s := "10000000";
    TenMillionDigits();
    var ts := [NumTok(s)];
    var leaf := ParseTree(NUMBER, s, []);
    var f := Node(FACTOR, [leaf]);
    assert ParseFactor(ts) == Some(Parsed(f, []));
    var tm := Node(TIMES, [f]);
    var sm := Node(SUM, [tm]);
    FactorsStop([], [f]);
    assert ParseProduct(ts) == Some(Parsed(tm, []));
    TermsStop([], [tm]);
    assert Parse(ts) == Some(Node(ROOT, [sm]));
    FactorNumber(f, 0);
    SingleOperand(tm, FACTOR, TimesOp, EmptyTimes);
    SingleOperand(sm, TIMES, PlusOp, EmptySum);
    ParenthesesTransparent(sm, [], []);
    assert [] + [sm] + [] == [sm];
  }

  lemma TenMillionDigits()
    ensures ParseDecimal("10000000") == Some(TenMillion)
  {
    var s := "10000000";
    assert DigitsValue(s[..1]) == 1 by { assert s[..1][..0] == ""; }
    assert DigitsValue(s[..2]) == 10 by { assert s[..2][..1] == s[..1]; }
    assert DigitsValue(s[..3]) == 100 by { assert s[..3][..2] == s[..2]; }
    assert DigitsValue(s[..4]) == 1000 by { assert s[..4][..3] == s[..3]; }
    assert DigitsValue(s[..5]) == 10000 by { assert s[..5][..4] == s[..4]; }
    assert DigitsValue(s[..6]) == 100000 by { assert s[..6][..5] == s[..5]; }
    assert DigitsValue(s[..7]) == 1000000 by { assert s[..7][..6] == s[..6]; }
    assert s[..8] == s;
    assert IsDigits(s);
  }

  /** The text 1.0E7 is not of the NUMBER shape digit+ ('.' digit+)?. */
  lemma ScientificTextRejected()
    ensures ParseDecimal("1.0E7") == None
  {
    assert DotIndex("1.0E7") == Some(1) by { DotIndexAt("1.0E7", 1); }
    assert "1.0E7"[..1] == "1" && "1.0E7"[2..] == "0E7";
    assert "0E7"[1] == 'E';
  }

  /** The decimal digits of a natural number, most significant first. */
  function NatDigits(n: nat): (r: string)
    ensures IsDigits(r) && DigitsValue(r) == n
  {
    var d := ('0' as int + n % 10) as char;
    if n < 10 then [d]
    else
      var hs := NatDigits(n / 10);
      assert (hs + [d])[..|hs|] == hs;
      hs + [d]
  }

  /** A number printer that writes a whole value as its plain digits and ".0",
    * never in scientific notation, and any other value as showNum does. */
  function WholeShow(showNum: real -> string, n: real): (r: string)
    ensures 0.0 <= n && n == n.Floor as real ==> ParseDecimal(r) == Some(n)
    ensures !(0.0 <= n && n == n.Floor as real) ==> r == showNum(n)
  {
    if 0.0 <= n && n == n.Floor as real then
      PlainWholeReadsBack(n.Floor as nat);
      NatDigits(n.Floor as nat) + ".0"
    else showNum(n)
  }

  /** The plain digits of a natural number followed by ".0" read back as it. */
  lemma PlainWholeReadsBack(n: nat)
    ensures ParseDecimal(NatDigits(n) + ".0") == Some(n as real)
  {
    var ds := NatDigits(n);
    assert ds + ".0" == ds + "." + "0";
    ParseDecimalValue(ds, "0");
    assert DigitsValue("0") == 0 by { assert "0"[..0] == ""; }
    DecimalOfWhole(n);
  }

  lemma DecimalOfWhole(n: nat)
    ensures Decimal(n, 0, 1) == n as real
  {
    assert Pow10(1) == 10;
  }

  /** Every number of e is a whole value. */
  predicate WholeNumbers(e: Expr) {
    match e
    case Number(n) => n == n.Floor as real
    case Variable(_) => true
    case Plus(l, r) => WholeNumbers(l) && WholeNumbers(r)
    case Times(l, r) => WholeNumbers(l) && WholeNumbers(r)
  }

  /** With whole numbers printed plainly, every valid expression with whole
    * numbers, 10^7 and beyond included, keeps the round trip. */
  lemma {:induction false} WholeNumbersRoundTrip(e: Expr, showNum: real -> string)
    requires Valid(e) && WholeNumbers(e)
    ensures Printable(e, n => WholeShow(showNum, n))
    ensures Parse(Tokens(e, n => WholeShow(showNum, n))).Some?
    ensures Ast(Parse(Tokens(e, n => WholeShow(showNum, n))).value) == Ok(e)
  {
    WholeNumbersPrintable(e, showNum);
    RoundTrips(e, n => WholeShow(showNum, n));
  }

  lemma {:induction false} WholeNumbersPrintable(e: Expr, showNum: real -> string)
    requires Valid(e) && WholeNumbers(e)
    ensures Printable(e, n => WholeShow(showNum, n))
  {
    match e
    case Number(n) =>
    case Variable(_) =>
    case Plus(l, r) =>
      WholeNumbersPrintable(l, showNum);
      WholeNumbersPrintable(r, showNum);
    case Times(l, r) =>
      WholeNumbersPrintable(l, showNum);
      WholeNumbersPrintable(r, showNum);
  }
}
