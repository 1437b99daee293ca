/**
 * buildAST: the conversion of a concrete parse tree, as the grammar's parser
 * produces it, into an Expression. Grammar-only nodes (ROOT, FACTOR, a SUM or
 * TIMES with one operand) are collapsed, and the operands of a SUM or TIMES
 * are left-folded into nested Plus or Times nodes.
 */
module AstBuilder {
  import opened Wrappers
  import opened Expressions

  /** The grammar's nonterminals, ExpressionGrammar. */
  datatype Symbol = ROOT | FACTOR | SUM | TIMES | NUMBER | VARIABLE | WHITESPACE

  /** A parse-tree node: its grammar symbol, the text it matched, and its
    * children in order. */
  datatype ParseTree = ParseTree(name: Symbol, contents: string, children: seq<ParseTree>)

  /** The exception buildAST ends with. */
  datatype BuildError =
    | NumberFormat(text: string)  // Double.parseDouble rejects a NUMBER's text
    | NoChild(symbol: Symbol)     // childrenByName(symbol).get(0) on an empty list
    | EmptyTimes                  // a TIMES node without a FACTOR child
    | EmptySum                    // a SUM node without a TIMES child
    | WhitespaceNode              // buildAST called on WHITESPACE

  /** childrenByName: the children carrying the given symbol, in order. */
  function ChildrenByName(kids: seq<ParseTree>, name: Symbol): seq<ParseTree> {
    if |kids| == 0 then []
    else (if kids[0].name == name then [kids[0]] else []) + ChildrenByName(kids[1..], name)
  }

  /** childrenByName keeps exactly the children with the symbol. */
  lemma {:induction false} ChildrenByNameMembers(kids: seq<ParseTree>, name: Symbol)
    ensures forall c :: c in ChildrenByName(kids, name) <==> c in kids && c.name == name
  {
    if |kids| > 0 {
      ChildrenByNameMembers(kids[1..], name);
      assert kids == [kids[0]] + kids[1..];
    }
  }

  /** Each child childrenByName returns is a child of the node. */
  lemma ChildOf(kids: seq<ParseTree>, name: Symbol, i: nat)
    requires i < |ChildrenByName(kids, name)|
    ensures ChildrenByName(kids, name)[i] in kids
  {
    ChildrenByNameMembers(kids, name);
  }

  /** With no child carrying the symbol, childrenByName is empty. */
  lemma NoChildByName(kids: seq<ParseTree>, name: Symbol)
    requires forall c :: c in kids ==> c.name != name
    ensures ChildrenByName(kids, name) == []
  {
    ChildrenByNameMembers(kids, name);
    if ChildrenByName(kids, name) != [] {
      assert ChildrenByName(kids, name)[0] in ChildrenByName(kids, name);
    }
  }

  /** The first child with a given symbol is the first element childrenByName
    * returns, and there is none exactly when the list is empty. */
  lemma {:induction false} FirstChildByName(kids: seq<ParseTree>, name: Symbol, i: nat)
    requires i < |kids| && kids[i].name == name
    requires forall j :: 0 <= j < i ==> kids[j].name != name
    ensures |ChildrenByName(kids, name)| > 0 && ChildrenByName(kids, name)[0] == kids[i]
  {
    if i > 0 {
      FirstChildByName(kids[1..], name, i - 1);
    }
  }

  // ----- Double.parseDouble on the grammar's number syntax -----

  predicate IsDigit(c: char) {
    '0' <= c <= '9'
  }

  predicate IsDigits(s: string) {
    |s| > 0 && forall i :: 0 <= i < |s| ==> IsDigit(s[i])
  }

  function DigitsValue(s: string): nat
    requires forall i :: 0 <= i < |s| ==> IsDigit(s[i])
  {
    if |s| == 0 then 0
    else
      var d := s[|s| - 1];
      assert IsDigit(d);
      DigitsValue(s[..|s| - 1]) * 10 + (d as int - '0' as int)
  }

  function Pow10(k: nat): (r: nat)
    ensures r >= 1
  {
    if k == 0 then 1 else 10 * Pow10(k - 1)
  }

  /** The decimal whole.frac whose fraction has the given number of digits. */
  function Decimal(whole: nat, frac: nat, digits: nat): (r: real)
    ensures r >= whole as real
  {
    whole as real + frac as real / Pow10(digits) as real
  }

  /** The position of the first '.' in s, if any. */
  function DotIndex(s: string): (r: Option<nat>)
    ensures r.Some? ==> r.value < |s| && s[r.value] == '.'
    ensures r.Some? ==> forall j :: 0 <= j < r.value ==> s[j] != '.'
    ensures r.None? ==> forall j :: 0 <= j < |s| ==> s[j] != '.'
  {
    if |s| == 0 then None
    else if s[0] == '.' then Some(0)
    else match DotIndex(s[1..])
      case None => None
      case Some(k) => Some(k + 1)
  }

  /** The value of a NUMBER's text digit+ ('.' digit+)?, as an exact decimal;
    * None, standing for NumberFormatException, for any other text. */
  function ParseDecimal(s: string): (r: Option<real>)
    ensures r.Some? ==> r.value >= 0.0
  {
    if IsDigits(s) then Some(DigitsValue(s) as real)
    else match DotIndex(s)
      case None => None
      case Some(i) =>
        var whole, frac := s[..i], s[i + 1..];
        if IsDigits(whole) && IsDigits(frac)
        then Some(Decimal(DigitsValue(whole), DigitsValue(frac), |frac|))
        else None
  }

  /** An integer literal denotes its digits' value, and a literal with a
    * fraction denotes whole + frac / 10^|frac|. */
  lemma ParseDecimalValue(whole: string, frac: string)
    requires IsDigits(whole) && IsDigits(frac)
    ensures ParseDecimal(whole) == Some(DigitsValue(whole) as real)
    ensures ParseDecimal(whole + "." + frac)
         == Some(Decimal(DigitsValue(whole), DigitsValue(frac), |frac|))
  {
    var s := whole + "." + frac;
    assert s[|whole|] == '.';
    assert !IsDigits(s);
    DotIndexAt(s, |whole|);
    assert s[..|whole|] == whole && s[|whole| + 1..] == frac;
  }

  lemma {:induction false} DotIndexAt(s: string, i: nat)
    requires i < |s| && s[i] == '.'
    requires forall j :: 0 <= j < i ==> s[j] != '.'
    ensures DotIndex(s) == Some(i)
  {
    if i > 0 {
      DotIndexAt(s[1..], i - 1);
    }
  }

  // ----- the abstract syntax tree -----

  /** The operator a SUM or a TIMES node folds its operands with. */
  datatype Op = PlusOp | TimesOp

  function Combine(op: Op, a: Expr, b: Expr): Expr {
    match op
    case PlusOp => Plus(a, b)
    case TimesOp => Times(a, b)
  }

  /** The left fold of e1..en: Combine(...Combine(e1, e2)..., en), and e1 alone
    * when n = 1. */
  function Fold(op: Op, es: seq<Expr>): Expr
    requires |es| > 0
  {
    if |es| == 1 then es[0] else Combine(op, Fold(op, es[..|es| - 1]), es[|es| - 1])
  }

  predicate IsOp(op: Op, e: Expr) {
    match op
    case PlusOp => e.Plus?
    case TimesOp => e.Times?
  }

  /** The operands along the left spine of op-nodes: Spine(Combine(op, l, r)) is
    * Spine(l) + [r]. */
  function Spine(op: Op, e: Expr): (r: seq<Expr>)
    ensures |r| > 0 && !IsOp(op, r[0])
  {
    if IsOp(op, e) then Spine(op, e.left) + [e.right] else [e]
  }

  /** Fold and Spine are inverses: folding an expression's spine rebuilds it, and
    * the spine of a fold is the folded list, unless its first element is itself
    * an op-node. */
  lemma {:induction false} FoldSpine(op: Op, e: Expr, es: seq<Expr>)
    requires |es| > 0 && !IsOp(op, es[0])
    ensures Fold(op, Spine(op, e)) == e
    ensures Spine(op, Fold(op, es)) == es
  {
    FoldOfSpine(op, e);
    SpineOfFold(op, es);
  }

  lemma {:induction false} FoldOfSpine(op: Op, e: Expr)
    ensures Fold(op, Spine(op, e)) == e
  {
    if IsOp(op, e) {
      FoldOfSpine(op, e.left);
      var s := Spine(op, e.left) + [e.right];
      assert s[..|s| - 1] == Spine(op, e.left);
    }
  }

  lemma {:induction false} SpineOfFold(op: Op, es: seq<Expr>)
    requires |es| > 0 && !IsOp(op, es[0])
    ensures Spine(op, Fold(op, es)) == es
  {
    if |es| > 1 {
      SpineOfFold(op, es[..|es| - 1]);
    }
  }

  // ----- buildAST as a function -----

  /** The AST of a parse tree, or the exception buildAST ends with. */
  function Ast(t: ParseTree): Result<Expr, BuildError>
    decreases t, 3
  {
    match t.name
    case NUMBER => NumberAst(t.contents)
    case VARIABLE => Ok(Variable(t.contents))
    case FACTOR => FactorAst(t)
    case TIMES => FoldOf(t, FACTOR, TimesOp, EmptyTimes)
    case SUM => FoldOf(t, TIMES, PlusOp, EmptySum)
    case ROOT => RootAst(t)
    case WHITESPACE => Err(WhitespaceNode)
  }

  /** A NUMBER leaf: new Number(Double.parseDouble(contents)). */
  function NumberAst(text: string): Result<Expr, BuildError> {
    match ParseDecimal(text)
    case Some(n) => Ok(Number(n))
    case None => Err(NumberFormat(text))
  }

  /** A FACTOR: the AST of its first NUMBER child, else of its first VARIABLE
    * child, else of its first SUM child. */
  function FactorAst(t: ParseTree): Result<Expr, BuildError>
    decreases t, 2
  {
    var nums := ChildrenByName(t.children, NUMBER);
    var vars := ChildrenByName(t.children, VARIABLE);
    var sums := ChildrenByName(t.children, SUM);
    if |nums| > 0 then ChildOf(t.children, NUMBER, 0); Ast(nums[0])
    else if |vars| > 0 then ChildOf(t.children, VARIABLE, 0); Ast(vars[0])
    else if |sums| > 0 then ChildOf(t.children, SUM, 0); Ast(sums[0])
    else Err(NoChild(SUM))
  }

  /** The ROOT: the AST of its first SUM child. */
  function RootAst(t: ParseTree): Result<Expr, BuildError>
    decreases t, 2
  {
    var sums := ChildrenByName(t.children, SUM);
    if |sums| > 0 then ChildOf(t.children, SUM, 0); Ast(sums[0]) else Err(NoChild(SUM))
  }

  /** The loop of the TIMES and SUM cases: build every child with the given
    * symbol in order, stopping at the first exception, and left-fold the
    * results; with no such child, the node's own exception. */
  function FoldOf(t: ParseTree, child: Symbol, op: Op, empty: BuildError): Result<Expr, BuildError>
    decreases t, 2
  {
    match AstAll(t, child, |ChildrenByName(t.children, child)|)
    case Err(e) => Err(e)
    case Ok(es) => if |es| == 0 then Err(empty) else Ok(Fold(op, es))
  }

  /** The ASTs of the first n children of t with the given symbol, in order,
    * or the first exception among them. */
  function AstAll(t: ParseTree, child: Symbol, n: nat): (r: Result<seq<Expr>, BuildError>)
    requires n <= |ChildrenByName(t.children, child)|
    ensures r.Ok? ==> |r.value| == n
    decreases t, 1, n
  {
    if n == 0 then Ok([])
    else
      var last := ChildrenByName(t.children, child)[n - 1];
      ChildOf(t.children, child, n - 1);
      match AstAll(t, child, n - 1)
      case Err(e) => Err(e)
      case Ok(es) =>
        match Ast(last)
        case Err(e) => Err(e)
        case Ok(x) => Ok(es + [x])
  }

  /** The AST of each child, when every one of them builds. */
  lemma {:induction false} AstAllElements(t: ParseTree, child: Symbol, n: nat, i: nat)
    requires n <= |ChildrenByName(t.children, child)|
    requires AstAll(t, child, n).Ok? && i < n
    ensures Ast(ChildrenByName(t.children, child)[i]) == Ok(AstAll(t, child, n).value[i])
  {
    if i < n - 1 {
      AstAllElements(t, child, n - 1, i);
    }
  }

  /** One more operand that builds extends the list of ASTs, and its fold by
    * one Combine (or starts the fold, for the first operand). */
  lemma FoldStep(t: ParseTree, child: Symbol, op: Op, i: nat, x: Expr)
    requires i < |ChildrenByName(t.children, child)|
    requires AstAll(t, child, i).Ok?
    requires Ast(ChildrenByName(t.children, child)[i]) == Ok(x)
    ensures AstAll(t, child, i + 1) == Ok(AstAll(t, child, i).value + [x])
    ensures i == 0 ==> Fold(op, AstAll(t, child, i + 1).value) == x
    ensures i > 0 ==>
      Fold(op, AstAll(t, child, i + 1).value) == Combine(op, Fold(op, AstAll(t, child, i).value), x)
  {
    var es := AstAll(t, child, i).value;
    assert (es + [x])[..|es|] == es;
  }

  /** Once the first n children fail, every longer prefix fails with the same
    * exception. */
  lemma {:induction false} PrefixError(t: ParseTree, child: Symbol, n: nat, m: nat, e: BuildError)
    requires n <= m <= |ChildrenByName(t.children, child)|
    requires AstAll(t, child, n) == Err(e)
    ensures AstAll(t, child, m) == Err(e)
    decreases m
  {
    if n < m {
      PrefixError(t, child, n, m - 1, e);
    }
  }

  // ----- properties of buildAST -----

  /** A NUMBER leaf becomes the Number its text denotes, and a VARIABLE leaf
    * becomes the Variable of its text, verbatim. */
  lemma AstLeaves(whole: string, frac: string, name: string, kids: seq<ParseTree>)
    requires IsDigits(whole) && IsDigits(frac)
    ensures Ast(ParseTree(NUMBER, whole, kids)) == Ok(Number(DigitsValue(whole) as real))
    ensures Ast(ParseTree(NUMBER, whole + "." + frac, kids))
         == Ok(Number(Decimal(DigitsValue(whole), DigitsValue(frac), |frac|)))
    ensures Ast(ParseTree(VARIABLE, name, kids)) == Ok(Variable(name))
  {
    ParseDecimalValue(whole, frac);
  }

  /** FACTOR priority: the first NUMBER child, if there is one; otherwise the
    * first VARIABLE child; otherwise the first SUM child. */
  lemma FactorNumber(t: ParseTree, i: nat)
    requires t.name == FACTOR && i < |t.children| && t.children[i].name == NUMBER
    requires forall j :: 0 <= j < i ==> t.children[j].name != NUMBER
    ensures Ast(t) == Ast(t.children[i])
  {
    FirstChildByName(t.children, NUMBER, i);
    assert Ast(t) == FactorAst(t);
  }

  lemma FactorVariable(t: ParseTree, i: nat)
    requires t.name == FACTOR && i < |t.children| && t.children[i].name == VARIABLE
    requires forall c :: c in t.children ==> c.name != NUMBER
    requires forall j :: 0 <= j < i ==> t.children[j].name != VARIABLE
    ensures Ast(t) == Ast(t.children[i])
  {
    FirstChildByName(t.children, VARIABLE, i);
    NoChildByName(t.children, NUMBER);
    assert Ast(t) == FactorAst(t);
  }

  lemma FactorSum(t: ParseTree, i: nat)
    requires t.name == FACTOR && i < |t.children| && t.children[i].name == SUM
    requires forall c :: c in t.children ==> c.name != NUMBER && c.name != VARIABLE
    requires forall j :: 0 <= j < i ==> t.children[j].name != SUM
    ensures Ast(t) == Ast(t.children[i])
  {
    FirstChildByName(t.children, SUM, i);
    NoChildByName(t.children, NUMBER);
    NoChildByName(t.children, VARIABLE);
    assert Ast(t) == FactorAst(t);
  }

  /** When the operand children of a node build to e1..en, the loop over its
    * first n operands yields e1..en as well. */
  lemma {:induction false} AstAllOf(t: ParseTree, child: Symbol, es: seq<Expr>, n: nat)
    requires |es| == |ChildrenByName(t.children, child)| && n <= |es|
    requires forall i :: 0 <= i < |es| ==> Ast(ChildrenByName(t.children, child)[i]) == Ok(es[i])
    ensures AstAll(t, child, n) == Ok(es[..n])
  {
    if n > 0 {
      AstAllOf(t, child, es, n - 1);
      assert es[..n] == es[..n - 1] + [es[n - 1]];
    }
  }

  /** A node whose n >= 1 operand children build to e1..en yields their left
    * fold, and e1 unwrapped when n = 1. */
  lemma FoldNode(t: ParseTree, child: Symbol, op: Op, empty: BuildError, es: seq<Expr>)
    requires |es| == |ChildrenByName(t.children, child)| > 0
    requires forall i :: 0 <= i < |es| ==> Ast(ChildrenByName(t.children, child)[i]) == Ok(es[i])
    ensures FoldOf(t, child, op, empty) == Ok(Fold(op, es))
    ensures |es| == 1 ==> FoldOf(t, child, op, empty) == Ok(es[0])
  {
    AstAllOf(t, child, es, |es|);
    assert es[..|es|] == es;
  }

  /** A TIMES node whose FACTOR children build to f1..fn, n >= 1, yields the
    * left-nested Times(...Times(f1, f2)..., fn), and f1 alone when n = 1. */
  lemma TimesNode(t: ParseTree, fs: seq<Expr>)
    requires t.name == TIMES
    requires |fs| == |ChildrenByName(t.children, FACTOR)| > 0
    requires forall i :: 0 <= i < |fs| ==> Ast(ChildrenByName(t.children, FACTOR)[i]) == Ok(fs[i])
    ensures Ast(t) == Ok(Fold(TimesOp, fs))
    ensures |fs| == 1 ==> Ast(t) == Ok(fs[0])
    ensures |fs| > 1 ==> Ast(t) == Ok(Times(Fold(TimesOp, fs[..|fs| - 1]), fs[|fs| - 1]))
  {
    FoldNode(t, FACTOR, TimesOp, EmptyTimes, fs);
  }

  /** A SUM node whose TIMES children build to t1..tn, n >= 1, yields the
    * left-nested Plus(...Plus(t1, t2)..., tn), and t1 alone when n = 1. */
  lemma SumNode(t: ParseTree, ts: seq<Expr>)
    requires t.name == SUM
    requires |ts| == |ChildrenByName(t.children, TIMES)| > 0
    requires forall i :: 0 <= i < |ts| ==> Ast(ChildrenByName(t.children, TIMES)[i]) == Ok(ts[i])
    ensures Ast(t) == Ok(Fold(PlusOp, ts))
    ensures |ts| == 1 ==> Ast(t) == Ok(ts[0])
    ensures |ts| > 1 ==> Ast(t) == Ok(Plus(Fold(PlusOp, ts[..|ts| - 1]), ts[|ts| - 1]))
  {
    FoldNode(t, TIMES, PlusOp, EmptySum, ts);
  }

  /** A node that exists only for its children fails when the child it needs is
    * missing: a TIMES without FACTOR children, a SUM without TIMES children, a
    * ROOT without a SUM child, and any WHITESPACE node. */
  lemma AstErrors(t: ParseTree)
    ensures t.name == TIMES && (forall c :: c in t.children ==> c.name != FACTOR)
        ==> Ast(t) == Err(EmptyTimes)
    ensures t.name == SUM && (forall c :: c in t.children ==> c.name != TIMES)
        ==> Ast(t) == Err(EmptySum)
    ensures t.name == ROOT && (forall c :: c in t.children ==> c.name != SUM)
        ==> Ast(t) == Err(NoChild(SUM))
    ensures t.name == FACTOR && (forall c :: c in t.children ==> c.name !in {NUMBER, VARIABLE, SUM})
        ==> Ast(t) == Err(NoChild(SUM))
    ensures t.name == WHITESPACE ==> Ast(t).Err?
  {
    match t.name
    case TIMES =>
      if forall c :: c in t.children ==> c.name != FACTOR {
        NoChildByName(t.children, FACTOR);
        assert AstAll(t, FACTOR, 0) == Ok([]);
        assert Ast(t) == FoldOf(t, FACTOR, TimesOp, EmptyTimes);
      }
    case SUM =>
      if forall c :: c in t.children ==> c.name != TIMES {
        NoChildByName(t.children, TIMES);
        assert AstAll(t, TIMES, 0) == Ok([]);
        assert Ast(t) == FoldOf(t, TIMES, PlusOp, EmptySum);
      }
    case ROOT =>
      if forall c :: c in t.children ==> c.name != SUM {
        NoChildByName(t.children, SUM);
        assert Ast(t) == RootAst(t);
      }
    case FACTOR =>
      if forall c :: c in t.children ==> c.name !in {NUMBER, VARIABLE, SUM} {
        NoChildByName(t.children, NUMBER);
        NoChildByName(t.children, VARIABLE);
        NoChildByName(t.children, SUM);
        assert Ast(t) == FactorAst(t);
      }
    case _ =>
  }

  /** The TIMES-FACTOR-SUM chain that a pair of parentheses around a sum adds
    * to the parse tree. */
  function Parenthesized(s: ParseTree): ParseTree {
    ParseTree(SUM, "(" + s.contents + ")",
      [ParseTree(TIMES, "(" + s.contents + ")",
        [ParseTree(FACTOR, "(" + s.contents + ")", [s])])])
  }

  /** A TIMES or SUM node with a single operand child yields that child's AST. */
  lemma SingleOperand(t: ParseTree, child: Symbol, op: Op, empty: BuildError)
    requires |t.children| == 1 && t.children[0].name == child
    ensures FoldOf(t, child, op, empty) == Ast(t.children[0])
  {
    var c := t.children[0];
    assert t.children[1..] == [];
    assert ChildrenByName(t.children, child) == [c];
    assert AstAll(t, child, 0) == Ok([]);
    if Ast(c).Ok? {
      assert AstAll(t, child, 1) == Ok([] + [Ast(c).value]);
    }
  }

  /** A FACTOR node whose only child is a SUM yields that sum's AST. */
  lemma FactorOfSum(f: ParseTree)
    requires f.name == FACTOR && |f.children| == 1 && f.children[0].name == SUM
    ensures Ast(f) == Ast(f.children[0])
  {
    FactorSum(f, 0);
  }

  /** Redundant parentheses add no nodes, and a ROOT yields exactly the AST of
    * its first SUM child, whatever whitespace precedes it and whatever follows it. */
  lemma ParenthesesTransparent(s: ParseTree, before: seq<ParseTree>, after: seq<ParseTree>)
    requires s.name == SUM
    requires forall c :: c in before ==> c.name == WHITESPACE
    ensures Ast(Parenthesized(s)) == Ast(s)
    ensures Ast(ParseTree(ROOT, s.contents, before + [s] + after)) == Ast(s)
  {
    var p := Parenthesized(s);
    var tm := p.children[0];
    var f := tm.children[0];
    FactorOfSum(f);
    SingleOperand(tm, FACTOR, TimesOp, EmptyTimes);
    SingleOperand(p, TIMES, PlusOp, EmptySum);
    var root := ParseTree(ROOT, s.contents, before + [s] + after);
    var i := |before|;
    assert root.children[i] == s;
    assert forall j :: 0 <= j < i ==> root.children[j] == before[j];
    FirstChildByName(root.children, SUM, i);
    assert Ast(root) == RootAst(root);
  }

  /** The tree of "((3))": three nested sums around one NUMBER leaf. */
  lemma NestedParensExample()
    ensures var three := ParseTree(SUM, "3", [ParseTree(TIMES, "3",
                           [ParseTree(FACTOR, "3", [ParseTree(NUMBER, "3", [])])])]);
      Ast(ParseTree(ROOT, "((3))", [Parenthesized(Parenthesized(three))])) == Ok(Number(3.0))
  {
    var n := ParseTree(NUMBER, "3", []);
    var f := ParseTree(FACTOR, "3", [n]);
    var tm := ParseTree(TIMES, "3", [f]);
    var three := ParseTree(SUM, "3", [tm]);
    assert DigitsValue("3") == 3 by { assert "3"[..0] == []; }
    ParseDecimalValue("3", "0");
    assert Ast(n) == Ok(Number(3.0));
    FactorNumber(f, 0);
    SingleOperand(tm, FACTOR, TimesOp, EmptyTimes);
    assert Ast(tm) == FoldOf(tm, FACTOR, TimesOp, EmptyTimes);
    SingleOperand(three, TIMES, PlusOp, EmptySum);
    assert Ast(three) == FoldOf(three, TIMES, PlusOp, EmptySum);
    ParenthesesTransparent(three, [], []);
    ParenthesesTransparent(Parenthesized(three), [], []);
    ParenthesesTransparent(Parenthesized(Parenthesized(three)), [], []);
    assert [] + [Parenthesized(Parenthesized(three))] + [] == [Parenthesized(Parenthesized(three))];
  }

  /** The names a parse tree's VARIABLE nodes hold are nonempty strings of letters. */
  predicate NamesValid(t: ParseTree) {
    (t.name == VARIABLE ==> IsName(t.contents))
    && forall i :: 0 <= i < |t.children| ==> NamesValid(t.children[i])
  }

  /** Whatever buildAST returns satisfies the representation invariant when the
    * tree's variable names do: every Number it creates is nonnegative. */
  lemma {:induction false} AstValid(t: ParseTree)
    requires NamesValid(t)
    ensures Ast(t).Ok? ==> Valid(Ast(t).value)
    decreases t, 3
  {
    match t.name
    case NUMBER =>
    case VARIABLE =>
    case FACTOR => FactorValid(t);
    case TIMES => FoldValid(t, FACTOR, TimesOp, EmptyTimes);
    case SUM => FoldValid(t, TIMES, PlusOp, EmptySum);
    case ROOT => RootValid(t);
    case WHITESPACE =>
  }

  lemma {:induction false} FactorValid(t: ParseTree)
    requires NamesValid(t)
    ensures FactorAst(t).Ok? ==> Valid(FactorAst(t).value)
    decreases t, 2
  {
    var nums := ChildrenByName(t.children, NUMBER);
    var vars := ChildrenByName(t.children, VARIABLE);
    var sums := ChildrenByName(t.children, SUM);
    if |nums| > 0 {
      ChildOf(t.children, NUMBER, 0);
      ChildValid(t, nums[0]);
    } else if |vars| > 0 {
      ChildOf(t.children, VARIABLE, 0);
      ChildValid(t, vars[0]);
    } else if |sums| > 0 {
      ChildOf(t.children, SUM, 0);
      ChildValid(t, sums[0]);
    }
  }

  lemma {:induction false} RootValid(t: ParseTree)
    requires NamesValid(t)
    ensures RootAst(t).Ok? ==> Valid(RootAst(t).value)
    decreases t, 2
  {
    var sums := ChildrenByName(t.children, SUM);
    if |sums| > 0 {
      ChildOf(t.children, SUM, 0);
      ChildValid(t, sums[0]);
    }
  }

  lemma {:induction false} ChildValid(t: ParseTree, c: ParseTree)
    requires NamesValid(t) && c in t.children
    ensures Ast(c).Ok? ==> Valid(Ast(c).value)
    decreases t, 1
  {
    AstValid(c);
  }

  lemma {:induction false} FoldValid(t: ParseTree, child: Symbol, op: Op, empty: BuildError)
    requires NamesValid(t)
    ensures FoldOf(t, child, op, empty).Ok? ==> Valid(FoldOf(t, child, op, empty).value)
    decreases t, 2
  {
    var kids := ChildrenByName(t.children, child);
    if AstAll(t, child, |kids|).Ok? && |kids| > 0 {
      var es := AstAll(t, child, |kids|).value;
      forall i | 0 <= i < |es|
        ensures Valid(es[i])
      {
        AstAllElements(t, child, |kids|, i);
        ChildOf(t.children, child, i);
        ChildValid(t, kids[i]);
      }
      FoldPreservesValid(op, es);
    }
  }

  lemma {:induction false} FoldPreservesValid(op: Op, es: seq<Expr>)
    requires |es| > 0 && forall i :: 0 <= i < |es| ==> Valid(es[i])
    ensures Valid(Fold(op, es))
  {
    if |es| > 1 {
      FoldPreservesValid(op, es[..|es| - 1]);
    }
  }

  // ----- buildAST as the source runs it -----

  /** buildAST: the recursive switch over the node's symbol, computing exactly
    * the AST that Ast specifies. */
  method BuildAst(t: ParseTree) returns (r: Result<Expr, BuildError>)
    ensures r == Ast(t)
    decreases t, 1
  {
    match t.name {
      case NUMBER =>
        var v := ParseDecimal(t.contents);
        if v.None? {
          return Err(NumberFormat(t.contents));
        }
        return Ok(Number(v.value));
      case VARIABLE =>
        return Ok(Variable(t.contents));
      case FACTOR =>
        var nums := ChildrenByName(t.children, NUMBER);
        if |nums| > 0 {
          ChildOf(t.children, NUMBER, 0);
          r := BuildAst(nums[0]);
          return;
        }
        var vars := ChildrenByName(t.children, VARIABLE);
        if |vars| > 0 {
          ChildOf(t.children, VARIABLE, 0);
          r := BuildAst(vars[0]);
          return;
        }
        var sums := ChildrenByName(t.children, SUM);
        if |sums| == 0 {
          return Err(NoChild(SUM));
        }
        ChildOf(t.children, SUM, 0);
        r := BuildAst(sums[0]);
      case TIMES =>
        r := BuildFold(t, FACTOR, TimesOp, EmptyTimes);
      case SUM =>
        r := BuildFold(t, TIMES, PlusOp, EmptySum);
      case ROOT =>
        var sums := ChildrenByName(t.children, SUM);
        if |sums| == 0 {
          return Err(NoChild(SUM));
        }
        ChildOf(t.children, SUM, 0);
        r := BuildAst(sums[0]);
      case WHITESPACE =>
        return Err(WhitespaceNode);
    }
  }

  /** The loop of the TIMES and SUM cases: the first operand is built into the
    * accumulator, each later one is combined onto it, and a node with no
    * operand fails after the loop. */
  method BuildFold(t: ParseTree, child: Symbol, op: Op, empty: BuildError)
    returns (r: Result<Expr, BuildError>)
    ensures r == FoldOf(t, child, op, empty)
    decreases t, 0
  {
    var kids := ChildrenByName(t.children, child);
    var first := true;
    var acc := Number(0.0);  // stands for null until the first operand is built
    var i := 0;
    while i < |kids|
      invariant i <= |kids| && first == (i == 0)
      invariant AstAll(t, child, i).Ok?
      invariant i > 0 ==> acc == Fold(op, AstAll(t, child, i).value)
    {
      ChildOf(t.children, child, i);
      var x := BuildAst(kids[i]);
      if x.Err? {
        PrefixError(t, child, i + 1, |kids|, x.error);
        return Err(x.error);
      }
      FoldStep(t, child, op, i, x.value);
      acc := if first then x.value else Combine(op, acc, x.value);
      first := false;
      i := i + 1;
    }
    if first {
      return Err(empty);
    }
    return Ok(acc);
  }
}
