# expressivo expressions in Dafny

This project models the expression core of expressivo. The core is an
immutable, four-variant tree of polynomial expressions:

- `Number(n)` with `n >= 0`.
- `Variable(name)`, a case-sensitive, nonempty string of letters.
- `Plus(left, right)` and `Times(left, right)`.

Its operations are modelled as follows:

- **Symbolic differentiation.** Left unsimplified.
- **`simplify`.** It substitutes values from an environment, then folds a `Plus` or `Times` into a `Number` exactly when both simplified children have a value. This uses `combineTerms`, `hasValue` and `getValue`.
- **`equals` and `hashCode`.** `equals` is ordered structural equality, and `hashCode` is consistent with it.
- **`toString`.**
- **`buildAST`.** It turns a concrete parse tree into an expression:
  - Leaf conversion.
  - FACTOR priority.
  - The loops that left-fold the children of TIMES and SUM nodes.
  - ROOT.
  - The cases that throw.

Modules:

- `Wrappers`: `Option`, and `Result`, which stands for an operation that may throw.
- `Expressions`:
  - The datatype.
  - Its representation invariant `Valid`.
  - `Vars`.
  - The meaning `Eval` under an environment. This is the reference semantics that simplification and differentiation are proved against.
- `Simplification`: `hasValue`, `getValue`, `combineTerms` for `Plus` and `Times`, and `simplify`.
- `Differentiation`: `differentiate`, with dual-number evaluation as an independent reference for the derivative.
- `Equality`: `equals`, `hashCode`, Java's `int` wrap-around and `String.hashCode`.
- `AstBuilder`:
  - The parse-tree datatype, and `childrenByName`.
  - The decimal reading of a NUMBER leaf.
  - `Ast`, which holds the specification of `buildAST`.
  - The method `BuildAst`, whose TIMES and SUM loops (`BuildFold`) update an accumulator and a "first" flag as the Java loops do. Each is proved equal to `Ast`.
- `Printing`:
  - `toString` as written.
  - `toString` corrected (see Findings).
  - The printed form as a sequence of grammar tokens.
- `RoundTrip`:
  - A recursive-descent reader for the grammar `root ::= sum`, `sum ::= product ('+' product)*`, `product ::= factor ('*' factor)*`, `factor ::= number | variable | '(' sum ')'`, `number ::= digit+ ('.' digit+)?`, `variable ::= letter+`. It works over tokens and builds the parse trees `buildAST` consumes, and `buildAST` is proved to accept every one of them.
  - The documented round trip `e.equals(parse(e.toString()))`, proved for the corrected printer.
  - The counterexample for the printer as written.

Number values are mathematical reals.

`Times.java` is not part of this model. Two of its behaviours are pinned to the unit tests.

`Times` prints as `l*r` without parentheses.

The product rule is `Plus(Times(l, d r), Times(r, d l))`. The tests decide this, because `d/dx(8*x)` prints `(8.0*1.0+x*0.0)`.

The representation invariant of a `Variable` is the documented "nonempty letters". The class itself only checks that the name is not null.

## Model

| member | source | states |
|---|---|---|
| Expressions.Valid | src/expressivo/Number.java:14-27 | the representation invariant: a Number holds n >= 0, and a Variable holds a nonempty string of letters, the documented invariant of src/expressivo/Variable.java:16 |
| Expressions.EvalNonNegative | src/expressivo/Number.java:14-16 | a valid expression evaluated under nonnegative values is nonnegative |
| Simplification.HasValue | src/expressivo/Plus.java:135-141 | hasValue: true for a Number, false for a Variable, and for a Plus or Times true iff both children have a value |
| Simplification.GetValue | src/expressivo/Number.java:93-99 | getValue: the stored value of a Number; on any other node it throws, so it demands a Number |
| Simplification.HasValueIffClosed | src/expressivo/Plus.java:135-141 | hasValue holds exactly when the expression mentions no variable (Number true, Variable false, Plus/Times both children) |
| Simplification.CombinePlus | src/expressivo/Plus.java:117-128 | when each operand that has a value is a Number, the combination has a value only if it is a Number, and mentions exactly the operands' variables |
| Simplification.CombineTimes | test/expressivo/ExpressionTest.java:325-334 | the same combination for Times, folding by multiplication |
| Simplification.Simplify | src/expressivo/Plus.java:59-64 | a simplified result has a value only if it is a Number, so getValue is never called on a node that throws; it mentions exactly the variables the environment does not bind |
| Simplification.SimplifyClosed | src/expressivo/Expression.java:155-162 | when every variable is bound, simplify returns the single Number holding the expression's value |
| Simplification.SimplifySound | src/expressivo/Expression.java:155-162 | simplify preserves the value under any environment extending the given one |
| Simplification.PlusNoPartialFolding | src/expressivo/Plus.java:123-127 | if either operand mentions an unbound variable, a Plus stays a Plus of the simplified operands |
| Simplification.TimesNoPartialFolding | test/expressivo/ExpressionTest.java:358-365 | the same for Times |
| Simplification.SimplifyFolded | src/expressivo/Plus.java:123-127 | simplify leaves no Plus or Times both of whose children have a value |
| Simplification.SimplifyFixpoint | src/expressivo/Variable.java:46-53 | a folded expression with no bound variable is returned unchanged |
| Simplification.SimplifyIdempotent | src/expressivo/Number.java:45-48 | simplifying twice with one environment equals simplifying once |
| Simplification.SimplifyValid | src/expressivo/Number.java:16-27 | every Number simplify builds satisfies n >= 0 when the input and the environment's values do |
| Simplification.SimplifyExamples | test/expressivo/ExpressionTest.java:310-365 | the simplification results of the unit tests |
| Differentiation.Differentiate | src/expressivo/Plus.java:45-50 | the derivative mentions no variable the input does not, and is a Number or a Plus |
| Differentiation.DifferentiateSound | src/expressivo/Expression.java:148-153 | the value of the derivative is the slope dual-number evaluation computes, everywhere |
| Differentiation.DifferentiateConstant | src/expressivo/Number.java:33-36 | an expression not mentioning v has a derivative whose value is 0 everywhere |
| Differentiation.DifferentiateValid | src/expressivo/Variable.java:33-38 | differentiating a valid expression gives a valid one |
| Differentiation.DifferentiateExamples | test/expressivo/ExpressionTest.java:179-306 | the derivatives of the unit tests, including exact, case-sensitive name comparison and the product rule's order |
| Equality.Wrap32 | src/expressivo/Plus.java:111-115 | the int result is congruent to the exact sum modulo 2^32 |
| Equality.Equals | src/expressivo/Plus.java:98-104 | equals: same variant and equal fields, recursively; Numbers by numeric ==, Variables by String.equals, Plus and Times by left with left and right with right |
| Equality.StringHash | src/expressivo/Variable.java:83-87 | String.hashCode of a Variable's name: the polynomial in 31 over its characters in int arithmetic |
| Equality.HashCode | src/expressivo/Plus.java:111-115 | hashCode: a Number's Double.hashCode, a Variable's String.hashCode, a Plus's int sum of its children's hashes |
| Equality.EqualsIsIdentity | src/expressivo/Expression.java:171-177 | equals holds exactly when the two trees are identical (ordered, structural, variant-sensitive) |
| Equality.PlusOrdered | src/expressivo/Plus.java:98-104 | Plus(a, b) equals Plus(b, a) only when a equals b |
| Equality.EqualsHash | src/expressivo/Expression.java:179-185 | equal expressions have equal hash codes, for all e1 and e2 |
| Equality.PlusHash | src/expressivo/Plus.java:111-115 | a Plus hashes to its children's hash sum modulo 2^32, whichever order they are in |
| Equality.EqualityExamples | test/expressivo/ExpressionTest.java:167-278 | the equality and hash results of the unit tests, String.hashCode of "x" and "z" included |
| AstBuilder.ChildrenByName | src/expressivo/Expression.java:80 | childrenByName: the children carrying a symbol, in order |
| AstBuilder.ChildrenByNameMembers | src/expressivo/Expression.java:80 | childrenByName keeps exactly the children carrying the symbol |
| AstBuilder.ParseDecimal | src/expressivo/Expression.java:56 | a NUMBER text that is read denotes a nonnegative value |
| AstBuilder.ParseDecimalValue | src/expressivo/Expression.java:56 | digits denote their integer value and whole.frac denotes whole + frac / 10^len(frac) |
| AstBuilder.FoldSpine | src/expressivo/Expression.java:78-91 | the left fold and the left spine of an operator are inverse |
| AstBuilder.FoldOfSpine | src/expressivo/Expression.java:93-106 | folding an expression's spine rebuilds it |
| AstBuilder.SpineOfFold | src/expressivo/Expression.java:78-91 | the spine of a left fold is the folded list, when its first element is not itself that operator |
| AstBuilder.Ast | src/expressivo/Expression.java:49-121 | buildAST as a function: the switch over the node's symbol, with an exception for WHITESPACE |
| AstBuilder.NumberAst | src/expressivo/Expression.java:52-56 | a NUMBER leaf: Number of Double.parseDouble of its text, or NumberFormatException |
| AstBuilder.FactorAst | src/expressivo/Expression.java:62-73 | a FACTOR: its first NUMBER child, else its first VARIABLE child, else its first SUM child, else the exception of get(0) on an empty list |
| AstBuilder.RootAst | src/expressivo/Expression.java:108-112 | a ROOT: its first SUM child, else the exception of get(0) on an empty list |
| AstBuilder.FoldOf | src/expressivo/Expression.java:74-106 | the TIMES and SUM loops: the left fold of the operand children's ASTs, the first exception among them, or the node's own exception when there is none |
| AstBuilder.AstAll | src/expressivo/Expression.java:80-87 | building the first n operand children yields n expressions unless one throws |
| AstBuilder.PrefixError | src/expressivo/Expression.java:95-102 | once an operand throws, the whole loop throws that same exception |
| AstBuilder.AstLeaves | src/expressivo/Expression.java:52-61 | a NUMBER leaf becomes Number of its decimal value and a VARIABLE leaf becomes Variable(contents) verbatim |
| AstBuilder.FactorNumber | src/expressivo/Expression.java:67-69 | a FACTOR with a NUMBER child yields its first NUMBER child |
| AstBuilder.FactorVariable | src/expressivo/Expression.java:70-72 | with no NUMBER child, a FACTOR yields its first VARIABLE child |
| AstBuilder.FactorSum | src/expressivo/Expression.java:73 | with neither, a FACTOR yields its first SUM child |
| AstBuilder.FactorOfSum | src/expressivo/Expression.java:62-73 | a FACTOR whose only child is a SUM yields that sum |
| AstBuilder.AstAllOf | src/expressivo/Expression.java:80-87 | when the operand children build to e1..em, building the first n of them yields exactly e1..en |
| AstBuilder.FoldNode | src/expressivo/Expression.java:78-106 | a node whose n >= 1 operand children build to e1..en yields their left fold, and e1 unwrapped when n = 1 |
| AstBuilder.TimesNode | src/expressivo/Expression.java:78-91 | a TIMES node whose FACTOR children build to f1..fn, n >= 1, yields Times(...Times(f1, f2)..., fn), and f1 alone when n = 1 |
| AstBuilder.SumNode | src/expressivo/Expression.java:93-106 | a SUM node whose TIMES children build to t1..tn, n >= 1, yields Plus(...Plus(t1, t2)..., tn), and t1 alone when n = 1 |
| AstBuilder.SingleOperand | src/expressivo/Expression.java:92-106 | a single operand is returned unwrapped |
| AstBuilder.AstErrors | src/expressivo/Expression.java:73-120 | TIMES without FACTOR, SUM without TIMES, ROOT without SUM, FACTOR with none of its three, and any WHITESPACE node, throw |
| AstBuilder.ParenthesesTransparent | src/expressivo/Expression.java:108-112 | redundant parentheses add no nodes, and a ROOT yields exactly its SUM child's AST, whatever whitespace precedes it and whatever follows it |
| AstBuilder.NestedParensExample | test/expressivo/ExpressionTest.java:129-133 | the tree of ((3)) builds Number(3.0) |
| AstBuilder.AstValid | src/expressivo/Expression.java:49-121 | whatever buildAST returns satisfies the representation invariant, when the VARIABLE leaves hold letter names |
| AstBuilder.BuildAst | src/expressivo/Expression.java:49-121 | the recursive switch computes exactly Ast of the tree, exceptions included |
| AstBuilder.BuildFold | src/expressivo/Expression.java:78-91 | the loop with timesFirst and timesResult (and sumFirst and sumResult) computes the left fold of its operands, or the first exception, or the empty-node exception |
| Printing.ToStringAsWritten | src/expressivo/Plus.java:87-91 | toString as written: a Number as Double.toString, a Variable as its name, a Plus as (l+r), a Times as l*r with no parentheses |
| Printing.ToString | src/expressivo/Expression.java:164-166 | the corrected toString: as written, except that a right operand of a Times that is itself a Times is parenthesised |
| Printing.PrintersAgree | src/expressivo/Plus.java:87-91 | the corrected printer differs from the one as written only on a right operand of a Times that is itself a Times |
| Printing.RenderTokens | src/expressivo/Plus.java:87-91 | the printed text is the text of the printed token sequence, with no whitespace |
| Printing.PrintSumExamples | test/expressivo/ExpressionTest.java:220-222 | sums print parenthesised by the printer as written, as the unit tests show, and by the corrected one |
| Printing.PrintProductExamples | test/expressivo/ExpressionTest.java:111-114 | products print without parentheses by the printer as written, inside and outside sums, as the unit tests show, and by the corrected one |
| RoundTrip.Parse | src/expressivo/Expression.java:129-133 | parser.parse: a token sequence it accepts is read into one ROOT over a tree the grammar derives, whose NUMBER texts are digit+ ('.' digit+)? and whose VARIABLE texts are letter+ |
| RoundTrip.ParsedBuilds | src/expressivo/Expression.java:129-133 | buildAST never throws on what the grammar accepts, and builds an expression satisfying the representation invariant |
| RoundTrip.SentenceBuilds | src/expressivo/Expression.java:49-121 | every tree the grammar derives is built without an exception into a valid expression |
| RoundTrip.ParsePrinted | src/expressivo/Expression.java:129-133 | the printed tokens of every valid expression whose numbers print in the NUMBER shape are a sentence of the grammar, and read to the expected parse tree |
| RoundTrip.RoundTrips | src/expressivo/Expression.java:164-166 | for every valid expression whose numbers print in the NUMBER shape and read back to the same value, the printed form parses and building its AST returns the expression |
| RoundTrip.MisprintedText | test/expressivo/ExpressionTest.java:266-269 | as written, x*(y*z) and x*y*z print alike; corrected, they do not |
| RoundTrip.AsWrittenRoundTrips | src/expressivo/Expression.java:164-166 | the printer as written keeps the round trip on every valid expression with printable numbers and no product as a right operand of a product |
| RoundTrip.ScientificNotReadBack | src/expressivo/Number.java:55-59 | when Double.toString writes 10^7 as 1.0E7, the valid Number(10^7) prints as the single token 1.0E7, which the grammar rejects, so parse fails before buildAST runs |
| RoundTrip.TenMillionParsed | src/expressivo/Expression.java:129-133 | the text 10000000 is a sentence of the grammar, and buildAST builds Number(10^7) from it |
| RoundTrip.TenMillionDigits | src/expressivo/Expression.java:56 | the NUMBER text 10000000 denotes 10^7 |
| RoundTrip.ScientificTextRejected | src/expressivo/Number.java:55-59 | the text 1.0E7 is not of the NUMBER shape digit+ ('.' digit+)? |
| RoundTrip.NatDigits | src/expressivo/Number.java:55-59 | the plain digits of a natural number, which read back as that number |
| RoundTrip.WholeShow | src/expressivo/Number.java:55-59 | the corrected number printer: a whole nonnegative value prints as plain digits and .0, which read back as that value; any other value prints as Double.toString does |
| RoundTrip.PlainWholeReadsBack | src/expressivo/Number.java:55-59 | the plain digits of a natural number followed by .0 read back as that number |
| RoundTrip.WholeNumbersRoundTrip | src/expressivo/Expression.java:164-166 | with whole values printed plainly, every valid expression with whole numbers, however large, keeps the round trip |
| RoundTrip.RightNestedTimesMisprinted | src/expressivo/Expression.java:164-166 | the tokens of x*(y*z) build Times(x, Times(y, z)); its printed text as written is x*y*z, whose tokens build the different Times(Times(x, y), z) |

## Left out

- `Expression.parse` is not modelled as written: GrammarCompiler, Expression.g and reading the grammar file (with its `IOException` path returning null). The round trip goes through a reader of the grammar over tokens: a number token is read only in the shape `digit+ ('.' digit+)?` and a variable token only as `letter+`, and anything else is rejected, as `UnableToParseException` would be. It writes empty contents on inner nodes, which `buildAST` never reads.
- Lexing and whitespace are not modelled. Characters are not split into tokens, and whitespace is not skipped. The round trip holds for the printed token sequence, and `RenderTokens` shows that this sequence spells `toString`'s text.
- `parse`'s exception handling is not modelled. It rewraps `IllegalArgumentException` (so also `NumberFormatException`) and `UnableToParseException` as `IllegalArgumentException`. The `RuntimeException`s of `buildAST` and the `IndexOutOfBoundsException` of `get(0)` escape unwrapped. An `IOException` makes it return null. In the model every exception of `buildAST` is a `BuildError` value, and a token sequence the grammar rejects makes `Parse` return `None`.
- `Double.parseDouble` is modelled only on the NUMBER shape `digit+ ('.' digit+)?`, the only texts the grammar gives a NUMBER leaf. Other texts, which Java's `Double.parseDouble` partly accepts (`1.0E7`, for one), read as `NumberFormat`; no tree the grammar derives holds one.
- IEEE doubles are modelled as reals. Rounding, `NaN`, infinities and `-0.0` are not modelled. The reals have no `-0.0`, so what happens in the source is not captured: `Number(0.0).equals(Number(-0.0))` holds by `==`, but `Double.hashCode` tells the two apart, so `Equality.EqualsHash` does not carry over to that pair.
- `Double.toString` is the parameter `showNum`. Scientific output such as `1.0E7` does not read back as a NUMBER (see Findings). For that reason `RoundTrip.RoundTrips` requires `Printable`.
- `Double.hashCode` and the hash `Times` computes are parameters (the `Hashers` datatype). `Times.java` is not part of this model.
- `Equality.StringHash` hashes Unicode scalar values, while `String.hashCode` hashes UTF-16 code units. The two differ only on characters outside the Basic Multilingual Plane, which no name satisfying `Valid` contains.
- `checkRep` assertions are modelled as the `Valid` predicate and preconditions, not as runtime control flow.
- `Simplification.GetValue`: the `UnsupportedOperationException` that `getValue` throws on a Variable, Plus or Times is a precondition, `e.Number?`. `Simplify`'s contract shows that `combineTerms` never violates it.
- `Variable.simplify` reads a `Map<String, Double>`. The model's environment is a `map<string, real>`, so a null value is not modelled.
- `Commands` and the REPL layer are not modelled. They are outside the core.

## Findings

| source | as written | input that shows it | evidently intended | confidence | as-written member | corrected member |
|---|---|---|---|---|---|---|
| src/expressivo/Expression.java:164-166 | Times prints `left * right` without parentheses, per test/expressivo/ExpressionTest.java:266-269, so any right product operand loses its grouping | `x*(y*z)` builds `Times(x, Times(y, z))`, which prints as `x*y*z`; that text builds `Times(Times(x, y), z)`, which `equals` rejects | a right operand of a Times that is itself a Times prints in parentheses, so `e.equals(parse(e.toString()))` holds | medium, not executed (the Times printer is inferred from tests) | Printing.ToStringAsWritten, RoundTrip.RightNestedTimesMisprinted | Printing.ToString, RoundTrip.RoundTrips |
| src/expressivo/Number.java:55-59 | a Number prints as String.valueOf of its value, which writes 10^7 and larger in scientific notation, `1.0E7` | `Number(10000000.0)`, which `parse("10000000")` builds, prints as `1.0E7`; that text is not a NUMBER (digits, optionally a dot and digits), so `parse` rejects it | a whole value prints as plain digits and `.0`, so the round trip holds for whole values of every size; values that are not whole keep Double.toString's form, and those it writes in scientific notation (`0.0001` as `1.0E-4`, `12345678.5` as `1.23456785E7`) still do not read back under the corrected printer | medium, not executed (Double.toString is not modelled beyond this value) | RoundTrip.TenMillionParsed, RoundTrip.ScientificNotReadBack | RoundTrip.WholeShow, RoundTrip.WholeNumbersRoundTrip |
