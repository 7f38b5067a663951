// Tokens, concrete syntax and abstract syntax of the calculator.
module CalcGrammar {
  import opened Wrappers

  // A number token keeps its text; the f64 it denotes is not modelled.
  datatype Token =
    | Number(text: string)
    | Name(name: string)
    | AddT | SubT | MulT | DivT | ModT | PowT
    | OpenT | CloseT | CommaT

  datatype Error = TooDeep | UnexpectedEnd | Unexpected | Expected | BadCall | BadNumber | BadCharacter

  // ----- abstract syntax: what the source computes an f64 from -----

  datatype Op = Add | Sub | Mul | Div | Mod

  predicate Additive(op: Op) { op.Add? || op.Sub? }

  datatype Constant = Pi | E

  datatype Expr =
    | Num(text: string)
    | Const(constant: Constant)
    | Neg(operand: Expr)
    | Bin(op: Op, left: Expr, right: Expr)
    | Pow(base: Expr, exponent: Expr)
    | Apply(fn: string, args: Exprs)

  datatype Exprs = NoExprs | MoreExprs(head: Expr, tail: Exprs)

  function Count(es: Exprs): nat {
    match es case NoExprs => 0 case MoreExprs(_, tail) => 1 + Count(tail)
  }

  function LowerChar(c: char): char {
    if 'A' <= c <= 'Z' then (c as int + 32) as char else c
  }

  function Lower(s: string): (r: string)
    ensures |r| == |s|
  {
    if s == "" then "" else [LowerChar(s[0])] + Lower(s[1..])
  }

  // By their numbers in ASCII: the same, or a capital and its small letter.
  predicate SameLetter(x: char, y: char) {
    x == y || (65 <= x as int <= 90 && y as int == x as int + 32) || (65 <= y as int <= 90 && x as int == y as int + 32)
  }

  // Names are one name exactly when they differ in ASCII case alone.
  lemma {:induction false} NamesIgnoreCase(a: string, b: string)
    ensures Lower(a) == Lower(b) <==> |a| == |b| && forall i | 0 <= i < |a| :: SameLetter(a[i], b[i])
  {
    if a != "" && b != "" {
      NamesIgnoreCase(a[1..], b[1..]);
      assert Lower(a)[1..] == Lower(a[1..]) && Lower(b)[1..] == Lower(b[1..]);
      assert (forall i | 0 <= i < |a[1..]| && |a| == |b| :: SameLetter(a[1..][i], b[1..][i])) <==>
             (forall i | 1 <= i < |a| && |a| == |b| :: SameLetter(a[i], b[i])) by {
        assert forall i | 1 <= i < |a| :: a[i] == a[1..][i - 1];
        assert forall i | 1 <= i < |b| :: b[i] == b[1..][i - 1];
      }
    }
  }

  const ONE_ARGUMENT := {"sqrt", "abs", "round", "floor", "ceil", "sin", "cos", "tan", "asin", "acos", "atan",
                         "log", "log2", "log10", "exp"}

  // `apply` accepts extra arguments where it only reads the first.
  predicate Known(fn: string, count: nat) {
    (fn in ONE_ARGUMENT && count >= 1) || (fn == "pow" && count == 2) || (fn in {"min", "max"} && count >= 1)
  }

  lemma KnownExactly(fn: string, count: nat)
    ensures Known(fn, count) <==>
            if fn == "pow" then count == 2
            else
              count != 0 &&
              fn in {"sqrt", "abs", "round", "floor", "ceil", "sin", "cos", "tan", "asin", "acos", "atan",
                     "log", "log2", "log10", "exp", "min", "max"}
  {
  }

  function ConstantOf(name: string): Option<Constant> {
    if Lower(name) == "pi" then Some(Pi) else if Lower(name) == "e" then Some(E) else None
  }

  predicate Valid(e: Expr) {
    match e
    case Num(_) => true
    case Const(_) => true
    case Neg(x) => Valid(x)
    case Bin(_, l, r) => Valid(l) && Valid(r)
    case Pow(b, x) => Valid(b) && Valid(x)
    case Apply(fn, args) => Known(Lower(fn), Count(args)) && ValidAll(args)
  }

  predicate ValidAll(es: Exprs) {
    match es case NoExprs => true case MoreExprs(head, tail) => Valid(head) && ValidAll(tail)
  }

  // ----- concrete syntax: one tree per way of writing an expression -----

  datatype Sum = Sum(first: Product, rest: SumRest)
  datatype SumRest = SumEnd | SumMore(op: Op, term: Product, rest: SumRest)
  datatype Product = Product(first: Power, rest: ProductRest)
  datatype ProductRest = ProductEnd | ProductMore(op: Op, factor: Power, rest: ProductRest)
  datatype Power = Plain(unary: Unary) | Raise(base: Unary, exponent: Power)
  datatype Unary = Atom(primary: Primary) | Plus(unary: Unary) | Minus(unary: Unary)
  datatype Primary =
    | Literal(text: string)
    | Named(name: string)
    | Group(sum: Sum)
    | Call(name: string, args: Args)
  datatype Args = NoArgs | Args(first: Sum, rest: ArgRest)
  datatype ArgRest = ArgEnd | ArgMore(arg: Sum, rest: ArgRest)

  function OpToken(op: Op): Token {
    match op case Add => AddT case Sub => SubT case Mul => MulT case Div => DivT case Mod => ModT
  }

  function Max(a: nat, b: nat): nat { if a < b then b else a }

  // ----- the tokens of a tree -----

  function SumTokens(c: Sum): seq<Token> { ProductTokens(c.first) + SumRestTokens(c.rest) }

  function SumRestTokens(c: SumRest): seq<Token> {
    match c
    case SumEnd => []
    case SumMore(op, term, rest) => [OpToken(op)] + (ProductTokens(term) + SumRestTokens(rest))
  }

  function ProductTokens(c: Product): seq<Token> { PowerTokens(c.first) + ProductRestTokens(c.rest) }

  function ProductRestTokens(c: ProductRest): seq<Token> {
    match c
    case ProductEnd => []
    case ProductMore(op, factor, rest) => [OpToken(op)] + (PowerTokens(factor) + ProductRestTokens(rest))
  }

  function PowerTokens(c: Power): seq<Token> {
    match c
    case Plain(u) => UnaryTokens(u)
    case Raise(b, x) => UnaryTokens(b) + ([PowT] + PowerTokens(x))
  }

  function UnaryTokens(c: Unary): seq<Token> {
    match c
    case Atom(p) => PrimaryTokens(p)
    case Plus(u) => [AddT] + UnaryTokens(u)
    case Minus(u) => [SubT] + UnaryTokens(u)
  }

  function PrimaryTokens(c: Primary): seq<Token> {
    match c
    case Literal(text) => [Number(text)]
    case Named(name) => [Name(name)]
    case Group(sum) => [OpenT] + (SumTokens(sum) + [CloseT])
    case Call(name, args) => [Name(name), OpenT] + (ArgsTokens(args) + [CloseT])
  }

  function ArgsTokens(c: Args): seq<Token> {
    match c case NoArgs => [] case Args(first, rest) => SumTokens(first) + ArgRestTokens(rest)
  }

  function ArgRestTokens(c: ArgRest): seq<Token> {
    match c
    case ArgEnd => []
    case ArgMore(arg, rest) => [CommaT] + (SumTokens(arg) + ArgRestTokens(rest))
  }

  // ----- how deep its parentheses and calls nest -----

  function SumNest(c: Sum): nat { Max(ProductNest(c.first), SumRestNest(c.rest)) }

  function SumRestNest(c: SumRest): nat {
    match c case SumEnd => 0 case SumMore(_, term, rest) => Max(ProductNest(term), SumRestNest(rest))
  }

  function ProductNest(c: Product): nat { Max(PowerNest(c.first), ProductRestNest(c.rest)) }

  function ProductRestNest(c: ProductRest): nat {
    match c case ProductEnd => 0 case ProductMore(_, factor, rest) => Max(PowerNest(factor), ProductRestNest(rest))
  }

  function PowerNest(c: Power): nat {
    match c case Plain(u) => UnaryNest(u) case Raise(b, x) => Max(UnaryNest(b), PowerNest(x))
  }

  function UnaryNest(c: Unary): nat {
    match c case Atom(p) => PrimaryNest(p) case Plus(u) => UnaryNest(u) case Minus(u) => UnaryNest(u)
  }

  function PrimaryNest(c: Primary): nat {
    match c
    case Literal(_) => 0
    case Named(_) => 0
    case Group(sum) => 1 + SumNest(sum)
    case Call(_, NoArgs) => 0
    case Call(_, Args(first, rest)) => 1 + Max(SumNest(first), ArgRestNest(rest))
  }

  function ArgRestNest(c: ArgRest): nat {
    match c case ArgEnd => 0 case ArgMore(arg, rest) => Max(SumNest(arg), ArgRestNest(rest))
  }

  // ----- what it means -----

  function SumMeaning(c: Sum): Expr { SumFold(ProductMeaning(c.first), c.rest) }

  function SumFold(value: Expr, c: SumRest): Expr
    decreases c
  {
    match c case SumEnd => value case SumMore(op, term, rest) => SumFold(Bin(op, value, ProductMeaning(term)), rest)
  }

  function ProductMeaning(c: Product): Expr { ProductFold(PowerMeaning(c.first), c.rest) }

  function ProductFold(value: Expr, c: ProductRest): Expr
    decreases c
  {
    match c
    case ProductEnd => value
    case ProductMore(op, factor, rest) => ProductFold(Bin(op, value, PowerMeaning(factor)), rest)
  }

  function PowerMeaning(c: Power): Expr {
    match c case Plain(u) => UnaryMeaning(u) case Raise(b, x) => Pow(UnaryMeaning(b), PowerMeaning(x))
  }

  function UnaryMeaning(c: Unary): Expr {
    match c case Atom(p) => PrimaryMeaning(p) case Plus(u) => UnaryMeaning(u) case Minus(u) => Neg(UnaryMeaning(u))
  }

  function PrimaryMeaning(c: Primary): Expr {
    match c
    case Literal(text) => Num(text)
    case Named(name) => Const(if ConstantOf(name) == Some(Pi) then Pi else E)
    case Group(sum) => SumMeaning(sum)
    case Call(name, args) => Apply(Lower(name), ArgsMeaning(args))
  }

  function ArgsMeaning(c: Args): Exprs {
    match c case NoArgs => NoExprs case Args(first, rest) => MoreExprs(SumMeaning(first), ArgRestMeaning(rest))
  }

  function ArgRestMeaning(c: ArgRest): Exprs {
    match c case ArgEnd => NoExprs case ArgMore(arg, rest) => MoreExprs(SumMeaning(arg), ArgRestMeaning(rest))
  }

  // ----- which trees are expressions: right operators, known constants and calls -----

  predicate SumOk(c: Sum) { ProductOk(c.first) && SumRestOk(c.rest) }

  predicate SumRestOk(c: SumRest) {
    match c case SumEnd => true case SumMore(op, term, rest) => Additive(op) && ProductOk(term) && SumRestOk(rest)
  }

  predicate ProductOk(c: Product) { PowerOk(c.first) && ProductRestOk(c.rest) }

  predicate ProductRestOk(c: ProductRest) {
    match c
    case ProductEnd => true
    case ProductMore(op, factor, rest) => !Additive(op) && PowerOk(factor) && ProductRestOk(rest)
  }

  predicate PowerOk(c: Power) {
    match c case Plain(u) => UnaryOk(u) case Raise(b, x) => UnaryOk(b) && PowerOk(x)
  }

  predicate UnaryOk(c: Unary) {
    match c case Atom(p) => PrimaryOk(p) case Plus(u) => UnaryOk(u) case Minus(u) => UnaryOk(u)
  }

  predicate PrimaryOk(c: Primary) {
    match c
    case Literal(_) => true
    case Named(name) => ConstantOf(name).Some?
    case Group(sum) => SumOk(sum)
    case Call(name, args) => ArgsOk(args) && Known(Lower(name), Count(ArgsMeaning(args)))
  }

  predicate ArgsOk(c: Args) {
    match c case NoArgs => true case Args(first, rest) => SumOk(first) && ArgRestOk(rest)
  }

  predicate ArgRestOk(c: ArgRest) {
    match c case ArgEnd => true case ArgMore(arg, rest) => SumOk(arg) && ArgRestOk(rest)
  }
}
