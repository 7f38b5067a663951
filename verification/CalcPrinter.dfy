// Printing with as few parentheses as precedence allows, and its round trip through the
// parser. Unary binds tighter than `^`, `^` associates to the right, the rest to the left.
module CalcPrinter {
  import opened Wrappers
  import opened CalcGrammar
  import opened CalcParser

  // The loosest construct of an expression; a position of a smaller level needs parentheses.
  function Level(e: Expr): nat {
    match e
    case Bin(op, _, _) => if Additive(op) then 4 else 3
    case Pow(_, _) => 2
    case Neg(_) => 1
    case _ => 0
  }

  // Positions above the level only pass through; below it the printer wraps around once.
  function Rank(e: Expr, level: nat): nat {
    if level >= Level(e) then level - Level(e) else 5 + level
  }

  function SumAppend(c: Sum, op: Op, term: Product): Sum {
    Sum(c.first, SumRestAppend(c.rest, op, term))
  }

  function SumRestAppend(c: SumRest, op: Op, term: Product): SumRest {
    match c
    case SumEnd => SumMore(op, term, SumEnd)
    case SumMore(o, t, rest) => SumMore(o, t, SumRestAppend(rest, op, term))
  }

  function ProductAppend(c: Product, op: Op, factor: Power): Product {
    Product(c.first, ProductRestAppend(c.rest, op, factor))
  }

  function ProductRestAppend(c: ProductRest, op: Op, factor: Power): ProductRest {
    match c
    case ProductEnd => ProductMore(op, factor, ProductEnd)
    case ProductMore(o, f, rest) => ProductMore(o, f, ProductRestAppend(rest, op, factor))
  }

  function PrintSum(e: Expr): Sum
    decreases e, Rank(e, 4)
  {
    if e.Bin? && Additive(e.op) then SumAppend(PrintSum(e.left), e.op, PrintProduct(e.right))
    else Sum(PrintProduct(e), SumEnd)
  }

  function PrintProduct(e: Expr): Product
    decreases e, Rank(e, 3)
  {
    if e.Bin? && !Additive(e.op) then ProductAppend(PrintProduct(e.left), e.op, PrintPower(e.right))
    else Product(PrintPower(e), ProductEnd)
  }

  function PrintPower(e: Expr): Power
    decreases e, Rank(e, 2)
  {
    match e
    case Pow(b, x) => Raise(PrintUnary(b), PrintPower(x))
    case _ => Plain(PrintUnary(e))
  }

  function PrintUnary(e: Expr): Unary
    decreases e, Rank(e, 1)
  {
    match e
    case Neg(x) => Minus(PrintUnary(x))
    case _ => Atom(PrintPrimary(e))
  }

  function PrintPrimary(e: Expr): Primary
    decreases e, Rank(e, 0)
  {
    match e
    case Num(text) => Literal(text)
    case Const(Pi) => Named("pi")
    case Const(E) => Named("e")
    case Apply(fn, NoExprs) => Call(fn, NoArgs)
    case Apply(fn, MoreExprs(head, tail)) => Call(fn, Args(PrintSum(head), PrintArgs(tail)))
    case _ => Group(PrintSum(e))
  }

  function PrintArgs(es: Exprs): ArgRest
    decreases es, 0
  {
    match es case NoExprs => ArgEnd case MoreExprs(head, tail) => ArgMore(PrintSum(head), PrintArgs(tail))
  }

  function Print(e: Expr): seq<Token> {
    SumTokens(PrintSum(e))
  }

  // ----- printing keeps the meaning -----

  lemma {:induction false} SumAppendFacts(v: Expr, c: SumRest, op: Op, term: Product)
    ensures SumFold(v, SumRestAppend(c, op, term)) == Bin(op, SumFold(v, c), ProductMeaning(term))
    ensures SumRestOk(SumRestAppend(c, op, term)) <==> SumRestOk(c) && Additive(op) && ProductOk(term)
    ensures |SumRestTokens(SumRestAppend(c, op, term))| == |SumRestTokens(c)| + 1 + |ProductTokens(term)|
    ensures SumRestNest(SumRestAppend(c, op, term)) == Max(SumRestNest(c), ProductNest(term))
    decreases c
  {
    match c
    case SumEnd =>
    case SumMore(o, t, rest) => SumAppendFacts(Bin(o, v, ProductMeaning(t)), rest, op, term);
  }

  lemma {:induction false} ProductAppendFacts(v: Expr, c: ProductRest, op: Op, factor: Power)
    ensures ProductFold(v, ProductRestAppend(c, op, factor)) == Bin(op, ProductFold(v, c), PowerMeaning(factor))
    ensures ProductRestOk(ProductRestAppend(c, op, factor)) <==> ProductRestOk(c) && !Additive(op) && PowerOk(factor)
    ensures |ProductRestTokens(ProductRestAppend(c, op, factor))| == |ProductRestTokens(c)| + 1 + |PowerTokens(factor)|
    ensures ProductRestNest(ProductRestAppend(c, op, factor)) == Max(ProductRestNest(c), PowerNest(factor))
    decreases c
  {
    match c
    case ProductEnd =>
    case ProductMore(o, f, rest) => ProductAppendFacts(Bin(o, v, PowerMeaning(f)), rest, op, factor);
  }

  lemma ConstantsNamed()
    ensures ConstantOf("pi") == Some(Pi) && ConstantOf("e") == Some(E)
  {
    assert Lower("e") == "e";
    assert Lower("pi") == [LowerChar('p')] + Lower("i");
    assert Lower("i") == "i";
  }

  lemma {:induction false} PrintSumMeans(e: Expr)
    ensures SumMeaning(PrintSum(e)) == Canonical(e)
    ensures Valid(e) ==> SumOk(PrintSum(e))
    decreases e, Rank(e, 4)
  {
    if e.Bin? && Additive(e.op) {
      PrintSumMeans(e.left);
      PrintProductMeans(e.right);
      var l := PrintSum(e.left);
      SumAppendFacts(ProductMeaning(l.first), l.rest, e.op, PrintProduct(e.right));
    } else {
      PrintProductMeans(e);
    }
  }

  lemma {:induction false} PrintProductMeans(e: Expr)
    ensures ProductMeaning(PrintProduct(e)) == Canonical(e)
    ensures Valid(e) ==> ProductOk(PrintProduct(e))
    decreases e, Rank(e, 3)
  {
    if e.Bin? && !Additive(e.op) {
      PrintProductMeans(e.left);
      PrintPowerMeans(e.right);
      var l := PrintProduct(e.left);
      ProductAppendFacts(PowerMeaning(l.first), l.rest, e.op, PrintPower(e.right));
    } else {
      PrintPowerMeans(e);
    }
  }

  lemma {:induction false} PrintPowerMeans(e: Expr)
    ensures PowerMeaning(PrintPower(e)) == Canonical(e)
    ensures Valid(e) ==> PowerOk(PrintPower(e))
    decreases e, Rank(e, 2)
  {
    match e
    case Pow(b, x) => PrintUnaryMeans(b); PrintPowerMeans(x);
    case _ => PrintUnaryMeans(e);
  }

  lemma {:induction false} PrintUnaryMeans(e: Expr)
    ensures UnaryMeaning(PrintUnary(e)) == Canonical(e)
    ensures Valid(e) ==> UnaryOk(PrintUnary(e))
    decreases e, Rank(e, 1)
  {
    match e
    case Neg(x) => PrintUnaryMeans(x);
    case _ => PrintPrimaryMeans(e);
  }

  lemma {:induction false} PrintPrimaryMeans(e: Expr)
    ensures PrimaryMeaning(PrintPrimary(e)) == Canonical(e)
    ensures Valid(e) ==> PrimaryOk(PrintPrimary(e))
    decreases e, Rank(e, 0)
  {
    match e
    case Num(_) =>
    case Const(c) => ConstantsNamed();
    case Apply(fn, NoExprs) =>
    case Apply(fn, MoreExprs(head, tail)) =>
      PrintSumMeans(head);
      PrintArgsMeans(tail);
      CanonicalCount(e.args);
      var args := Args(PrintSum(head), PrintArgs(tail));
      assert PrintPrimary(e) == Call(fn, args) && ArgsMeaning(args) == CanonicalAll(e.args);
      if Valid(e) {
        assert ValidAll(MoreExprs(head, tail));
        assert ArgsOk(args);
      }
    case _ => PrintSumMeans(e);
  }

  lemma {:induction false} PrintArgsMeans(es: Exprs)
    ensures ArgRestMeaning(PrintArgs(es)) == CanonicalAll(es)
    ensures ValidAll(es) ==> ArgRestOk(PrintArgs(es))
    decreases es, 0
  {
    match es
    case NoExprs =>
    case MoreExprs(head, tail) => PrintSumMeans(head); PrintArgsMeans(tail);
  }

  // Function names are compared without case, so the parser reports them in lower case.
  function Canonical(e: Expr): Expr {
    match e
    case Num(_) => e
    case Const(_) => e
    case Neg(x) => Neg(Canonical(x))
    case Bin(op, l, r) => Bin(op, Canonical(l), Canonical(r))
    case Pow(b, x) => Pow(Canonical(b), Canonical(x))
    case Apply(fn, args) => Apply(Lower(fn), CanonicalAll(args))
  }

  function CanonicalAll(es: Exprs): Exprs {
    match es case NoExprs => NoExprs case MoreExprs(head, tail) => MoreExprs(Canonical(head), CanonicalAll(tail))
  }

  lemma CanonicalCount(es: Exprs)
    ensures Count(CanonicalAll(es)) == Count(es)
  {
  }

  // ----- how long and how deep the printed form is -----

  // Tokens of the printed form on its own, and in a position of a given level.
  function Length(e: Expr): nat
    decreases e, 0
  {
    match e
    case Num(_) => 1
    case Const(_) => 1
    case Neg(x) => 1 + LengthAt(x, 1)
    case Bin(op, l, r) => LengthAt(l, Level(e)) + 1 + LengthAt(r, Level(e) - 1)
    case Pow(b, x) => LengthAt(b, 1) + 1 + LengthAt(x, 2)
    case Apply(_, NoExprs) => 3
    case Apply(_, MoreExprs(head, tail)) => 3 + Length(head) + LengthAll(tail)
  }

  function LengthAt(e: Expr, level: nat): nat
    decreases e, 1
  {
    Length(e) + if level < Level(e) then 2 else 0
  }

  function LengthAll(es: Exprs): nat
    decreases es, 0
  {
    match es case NoExprs => 0 case MoreExprs(head, tail) => 1 + Length(head) + LengthAll(tail)
  }

  function Nest(e: Expr): nat
    decreases e, 0
  {
    match e
    case Num(_) => 0
    case Const(_) => 0
    case Neg(x) => NestAt(x, 1)
    case Bin(op, l, r) => Max(NestAt(l, Level(e)), NestAt(r, Level(e) - 1))
    case Pow(b, x) => Max(NestAt(b, 1), NestAt(x, 2))
    case Apply(_, NoExprs) => 0
    case Apply(_, MoreExprs(head, tail)) => 1 + Max(Nest(head), NestAll(tail))
  }

  function NestAt(e: Expr, level: nat): nat
    decreases e, 1
  {
    Nest(e) + if level < Level(e) then 1 else 0
  }

  function NestAll(es: Exprs): nat
    decreases es, 0
  {
    match es case NoExprs => 0 case MoreExprs(head, tail) => Max(Nest(head), NestAll(tail))
  }

  lemma {:induction false} PrintSumCost(e: Expr)
    ensures |SumTokens(PrintSum(e))| == LengthAt(e, 4) && SumNest(PrintSum(e)) == NestAt(e, 4)
    decreases e, Rank(e, 4)
  {
    if e.Bin? && Additive(e.op) {
      PrintSumCost(e.left);
      PrintProductCost(e.right);
      var l := PrintSum(e.left);
      SumAppendFacts(ProductMeaning(l.first), l.rest, e.op, PrintProduct(e.right));
    } else {
      PrintProductCost(e);
    }
  }

  lemma {:induction false} PrintProductCost(e: Expr)
    ensures |ProductTokens(PrintProduct(e))| == LengthAt(e, 3) && ProductNest(PrintProduct(e)) == NestAt(e, 3)
    decreases e, Rank(e, 3)
  {
    if e.Bin? && !Additive(e.op) {
      PrintProductCost(e.left);
      PrintPowerCost(e.right);
      var l := PrintProduct(e.left);
      ProductAppendFacts(PowerMeaning(l.first), l.rest, e.op, PrintPower(e.right));
    } else {
      PrintPowerCost(e);
    }
  }

  lemma {:induction false} PrintPowerCost(e: Expr)
    ensures |PowerTokens(PrintPower(e))| == LengthAt(e, 2) && PowerNest(PrintPower(e)) == NestAt(e, 2)
    decreases e, Rank(e, 2)
  {
    match e
    case Pow(b, x) => PrintUnaryCost(b); PrintPowerCost(x);
    case _ => PrintUnaryCost(e);
  }

  lemma {:induction false} PrintUnaryCost(e: Expr)
    ensures |UnaryTokens(PrintUnary(e))| == LengthAt(e, 1) && UnaryNest(PrintUnary(e)) == NestAt(e, 1)
    decreases e, Rank(e, 1)
  {
    match e
    case Neg(x) => PrintUnaryCost(x);
    case _ => PrintPrimaryCost(e);
  }

  lemma {:induction false} PrintPrimaryCost(e: Expr)
    ensures |PrimaryTokens(PrintPrimary(e))| == LengthAt(e, 0) && PrimaryNest(PrintPrimary(e)) == NestAt(e, 0)
    decreases e, Rank(e, 0)
  {
    match e
    case Num(_) =>
    case Const(_) =>
    case Apply(fn, NoExprs) =>
    case Apply(fn, MoreExprs(head, tail)) => PrintSumCost(head); PrintArgsCost(tail);
    case _ => PrintSumCost(e);
  }

  lemma {:induction false} PrintArgsCost(es: Exprs)
    ensures |ArgRestTokens(PrintArgs(es))| == LengthAll(es) && ArgRestNest(PrintArgs(es)) == NestAll(es)
    decreases es, 0
  {
    match es
    case NoExprs =>
    case MoreExprs(head, tail) => PrintSumCost(head); PrintArgsCost(tail);
  }

  // ----- no tree with the same meaning is shorter or shallower -----

  lemma {:induction false} SumCost(c: Sum)
    ensures SumOk(c) ==> LengthAt(SumMeaning(c), 4) <= |SumTokens(c)| && NestAt(SumMeaning(c), 4) <= SumNest(c)
    decreases c, 6
  {
    ProductCost(c.first);
    SumRestCost(ProductMeaning(c.first), c.rest);
  }

  lemma {:induction false} SumRestCost(v: Expr, c: SumRest)
    ensures SumRestOk(c) ==> LengthAt(SumFold(v, c), 4) <= LengthAt(v, 4) + |SumRestTokens(c)|
    ensures SumRestOk(c) ==> NestAt(SumFold(v, c), 4) <= Max(NestAt(v, 4), SumRestNest(c))
    decreases c, 5
  {
    match c
    case SumEnd =>
    case SumMore(op, term, rest) =>
      ProductCost(term);
      SumRestCost(Bin(op, v, ProductMeaning(term)), rest);
  }

  lemma {:induction false} ProductCost(c: Product)
    ensures ProductOk(c) ==> LengthAt(ProductMeaning(c), 3) <= |ProductTokens(c)| && NestAt(ProductMeaning(c), 3) <= ProductNest(c)
    decreases c, 4
  {
    PowerCost(c.first);
    ProductRestCost(PowerMeaning(c.first), c.rest);
  }

  lemma {:induction false} ProductRestCost(v: Expr, c: ProductRest)
    ensures ProductRestOk(c) ==> LengthAt(ProductFold(v, c), 3) <= LengthAt(v, 3) + |ProductRestTokens(c)|
    ensures ProductRestOk(c) ==> NestAt(ProductFold(v, c), 3) <= Max(NestAt(v, 3), ProductRestNest(c))
    decreases c, 3
  {
    match c
    case ProductEnd =>
    case ProductMore(op, factor, rest) =>
      PowerCost(factor);
      ProductRestCost(Bin(op, v, PowerMeaning(factor)), rest);
  }

  lemma {:induction false} PowerCost(c: Power)
    ensures PowerOk(c) ==> LengthAt(PowerMeaning(c), 2) <= |PowerTokens(c)| && NestAt(PowerMeaning(c), 2) <= PowerNest(c)
    decreases c, 2
  {
    match c
    case Plain(u) => UnaryCost(u);
    case Raise(b, x) => UnaryCost(b); PowerCost(x);
  }

  lemma {:induction false} UnaryCost(c: Unary)
    ensures UnaryOk(c) ==> LengthAt(UnaryMeaning(c), 1) <= |UnaryTokens(c)| && NestAt(UnaryMeaning(c), 1) <= UnaryNest(c)
    decreases c, 1
  {
    match c
    case Atom(p) => PrimaryCost(p);
    case Plus(u) => UnaryCost(u);
    case Minus(u) => UnaryCost(u);
  }

  lemma {:induction false} PrimaryCost(c: Primary)
    ensures PrimaryOk(c) ==> LengthAt(PrimaryMeaning(c), 0) <= |PrimaryTokens(c)| && NestAt(PrimaryMeaning(c), 0) <= PrimaryNest(c)
    decreases c, 0
  {
    match c
    case Literal(_) =>
    case Named(_) =>
    case Group(sum) => SumCost(sum);
    case Call(name, NoArgs) =>
    case Call(name, Args(first, rest)) =>
      SumCost(first);
      ArgRestCost(rest);
      assert PrimaryOk(c) ==> ArgsOk(Args(first, rest)) && SumOk(first) && ArgRestOk(rest);
  }

  lemma {:induction false} ArgRestCost(c: ArgRest)
    ensures ArgRestOk(c) ==> LengthAll(ArgRestMeaning(c)) <= |ArgRestTokens(c)| && NestAll(ArgRestMeaning(c)) <= ArgRestNest(c)
    decreases c, 7
  {
    match c
    case ArgEnd =>
    case ArgMore(arg, rest) => SumCost(arg); ArgRestCost(rest);
  }

  lemma MinimalForm(c: Sum)
    requires SumOk(c)
    ensures |Print(SumMeaning(c))| <= |SumTokens(c)| && SumNest(PrintSum(SumMeaning(c))) <= SumNest(c)
  {
    SumCost(c);
    PrintSumCost(SumMeaning(c));
  }

  // ----- the round trips -----

  // Printing and parsing gives the expression back exactly when its printed form nests no
  // deeper than the parser allows; otherwise parsing fails.
  lemma RoundTrip(e: Expr)
    requires Valid(e)
    ensures Nest(e) <= 63 ==> Parse(Print(e), DEPTH_LIMIT) == Ok(PrintSum(e)) && SumMeaning(PrintSum(e)) == Canonical(e)
    ensures Nest(e) > 63 ==> Parse(Print(e), DEPTH_LIMIT).Err?
  {
    PrintSumMeans(e);
    PrintSumCost(e);
    ParsesExactly(Print(e), PrintSum(e));
    match Parse(Print(e), DEPTH_LIMIT)
    case Ok(c) =>
      ParsesExactly(Print(e), c);
      Unambiguous(c, PrintSum(e));
    case Err(_) =>
  }

  // Whatever the parser accepts can be printed and parsed again with the same meaning, and
  // the printed form is no longer: no depth condition is left.
  lemma ReprintingIsSafe(ts: seq<Token>, c: Sum)
    requires Parse(ts, DEPTH_LIMIT) == Ok(c)
    ensures var e := SumMeaning(c);
            && Parse(Print(e), DEPTH_LIMIT) == Ok(PrintSum(e))
            && SumMeaning(PrintSum(e)) == e
            && |Print(e)| <= |ts|
  {
    ParsesExactly(ts, c);
    MinimalForm(c);
    SumMeaningValid(c);
    PrintSumMeans(SumMeaning(c));
    PrintSumCost(SumMeaning(c));
    RoundTrip(SumMeaning(c));
  }

  // ----- what the parser reports is valid and names functions in lower case -----

  lemma {:induction false} LowerTwice(s: string)
    ensures Lower(Lower(s)) == Lower(s)
  {
    if s != "" {
      LowerTwice(s[1..]);
      assert Lower(s)[1..] == Lower(s[1..]);
    }
  }

  ghost predicate Reported(e: Expr) { Valid(e) && Canonical(e) == e }

  lemma {:induction false} SumMeaningValid(c: Sum)
    ensures SumOk(c) ==> Reported(SumMeaning(c))
    decreases c, 6
  {
    ProductMeaningValid(c.first);
    SumFoldValid(ProductMeaning(c.first), c.rest);
  }

  lemma {:induction false} SumFoldValid(v: Expr, c: SumRest)
    ensures SumRestOk(c) && Reported(v) ==> Reported(SumFold(v, c))
    decreases c, 5
  {
    match c
    case SumEnd =>
    case SumMore(op, term, rest) =>
      ProductMeaningValid(term);
      SumFoldValid(Bin(op, v, ProductMeaning(term)), rest);
  }

  lemma {:induction false} ProductMeaningValid(c: Product)
    ensures ProductOk(c) ==> Reported(ProductMeaning(c))
    decreases c, 4
  {
    PowerMeaningValid(c.first);
    ProductFoldValid(PowerMeaning(c.first), c.rest);
  }

  lemma {:induction false} ProductFoldValid(v: Expr, c: ProductRest)
    ensures ProductRestOk(c) && Reported(v) ==> Reported(ProductFold(v, c))
    decreases c, 3
  {
    match c
    case ProductEnd =>
    case ProductMore(op, factor, rest) =>
      PowerMeaningValid(factor);
      ProductFoldValid(Bin(op, v, PowerMeaning(factor)), rest);
  }

  lemma {:induction false} PowerMeaningValid(c: Power)
    ensures PowerOk(c) ==> Reported(PowerMeaning(c))
    decreases c, 2
  {
    match c
    case Plain(u) => UnaryMeaningValid(u);
    case Raise(b, x) => UnaryMeaningValid(b); PowerMeaningValid(x);
  }

  lemma {:induction false} UnaryMeaningValid(c: Unary)
    ensures UnaryOk(c) ==> Reported(UnaryMeaning(c))
    decreases c, 1
  {
    match c
    case Atom(p) => PrimaryMeaningValid(p);
    case Plus(u) => UnaryMeaningValid(u);
    case Minus(u) => UnaryMeaningValid(u);
  }

  lemma {:induction false} PrimaryMeaningValid(c: Primary)
    ensures PrimaryOk(c) ==> Reported(PrimaryMeaning(c))
    decreases c, 0
  {
    match c
    case Literal(_) =>
    case Named(_) =>
    case Group(sum) => SumMeaningValid(sum);
    case Call(name, args) =>
      LowerTwice(name);
      if args.Args? {
        SumMeaningValid(args.first);
        ArgRestMeaningValid(args.rest);
      }
      assert ArgsOk(args) ==> ValidAll(ArgsMeaning(args)) && CanonicalAll(ArgsMeaning(args)) == ArgsMeaning(args);
  }

  lemma {:induction false} ArgRestMeaningValid(c: ArgRest)
    ensures ArgRestOk(c) ==> ValidAll(ArgRestMeaning(c)) && CanonicalAll(ArgRestMeaning(c)) == ArgRestMeaning(c)
    decreases c, 7
  {
    match c
    case ArgEnd =>
    case ArgMore(arg, rest) => SumMeaningValid(arg); ArgRestMeaningValid(rest);
  }
}
