// From text to expression and back: the scanner, the parser and the printer together.
module CalcText {
  import opened Wrappers
  import opened CalcGrammar
  import opened CalcLexer
  import opened CalcParser
  import opened CalcPrinter

  // The texts of an expression's numbers.
  function Literals(e: Expr): set<string> {
    match e
    case Num(text) => {text}
    case Const(_) => {}
    case Neg(x) => Literals(x)
    case Bin(_, l, r) => Literals(l) + Literals(r)
    case Pow(b, x) => Literals(b) + Literals(x)
    case Apply(_, args) => LiteralsAll(args)
  }

  function LiteralsAll(es: Exprs): set<string> {
    match es case NoExprs => {} case MoreExprs(head, tail) => Literals(head) + LiteralsAll(tail)
  }

  // Each is written as the scanner reads numbers.
  predicate Scannable(numeric: string -> bool, texts: set<string>) {
    forall text | text in texts :: Printable(numeric, Number(text))
  }

  predicate Fine(numeric: string -> bool, ts: seq<Token>) {
    forall t | t in ts :: Printable(numeric, t)
  }

  // ----- function names are names -----

  predicate NameShaped(s: string) {
    s != "" && StartsName(s[0]) && forall i | 0 <= i < |s| :: ContinuesName(s[i])
  }

  lemma {:induction false} NameShapedEnds(s: string, i: nat)
    requires i <= |s| && forall k | 0 <= k < |s| :: ContinuesName(s[k])
    ensures NameEnd(s, i) == |s|
    decreases |s| - i
  {
    if i < |s| {
      NameShapedEnds(s, i + 1);
    }
  }

  lemma {:induction false} LowerAt(s: string, i: nat)
    requires i < |s|
    ensures Lower(s)[i] == LowerChar(s[i])
  {
    if i > 0 {
      LowerAt(s[1..], i - 1);
    }
  }

  lemma LowerIsNameShaped(s: string)
    requires NameShaped(Lower(s))
    ensures NameShaped(s)
  {
    forall i | 0 <= i < |s|
      ensures ContinuesName(s[i]) && (i == 0 ==> StartsName(s[i]))
    {
      LowerAt(s, i);
      assert ContinuesName(Lower(s)[i]);
    }
  }

  lemma RootsAreNames()
    ensures NameShaped("sqrt") && NameShaped("abs") && NameShaped("round") && NameShaped("floor") && NameShaped("ceil")
  {
  }

  lemma AnglesAreNames()
    ensures NameShaped("sin") && NameShaped("cos") && NameShaped("tan")
    ensures NameShaped("asin") && NameShaped("acos") && NameShaped("atan")
  {
  }

  lemma LogsAreNames()
    ensures NameShaped("log") && NameShaped("log2") && NameShaped("log10") && NameShaped("exp")
    ensures NameShaped("pow") && NameShaped("min") && NameShaped("max")
  {
  }

  lemma KnownIsFine(numeric: string -> bool, fn: string, count: nat)
    requires Known(Lower(fn), count)
    ensures Fine(numeric, [Name(fn)])
  {
    RootsAreNames();
    AnglesAreNames();
    LogsAreNames();
    LowerIsNameShaped(fn);
    NameShapedEnds(fn, 1);
  }

  // ----- the printer writes what the scanner reads -----

  lemma {:induction false} SumAppendFine(numeric: string -> bool, c: SumRest, op: Op, term: Product)
    requires Fine(numeric, SumRestTokens(c)) && Fine(numeric, ProductTokens(term))
    ensures Fine(numeric, SumRestTokens(SumRestAppend(c, op, term)))
    decreases c
  {
    match c
    case SumEnd =>
    case SumMore(_, _, rest) => SumAppendFine(numeric, rest, op, term);
  }

  lemma {:induction false} ProductAppendFine(numeric: string -> bool, c: ProductRest, op: Op, factor: Power)
    requires Fine(numeric, ProductRestTokens(c)) && Fine(numeric, PowerTokens(factor))
    ensures Fine(numeric, ProductRestTokens(ProductRestAppend(c, op, factor)))
    decreases c
  {
    match c
    case ProductEnd =>
    case ProductMore(_, _, rest) => ProductAppendFine(numeric, rest, op, factor);
  }

  lemma {:induction false} PrintSumFine(numeric: string -> bool, e: Expr)
    requires Valid(e) && Scannable(numeric, Literals(e))
    ensures Fine(numeric, SumTokens(PrintSum(e)))
    decreases e, Rank(e, 4)
  {
    if e.Bin? && Additive(e.op) {
      PrintSumFine(numeric, e.left);
      PrintProductFine(numeric, e.right);
      SumAppendFine(numeric, PrintSum(e.left).rest, e.op, PrintProduct(e.right));
    } else {
      PrintProductFine(numeric, e);
    }
  }

  lemma {:induction false} PrintProductFine(numeric: string -> bool, e: Expr)
    requires Valid(e) && Scannable(numeric, Literals(e))
    ensures Fine(numeric, ProductTokens(PrintProduct(e)))
    decreases e, Rank(e, 3)
  {
    if e.Bin? && !Additive(e.op) {
      PrintProductFine(numeric, e.left);
      PrintPowerFine(numeric, e.right);
      ProductAppendFine(numeric, PrintProduct(e.left).rest, e.op, PrintPower(e.right));
    } else {
      PrintPowerFine(numeric, e);
    }
  }

  lemma {:induction false} PrintPowerFine(numeric: string -> bool, e: Expr)
    requires Valid(e) && Scannable(numeric, Literals(e))
    ensures Fine(numeric, PowerTokens(PrintPower(e)))
    decreases e, Rank(e, 2)
  {
    match e
    case Pow(b, x) => PrintUnaryFine(numeric, b); PrintPowerFine(numeric, x);
    case _ => PrintUnaryFine(numeric, e);
  }

  lemma {:induction false} PrintUnaryFine(numeric: string -> bool, e: Expr)
    requires Valid(e) && Scannable(numeric, Literals(e))
    ensures Fine(numeric, UnaryTokens(PrintUnary(e)))
    decreases e, Rank(e, 1)
  {
    match e
    case Neg(x) => PrintUnaryFine(numeric, x);
    case _ => PrintPrimaryFine(numeric, e);
  }

  lemma {:induction false} PrintPrimaryFine(numeric: string -> bool, e: Expr)
    requires Valid(e) && Scannable(numeric, Literals(e))
    ensures Fine(numeric, PrimaryTokens(PrintPrimary(e)))
    decreases e, Rank(e, 0)
  {
    match e
    case Num(_) =>
    case Const(_) => NameShapedEnds("pi", 1); NameShapedEnds("e", 1);
    case Apply(_, NoExprs) =>
    case Apply(fn, MoreExprs(head, tail)) =>
      KnownIsFine(numeric, fn, Count(e.args));
      assert e.args == MoreExprs(head, tail) && Literals(e) == Literals(head) + LiteralsAll(tail);
      PrintSumFine(numeric, head);
      PrintArgsFine(numeric, tail);
    case _ => PrintSumFine(numeric, e);
  }

  lemma {:induction false} PrintArgsFine(numeric: string -> bool, es: Exprs)
    requires ValidAll(es) && Scannable(numeric, LiteralsAll(es))
    ensures Fine(numeric, ArgRestTokens(PrintArgs(es)))
    decreases es, 0
  {
    match es
    case NoExprs =>
    case MoreExprs(head, tail) => PrintSumFine(numeric, head); PrintArgsFine(numeric, tail);
  }

  // The printed text of an expression scans to its tokens, and those parse back to it.
  lemma TextRoundTrip(numeric: string -> bool, e: Expr)
    requires Valid(e) && Scannable(numeric, Literals(e))
    ensures Lex(numeric, Render(Print(e))) == Ok(Print(e))
    ensures Nest(e) <= 63 ==> Parse(Print(e), DEPTH_LIMIT) == Ok(PrintSum(e)) && SumMeaning(PrintSum(e)) == Canonical(e)
    ensures Nest(e) > 63 ==> Parse(Print(e), DEPTH_LIMIT).Err?
  {
    PrintSumFine(numeric, e);
    RenderRoundTrip(numeric, Print(e));
    RoundTrip(e);
  }

  // ----- what was scanned can be written again -----

  // The number tokens of a token list.
  function NumberTexts(ts: seq<Token>): set<string> {
    set t | t in ts && t.Number? :: t.text
  }

  lemma {:induction false} SumLiterals(c: Sum)
    ensures Literals(SumMeaning(c)) <= NumberTexts(SumTokens(c))
    decreases c, 6
  {
    ProductLiterals(c.first);
    SumFoldLiterals(ProductMeaning(c.first), c.rest);
  }

  lemma {:induction false} SumFoldLiterals(v: Expr, c: SumRest)
    ensures Literals(SumFold(v, c)) <= Literals(v) + NumberTexts(SumRestTokens(c))
    decreases c, 5
  {
    match c
    case SumEnd =>
    case SumMore(op, term, rest) =>
      ProductLiterals(term);
      SumFoldLiterals(Bin(op, v, ProductMeaning(term)), rest);
  }

  lemma {:induction false} ProductLiterals(c: Product)
    ensures Literals(ProductMeaning(c)) <= NumberTexts(ProductTokens(c))
    decreases c, 4
  {
    PowerLiterals(c.first);
    ProductFoldLiterals(PowerMeaning(c.first), c.rest);
  }

  lemma {:induction false} ProductFoldLiterals(v: Expr, c: ProductRest)
    ensures Literals(ProductFold(v, c)) <= Literals(v) + NumberTexts(ProductRestTokens(c))
    decreases c, 3
  {
    match c
    case ProductEnd =>
    case ProductMore(op, factor, rest) =>
      PowerLiterals(factor);
      ProductFoldLiterals(Bin(op, v, PowerMeaning(factor)), rest);
  }

  lemma {:induction false} PowerLiterals(c: Power)
    ensures Literals(PowerMeaning(c)) <= NumberTexts(PowerTokens(c))
    decreases c, 2
  {
    match c
    case Plain(u) => UnaryLiterals(u);
    case Raise(b, x) => UnaryLiterals(b); PowerLiterals(x);
  }

  lemma {:induction false} UnaryLiterals(c: Unary)
    ensures Literals(UnaryMeaning(c)) <= NumberTexts(UnaryTokens(c))
    decreases c, 1
  {
    match c
    case Atom(p) => PrimaryLiterals(p);
    case Plus(u) => UnaryLiterals(u);
    case Minus(u) => UnaryLiterals(u);
  }

  lemma {:induction false} PrimaryLiterals(c: Primary)
    ensures Literals(PrimaryMeaning(c)) <= NumberTexts(PrimaryTokens(c))
    decreases c, 0
  {
    match c
    case Literal(text) => assert Number(text) in PrimaryTokens(c);
    case Named(_) =>
    case Group(sum) => SumLiterals(sum);
    case Call(_, NoArgs) =>
    case Call(_, Args(first, rest)) => SumLiterals(first); ArgRestLiterals(rest);
  }

  lemma {:induction false} ArgRestLiterals(c: ArgRest)
    ensures LiteralsAll(ArgRestMeaning(c)) <= NumberTexts(ArgRestTokens(c))
    decreases c, 7
  {
    match c
    case ArgEnd =>
    case ArgMore(arg, rest) => SumLiterals(arg); ArgRestLiterals(rest);
  }

  // Whatever text is accepted, writing its expression anew gives a text that is accepted
  // with the same meaning: no condition is left.
  lemma RewritingIsSafe(numeric: string -> bool, s: string, ts: seq<Token>, c: Sum)
    requires Lex(numeric, s) == Ok(ts) && Parse(ts, DEPTH_LIMIT) == Ok(c)
    ensures var e := SumMeaning(c);
            && Lex(numeric, Render(Print(e))) == Ok(Print(e))
            && Parse(Print(e), DEPTH_LIMIT) == Ok(PrintSum(e))
            && SumMeaning(PrintSum(e)) == e
  {
    LexIsPrintable(numeric, s);
    ParsesExactly(ts, c);
    SumLiterals(c);
    SumMeaningValid(c);
    PrintSumFine(numeric, SumMeaning(c));
    RenderRoundTrip(numeric, Print(SumMeaning(c)));
    ReprintingIsSafe(ts, c);
  }
}
