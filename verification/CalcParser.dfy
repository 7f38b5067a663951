// The recursive-descent parser: a specification on token suffixes, the object that walks
// an index over the tokens as the source does, and the exact language both accept.
module CalcParser {
  import opened Wrappers
  import opened CalcGrammar

  const DEPTH_LIMIT: nat := 64

  function Head(ts: seq<Token>): Option<Token> {
    if ts == [] then None else Some(ts[0])
  }

  function AddOp(t: Option<Token>): Option<Op> {
    match t case Some(AddT) => Some(Add) case Some(SubT) => Some(Sub) case _ => None
  }

  function MulOp(t: Option<Token>): Option<Op> {
    match t case Some(MulT) => Some(Mul) case Some(DivT) => Some(Div) case Some(ModT) => Some(Mod) case _ => None
  }

  type Parsed<+T> = Result<(T, seq<Token>), Error>

  // ----- the specification: each production returns its tree and the tokens left -----

  function ParseSum(ts: seq<Token>, depth: nat, limit: nat): (r: Parsed<Sum>)
    ensures r.Ok? ==> |r.value.1| < |ts|
    decreases |ts|, 6
  {
    match ParseProduct(ts, depth, limit)
    case Err(e) => Err(e)
    case Ok((first, left)) =>
      match ParseSumRest(left, depth, limit)
      case Err(e) => Err(e)
      case Ok((rest, remaining)) => Ok((Sum(first, rest), remaining))
  }

  function ParseSumRest(ts: seq<Token>, depth: nat, limit: nat): (r: Parsed<SumRest>)
    ensures r.Ok? ==> |r.value.1| <= |ts|
    decreases |ts|, 5
  {
    var op := AddOp(Head(ts));
    if op.None? then Ok((SumEnd, ts))
    else match ParseProduct(ts[1..], depth, limit)
      case Err(e) => Err(e)
      case Ok((term, left)) =>
        match ParseSumRest(left, depth, limit)
        case Err(e) => Err(e)
        case Ok((rest, remaining)) => Ok((SumMore(op.value, term, rest), remaining))
  }

  function ParseProduct(ts: seq<Token>, depth: nat, limit: nat): (r: Parsed<Product>)
    ensures r.Ok? ==> |r.value.1| < |ts|
    decreases |ts|, 4
  {
    match ParsePower(ts, depth, limit)
    case Err(e) => Err(e)
    case Ok((first, left)) =>
      match ParseProductRest(left, depth, limit)
      case Err(e) => Err(e)
      case Ok((rest, remaining)) => Ok((Product(first, rest), remaining))
  }

  function ParseProductRest(ts: seq<Token>, depth: nat, limit: nat): (r: Parsed<ProductRest>)
    ensures r.Ok? ==> |r.value.1| <= |ts|
    decreases |ts|, 3
  {
    var op := MulOp(Head(ts));
    if op.None? then Ok((ProductEnd, ts))
    else match ParsePower(ts[1..], depth, limit)
      case Err(e) => Err(e)
      case Ok((factor, left)) =>
        match ParseProductRest(left, depth, limit)
        case Err(e) => Err(e)
        case Ok((rest, remaining)) => Ok((ProductMore(op.value, factor, rest), remaining))
  }

  function ParsePower(ts: seq<Token>, depth: nat, limit: nat): (r: Parsed<Power>)
    ensures r.Ok? ==> |r.value.1| < |ts|
    decreases |ts|, 2
  {
    match ParseUnary(ts, depth, limit)
    case Err(e) => Err(e)
    case Ok((base, left)) =>
      if Head(left) == Some(PowT) then
        match ParsePower(left[1..], depth, limit)
        case Err(e) => Err(e)
        case Ok((exponent, remaining)) => Ok((Raise(base, exponent), remaining))
      else Ok((Plain(base), left))
  }

  function ParseUnary(ts: seq<Token>, depth: nat, limit: nat): (r: Parsed<Unary>)
    ensures r.Ok? ==> |r.value.1| < |ts|
    decreases |ts|, 1
  {
    match Head(ts)
    case Some(AddT) =>
      (match ParseUnary(ts[1..], depth, limit)
       case Err(e) => Err(e)
       case Ok((u, remaining)) => Ok((Plus(u), remaining)))
    case Some(SubT) =>
      (match ParseUnary(ts[1..], depth, limit)
       case Err(e) => Err(e)
       case Ok((u, remaining)) => Ok((Minus(u), remaining)))
    case _ =>
      match ParsePrimary(ts, depth, limit)
      case Err(e) => Err(e)
      case Ok((p, remaining)) => Ok((Atom(p), remaining))
  }

  function ParsePrimary(ts: seq<Token>, depth: nat, limit: nat): (r: Parsed<Primary>)
    ensures r.Ok? ==> |r.value.1| < |ts|
    decreases |ts|, 0
  {
    if depth + 1 > limit then Err(TooDeep)
    else match Head(ts)
      case None => Err(UnexpectedEnd)
      case Some(Number(text)) => Ok((Literal(text), ts[1..]))
      case Some(OpenT) =>
        (match ParseSum(ts[1..], depth + 1, limit)
         case Err(e) => Err(e)
         case Ok((sum, left)) =>
           if Head(left) != Some(CloseT) then Err(Expected) else Ok((Group(sum), left[1..])))
      case Some(Name(name)) =>
        if Head(ts[1..]) == Some(OpenT) then
          match ParseArgs(ts[2..], depth + 1, limit)
          case Err(e) => Err(e)
          case Ok((args, left)) =>
            if Head(left) != Some(CloseT) then Err(Expected)
            else if !Known(Lower(name), Count(ArgsMeaning(args))) then Err(BadCall)
            else Ok((Call(name, args), left[1..]))
        else if ConstantOf(name).Some? then Ok((Named(name), ts[1..]))
        else Err(Unexpected)
      case _ => Err(Unexpected)
  }

  function ParseArgs(ts: seq<Token>, depth: nat, limit: nat): (r: Parsed<Args>)
    ensures r.Ok? ==> |r.value.1| <= |ts|
    decreases |ts|, 8
  {
    if Head(ts) == Some(CloseT) then Ok((NoArgs, ts))
    else match ParseSum(ts, depth, limit)
      case Err(e) => Err(e)
      case Ok((first, left)) =>
        match ParseArgRest(left, depth, limit)
        case Err(e) => Err(e)
        case Ok((rest, remaining)) => Ok((Args(first, rest), remaining))
  }

  function ParseArgRest(ts: seq<Token>, depth: nat, limit: nat): (r: Parsed<ArgRest>)
    ensures r.Ok? ==> |r.value.1| <= |ts|
    decreases |ts|, 7
  {
    if Head(ts) != Some(CommaT) then Ok((ArgEnd, ts))
    else match ParseSum(ts[1..], depth, limit)
      case Err(e) => Err(e)
      case Ok((arg, left)) =>
        match ParseArgRest(left, depth, limit)
        case Err(e) => Err(e)
        case Ok((rest, remaining)) => Ok((ArgMore(arg, rest), remaining))
  }

  function Parse(ts: seq<Token>, limit: nat): Result<Sum, Error> {
    match ParseSum(ts, 0, limit)
    case Err(e) => Err(e)
    case Ok((c, left)) => if left != [] then Err(Unexpected) else Ok(c)
  }

  // ----- what is parsed is a tree of exactly the tokens consumed -----

  lemma JoinTwo(ts: seq<Token>, a: seq<Token>, b: seq<Token>, left: seq<Token>)
    requires ts == a + (b + left)
    ensures ts == (a + b) + left
  {
  }

  lemma JoinThree(t: Token, ts: seq<Token>, a: seq<Token>, b: seq<Token>, left: seq<Token>)
    requires ts != [] && ts[0] == t && ts[1..] == a + (b + left)
    ensures ts == ([t] + (a + b)) + left
  {
  }

  lemma {:induction false} SumSound(ts: seq<Token>, depth: nat, limit: nat, c: Sum, left: seq<Token>)
    requires ParseSum(ts, depth, limit) == Ok((c, left))
    ensures ts == SumTokens(c) + left && SumOk(c) && depth + 1 + SumNest(c) <= limit
    decreases |ts|, 6
  {
    var middle := ParseProduct(ts, depth, limit).value.1;
    ProductSound(ts, depth, limit, c.first, middle);
    SumRestSound(middle, depth, limit, c.rest, left);
    JoinTwo(ts, ProductTokens(c.first), SumRestTokens(c.rest), left);
  }

  lemma {:induction false} SumRestSound(ts: seq<Token>, depth: nat, limit: nat, c: SumRest, left: seq<Token>)
    requires ParseSumRest(ts, depth, limit) == Ok((c, left))
    ensures ts == SumRestTokens(c) + left && SumRestOk(c) && (c.SumMore? ==> depth + 1 + SumRestNest(c) <= limit)
    decreases |ts|, 5
  {
    match c
    case SumEnd =>
    case SumMore(op, term, rest) =>
      var middle := ParseProduct(ts[1..], depth, limit).value.1;
      ProductSound(ts[1..], depth, limit, term, middle);
      SumRestSound(middle, depth, limit, rest, left);
      JoinThree(OpToken(op), ts, ProductTokens(term), SumRestTokens(rest), left);
  }

  lemma {:induction false} ProductSound(ts: seq<Token>, depth: nat, limit: nat, c: Product, left: seq<Token>)
    requires ParseProduct(ts, depth, limit) == Ok((c, left))
    ensures ts == ProductTokens(c) + left && ProductOk(c) && depth + 1 + ProductNest(c) <= limit
    decreases |ts|, 4
  {
    var middle := ParsePower(ts, depth, limit).value.1;
    PowerSound(ts, depth, limit, c.first, middle);
    ProductRestSound(middle, depth, limit, c.rest, left);
    JoinTwo(ts, PowerTokens(c.first), ProductRestTokens(c.rest), left);
  }

  lemma {:induction false} ProductRestSound(ts: seq<Token>, depth: nat, limit: nat, c: ProductRest, left: seq<Token>)
    requires ParseProductRest(ts, depth, limit) == Ok((c, left))
    ensures ts == ProductRestTokens(c) + left && ProductRestOk(c)
    ensures c.ProductMore? ==> depth + 1 + ProductRestNest(c) <= limit
    decreases |ts|, 3
  {
    match c
    case ProductEnd =>
    case ProductMore(op, factor, rest) =>
      var middle := ParsePower(ts[1..], depth, limit).value.1;
      PowerSound(ts[1..], depth, limit, factor, middle);
      ProductRestSound(middle, depth, limit, rest, left);
      JoinThree(OpToken(op), ts, PowerTokens(factor), ProductRestTokens(rest), left);
  }

  lemma {:induction false} PowerSound(ts: seq<Token>, depth: nat, limit: nat, c: Power, left: seq<Token>)
    requires ParsePower(ts, depth, limit) == Ok((c, left))
    ensures ts == PowerTokens(c) + left && PowerOk(c) && depth + 1 + PowerNest(c) <= limit
    decreases |ts|, 2
  {
    var middle := ParseUnary(ts, depth, limit).value.1;
    match c
    case Plain(u) => UnarySound(ts, depth, limit, u, left);
    case Raise(b, x) =>
      UnarySound(ts, depth, limit, b, middle);
      PowerSound(middle[1..], depth, limit, x, left);
      assert middle == ([PowT] + PowerTokens(x)) + left;
      JoinTwo(ts, UnaryTokens(b), [PowT] + PowerTokens(x), left);
  }

  lemma {:induction false} UnarySound(ts: seq<Token>, depth: nat, limit: nat, c: Unary, left: seq<Token>)
    requires ParseUnary(ts, depth, limit) == Ok((c, left))
    ensures ts == UnaryTokens(c) + left && UnaryOk(c) && depth + 1 + UnaryNest(c) <= limit
    decreases |ts|, 1
  {
    match c
    case Atom(p) => PrimarySound(ts, depth, limit, p, left);
    case Plus(u) => UnarySound(ts[1..], depth, limit, u, left);
    case Minus(u) => UnarySound(ts[1..], depth, limit, u, left);
  }

  lemma {:induction false} PrimarySound(ts: seq<Token>, depth: nat, limit: nat, c: Primary, left: seq<Token>)
    requires ParsePrimary(ts, depth, limit) == Ok((c, left))
    ensures ts == PrimaryTokens(c) + left && PrimaryOk(c) && depth + 1 + PrimaryNest(c) <= limit
    decreases |ts|, 0
  {
    match c
    case Literal(_) =>
    case Named(_) =>
    case Group(sum) =>
      var middle := ParseSum(ts[1..], depth + 1, limit).value.1;
      SumSound(ts[1..], depth + 1, limit, sum, middle);
      JoinThree(OpenT, ts, SumTokens(sum), [CloseT], left);
    case Call(name, args) =>
      var middle := ParseArgs(ts[2..], depth + 1, limit).value.1;
      ArgsSound(ts[2..], depth + 1, limit, args, middle);
      assert ts == [Name(name), OpenT] + ts[2..];
      JoinTwo(ts[2..], ArgsTokens(args), [CloseT], left);
      assert ts == ([Name(name), OpenT] + (ArgsTokens(args) + [CloseT])) + left;
  }

  lemma {:induction false} ArgsSound(ts: seq<Token>, depth: nat, limit: nat, c: Args, left: seq<Token>)
    requires ParseArgs(ts, depth, limit) == Ok((c, left))
    ensures ts == ArgsTokens(c) + left && ArgsOk(c)
    ensures c.Args? ==> depth + 1 + Max(SumNest(c.first), ArgRestNest(c.rest)) <= limit
    decreases |ts|, 8
  {
    match c
    case NoArgs =>
    case Args(first, rest) =>
      var middle := ParseSum(ts, depth, limit).value.1;
      SumSound(ts, depth, limit, first, middle);
      ArgRestSound(middle, depth, limit, rest, left);
      JoinTwo(ts, SumTokens(first), ArgRestTokens(rest), left);
  }

  lemma {:induction false} ArgRestSound(ts: seq<Token>, depth: nat, limit: nat, c: ArgRest, left: seq<Token>)
    requires ParseArgRest(ts, depth, limit) == Ok((c, left))
    ensures ts == ArgRestTokens(c) + left && ArgRestOk(c) && (c.ArgMore? ==> depth + 1 + ArgRestNest(c) <= limit)
    decreases |ts|, 7
  {
    match c
    case ArgEnd =>
    case ArgMore(arg, rest) =>
      var middle := ParseSum(ts[1..], depth, limit).value.1;
      SumSound(ts[1..], depth, limit, arg, middle);
      ArgRestSound(middle, depth, limit, rest, left);
      JoinThree(CommaT, ts, SumTokens(arg), ArgRestTokens(rest), left);
  }

  // ----- every tree is parsed back from its tokens -----

  // What may follow a phrase without being drawn into it.
  predicate EndsPrimary(ts: seq<Token>) { Head(ts) != Some(OpenT) }
  predicate EndsPower(ts: seq<Token>) { EndsPrimary(ts) && Head(ts) != Some(PowT) }
  predicate EndsProduct(ts: seq<Token>) { EndsPower(ts) && MulOp(Head(ts)).None? }
  predicate EndsSum(ts: seq<Token>) { EndsProduct(ts) && AddOp(Head(ts)).None? }

  lemma {:induction false} SumBack(c: Sum, left: seq<Token>, depth: nat, limit: nat)
    requires SumOk(c) && depth + 1 + SumNest(c) <= limit && EndsSum(left)
    ensures ParseSum(SumTokens(c) + left, depth, limit) == Ok((c, left))
    decreases c, 6
  {
    assert SumTokens(c) + left == ProductTokens(c.first) + (SumRestTokens(c.rest) + left);
    SumRestBack(c.rest, left, depth, limit);
    ProductBack(c.first, SumRestTokens(c.rest) + left, depth, limit);
  }

  lemma AddStarts(op: Op, ts: seq<Token>)
    requires Additive(op) && Head(ts) == Some(OpToken(op))
    ensures EndsProduct(ts) && AddOp(Head(ts)) == Some(op)
  {
  }

  lemma {:induction false} SumRestBack(c: SumRest, left: seq<Token>, depth: nat, limit: nat)
    requires SumRestOk(c) && depth + 1 + SumRestNest(c) <= limit && EndsSum(left)
    ensures EndsProduct(SumRestTokens(c) + left)
    ensures ParseSumRest(SumRestTokens(c) + left, depth, limit) == Ok((c, left))
    decreases c, 5
  {
    match c
    case SumEnd => assert [] + left == left;
    case SumMore(op, term, rest) =>
      var ts := SumRestTokens(c) + left;
      var after := SumRestTokens(rest) + left;
      assert ts[0] == OpToken(op) && ts[1..] == ProductTokens(term) + after;
      SumRestBack(rest, left, depth, limit);
      ProductBack(term, after, depth, limit);
      AddStarts(op, ts);
  }

  lemma {:induction false} ProductBack(c: Product, left: seq<Token>, depth: nat, limit: nat)
    requires ProductOk(c) && depth + 1 + ProductNest(c) <= limit && EndsProduct(left)
    ensures ParseProduct(ProductTokens(c) + left, depth, limit) == Ok((c, left))
    decreases c, 4
  {
    assert ProductTokens(c) + left == PowerTokens(c.first) + (ProductRestTokens(c.rest) + left);
    ProductRestBack(c.rest, left, depth, limit);
    PowerBack(c.first, ProductRestTokens(c.rest) + left, depth, limit);
  }

  lemma MulStarts(op: Op, ts: seq<Token>)
    requires !Additive(op) && Head(ts) == Some(OpToken(op))
    ensures EndsPower(ts) && MulOp(Head(ts)) == Some(op)
  {
  }

  lemma {:induction false} ProductRestBack(c: ProductRest, left: seq<Token>, depth: nat, limit: nat)
    requires ProductRestOk(c) && depth + 1 + ProductRestNest(c) <= limit && EndsProduct(left)
    ensures EndsPower(ProductRestTokens(c) + left)
    ensures ParseProductRest(ProductRestTokens(c) + left, depth, limit) == Ok((c, left))
    decreases c, 3
  {
    match c
    case ProductEnd => assert [] + left == left;
    case ProductMore(op, factor, rest) =>
      var ts := ProductRestTokens(c) + left;
      var after := ProductRestTokens(rest) + left;
      assert ts[0] == OpToken(op) && ts[1..] == PowerTokens(factor) + after;
      ProductRestBack(rest, left, depth, limit);
      PowerBack(factor, after, depth, limit);
      MulStarts(op, ts);
  }

  lemma {:induction false} PowerBack(c: Power, left: seq<Token>, depth: nat, limit: nat)
    requires PowerOk(c) && depth + 1 + PowerNest(c) <= limit && EndsPower(left)
    ensures ParsePower(PowerTokens(c) + left, depth, limit) == Ok((c, left))
    decreases c, 2
  {
    match c
    case Plain(u) => UnaryBack(u, left, depth, limit);
    case Raise(b, x) =>
      var after := [PowT] + (PowerTokens(x) + left);
      assert PowerTokens(c) + left == UnaryTokens(b) + after;
      UnaryBack(b, after, depth, limit);
      assert after[1..] == PowerTokens(x) + left;
      PowerBack(x, left, depth, limit);
  }

  lemma {:induction false} UnaryBack(c: Unary, left: seq<Token>, depth: nat, limit: nat)
    requires UnaryOk(c) && depth + 1 + UnaryNest(c) <= limit && EndsPrimary(left)
    ensures ParseUnary(UnaryTokens(c) + left, depth, limit) == Ok((c, left))
    decreases c, 1
  {
    var ts := UnaryTokens(c) + left;
    match c
    case Atom(p) => PrimaryBack(p, left, depth, limit);
    case Plus(u) => assert ts[1..] == UnaryTokens(u) + left; UnaryBack(u, left, depth, limit);
    case Minus(u) => assert ts[1..] == UnaryTokens(u) + left; UnaryBack(u, left, depth, limit);
  }

  lemma {:induction false} PrimaryBack(c: Primary, left: seq<Token>, depth: nat, limit: nat)
    requires PrimaryOk(c) && depth + 1 + PrimaryNest(c) <= limit && EndsPrimary(left)
    ensures ParsePrimary(PrimaryTokens(c) + left, depth, limit) == Ok((c, left))
    decreases c, 0
  {
    var ts := PrimaryTokens(c) + left;
    match c
    case Literal(_) => assert ts[1..] == left;
    case Named(_) => assert ts[1..] == left;
    case Group(sum) =>
      var after := [CloseT] + left;
      assert ts[1..] == SumTokens(sum) + after;
      SumBack(sum, after, depth + 1, limit);
      assert after[1..] == left;
    case Call(name, args) =>
      var after := [CloseT] + left;
      assert ts[2..] == ArgsTokens(args) + after;
      ArgsBack(args, after, depth + 1, limit);
      assert after[1..] == left;
  }

  // A phrase never begins with a token that could end an argument list.
  lemma {:induction false} SumHead(c: Sum, left: seq<Token>)
    ensures SumTokens(c) != [] && (SumTokens(c) + left)[0] != CloseT
  {
    var power := c.first.first;
    UnaryHead(if power.Plain? then power.unary else power.base);
    assert PowerTokens(power) != [] && PowerTokens(power)[0] != CloseT;
    assert ProductTokens(c.first)[0] == PowerTokens(power)[0];
    assert SumTokens(c)[0] == ProductTokens(c.first)[0];
  }

  lemma {:induction false} UnaryHead(c: Unary)
    ensures UnaryTokens(c) != [] && UnaryTokens(c)[0] != CloseT
  {
  }

  lemma {:induction false} ArgsBack(c: Args, left: seq<Token>, depth: nat, limit: nat)
    requires ArgsOk(c) && Head(left) == Some(CloseT)
    requires c.Args? ==> depth + 1 + Max(SumNest(c.first), ArgRestNest(c.rest)) <= limit
    ensures ParseArgs(ArgsTokens(c) + left, depth, limit) == Ok((c, left))
    decreases c, 8
  {
    match c
    case NoArgs => assert [] + left == left;
    case Args(first, rest) =>
      assert ArgsTokens(c) + left == SumTokens(first) + (ArgRestTokens(rest) + left);
      SumHead(first, ArgRestTokens(rest) + left);
      ArgRestBack(rest, left, depth, limit);
      SumBack(first, ArgRestTokens(rest) + left, depth, limit);
  }

  lemma {:induction false} ArgRestBack(c: ArgRest, left: seq<Token>, depth: nat, limit: nat)
    requires ArgRestOk(c) && Head(left) == Some(CloseT)
    requires c.ArgMore? ==> depth + 1 + ArgRestNest(c) <= limit
    ensures EndsSum(ArgRestTokens(c) + left)
    ensures ParseArgRest(ArgRestTokens(c) + left, depth, limit) == Ok((c, left))
    decreases c, 7
  {
    match c
    case ArgEnd => assert [] + left == left;
    case ArgMore(arg, rest) =>
      var ts := ArgRestTokens(c) + left;
      var after := ArgRestTokens(rest) + left;
      assert ts[0] == CommaT && ts[1..] == SumTokens(arg) + after;
      ArgRestBack(rest, left, depth, limit);
      SumBack(arg, after, depth, limit);
  }

  // The accepted language, exactly: the tokens of the trees that nest at most 63 deep.
  lemma ParsesExactly(ts: seq<Token>, c: Sum)
    ensures Parse(ts, DEPTH_LIMIT) == Ok(c) <==> SumOk(c) && SumNest(c) <= 63 && ts == SumTokens(c)
  {
    if SumOk(c) && SumNest(c) <= 63 && ts == SumTokens(c) {
      SumBack(c, [], 0, DEPTH_LIMIT);
      assert SumTokens(c) + [] == ts;
    }
    if Parse(ts, DEPTH_LIMIT) == Ok(c) {
      SumSound(ts, 0, DEPTH_LIMIT, c, []);
    }
  }

  // The grammar is unambiguous, so what a token list means is no accident of the parser.
  lemma Unambiguous(a: Sum, b: Sum)
    requires SumOk(a) && SumOk(b) && SumTokens(a) == SumTokens(b)
    ensures a == b
  {
    var limit := 1 + Max(SumNest(a), SumNest(b));
    SumBack(a, [], 0, limit);
    SumBack(b, [], 0, limit);
  }

  // ----- the object -----

  // What a production leaves behind, in the parser's own terms.
  ghost predicate Leaves(tokens: seq<Token>, spec: Parsed<Expr>, r: Result<Expr, Error>, before: nat, after: nat) {
    match spec
    case Err(e) => r == Err(e)
    case Ok((value, left)) => r == Ok(value) && before < after <= |tokens| && tokens[after..] == left
  }

  // What a left-associative loop still has to produce once `value` has been read.
  ghost function SumOutcome(value: Expr, ts: seq<Token>, depth: nat): Parsed<Expr> {
    match ParseSumRest(ts, depth, DEPTH_LIMIT)
    case Err(e) => Err(e)
    case Ok((rest, left)) => Ok((SumFold(value, rest), left))
  }

  ghost function ProductOutcome(value: Expr, ts: seq<Token>, depth: nat): Parsed<Expr> {
    match ParseProductRest(ts, depth, DEPTH_LIMIT)
    case Err(e) => Err(e)
    case Ok((rest, left)) => Ok((ProductFold(value, rest), left))
  }

  ghost function Mean<T>(spec: Parsed<T>, meaning: T -> Expr): Parsed<Expr> {
    match spec case Err(e) => Err(e) case Ok((c, left)) => Ok((meaning(c), left))
  }

  ghost function SumThen(value: Expr, op: Op, term: Parsed<Product>, depth: nat): Parsed<Expr> {
    if term.Err? then Err(term.error)
    else SumOutcome(Bin(op, value, ProductMeaning(term.value.0)), term.value.1, depth)
  }

  ghost function ProductThen(value: Expr, op: Op, factor: Parsed<Power>, depth: nat): Parsed<Expr> {
    if factor.Err? then Err(factor.error)
    else ProductOutcome(Bin(op, value, PowerMeaning(factor.value.0)), factor.value.1, depth)
  }

  lemma SumStep(value: Expr, ts: seq<Token>, depth: nat)
    requires AddOp(Head(ts)).Some?
    ensures SumOutcome(value, ts, depth)
         == SumThen(value, AddOp(Head(ts)).value, ParseProduct(ts[1..], depth, DEPTH_LIMIT), depth)
  {
  }

  lemma ProductStep(value: Expr, ts: seq<Token>, depth: nat)
    requires MulOp(Head(ts)).Some?
    ensures ProductOutcome(value, ts, depth)
         == ProductThen(value, MulOp(Head(ts)).value, ParsePower(ts[1..], depth, DEPTH_LIMIT), depth)
  {
  }

  // The argument list that starts at `ts`, as values.
  ghost function ArgsOutcome(ts: seq<Token>, depth: nat): Result<(Exprs, seq<Token>), Error> {
    match ParseArgs(ts, depth, DEPTH_LIMIT)
    case Err(e) => Err(e)
    case Ok((args, left)) => Ok((ArgsMeaning(args), left))
  }

  // The list that continues at `ts` after the arguments already read.
  ghost function MoreArgsOutcome(args: seq<Expr>, ts: seq<Token>, depth: nat): Result<(Exprs, seq<Token>), Error> {
    match ParseArgRest(ts, depth, DEPTH_LIMIT)
    case Err(e) => Err(e)
    case Ok((rest, left)) => Ok((Append(args, ArgRestMeaning(rest)), left))
  }

  ghost function ArgThen(args: seq<Expr>, arg: Parsed<Sum>, depth: nat): Result<(Exprs, seq<Token>), Error> {
    if arg.Err? then Err(arg.error)
    else MoreArgsOutcome(args + [SumMeaning(arg.value.0)], arg.value.1, depth)
  }

  ghost function CallOutcome(name: string, args: Result<(Exprs, seq<Token>), Error>): Parsed<Expr> {
    if args.Err? then Err(args.error)
    else if Head(args.value.1) != Some(CloseT) then Err(Expected)
    else if !Known(Lower(name), Count(args.value.0)) then Err(BadCall)
    else Ok((Apply(Lower(name), args.value.0), args.value.1[1..]))
  }

  lemma ArgsStart(ts: seq<Token>, depth: nat)
    ensures ArgsOutcome(ts, depth)
         == if Head(ts) == Some(CloseT) then Ok((NoExprs, ts)) else ArgThen([], ParseSum(ts, depth, DEPTH_LIMIT), depth)
  {
    var arg := ParseSum(ts, depth, DEPTH_LIMIT);
    if Head(ts) != Some(CloseT) && arg.Ok? {
      assert [] + [SumMeaning(arg.value.0)] == [SumMeaning(arg.value.0)];
      forall tail ensures Append([SumMeaning(arg.value.0)], tail) == MoreExprs(SumMeaning(arg.value.0), tail) {
        assert [SumMeaning(arg.value.0)][1..] == [];
      }
    }
  }

  lemma ArgStep(args: seq<Expr>, ts: seq<Token>, depth: nat)
    ensures MoreArgsOutcome(args, ts, depth)
         == if Head(ts) == Some(CommaT) then ArgThen(args, ParseSum(ts[1..], depth, DEPTH_LIMIT), depth)
            else Ok((Append(args, NoExprs), ts))
  {
    if Head(ts) == Some(CommaT) {
      var arg := ParseSum(ts[1..], depth, DEPTH_LIMIT);
      if arg.Ok? {
        AppendOne(args, SumMeaning(arg.value.0));
      }
    }
  }

  ghost function GroupOutcome(sum: Parsed<Expr>): Parsed<Expr> {
    if sum.Err? then Err(sum.error)
    else if Head(sum.value.1) != Some(CloseT) then Err(Expected)
    else Ok((sum.value.0, sum.value.1[1..]))
  }

  // One level of `primary`, in terms of what follows its first token.
  ghost function PrimaryOutcome(ts: seq<Token>, depth: nat): Parsed<Expr> {
    if depth + 1 > DEPTH_LIMIT then Err(TooDeep)
    else if ts == [] then Err(UnexpectedEnd)
    else match ts[0]
      case Number(text) => Ok((Num(text), ts[1..]))
      case OpenT => GroupOutcome(Mean(ParseSum(ts[1..], depth + 1, DEPTH_LIMIT), SumMeaning))
      case Name(name) =>
        if Head(ts[1..]) == Some(OpenT) then CallOutcome(name, ArgsOutcome(ts[1..][1..], depth + 1))
        else if Lower(name) == "pi" then Ok((Const(Pi), ts[1..]))
        else if Lower(name) == "e" then Ok((Const(E), ts[1..]))
        else Err(Unexpected)
      case _ => Err(Unexpected)
  }

  lemma PrimaryStep(ts: seq<Token>, depth: nat)
    ensures Mean(ParsePrimary(ts, depth, DEPTH_LIMIT), PrimaryMeaning) == PrimaryOutcome(ts, depth)
  {
    if |ts| > 1 {
      assert ts[1..][1..] == ts[2..];
    }
  }

  class Parser {
    const tokens: seq<Token>
    var index: nat
    var depth: nat

    constructor (tokens: seq<Token>)
      ensures this.tokens == tokens && index == 0 && depth == 0
    {
      this.tokens, index, depth := tokens, 0, 0;
    }

    predicate Within()
      reads this
    {
      index <= |tokens|
    }

    function Peek(): (r: Option<Token>)
      reads this
      ensures Within() ==> r == Head(tokens[index..])
    {
      if index < |tokens| then Some(tokens[index]) else None
    }

    method Run() returns (r: Result<Expr, Error>)
      requires index == 0 && depth == 0
      modifies this
      ensures match Parse(tokens, DEPTH_LIMIT)
              case Err(e) => r == Err(e)
              case Ok(c) => r == Ok(SumMeaning(c))
      ensures r.Ok? ==> index == |tokens| && depth == 0
    {
      assert tokens[0..] == tokens;
      var value := Expression();
      if value.Err? {
        return value;
      }
      if index != |tokens| {
        return Err(Unexpected);
      }
      return value;
    }

    method Expression() returns (r: Result<Expr, Error>)
      requires Within()
      modifies this
      ensures Leaves(tokens, Mean(ParseSum(tokens[old(index)..], old(depth), DEPTH_LIMIT), SumMeaning), r, old(index), index)
      ensures r.Ok? ==> Within() && depth == old(depth)
      decreases |tokens| - index, 6
    {
      ghost var spec := Mean(ParseSum(tokens[index..], depth, DEPTH_LIMIT), SumMeaning);
      r := ProductTerm();
      if r.Err? {
        return;
      }
      var value := r.value;
      while true
        invariant old(index) < index <= |tokens| && depth == old(depth)
        invariant spec == SumOutcome(value, tokens[index..], depth)
        decreases |tokens| - index
      {
        var op := AddOp(Peek());
        if op.None? {
          return Ok(value);
        }
        SumStep(value, tokens[index..], depth);
        assert tokens[index..][1..] == tokens[index + 1..];
        index := index + 1;
        r := ProductTerm();
        if r.Err? {
          return;
        }
        value := Bin(op.value, value, r.value);
      }
    }

    method ProductTerm() returns (r: Result<Expr, Error>)
      requires Within()
      modifies this
      ensures Leaves(tokens, Mean(ParseProduct(tokens[old(index)..], old(depth), DEPTH_LIMIT), ProductMeaning), r, old(index), index)
      ensures r.Ok? ==> Within() && depth == old(depth)
      decreases |tokens| - index, 4
    {
      ghost var spec := Mean(ParseProduct(tokens[index..], depth, DEPTH_LIMIT), ProductMeaning);
      r := PowerTerm();
      if r.Err? {
        return;
      }
      var value := r.value;
      while true
        invariant old(index) < index <= |tokens| && depth == old(depth)
        invariant spec == ProductOutcome(value, tokens[index..], depth)
        decreases |tokens| - index
      {
        var op := MulOp(Peek());
        if op.None? {
          return Ok(value);
        }
        ProductStep(value, tokens[index..], depth);
        assert tokens[index..][1..] == tokens[index + 1..];
        index := index + 1;
        r := PowerTerm();
        if r.Err? {
          return;
        }
        value := Bin(op.value, value, r.value);
      }
    }

    method PowerTerm() returns (r: Result<Expr, Error>)
      requires Within()
      modifies this
      ensures Leaves(tokens, Mean(ParsePower(tokens[old(index)..], old(depth), DEPTH_LIMIT), PowerMeaning), r, old(index), index)
      ensures r.Ok? ==> Within() && depth == old(depth)
      decreases |tokens| - index, 2
    {
      var base := UnaryTerm();
      if base.Err? {
        return base;
      }
      if Peek() == Some(PowT) {
        assert tokens[index..][1..] == tokens[index + 1..];
        index := index + 1;
        var exponent := PowerTerm();
        if exponent.Err? {
          return exponent;
        }
        return Ok(Pow(base.value, exponent.value));
      }
      return base;
    }

    method UnaryTerm() returns (r: Result<Expr, Error>)
      requires Within()
      modifies this
      ensures Leaves(tokens, Mean(ParseUnary(tokens[old(index)..], old(depth), DEPTH_LIMIT), UnaryMeaning), r, old(index), index)
      ensures r.Ok? ==> Within() && depth == old(depth)
      decreases |tokens| - index, 1
    {
      var token := Peek();
      if token == Some(AddT) {
        assert tokens[index..][1..] == tokens[index + 1..];
        index := index + 1;
        r := UnaryTerm();
      } else if token == Some(SubT) {
        assert tokens[index..][1..] == tokens[index + 1..];
        index := index + 1;
        r := UnaryTerm();
        if r.Ok? {
          r := Ok(Neg(r.value));
        }
      } else {
        r := PrimaryTerm();
      }
    }

    method PrimaryTerm() returns (r: Result<Expr, Error>)
      requires Within()
      modifies this
      ensures Leaves(tokens, Mean(ParsePrimary(tokens[old(index)..], old(depth), DEPTH_LIMIT), PrimaryMeaning), r, old(index), index)
      ensures r.Ok? ==> Within() && depth == old(depth)
      decreases |tokens| - index, 0
    {
      PrimaryStep(tokens[index..], depth);
      depth := depth + 1;
      if depth > DEPTH_LIMIT {
        return Err(TooDeep);
      }
      if index >= |tokens| {
        return Err(UnexpectedEnd);
      }
      var token := tokens[index];
      assert tokens[index..][1..] == tokens[index + 1..];
      index := index + 1;
      match token {
        case Number(text) =>
          r := Ok(Num(text));
        case OpenT =>
          r := Expression();
          if r.Err? {
            return;
          }
          if Peek() != Some(CloseT) {
            return Err(Expected);
          }
          assert tokens[index..][1..] == tokens[index + 1..];
          index := index + 1;
        case Name(name) =>
          if Peek() == Some(OpenT) {
            r := CallTerm(name);
            if r.Err? {
              return;
            }
          } else if Lower(name) == "pi" {
            r := Ok(Const(Pi));
          } else if Lower(name) == "e" {
            r := Ok(Const(E));
          } else {
            return Err(Unexpected);
          }
        case _ =>
          return Err(Unexpected);
      }
      depth := depth - 1;
    }

    // The loop inside `call`: the arguments up to, and not including, the closing parenthesis.
    method ArgumentList() returns (r: Result<seq<Expr>, Error>)
      requires 0 < index && Within()
      modifies this
      ensures match ArgsOutcome(tokens[old(index)..], old(depth))
              case Err(e) => r == Err(e)
              case Ok((list, left)) =>
                r.Ok? && list == Append(r.value, NoExprs) && old(index) <= index <= |tokens| && tokens[index..] == left
      ensures r.Ok? ==> Within() && depth == old(depth)
      decreases |tokens| - index, 7
    {
      ghost var spec := ArgsOutcome(tokens[index..], depth);
      ArgsStart(tokens[index..], depth);
      var args: seq<Expr> := [];
      if Peek() == Some(CloseT) {
        return Ok(args);
      }
      while true
        invariant old(index) <= index <= |tokens| && depth == old(depth)
        invariant spec == ArgThen(args, ParseSum(tokens[index..], depth, DEPTH_LIMIT), depth)
        decreases |tokens| - index
      {
        var arg := Expression();
        if arg.Err? {
          return Err(arg.error);
        }
        args := args + [arg.value];
        ArgStep(args, tokens[index..], depth);
        if Peek() != Some(CommaT) {
          return Ok(args);
        }
        assert tokens[index..][1..] == tokens[index + 1..];
        index := index + 1;
      }
    }

    // `call`, entered with the index on the opening parenthesis.
    method CallTerm(name: string) returns (r: Result<Expr, Error>)
      requires 0 < index < |tokens| && tokens[index] == OpenT
      modifies this
      ensures Leaves(tokens, CallOutcome(name, ArgsOutcome(tokens[old(index) + 1..], old(depth))), r, old(index), index)
      ensures r.Ok? ==> Within() && depth == old(depth)
      decreases |tokens| - index, 7
    {
      index := index + 1;
      var list := ArgumentList();
      if list.Err? {
        return Err(list.error);
      }
      var args := list.value;
      if Peek() != Some(CloseT) {
        return Err(Expected);
      }
      assert tokens[index..][1..] == tokens[index + 1..];
      index := index + 1;
      AppendCount(args, NoExprs);
      if !Known(Lower(name), |args|) {
        return Err(BadCall);
      }
      return Ok(Apply(Lower(name), Append(args, NoExprs)));
    }
  }

  function Append(es: seq<Expr>, tail: Exprs): Exprs {
    if es == [] then tail else MoreExprs(es[0], Append(es[1..], tail))
  }

  lemma AppendOne(es: seq<Expr>, e: Expr)
    ensures forall tail :: Append(es + [e], tail) == Append(es, MoreExprs(e, tail))
  {
    if es != [] {
      AppendOne(es[1..], e);
      assert (es + [e])[1..] == es[1..] + [e];
    }
  }

  lemma AppendCount(es: seq<Expr>, tail: Exprs)
    ensures Count(Append(es, tail)) == |es| + Count(tail)
  {
  }
}
