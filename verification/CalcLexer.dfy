// `tokenize`: a hand-written scan over the characters. Whether a number's text is a
// well-formed f64 is the standard library's business and enters as `numeric`.
module CalcLexer {
  import opened Wrappers
  import opened CalcGrammar
  import opened Text

  predicate IsDigit(c: char) { '0' <= c <= '9' }

  predicate StartsNumber(c: char) { IsDigit(c) || c == '.' }

  predicate StartsName(c: char) { 'a' <= c <= 'z' || 'A' <= c <= 'Z' || c == '_' }

  predicate ContinuesNumber(c: char, before: char) {
    StartsNumber(c) || c == 'e' || c == 'E' || ((c == '+' || c == '-') && (before == 'e' || before == 'E'))
  }

  predicate ContinuesName(c: char) { StartsName(c) || IsDigit(c) }

  // Where the number, or the name, that began before `i` ends.
  function NumberEnd(s: string, i: nat): (end: nat)
    requires 0 < i <= |s|
    ensures i <= end <= |s|
    decreases |s| - i
  {
    if i < |s| && ContinuesNumber(s[i], s[i - 1]) then NumberEnd(s, i + 1) else i
  }

  function NameEnd(s: string, i: nat): (end: nat)
    requires i <= |s|
    ensures i <= end <= |s|
    decreases |s| - i
  {
    if i < |s| && ContinuesName(s[i]) then NameEnd(s, i + 1) else i
  }

  function Symbol(c: char): Option<Token> {
    match c
    case '+' => Some(AddT)
    case '-' => Some(SubT)
    case '/' => Some(DivT)
    case '%' => Some(ModT)
    case '^' => Some(PowT)
    case '(' => Some(OpenT)
    case ')' => Some(CloseT)
    case ',' => Some(CommaT)
    case _ => None
  }

  function Prepend(ts: seq<Token>, r: Result<seq<Token>, Error>): Result<seq<Token>, Error> {
    match r case Ok(rest) => Ok(ts + rest) case Err(e) => Err(e)
  }

  // What the scan does at the front of a non-empty text.
  datatype Scan = Skip | Emit(token: Token, length: nat) | Bad(error: Error)

  function ScanOne(numeric: string -> bool, s: string): (r: Scan)
    requires s != ""
    ensures r.Emit? ==> 0 < r.length <= |s|
  {
    if IsWhitespace(s[0]) then Skip
    else if StartsNumber(s[0]) then
      var end := NumberEnd(s, 1);
      if numeric(s[..end]) then Emit(Number(s[..end]), end) else Bad(BadNumber)
    else if StartsName(s[0]) then Emit(Name(s[..NameEnd(s, 1)]), NameEnd(s, 1))
    else if Symbol(s[0]).Some? then Emit(Symbol(s[0]).value, 1)
    else if s[0] == '*' then
      if |s| > 1 && s[1] == '*' then Emit(PowT, 2) else Emit(MulT, 1)
    else Bad(BadCharacter)
  }

  function Lex(numeric: string -> bool, s: string): Result<seq<Token>, Error>
    decreases |s|
  {
    if s == "" then Ok([])
    else match ScanOne(numeric, s)
      case Skip => Lex(numeric, s[1..])
      case Emit(token, length) => Prepend([token], Lex(numeric, s[length..]))
      case Bad(e) => Err(e)
  }

  predicate Sign(c: char, t: Token) {
    || (c == '+' && t == AddT) || (c == '-' && t == SubT) || (c == '/' && t == DivT) || (c == '%' && t == ModT)
    || (c == '^' && t == PowT) || (c == '(' && t == OpenT) || (c == ')' && t == CloseT) || (c == ',' && t == CommaT)
  }

  // Each sign is its own token, and whitespace is none.
  lemma SignScans(numeric: string -> bool, c: char, t: Token, rest: string)
    ensures Sign(c, t) ==> Lex(numeric, [c] + rest) == Prepend([t], Lex(numeric, rest))
    ensures IsWhitespace(c) ==> Lex(numeric, [c] + rest) == Lex(numeric, rest)
  {
    var s := [c] + rest;
    assert s[1..] == rest;
    assert Sign(c, t) ==> ScanOne(numeric, s) == Emit(t, 1);
  }

  // Two stars together are one power sign.
  lemma StarsScan(numeric: string -> bool, rest: string)
    ensures Lex(numeric, "**" + rest) == Prepend([PowT], Lex(numeric, rest))
    ensures !("*" <= rest) ==> Lex(numeric, "*" + rest) == Prepend([MulT], Lex(numeric, rest))
  {
    var one, two := "*" + rest, "**" + rest;
    assert one[1..] == rest && two[2..] == rest && two[0] == two[1] == '*';
    assert ScanOne(numeric, two) == Emit(PowT, 2);
    if !("*" <= rest) {
      assert |one| > 1 ==> one[1] == rest[0];
      assert ScanOne(numeric, one) == Emit(MulT, 1);
    }
  }

  // By their numbers in ASCII: digits and the dot begin a number; letters and the underscore
  // a name, which digits continue; an e, and a sign right behind one, continue a number.
  lemma CharactersExactly(c: char, before: char)
    ensures var (n, b) := (c as int, before as int);
            var (digit, letter) := (48 <= n <= 57, 65 <= n <= 90 || 97 <= n <= 122);
            && (StartsNumber(c) <==> digit || n == 46)
            && (StartsName(c) <==> letter || n == 95)
            && (ContinuesName(c) <==> letter || digit || n == 95)
            && (ContinuesNumber(c, before) <==>
                  digit || n == 46 || n == 69 || n == 101 || ((n == 43 || n == 45) && (b == 69 || b == 101)))
  {
  }

  // A number goes on as long as it can, and so does a name.
  lemma {:induction false} LongestNumber(s: string, i: nat)
    requires 0 < i <= |s|
    ensures var end := NumberEnd(s, i);
            (forall k | i <= k < end :: ContinuesNumber(s[k], s[k - 1])) &&
            (end < |s| ==> !ContinuesNumber(s[end], s[end - 1]))
    decreases |s| - i
  {
    if i < |s| && ContinuesNumber(s[i], s[i - 1]) {
      LongestNumber(s, i + 1);
    }
  }

  lemma {:induction false} LongestName(s: string, i: nat)
    requires i <= |s|
    ensures var end := NameEnd(s, i);
            (forall k | i <= k < end :: ContinuesName(s[k])) && (end < |s| ==> !ContinuesName(s[end]))
    decreases |s| - i
  {
    if i < |s| && ContinuesName(s[i]) {
      LongestName(s, i + 1);
    }
  }

  // ----- the scan -----

  lemma NumberEndShift(s: string, start: nat, i: nat)
    requires start < i <= |s|
    ensures start + NumberEnd(s[start..], i - start) == NumberEnd(s, i)
    decreases |s| - i
  {
    if i < |s| && ContinuesNumber(s[i], s[i - 1]) {
      NumberEndShift(s, start, i + 1);
    }
  }

  lemma NameEndShift(s: string, start: nat, i: nat)
    requires start < i <= |s|
    ensures start + NameEnd(s[start..], i - start) == NameEnd(s, i)
    decreases |s| - i
  {
    if i < |s| && ContinuesName(s[i]) {
      NameEndShift(s, start, i + 1);
    }
  }

  method ScanNumber(s: string, start: nat) returns (end: nat)
    requires start < |s|
    ensures end == start + NumberEnd(s[start..], 1) && start < end <= |s|
  {
    end := start + 1;
    while end < |s| && ContinuesNumber(s[end], s[end - 1])
      invariant start < end <= |s|
      invariant NumberEnd(s, end) == NumberEnd(s, start + 1)
    {
      end := end + 1;
    }
    NumberEndShift(s, start, start + 1);
  }

  method ScanName(s: string, start: nat) returns (end: nat)
    requires start < |s|
    ensures end == start + NameEnd(s[start..], 1) && start < end <= |s|
  {
    end := start + 1;
    while end < |s| && ContinuesName(s[end])
      invariant start < end <= |s|
      invariant NameEnd(s, end) == NameEnd(s, start + 1)
    {
      end := end + 1;
    }
    NameEndShift(s, start, start + 1);
  }

  method ScanAt(numeric: string -> bool, s: string, index: nat) returns (r: Scan)
    requires index < |s|
    ensures r == ScanOne(numeric, s[index..])
  {
    var c := s[index];
    if IsWhitespace(c) {
      return Skip;
    } else if StartsNumber(c) {
      var end := ScanNumber(s, index);
      assert s[index..][..end - index] == s[index..end];
      return if numeric(s[index..end]) then Emit(Number(s[index..end]), end - index) else Bad(BadNumber);
    } else if StartsName(c) {
      var end := ScanName(s, index);
      assert s[index..][..end - index] == s[index..end];
      return Emit(Name(s[index..end]), end - index);
    } else if Symbol(c).Some? {
      return Emit(Symbol(c).value, 1);
    } else if c == '*' {
      if index + 1 < |s| && s[index + 1] == '*' {
        return Emit(PowT, 2);
      }
      return Emit(MulT, 1);
    }
    return Bad(BadCharacter);
  }

  lemma PrependTwice(a: seq<Token>, b: seq<Token>, r: Result<seq<Token>, Error>)
    ensures Prepend(a, Prepend(b, r)) == Prepend(a + b, r)
  {
    if r.Ok? {
      assert a + (b + r.value) == (a + b) + r.value;
    }
  }

  lemma LexAt(numeric: string -> bool, s: string, index: nat)
    requires index < |s|
    ensures var step := ScanOne(numeric, s[index..]);
            Lex(numeric, s[index..]) ==
              if step.Skip? then Lex(numeric, s[index + 1..])
              else if step.Bad? then Err(step.error)
              else Prepend([step.token], Lex(numeric, s[index + step.length..]))
  {
    var step := ScanOne(numeric, s[index..]);
    assert s[index..][1..] == s[index + 1..];
    if step.Emit? {
      assert s[index..][step.length..] == s[index + step.length..];
    }
  }

  lemma PrependNothing(r: Result<seq<Token>, Error>)
    ensures Prepend([], r) == r
  {
    if r.Ok? {
      assert [] + r.value == r.value;
    }
  }

  lemma {:induction false} ScanStep(numeric: string -> bool, s: string, index: nat, tokens: seq<Token>, step: Scan)
    requires index < |s| && step == ScanOne(numeric, s[index..])
    ensures var whole := Prepend(tokens, Lex(numeric, s[index..]));
            && (step.Skip? ==> whole == Prepend(tokens, Lex(numeric, s[index + 1..])))
            && (step.Emit? ==> whole == Prepend(tokens + [step.token], Lex(numeric, s[index + step.length..])))
            && (step.Bad? ==> whole == Err(step.error))
  {
    LexAt(numeric, s, index);
    var ahead := if step.Emit? then Lex(numeric, s[index + step.length..]) else Lex(numeric, s[index + 1..]);
    StepOn(tokens, step, Lex(numeric, s[index..]), ahead);
  }

  lemma StepOn(tokens: seq<Token>, step: Scan, here: Result<seq<Token>, Error>, ahead: Result<seq<Token>, Error>)
    requires here == if step.Skip? then ahead else if step.Bad? then Err(step.error) else Prepend([step.token], ahead)
    ensures step.Skip? ==> Prepend(tokens, here) == Prepend(tokens, ahead)
    ensures step.Emit? ==> Prepend(tokens, here) == Prepend(tokens + [step.token], ahead)
    ensures step.Bad? ==> Prepend(tokens, here) == Err(step.error)
  {
    if step.Emit? {
      PrependTwice(tokens, [step.token], ahead);
    }
  }

  // The scan of what is left, by where it begins.
  ghost predicate IsRest(numeric: string -> bool, s: string, rest: nat -> Result<seq<Token>, Error>) {
    forall i: nat {:trigger Lex(numeric, s[i..])} | i <= |s| :: rest(i) == Lex(numeric, s[i..])
  }

  // One turn of the loop, with the tokens so far.
  method ScanOn(numeric: string -> bool, s: string, index: nat, ghost tokens: seq<Token>,
                ghost rest: nat -> Result<seq<Token>, Error>)
    returns (step: Scan)
    requires index < |s| && IsRest(numeric, s, rest)
    ensures step.Emit? ==> 0 < step.length <= |s| - index
    ensures step.Skip? ==> Prepend(tokens, rest(index)) == Prepend(tokens, rest(index + 1))
    ensures step.Emit? ==> Prepend(tokens, rest(index)) == Prepend(tokens + [step.token], rest(index + step.length))
    ensures step.Bad? ==> Prepend(tokens, rest(index)) == Err(step.error)
  {
    step := ScanAt(numeric, s, index);
    ScanStep(numeric, s, index, tokens, step);
    assert rest(index) == Lex(numeric, s[index..]);
    if step.Skip? {
      assert rest(index + 1) == Lex(numeric, s[index + 1..]);
    } else if step.Emit? {
      assert rest(index + step.length) == Lex(numeric, s[index + step.length..]);
    }
  }

  lemma RestEnds(numeric: string -> bool, s: string, rest: nat -> Result<seq<Token>, Error>)
    requires IsRest(numeric, s, rest)
    ensures rest(0) == Lex(numeric, s) && rest(|s|) == Ok([])
  {
    assert s[0..] == s && s[|s|..] == "";
    assert rest(|s|) == Lex(numeric, s[|s|..]);
  }

  method TokenizeAll(numeric: string -> bool, s: string, ghost rest: nat -> Result<seq<Token>, Error>)
    returns (r: Result<seq<Token>, Error>)
    requires IsRest(numeric, s, rest)
    ensures r == rest(0)
  {
    RestEnds(numeric, s, rest);
    var tokens: seq<Token> := [];
    var index := 0;
    PrependNothing(rest(0));
    while index < |s|
      invariant index <= |s| && Prepend(tokens, rest(index)) == rest(0)
    {
      var step := ScanOn(numeric, s, index, tokens, rest);
      match step {
        case Skip =>
          index := index + 1;
        case Emit(token, length) =>
          index := index + length;
          tokens := tokens + [token];
        case Bad(e) =>
          return Err(e);
      }
    }
    assert tokens + [] == tokens;
    return Ok(tokens);
  }

  method Tokenize(numeric: string -> bool, s: string) returns (r: Result<seq<Token>, Error>)
    ensures r == Lex(numeric, s)
  {
    ghost var rest := (i: nat) => if i <= |s| then Lex(numeric, s[i..]) else Ok([]);
    r := TokenizeAll(numeric, s, rest);
    RestEnds(numeric, s, rest);
  }

  // ----- rendering a token list and scanning it again -----

  // A token some text scans to, whole.
  predicate Printable(numeric: string -> bool, t: Token) {
    match t
    case Number(text) => text != "" && StartsNumber(text[0]) && NumberEnd(text, 1) == |text| && numeric(text)
    case Name(name) => name != "" && StartsName(name[0]) && NameEnd(name, 1) == |name|
    case _ => true
  }

  function TokenText(t: Token): string {
    match t
    case Number(text) => text
    case Name(name) => name
    case AddT => "+" case SubT => "-" case MulT => "*" case DivT => "/" case ModT => "%" case PowT => "^"
    case OpenT => "(" case CloseT => ")" case CommaT => ","
  }

  function Render(ts: seq<Token>): string {
    if ts == [] then "" else TokenText(ts[0]) + (" " + Render(ts[1..]))
  }

  lemma {:induction false} NumberStops(text: string, after: string, i: nat)
    requires 0 < i <= |text| && NumberEnd(text, i) == |text|
    ensures NumberEnd(text + (" " + after), i) == |text|
    decreases |text| - i
  {
    if i < |text| {
      NumberStops(text, after, i + 1);
    }
  }

  lemma {:induction false} NameStops(text: string, after: string, i: nat)
    requires 0 < i <= |text| && NameEnd(text, i) == |text|
    ensures NameEnd(text + (" " + after), i) == |text|
    decreases |text| - i
  {
    if i < |text| {
      NameStops(text, after, i + 1);
    }
  }

  lemma RenderedTokenScan(numeric: string -> bool, t: Token, after: string)
    requires Printable(numeric, t)
    ensures ScanOne(numeric, TokenText(t) + (" " + after)) == Emit(t, |TokenText(t)|)
  {
    var text := TokenText(t);
    var s := text + (" " + after);
    assert s[..|text|] == text;
    match t
    case Number(_) => NumberStops(text, after, 1);
    case Name(_) => NameStops(text, after, 1);
    case _ => assert |s| > 1 && s[1] == ' ';
  }

  // One rendered token is scanned back and leaves the rest.
  lemma RenderedToken(numeric: string -> bool, t: Token, after: string)
    requires Printable(numeric, t)
    ensures Lex(numeric, TokenText(t) + (" " + after)) == Prepend([t], Lex(numeric, after))
  {
    var s := TokenText(t) + (" " + after);
    RenderedTokenScan(numeric, t, after);
    assert s[|TokenText(t)|..] == " " + after;
    assert (" " + after)[1..] == after;
    assert ScanOne(numeric, " " + after) == Skip;
  }

  lemma {:induction false} RenderRoundTrip(numeric: string -> bool, ts: seq<Token>)
    requires forall t | t in ts :: Printable(numeric, t)
    ensures Lex(numeric, Render(ts)) == Ok(ts)
  {
    if ts != [] {
      RenderRoundTrip(numeric, ts[1..]);
      RenderedToken(numeric, ts[0], Render(ts[1..]));
      assert [ts[0]] + ts[1..] == ts;
    }
  }

  lemma {:induction false} NumberEndPrefix(s: string, i: nat)
    requires 0 < i <= |s|
    ensures NumberEnd(s[..NumberEnd(s, i)], i) == NumberEnd(s, i)
    decreases |s| - i
  {
    if i < |s| && ContinuesNumber(s[i], s[i - 1]) {
      NumberEndPrefix(s, i + 1);
    }
  }

  lemma {:induction false} NameEndPrefix(s: string, i: nat)
    requires i <= |s|
    ensures NameEnd(s[..NameEnd(s, i)], i) == NameEnd(s, i)
    decreases |s| - i
  {
    if i < |s| && ContinuesName(s[i]) {
      NameEndPrefix(s, i + 1);
    }
  }

  lemma ScannedIsPrintable(numeric: string -> bool, s: string)
    requires s != "" && ScanOne(numeric, s).Emit?
    ensures Printable(numeric, ScanOne(numeric, s).token)
  {
    if StartsNumber(s[0]) {
      NumberEndPrefix(s, 1);
    } else if StartsName(s[0]) {
      NameEndPrefix(s, 1);
    }
  }

  // Every token the scan yields is printable, so rewriting a text with single spaces after
  // its tokens never changes what it scans to.
  lemma {:induction false} LexIsPrintable(numeric: string -> bool, s: string)
    requires Lex(numeric, s).Ok?
    ensures forall t | t in Lex(numeric, s).value :: Printable(numeric, t)
    decreases |s|
  {
    if s != "" {
      match ScanOne(numeric, s)
      case Skip => LexIsPrintable(numeric, s[1..]);
      case Emit(_, length) =>
        ScannedIsPrintable(numeric, s);
        LexIsPrintable(numeric, s[length..]);
      case Bad(_) =>
    }
  }

  lemma NormalisedTextScansAlike(numeric: string -> bool, s: string)
    requires Lex(numeric, s).Ok?
    ensures Lex(numeric, Render(Lex(numeric, s).value)) == Lex(numeric, s)
  {
    LexIsPrintable(numeric, s);
    RenderRoundTrip(numeric, Lex(numeric, s).value);
  }
}
