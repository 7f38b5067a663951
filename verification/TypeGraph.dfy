// `encode_type`: the worklist over a possibly cyclic graph of struct types, and the
// canonical type string it yields.
module TypeGraph {
  import opened Wrappers
  import opened TypeStrings
  import opened Digits

  datatype Error = TypeError | ValueError | TooDeep

  // ----- kinds: an element type followed by array dimensions -----

  function Pieces(s: string): (r: seq<string>)
    ensures |r| > 0
  {
    if s == "" then [""]
    else
      var rest := Pieces(s[1..]);
      if s[0] == '[' then [""] + rest else [[s[0]] + rest[0]] + rest[1..]
  }

  function Element(kind: string): string { Pieces(kind)[0] }

  function Dimensions(kind: string): seq<string> { Pieces(kind)[1..] }

  const USIZE: nat := 0x1_0000_0000_0000_0000

  // `str::parse::<usize>`: an optional plus sign and digits within the range.
  function ParseUsize(s: string): Option<nat> {
    var digits := if s != "" && s[0] == '+' then s[1..] else s;
    if digits != "" && AllDigits(digits) && Value(digits) < USIZE then Some(Value(digits)) else None
  }

  // What stands between the brackets, when a piece is closed properly.
  function Inside(piece: string): Option<string> {
    if piece != "" && piece[|piece| - 1] == ']' then Some(piece[..|piece| - 1]) else None
  }

  predicate DimensionOk(piece: string) {
    && Inside(piece).Some?
    && (Inside(piece).value == ""
        || (ParseUsize(Inside(piece).value).Some? && ParseUsize(Inside(piece).value).value > 0))
  }

  // Digits, possibly behind a plus sign, of a number below 2^64.
  lemma ParseUsizeExactly(s: string, n: nat)
    ensures ParseUsize(s) == Some(n) <==>
              exists digits: string | digits == s || "+" + digits == s ::
                digits != "" && AllDigits(digits) && Value(digits) == n && n < 0x1_0000_0000_0000_0000
  {
    var digits := if s != "" && s[0] == '+' then s[1..] else s;
    assert digits == s || "+" + digits == s;
  }

  // A dimension is `]`, or a positive number and `]`.
  lemma DimensionExactly(piece: string)
    ensures DimensionOk(piece) <==>
              exists size: string | size + "]" == piece ::
                size == "" || exists n: nat | n > 0 :: ParseUsize(size) == Some(n)
  {
    if Inside(piece).Some? {
      assert Inside(piece).value + "]" == piece;
    }
    forall size: string | size + "]" == piece
      ensures Inside(piece) == Some(size)
    {
    }
  }

  datatype Param = AddressP | BoolP | StringP | BytesP | UintP(bits: nat) | IntP(bits: nat) | FixedBytesP(length: nat)

  predicate Prefixed(s: string, prefix: string) { prefix <= s }

  function IntegerWidth(width: string): Option<nat> {
    match ParseUsize(width)
    case Some(bits) => if 8 <= bits <= 256 && bits % 8 == 0 then Some(bits) else None
    case None => None
  }

  function PrimitiveType(name: string): (r: Option<Param>)
    ensures r.Some? && (r.value.UintP? || r.value.IntP?) ==> 8 <= r.value.bits <= 256 && r.value.bits % 8 == 0
    ensures r.Some? && r.value.FixedBytesP? ==> 1 <= r.value.length <= 32
  {
    if name == "address" then Some(AddressP)
    else if name == "bool" then Some(BoolP)
    else if name == "string" then Some(StringP)
    else if name == "bytes" then Some(BytesP)
    else if Prefixed(name, "uint") then
      (match IntegerWidth(name[4..]) case Some(bits) => Some(UintP(bits)) case None => None)
    else if Prefixed(name, "int") then
      (match IntegerWidth(name[3..]) case Some(bits) => Some(IntP(bits)) case None => None)
    else if Prefixed(name, "bytes") then
      (match ParseUsize(name[5..])
       case Some(length) => if 1 <= length <= 32 then Some(FixedBytesP(length)) else None
       case None => None)
    else None
  }

  ghost predicate KindOk(types: Types, kind: string) {
    && (Element(kind) in types || PrimitiveType(Element(kind)).Some?)
    && forall d | d in Dimensions(kind) :: DimensionOk(d)
  }

  ghost predicate FieldsOk(types: Types, fields: seq<Field>) {
    forall f | f in fields :: KindOk(types, f.kind)
  }

  // ----- reachability -----

  ghost predicate Edge(types: Types, u: string, v: string) {
    u in types && v in types && exists f :: f in types[u] && Element(f.kind) == v
  }

  ghost predicate Path(types: Types, p: seq<string>, a: string, b: string) {
    |p| > 0 && p[0] == a && p[|p| - 1] == b && forall i | 0 <= i < |p| - 1 :: Edge(types, p[i], p[i + 1])
  }

  ghost predicate Reaches(types: Types, a: string, b: string) {
    exists p :: Path(types, p, a, b)
  }

  lemma ReachesItself(types: Types, a: string)
    ensures Reaches(types, a, a)
  {
    assert Path(types, [a], a, a);
  }

  lemma ReachesStep(types: Types, a: string, b: string, c: string)
    requires Reaches(types, a, b) && Edge(types, b, c)
    ensures Reaches(types, a, c)
  {
    var p :| Path(types, p, a, b);
    assert Path(types, p + [c], a, c);
  }

  lemma ReachesTransitive(types: Types, a: string, b: string, c: string)
    requires Reaches(types, a, b) && Reaches(types, b, c)
    ensures Reaches(types, a, c)
  {
    var p, q :| Path(types, p, a, b) && Path(types, q, b, c);
    var r := p + q[1..];
    forall i | 0 <= i < |r| - 1 ensures Edge(types, r[i], r[i + 1]) {
      if i >= |p| - 1 {
        assert r[i] == q[i - (|p| - 1)] && r[i + 1] == q[i + 1 - (|p| - 1)];
      }
    }
    assert Path(types, r, a, c);
  }

  // A set of names closed under edges holds everything reachable from its members.
  lemma {:induction false} ClosedHoldsReachable(types: Types, names: seq<string>, p: seq<string>, a: string, b: string)
    requires a in names && Path(types, p, a, b)
    requires forall d, v | d in names && Edge(types, d, v) :: v in names
    ensures b in names
    decreases |p|
  {
    if |p| > 1 {
      assert Edge(types, p[0], p[1]);
      ClosedHoldsReachable(types, names, p[1..], p[1], b);
    }
  }

  // ----- the specification of `encode_type` -----

  // Everything reachable is defined and well formed.
  ghost predicate Encodable(types: Types, name: string) {
    forall t | Reaches(types, name, t) :: t in types && FieldsOk(types, types[t])
  }

  ghost function Reachable(types: Types, name: string): set<string> {
    set t | t in types && Reaches(types, name, t)
  }

  // The primary type, then the other reachable types in ascending order.
  ghost function Order(types: Types, name: string): seq<string> {
    [name] + Sorted(Reachable(types, name) - {name})
  }

  lemma OrderDefined(types: Types, name: string)
    requires Encodable(types, name)
    ensures forall n | n in Order(types, name) :: n in types
  {
    ReachesItself(types, name);
  }

  ghost function EncodedType(types: Types, name: string): string
    requires Encodable(types, name)
  {
    OrderDefined(types, name);
    Segments(types, Order(types, name))
  }

  lemma EncodableIsHereditary(types: Types, name: string, t: string)
    requires Encodable(types, name) && Reaches(types, name, t)
    ensures Encodable(types, t)
  {
    forall u | Reaches(types, t, u) ensures u in types && FieldsOk(types, types[u]) {
      ReachesTransitive(types, name, t, u);
    }
  }

  // ----- the worklist -----

  // The struct types a list of fields refers to, in order.
  function Pushes(types: Types, fields: seq<Field>): seq<string> {
    if fields == [] then []
    else
      var before := Pushes(types, fields[..|fields| - 1]);
      var element := Element(fields[|fields| - 1].kind);
      if element in types then before + [element] else before
  }

  lemma {:induction false} PushesFacts(types: Types, fields: seq<Field>, v: string)
    ensures v in Pushes(types, fields) <==> v in types && exists f :: f in fields && Element(f.kind) == v
  {
    if fields != [] {
      var n := |fields| - 1;
      PushesFacts(types, fields[..n], v);
      assert fields == fields[..n] + [fields[n]];
      if v in types && Element(fields[n].kind) == v {
        assert fields[n] in fields;
      }
    }
  }

  method CheckDimensions(kind: string) returns (ok: bool)
    ensures ok <==> forall d | d in Dimensions(kind) :: DimensionOk(d)
  {
    var dimensions := Dimensions(kind);
    for i := 0 to |dimensions|
      invariant forall j | 0 <= j < i :: DimensionOk(dimensions[j])
    {
      assert dimensions[i] in Dimensions(kind);
      if Inside(dimensions[i]).None? {
        return false;
      }
      var inside := Inside(dimensions[i]).value;
      if inside != "" {
        var size := ParseUsize(inside);
        if size.None? || size.value == 0 {
          return false;
        }
      }
    }
    return true;
  }

  lemma PushesStep(types: Types, fields: seq<Field>, i: nat)
    requires i < |fields|
    ensures fields[i] in fields
    ensures Pushes(types, fields[..i + 1])
         == if Element(fields[i].kind) in types then Pushes(types, fields[..i]) + [Element(fields[i].kind)]
            else Pushes(types, fields[..i])
  {
    assert fields[..i + 1][..i] == fields[..i];
  }

  lemma FieldsOkStep(types: Types, fields: seq<Field>, i: nat)
    requires i < |fields|
    ensures FieldsOk(types, fields[..i + 1]) <==> FieldsOk(types, fields[..i]) && KindOk(types, fields[i].kind)
    ensures FieldsOk(types, fields) ==> KindOk(types, fields[i].kind)
  {
    assert fields[..i + 1] == fields[..i] + [fields[i]] && fields[i] in fields;
  }

  method CheckKind(types: Types, kind: string) returns (ok: bool)
    ensures ok <==> KindOk(types, kind)
  {
    if Element(kind) !in types && PrimitiveType(Element(kind)).None? {
      return false;
    }
    ok := CheckDimensions(kind);
  }

  method ScanFields(types: Types, fields: seq<Field>, pending: seq<string>) returns (r: Result<seq<string>, Error>)
    ensures r.Ok? <==> FieldsOk(types, fields)
    ensures r == if r.Ok? then Ok(pending + Pushes(types, fields)) else Err(TypeError)
  {
    var stack := pending;
    ghost var pushed: seq<string> := [];
    for i := 0 to |fields|
      invariant stack == pending + pushed && pushed == Pushes(types, fields[..i])
      invariant FieldsOk(types, fields[..i])
    {
      PushesStep(types, fields, i);
      FieldsOkStep(types, fields, i);
      var ok := CheckKind(types, fields[i].kind);
      if !ok {
        return Err(TypeError);
      }
      if Element(fields[i].kind) in types {
        stack := stack + [Element(fields[i].kind)];
        pushed := pushed + [Element(fields[i].kind)];
      }
    }
    assert fields[..|fields|] == fields;
    return Ok(stack);
  }

  ghost predicate Explored(types: Types, name: string, done: seq<string>, pending: seq<string>) {
    && Ascending(done)
    && (forall d | d in done :: Reaches(types, name, d) && d in types && FieldsOk(types, types[d]))
    && (forall p | p in pending :: Reaches(types, name, p))
    && (forall d, v | d in done && Edge(types, d, v) :: v in done || v in pending)
    && (name in done || name in pending)
  }

  lemma ExploreOne(types: Types, name: string, done: seq<string>, pending: seq<string>, current: string)
    requires Explored(types, name, done, pending + [current]) && current in types && FieldsOk(types, types[current])
    ensures Explored(types, name, Insert(current, done), pending + Pushes(types, types[current]))
    ensures forall y :: y in Insert(current, done) <==> y == current || y in done
  {
    var done', pending' := Insert(current, done), pending + Pushes(types, types[current]);
    InsertFacts(current, done);
    assert current in pending + [current];
    forall p | p in pending' ensures Reaches(types, name, p) {
      if p in Pushes(types, types[current]) {
        PushesFacts(types, types[current], p);
        assert Edge(types, current, p);
        ReachesStep(types, name, current, p);
      } else {
        assert p in pending + [current];
      }
    }
    forall d, v | d in done' && Edge(types, d, v) ensures v in done' || v in pending' {
      if d == current {
        PushesFacts(types, types[current], v);
      } else {
        assert v in done || v in pending + [current];
      }
    }
    assert name in done || name in pending + [current];
  }

  // What an emptied worklist has collected is exactly the reachable set.
  lemma ExploredAll(types: Types, name: string, done: seq<string>)
    requires Explored(types, name, done, [])
    ensures Encodable(types, name)
    ensures [name] + Without(name, done) == Order(types, name)
  {
    forall t | Reaches(types, name, t) ensures t in done {
      var p :| Path(types, p, name, t);
      ClosedHoldsReachable(types, done, p, name, t);
    }
    WithoutFacts(name, done);
    AscendingUnique(Without(name, done), Sorted(Reachable(types, name) - {name}));
  }

  // Popping a name that was already collected.
  lemma SkipKnown(types: Types, name: string, done: seq<string>, pending: seq<string>, current: string)
    requires Explored(types, name, done, pending + [current]) && current in done
    ensures Explored(types, name, done, pending)
  {
    assert forall y :: y in pending + [current] <==> y in pending || y == current;
  }

  lemma PoppedIsReachable(types: Types, name: string, done: seq<string>, pending: seq<string>, current: string)
    requires Explored(types, name, done, pending + [current])
    ensures Reaches(types, name, current)
  {
    assert current in pending + [current];
  }

  // The struct types not collected yet: what bounds the loop, cycles or not.
  ghost function Uncollected(types: Types, done: seq<string>): set<string> {
    types.Keys - (set d | d in done)
  }

  lemma CollectingShrinks(types: Types, done: seq<string>, current: string)
    requires current in types && current !in done && Ascending(done)
    ensures |Uncollected(types, Insert(current, done))| < |Uncollected(types, done)|
  {
    InsertFacts(current, done);
    assert Uncollected(types, Insert(current, done)) == Uncollected(types, done) - {current};
  }

  method Collect(types: Types, name: string) returns (r: Result<seq<string>, Error>)
    ensures r.Ok? <==> Encodable(types, name)
    ensures r.Ok? ==> Ascending(r.value) && [name] + Without(name, r.value) == Order(types, name)
    ensures r.Err? ==> r.error == TypeError
  {
    var pending, dependencies := [name], [];
    ReachesItself(types, name);
    while pending != []
      invariant Explored(types, name, dependencies, pending)
      decreases |Uncollected(types, dependencies)|, |pending|
    {
      var current := pending[|pending| - 1];
      var rest := pending[..|pending| - 1];
      assert pending == rest + [current];
      PoppedIsReachable(types, name, dependencies, rest, current);
      if current in dependencies {
        SkipKnown(types, name, dependencies, rest, current);
        pending := rest;
      } else {
        if current !in types {
          return Err(TypeError);
        }
        var scanned := ScanFields(types, types[current], rest);
        if scanned.Err? {
          return Err(TypeError);
        }
        ExploreOne(types, name, dependencies, rest, current);
        CollectingShrinks(types, dependencies, current);
        dependencies := Insert(current, dependencies);
        pending := scanned.value;
      }
    }
    ExploredAll(types, name, dependencies);
    return Ok(dependencies);
  }

  // ----- the text -----

  lemma {:induction false} FieldsTextAppend(fields: seq<Field>, f: Field)
    ensures FieldsText(fields + [f])
         == if fields == [] then FieldText(f) else FieldsText(fields) + ("," + FieldText(f))
  {
    if fields != [] {
      assert (fields + [f])[1..] == fields[1..] + [f];
      FieldsTextAppend(fields[1..], f);
    }
  }

  method WriteFields(fields: seq<Field>) returns (text: string)
    ensures text == FieldsText(fields)
  {
    text := "";
    for i := 0 to |fields|
      invariant text == FieldsText(fields[..i])
    {
      FieldsTextAppend(fields[..i], fields[i]);
      assert fields[..i + 1] == fields[..i] + [fields[i]];
      if i != 0 {
        text := text + ("," + FieldText(fields[i]));
      } else {
        text := FieldText(fields[i]);
      }
    }
    assert fields[..|fields|] == fields;
  }

  lemma {:induction false} SegmentsAppend(types: Types, names: seq<string>, n: string)
    requires n in types && forall m | m in names :: m in types
    ensures Segments(types, names + [n]) == Segments(types, names) + Segment(n, types[n])
  {
    if names == [] {
      assert Segments(types, [n]) == Segment(n, types[n]) + "";
    } else {
      assert (names + [n])[1..] == names[1..] + [n];
      SegmentsAppend(types, names[1..], n);
    }
  }

  method EncodeType(types: Types, name: string) returns (r: Result<string, Error>)
    ensures r.Ok? <==> Encodable(types, name)
    ensures r.Ok? ==> r.value == EncodedType(types, name)
    ensures r.Err? ==> r.error == TypeError
  {
    var collected := Collect(types, name);
    if collected.Err? {
      return Err(TypeError);
    }
    var names := [name] + Without(name, collected.value);
    OrderDefined(types, name);
    var encoded := "";
    for i := 0 to |names|
      invariant forall m | m in names[..i] :: m in types
      invariant encoded == Segments(types, names[..i])
    {
      assert names[..i + 1] == names[..i] + [names[i]] && names[i] in names;
      SegmentsAppend(types, names[..i], names[i]);
      var fields := WriteFields(types[names[i]]);
      encoded := encoded + (names[i] + ("(" + (fields + ")")));
    }
    assert names[..|names|] == names;
    return Ok(encoded);
  }

  // ----- the type string determines the types -----

  // Equal strings come from equal primary names, equal reachable sets, and equal fields on
  // every reachable type.
  lemma EncodedTypeInjective(s: Types, a: string, t: Types, b: string)
    requires CleanTypes(s) && CleanTypes(t)
    requires Encodable(s, a) && Encodable(t, b) && EncodedType(s, a) == EncodedType(t, b)
    ensures a == b && Reachable(s, a) == Reachable(t, b)
    ensures forall n | n in Reachable(s, a) :: s[n] == t[n]
  {
    ReachesItself(s, a);
    ReachesItself(t, b);
    SegmentsInjective(s, Order(s, a), t, Order(t, b));
    assert Order(s, a)[0] == a && Order(t, b)[0] == b;
    assert Order(s, a)[1..] == Order(t, b)[1..];
    forall n ensures n in Reachable(s, a) <==> n in Order(s, a) {}
    forall n ensures n in Reachable(t, b) <==> n in Order(t, b) {}
  }
}
