// What a signing hash binds: equal hashes come from equal types and alike values.
//
// No hash of arbitrary texts is free of collisions, so the results speak of a finite set of
// byte strings among which there is none, and which holds everything hashed on the way.
module Binding {
  import opened Wrappers
  import opened TypeStrings
  import opened TypeGraph
  import opened Integers
  import opened TypedData
  import opened Encoding

  // Among these byte strings hashes collide neither with each other nor with the word of
  // an absent struct.
  ghost predicate NoCollision(lib: Library, hashed: set<seq<byte>>) {
    (forall x, y | x in hashed && y in hashed && lib.keccak(x) == lib.keccak(y) :: x == y) &&
    (forall x | x in hashed :: lib.keccak(x) != NoStruct())
  }

  ghost predicate TextsDiffer(lib: Library) {
    forall a, b | lib.utf8(a) == lib.utf8(b) :: a == b
  }

  // ----- what is hashed while a value is encoded -----

  ghost predicate PrimitiveHashes(hashed: set<seq<byte>>, lib: Library, kind: string, value: Json) {
    (kind == "string" && value.Str? ==> lib.utf8(value.text) in hashed) &&
    (kind != "string" && PrimitiveType(kind) == Some(BytesP) && Data(lib, value).Some? ==> Data(lib, value).value in hashed)
  }

  ghost predicate WordHashes(hashed: set<seq<byte>>, lib: Library, types: Types, kind: string, value: Json, depth: nat)
    decreases Room(depth), 2
  {
    depth > DEPTH_LIMIT ||
    if RSplit(kind).Some? then
      var element := RSplit(kind).value.0;
      value.Arr? ==>
        ItemHashes(hashed, lib, types, element, value.items, depth)
    else if kind in types then
      value.Obj? ==> StructHashes(hashed, lib, types, kind, value.fields, depth + 1)
    else PrimitiveHashes(hashed, lib, kind, value)
  }

  ghost predicate ItemHashes(hashed: set<seq<byte>>, lib: Library, types: Types, element: string, items: seq<Json>, depth: nat)
    requires depth <= DEPTH_LIMIT
    decreases Room(depth), 1
  {
    (forall w | Gather(ItemResults(lib, types, element, items, depth)) == Ok(w) :: w in hashed) &&
    (forall i | 0 <= i < |items| :: WordHashes(hashed, lib, types, element, items[i], depth + 1))
  }

  ghost predicate StructHashes(hashed: set<seq<byte>>, lib: Library, types: Types, name: string, values: map<string, Json>, depth: nat)
    decreases Room(depth), 2
  {
    depth > DEPTH_LIMIT || !Encodable(types, name) || name !in types ||
    (lib.utf8(EncodedType(types, name)) in hashed &&
     (forall w | Gather(FieldResults(lib, types, types[name], values, depth)) == Ok(w) ::
        lib.keccak(lib.utf8(EncodedType(types, name))) + w in hashed) &&
     (forall i | 0 <= i < |types[name]| :: FieldHashes(hashed, lib, types, types[name][i], values, depth)))
  }

  // The value a map holds under the field's name; an absent one counts as null.
  ghost predicate FieldHashes(hashed: set<seq<byte>>, lib: Library, types: Types, f: Field, values: map<string, Json>, depth: nat)
    requires depth <= DEPTH_LIMIT
    decreases Room(depth), 1
  {
    if f.name in values then WordHashes(hashed, lib, types, f.kind, values[f.name], depth + 1)
    else WordHashes(hashed, lib, types, f.kind, Null, depth + 1)
  }

  // ----- alike values -----

  // Two values say the same under a primitive kind: the same text, number, truth value or bytes.
  ghost predicate PrimitiveAlike(lib: Library, kind: string, u: Json, v: Json) {
    if kind == "string" then u == v
    else match PrimitiveType(kind)
      case Some(UintP(_)) => Denoted(lib.readers, Input(lib, u)) == Denoted(lib.readers, Input(lib, v))
      case Some(IntP(_)) => Denoted(lib.readers, Input(lib, u)) == Denoted(lib.readers, Input(lib, v))
      case Some(BoolP) => u == v
      case Some(BytesP) => Data(lib, u) == Data(lib, v)
      case Some(FixedBytesP(length)) => FixedAlike(lib, length, u, v)
      case Some(AddressP) => lib.word(AddressP, Hex(lib, u)) == lib.word(AddressP, Hex(lib, v))
      case _ => false
  }

  // Lists of bytes with the same content, hex texts read as the same word, or one of each
  // where the text is read as the list's bytes.
  ghost predicate FixedAlike(lib: Library, length: nat, u: Json, v: Json) {
    if u.Arr? && v.Arr? then ByteItems(u.items) == ByteItems(v.items)
    else if u.Arr? then ListReads(lib, length, u, v)
    else if v.Arr? then ListReads(lib, length, v, u)
    else lib.word(FixedBytesP(length), Hex(lib, u)) == lib.word(FixedBytesP(length), Hex(lib, v))
  }

  ghost predicate ListReads(lib: Library, length: nat, list: Json, text: Json)
    requires list.Arr?
  {
    var data, word := ByteItems(list.items), lib.word(FixedBytesP(length), Hex(lib, text));
    data.Some? && word.Some? && |data.value| <= 32 && word.value[..|data.value|] == data.value &&
    forall i | |data.value| <= i < 32 :: word.value[i] == 0
  }

  // Alike all the way down: arrays item by item, structs field by field.
  ghost predicate Alike(lib: Library, types: Types, kind: string, u: Json, v: Json, depth: nat)
    decreases Room(depth), 2
  {
    depth <= DEPTH_LIMIT &&
    if RSplit(kind).Some? then
      u.Arr? && v.Arr? && AlikeItems(lib, types, RSplit(kind).value.0, u.items, v.items, depth)
    else if kind in types then
      (u.Null? && v.Null?) || (u.Obj? && v.Obj? && StructAlike(lib, types, kind, u.fields, v.fields, depth + 1))
    else PrimitiveAlike(lib, kind, u, v)
  }

  ghost predicate AlikeItems(lib: Library, types: Types, element: string, u: seq<Json>, v: seq<Json>, depth: nat)
    requires depth <= DEPTH_LIMIT
    decreases Room(depth), 1
  {
    |u| == |v| && forall i | 0 <= i < |u| :: Alike(lib, types, element, u[i], v[i], depth + 1)
  }

  ghost predicate StructAlike(lib: Library, types: Types, name: string, u: map<string, Json>, v: map<string, Json>, depth: nat)
    decreases Room(depth), 2
  {
    depth <= DEPTH_LIMIT && name in types &&
    forall i | 0 <= i < |types[name]| :: FieldAlike(lib, types, types[name][i], u, v, depth)
  }

  // Both maps hold alike values under the field's name; where one holds none, null stands in.
  ghost predicate FieldAlike(lib: Library, types: Types, f: Field, u: map<string, Json>, v: map<string, Json>, depth: nat)
    requires depth <= DEPTH_LIMIT
    decreases Room(depth), 1
  {
    if f.name in u && f.name in v then Alike(lib, types, f.kind, u[f.name], v[f.name], depth + 1)
    else if f.name in u then Alike(lib, types, f.kind, u[f.name], Null, depth + 1)
    else if f.name in v then Alike(lib, types, f.kind, Null, v[f.name], depth + 1)
    else Alike(lib, types, f.kind, Null, Null, depth + 1)
  }

  // ----- words in a row -----

  lemma {:induction false} GatherInjective(a: seq<Result<Word, Error>>, b: seq<Result<Word, Error>>)
    requires Gather(a).Ok? && Gather(a) == Gather(b)
    ensures a == b
  {
    GatherLength(a);
    GatherLength(b);
    if a != [] {
      var m, n := |a| - 1, |b| - 1;
      Tail(Gather(a[..m]).value, a[m].value, Gather(b[..n]).value, b[n].value);
      GatherInjective(a[..m], b[..n]);
      assert a == a[..m] + [a[m]] && b == b[..n] + [b[n]];
    }
  }

  lemma Tail(a: seq<byte>, x: seq<byte>, b: seq<byte>, y: seq<byte>)
    requires a + x == b + y && (|x| == |y| || |a| == |b|)
    ensures a == b && x == y
  {
    assert |a| == |b|;
    assert (a + x)[..|a|] == a && (b + y)[..|b|] == b;
    assert (a + x)[|a|..] == x && (b + y)[|b|..] == y;
  }

  // Rows of words behind one head hash alike only when they are the same row.
  lemma RowBinds(hashed: set<seq<byte>>, lib: Library, head: seq<byte>, a: seq<Result<Word, Error>>, b: seq<Result<Word, Error>>)
    requires NoCollision(lib, hashed) && Gather(a).Ok? && Gather(b).Ok?
    requires head + Gather(a).value in hashed && head + Gather(b).value in hashed
    ensures lib.keccak(head + Gather(a).value) == lib.keccak(head + Gather(b).value) <==> a == b
  {
    if head + Gather(a).value == head + Gather(b).value {
      Tail(head, Gather(a).value, head, Gather(b).value);
      GatherInjective(a, b);
    }
  }

  // ----- equal words are alike values -----

  lemma PrimitiveBinds(hashed: set<seq<byte>>, lib: Library, kind: string, u: Json, v: Json)
    requires NoCollision(lib, hashed) && TextsDiffer(lib)
    requires PrimitiveHashes(hashed, lib, kind, u) && PrimitiveHashes(hashed, lib, kind, v)
    requires EncodePrimitive(lib, kind, u).Ok? && EncodePrimitive(lib, kind, v).Ok?
    ensures EncodePrimitive(lib, kind, u) == EncodePrimitive(lib, kind, v) <==> PrimitiveAlike(lib, kind, u, v)
  {
    if kind != "string" {
      match PrimitiveType(kind)
      case Some(UintP(bits)) => NumberBinds(lib, Input(lib, u), Input(lib, v), bits, false);
      case Some(IntP(bits)) => NumberBinds(lib, Input(lib, u), Input(lib, v), bits, true);
      case Some(BoolP) => assert Bytes(0, 32) != Bytes(1, 32) by { ZeroIsNotOne(); }
      case Some(FixedBytesP(length)) => FixedBinds(lib, kind, length, u, v);
      case _ =>
    }
  }

  lemma FixedBinds(lib: Library, kind: string, length: nat, u: Json, v: Json)
    requires kind != "string" && PrimitiveType(kind) == Some(FixedBytesP(length))
    requires EncodePrimitive(lib, kind, u).Ok? && EncodePrimitive(lib, kind, v).Ok?
    ensures EncodePrimitive(lib, kind, u) == EncodePrimitive(lib, kind, v) <==> FixedAlike(lib, length, u, v)
  {
    if u.Arr? {
      PadReads(ByteItems(u.items).value, EncodePrimitive(lib, kind, v).value);
    } else if v.Arr? {
      PadReads(ByteItems(v.items).value, EncodePrimitive(lib, kind, u).value);
    }
    if u.Arr? && v.Arr? {
      var a, b := ByteItems(u.items).value, ByteItems(v.items).value;
      PadReads(b, EncodePrimitive(lib, kind, v).value);
    }
  }

  lemma ZeroIsNotOne()
    ensures Bytes(0, 32) != Bytes(1, 32)
  {
    if Bytes(0, 32) == Bytes(1, 32) {
      assert 1 < Pow256(32) by { Pow256AtLeastOne(31); }
      BytesInjective(0, 1, 32);
    }
  }

  lemma Pow256AtLeastOne(n: nat)
    ensures Pow256(n) >= 1
  {
  }

  lemma NumberBinds(lib: Library, a: string, b: string, bits: nat, signed: bool)
    requires Width(bits)
    requires IntegerToken(lib.readers, a, bits, signed).Ok? && IntegerToken(lib.readers, b, bits, signed).Ok?
    ensures Bytes(IntegerToken(lib.readers, a, bits, signed).value, 32) == Bytes(IntegerToken(lib.readers, b, bits, signed).value, 32)
       <==> Denoted(lib.readers, a) == Denoted(lib.readers, b)
  {
    IntegerTokenWord(lib.readers, a, bits, signed);
    IntegerTokenWord(lib.readers, b, bits, signed);
    if Bytes(IntegerToken(lib.readers, a, bits, signed).value, 32) == Bytes(IntegerToken(lib.readers, b, bits, signed).value, 32) {
      IntegerWordInjective(lib.readers, a, b, bits, signed);
    }
  }

  ghost predicate Comparable(hashed: set<seq<byte>>, lib: Library, types: Types, kind: string, u: Json, v: Json, depth: nat) {
    NoCollision(lib, hashed) && TextsDiffer(lib) &&
    WordHashes(hashed, lib, types, kind, u, depth) && WordHashes(hashed, lib, types, kind, v, depth) &&
    ValueWord(lib, types, kind, u, depth).Ok? && ValueWord(lib, types, kind, v, depth).Ok?
  }

  // A word says exactly what its value says.
  lemma {:induction false} WordBinds(hashed: set<seq<byte>>, lib: Library, types: Types, kind: string, u: Json, v: Json, depth: nat)
    requires Comparable(hashed, lib, types, kind, u, v, depth)
    ensures ValueWord(lib, types, kind, u, depth) == ValueWord(lib, types, kind, v, depth) <==>
            Alike(lib, types, kind, u, v, depth)
    decreases Room(depth), 3
  {
    if RSplit(kind).Some? {
      ArrayBinds(hashed, lib, types, RSplit(kind).value.0, u.items, v.items, depth);
    } else if kind in types {
      StructWordBinds(hashed, lib, types, kind, Fields(u), Fields(v), depth + 1);
    } else {
      PrimitiveBinds(hashed, lib, kind, u, v);
    }
  }

  // A struct, or no struct: `None` here.
  ghost function StructWord(lib: Library, types: Types, name: string, values: Option<map<string, Json>>, depth: nat): Result<Word, Error> {
    if values.None? then Ok(NoStruct()) else StructHash(lib, types, name, values.value, depth)
  }

  function Fields(value: Json): Option<map<string, Json>> { if value.Obj? then Some(value.fields) else None }

  lemma {:induction false} StructWordBinds(hashed: set<seq<byte>>, lib: Library, types: Types, name: string,
                                           u: Option<map<string, Json>>, v: Option<map<string, Json>>, depth: nat)
    requires NoCollision(lib, hashed) && TextsDiffer(lib)
    requires u.Some? ==> StructHashes(hashed, lib, types, name, u.value, depth)
    requires v.Some? ==> StructHashes(hashed, lib, types, name, v.value, depth)
    requires StructWord(lib, types, name, u, depth).Ok? && StructWord(lib, types, name, v, depth).Ok?
    ensures StructWord(lib, types, name, u, depth) == StructWord(lib, types, name, v, depth) <==>
            (u.None? && v.None?) || (u.Some? && v.Some? && StructAlike(lib, types, name, u.value, v.value, depth))
    decreases Room(depth), 3
  {
    if u.Some? && v.Some? {
      StructBinds(hashed, lib, types, name, u.value, v.value, depth);
    } else if u.Some? {
      AbsentDiffers(hashed, lib, types, name, u.value, depth);
    } else if v.Some? {
      AbsentDiffers(hashed, lib, types, name, v.value, depth);
    }
  }

  lemma AbsentDiffers(hashed: set<seq<byte>>, lib: Library, types: Types, name: string, values: map<string, Json>, depth: nat)
    requires NoCollision(lib, hashed) && StructHashes(hashed, lib, types, name, values, depth)
    requires StructHash(lib, types, name, values, depth).Ok?
    ensures StructHash(lib, types, name, values, depth) != Ok(NoStruct())
  {
    ReachesItself(types, name);
  }

  lemma {:induction false} ItemBinds(hashed: set<seq<byte>>, lib: Library, types: Types, kind: string, u: Json, v: Json,
                                     depth: nat, a: Result<Word, Error>, b: Result<Word, Error>)
    requires NoCollision(lib, hashed) && TextsDiffer(lib) && depth <= DEPTH_LIMIT
    requires WordHashes(hashed, lib, types, kind, u, depth + 1) && WordHashes(hashed, lib, types, kind, v, depth + 1)
    requires a == ValueWord(lib, types, kind, u, depth + 1) && b == ValueWord(lib, types, kind, v, depth + 1)
    requires a.Ok? && b.Ok?
    ensures a == b <==> Alike(lib, types, kind, u, v, depth + 1)
    decreases Room(depth), 0
  {
    WordBinds(hashed, lib, types, kind, u, v, depth + 1);
  }

  lemma {:induction false} FieldBinds(hashed: set<seq<byte>>, lib: Library, types: Types, f: Field, u: map<string, Json>,
                                      v: map<string, Json>, depth: nat, a: Result<Word, Error>, b: Result<Word, Error>)
    requires NoCollision(lib, hashed) && TextsDiffer(lib) && depth <= DEPTH_LIMIT
    requires FieldHashes(hashed, lib, types, f, u, depth) && FieldHashes(hashed, lib, types, f, v, depth)
    requires a == ValueWord(lib, types, f.kind, FieldValue(u, f), depth + 1)
    requires b == ValueWord(lib, types, f.kind, FieldValue(v, f), depth + 1)
    requires a.Ok? && b.Ok?
    ensures a == b <==> FieldAlike(lib, types, f, u, v, depth)
    decreases Room(depth), 1
  {
    ItemBinds(hashed, lib, types, f.kind, FieldValue(u, f), FieldValue(v, f), depth, a, b);
  }

  lemma ItemsBind(lib: Library, types: Types, element: string, u: seq<Json>, v: seq<Json>, depth: nat,
                  a: seq<Result<Word, Error>>, b: seq<Result<Word, Error>>)
    requires |a| == |u| && |b| == |v| && depth <= DEPTH_LIMIT
    requires forall i | 0 <= i < |u| && i < |v| :: a[i] == b[i] <==> Alike(lib, types, element, u[i], v[i], depth + 1)
    ensures a == b <==> AlikeItems(lib, types, element, u, v, depth)
  {
  }

  lemma FieldsBind(lib: Library, types: Types, name: string, u: map<string, Json>, v: map<string, Json>, depth: nat,
                   a: seq<Result<Word, Error>>, b: seq<Result<Word, Error>>)
    requires depth <= DEPTH_LIMIT && name in types && |a| == |types[name]| == |b|
    requires forall i | 0 <= i < |a| ::
               a[i] == b[i] <==> FieldAlike(lib, types, types[name][i], u, v, depth)
    ensures a == b <==> StructAlike(lib, types, name, u, v, depth)
  {
  }

  lemma {:induction false} ArrayBinds(hashed: set<seq<byte>>, lib: Library, types: Types, element: string,
                                      u: seq<Json>, v: seq<Json>, depth: nat)
    requires NoCollision(lib, hashed) && TextsDiffer(lib) && depth <= DEPTH_LIMIT
    requires ItemHashes(hashed, lib, types, element, u, depth) && ItemHashes(hashed, lib, types, element, v, depth)
    requires Gather(ItemResults(lib, types, element, u, depth)).Ok? && Gather(ItemResults(lib, types, element, v, depth)).Ok?
    ensures lib.keccak(Gather(ItemResults(lib, types, element, u, depth)).value)
              == lib.keccak(Gather(ItemResults(lib, types, element, v, depth)).value)
       <==> AlikeItems(lib, types, element, u, v, depth)
    decreases Room(depth), 1
  {
    var a, b := ItemResults(lib, types, element, u, depth), ItemResults(lib, types, element, v, depth);
    GatherLength(a);
    GatherLength(b);
    forall i | 0 <= i < |u| && i < |v|
      ensures a[i] == b[i] <==> Alike(lib, types, element, u[i], v[i], depth + 1)
    {
      ItemBinds(hashed, lib, types, element, u[i], v[i], depth, a[i], b[i]);
    }
    ItemsBind(lib, types, element, u, v, depth, a, b);
    assert forall s: seq<byte> :: [] + s == s;
    RowBinds(hashed, lib, [], a, b);
  }

  lemma {:induction false} StructBinds(hashed: set<seq<byte>>, lib: Library, types: Types, name: string,
                                       u: map<string, Json>, v: map<string, Json>, depth: nat)
    requires NoCollision(lib, hashed) && TextsDiffer(lib)
    requires StructHashes(hashed, lib, types, name, u, depth) && StructHashes(hashed, lib, types, name, v, depth)
    requires StructHash(lib, types, name, u, depth).Ok? && StructHash(lib, types, name, v, depth).Ok?
    ensures StructHash(lib, types, name, u, depth) == StructHash(lib, types, name, v, depth) <==>
            StructAlike(lib, types, name, u, v, depth)
    decreases Room(depth), 2
  {
    ReachesItself(types, name);
    var fields := types[name];
    var a, b := FieldResults(lib, types, fields, u, depth), FieldResults(lib, types, fields, v, depth);
    GatherLength(a);
    GatherLength(b);
    forall i | 0 <= i < |fields|
      ensures a[i] == b[i] <==> FieldAlike(lib, types, fields[i], u, v, depth)
    {
      FieldBinds(hashed, lib, types, fields[i], u, v, depth, a[i], b[i]);
    }
    FieldsBind(lib, types, name, u, v, depth, a, b);
    RowBinds(hashed, lib, lib.keccak(lib.utf8(EncodedType(types, name))), a, b);
  }

  // ----- only the reachable types matter -----

  ghost predicate SameTypes(s: Types, t: Types, n: string) {
    Encodable(s, n) && Encodable(t, n) && Reachable(s, n) == Reachable(t, n) &&
    forall m | m in Reachable(s, n) :: m in s && m in t && s[m] == t[m]
  }

  lemma EdgeCarries(s: Types, t: Types, n: string, u: string, v: string)
    requires SameTypes(s, t, n) && u in Reachable(s, n) && Edge(s, u, v)
    ensures v in Reachable(s, n) && Edge(t, u, v)
  {
    ReachesStep(s, n, u, v);
    assert v in Reachable(t, n);
  }

  lemma {:induction false} PathCarries(s: Types, t: Types, n: string, p: seq<string>, a: string, b: string)
    requires SameTypes(s, t, n) && a in Reachable(s, n) && Path(s, p, a, b)
    ensures Path(t, p, a, b)
    decreases |p|
  {
    if |p| > 1 {
      EdgeCarries(s, t, n, a, p[1]);
      PathCarries(s, t, n, p[1..], p[1], b);
      forall i | 0 <= i < |p| - 1
        ensures Edge(t, p[i], p[i + 1])
      {
        if i > 0 {
          assert Edge(t, p[1..][i - 1], p[1..][i]);
        }
      }
    }
  }

  lemma BelowCarries(s: Types, t: Types, n: string, c: string, x: string)
    requires SameTypes(s, t, n) && c in Reachable(s, n) && x in Reachable(s, c)
    ensures x in Reachable(t, c) && x in Reachable(s, n)
  {
    var p :| Path(s, p, c, x);
    PathCarries(s, t, n, p, c, x);
    ReachesTransitive(s, n, c, x);
    assert x in Reachable(t, n);
  }

  lemma SameBelow(s: Types, t: Types, n: string)
    requires SameTypes(s, t, n)
    ensures forall c | c in Reachable(s, n) :: SameTypes(s, t, c)
  {
    forall c | c in Reachable(s, n)
      ensures SameTypes(s, t, c)
    {
      EncodableIsHereditary(s, n, c);
      EncodableIsHereditary(t, n, c);
      forall x
        ensures x in Reachable(s, c) <==> x in Reachable(t, c)
        ensures x in Reachable(s, c) ==> x in Reachable(s, n)
      {
        if x in Reachable(s, c) {
          BelowCarries(s, t, n, c, x);
        }
        if x in Reachable(t, c) {
          BelowCarries(t, s, n, c, x);
        }
      }
    }
  }

  lemma {:induction false} SameSegments(s: Types, t: Types, names: seq<string>)
    requires forall m | m in names :: m in s && m in t && s[m] == t[m]
    ensures Segments(s, names) == Segments(t, names)
  {
    if names != [] {
      SameSegments(s, t, names[1..]);
    }
  }

  lemma SameText(s: Types, t: Types, n: string)
    requires SameTypes(s, t, n)
    ensures EncodedType(s, n) == EncodedType(t, n)
  {
    OrderDefined(s, n);
    OrderDefined(t, n);
    ReachesItself(s, n);
    assert n in Reachable(s, n);
    SameSegments(s, t, Order(s, n));
  }

  // The two maps treat a kind alike.
  ghost predicate SameKind(s: Types, t: Types, kind: string) {
    (Element(kind) in s <==> Element(kind) in t) && (Element(kind) in s ==> SameTypes(s, t, Element(kind)))
  }

  lemma FieldsSameKind(s: Types, t: Types, n: string)
    requires SameTypes(s, t, n) && n in s
    ensures forall f | f in s[n] :: SameKind(s, t, f.kind)
  {
    ReachesItself(s, n);
    assert n in Reachable(s, n) && n in t && s[n] == t[n];
    forall f | f in s[n]
      ensures SameKind(s, t, f.kind)
    {
      var e := Element(f.kind);
      if e in s {
        assert Edge(s, n, e);
        EdgeCarries(s, t, n, n, e);
        SameBelow(s, t, n);
      }
      if e in t {
        assert Edge(t, n, e);
        EdgeCarries(t, s, n, n, e);
      }
    }
  }

  lemma {:induction false} SameWord(hashed: set<seq<byte>>, lib: Library, s: Types, t: Types, kind: string, value: Json, depth: nat)
    requires SameKind(s, t, kind)
    ensures ValueWord(lib, s, kind, value, depth) == ValueWord(lib, t, kind, value, depth)
    ensures WordHashes(hashed, lib, s, kind, value, depth) <==> WordHashes(hashed, lib, t, kind, value, depth)
    decreases Room(depth), 2
  {
    if depth <= DEPTH_LIMIT {
      if RSplit(kind).Some? {
        if value.Arr? {
          SameElement(s, t, kind);
          SameItems(hashed, lib, s, t, RSplit(kind).value.0, value.items, depth);
        }
      } else {
        PlainKind(kind);
        if kind in s && value.Obj? {
          SameStruct(hashed, lib, s, t, kind, value.fields, depth + 1);
        }
      }
    }
  }

  lemma SameElement(s: Types, t: Types, kind: string)
    requires SameKind(s, t, kind) && RSplit(kind).Some?
    ensures SameKind(s, t, RSplit(kind).value.0)
  {
    RSplitPieces(kind);
    assert Element(RSplit(kind).value.0) == Element(kind);
  }

  lemma {:induction false} SameItems(hashed: set<seq<byte>>, lib: Library, s: Types, t: Types, element: string,
                                     items: seq<Json>, depth: nat)
    requires SameKind(s, t, element) && depth <= DEPTH_LIMIT
    ensures ItemResults(lib, s, element, items, depth) == ItemResults(lib, t, element, items, depth)
    ensures ItemHashes(hashed, lib, s, element, items, depth) <==> ItemHashes(hashed, lib, t, element, items, depth)
    decreases Room(depth), 1
  {
    forall i | 0 <= i < |items|
      ensures ValueWord(lib, s, element, items[i], depth + 1) == ValueWord(lib, t, element, items[i], depth + 1)
      ensures WordHashes(hashed, lib, s, element, items[i], depth + 1) <==> WordHashes(hashed, lib, t, element, items[i], depth + 1)
    {
      SameWord(hashed, lib, s, t, element, items[i], depth + 1);
    }
    assert ItemResults(lib, s, element, items, depth) == ItemResults(lib, t, element, items, depth);
  }

  lemma {:induction false} SameField(hashed: set<seq<byte>>, lib: Library, s: Types, t: Types, f: Field,
                                     values: map<string, Json>, depth: nat)
    requires SameKind(s, t, f.kind) && depth <= DEPTH_LIMIT
    ensures ValueWord(lib, s, f.kind, FieldValue(values, f), depth + 1) == ValueWord(lib, t, f.kind, FieldValue(values, f), depth + 1)
    ensures FieldHashes(hashed, lib, s, f, values, depth) <==> FieldHashes(hashed, lib, t, f, values, depth)
    decreases Room(depth), 0
  {
    SameWord(hashed, lib, s, t, f.kind, FieldValue(values, f), depth + 1);
  }

  lemma {:induction false} SameStruct(hashed: set<seq<byte>>, lib: Library, s: Types, t: Types, n: string,
                                      values: map<string, Json>, depth: nat)
    requires SameTypes(s, t, n)
    ensures StructHash(lib, s, n, values, depth) == StructHash(lib, t, n, values, depth)
    ensures StructHashes(hashed, lib, s, n, values, depth) <==> StructHashes(hashed, lib, t, n, values, depth)
    decreases Room(depth), 2
  {
    if depth <= DEPTH_LIMIT {
      ReachesItself(s, n);
      assert n in Reachable(s, n) && s[n] == t[n];
      SameText(s, t, n);
      var fields := s[n];
      FieldsSameKind(s, t, n);
      forall i | 0 <= i < |fields|
        ensures ValueWord(lib, s, fields[i].kind, FieldValue(values, fields[i]), depth + 1)
             == ValueWord(lib, t, fields[i].kind, FieldValue(values, fields[i]), depth + 1)
        ensures FieldHashes(hashed, lib, s, fields[i], values, depth) <==> FieldHashes(hashed, lib, t, fields[i], values, depth)
      {
        SameField(hashed, lib, s, t, fields[i], values, depth);
      }
      assert FieldResults(lib, s, fields, values, depth) == FieldResults(lib, t, fields, values, depth);
    }
  }

  // ----- what a signature binds -----

  // Under clean names, equal struct hashes come from the same name, the same reachable
  // types and alike values.
  lemma HashBinds(hashed: set<seq<byte>>, lib: Library, s: Types, m: string, u: map<string, Json>,
                  t: Types, n: string, v: map<string, Json>)
    requires NoCollision(lib, hashed) && TextsDiffer(lib) && CleanTypes(s) && CleanTypes(t)
    requires StructHashes(hashed, lib, s, m, u, 0) && StructHashes(hashed, lib, t, n, v, 0)
    requires StructHash(lib, s, m, u, 0).Ok? && StructHash(lib, t, n, v, 0).Ok?
    ensures StructHash(lib, s, m, u, 0) == StructHash(lib, t, n, v, 0) <==>
            m == n && SameTypes(s, t, m) && StructAlike(lib, s, m, u, v, 0)
  {
    if StructHash(lib, s, m, u, 0) == StructHash(lib, t, n, v, 0) {
      SameTypeText(hashed, lib, s, m, u, t, n, v);
      EncodedTypeInjective(s, m, t, n);
      EncodableNames(s, m);
      EncodableNames(t, n);
    }
    if m == n && SameTypes(s, t, m) {
      SameStruct(hashed, lib, s, t, m, v, 0);
      StructBinds(hashed, lib, s, m, u, v, 0);
    }
  }

  lemma EncodableNames(types: Types, n: string)
    requires Encodable(types, n)
    ensures forall m | m in Reachable(types, n) :: m in types
  {
  }

  lemma SameTypeText(hashed: set<seq<byte>>, lib: Library, s: Types, m: string, u: map<string, Json>,
                     t: Types, n: string, v: map<string, Json>)
    requires NoCollision(lib, hashed) && TextsDiffer(lib)
    requires StructHashes(hashed, lib, s, m, u, 0) && StructHashes(hashed, lib, t, n, v, 0)
    requires StructHash(lib, s, m, u, 0).Ok? && StructHash(lib, s, m, u, 0) == StructHash(lib, t, n, v, 0)
    ensures Encodable(s, m) && Encodable(t, n) && EncodedType(s, m) == EncodedType(t, n)
  {
    ReachesItself(s, m);
    ReachesItself(t, n);
    var a, b := lib.keccak(lib.utf8(EncodedType(s, m))), lib.keccak(lib.utf8(EncodedType(t, n)));
    var x, y := Gather(FieldResults(lib, s, s[m], u, 0)).value, Gather(FieldResults(lib, t, t[n], v, 0)).value;
    assert a + x in hashed && b + y in hashed;
    Tail(a, x, b, y);
  }

  ghost predicate TypedHashes(hashed: set<seq<byte>>, lib: Library, typed: Typed) {
    StructHashes(hashed, lib, DomainTypes(typed.domain), DOMAIN, typed.domain, 0) &&
    (typed.primaryType != DOMAIN ==> StructHashes(hashed, lib, typed.types, typed.primaryType, typed.message, 0)) &&
    (DomainHash(lib, typed).Ok? && MessageHash(lib, typed).Ok? ==>
       Preimage(DomainHash(lib, typed).value, MessageHash(lib, typed).value) in hashed)
  }

  // The same domain fields with alike values, and the same message under the same types.
  ghost predicate SameDomain(lib: Library, a: Typed, b: Typed) {
    SameTypes(DomainTypes(a.domain), DomainTypes(b.domain), DOMAIN) &&
    StructAlike(lib, DomainTypes(a.domain), DOMAIN, a.domain, b.domain, 0)
  }

  ghost predicate SameMessage(lib: Library, a: Typed, b: Typed) {
    a.primaryType == b.primaryType &&
    (a.primaryType != DOMAIN ==>
       SameTypes(a.types, b.types, a.primaryType) && StructAlike(lib, a.types, a.primaryType, a.message, b.message, 0))
  }

  lemma DomainTypesAreClean(domain: map<string, Json>)
    ensures CleanTypes(DomainTypes(domain))
  {
    PresentExactly(DOMAIN_FIELDS, domain);
    DomainFieldsAreClean();
    CleanDomainName();
  }

  lemma DomainFieldsAreClean()
    ensures CleanFields(DOMAIN_FIELDS)
  {
    CleanShortTexts();
    CleanOtherTexts();
    CleanContractText();
  }

  lemma CleanDomainName()
    ensures Clean(DOMAIN)
  {
  }

  lemma CleanShortTexts()
    ensures Clean("name") && Clean("salt") && Clean("string") && Clean("version")
  {
  }

  lemma CleanOtherTexts()
    ensures Clean("uint256") && Clean("address") && Clean("bytes32") && Clean("chainId")
  {
  }

  lemma CleanContractText()
    ensures Clean("verifyingContract")
  {
  }

  // The same fields in the same order, some left out.
  ghost predicate Subsequence(p: seq<Field>, fields: seq<Field>) {
    p == [] ||
    (fields != [] && ((p[0] == fields[0] && Subsequence(p[1..], fields[1..])) || Subsequence(p, fields[1..])))
  }

  // A domain's type has exactly the fields whose name the domain holds with a value that is
  // not null, in their canonical order.
  lemma {:induction false} PresentExactly(fields: seq<Field>, domain: map<string, Json>)
    ensures forall f :: f in Present(fields, domain) <==> f in fields && f.name in domain && !domain[f.name].Null?
    ensures Subsequence(Present(fields, domain), fields)
  {
    if fields != [] {
      PresentExactly(fields[1..], domain);
      var p := Present(fields, domain);
      assert p != [] && p[0] == fields[0] && p[1..] == Present(fields[1..], domain) ==> Subsequence(p, fields);
    }
  }

  // Both values can be signed, with clean names and nothing colliding on the way.
  ghost predicate Signable(hashed: set<seq<byte>>, lib: Library, a: Typed, b: Typed) {
    NoCollision(lib, hashed) && TextsDiffer(lib) && CleanTypes(a.types) && CleanTypes(b.types) &&
    TypedHashes(hashed, lib, a) && TypedHashes(hashed, lib, b) &&
    Signed(lib, a).Ok? && Signed(lib, b).Ok?
  }

  // Two typed values sign alike exactly when they say the same.
  lemma SignatureBinds(hashed: set<seq<byte>>, lib: Library, a: Typed, b: Typed)
    requires Signable(hashed, lib, a, b)
    ensures Signed(lib, a) == Signed(lib, b) <==> SameDomain(lib, a, b) && SameMessage(lib, a, b)
  {
    var d, e := DomainHash(lib, a).value, DomainHash(lib, b).value;
    var m, n := MessageHash(lib, a).value, MessageHash(lib, b).value;
    if Preimage(d, m) == Preimage(e, n) {
      PreimageInjective(d, m, e, n);
    }
    DomainTypesAreClean(a.domain);
    DomainTypesAreClean(b.domain);
    HashBinds(hashed, lib, DomainTypes(a.domain), DOMAIN, a.domain, DomainTypes(b.domain), DOMAIN, b.domain);
    MessageBinds(hashed, lib, a, b);
  }

  lemma MessageBinds(hashed: set<seq<byte>>, lib: Library, a: Typed, b: Typed)
    requires NoCollision(lib, hashed) && TextsDiffer(lib) && CleanTypes(a.types) && CleanTypes(b.types)
    requires TypedHashes(hashed, lib, a) && TypedHashes(hashed, lib, b)
    requires MessageHash(lib, a).Ok? && MessageHash(lib, b).Ok?
    ensures MessageHash(lib, a) == MessageHash(lib, b) <==> SameMessage(lib, a, b)
  {
    if a.primaryType != DOMAIN && b.primaryType != DOMAIN {
      HashBinds(hashed, lib, a.types, a.primaryType, a.message, b.types, b.primaryType, b.message);
    }
  }
}
