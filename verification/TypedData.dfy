// `hash_struct`, `encode_word` and the signing hash: recursive encoding of JSON values
// under a graph of struct types, bounded by a depth limit.
module TypedData {
  import opened Wrappers
  import opened TypeStrings
  import opened TypeGraph
  import opened Integers

  type Word = w: seq<byte> | |w| == 32 witness Bytes(0, 32)

  datatype Json =
    | Null
    | Bool(b: bool)
    | Number(text: string, unsigned: Option<nat>)   // `unsigned` is what `as_u64` answers
    | Str(text: string)
    | Arr(items: seq<Json>)
    | Obj(fields: map<string, Json>)

  // Code outside the model: hashing, UTF-8, JSON rendering and ABI text decoding.
  datatype Library = Library(
    keccak: seq<byte> -> Word,
    utf8: string -> seq<byte>,
    render: Json -> string,
    readers: Readers,
    word: (Param, string) -> Option<Word>,     // an address or fixed bytes, as one word
    bytes: string -> Option<seq<byte>>)

  const DEPTH_LIMIT: nat := 128

  // The word of an absent struct.
  function NoStruct(): Word { seq(32, i => 0) }

  // ----- splitting off the last array dimension -----

  function RSplit(kind: string): (r: Option<(string, string)>)
    ensures r.Some? ==> |r.value.0| < |kind|
  {
    if kind == "" then None
    else
      var n := |kind| - 1;
      if kind[n] == '[' then Some((kind[..n], ""))
      else match RSplit(kind[..n])
        case None => None
        case Some((element, suffix)) => Some((element, suffix + [kind[n]]))
  }

  function Extend(p: seq<string>, c: char): seq<string>
    requires |p| > 0
  {
    if c == '[' then p + [""] else p[..|p| - 1] + [p[|p| - 1] + [c]]
  }

  lemma {:induction false} PiecesSnoc(s: string, c: char)
    ensures Pieces(s + [c]) == Extend(Pieces(s), c)
  {
    if s == "" {
      assert s + [c] == [c] && [c][1..] == "" && [c] + "" == [c];
      assert Pieces("") == [""] && Pieces("")[..0] == [];
    } else {
      assert (s + [c])[1..] == s[1..] + [c];
      PiecesSnoc(s[1..], c);
      ExtendLater(Pieces(s[1..]), s[0], c);
    }
  }

  lemma ExtendLater(p: seq<string>, d: char, c: char)
    requires |p| > 0
    ensures Extend([""] + p, c) == [""] + Extend(p, c)
    ensures Extend([[d] + p[0]] + p[1..], c) == [[d] + Extend(p, c)[0]] + Extend(p, c)[1..]
  {
    if |p| == 1 {
      assert [d] + (p[0] + [c]) == [d] + p[0] + [c];
    }
  }

  // The last dimension is the last piece, and what precedes it keeps all the others.
  lemma {:induction false} RSplitPieces(kind: string)
    ensures match RSplit(kind)
            case None => Pieces(kind) == [kind]
            case Some((element, suffix)) => Pieces(kind) == Pieces(element) + [suffix]
  {
    if kind != "" {
      var n := |kind| - 1;
      assert kind == kind[..n] + [kind[n]];
      PiecesSnoc(kind[..n], kind[n]);
      RSplitPieces(kind[..n]);
    }
  }

  lemma ArrayKindOk(types: Types, kind: string)
    requires KindOk(types, kind) && RSplit(kind).Some?
    ensures DimensionOk(RSplit(kind).value.1)
    ensures KindOk(types, RSplit(kind).value.0) && Element(RSplit(kind).value.0) == Element(kind)
  {
    RSplitPieces(kind);
    var (element, suffix) := RSplit(kind).value;
    assert Dimensions(kind) == Dimensions(element) + [suffix];
  }

  lemma PlainKind(kind: string)
    requires RSplit(kind).None?
    ensures Element(kind) == kind
  {
    RSplitPieces(kind);
  }

  // ----- primitive values -----

  function ByteItems(items: seq<Json>): Option<seq<byte>> {
    if items == [] then Some([])
    else
      var last := items[|items| - 1];
      match ByteItems(items[..|items| - 1])
      case None => None
      case Some(before) =>
        if last.Number? && last.unsigned.Some? && last.unsigned.value < 256
        then Some(before + [last.unsigned.value as byte]) else None
  }

  function PadRight(s: seq<byte>): seq<byte> {
    if |s| <= 32 then s + Bytes(0, 32 - |s|) else s
  }

  // A value as text, and that text without a leading `0x`.
  function Input(lib: Library, value: Json): string { if value.Str? then value.text else lib.render(value) }

  function Hex(lib: Library, value: Json): string {
    var input := Input(lib, value);
    if "0x" <= input then input[2..] else input
  }

  // The content of a dynamic `bytes` value.
  function Data(lib: Library, value: Json): Option<seq<byte>> {
    if value.Arr? then ByteItems(value.items) else lib.bytes(Hex(lib, value))
  }

  function EncodePrimitive(lib: Library, kind: string, value: Json): Result<Word, Error> {
    if kind == "string" then
      if value.Str? then Ok(lib.keccak(lib.utf8(value.text))) else Err(ValueError)
    else
      var input, hex := Input(lib, value), Hex(lib, value);
      match PrimitiveType(kind)
      case None => Err(TypeError)
      case Some(UintP(bits)) =>
        (match IntegerToken(lib.readers, input, bits, false)
         case Err(e) => Err(e)
         case Ok(n) => Ok(Bytes(n, 32)))
      case Some(IntP(bits)) =>
        (match IntegerToken(lib.readers, input, bits, true)
         case Err(e) => Err(e)
         case Ok(n) => Ok(Bytes(n, 32)))
      case Some(BoolP) => if value.Bool? then Ok(Bytes(if value.b then 1 else 0, 32)) else Err(ValueError)
      case Some(BytesP) =>
        if Data(lib, value).None? then Err(ValueError) else Ok(lib.keccak(Data(lib, value).value))
      case Some(FixedBytesP(length)) =>
        if value.Arr? then
          var data := ByteItems(value.items);
          if data.None? || |data.value| != length then Err(ValueError) else Ok(PadRight(data.value))
        else if lib.word(FixedBytesP(length), hex).None? then Err(ValueError)
        else Ok(lib.word(FixedBytesP(length), hex).value)
      case Some(AddressP) =>
        if lib.word(AddressP, hex).None? then Err(ValueError) else Ok(lib.word(AddressP, hex).value)
      case Some(StringP) => Err(TypeError)
  }

  lemma NumberToken(lib: Library, kind: string, value: Json, bits: nat, signed: bool)
    requires PrimitiveType(kind) == Some(if signed then IntP(bits) else UintP(bits))
    ensures EncodePrimitive(lib, kind, value) ==
            match IntegerToken(lib.readers, Input(lib, value), bits, signed)
            case Err(e) => Err(e)
            case Ok(n) => Ok(Bytes(n, 32))
  {
  }

  lemma PrimitiveNeverTypeError(lib: Library, kind: string, value: Json)
    requires PrimitiveType(kind).Some?
    ensures EncodePrimitive(lib, kind, value) != Err(TypeError)
  {
    match PrimitiveType(kind).value
    case UintP(bits) => NumberNeverTypeError(lib, kind, value, bits, false);
    case IntP(bits) => NumberNeverTypeError(lib, kind, value, bits, true);
    case _ =>
  }

  lemma NumberNeverTypeError(lib: Library, kind: string, value: Json, bits: nat, signed: bool)
    requires PrimitiveType(kind) == Some(if signed then IntP(bits) else UintP(bits))
    ensures EncodePrimitive(lib, kind, value) != Err(TypeError)
  {
    NumberToken(lib, kind, value, bits, signed);
    IntegerTokenAccepts(lib.readers, Input(lib, value), bits, signed);
  }

  // ----- results in a row -----

  // The first error, or else all the words end to end.
  function Gather(rs: seq<Result<Word, Error>>): Result<seq<byte>, Error> {
    if rs == [] then Ok([])
    else
      match Gather(rs[..|rs| - 1])
      case Err(e) => Err(e)
      case Ok(before) =>
        match rs[|rs| - 1]
        case Err(e) => Err(e)
        case Ok(w) => Ok(before + w)
  }

  lemma GatherMore(rs: seq<Result<Word, Error>>, r: Result<Word, Error>)
    ensures Gather(rs + [r]) ==
            if Gather(rs).Err? then Err(Gather(rs).error) else if r.Err? then Err(r.error) else Ok(Gather(rs).value + r.value)
  {
    assert (rs + [r])[..|rs|] == rs;
  }

  lemma GatherNext(rs: seq<Result<Word, Error>>, i: nat, before: seq<byte>)
    requires i < |rs| && Gather(rs[..i]) == Ok(before)
    ensures rs[i].Ok? ==> Gather(rs[..i + 1]) == Ok(before + rs[i].value)
    ensures rs[i].Err? ==> Gather(rs) == Err(rs[i].error)
  {
    GatherMore(rs[..i], rs[i]);
    assert rs[..i + 1] == rs[..i] + [rs[i]];
    if rs[i].Err? {
      GatherFails(rs, i + 1, rs[i].error);
    }
  }

  // The first failure is the result, whatever follows it.
  lemma {:induction false} GatherFails(rs: seq<Result<Word, Error>>, k: nat, e: Error)
    requires k <= |rs| && Gather(rs[..k]) == Err(e)
    ensures Gather(rs) == Err(e)
    decreases |rs|
  {
    if k == |rs| {
      assert rs[..k] == rs;
    } else {
      assert rs[..|rs| - 1][..k] == rs[..k];
      GatherFails(rs[..|rs| - 1], k, e);
    }
  }

  lemma {:induction false} GatherErrors(rs: seq<Result<Word, Error>>, e: Error)
    requires forall i | 0 <= i < |rs| :: rs[i] != Err(e)
    ensures Gather(rs) != Err(e)
  {
    if rs != [] {
      GatherErrors(rs[..|rs| - 1], e);
    }
  }

  // ----- the encoding -----

  // How much further the recursion may still go; the limit bounds it, whatever the types.
  function Room(depth: nat): nat { if depth > DEPTH_LIMIT then 0 else DEPTH_LIMIT + 1 - depth }

  ghost function StructHash(lib: Library, types: Types, name: string, values: map<string, Json>, depth: nat): Result<Word, Error>
    decreases Room(depth), 2
  {
    if depth > DEPTH_LIMIT then Err(TooDeep)
    else if !Encodable(types, name) then Err(TypeError)
    else
      ReachesItself(types, name);
      match Gather(FieldResults(lib, types, types[name], values, depth))
      case Err(e) => Err(e)
      case Ok(words) => Ok(lib.keccak(lib.keccak(lib.utf8(EncodedType(types, name))) + words))
  }

  function FieldValue(values: map<string, Json>, f: Field): Json {
    if f.name in values then values[f.name] else Null
  }

  ghost function FieldResults(lib: Library, types: Types, fields: seq<Field>, values: map<string, Json>, depth: nat): seq<Result<Word, Error>>
    requires depth <= DEPTH_LIMIT
    decreases Room(depth), 1
  {
    seq(|fields|, i requires 0 <= i < |fields| => ValueWord(lib, types, fields[i].kind, FieldValue(values, fields[i]), depth + 1))
  }

  ghost function ValueWord(lib: Library, types: Types, kind: string, value: Json, depth: nat): Result<Word, Error>
    decreases Room(depth), 2
  {
    if depth > DEPTH_LIMIT then Err(TooDeep)
    else if RSplit(kind).Some? then
      var (element, suffix) := RSplit(kind).value;
      if Inside(suffix).None? then Err(TypeError)
      else if !value.Arr? then Err(ValueError)
      else if Inside(suffix).value != "" && ParseUsize(Inside(suffix).value) != Some(|value.items|) then Err(ValueError)
      else match Gather(ItemResults(lib, types, element, value.items, depth))
        case Err(e) => Err(e)
        case Ok(words) => Ok(lib.keccak(words))
    else if kind in types then
      if value.Null? then Ok(NoStruct())
      else if !value.Obj? then Err(ValueError)
      else StructHash(lib, types, kind, value.fields, depth + 1)
    else EncodePrimitive(lib, kind, value)
  }

  ghost function ItemResults(lib: Library, types: Types, element: string, items: seq<Json>, depth: nat): seq<Result<Word, Error>>
    requires depth <= DEPTH_LIMIT
    decreases Room(depth), 1
  {
    seq(|items|, i requires 0 <= i < |items| => ValueWord(lib, types, element, items[i], depth + 1))
  }

  // ----- only value and depth errors remain -----

  ghost predicate Usable(types: Types, kind: string) {
    KindOk(types, kind) && (Element(kind) in types ==> Encodable(types, Element(kind)))
  }

  lemma FieldUsable(types: Types, name: string, i: nat)
    requires Encodable(types, name) && name in types && i < |types[name]|
    ensures Usable(types, types[name][i].kind)
  {
    var f := types[name][i];
    ReachesItself(types, name);
    assert f in types[name];
    if Element(f.kind) in types {
      assert Edge(types, name, Element(f.kind));
      ReachesStep(types, name, name, Element(f.kind));
      EncodableIsHereditary(types, name, Element(f.kind));
    }
  }

  // Once the type string of a struct was built, encoding any value under it fails only on
  // the value or on its depth, never on a type.
  lemma {:induction false} StructHashErrors(lib: Library, types: Types, name: string, values: map<string, Json>, depth: nat)
    requires Encodable(types, name)
    ensures StructHash(lib, types, name, values, depth) != Err(TypeError)
    decreases Room(depth), 2
  {
    ReachesItself(types, name);
    if depth <= DEPTH_LIMIT {
      var fields := types[name];
      forall i | 0 <= i < |fields|
        ensures ValueWord(lib, types, fields[i].kind, FieldValue(values, fields[i]), depth + 1) != Err(TypeError)
      {
        FieldUsable(types, name, i);
        ValueWordErrors(lib, types, fields[i].kind, FieldValue(values, fields[i]), depth + 1);
      }
      GatherErrors(FieldResults(lib, types, fields, values, depth), TypeError);
    }
  }

  lemma {:induction false} ValueWordErrors(lib: Library, types: Types, kind: string, value: Json, depth: nat)
    requires Usable(types, kind)
    ensures ValueWord(lib, types, kind, value, depth) != Err(TypeError)
    decreases Room(depth), 2
  {
    if depth <= DEPTH_LIMIT {
      if RSplit(kind).Some? {
        ArrayKindOk(types, kind);
        if value.Arr? {
          ItemErrors(lib, types, RSplit(kind).value.0, value.items, depth);
        }
      } else {
        PlainKind(kind);
        if kind in types {
          if value.Obj? {
            StructHashErrors(lib, types, kind, value.fields, depth + 1);
          }
        } else {
          PrimitiveNeverTypeError(lib, kind, value);
        }
      }
    }
  }

  lemma {:induction false} ItemErrors(lib: Library, types: Types, element: string, items: seq<Json>, depth: nat)
    requires depth <= DEPTH_LIMIT && Usable(types, element)
    ensures Gather(ItemResults(lib, types, element, items, depth)) != Err(TypeError)
    decreases Room(depth), 1
  {
    forall i | 0 <= i < |items|
      ensures ValueWord(lib, types, element, items[i], depth + 1) != Err(TypeError)
    {
      ValueWordErrors(lib, types, element, items[i], depth + 1);
    }
    GatherErrors(ItemResults(lib, types, element, items, depth), TypeError);
  }

  // ----- the encoder -----

  method HashStruct(lib: Library, types: Types, name: string, values: map<string, Json>, depth: nat)
    returns (r: Result<Word, Error>)
    ensures r == StructHash(lib, types, name, values, depth)
    decreases Room(depth), 2
  {
    if depth > DEPTH_LIMIT {
      return Err(TooDeep);
    }
    var encodedType := EncodeType(types, name);
    if encodedType.Err? {
      return Err(encodedType.error);
    }
    ReachesItself(types, name);
    var words := EncodeFields(lib, types, types[name], values, depth);
    if words.Err? {
      return Err(words.error);
    }
    return Ok(lib.keccak(lib.keccak(lib.utf8(encodedType.value)) + words.value));
  }

  // The loop over fields inside `hash_struct`.
  method EncodeFields(lib: Library, types: Types, fields: seq<Field>, values: map<string, Json>, depth: nat)
    returns (r: Result<seq<byte>, Error>)
    requires depth <= DEPTH_LIMIT
    ensures r == Gather(FieldResults(lib, types, fields, values, depth))
    decreases Room(depth), 1
  {
    ghost var results := FieldResults(lib, types, fields, values, depth);
    var encoded: seq<byte> := [];
    assert results[..|results|] == results;
    for i := 0 to |fields|
      invariant Gather(results[..i]) == Ok(encoded)
    {
      var w := EncodeWord(lib, types, fields[i].kind, FieldValue(values, fields[i]), depth + 1);
      assert w == results[i];
      GatherNext(results, i, encoded);
      if w.Err? {
        return Err(w.error);
      }
      encoded := encoded + w.value;
    }
    return Ok(encoded);
  }

  method EncodeWord(lib: Library, types: Types, kind: string, value: Json, depth: nat)
    returns (r: Result<Word, Error>)
    ensures r == ValueWord(lib, types, kind, value, depth)
    decreases Room(depth), 2
  {
    if depth > DEPTH_LIMIT {
      return Err(TooDeep);
    }
    if RSplit(kind).Some? {
      var (element, suffix) := RSplit(kind).value;
      if Inside(suffix).None? {
        return Err(TypeError);
      }
      if !value.Arr? {
        return Err(ValueError);
      }
      var items := value.items;
      if Inside(suffix).value != "" && ParseUsize(Inside(suffix).value) != Some(|items|) {
        return Err(ValueError);
      }
      var words := EncodeItems(lib, types, element, items, depth);
      if words.Err? {
        return Err(words.error);
      }
      return Ok(lib.keccak(words.value));
    }
    if kind in types {
      if value.Null? {
        return Ok(NoStruct());
      }
      if !value.Obj? {
        return Err(ValueError);
      }
      r := HashStruct(lib, types, kind, value.fields, depth + 1);
      return;
    }
    return EncodePrimitive(lib, kind, value);
  }

  // The loop over array items inside `encode_word`.
  method EncodeItems(lib: Library, types: Types, element: string, items: seq<Json>, depth: nat)
    returns (r: Result<seq<byte>, Error>)
    requires depth <= DEPTH_LIMIT
    ensures r == Gather(ItemResults(lib, types, element, items, depth))
    decreases Room(depth), 1
  {
    ghost var results := ItemResults(lib, types, element, items, depth);
    var encoded: seq<byte> := [];
    assert results[..|results|] == results;
    for i := 0 to |items|
      invariant Gather(results[..i]) == Ok(encoded)
    {
      var w := EncodeWord(lib, types, element, items[i], depth + 1);
      assert w == results[i];
      GatherNext(results, i, encoded);
      if w.Err? {
        return Err(w.error);
      }
      encoded := encoded + w.value;
    }
    return Ok(encoded);
  }

  // ----- the signing hash -----

  const DOMAIN: string := "EIP712Domain"

  const DOMAIN_FIELDS: seq<Field> :=
    [Field("name", "string"), Field("version", "string"), Field("chainId", "uint256"),
     Field("verifyingContract", "address"), Field("salt", "bytes32")]

  function Present(fields: seq<Field>, domain: map<string, Json>): seq<Field> {
    if fields == [] then []
    else
      var rest := Present(fields[1..], domain);
      if FieldValue(domain, fields[0]).Null? then rest else [fields[0]] + rest
  }

  function DomainTypes(domain: map<string, Json>): Types {
    map[DOMAIN := Present(DOMAIN_FIELDS, domain)]
  }

  datatype Typed = Typed(types: Types, primaryType: string, domain: map<string, Json>, message: map<string, Json>)

  ghost function Preimage(domainHash: Word, messageHash: Option<Word>): seq<byte> {
    [0x19, 0x01] + domainHash + (if messageHash.Some? then messageHash.value else [])
  }

  ghost function DomainHash(lib: Library, typed: Typed): Result<Word, Error> {
    StructHash(lib, DomainTypes(typed.domain), DOMAIN, typed.domain, 0)
  }

  // Signing the domain itself leaves the message out.
  ghost function MessageHash(lib: Library, typed: Typed): Result<Option<Word>, Error> {
    if typed.primaryType == DOMAIN then Ok(None)
    else match StructHash(lib, typed.types, typed.primaryType, typed.message, 0)
      case Err(e) => Err(e)
      case Ok(w) => Ok(Some(w))
  }

  ghost function Signed(lib: Library, typed: Typed): Result<Word, Error> {
    match DomainHash(lib, typed)
    case Err(e) => Err(e)
    case Ok(d) =>
      match MessageHash(lib, typed)
      case Err(e) => Err(e)
      case Ok(m) => Ok(lib.keccak(Preimage(d, m)))
  }

  method SigningHash(lib: Library, typed: Typed) returns (r: Result<Word, Error>)
    ensures r == Signed(lib, typed)
  {
    var domain := HashStruct(lib, DomainTypes(typed.domain), DOMAIN, typed.domain, 0);
    if domain.Err? {
      return domain;
    }
    var preimage: seq<byte> := [0x19, 0x01] + domain.value;
    if typed.primaryType != DOMAIN {
      var message := HashStruct(lib, typed.types, typed.primaryType, typed.message, 0);
      if message.Err? {
        return message;
      }
      preimage := preimage + message.value;
    } else {
      assert preimage == Preimage(domain.value, None);
    }
    return Ok(lib.keccak(preimage));
  }

  // Two signing preimages are equal only if domain and message hashes are.
  lemma PreimageInjective(d: Word, m: Option<Word>, d': Word, m': Option<Word>)
    requires Preimage(d, m) == Preimage(d', m')
    ensures d == d' && m == m'
  {
    var p, p' := Preimage(d, m), Preimage(d', m');
    assert p[2..34] == d && p'[2..34] == d';
    assert m.Some? ==> p[34..] == m.value;
    assert m'.Some? ==> p'[34..] == m'.value;
    assert |p| == if m.Some? then 66 else 34;
  }
}
