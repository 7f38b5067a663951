// What the words of an encoding stand for: numbers, bytes, rows of items and of fields.
module Encoding {
  import opened Wrappers
  import opened TypeStrings
  import opened TypeGraph
  import opened Integers
  import opened TypedData

  // ----- words in a row -----

  lemma {:induction false} GatherLength(a: seq<Result<Word, Error>>)
    requires Gather(a).Ok?
    ensures |Gather(a).value| == 32 * |a| && forall i | 0 <= i < |a| :: a[i].Ok?
  {
    if a != [] {
      GatherLength(a[..|a| - 1]);
    }
  }

  lemma {:induction false} GatherAt(rs: seq<Result<Word, Error>>, i: nat)
    requires Gather(rs).Ok? && i < |rs|
    ensures rs[i].Ok? && |Gather(rs).value| == 32 * |rs| && Gather(rs).value[32 * i..32 * i + 32] == rs[i].value
  {
    var n := |rs| - 1;
    GatherLength(rs);
    GatherLength(rs[..n]);
    if i < n {
      GatherAt(rs[..n], i);
      assert Gather(rs).value[..32 * n] == Gather(rs[..n]).value;
    }
  }

  // The row holds the words one after the other.
  ghost predicate Holds(rs: seq<Result<Word, Error>>, row: seq<byte>) {
    |row| == 32 * |rs| && forall i | 0 <= i < |rs| :: rs[i] == Ok(row[32 * i..32 * i + 32])
  }

  lemma {:induction false} GatherExactly(rs: seq<Result<Word, Error>>, row: seq<byte>)
    ensures Gather(rs) == Ok(row) <==> Holds(rs, row)
  {
    if Gather(rs).Ok? {
      GatherLength(rs);
    }
    if Gather(rs) == Ok(row) {
      forall i | 0 <= i < |rs|
        ensures rs[i] == Ok(row[32 * i..32 * i + 32])
      {
        GatherAt(rs, i);
      }
    }
    if Holds(rs, row) && rs != [] {
      var n := |rs| - 1;
      var front := row[..32 * n];
      forall i | 0 <= i < n
        ensures rs[..n][i] == Ok(front[32 * i..32 * i + 32])
      {
        assert front[32 * i..32 * i + 32] == row[32 * i..32 * i + 32];
      }
      GatherExactly(rs[..n], front);
      assert row == front + row[32 * n..32 * n + 32];
    }
  }

  // ----- structs -----

  function Held(values: map<string, Json>, name: string): Json {
    if name in values then values[name] else Null
  }

  // Field by field, in the order of the type: the word of the value held under its name.
  ghost predicate HoldsFields(lib: Library, types: Types, name: string, values: map<string, Json>, depth: nat, row: seq<byte>)
    requires name in types
  {
    |row| == 32 * |types[name]| &&
    forall i | 0 <= i < |types[name]| ::
      ValueWord(lib, types, types[name][i].kind, Held(values, types[name][i].name), depth + 1) == Ok(row[32 * i..32 * i + 32])
  }

  // The hash of a struct covers its type's hash and the words of its fields.
  lemma StructIsItsFields(lib: Library, types: Types, name: string, values: map<string, Json>, depth: nat, w: Word)
    ensures StructHash(lib, types, name, values, depth) == Ok(w) <==>
              && depth <= 128 && Encodable(types, name) && name in types
              && exists row: seq<byte> ::
                   HoldsFields(lib, types, name, values, depth, row) &&
                   w == lib.keccak(lib.keccak(lib.utf8(EncodedType(types, name))) + row)
  {
    if depth <= DEPTH_LIMIT && Encodable(types, name) {
      ReachesItself(types, name);
      FieldRow(lib, types, name, values, depth);
    }
  }

  lemma FieldRow(lib: Library, types: Types, name: string, values: map<string, Json>, depth: nat)
    requires depth <= DEPTH_LIMIT && name in types
    ensures forall row: seq<byte> ::
              Gather(FieldResults(lib, types, types[name], values, depth)) == Ok(row) <==>
              HoldsFields(lib, types, name, values, depth, row)
  {
    var fields := types[name];
    var results := FieldResults(lib, types, fields, values, depth);
    forall i | 0 <= i < |fields|
      ensures results[i] == ValueWord(lib, types, fields[i].kind, Held(values, fields[i].name), depth + 1)
    {
    }
    forall row: seq<byte>
      ensures Gather(results) == Ok(row) <==> HoldsFields(lib, types, name, values, depth, row)
    {
      GatherExactly(results, row);
    }
  }

  // ----- arrays -----

  ghost predicate HoldsItems(lib: Library, types: Types, element: string, items: seq<Json>, depth: nat, row: seq<byte>) {
    |row| == 32 * |items| &&
    forall i | 0 <= i < |items| ::
      ValueWord(lib, types, element, items[i], depth + 1) == Ok(row[32 * i..32 * i + 32])
  }

  // The word of an array hashes the words of its items in order; a dimension with a number
  // in it demands that many of them.
  lemma ArrayIsItsItems(lib: Library, types: Types, element: string, size: string, value: Json, depth: nat, w: Word)
    requires '[' !in size
    ensures ValueWord(lib, types, element + "[" + size + "]", value, depth) == Ok(w) <==>
              && depth <= 128 && value.Arr? && (size == "" || ParseUsize(size) == Some(|value.items|))
              && exists row: seq<byte> ::
                   HoldsItems(lib, types, element, value.items, depth, row) && w == lib.keccak(row)
  {
    var kind := element + "[" + size + "]";
    LastDimension(element, size);
    assert Inside(size + "]") == Some(size);
    if depth <= DEPTH_LIMIT && value.Arr? {
      ItemRow(lib, types, element, value.items, depth);
    }
  }

  lemma ItemRow(lib: Library, types: Types, element: string, items: seq<Json>, depth: nat)
    requires depth <= DEPTH_LIMIT
    ensures forall row: seq<byte> ::
              Gather(ItemResults(lib, types, element, items, depth)) == Ok(row) <==>
              HoldsItems(lib, types, element, items, depth, row)
  {
    var results := ItemResults(lib, types, element, items, depth);
    forall i | 0 <= i < |items|
      ensures results[i] == ValueWord(lib, types, element, items[i], depth + 1)
    {
    }
    forall row: seq<byte>
      ensures Gather(results) == Ok(row) <==> HoldsItems(lib, types, element, items, depth, row)
    {
      GatherExactly(results, row);
    }
  }

  lemma LastDimension(element: string, size: string)
    requires '[' !in size
    ensures RSplit(element + "[" + size + "]") == Some((element, size + "]"))
  {
    SplitBehind(element, size + "]");
    assert element + "[" + (size + "]") == element + "[" + size + "]";
  }

  lemma {:induction false} SplitBehind(element: string, suffix: string)
    requires '[' !in suffix
    ensures RSplit(element + "[" + suffix) == Some((element, suffix))
    decreases |suffix|
  {
    var n := |suffix| - 1;
    var whole := element + "[" + suffix;
    if suffix == "" {
      assert whole[..|whole| - 1] == element;
    } else {
      assert whole[..|whole| - 1] == element + "[" + suffix[..n];
      SplitBehind(element, suffix[..n]);
      assert suffix == suffix[..n] + [suffix[n]];
    }
  }

  // A nested struct is its own hash; one left out is 32 zero bytes.
  lemma NestedStructExactly(lib: Library, types: Types, name: string, value: Json, depth: nat, w: Word)
    requires name in types && '[' !in name
    ensures ValueWord(lib, types, name, value, depth) == Ok(w) <==>
              depth <= 128 &&
              match value
              case Null => forall i | 0 <= i < 32 :: w[i] == 0
              case Obj(fields) => StructHash(lib, types, name, fields, depth + 1) == Ok(w)
              case _ => false
  {
    NotSplit(name);
    if value.Null? && forall i | 0 <= i < 32 :: w[i] == 0 {
      assert w == NoStruct();
    }
  }

  lemma {:induction false} NotSplit(kind: string)
    requires '[' !in kind
    ensures RSplit(kind).None?
  {
    if kind != "" {
      NotSplit(kind[..|kind| - 1]);
    }
  }

  // ----- primitive types -----

  // `size` is the number a type's name ends in.
  ghost predicate Sized(name: string, prefix: string, size: nat) {
    prefix <= name && ParseUsize(name[|prefix|..]) == Some(size)
  }

  lemma SizedNames(name: string, size: nat)
    ensures PrimitiveType(name) == Some(UintP(size)) <==> Sized(name, "uint", size) && 8 <= size <= 256 && size % 8 == 0
    ensures PrimitiveType(name) == Some(IntP(size)) <==> Sized(name, "int", size) && 8 <= size <= 256 && size % 8 == 0
    ensures PrimitiveType(name) == Some(FixedBytesP(size)) <==> Sized(name, "bytes", size) && 1 <= size <= 32
  {
    if Plain(name) {
      PlainIsNotSized(name, size);
    }
    assert ("uint" <= name ==> name[0] == 'u') && ("int" <= name ==> name[0] == 'i') && ("bytes" <= name ==> name[0] == 'b');
  }

  predicate Plain(name: string) { name == "address" || name == "bool" || name == "string" || name == "bytes" }

  lemma PlainIsNotSized(name: string, size: nat)
    requires Plain(name)
    ensures !Sized(name, "uint", size) && !Sized(name, "int", size) && !Sized(name, "bytes", size)
  {
    assert |name| > 0 && (name[0] != 'b' || name == "bool" || name[5..] == "");
  }

  lemma PlainNames(name: string)
    ensures (PrimitiveType(name) == Some(StringP) <==> name == "string") && (PrimitiveType(name) == Some(BytesP) <==> name == "bytes")
    ensures (PrimitiveType(name) == Some(BoolP) <==> name == "bool") && (PrimitiveType(name) == Some(AddressP) <==> name == "address")
  {
  }

  // ----- primitive values -----

  // The list holds these bytes, one number for each.
  ghost predicate Lists(value: Json, data: seq<byte>) {
    value.Arr? && |value.items| == |data| &&
    forall i | 0 <= i < |data| :: value.items[i].Number? && value.items[i].unsigned == Some(data[i] as nat)
  }

  lemma {:induction false} ListsExactly(items: seq<Json>, data: seq<byte>)
    ensures ByteItems(items) == Some(data) <==> Lists(Arr(items), data)
  {
    if items != [] {
      var n := |items| - 1;
      if ByteItems(items[..n]).Some? {
        ListsExactly(items[..n], ByteItems(items[..n]).value);
      }
      if |data| == |items| {
        ListsExactly(items[..n], data[..n]);
        assert data == data[..n] + [data[n]];
      }
    }
  }

  ghost predicate StandsForNatural(readers: Readers, text: string, bits: nat, w: Word) {
    var n := Denoted(readers, text);
    n.Some? && 0 <= n.value < Pow2(bits) && !("-" <= text) && BigEndian(w) == n.value
  }

  ghost predicate StandsForInteger(readers: Readers, text: string, bits: nat, w: Word) {
    var n := Denoted(readers, text);
    bits > 0 && n.Some? && -(Pow2(bits - 1) as int) <= n.value < Pow2(bits - 1) && BigEndian(w) == n.value % Pow2(256)
  }

  // What a primitive's word stands for: the number, the two's complement of the number, the
  // hash of the content, or the bytes with zeros behind them.
  ghost predicate Stands(lib: Library, param: Param, value: Json, w: Word) {
    var text := if value.Str? then value.text else lib.render(value);
    var digits := if |text| >= 2 && text[..2] == "0x" then text[2..] else text;
    match param
    case StringP => value.Str? && w == lib.keccak(lib.utf8(value.text))
    case BoolP => value.Bool? && BigEndian(w) == if value.b then 1 else 0
    case UintP(bits) => StandsForNatural(lib.readers, text, bits, w)
    case IntP(bits) => StandsForInteger(lib.readers, text, bits, w)
    case BytesP =>
      exists data: seq<byte> ::
        (if value.Arr? then Lists(value, data) else lib.bytes(digits) == Some(data)) && w == lib.keccak(data)
    case FixedBytesP(length) =>
      if value.Arr? then length <= 32 && Lists(value, w[..length]) && forall i | length <= i < 32 :: w[i] == 0
      else lib.word(param, digits) == Some(w)
    case AddressP => lib.word(param, digits) == Some(w)
  }

  // A value of a primitive type is accepted, with this word, exactly when the word stands
  // for it.
  lemma PrimitiveExactly(lib: Library, kind: string, value: Json, w: Word)
    ensures EncodePrimitive(lib, kind, value) == Ok(w) <==>
              PrimitiveType(kind).Some? && Stands(lib, PrimitiveType(kind).value, value, w)
  {
    match PrimitiveType(kind)
    case None =>
    case Some(UintP(bits)) => NumberExactly(lib, kind, value, w, bits, false);
    case Some(IntP(bits)) => NumberExactly(lib, kind, value, w, bits, true);
    case Some(BoolP) => if value.Bool? { WordIs(if value.b then 1 else 0, w); }
    case Some(BytesP) => DataExactly(lib, kind, value, w);
    case Some(FixedBytesP(length)) => FixedExactly(lib, kind, value, w, length);
    case Some(AddressP) =>
    case Some(StringP) =>
  }

  lemma WordIs(n: nat, w: Word)
    requires n < Pow2(256)
    ensures Bytes(n, 32) == w <==> BigEndian(w) == n
  {
    Pow256Is(32);
    NumberOfBytes(n, 32);
    BytesOfNumber(w);
  }

  lemma NumberExactly(lib: Library, kind: string, value: Json, w: Word, bits: nat, signed: bool)
    requires PrimitiveType(kind) == Some(if signed then IntP(bits) else UintP(bits))
    ensures EncodePrimitive(lib, kind, value) == Ok(w) <==> Stands(lib, if signed then IntP(bits) else UintP(bits), value, w)
  {
    NumberToken(lib, kind, value, bits, signed);
    if signed {
      TwosComplement(lib.readers, Input(lib, value), bits, w);
    } else {
      PlainBinary(lib.readers, Input(lib, value), bits, w);
    }
  }

  lemma PlainBinary(readers: Readers, text: string, bits: nat, w: Word)
    requires Width(bits)
    ensures var token := IntegerToken(readers, text, bits, false);
            token.Ok? && Bytes(token.value, 32) == w <==> StandsForNatural(readers, text, bits, w)
  {
    IntegerTokenAccepts(readers, text, bits, false);
    if IntegerToken(readers, text, bits, false).Ok? {
      IntegerTokenBelow(readers, text, bits, false);
      WordIs(IntegerToken(readers, text, bits, false).value, w);
    }
  }

  lemma TwosComplement(readers: Readers, text: string, bits: nat, w: Word)
    requires Width(bits)
    ensures var token := IntegerToken(readers, text, bits, true);
            token.Ok? && Bytes(token.value, 32) == w <==> StandsForInteger(readers, text, bits, w)
  {
    IntegerTokenAccepts(readers, text, bits, true);
    if IntegerToken(readers, text, bits, true).Ok? {
      IntegerTokenWord(readers, text, bits, true);
      IntegerTokenBelow(readers, text, bits, true);
      WordIs(IntegerToken(readers, text, bits, true).value, w);
    }
  }

  lemma DataExactly(lib: Library, kind: string, value: Json, w: Word)
    requires PrimitiveType(kind) == Some(BytesP)
    ensures EncodePrimitive(lib, kind, value) == Ok(w) <==> Stands(lib, BytesP, value, w)
  {
    if value.Arr? {
      forall data: seq<byte>
        ensures ByteItems(value.items) == Some(data) <==> Lists(value, data)
      {
        ListsExactly(value.items, data);
      }
    }
  }

  lemma FixedExactly(lib: Library, kind: string, value: Json, w: Word, length: nat)
    requires PrimitiveType(kind) == Some(FixedBytesP(length))
    ensures EncodePrimitive(lib, kind, value) == Ok(w) <==> Stands(lib, FixedBytesP(length), value, w)
  {
    if value.Arr? {
      ListsExactly(value.items, w[..length]);
      if ByteItems(value.items).Some? {
        ListsExactly(value.items, ByteItems(value.items).value);
        if |ByteItems(value.items).value| == length {
          PadReads(ByteItems(value.items).value, w);
        }
      }
    }
  }

  lemma PadReads(data: seq<byte>, word: Word)
    requires |data| <= 32
    ensures PadRight(data) == word <==> word[..|data|] == data && forall i | |data| <= i < 32 :: word[i] == 0
  {
    ZeroBytes(32 - |data|);
    var padded := PadRight(data);
    assert padded[..|data|] == data;
    if word[..|data|] == data && forall i | |data| <= i < 32 :: word[i] == 0 {
      forall i | 0 <= i < 32
        ensures padded[i] == word[i]
      {
        assert i < |data| ==> word[..|data|][i] == word[i];
      }
      assert padded == word;
    }
  }

  lemma ZeroBytes(n: nat)
    ensures forall i | 0 <= i < n :: Bytes(0, n)[i] == 0
  {
  }

  // ----- the signing hash -----

  // Two fixed bytes, the domain's hash and, unless the domain itself is signed, the message's.
  lemma SigningHashExactly(lib: Library, typed: Typed, w: Word)
    ensures Signed(lib, typed) == Ok(w) <==>
              exists domain: Word ::
                && StructHash(lib, DomainTypes(typed.domain), "EIP712Domain", typed.domain, 0) == Ok(domain)
                && if typed.primaryType == "EIP712Domain" then w == lib.keccak([0x19, 0x01] + domain)
                   else exists message: Word ::
                     StructHash(lib, typed.types, typed.primaryType, typed.message, 0) == Ok(message) &&
                     w == lib.keccak([0x19, 0x01] + domain + message)
  {
    if DomainHash(lib, typed).Ok? {
      var domain := DomainHash(lib, typed).value;
      assert Preimage(domain, None) == [0x19, 0x01] + domain;
    }
  }
}
