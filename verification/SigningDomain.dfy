// The signing domain's own struct type is always well formed, so a domain is refused only
// for what it holds. A bare domain also shows that the assumptions of `Binding` can be met.
module SigningDomain {
  import opened Wrappers
  import opened Digits
  import opened TypeStrings
  import opened TypeGraph
  import opened Integers
  import opened TypedData
  import opened Binding

  predicate DomainKind(kind: string) {
    kind == "string" || kind == "uint256" || kind == "address" || kind == "bytes32"
  }

  lemma ThirtyTwo()
    ensures ParseUsize("32") == Some(32)
  {
    assert "32"[..1] == "3" && "3"[..0] == "";
    assert Value("3") == 3;
  }

  lemma TwoFiftySix()
    ensures ParseUsize("256") == Some(256)
  {
    assert "256"[..2] == "25" && "25"[..1] == "2" && "2"[..0] == "";
    assert Value("2") == 2 && Value("25") == 25;
  }

  lemma DomainKindIsPrimitive(kind: string)
    requires DomainKind(kind)
    ensures PrimitiveType(kind).Some?
  {
    if kind == "uint256" {
      assert kind[4..] == "256";
      TwoFiftySix();
    } else if kind == "bytes32" {
      assert kind[5..] == "32" && Prefixed(kind, "bytes");
      assert kind[0] == 'b' && !Prefixed(kind, "uint") && !Prefixed(kind, "int");
      ThirtyTwo();
    }
  }

  lemma DomainKindIsPlain(kind: string)
    requires '[' !in kind
    ensures Pieces(kind) == [kind]
  {
    if kind != "" {
      assert forall c :: c in kind[1..] ==> c in kind;
      DomainKindIsPlain(kind[1..]);
      assert [kind[0]] + kind[1..] == kind;
    }
  }

  lemma DomainKindOk(types: Types, kind: string)
    requires DomainKind(kind)
    ensures KindOk(types, kind) && Element(kind) == kind
  {
    DomainKindIsPlain(kind);
    DomainKindIsPrimitive(kind);
  }

  lemma {:induction false} PresentKinds(fields: seq<Field>, domain: map<string, Json>)
    requires forall f | f in fields :: DomainKind(f.kind)
    ensures forall f | f in Present(fields, domain) :: DomainKind(f.kind)
  {
    if fields != [] {
      PresentKinds(fields[1..], domain);
    }
  }

  lemma DomainIsEncodable(domain: map<string, Json>)
    ensures Encodable(DomainTypes(domain), DOMAIN)
  {
    var types := DomainTypes(domain);
    PresentKinds(DOMAIN_FIELDS, domain);
    forall f: Field | f in types[DOMAIN]
      ensures KindOk(types, f.kind) && Element(f.kind) != DOMAIN
    {
      DomainKindOk(types, f.kind);
    }
    forall t | Reaches(types, DOMAIN, t)
      ensures t == DOMAIN
    {
      var p :| Path(types, p, DOMAIN, t);
      ClosedHoldsReachable(types, [DOMAIN], p, DOMAIN, t);
    }
  }

  // A domain fails only on its values.
  lemma DomainNeverTypeError(lib: Library, typed: Typed)
    ensures DomainHash(lib, typed) != Err(TypeError)
  {
    DomainIsEncodable(typed.domain);
    StructHashErrors(lib, DomainTypes(typed.domain), DOMAIN, typed.domain, 0);
  }

  // ----- the assumptions under which a signature binds can be met -----

  // Three bytes a character: a text encoding that loses nothing.
  function Wide(s: string): (r: seq<byte>)
    ensures |r| == 3 * |s|
  {
    if s == "" then [] else Bytes(s[0] as int, 3) + Wide(s[1..])
  }

  lemma {:induction false} WideDiffers(a: string, b: string)
    requires Wide(a) == Wide(b)
    ensures a == b
  {
    if a != "" {
      Tail(Bytes(a[0] as int, 3), Wide(a[1..]), Bytes(b[0] as int, 3), Wide(b[1..]));
      assert Pow256(3) == 256 * (256 * (256 * Pow256(0)));
      BytesInjective(a[0] as int, b[0] as int, 3);
      WideDiffers(a[1..], b[1..]);
      assert a == [a[0]] + a[1..] && b == [b[0]] + b[1..];
    }
  }

  // A stand-in for the hash that keeps three lengths apart.
  function ByLength(s: seq<byte>): Word { seq(32, i => (|s| % 3 + 1) as byte) }

  const STAND_IN := Library(ByLength, Wide, (j: Json) => "", Readers((s: string) => None, (s: string) => None),
                            (p: Param, s: string) => None, (s: string) => None)

  lemma ByLengthTells(x: seq<byte>, y: seq<byte>)
    ensures ByLength(x) == ByLength(y) ==> |x| % 3 == |y| % 3
    ensures ByLength(x) != NoStruct()
  {
    assert NoStruct()[0] == 0;
    assert ByLength(x)[0] == (|x| % 3 + 1) as byte && ByLength(y)[0] == (|y| % 3 + 1) as byte;
  }

  // What a stand-in has to tell apart.
  ghost predicate Tells(lib: Library) {
    TextsDiffer(lib) &&
    (forall s :: |lib.utf8(s)| % 3 == 0) &&
    (forall x, y | lib.keccak(x) == lib.keccak(y) :: |x| % 3 == |y| % 3) &&
    forall x :: lib.keccak(x) != NoStruct()
  }

  lemma StandInDiffers(lib: Library)
    requires lib.utf8 == Wide
    ensures TextsDiffer(lib)
  {
    forall a, b | lib.utf8(a) == lib.utf8(b)
      ensures a == b
    {
      WideDiffers(a, b);
    }
  }

  lemma StandInLengths(lib: Library)
    requires lib.utf8 == Wide
    ensures forall s :: |lib.utf8(s)| % 3 == 0
  {
    forall s
      ensures |lib.utf8(s)| % 3 == 0
    {
      WideLength(s, lib.utf8(s));
    }
  }

  lemma WideLength(s: string, bytes: seq<byte>)
    requires bytes == Wide(s)
    ensures |bytes| % 3 == 0
  {
  }

  lemma StandInTellsBytes(lib: Library)
    requires lib.keccak == ByLength
    ensures forall x, y | lib.keccak(x) == lib.keccak(y) :: |x| % 3 == |y| % 3
    ensures forall x :: lib.keccak(x) != NoStruct()
  {
    forall x, y | lib.keccak(x) == lib.keccak(y)
      ensures |x| % 3 == |y| % 3
    {
      ByLengthTells(x, y);
    }
    forall x
      ensures lib.keccak(x) != NoStruct()
    {
      ByLengthTells(x, x);
    }
  }

  lemma StandInTells(lib: Library)
    requires lib.utf8 == Wide && lib.keccak == ByLength
    ensures Tells(lib)
  {
    StandInDiffers(lib);
    StandInLengths(lib);
    StandInTellsBytes(lib);
  }

  lemma KeepsApart(lib: Library, a: seq<byte>, b: seq<byte>, c: seq<byte>)
    requires lib.keccak(a) != lib.keccak(b) && lib.keccak(b) != lib.keccak(c) && lib.keccak(c) != lib.keccak(a)
    requires lib.keccak(a) != NoStruct() && lib.keccak(b) != NoStruct() && lib.keccak(c) != NoStruct()
    ensures NoCollision(lib, {a, b, c})
  {
  }

  lemma LengthsKeepApart(lib: Library, a: seq<byte>, b: seq<byte>, c: seq<byte>)
    requires Tells(lib) && |a| % 3 == 0 && |b| % 3 == 2 && |c| % 3 == 1
    ensures NoCollision(lib, {a, b, c})
  {
    KeepsApart(lib, a, b, c);
  }

  lemma NoFields()
    ensures Present(DOMAIN_FIELDS, map[]) == []
  {
    assert Present(DOMAIN_FIELDS[5..], map[]) == [];
    assert Present(DOMAIN_FIELDS[4..], map[]) == [] && DOMAIN_FIELDS[4..][1..] == DOMAIN_FIELDS[5..];
    assert Present(DOMAIN_FIELDS[3..], map[]) == [] && DOMAIN_FIELDS[3..][1..] == DOMAIN_FIELDS[4..];
    assert Present(DOMAIN_FIELDS[2..], map[]) == [] && DOMAIN_FIELDS[2..][1..] == DOMAIN_FIELDS[3..];
    assert Present(DOMAIN_FIELDS[1..], map[]) == [] && DOMAIN_FIELDS[1..][1..] == DOMAIN_FIELDS[2..];
  }

  const BARE := Typed(map[], DOMAIN, map[], map[])

  ghost function BareType(): string {
    DomainIsEncodable(map[]);
    EncodedType(DomainTypes(map[]), DOMAIN)
  }

  ghost function BareText(lib: Library): seq<byte> { lib.utf8(BareType()) }

  ghost function BareRow(lib: Library): seq<byte> { lib.keccak(BareText(lib)) + [] }

  ghost function BarePreimage(lib: Library): seq<byte> { Preimage(lib.keccak(BareRow(lib)), None) }

  lemma BareResults(lib: Library)
    ensures Encodable(DomainTypes(map[]), DOMAIN) && DomainTypes(map[])[DOMAIN] == []
    ensures Gather(FieldResults(lib, DomainTypes(map[]), DomainTypes(map[])[DOMAIN], map[], 0)) == Ok([])
  {
    DomainIsEncodable(map[]);
    NoFields();
    assert FieldResults(lib, DomainTypes(map[]), DomainTypes(map[])[DOMAIN], map[], 0) == [];
  }

  lemma BareHash(lib: Library)
    ensures DomainHash(lib, BARE) == Ok(lib.keccak(BareRow(lib)))
  {
    BareResults(lib);
  }

  lemma BareHashes(lib: Library, hashed: set<seq<byte>>)
    requires BareText(lib) in hashed && BareRow(lib) in hashed && BarePreimage(lib) in hashed
    ensures TypedHashes(hashed, lib, BARE) && Signed(lib, BARE).Ok?
  {
    BareHash(lib);
    BareResults(lib);
  }

  lemma BareLengths(lib: Library)
    ensures |BareRow(lib)| == 32 && |BarePreimage(lib)| == 34
  {
  }

  lemma BareApart(lib: Library)
    requires Tells(lib)
    ensures NoCollision(lib, {BareText(lib), BareRow(lib), BarePreimage(lib)})
  {
    BareLengths(lib);
    LengthsKeepApart(lib, BareText(lib), BareRow(lib), BarePreimage(lib));
  }

  lemma OneIsSignable(lib: Library, hashed: set<seq<byte>>, typed: Typed)
    requires NoCollision(lib, hashed) && TextsDiffer(lib) && TypedHashes(hashed, lib, typed) && Signed(lib, typed).Ok?
    requires CleanTypes(typed.types)
    ensures exists hashed, lib, a, b :: Signable(hashed, lib, a, b)
  {
    assert Signable(hashed, lib, typed, typed);
  }

  lemma SignableWhenApart(lib: Library, hashed: set<seq<byte>>)
    requires BareText(lib) in hashed && BareRow(lib) in hashed && BarePreimage(lib) in hashed
    requires NoCollision(lib, hashed) && TextsDiffer(lib)
    ensures exists hashed, lib, a, b :: Signable(hashed, lib, a, b)
  {
    BareHashes(lib, hashed);
    OneIsSignable(lib, hashed, BARE);
  }

  lemma BareIsSignable(lib: Library)
    requires Tells(lib)
    ensures exists hashed, lib, a, b :: Signable(hashed, lib, a, b)
  {
    BareApart(lib);
    SignableWhenApart(lib, {BareText(lib), BareRow(lib), BarePreimage(lib)});
  }

  // A domain without fields, signed by itself.
  lemma SomethingIsSignable()
    ensures exists hashed, lib, a, b :: Signable(hashed, lib, a, b)
  {
    StandInTells(STAND_IN);
    BareIsSignable(STAND_IN);
  }
}
