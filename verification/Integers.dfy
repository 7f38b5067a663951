// `integer_token` and the 32-byte words integers are encoded to.
module Integers {
  import opened Wrappers
  import opened TypeGraph

  newtype byte = b: int | 0 <= b < 256

  function Pow2(n: nat): (p: nat)
    ensures p > 0
  {
    if n == 0 then 1 else 2 * Pow2(n - 1)
  }

  type U256 = n: nat | n < Pow2(256) witness (assert Pow2(256) > 0; 0)

  // The big-integer library's readers for hexadecimal and decimal text.
  datatype Readers = Readers(hex: string -> Option<U256>, dec: string -> Option<U256>)

  function BitLength(n: nat): nat { if n == 0 then 0 else 1 + BitLength(n / 2) }

  predicate Negative(input: string) { "-" <= input }

  function Magnitude(readers: Readers, input: string): Option<U256> {
    var digits := if Negative(input) then input[1..] else input;
    if "0x" <= digits then readers.hex(digits[2..]) else readers.dec(digits)
  }

  // The number the text writes.
  function Denoted(readers: Readers, input: string): Option<int> {
    match Magnitude(readers, input)
    case None => None
    case Some(value) => var v: int := value; Some(if Negative(input) then -v else v)
  }

  // Digits behind a `0x` are hexadecimal, any others decimal; a minus sign comes first and
  // negates.
  lemma DenotedReads(readers: Readers, digits: string)
    ensures Denoted(readers, "0x" + digits) == Plus(readers.hex(digits))
    ensures Denoted(readers, "-" + ("0x" + digits)) == Minus(readers.hex(digits))
    ensures !("0x" <= digits) ==> Denoted(readers, "-" + digits) == Minus(readers.dec(digits))
    ensures !("0x" <= digits) && !("-" <= digits) ==> Denoted(readers, digits) == Plus(readers.dec(digits))
  {
    var hex := "0x" + digits;
    assert "0x" <= hex && hex[0] == '0' && hex[2..] == digits;
    assert ("-" + digits)[1..] == digits && ("-" + hex)[1..] == hex;
  }

  function Plus(value: Option<U256>): Option<int> {
    if value.Some? then var v: int := value.value; Some(v) else None
  }

  function Minus(value: Option<U256>): Option<int> {
    if value.Some? then var v: int := value.value; Some(-v) else None
  }

  function Complement(value: nat): nat {
    (Pow2(256) - 1 - value + 1) % Pow2(256)
  }

  function IntegerToken(readers: Readers, input: string, bits: nat, signed: bool): Result<nat, Error> {
    if bits == 0 || bits > 256 || bits % 8 != 0 then Err(TypeError)
    else match Magnitude(readers, input)
      case None => Err(ValueError)
      case Some(value) =>
        if !signed then
          if Negative(input) || BitLength(value) > bits then Err(ValueError) else Ok(value)
        else
          var boundary := Pow2(bits - 1);
          if (Negative(input) && value > boundary) || (!Negative(input) && value >= boundary) then Err(ValueError)
          else Ok(if Negative(input) then Complement(value) else value)
  }

  lemma {:induction false} Pow2Monotone(m: nat, n: nat)
    requires m <= n
    ensures Pow2(m) <= Pow2(n)
    decreases n
  {
    if m < n {
      Pow2Monotone(m, n - 1);
    }
  }

  lemma {:induction false} BitLengthBound(n: nat, bits: nat)
    ensures BitLength(n) > bits <==> n >= Pow2(bits)
  {
    if n > 0 && bits > 0 {
      BitLengthBound(n / 2, bits - 1);
    } else if n > 0 {
    } else {
      assert Pow2(bits) > 0;
    }
  }

  predicate Width(bits: nat) { 8 <= bits <= 256 && bits % 8 == 0 }

  // The range of numbers a width can hold.
  predicate Fits(v: int, bits: nat, signed: bool)
    requires bits > 0
  {
    if signed then -(Pow2(bits - 1) as int) <= v < Pow2(bits - 1) else 0 <= v < Pow2(bits)
  }

  // A signed width accepts exactly its two's-complement range, an unsigned width exactly
  // the unsigned numbers below 2^bits that carry no minus sign.
  lemma IntegerTokenAccepts(readers: Readers, input: string, bits: nat, signed: bool)
    requires Width(bits)
    ensures var v := Denoted(readers, input);
            IntegerToken(readers, input, bits, signed).Ok? <==>
              v.Some? && Fits(v.value, bits, signed) && (signed || !Negative(input))
    ensures IntegerToken(readers, input, bits, signed).Err? ==>
              IntegerToken(readers, input, bits, signed).error == ValueError
  {
    match Magnitude(readers, input)
    case None =>
    case Some(value) => BitLengthBound(value, bits);
  }

  // The word is the number modulo 2^256.
  lemma IntegerTokenWord(readers: Readers, input: string, bits: nat, signed: bool)
    requires Width(bits) && IntegerToken(readers, input, bits, signed).Ok?
    ensures IntegerToken(readers, input, bits, signed).value == Denoted(readers, input).value % Pow2(256)
  {
    var value: nat := Magnitude(readers, input).value;
    var m := Pow2(256);
    if Negative(input) && signed {
      NegativeMod(value, m);
    } else {
      ModUnique(value, m, 0, value);
    }
  }

  lemma MultipleBound(k: int, m: int)
    requires m > 0
    ensures (k >= 1 ==> k * m >= m) && (k <= -1 ==> k * m <= -m)
  {
  }

  lemma Distribute(a: int, b: int, m: int)
    ensures a * m - b * m == (a - b) * m
  {
  }

  lemma ModUnique(x: int, m: int, q: int, r: int)
    requires m > 0 && x == q * m + r && 0 <= r < m
    ensures x % m == r
  {
    var q', r' := x / m, x % m;
    assert x == q' * m + r';
    Distribute(q, q', m);
    MultipleBound(q - q', m);
  }

  lemma NegativeMod(value: nat, m: nat)
    requires value < m
    ensures (m - 1 - value + 1) % m == (-(value as int)) % m
  {
    if value == 0 {
      ModUnique(m, m, 1, 0);
    } else {
      ModUnique(m - value, m, 0, m - value);
      ModUnique(-(value as int), m, -1, m - value);
    }
  }

  lemma ModNear(x: int, y: int, m: int)
    requires m > 0 && -m < x - y < m && x % m == y % m
    ensures x == y
  {
    var p, q := x / m, y / m;
    assert x == p * m + x % m && y == q * m + y % m;
    Distribute(p, q, m);
    MultipleBound(p - q, m);
  }

  // At one width two different numbers never share a word.
  lemma IntegerTokenInjective(readers: Readers, a: string, b: string, bits: nat, signed: bool)
    requires Width(bits)
    requires var x, y := IntegerToken(readers, a, bits, signed), IntegerToken(readers, b, bits, signed);
             x.Ok? && y.Ok? && x.value == y.value
    ensures Denoted(readers, a) == Denoted(readers, b)
  {
    IntegerTokenAccepts(readers, a, bits, signed);
    IntegerTokenAccepts(readers, b, bits, signed);
    IntegerTokenWord(readers, a, bits, signed);
    IntegerTokenWord(readers, b, bits, signed);
    Pow2Monotone(bits, 256);
    assert Pow2(bits) == 2 * Pow2(bits - 1);
    ModNear(Denoted(readers, a).value, Denoted(readers, b).value, Pow2(256));
  }

  // ----- words -----

  // The `length` low-order bytes of a number, most significant first.
  function Bytes(n: nat, length: nat): (s: seq<byte>)
    ensures |s| == length
  {
    if length == 0 then [] else Bytes(n / 256, length - 1) + [(n % 256) as byte]
  }

  function Pow256(n: nat): (p: nat)
    ensures p > 0
  {
    if n == 0 then 1 else 256 * Pow256(n - 1)
  }

  lemma {:induction false} BytesInjective(m: nat, n: nat, length: nat)
    requires m < Pow256(length) && n < Pow256(length) && Bytes(m, length) == Bytes(n, length)
    ensures m == n
  {
    if length > 0 {
      var a, b := Bytes(m, length), Bytes(n, length);
      assert a[..length - 1] == Bytes(m / 256, length - 1) && b[..length - 1] == Bytes(n / 256, length - 1);
      assert a[length - 1] == (m % 256) as byte && b[length - 1] == (n % 256) as byte;
      BytesInjective(m / 256, n / 256, length - 1);
    }
  }

  // The number a row of bytes writes, most significant first.
  function BigEndian(s: seq<byte>): nat {
    if s == [] then 0 else 256 * BigEndian(s[..|s| - 1]) + s[|s| - 1] as nat
  }

  lemma {:induction false} NumberOfBytes(n: nat, length: nat)
    requires n < Pow256(length)
    ensures BigEndian(Bytes(n, length)) == n
  {
    if length > 0 {
      NumberOfBytes(n / 256, length - 1);
      assert Bytes(n, length)[..length - 1] == Bytes(n / 256, length - 1);
    }
  }

  lemma {:induction false} BytesOfNumber(s: seq<byte>)
    ensures BigEndian(s) < Pow256(|s|) && Bytes(BigEndian(s), |s|) == s
  {
    if s != [] {
      BytesOfNumber(s[..|s| - 1]);
    }
  }

  lemma {:induction false} Pow256Is(n: nat)
    ensures Pow256(n) == Pow2(8 * n)
  {
    if n > 0 {
      Pow256Is(n - 1);
      var k: nat := 8 * (n - 1);
      assert Pow2(k + 8) == 256 * Pow2(k) by {
        assert Pow2(k + 4) == 16 * Pow2(k) by { Pow2Four(k); }
        Pow2Four(k + 4);
      }
    }
  }

  lemma Pow2Four(k: nat)
    ensures Pow2(k + 4) == 16 * Pow2(k)
  {
    assert Pow2(k + 2) == 4 * Pow2(k);
    assert Pow2(k + 4) == 4 * Pow2(k + 2);
  }

  lemma IntegerTokenBelow(readers: Readers, input: string, bits: nat, signed: bool)
    requires Width(bits) && IntegerToken(readers, input, bits, signed).Ok?
    ensures IntegerToken(readers, input, bits, signed).value < Pow2(256)
  {
    IntegerTokenWord(readers, input, bits, signed);
  }

  lemma WordInjective(m: nat, n: nat)
    requires m < Pow2(256) && n < Pow2(256) && Bytes(m, 32) == Bytes(n, 32)
    ensures m == n
  {
    Pow256Is(32);
    BytesInjective(m, n, 32);
  }

  // So the encoded word of an accepted integer determines it too.
  lemma IntegerWordInjective(readers: Readers, a: string, b: string, bits: nat, signed: bool)
    requires Width(bits)
    requires var x, y := IntegerToken(readers, a, bits, signed), IntegerToken(readers, b, bits, signed);
             x.Ok? && y.Ok? && Bytes(x.value, 32) == Bytes(y.value, 32)
    ensures Denoted(readers, a) == Denoted(readers, b)
  {
    IntegerTokenBelow(readers, a, bits, signed);
    IntegerTokenBelow(readers, b, bits, signed);
    WordInjective(IntegerToken(readers, a, bits, signed).value, IntegerToken(readers, b, bits, signed).value);
    IntegerTokenInjective(readers, a, b, bits, signed);
  }
}
