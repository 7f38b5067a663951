// `amount_to_wei`: a decimal amount as an exact count of 10^-18 units.
module Wei {
  import opened Wrappers
  import opened Digits
  import opened Text

  datatype Error = Malformed | TooManyPlaces | TooLarge

  const PLACES: nat := 18
  const U128: nat := 0x1_0000_0000_0000_0000_0000_0000_0000_0000

  function TrimZeros(s: string): (t: string)
    ensures t <= s && (t != "" ==> t[|t| - 1] != '0')
  {
    if s != "" && s[|s| - 1] == '0' then TrimZeros(s[..|s| - 1]) else s
  }

  function SplitOnce(s: string): Option<(string, string)> {
    if s == "" then None
    else if s[0] == '.' then Some(("", s[1..]))
    else match SplitOnce(s[1..])
      case None => None
      case Some((before, after)) => Some(([s[0]] + before, after))
  }

  function Parts(unsigned: string): (string, string) {
    match SplitOnce(unsigned) case Some(parts) => parts case None => (unsigned, "")
  }

  predicate Negative(text: string) { text != "" && text[0] == '-' }

  function Unsigned(text: string): string { if Negative(text) then text[1..] else text }

  function Signed(negative: bool, digits: string): string { if negative then "-" + digits else digits }

  // An optionally negative decimal, as written: digits, and possibly a point and digits.
  predicate Writes(text: string, negative: bool, whole: string, fraction: string, point: bool) {
    && AllDigits(whole) && AllDigits(fraction) && whole + fraction != "" && (fraction != "" ==> point)
    && var written := if point then whole + ("." + fraction) else whole;
       text == if negative then "-" + written else written
  }

  predicate WellFormed(text: string) {
    var (whole, fraction) := Parts(Unsigned(text));
    AllDigits(whole) && AllDigits(fraction) && whole + fraction != ""
  }

  // The amount in units of 10^-places, from the digits that matter.
  function Scaled(whole: string, fraction: string, places: nat): nat
    requires AllDigits(whole) && AllDigits(fraction) && |TrimZeros(fraction)| <= places
  {
    var f := TrimZeros(fraction);
    Value(whole) * Pow10(places) + Value(f) * Pow10(places - |f|)
  }

  function Convert(negative: bool, whole: string, fraction: string): Result<string, Error>
    requires AllDigits(whole) && AllDigits(fraction)
  {
    if |TrimZeros(fraction)| > PLACES then Err(TooManyPlaces)
    else if Scaled(whole, fraction, PLACES) >= U128 then Err(TooLarge)
    else Ok(Signed(negative, ToDecimal(Scaled(whole, fraction, PLACES))))
  }

  function Wei(amount: string): Result<string, Error> {
    var text := Trim(amount);
    if !WellFormed(text) then Err(Malformed)
    else Convert(Negative(text), Parts(Unsigned(text)).0, Parts(Unsigned(text)).1)
  }

  // ----- the form accepted -----

  lemma {:induction false} SplitAtPoint(before: string, after: string)
    requires '.' !in before
    ensures SplitOnce(before + ("." + after)) == Some((before, after))
  {
    if before == "" {
      assert "" + ("." + after) == "." + after;
      assert ("." + after)[1..] == after;
    } else {
      assert (before + ("." + after))[1..] == before[1..] + ("." + after);
      SplitAtPoint(before[1..], after);
      assert [before[0]] + before[1..] == before;
    }
  }

  lemma {:induction false} SplitNowhere(s: string)
    ensures SplitOnce(s) == None <==> '.' !in s
    ensures SplitOnce(s).Some? ==> s == SplitOnce(s).value.0 + ("." + SplitOnce(s).value.1)
  {
    if s != "" {
      SplitNowhere(s[1..]);
      assert s == [s[0]] + s[1..];
    }
  }

  lemma DigitsHaveNoSign(s: string)
    requires AllDigits(s)
    ensures '.' !in s && !Negative(s)
  {
  }

  // Well-formed text is exactly the text of some optionally negative decimal, and the parts
  // the code works on are its digits.
  lemma WrittenForm(text: string, negative: bool, whole: string, fraction: string, point: bool)
    requires Writes(text, negative, whole, fraction, point)
    ensures WellFormed(text) && Negative(text) == negative && Parts(Unsigned(text)) == (whole, fraction)
  {
    DigitsHaveNoSign(whole);
    DigitsHaveNoSign(fraction);
    SplitAtPoint(whole, fraction);
    SplitNowhere(whole);
    var u := if point then whole + ("." + fraction) else whole;
    if negative {
      assert text == "-" + u;
    } else {
      assert text == u;
    }
  }

  lemma WellFormedIsWritten(text: string)
    requires WellFormed(text)
    ensures exists negative, whole, fraction, point :: Writes(text, negative, whole, fraction, point)
  {
    var u := Unsigned(text);
    var (whole, fraction) := Parts(u);
    SplitNowhere(u);
    var point := SplitOnce(u).Some?;
    assert u == if point then whole + ("." + fraction) else whole;
    assert text == if Negative(text) then "-" + u else u;
    assert Writes(text, Negative(text), whole, fraction, point);
  }

  // ----- the number denoted -----

  lemma {:induction false} TrimZerosValue(s: string)
    requires AllDigits(s)
    ensures AllDigits(TrimZeros(s)) && Value(s) == Value(TrimZeros(s)) * Pow10(|s| - |TrimZeros(s)|)
  {
    if s != "" && s[|s| - 1] == '0' {
      TrimZerosValue(s[..|s| - 1]);
      var k := |s| - 1 - |TrimZeros(s)|;
      TimesTen(Value(TrimZeros(s)), Pow10(k));
    }
  }

  // The output is the amount times 10^places, exactly: with n fraction digits written,
  // output * 10^n == (the digits read as one number) * 10^places.
  lemma ScaledIsExact(whole: string, fraction: string, places: nat)
    requires AllDigits(whole) && AllDigits(fraction) && |TrimZeros(fraction)| <= places
    ensures AllDigits(whole + fraction)
    ensures Scaled(whole, fraction, places) * Pow10(|fraction|) == Value(whole + fraction) * Pow10(places)
  {
    var f := TrimZeros(fraction);
    var n, k := |fraction|, |f|;
    TrimZerosValue(fraction);
    ValueConcat(whole, fraction);
    Pow10Add(k, n - k);
    Pow10Add(k, places - k);
    CrossMultiply(Value(whole), Value(f), Pow10(k), Pow10(n - k), Pow10(places - k));
  }

  lemma CrossMultiply(w: nat, v: nat, x: nat, y: nat, z: nat)
    ensures (w * (x * z) + v * z) * (x * y) == (w * (x * y) + v * y) * (x * z)
  {
    var a := w * x + v;
    assert w * (x * z) + v * z == a * z;
    assert w * (x * y) + v * y == a * y;
    assert (a * z) * (x * y) == (a * y) * (x * z);
  }

  lemma {:induction false} TrimMoreZeros(s: string, n: nat)
    ensures TrimZeros(s + Zeros(n)) == TrimZeros(s)
  {
    if n == 0 {
      assert s + Zeros(0) == s;
    } else {
      assert (s + Zeros(n))[..|s| + n - 1] == s + Zeros(n - 1);
      TrimMoreZeros(s, n - 1);
    }
  }

  // Writing more zeros after the point never changes the answer.
  lemma TrailingZerosDoNotMatter(negative: bool, whole: string, fraction: string, n: nat, a: string, b: string)
    requires Writes(Trim(a), negative, whole, fraction, true)
    requires Writes(Trim(b), negative, whole, fraction + Zeros(n), true)
    ensures Wei(a) == Wei(b)
  {
    WrittenForm(Trim(a), negative, whole, fraction, true);
    WrittenForm(Trim(b), negative, whole, fraction + Zeros(n), true);
    ConvertIgnoresZeros(negative, whole, fraction, n);
  }

  lemma ConvertIgnoresZeros(negative: bool, whole: string, fraction: string, n: nat)
    requires AllDigits(whole) && AllDigits(fraction)
    ensures AllDigits(fraction + Zeros(n))
    ensures Convert(negative, whole, fraction + Zeros(n)) == Convert(negative, whole, fraction)
  {
    TrimMoreZeros(fraction, n);
    var f := TrimZeros(fraction);
    assert TrimZeros(fraction + Zeros(n)) == f;
    if |f| <= PLACES {
      assert Scaled(whole, fraction + Zeros(n), PLACES) == Scaled(whole, fraction, PLACES);
    }
  }

  // What is accepted, and what it denotes: a trimmed, optionally negative decimal whose
  // significant fraction fits in 18 places and whose scaled magnitude is below 2^128.
  lemma WeiExactly(amount: string, negative: bool, whole: string, fraction: string, point: bool)
    requires Writes(Trim(amount), negative, whole, fraction, point)
    ensures Wei(amount).Ok? <==> |TrimZeros(fraction)| <= PLACES && Scaled(whole, fraction, PLACES) < U128
    ensures Wei(amount).Ok? ==>
              var units := ToDecimal(Scaled(whole, fraction, PLACES));
              Wei(amount).value == if negative then "-" + units else units
    ensures Wei(amount) == Err(TooManyPlaces) <==> |TrimZeros(fraction)| > PLACES
    ensures Wei(amount) == Err(TooLarge) <==> |TrimZeros(fraction)| <= PLACES && Scaled(whole, fraction, PLACES) >= U128
  {
    WrittenForm(Trim(amount), negative, whole, fraction, point);
    assert Wei(amount) == Convert(negative, whole, fraction);
  }

  lemma RejectedIsNotWritten(amount: string)
    ensures Wei(amount) == Err(Malformed) <==>
              !exists negative, whole, fraction, point :: Writes(Trim(amount), negative, whole, fraction, point)
  {
    if WellFormed(Trim(amount)) {
      WellFormedIsWritten(Trim(amount));
    } else {
      forall negative, whole, fraction, point
        ensures !Writes(Trim(amount), negative, whole, fraction, point)
      {
        if Writes(Trim(amount), negative, whole, fraction, point) {
          WrittenForm(Trim(amount), negative, whole, fraction, point);
        }
      }
    }
  }

  // ----- the computation -----

  // The value of the significant digits, seen through a cut that keeps them.
  function HeadValue(fraction: string, taken: nat): (v: nat)
    requires AllDigits(fraction) && |TrimZeros(fraction)| <= taken <= |fraction|
    ensures AllDigits(TrimZeros(fraction)) && v == Value(TrimZeros(fraction))
    ensures Value(fraction[..taken]) == v * Pow10(taken - |TrimZeros(fraction)|)
  {
    TakeKeepsDigits(fraction, taken);
    TrimZerosValue(fraction[..taken]);
    Value(TrimZeros(fraction))
  }

  lemma ZeroAppended(padded: string, v: nat, k: nat)
    requires AllDigits(padded) && Value(padded) == v * Pow10(k)
    ensures AllDigits(padded + "0") && Value(padded + "0") == v * Pow10(k + 1)
  {
    var longer := padded + "0";
    assert longer[..|longer| - 1] == padded;
    TimesTen(v, Pow10(k));
  }

  // Cutting a fraction that has few significant digits only drops zeros.
  lemma {:induction false} TakeKeepsDigits(s: string, n: nat)
    requires |TrimZeros(s)| <= n <= |s|
    ensures TrimZeros(s[..n]) == TrimZeros(s)
    decreases |s|
  {
    if n < |s| {
      assert s[..|s| - 1][..n] == s[..n];
      TakeKeepsDigits(s[..|s| - 1], n);
    } else {
      assert s[..n] == s;
    }
  }

  // The checked multiplication and addition; None when the limit is reached.
  method ToUnits(whole: string, fraction: string, places: nat, limit: nat) returns (r: Option<nat>)
    requires AllDigits(whole) && AllDigits(fraction) && |TrimZeros(fraction)| <= places
    ensures r == if Scaled(whole, fraction, places) < limit then Some(Scaled(whole, fraction, places)) else None
  {
    var units := Value(whole);
    Pow10Positive(places);
    AtLeastOnce(units, Pow10(places));
    if units >= limit {
      return None;
    }
    var taken := if |fraction| < places then |fraction| else places;
    var padded := fraction[..taken];
    ghost var v := HeadValue(fraction, taken);
    while |padded| < places
      invariant taken <= |padded| <= places
      invariant AllDigits(padded) && Value(padded) == v * Pow10(|padded| - |TrimZeros(fraction)|)
    {
      ZeroAppended(padded, v, |padded| - |TrimZeros(fraction)|);
      padded := padded + "0";
    }
    var scaled := units * Pow10(places);
    if scaled >= limit || scaled + Value(padded) >= limit {
      return None;
    }
    return Some(scaled + Value(padded));
  }

  method AmountToWei(amount: string) returns (r: Result<string, Error>)
    ensures r == Wei(amount)
  {
    var text := Trim(amount);
    var negative := Negative(text);
    var (whole, fraction) := Parts(Unsigned(text));
    if (whole == "" && fraction == "") || !AllDigits(whole) || !AllDigits(fraction) {
      return Err(Malformed);
    }
    if |TrimZeros(fraction)| > PLACES {
      return Err(TooManyPlaces);
    }
    var wei := ToUnits(whole, fraction, PLACES, U128);
    if wei.None? {
      return Err(TooLarge);
    }
    var digits := ToDecimal(wei.value);
    return Ok(Signed(negative, digits));
  }

  lemma AtLeastOnce(a: nat, p: nat)
    requires p > 0
    ensures a * p >= a
  {
  }

  lemma Pow10Positive(n: nat)
    ensures Pow10(n) > 0
  {
  }
}
