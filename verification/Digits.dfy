// Decimal digit strings and the numbers they write.
module Digits {
  predicate AllDigits(s: string) { forall i | 0 <= i < |s| :: '0' <= s[i] <= '9' }

  function Value(s: string): nat
    requires AllDigits(s)
  {
    if s == "" then 0 else Value(s[..|s| - 1]) * 10 + (s[|s| - 1] as int - '0' as int)
  }

  function Pow10(n: nat): nat { if n == 0 then 1 else 10 * Pow10(n - 1) }

  function ToDecimal(n: nat): (s: string)
    ensures s != "" && AllDigits(s) && Value(s) == n
    decreases n
  {
    var last := (n % 10 + '0' as int) as char;
    if n < 10 then
      assert [last][..0] == "" && Value("") == 0;
      [last]
    else
      var s := ToDecimal(n / 10) + [last];
      assert s[..|s| - 1] == ToDecimal(n / 10);
      s
  }

  predicate Canonical(s: string) { s != "" && AllDigits(s) && (|s| > 1 ==> s[0] != '0') }

  // The decimal text of a number is its one digit string without a leading zero.
  lemma DecimalExactly(n: nat, s: string)
    ensures s == ToDecimal(n) <==> Canonical(s) && Value(s) == n
  {
    NoLeadingZero(n);
    if Canonical(s) && Value(s) == n {
      CanonicalUnique(s, ToDecimal(n));
    }
  }

  lemma {:induction false} NoLeadingZero(n: nat)
    ensures Canonical(ToDecimal(n)) && (n > 0 ==> ToDecimal(n)[0] != '0')
    decreases n
  {
    if n >= 10 {
      NoLeadingZero(n / 10);
    }
  }

  lemma {:induction false} CanonicalUnique(s: string, t: string)
    requires Canonical(s) && Canonical(t) && Value(s) == Value(t)
    ensures s == t
    decreases |s|
  {
    var a, b := s[..|s| - 1], t[..|t| - 1];
    assert s == a + [s[|s| - 1]] && t == b + [t[|t| - 1]];
    assert Value(a) == Value(b) && s[|s| - 1] == t[|t| - 1];
    if a != "" {
      PositiveValue(a);
    }
    if b != "" {
      PositiveValue(b);
    }
    if a != "" && b != "" {
      CanonicalUnique(a, b);
    }
  }

  lemma {:induction false} PositiveValue(s: string)
    requires s != "" && AllDigits(s) && s[0] != '0'
    ensures Value(s) > 0
  {
    if |s| > 1 {
      PositiveValue(s[..|s| - 1]);
    } else {
      assert s[..0] == "";
    }
  }

  lemma {:induction false} ValueConcat(a: string, b: string)
    requires AllDigits(a) && AllDigits(b)
    ensures AllDigits(a + b) && Value(a + b) == Value(a) * Pow10(|b|) + Value(b)
    decreases |b|
  {
    if b == "" {
      assert a + b == a;
    } else {
      var n := |b| - 1;
      ValueConcat(a, b[..n]);
      assert (a + b)[..|a + b| - 1] == a + b[..n];
      TimesTen(Value(a), Pow10(n));
    }
  }

  lemma TimesTen(x: nat, p: nat)
    ensures x * (10 * p) == (x * p) * 10
  {
  }

  lemma {:induction false} ValueBelow(s: string)
    requires AllDigits(s)
    ensures Value(s) < Pow10(|s|)
    decreases |s|
  {
    if s != "" {
      ValueBelow(s[..|s| - 1]);
    }
  }

  function Zeros(n: nat): (s: string)
    ensures |s| == n && AllDigits(s)
  {
    if n == 0 then "" else Zeros(n - 1) + "0"
  }

  lemma {:induction false} ZerosValue(n: nat)
    ensures Value(Zeros(n)) == 0
  {
    if n > 0 {
      ZerosValue(n - 1);
      assert Zeros(n)[..n - 1] == Zeros(n - 1);
    }
  }

  lemma {:induction false} Pow10Add(m: nat, n: nat)
    ensures Pow10(m + n) == Pow10(m) * Pow10(n)
    decreases n
  {
    if n > 0 {
      Pow10Add(m, n - 1);
      assert Pow10(m) * Pow10(n) == 10 * (Pow10(m) * Pow10(n - 1));
    }
  }
}
