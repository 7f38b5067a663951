// Character classes and trimming shared by the text-handling modules.
module Text {
  // The Unicode White_Space property, which `char::is_whitespace` and `str::trim` test.
  predicate IsWhitespace(c: char) {
    || '\t' <= c <= '\r' || c == ' ' || c == '\U{85}' || c == '\U{A0}' || c == '\U{1680}'
    || '\U{2000}' <= c <= '\U{200A}' || c == '\U{2028}' || c == '\U{2029}' || c == '\U{202F}'
    || c == '\U{205F}' || c == '\U{3000}'
  }

  function TrimStart(s: string): string {
    if s != "" && IsWhitespace(s[0]) then TrimStart(s[1..]) else s
  }

  function TrimEnd(s: string): string {
    if s != "" && IsWhitespace(s[|s| - 1]) then TrimEnd(s[..|s| - 1]) else s
  }

  function Trim(s: string): string { TrimEnd(TrimStart(s)) }

  // Text without surrounding whitespace is its own trimming.
  lemma TrimmedStays(s: string)
    requires s == "" || (!IsWhitespace(s[0]) && !IsWhitespace(s[|s| - 1]))
    ensures Trim(s) == s
  {
  }

  lemma {:induction false} TrimEndTight(s: string)
    ensures var t := TrimEnd(s);
            && t <= s && (t != "" ==> !IsWhitespace(t[|t| - 1]))
  {
    if s != "" && IsWhitespace(s[|s| - 1]) {
      TrimEndTight(s[..|s| - 1]);
    }
  }

  lemma {:induction false} TrimStartTight(s: string)
    ensures var t := TrimStart(s); t != "" ==> !IsWhitespace(t[0])
  {
    if s != "" && IsWhitespace(s[0]) {
      TrimStartTight(s[1..]);
    }
  }

  // Trimming leaves the middle of the text: only whitespace is taken, and none is left
  // at either end.
  lemma TrimIsTheMiddle(s: string)
    ensures exists a: nat, b: nat ::
              a <= b <= |s| && Trim(s) == s[a..b] &&
              (forall i | 0 <= i < a || b <= i < |s| :: IsWhitespace(s[i])) &&
              (a < b ==> !IsWhitespace(s[a]) && !IsWhitespace(s[b - 1]))
  {
    var a := TrimStartDrops(s);
    var n := TrimEndKeeps(s[a..]);
    TrimEndTight(s[a..]);
    TrimStartTight(s);
    assert forall i | a + n <= i < |s| :: s[i] == s[a..][i - a];
    assert Trim(s) == s[a..a + n];
  }

  lemma {:induction false} TrimStartDrops(s: string) returns (a: nat)
    ensures a <= |s| && TrimStart(s) == s[a..] && forall i | 0 <= i < a :: IsWhitespace(s[i])
  {
    a := 0;
    if s != "" && IsWhitespace(s[0]) {
      var rest := TrimStartDrops(s[1..]);
      assert s[1..][rest..] == s[rest + 1..];
      assert forall i | 1 <= i < rest + 1 :: s[i] == s[1..][i - 1];
      a := rest + 1;
    }
  }

  lemma {:induction false} TrimEndKeeps(s: string) returns (n: nat)
    ensures n <= |s| && TrimEnd(s) == s[..n] && forall i | n <= i < |s| :: IsWhitespace(s[i])
  {
    n := |s|;
    if s != "" && IsWhitespace(s[|s| - 1]) {
      n := TrimEndKeeps(s[..|s| - 1]);
      assert s[..|s| - 1][..n] == s[..n];
      assert forall i | n <= i < |s| - 1 :: s[i] == s[..|s| - 1][i];
    }
  }

  lemma TrimTwice(s: string)
    ensures Trim(Trim(s)) == Trim(s)
  {
    TrimStartTight(s);
    TrimEndTight(TrimStart(s));
    TrimmedStays(Trim(s));
  }
}
