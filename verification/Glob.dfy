// The workspace glob compiler: `examples/workflow_creative_agent_cli/context.rs`.
//
// The compiler emits regex terms, given their usual language; a glob is given its meaning
// directly, by a matcher that walks pattern and path together.
module Glob {

  // ----- regular expressions -----

  datatype Class = Exactly(c: char) | Dot | NotSlash

  datatype Regex = One(kind: Class) | Many(r: Regex) | Then(first: Regex, second: Regex) | Maybe(r: Regex)

  predicate In(c: char, kind: Class) {
    match kind
    case Exactly(d) => c == d
    case Dot => c != '\n'
    case NotSlash => c != '/'
  }

  ghost predicate Accepts(r: Regex, s: string)
    decreases r, |s|
  {
    match r
    case One(kind) => |s| == 1 && In(s[0], kind)
    case Many(a) => s == "" || exists k :: 1 <= k <= |s| && Accepts(a, s[..k]) && Accepts(r, s[k..])
    case Then(a, b) => exists k :: 0 <= k <= |s| && Accepts(a, s[..k]) && Accepts(b, s[k..])
    case Maybe(a) => s == "" || Accepts(a, s)
  }

  // Terms in a row, anchored at both ends.
  ghost predicate Matches(terms: seq<Regex>, s: string) {
    if terms == [] then s == ""
    else exists k :: 0 <= k <= |s| && Accepts(terms[0], s[..k]) && Matches(terms[1..], s[k..])
  }

  // ----- globs -----

  predicate StartsDirs(p: string) { |p| >= 3 && p[0] == '*' && p[1] == '*' && p[2] == '/' }

  predicate StartsAny(p: string) { |p| >= 2 && p[0] == '*' && p[1] == '*' }

  // The length of the first directory name with its slash; 0 if there is no slash.
  function FirstDirectory(s: string): (n: nat)
    ensures n <= |s| && (n > 0 ==> s[n - 1] == '/') && forall i :: 0 <= i < n - 1 ==> s[i] != '/'
    ensures n == 0 ==> '/' !in s
  {
    if s == "" then 0
    else if s[0] == '/' then 1
    else
      var n := FirstDirectory(s[1..]);
      assert forall i :: 0 < i < |s| ==> s[i] == s[1..][i - 1];
      if n == 0 then 0 else n + 1
  }

  // `**/` is any number of directories, `**` anything, `*` and `?` anything within a
  // directory; every other character is itself.
  predicate GlobMatch(p: string, s: string)
    decreases |p|, |s|
  {
    if p == "" then s == ""
    else if StartsDirs(p) then
      GlobMatch(p[3..], s) || (var n := FirstDirectory(s); n > 0 && GlobMatch(p, s[n..]))
    else if StartsAny(p) then
      GlobMatch(p[2..], s) || (s != "" && GlobMatch(p, s[1..]))
    else if p[0] == '*' then
      GlobMatch(p[1..], s) || (s != "" && s[0] != '/' && GlobMatch(p, s[1..]))
    else
      s != "" && (if p[0] == '?' then s[0] != '/' else s[0] == p[0]) && GlobMatch(p[1..], s[1..])
  }

  // ----- what a glob means -----

  // The rest of the pattern matches from position k on.
  ghost predicate From(rest: string, s: string, k: nat) { k <= |s| && GlobMatch(rest, s[k..]) }

  // `**/` skips nothing, or whole directories: up to just behind some slash.
  ghost predicate BehindSlash(rest: string, s: string, k: nat) { From(rest, s, k) && (k == 0 || s[k - 1] == '/') }

  lemma DirectoriesMean(rest: string, s: string)
    ensures GlobMatch("**/" + rest, s) <==> exists k: nat :: BehindSlash(rest, s, k)
  {
    if GlobMatch("**/" + rest, s) {
      SkipsDirectories(rest, s);
    }
    if k: nat :| BehindSlash(rest, s, k) {
      MaySkipDirectories(rest, s, k);
    }
  }

  lemma {:induction false} SkipsDirectories(rest: string, s: string)
    requires GlobMatch("**/" + rest, s)
    ensures exists k: nat :: BehindSlash(rest, s, k)
    decreases |s|
  {
    var p := "**/" + rest;
    assert StartsDirs(p) && p[3..] == rest;
    var n := FirstDirectory(s);
    if GlobMatch(rest, s) {
      assert s[0..] == s && BehindSlash(rest, s, 0);
    } else {
      SkipsDirectories(rest, s[n..]);
      var k: nat :| BehindSlash(rest, s[n..], k);
      assert s[n..][k..] == s[n + k..] && BehindSlash(rest, s, n + k);
    }
  }

  lemma {:induction false} MaySkipDirectories(rest: string, s: string, k: nat)
    requires BehindSlash(rest, s, k)
    ensures GlobMatch("**/" + rest, s)
    decreases |s|
  {
    var p := "**/" + rest;
    assert StartsDirs(p) && p[3..] == rest;
    var n := FirstDirectory(s);
    if k == 0 {
      assert s[0..] == s;
    } else {
      assert '/' in s && 0 < n <= k;
      assert s[n..][k - n..] == s[k..] && BehindSlash(rest, s[n..], k - n);
      MaySkipDirectories(rest, s[n..], k - n);
    }
  }

  // `**` skips anything.
  lemma {:induction false} AnythingMeans(rest: string, s: string)
    ensures !("/" <= rest) ==> (GlobMatch("**" + rest, s) <==> exists k: nat :: From(rest, s, k))
    decreases |s|
  {
    var p := "**" + rest;
    assert StartsAny(p) && p[2..] == rest && (rest != "" ==> p[2] == rest[0]);
    if GlobMatch(rest, s) {
      assert s[0..] == s && From(rest, s, 0);
    }
    if s != "" {
      AnythingMeans(rest, s[1..]);
      if k: nat :| From(rest, s[1..], k) {
        assert s[1..][k..] == s[k + 1..] && From(rest, s, k + 1);
      }
    }
    if k: nat :| From(rest, s, k) {
      if k > 0 {
        assert s[1..][k - 1..] == s[k..] && From(rest, s[1..], k - 1);
      }
    }
  }

  // `*` skips anything but a slash.
  lemma {:induction false} SegmentMeans(rest: string, s: string)
    ensures !("*" <= rest) ==> (GlobMatch("*" + rest, s) <==> exists k: nat :: From(rest, s, k) && '/' !in s[..k])
    decreases |s|
  {
    var p := "*" + rest;
    assert p[1..] == rest && (rest != "" ==> p[1] == rest[0]);
    if GlobMatch(rest, s) {
      assert s[0..] == s && From(rest, s, 0) && '/' !in s[..0];
    }
    if s != "" {
      SegmentMeans(rest, s[1..]);
      if k: nat :| From(rest, s[1..], k) && '/' !in s[1..][..k] {
        assert s[1..][k..] == s[k + 1..] && From(rest, s, k + 1) && s[..k + 1] == [s[0]] + s[1..][..k];
      }
    }
    if k: nat :| From(rest, s, k) && '/' !in s[..k] {
      if k > 0 {
        assert s[1..][k - 1..] == s[k..] && From(rest, s[1..], k - 1) && s[..k] == [s[0]] + s[1..][..k - 1];
      }
    }
  }

  // `?` is any one character but a slash, and every other character is itself.
  lemma CharacterMeans(c: char, rest: string, s: string)
    ensures c != '*' ==>
              (GlobMatch([c] + rest, s) <==>
                 s != "" && GlobMatch(rest, s[1..]) && if c == '?' then s[0] != '/' else s[0] == c)
  {
    assert ([c] + rest)[1..] == rest;
  }

  // ----- the compiler -----

  const DIRS := Maybe(Then(Many(One(Dot)), One(Exactly('/'))))
  const ANY := Many(One(Dot))
  const SEGMENT := Many(One(NotSlash))

  function Compile(p: string): seq<Regex> {
    if p == "" then []
    else if StartsDirs(p) then [DIRS] + Compile(p[3..])
    else if StartsAny(p) then [ANY] + Compile(p[2..])
    else if p[0] == '*' then [SEGMENT] + Compile(p[1..])
    else [One(if p[0] == '?' then NotSlash else Exactly(p[0]))] + Compile(p[1..])
  }

  predicate Doubled(p: string) { exists i :: 0 <= i < |p| - 1 && p[i] == '*' && p[i + 1] == '*' }

  ghost predicate Agree(terms: seq<Regex>, p: string, path: string) { Matches(terms, path) <==> GlobMatch(p, path) }

  method GlobRegex(pattern: string) returns (output: seq<Regex>)
    ensures forall path: string :: '\n' !in path ==> Agree(output, pattern, path)
    ensures (forall path :: Agree(output, pattern, path)) <==> !Doubled(pattern)
  {
    output := Emit(pattern);
    CompileIsFaithful(pattern);
  }

  method Emit(pattern: string) returns (output: seq<Regex>)
    ensures output == Compile(pattern)
  {
    output := [];
    var index := 0;
    while index < |pattern|
      invariant 0 <= index <= |pattern| && output + Compile(pattern[index..]) == Compile(pattern)
    {
      var c, term, width := pattern[index], DIRS, 3;
      if c == '*' && index + 1 < |pattern| && pattern[index + 1] == '*' {
        if !(index + 2 < |pattern| && pattern[index + 2] == '/') {
          term, width := ANY, 2;
        }
      } else if c == '*' {
        term, width := SEGMENT, 1;
      } else if c == '?' {
        term, width := One(NotSlash), 1;
      } else {
        term, width := One(Exactly(c)), 1;
      }
      assert pattern[index..][width..] == pattern[index + width..];
      Onward(output, term, Compile(pattern[index + width..]));
      output := output + [term];
      index := index + width;
    }
  }

  lemma Onward(a: seq<Regex>, term: Regex, b: seq<Regex>)
    ensures a + ([term] + b) == (a + [term]) + b
  {
  }

  lemma CompileIsFaithful(pattern: string)
    ensures forall path: string :: '\n' !in path ==> Agree(Compile(pattern), pattern, path)
    ensures (forall path :: Agree(Compile(pattern), pattern, path)) <==> !Doubled(pattern)
  {
    forall path: string
      ensures '\n' !in path || !Doubled(pattern) ==> Agree(Compile(pattern), pattern, path)
    {
      if '\n' !in path || !Doubled(pattern) {
        CompileKeepsMeaning(pattern, path);
      }
    }
    if Doubled(pattern) {
      NewlineBreaksDoubleStars(pattern);
      var path :| GlobMatch(pattern, path) && !Matches(Compile(pattern), path);
      assert !Agree(Compile(pattern), pattern, path);
    }
  }

  // ----- how the terms match -----

  lemma OneStep(kind: Class, rest: seq<Regex>, s: string)
    ensures Matches([One(kind)] + rest, s) <==> s != "" && In(s[0], kind) && Matches(rest, s[1..])
  {
    var terms := [One(kind)] + rest;
    assert terms[1..] == rest;
    if s != "" && In(s[0], kind) && Matches(rest, s[1..]) {
      assert Accepts(terms[0], s[..1]);
    }
  }

  lemma AcceptsMany(kind: Class, s: string)
    ensures Accepts(Many(One(kind)), s) <==> forall i :: 0 <= i < |s| ==> In(s[i], kind)
  {
    if s != "" {
      AcceptsMany(kind, s[1..]);
      if forall i :: 0 <= i < |s| ==> In(s[i], kind) {
        assert Accepts(One(kind), s[..1]);
      }
    }
  }

  ghost predicate Splits(term: Regex, rest: seq<Regex>, s: string, from: nat, k: nat) {
    from <= k <= |s| && Accepts(term, s[from..k]) && Matches(rest, s[k..])
  }

  lemma MatchesSplits(term: Regex, rest: seq<Regex>, s: string, from: nat)
    requires from <= |s|
    ensures Matches([term] + rest, s[from..]) <==> exists k: nat :: Splits(term, rest, s, from, k)
  {
    var terms, t := [term] + rest, s[from..];
    assert terms[0] == term && terms[1..] == rest;
    if Matches(terms, t) {
      var k :| 0 <= k <= |t| && Accepts(term, t[..k]) && Matches(rest, t[k..]);
      assert t[..k] == s[from..from + k] && t[k..] == s[from + k..];
      assert Splits(term, rest, s, from, from + k);
    }
    if k: nat :| Splits(term, rest, s, from, k) {
      assert t[..k - from] == s[from..k] && t[k - from..] == s[k..];
      assert Accepts(term, t[..k - from]) && Matches(rest, t[k - from..]);
    }
  }

  lemma MatchesNow(term: Regex, rest: seq<Regex>, s: string)
    requires Accepts(term, "") && Matches(rest, s)
    ensures Matches([term] + rest, s)
  {
    var terms := [term] + rest;
    assert terms[1..] == rest && s[..0] == "" && s[0..] == s;
  }

  // A term that takes n more characters wherever it takes any may take them first.
  lemma MatchesOn(term: Regex, rest: seq<Regex>, s: string, n: nat)
    requires 0 < n <= |s| && Accepts(term, "")
    requires forall k: nat :: n <= k <= |s| ==> (Accepts(term, s[0..k]) <==> Accepts(term, s[n..k]))
    requires forall k: nat :: 0 < k < n ==> !Accepts(term, s[0..k])
    ensures Matches([term] + rest, s) <==> Matches(rest, s) || Matches([term] + rest, s[n..])
  {
    assert s[0..] == s;
    MatchesSplits(term, rest, s, 0);
    MatchesSplits(term, rest, s, n);
    if k: nat :| Splits(term, rest, s, 0, k) {
      assert k >= n ==> Splits(term, rest, s, n, k);
    }
    if k: nat :| Splits(term, rest, s, n, k) {
      assert Splits(term, rest, s, 0, k);
    }
    if Matches(rest, s) {
      MatchesNow(term, rest, s);
    }
  }

  lemma MatchesOff(term: Regex, rest: seq<Regex>, s: string)
    requires Accepts(term, "") && forall k: nat :: 0 < k <= |s| ==> !Accepts(term, s[0..k])
    ensures Matches([term] + rest, s) <==> Matches(rest, s)
  {
    assert s[0..] == s;
    MatchesSplits(term, rest, s, 0);
    if k: nat :| Splits(term, rest, s, 0, k) {
      assert k == 0;
    }
    if Matches(rest, s) {
      MatchesNow(term, rest, s);
    }
  }

  lemma ManyStep(kind: Class, rest: seq<Regex>, s: string)
    ensures var terms := [Many(One(kind))] + rest;
            Matches(terms, s) <==> Matches(rest, s) || (s != "" && In(s[0], kind) && Matches(terms, s[1..]))
  {
    var many := Many(One(kind));
    forall k: nat | 0 < k <= |s|
      ensures Accepts(many, s[0..k]) <==> In(s[0], kind) && Accepts(many, s[1..k])
    {
      AcceptsMany(kind, s[0..k]);
      AcceptsMany(kind, s[1..k]);
      assert s[0..k] == [s[0]] + s[1..k];
    }
    if s != "" && In(s[0], kind) {
      MatchesOn(many, rest, s, 1);
    } else {
      MatchesOff(many, rest, s);
    }
  }

  lemma AcceptsDirs(s: string)
    ensures Accepts(DIRS, s) <==> s == "" || (s[|s| - 1] == '/' && '\n' !in s)
  {
    var many, slash := Many(One(Dot)), One(Exactly('/'));
    if s != "" {
      var n := |s| - 1;
      AcceptsMany(Dot, s[..n]);
      assert s == s[..n] + [s[n]];
      assert Accepts(slash, s[n..]) <==> s[n] == '/';
      if Accepts(Then(many, slash), s) {
        var k :| 0 <= k <= |s| && Accepts(many, s[..k]) && Accepts(slash, s[k..]);
        assert k == n;
      }
    }
  }

  lemma DirsStep(rest: seq<Regex>, s: string)
    requires '\n' !in s
    ensures var n := FirstDirectory(s);
            Matches([DIRS] + rest, s) <==> Matches(rest, s) || (n > 0 && Matches([DIRS] + rest, s[n..]))
  {
    var n := FirstDirectory(s);
    forall k: nat | 0 < k <= |s|
      ensures Accepts(DIRS, s[0..k]) <==> s[k - 1] == '/'
    {
      AcceptsDirs(s[0..k]);
    }
    forall k: nat | n <= k <= |s|
      ensures Accepts(DIRS, s[n..k]) <==> k == n || s[k - 1] == '/'
    {
      AcceptsDirs(s[n..k]);
    }
    if n > 0 {
      MatchesOn(DIRS, rest, s, n);
    } else {
      MatchesOff(DIRS, rest, s);
    }
  }

  // The compiled terms mean the glob, for newline-free paths and for patterns without `**`.
  lemma {:induction false} CompileKeepsMeaning(p: string, s: string)
    requires '\n' !in s || !Doubled(p)
    ensures Matches(Compile(p), s) <==> GlobMatch(p, s)
    decreases |p|, |s|
  {
    if p == "" {
    } else if StartsDirs(p) {
      assert Doubled(p);
      CompileKeepsMeaning(p[3..], s);
      DirsStep(Compile(p[3..]), s);
      if FirstDirectory(s) > 0 {
        CompileKeepsMeaning(p, s[FirstDirectory(s)..]);
      }
    } else if StartsAny(p) {
      assert Doubled(p);
      CompileKeepsMeaning(p[2..], s);
      ManyStep(Dot, Compile(p[2..]), s);
      if s != "" {
        CompileKeepsMeaning(p, s[1..]);
      }
    } else {
      if Doubled(p[1..]) {
        var i :| 0 <= i < |p| - 2 && p[1..][i] == '*' && p[1..][i + 1] == '*';
        assert p[i + 1] == '*' && p[i + 1 + 1] == '*';
      }
      if p[0] == '*' {
        CompileKeepsMeaning(p[1..], s);
        ManyStep(NotSlash, Compile(p[1..]), s);
        if s != "" {
          CompileKeepsMeaning(p, s[1..]);
        }
      } else {
        OneStep(if p[0] == '?' then NotSlash else Exactly(p[0]), Compile(p[1..]), s);
        if s != "" {
          CompileKeepsMeaning(p[1..], s[1..]);
        }
      }
    }
  }

  // ----- where the translation goes wrong -----

  // How often a slash follows a newline.
  function Turns(s: string): nat {
    if |s| < 2 then 0 else Turns(s[1..]) + if s[0] == '\n' && s[1] == '/' then 1 else 0
  }

  lemma {:induction false} NoTurns(s: string)
    requires '\n' !in s || '/' !in s || |s| < 2
    ensures Turns(s) == 0
  {
    if |s| >= 2 {
      NoTurns(s[1..]);
    }
  }

  lemma {:induction false} TurnsOfBoth(a: string, b: string)
    ensures Turns(a) + Turns(b) <= Turns(a + b) <= Turns(a) + Turns(b) + 1
  {
    if a == "" {
      assert a + b == b;
    } else {
      assert (a + b)[1..] == a[1..] + b;
      TurnsOfBoth(a[1..], b);
      if |a| == 1 {
        assert a[1..] + b == b;
      }
    }
  }

  predicate Emitted(r: Regex) { r.One? || r == ANY || r == SEGMENT || r == DIRS }

  lemma {:induction false} CompileEmits(p: string)
    ensures forall r :: r in Compile(p) ==> Emitted(r)
  {
    if p == "" {
    } else if StartsDirs(p) {
      CompileEmits(p[3..]);
    } else if StartsAny(p) {
      CompileEmits(p[2..]);
    } else {
      CompileEmits(p[1..]);
    }
  }

  // No term covers a turn, so terms in a row cover at most one turn each.
  lemma {:induction false} TermsTurnLittle(terms: seq<Regex>, s: string)
    requires (forall r :: r in terms ==> Emitted(r)) && Matches(terms, s)
    ensures Turns(s) <= |terms|
  {
    if terms != [] {
      var k :| 0 <= k <= |s| && Accepts(terms[0], s[..k]) && Matches(terms[1..], s[k..]);
      TermsTurnLittle(terms[1..], s[k..]);
      assert s[..k] + s[k..] == s;
      TurnsOfBoth(s[..k], s[k..]);
      assert terms[0] in terms;
      AcceptsMany(Dot, s[..k]);
      AcceptsMany(NotSlash, s[..k]);
      AcceptsDirs(s[..k]);
      NoTurns(s[..k]);
    }
  }

  function Winding(n: nat): string {
    if n == 0 then "" else "\n/" + Winding(n - 1)
  }

  lemma {:induction false} WindingTurns(n: nat, rest: string)
    ensures Turns(Winding(n) + rest) >= n
  {
    if n > 0 {
      WindingTurns(n - 1, rest);
      var s := Winding(n - 1) + rest;
      assert Winding(n) + rest == "\n/" + s;
      assert ("\n/" + s)[1..] == "/" + s;
      TurnsOfBoth("/", s);
    }
  }

  // A path of the pattern, with room for any winding directories at its first double star.
  function Sample(p: string, n: nat): string {
    if p == "" then ""
    else if StartsDirs(p) then Winding(n) + Sample(p[3..], 0)
    else if StartsAny(p) then Winding(n) + Sample(p[2..], 0)
    else if p[0] == '*' then Sample(p[1..], n)
    else [if p[0] == '?' then 'x' else p[0]] + Sample(p[1..], n)
  }

  lemma {:induction false} WindingIsSkipped(p: string, n: nat, s: string)
    requires StartsAny(p) && GlobMatch(p, s)
    ensures GlobMatch(p, Winding(n) + s)
  {
    if n == 0 {
      assert Winding(n) + s == s;
    } else {
      WindingIsSkipped(p, n - 1, s);
      var rest := Winding(n - 1) + s;
      var all := "\n/" + rest;
      assert Winding(n) + s == all;
      if StartsDirs(p) {
        assert all[0] == '\n' && all[1] == '/';
        assert FirstDirectory(all) == 2 && all[2..] == rest;
      } else {
        assert all[1..] == "/" + rest && all[1..][1..] == rest;
        assert GlobMatch(p, all[1..]);
      }
    }
  }

  lemma {:induction false} SampleMatches(p: string, n: nat)
    ensures GlobMatch(p, Sample(p, n))
    ensures Doubled(p) ==> Turns(Sample(p, n)) >= n
  {
    if p == "" {
    } else if StartsAny(p) {
      var rest := if StartsDirs(p) then p[3..] else p[2..];
      SampleMatches(rest, 0);
      WindingIsSkipped(p, n, Sample(rest, 0));
      WindingTurns(n, Sample(rest, 0));
    } else {
      SampleMatches(p[1..], n);
      if Doubled(p) {
        var i :| 0 <= i < |p| - 1 && p[i] == '*' && p[i + 1] == '*';
        assert i > 0 && p[1..][i - 1] == '*' && p[1..][i - 1 + 1] == '*';
      }
      if p[0] != '*' {
        var s := Sample(p, n);
        assert s[1..] == Sample(p[1..], n);
        TurnsOfBoth(s[..1], s[1..]);
        assert s[..1] + s[1..] == s;
      }
    }
  }

  // Every pattern with `**` means a path whose newlines the emitted terms will not cross.
  lemma NewlineBreaksDoubleStars(p: string)
    requires Doubled(p)
    ensures exists path :: GlobMatch(p, path) && !Matches(Compile(p), path)
  {
    var n := |Compile(p)| + 1;
    var path := Sample(p, n);
    SampleMatches(p, n);
    CompileEmits(p);
    if Matches(Compile(p), path) {
      TermsTurnLittle(Compile(p), path);
    }
  }
}
