// Sorted name sets, and the canonical text of a list of struct types.
module TypeStrings {
  import opened Wrappers

  datatype Field = Field(name: string, kind: string)

  type Types = map<string, seq<Field>>

  // ----- names in the order a BTreeSet keeps them -----

  predicate Less(a: string, b: string) {
    b != "" && (a == "" || a[0] < b[0] || (a[0] == b[0] && Less(a[1..], b[1..])))
  }

  lemma {:induction false} LessTotal(a: string, b: string)
    ensures a == b || Less(a, b) || Less(b, a)
    ensures !(Less(a, b) && Less(b, a)) && !Less(a, a)
  {
    if a != "" { LessIrreflexive(a); }
    if a != "" && b != "" && a[0] == b[0] {
      LessTotal(a[1..], b[1..]);
      assert a == [a[0]] + a[1..] && b == [b[0]] + b[1..];
    }
  }

  lemma {:induction false} LessIrreflexive(a: string)
    ensures !Less(a, a)
  {
    if a != "" { LessIrreflexive(a[1..]); }
  }

  lemma {:induction false} LessTransitive(a: string, b: string, c: string)
    requires Less(a, b) && Less(b, c)
    ensures Less(a, c)
  {
    if a != "" && a[0] == b[0] == c[0] {
      LessTransitive(a[1..], b[1..], c[1..]);
    }
  }

  ghost predicate Ascending(s: seq<string>) {
    forall i, j | 0 <= i < j < |s| :: Less(s[i], s[j])
  }

  function Insert(x: string, s: seq<string>): seq<string> {
    if s == [] then [x]
    else if x == s[0] then s
    else if Less(x, s[0]) then [x] + s
    else [s[0]] + Insert(x, s[1..])
  }

  lemma {:induction false} InsertFacts(x: string, s: seq<string>)
    requires Ascending(s)
    ensures Ascending(Insert(x, s))
    ensures forall y :: y in Insert(x, s) <==> y == x || y in s
  {
    if s != [] && x != s[0] {
      if Less(x, s[0]) {
        forall j | 0 <= j < |s| ensures Less(x, s[j]) {
          if j > 0 { LessTransitive(x, s[0], s[j]); }
        }
      } else {
        LessTotal(x, s[0]);
        InsertFacts(x, s[1..]);
        var t := Insert(x, s[1..]);
        assert Insert(x, s) == [s[0]] + t;
        forall j | 0 <= j < |t| ensures Less(s[0], t[j]) {
          if t[j] in s[1..] {
            var k :| 0 <= k < |s[1..]| && s[1..][k] == t[j];
            assert Less(s[0], s[k + 1]);
          }
        }
      }
    }
  }

  function Without(x: string, s: seq<string>): seq<string> {
    if s == [] then [] else if s[0] == x then Without(x, s[1..]) else [s[0]] + Without(x, s[1..])
  }

  lemma {:induction false} WithoutFacts(x: string, s: seq<string>)
    requires Ascending(s)
    ensures Ascending(Without(x, s))
    ensures forall y :: y in Without(x, s) <==> y != x && y in s
  {
    if s != [] {
      WithoutFacts(x, s[1..]);
      var t := Without(x, s[1..]);
      forall j | 0 <= j < |t| ensures Less(s[0], t[j]) {
        assert t[j] in s[1..];
        var k :| 0 <= k < |s[1..]| && s[1..][k] == t[j];
        assert Less(s[0], s[k + 1]);
      }
    }
  }

  // A set has only one ascending listing.
  lemma {:induction false} AscendingUnique(a: seq<string>, b: seq<string>)
    requires Ascending(a) && Ascending(b)
    requires forall y :: y in a <==> y in b
    ensures a == b
  {
    assert (a != [] ==> a[0] in a) && (b != [] ==> b[0] in b);
    if a != [] && b != [] {
      FirstIsLeast(a, b[0]);
      FirstIsLeast(b, a[0]);
      LessTotal(a[0], b[0]);
      TailElements(a);
      TailElements(b);
      AscendingUnique(a[1..], b[1..]);
    }
  }

  lemma FirstIsLeast(a: seq<string>, y: string)
    requires Ascending(a) && y in a
    ensures y == a[0] || Less(a[0], y)
  {
  }

  lemma TailElements(a: seq<string>)
    requires Ascending(a) && a != []
    ensures forall y :: y in a[1..] <==> y in a && y != a[0]
  {
    LessIrreflexive(a[0]);
    forall y | y in a[1..] ensures y != a[0] {
      var k :| 0 <= k < |a[1..]| && a[1..][k] == y;
      assert Less(a[0], a[k + 1]);
    }
  }

  ghost function Sorted(names: set<string>): (s: seq<string>)
    ensures Ascending(s) && forall y :: y in s <==> y in names
  {
    if names == {} then []
    else
      var x :| x in names;
      var t := Sorted(names - {x});
      InsertFacts(x, t);
      Insert(x, t)
  }

  // ----- the text of a list of types -----

  function FieldText(f: Field): string { f.kind + (" " + f.name) }

  function FieldsText(fields: seq<Field>): string {
    if fields == [] then ""
    else if |fields| == 1 then FieldText(fields[0])
    else FieldText(fields[0]) + ("," + FieldsText(fields[1..]))
  }

  function Segment(name: string, fields: seq<Field>): string {
    name + ("(" + (FieldsText(fields) + ")"))
  }

  function Segments(types: Types, names: seq<string>): string
    requires forall n | n in names :: n in types
  {
    if names == [] then "" else Segment(names[0], types[names[0]]) + Segments(types, names[1..])
  }

  // ----- reading it back -----

  predicate Clean(s: string) { '(' !in s && ')' !in s && ',' !in s && ' ' !in s }

  ghost predicate CleanTypes(types: Types) {
    forall n | n in types :: Clean(n) && forall f | f in types[n] :: Clean(f.name) && Clean(f.kind)
  }

  // The first occurrence of a separator splits a text in one way.
  lemma CutOnce(c: char, a: string, x: string, b: string, y: string)
    requires c !in a && c !in b && a + ([c] + x) == b + ([c] + y)
    ensures a == b && x == y
  {
    var s := a + ([c] + x);
    assert s[|a|] == c && s[|b|] == c;
    assert forall i | 0 <= i < |a| :: s[i] == a[i] && a[i] in a;
    assert forall i | 0 <= i < |b| :: s[i] == b[i] && b[i] in b;
    assert |a| == |b|;
    assert s[..|a|] == a && s[..|b|] == b;
    assert s[|a| + 1..] == x && s[|b| + 1..] == y;
  }

  ghost predicate CleanFields(fields: seq<Field>) {
    forall f | f in fields :: Clean(f.name) && Clean(f.kind)
  }

  lemma {:induction false} FieldsTextClean(fields: seq<Field>)
    requires CleanFields(fields)
    ensures '(' !in FieldsText(fields) && ')' !in FieldsText(fields)
  {
    if |fields| > 1 {
      FieldsTextClean(fields[1..]);
    }
  }

  lemma FieldTextInjective(f: Field, g: Field)
    requires Clean(f.kind) && Clean(g.kind) && FieldText(f) == FieldText(g)
    ensures f == g
  {
    CutOnce(' ', f.kind, f.name, g.kind, g.name);
  }

  // The text tells none, one and several fields apart.
  lemma FieldsTextShape(a: seq<Field>)
    requires CleanFields(a)
    ensures FieldsText(a) == "" <==> a == []
    ensures ',' in FieldsText(a) <==> |a| > 1
  {
    if a != [] {
      assert a[0] in a;
      assert FieldText(a[0])[|a[0].kind|] == ' ';
    }
    if |a| > 1 {
      assert FieldsText(a)[|FieldText(a[0])|] == ',';
    }
  }

  lemma {:induction false} FieldsTextInjective(a: seq<Field>, b: seq<Field>)
    requires CleanFields(a) && CleanFields(b) && FieldsText(a) == FieldsText(b)
    ensures a == b
  {
    FieldsTextShape(a);
    FieldsTextShape(b);
    if |a| == 1 {
      assert a[0] in a && b[0] in b;
      FieldTextInjective(a[0], b[0]);
    } else if |a| > 1 {
      assert a[0] in a && b[0] in b;
      CutOnce(',', FieldText(a[0]), FieldsText(a[1..]), FieldText(b[0]), FieldsText(b[1..]));
      FieldTextInjective(a[0], b[0]);
      FieldsTextInjective(a[1..], b[1..]);
      assert a == [a[0]] + a[1..] && b == [b[0]] + b[1..];
    }
  }

  lemma SegmentInjective(m: string, a: seq<Field>, x: string, n: string, b: seq<Field>, y: string)
    requires Clean(m) && Clean(n) && CleanFields(a) && CleanFields(b)
    requires Segment(m, a) + x == Segment(n, b) + y
    ensures m == n && a == b && x == y
  {
    var restA, restB := FieldsText(a) + ([')'] + x), FieldsText(b) + ([')'] + y);
    assert Segment(m, a) + x == m + (['('] + restA);
    assert Segment(n, b) + y == n + (['('] + restB);
    CutOnce('(', m, restA, n, restB);
    FieldsTextClean(a);
    FieldsTextClean(b);
    CutOnce(')', FieldsText(a), x, FieldsText(b), y);
    FieldsTextInjective(a, b);
  }

  // Equal texts list the same names in the same order with the same fields.
  lemma {:induction false} SegmentsInjective(s: Types, a: seq<string>, t: Types, b: seq<string>)
    requires CleanTypes(s) && CleanTypes(t)
    requires (forall n | n in a :: n in s) && (forall n | n in b :: n in t)
    requires Segments(s, a) == Segments(t, b)
    ensures a == b && forall n | n in a :: s[n] == t[n]
  {
    if a != [] && b != [] {
      SegmentInjective(a[0], s[a[0]], Segments(s, a[1..]), b[0], t[b[0]], Segments(t, b[1..]));
      SegmentsInjective(s, a[1..], t, b[1..]);
      assert a == [a[0]] + a[1..] && b == [b[0]] + b[1..];
    }
  }
}
