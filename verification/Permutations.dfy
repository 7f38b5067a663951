// Every ordering of a small stack: `examples/common/lora.rs`.
module Permutations {

  function Without<T>(s: seq<T>, i: nat): (r: seq<T>)
    requires i < |s|
    ensures |r| == |s| - 1
  {
    s[..i] + s[i + 1..]
  }

  function Prefixed<T>(x: T, lists: seq<seq<T>>): seq<seq<T>> {
    seq(|lists|, k requires 0 <= k < |lists| => [x] + lists[k])
  }

  // The orderings that begin with one of the first n items.
  function UpTo<T>(items: seq<T>, n: nat): seq<seq<T>>
    requires n <= |items|
    decreases |items|, n
  {
    if n == 0 then [] else UpTo(items, n - 1) + Prefixed(items[n - 1], Orderings(Without(items, n - 1)))
  }

  function Orderings<T>(items: seq<T>): seq<seq<T>>
    decreases |items|, |items| + 1
  {
    if |items| <= 1 then [items] else UpTo(items, |items|)
  }

  method Permutations<T>(items: seq<T>) returns (output: seq<seq<T>>)
    ensures output == Orderings(items)
    decreases |items|
  {
    if |items| <= 1 {
      return [items];
    }
    output := [];
    for index := 0 to |items|
      invariant output == UpTo(items, index)
    {
      var remaining := Without(items, index);
      var item := items[index];
      var lists := Permutations(remaining);
      ghost var before := output;
      for k := 0 to |lists|
        invariant output == before + Prefixed(item, lists)[..k]
      {
        output := output + [[item] + lists[k]];
      }
      assert Prefixed(item, lists)[..|lists|] == Prefixed(item, lists);
    }
  }

  // ----- how many -----

  function Factorial(n: nat): nat { if n == 0 then 1 else n * Factorial(n - 1) }

  lemma {:induction false} CountUpTo<T>(items: seq<T>, n: nat)
    requires 1 < |items| && n <= |items|
    ensures |UpTo(items, n)| == n * Factorial(|items| - 1)
    decreases |items|, n
  {
    if n > 0 {
      CountUpTo(items, n - 1);
      CountIsFactorial(Without(items, n - 1));
      assert n * Factorial(|items| - 1) == (n - 1) * Factorial(|items| - 1) + Factorial(|items| - 1);
    }
  }

  lemma {:induction false} CountIsFactorial<T>(items: seq<T>)
    ensures |Orderings(items)| == Factorial(|items|)
    decreases |items|, |items| + 1
  {
    if |items| > 1 {
      CountUpTo(items, |items|);
    } else if |items| == 1 {
      assert Factorial(1) == 1 * Factorial(0);
    }
  }

  // ----- which -----

  lemma InPrefixed<T>(x: T, lists: seq<seq<T>>, p: seq<T>)
    ensures p in Prefixed(x, lists) <==> p != [] && p[0] == x && p[1..] in lists
  {
    var all := Prefixed(x, lists);
    if k :| 0 <= k < |all| && all[k] == p {
      assert p[1..] == lists[k];
    }
    if p != [] && p[0] == x && p[1..] in lists {
      var k :| 0 <= k < |lists| && lists[k] == p[1..];
      assert all[k] == [p[0]] + p[1..] == p;
    }
  }

  ghost predicate BeginsWith<T>(items: seq<T>, j: nat, p: seq<T>)
    requires j < |items|
  {
    p != [] && p[0] == items[j] && p[1..] in Orderings(Without(items, j))
  }

  lemma {:induction false} InUpTo<T>(items: seq<T>, n: nat, p: seq<T>)
    requires n <= |items|
    ensures p in UpTo(items, n) <==> exists j :: 0 <= j < n && BeginsWith(items, j, p)
  {
    if n > 0 {
      InUpTo(items, n - 1, p);
      InPrefixed(items[n - 1], Orderings(Without(items, n - 1)), p);
      assert p in UpTo(items, n) <==> p in UpTo(items, n - 1) || BeginsWith(items, n - 1, p);
    }
  }

  lemma TakenOut<T>(items: seq<T>, j: nat)
    requires j < |items|
    ensures multiset(items) == multiset{items[j]} + multiset(Without(items, j))
  {
    assert items == items[..j] + [items[j]] + items[j + 1..];
  }

  // The result holds a list exactly when it rearranges the items.
  lemma {:induction false} ExactlyTheRearrangements<T>(items: seq<T>, p: seq<T>)
    ensures p in Orderings(items) <==> multiset(p) == multiset(items)
    decreases |items|
  {
    SameSize(p, items);
    if |items| <= 1 {
      if multiset(p) == multiset(items) && |items| == 1 {
        assert p[0] in multiset(p) && p == [p[0]] && items == [items[0]];
      }
    } else {
      InUpTo(items, |items|, p);
      if p != [] {
        assert p == [p[0]] + p[1..];
        forall j | 0 <= j < |items| && p[0] == items[j]
          ensures BeginsWith(items, j, p) <==> multiset(p) == multiset(items)
        {
          ExactlyTheRearrangements(Without(items, j), p[1..]);
          TakenOut(items, j);
          assert multiset(p) == multiset{items[j]} + multiset(p[1..]);
          Cancel(multiset{items[j]}, multiset(p[1..]), multiset(Without(items, j)));
        }
        if multiset(p) == multiset(items) {
          assert p[0] in multiset(items);
        }
      }
    }
  }

  lemma Cancel<T>(x: multiset<T>, a: multiset<T>, b: multiset<T>)
    ensures x + a == x + b <==> a == b
  {
    assert (x + a) - x == a && (x + b) - x == b;
  }

  lemma SameSize<T>(a: seq<T>, b: seq<T>)
    ensures multiset(a) == multiset(b) ==> |a| == |b|
  {
    assert |multiset(a)| == |a| && |multiset(b)| == |b|;
  }

  // ----- in which order -----

  function Positions(n: nat): seq<int> { seq(n, i => i) }

  predicate Ascending(s: seq<int>) { forall i, j :: 0 <= i < j < |s| ==> s[i] < s[j] }

  predicate Less(a: seq<int>, b: seq<int>) {
    b != [] && (a == [] || a[0] < b[0] || (a[0] == b[0] && Less(a[1..], b[1..])))
  }

  ghost predicate InOrder(lists: seq<seq<int>>) {
    forall i, j :: 0 <= i < j < |lists| ==> Less(lists[i], lists[j])
  }

  lemma {:induction false} OrderedUpTo(items: seq<int>, n: nat)
    requires Ascending(items) && n <= |items|
    ensures InOrder(UpTo(items, n)) && forall p :: p in UpTo(items, n) ==> p != [] && p[0] in items[..n]
    decreases |items|, n
  {
    if n > 0 {
      OrderedUpTo(items, n - 1);
      var x, rest := items[n - 1], Without(items, n - 1);
      Lexicographic(rest);
      var before, last := UpTo(items, n - 1), Prefixed(x, Orderings(rest));
      var all := UpTo(items, n);
      assert all == before + last;
      forall i, j | 0 <= i < j < |all|
        ensures Less(all[i], all[j])
      {
        if j >= |before| {
          var k := j - |before|;
          assert all[j] == last[k] && all[j][1..] == Orderings(rest)[k];
          if i < |before| {
            assert all[i] in before;
          } else {
            assert all[i] == last[i - |before|] && all[i][1..] == Orderings(rest)[i - |before|];
          }
        }
      }
      forall p | p in all
        ensures p != [] && p[0] in items[..n]
      {
        if p in before {
          assert p[0] in items[..n - 1] && items[..n] == items[..n - 1] + [x];
        } else {
          assert p in last && p[0] == items[..n][n - 1];
        }
      }
    }
  }

  lemma {:induction false} Lexicographic(items: seq<int>)
    requires Ascending(items)
    ensures InOrder(Orderings(items))
    decreases |items|, |items| + 1
  {
    if |items| > 1 {
      OrderedUpTo(items, |items|);
    }
  }

  // A list of items picked by their positions.
  function Picked<T>(items: seq<T>, positions: seq<int>): seq<T>
    requires forall i :: 0 <= i < |positions| ==> 0 <= positions[i] < |items|
  {
    seq(|positions|, i requires 0 <= i < |positions| => items[positions[i]])
  }

  predicate Within(lists: seq<seq<int>>, n: nat) {
    forall k :: 0 <= k < |lists| ==> Inside(lists[k], n)
  }

  predicate Inside(positions: seq<int>, n: nat) {
    forall i :: 0 <= i < |positions| ==> 0 <= positions[i] < n
  }

  // The orderings of picked items are the orderings of the positions, picked.
  lemma {:induction false} PickedUpTo<T>(items: seq<T>, at: seq<int>, n: nat)
    requires Inside(at, |items|) && n <= |at|
    ensures Within(UpTo(at, n), |items|) && |UpTo(Picked(items, at), n)| == |UpTo(at, n)|
    ensures forall k :: 0 <= k < |UpTo(at, n)| ==> UpTo(Picked(items, at), n)[k] == Picked(items, UpTo(at, n)[k])
    decreases |at|, n
  {
    if n > 0 {
      PickedUpTo(items, at, n - 1);
      var rest := Without(at, n - 1);
      assert Inside(rest, |items|);
      PickedOrderings(items, rest);
      assert Without(Picked(items, at), n - 1) == Picked(items, rest);
      var from, to := Orderings(rest), Orderings(Picked(items, rest));
      var before := UpTo(at, n - 1);
      forall k | 0 <= k < |from|
        ensures Inside([at[n - 1]] + from[k], |items|)
        ensures Picked(items, [at[n - 1]] + from[k]) == [items[at[n - 1]]] + to[k]
      {
        assert Inside(from[k], |items|);
      }
      forall k | 0 <= k < |UpTo(at, n)|
        ensures Inside(UpTo(at, n)[k], |items|)
        ensures UpTo(Picked(items, at), n)[k] == Picked(items, UpTo(at, n)[k])
      {
        if k >= |before| {
          assert UpTo(at, n)[k] == [at[n - 1]] + from[k - |before|];
        }
      }
    }
  }

  lemma {:induction false} PickedOrderings<T>(items: seq<T>, at: seq<int>)
    requires Inside(at, |items|)
    ensures Within(Orderings(at), |items|) && |Orderings(Picked(items, at))| == |Orderings(at)|
    ensures forall k :: 0 <= k < |Orderings(at)| ==> Orderings(Picked(items, at))[k] == Picked(items, Orderings(at)[k])
    decreases |at|, |at| + 1
  {
    if |at| > 1 {
      PickedUpTo(items, at, |at|);
    }
  }

  // The k-th ordering is picked by the k-th list of positions, and those lists come in
  // strictly ascending lexicographic order.
  lemma LexicographicByPosition<T>(items: seq<T>)
    ensures var orders := Orderings(Positions(|items|));
            InOrder(orders) && Within(orders, |items|) && |Orderings(items)| == |orders| &&
            forall k :: 0 <= k < |orders| ==> Orderings(items)[k] == Picked(items, orders[k])
  {
    var at := Positions(|items|);
    Lexicographic(at);
    PickedOrderings(items, at);
    assert Picked(items, at) == items;
  }

  ghost predicate Distinct<T>(s: seq<T>) { forall i, j :: 0 <= i < j < |s| ==> s[i] != s[j] }

  lemma {:induction false} LessIsStrict(a: seq<int>)
    ensures !Less(a, a)
  {
    if a != [] {
      LessIsStrict(a[1..]);
    }
  }

  // Distinct items: no ordering occurs twice.
  lemma NoOrderingTwice<T>(items: seq<T>)
    requires Distinct(items)
    ensures Distinct(Orderings(items))
  {
    LexicographicByPosition(items);
    var all, orders := Orderings(items), Orderings(Positions(|items|));
    forall i, j | 0 <= i < j < |all|
      ensures all[i] != all[j]
    {
      if all[i] == all[j] {
        assert Inside(orders[i], |items|) && Inside(orders[j], |items|);
        SamePick(items, orders[i], orders[j]);
        LessIsStrict(orders[i]);
      }
    }
  }

  lemma SamePick<T>(items: seq<T>, a: seq<int>, b: seq<int>)
    requires Distinct(items) && Inside(a, |items|) && Inside(b, |items|) && Picked(items, a) == Picked(items, b)
    ensures a == b
  {
    assert |Picked(items, a)| == |a| && |Picked(items, b)| == |b|;
    forall i | 0 <= i < |a|
      ensures a[i] == b[i]
    {
      assert Picked(items, a)[i] == Picked(items, b)[i];
    }
  }
}
