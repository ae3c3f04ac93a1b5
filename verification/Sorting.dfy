/** Arranging a sequence by a measure, and when there is only one way to do it. */
module Sorting {
  import opened Lists

  ghost predicate Ascending<T>(v: T -> int, s: seq<T>) {
    forall i, j | 0 <= i < j < |s| :: v(s[i]) <= v(s[j])
  }

  ghost predicate Increasing<T>(v: T -> int, s: seq<T>) {
    forall i, j | 0 <= i < j < |s| :: v(s[i]) < v(s[j])
  }

  // ---------- sorting ----------

  /** Insertion that puts the newcomer before its equals. */
  function InsertBefore<T>(v: T -> int, x: T, s: seq<T>): seq<T> {
    if s == [] || v(x) <= v(s[0]) then [x] + s else [s[0]] + InsertBefore(v, x, s[1..])
  }

  /** In ascending order; of equals, the later one first. */
  function Arrange<T>(v: T -> int, s: seq<T>): seq<T> {
    if s == [] then [] else InsertBefore(v, s[|s| - 1], Arrange(v, s[..|s| - 1]))
  }

  lemma Prepended<T>(v: T -> int, x: T, rest: seq<T>)
    requires Ascending(v, rest) && forall y | y in rest :: v(x) <= v(y)
    ensures Ascending(v, [x] + rest)
  {
    var s := [x] + rest;
    forall i, j | 0 <= i < j < |s| ensures v(s[i]) <= v(s[j]) {
      assert s[j] == rest[j - 1] && rest[j - 1] in rest;
    }
  }

  lemma TailAscends<T>(v: T -> int, s: seq<T>)
    requires Ascending(v, s) && s != []
    ensures Ascending(v, s[1..])
    ensures forall y | y in s :: v(s[0]) <= v(y)
  {
  }

  lemma HeadAndTail<T>(s: seq<T>)
    requires s != []
    ensures multiset(s) == multiset{s[0]} + multiset(s[1..])
  {
    assert s == [s[0]] + s[1..];
  }

  lemma InitAndLast<T>(s: seq<T>)
    requires s != []
    ensures multiset(s) == multiset(s[..|s| - 1]) + multiset{s[|s| - 1]}
  {
    assert s == s[..|s| - 1] + [s[|s| - 1]];
  }

  lemma {:induction false} InsertedOnce<T>(v: T -> int, x: T, s: seq<T>)
    ensures multiset(InsertBefore(v, x, s)) == multiset(s) + multiset{x}
  {
    if s != [] && v(x) > v(s[0]) {
      InsertedOnce(v, x, s[1..]);
      HeadAndTail(s);
      assert multiset([s[0]] + InsertBefore(v, x, s[1..])) == multiset{s[0]} + multiset(InsertBefore(v, x, s[1..]));
    }
  }

  lemma {:induction false} InsertedAscends<T>(v: T -> int, x: T, s: seq<T>)
    requires Ascending(v, s)
    ensures Ascending(v, InsertBefore(v, x, s))
  {
    if s != [] {
      TailAscends(v, s);
      hide Ascending;
      if v(x) <= v(s[0]) {
        Prepended(v, x, s);
      } else {
        var rest := InsertBefore(v, x, s[1..]);
        assert InsertBefore(v, x, s) == [s[0]] + rest;
        InsertedAscends(v, x, s[1..]);
        InsertedOnce(v, x, s[1..]);
        hide InsertBefore;
        forall y | y in rest ensures v(s[0]) <= v(y) {
          assert y in multiset(rest);
          assert y == x || y in s[1..];
        }
        Prepended(v, s[0], rest);
      }
    }
  }

  lemma {:induction false} Arranged<T>(v: T -> int, s: seq<T>)
    ensures Ascending(v, Arrange(v, s)) && multiset(Arrange(v, s)) == multiset(s)
  {
    if s != [] {
      hide Ascending, InsertBefore;
      var init, last := s[..|s| - 1], s[|s| - 1];
      InitAndLast(s);
      Arranged(v, init);
      InsertedAscends(v, last, Arrange(v, init));
      InsertedOnce(v, last, Arrange(v, init));
    }
  }

  // ---------- one arrangement or several ----------

  lemma LastIsLargest<T>(v: T -> int, a: seq<T>, b: seq<T>)
    requires a != [] && Increasing(v, a) && Ascending(v, b) && multiset(a) == multiset(b)
    ensures b != [] && a[|a| - 1] == b[|b| - 1]
  {
    var x := a[|a| - 1];
    assert x in multiset(b);
    var y := b[|b| - 1];
    assert v(x) <= v(y);
    assert y in multiset(a);
    var i :| 0 <= i < |a| && a[i] == y;
    assert i < |a| - 1 ==> v(a[i]) < v(x);
  }

  lemma InitKeepsOrder<T>(v: T -> int, s: seq<T>)
    requires s != []
    ensures Increasing(v, s) ==> Increasing(v, s[..|s| - 1])
    ensures Ascending(v, s) ==> Ascending(v, s[..|s| - 1])
  {
  }

  /** A sequence whose measures increase is the only ascending arrangement of its elements. */
  lemma {:induction false} OnlyArrangement<T>(v: T -> int, a: seq<T>, b: seq<T>)
    requires Increasing(v, a) && Ascending(v, b) && multiset(a) == multiset(b)
    ensures a == b
    decreases |a|
  {
    hide Increasing, Ascending;
    assert |multiset(a)| == |multiset(b)|;
    if a != [] {
      LastIsLargest(v, a, b);
      InitAndLast(a);
      InitAndLast(b);
      InitKeepsOrder(v, a);
      InitKeepsOrder(v, b);
      assert multiset(a[..|a| - 1]) == multiset(a) - multiset{a[|a| - 1]} == multiset(b[..|b| - 1]);
      OnlyArrangement(v, a[..|a| - 1], b[..|b| - 1]);
      assert a == a[..|a| - 1] + [a[|a| - 1]] && b == b[..|b| - 1] + [b[|b| - 1]];
    }
  }

  /** A newcomer that ends up last is larger than all the others. */
  lemma {:induction false} InsertedLast<T>(v: T -> int, x: T, s: seq<T>)
    requires x !in s && InsertBefore(v, x, s)[|InsertBefore(v, x, s)| - 1] == x
    ensures InsertBefore(v, x, s) == s + [x] && forall y | y in s :: v(y) < v(x)
  {
    if s != [] && v(x) > v(s[0]) {
      var rest := InsertBefore(v, x, s[1..]);
      assert ([s[0]] + rest)[|rest|] == rest[|rest| - 1];
      InsertedLast(v, x, s[1..]);
      assert s == [s[0]] + s[1..];
    }
  }

  lemma LargestIsLast<T>(v: T -> int, init: seq<T>, x: T)
    requires Increasing(v, init) && forall y | y in init :: v(y) < v(x)
    ensures Increasing(v, init + [x])
  {
  }

  lemma InitIsDistinct<T>(s: seq<T>)
    requires Distinct(s) && s != []
    ensures Distinct(s[..|s| - 1]) && s[|s| - 1] !in s[..|s| - 1]
  {
  }

  lemma ArrangedLast<T>(v: T -> int, s: seq<T>)
    requires s != [] && Arrange(v, s) == s && s[|s| - 1] !in s[..|s| - 1]
    ensures Arrange(v, s[..|s| - 1]) == s[..|s| - 1]
    ensures forall y | y in s[..|s| - 1] :: v(y) < v(s[|s| - 1])
  {
    var init, x := s[..|s| - 1], s[|s| - 1];
    var arranged := Arrange(v, init);
    assert s == InsertBefore(v, x, arranged);
    Arranged(v, init);
    assert x !in multiset(arranged);
    hide Ascending, InsertBefore, Arrange;
    InsertedLast(v, x, arranged);
    assert arranged == (arranged + [x])[..|s| - 1];
  }

  /** Without repetition, only an increasing sequence is its own arrangement: ties change places. */
  lemma {:induction false} OwnArrangementIncreases<T>(v: T -> int, s: seq<T>)
    requires Distinct(s) && Arrange(v, s) == s
    ensures Increasing(v, s)
  {
    if s != [] {
      hide Increasing, Distinct, Arrange;
      InitIsDistinct(s);
      ArrangedLast(v, s);
      OwnArrangementIncreases(v, s[..|s| - 1]);
      LargestIsLast(v, s[..|s| - 1], s[|s| - 1]);
      assert s == s[..|s| - 1] + [s[|s| - 1]];
    }
  }
}
