/** Sequences without repetition, and what permutation leaves alone. */
module Lists {

  ghost predicate Distinct<T>(s: seq<T>) {
    forall i, j | 0 <= i < j < |s| :: s[i] != s[j]
  }

  function Map<T, R>(f: T -> R, s: seq<T>): (r: seq<R>)
    ensures |r| == |s| && forall i | 0 <= i < |s| :: r[i] == f(s[i])
  {
    seq(|s|, i requires 0 <= i < |s| => f(s[i]))
  }

  function Elements<T>(s: seq<T>): set<T> {
    set x | x in s
  }

  lemma DistinctAppended<T>(s: seq<T>, x: T)
    ensures Distinct(s + [x]) <==> Distinct(s) && x !in s
  {
    if Distinct(s + [x]) {
      assert forall i | 0 <= i < |s| :: (s + [x])[i] == s[i] && s[i] != (s + [x])[|s|];
    }
  }

  lemma {:induction false} DistinctIsMultiplicity<T>(s: seq<T>)
    ensures Distinct(s) <==> forall x :: multiset(s)[x] <= 1
  {
    hide Distinct;
    if s == [] {
      EmptyIsDistinct<T>();
    } else {
      var init, last := s[..|s| - 1], s[|s| - 1];
      assert s == init + [last];
      DistinctIsMultiplicity(init);
      DistinctAppended(init, last);
      assert multiset(s) == multiset(init) + multiset{last};
      assert last in init <==> multiset(init)[last] >= 1;
      assert multiset(s)[last] == multiset(init)[last] + 1;
      assert forall x :: multiset(init)[x] <= multiset(s)[x];
    }
  }

  lemma EmptyIsDistinct<T>()
    ensures Distinct<T>([])
  {
  }

  lemma DistinctPermuted<T>(a: seq<T>, b: seq<T>)
    requires multiset(a) == multiset(b)
    ensures Distinct(a) <==> Distinct(b)
    ensures |a| == |b|
    ensures forall x :: x in a <==> x in b
  {
    DistinctIsMultiplicity(a);
    DistinctIsMultiplicity(b);
    assert forall x :: x in a <==> x in multiset(a);
    assert forall x :: x in b <==> x in multiset(b);
    assert |a| == |multiset(a)| && |b| == |multiset(b)|;
  }

  function Without<T>(s: seq<T>, j: nat): seq<T>
    requires j < |s|
  {
    s[..j] + s[j + 1..]
  }

  lemma Removed<T>(s: seq<T>, j: nat)
    requires j < |s|
    ensures multiset(s) == multiset(Without(s, j)) + multiset{s[j]}
    ensures multiset(Without(s, j)) == multiset(s) - multiset{s[j]}
  {
    assert s == s[..j] + [s[j]] + s[j + 1..];
  }

  lemma MapWithout<T, R>(f: T -> R, s: seq<T>, j: nat)
    requires j < |s|
    ensures Map(f, Without(s, j)) == Without(Map(f, s), j)
  {
  }

  lemma {:induction false} MapPermuted<T, R>(f: T -> R, a: seq<T>, b: seq<T>)
    requires multiset(a) == multiset(b)
    ensures multiset(Map(f, a)) == multiset(Map(f, b))
    decreases |a|
  {
    assert |multiset(a)| == |multiset(b)|;
    if a == [] {
      assert Map(f, a) == Map(f, b);
    } else {
      var i, last := |a| - 1, a[|a| - 1];
      assert last in multiset(b);
      var j :| 0 <= j < |b| && b[j] == last;
      Removed(a, i);
      Removed(b, j);
      MapPermuted(f, Without(a, i), Without(b, j));
      Removed(Map(f, a), i);
      Removed(Map(f, b), j);
      MapWithout(f, a, i);
      MapWithout(f, b, j);
      hide Without, Map;
    }
  }

  /** A sequence without repetition is as long as its set of elements is large. */
  lemma {:induction false} DistinctCounts<T>(s: seq<T>)
    requires Distinct(s)
    ensures |Elements(s)| == |s|
  {
    if s != [] {
      var init, last := s[..|s| - 1], s[|s| - 1];
      DistinctCounts(init);
      assert s == init + [last] && last !in init;
      assert Elements(s) == Elements(init) + {last};
    }
  }

  /** The pigeonhole: a subset of equal size is the whole set. */
  lemma {:induction false} SubsetOfEqualSize<T>(a: set<T>, b: set<T>)
    requires a <= b && |a| == |b|
    ensures a == b
  {
    assert b == a + (b - a);
    assert |b| == |a| + |b - a|;
  }
}
