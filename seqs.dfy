/** Sequence helpers: filtering, removal of every occurrence, repetition. */
module Seqs {

  /** The elements of `s` that satisfy `p`, in their original order. */
  function Filter<T>(p: T -> bool, s: seq<T>): (r: seq<T>)
    ensures |r| <= |s|
  {
    if s == [] then []
    else Filter(p, s[..|s| - 1]) + (if p(s[|s| - 1]) then [s[|s| - 1]] else [])
  }

  /** The filtered elements are exactly the elements of `s` that satisfy `p`. */
  lemma {:induction false} FilterMembers<T>(p: T -> bool, s: seq<T>)
    ensures forall k :: 0 <= k < |Filter(p, s)| ==> Filter(p, s)[k] in s && p(Filter(p, s)[k])
    ensures forall k :: 0 <= k < |s| && p(s[k]) ==> s[k] in Filter(p, s)
    decreases |s|
  {
    if s != [] {
      var init := s[..|s| - 1];
      FilterMembers(p, init);
      assert s == init + [s[|s| - 1]];
    }
  }

  lemma FilterSnoc<T>(p: T -> bool, s: seq<T>, x: T)
    ensures Filter(p, s + [x]) == Filter(p, s) + (if p(x) then [x] else [])
  {
    assert (s + [x])[..|s|] == s;
  }

  lemma {:induction false} FilterConcat<T>(p: T -> bool, a: seq<T>, b: seq<T>)
    ensures Filter(p, a + b) == Filter(p, a) + Filter(p, b)
    decreases |b|
  {
    if b != [] {
      var b' := b[..|b| - 1];
      assert a + b == (a + b') + [b[|b| - 1]];
      assert b == b' + [b[|b| - 1]];
      FilterSnoc(p, a + b', b[|b| - 1]);
      FilterSnoc(p, b', b[|b| - 1]);
      FilterConcat(p, a, b');
    } else {
      assert a + b == a;
    }
  }

  lemma {:induction false} FilterAll<T>(p: T -> bool, s: seq<T>)
    requires forall k :: 0 <= k < |s| ==> p(s[k])
    ensures Filter(p, s) == s
    decreases |s|
  {
    if s != [] {
      FilterAll(p, s[..|s| - 1]);
    }
  }

  lemma {:induction false} FilterNone<T>(p: T -> bool, s: seq<T>)
    requires forall k :: 0 <= k < |s| ==> !p(s[k])
    ensures Filter(p, s) == []
    decreases |s|
  {
    if s != [] {
      FilterNone(p, s[..|s| - 1]);
    }
  }

  /** Filtering by a stronger predicate makes a prior filter by a weaker one redundant. */
  lemma {:induction false} FilterFilter<T>(p: T -> bool, q: T -> bool, s: seq<T>)
    requires forall x :: p(x) ==> q(x)
    ensures Filter(p, Filter(q, s)) == Filter(p, s)
    decreases |s|
  {
    if s != [] {
      var s' := s[..|s| - 1];
      var x := s[|s| - 1];
      FilterFilter(p, q, s');
      assert s == s' + [x];
      FilterSnoc(q, s', x);
      FilterSnoc(p, s', x);
      if q(x) {
        FilterSnoc(p, Filter(q, s'), x);
        assert Filter(p, Filter(q, s)) == Filter(p, Filter(q, s')) + (if p(x) then [x] else []);
      } else {
        assert !p(x);
        assert Filter(q, s) == Filter(q, s');
      }
    }
  }

  /** `s` without any occurrence of `x` (the order of the rest is kept). */
  function Remove<T(==)>(s: seq<T>, x: T): (r: seq<T>)
    ensures x !in r
    ensures |r| <= |s|
  {
    if s == [] then []
    else Remove(s[..|s| - 1], x) + (if s[|s| - 1] != x then [s[|s| - 1]] else [])
  }

  /** What remains is exactly the elements of `s` other than `x`. */
  lemma {:induction false} RemoveMembers<T>(s: seq<T>, x: T)
    ensures forall k :: 0 <= k < |Remove(s, x)| ==> Remove(s, x)[k] in s
    ensures forall k :: 0 <= k < |s| && s[k] != x ==> s[k] in Remove(s, x)
    decreases |s|
  {
    if s != [] {
      var init := s[..|s| - 1];
      RemoveMembers(init, x);
      assert s == init + [s[|s| - 1]];
    }
  }

  lemma {:induction false} RemoveAbsent<T>(s: seq<T>, x: T)
    requires x !in s
    ensures Remove(s, x) == s
    decreases |s|
  {
    if s != [] {
      RemoveAbsent(s[..|s| - 1], x);
      assert s == s[..|s| - 1] + [s[|s| - 1]];
    }
  }

  /** Removing `x` drops all its occurrences and keeps the count of every other value. */
  lemma {:induction false} RemoveCount<T>(s: seq<T>, x: T, y: T)
    ensures multiset(Remove(s, x))[y] == if y == x then 0 else multiset(s)[y]
    decreases |s|
  {
    if s != [] {
      var init := s[..|s| - 1];
      RemoveCount(init, x, y);
      assert s == init + [s[|s| - 1]];
    }
  }

  lemma RemoveSnocSame<T>(s: seq<T>, x: T)
    ensures Remove(s + [x], x) == Remove(s, x)
  {
    assert (s + [x])[..|s|] == s;
  }

  /** `n` copies of `x`. */
  function Repeat<T>(x: T, n: nat): (r: seq<T>)
    ensures |r| == n
    ensures forall k :: 0 <= k < n ==> r[k] == x
  {
    if n == 0 then [] else Repeat(x, n - 1) + [x]
  }

  ghost predicate Distinct<T>(s: seq<T>)
  {
    forall i, j :: 0 <= i < j < |s| ==> s[i] != s[j]
  }

  lemma DistinctSnoc<T>(s: seq<T>, x: T)
    requires Distinct(s) && x !in s
    ensures Distinct(s + [x])
  {
    var r := s + [x];
    forall i, j | 0 <= i < j < |r|
      ensures r[i] != r[j]
    {
      if j < |s| {
        assert r[i] == s[i] && r[j] == s[j];
      } else {
        assert r[i] == s[i];
      }
    }
  }

  /** Every element is at most the next one. */
  ghost predicate NonDecreasing(s: seq<int>)
  {
    forall i, j :: 0 <= i < j < |s| ==> s[i] <= s[j]
  }
}
