/** Sequence operations behind the array methods the finance code leans on:
    `filter`, `map` and `findIndex`. Every one is a function of values; the
    finance modules name the predicates they filter by. */
module SeqOps {

  /** `Array.prototype.filter`: the elements that satisfy `p`, in their order.
      Written from the end of the sequence, as a left-to-right scan that pushes. */
  function Filter<T>(s: seq<T>, p: T -> bool): (r: seq<T>)
    ensures |r| <= |s|
  {
    if s == [] then []
    else
      var init := Filter(s[..|s| - 1], p);
      assert s == s[..|s| - 1] + [s[|s| - 1]];
      if p(s[|s| - 1]) then init + [s[|s| - 1]] else init
  }

  /** What filtering keeps: every kept element is from `s` and satisfies
      `p`, and every element of `s` that satisfies `p` is kept. */
  lemma {:induction false} FilterMembers<T>(s: seq<T>, p: T -> bool)
    ensures forall i :: 0 <= i < |Filter(s, p)| ==> Filter(s, p)[i] in s && p(Filter(s, p)[i])
    ensures forall i :: 0 <= i < |s| && p(s[i]) ==> s[i] in Filter(s, p)
  {
    if s != [] {
      var init, last := s[..|s| - 1], s[|s| - 1];
      FilterMembers(init, p);
      assert s == init + [last];
      var r := Filter(s, p);
      forall i | 0 <= i < |r|
        ensures r[i] in s && p(r[i])
      {
        if i < |Filter(init, p)| {
          assert r[i] == Filter(init, p)[i];
        }
      }
      forall i | 0 <= i < |s| && p(s[i])
        ensures s[i] in r
      {
        if i < |init| {
          assert s[i] == init[i];
          var k :| 0 <= k < |Filter(init, p)| && Filter(init, p)[k] == s[i];
          assert r[k] == s[i];
        } else {
          assert r[|r| - 1] == last;
        }
      }
    }
  }

  /** Filtering takes each element at most as often as it occurs: the
      result is a sub-multiset of the input. */
  lemma {:induction false} FilterSubMultiset<T>(s: seq<T>, p: T -> bool)
    ensures multiset(Filter(s, p)) <= multiset(s)
  {
    if s != [] {
      var init := s[..|s| - 1];
      FilterSubMultiset(init, p);
      assert s == init + [s[|s| - 1]];
    }
  }

  /** `Array.prototype.map`: `f` applied to every element, in order. */
  function Map<T, U>(s: seq<T>, f: T -> U): (r: seq<U>)
    ensures |r| == |s|
    ensures forall i :: 0 <= i < |s| ==> r[i] == f(s[i])
  {
    if s == [] then [] else Map(s[..|s| - 1], f) + [f(s[|s| - 1])]
  }

  /** `Array.prototype.findIndex`: the first index whose element satisfies `p`,
      or -1 when there is none. */
  function FirstIndex<T>(s: seq<T>, p: T -> bool): (r: int)
    ensures -1 <= r < |s|
    ensures r == -1 <==> forall i :: 0 <= i < |s| ==> !p(s[i])
    ensures r != -1 ==> p(s[r]) && forall j :: 0 <= j < r ==> !p(s[j])
  {
    if s == [] then -1
    else if p(s[0]) then 0
    else
      var k := FirstIndex(s[1..], p);
      assert forall i :: 1 <= i < |s| ==> s[i] == s[1..][i - 1];
      if k == -1 then -1 else k + 1
  }

  /** Filtering distributes over concatenation: the kept elements of `a`
      come first, in order, then those of `b`. */
  lemma {:induction false} FilterAppend<T>(a: seq<T>, b: seq<T>, p: T -> bool)
    ensures Filter(a + b, p) == Filter(a, p) + Filter(b, p)
  {
    if b == [] {
      assert a + b == a;
    } else {
      var b' := b[..|b| - 1];
      assert (a + b)[..|a + b| - 1] == a + b';
      assert (a + b)[|a + b| - 1] == b[|b| - 1];
      FilterAppend(a, b', p);
    }
  }

  /** Filtering a list with one more element at the front. */
  lemma FilterCons<T>(a: T, s: seq<T>, p: T -> bool)
    ensures Filter([a] + s, p) == (if p(a) then [a] else []) + Filter(s, p)
  {
    FilterAppend([a], s, p);
    assert Filter([a], p) == Filter([], p) + (if p(a) then [a] else []);
  }

  /** Filtering with a predicate that holds of every element changes nothing. */
  lemma {:induction false} FilterKeepsAll<T>(s: seq<T>, p: T -> bool)
    requires forall i :: 0 <= i < |s| ==> p(s[i])
    ensures Filter(s, p) == s
  {
    if s != [] {
      FilterKeepsAll(s[..|s| - 1], p);
      assert s == s[..|s| - 1] + [s[|s| - 1]];
    }
  }

  /** Filtering with a predicate that holds of no element leaves nothing. */
  lemma {:induction false} FilterDropsAll<T>(s: seq<T>, p: T -> bool)
    requires forall i :: 0 <= i < |s| ==> !p(s[i])
    ensures Filter(s, p) == []
  {
    if s != [] {
      FilterDropsAll(s[..|s| - 1], p);
    }
  }

  /** Two filters in a row are one filter by the conjunction `pq`. */
  lemma {:induction false} FilterFilter<T>(s: seq<T>, p: T -> bool, q: T -> bool, pq: T -> bool)
    requires forall x :: pq(x) == (p(x) && q(x))
    ensures Filter(Filter(s, p), q) == Filter(s, pq)
  {
    if s != [] {
      var init := s[..|s| - 1];
      var x := s[|s| - 1];
      FilterFilter(init, p, q, pq);
      if p(x) {
        FilterAppend(Filter(init, p), [x], q);
      }
    }
  }

  /** The order of two filters does not matter. */
  lemma FilterCommutes<T>(s: seq<T>, p: T -> bool, q: T -> bool)
    ensures Filter(Filter(s, p), q) == Filter(Filter(s, q), p)
  {
    var pq := x => p(x) && q(x);
    FilterFilter(s, p, q, pq);
    FilterFilter(s, q, p, pq);
  }

  /** Filtering a mapped sequence is mapping a filtered one, with the
      predicate `pf` that tests an element through `f`. */
  lemma {:induction false} FilterMap<T, U>(s: seq<T>, f: T -> U, q: U -> bool, pf: T -> bool)
    requires forall x :: pf(x) == q(f(x))
    ensures Filter(Map(s, f), q) == Map(Filter(s, pf), f)
  {
    if s != [] {
      var init := s[..|s| - 1];
      var x := s[|s| - 1];
      FilterMap(init, f, q, pf);
      assert Map(s, f)[..|s| - 1] == Map(init, f);
      if pf(x) {
        assert Map(Filter(init, pf) + [x], f) == Map(Filter(init, pf), f) + [f(x)];
      }
    }
  }

  /** Two functions that agree on every value map alike. */
  lemma MapSameFunction<T, U>(s: seq<T>, f: T -> U, g: T -> U)
    requires forall i :: 0 <= i < |s| ==> f(s[i]) == g(s[i])
    ensures Map(s, f) == Map(s, g)
  {
  }
}
