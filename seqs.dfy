/** Sequence filtering, the model of `Array.prototype.filter`, which the
    handler uses for tags, companies, locations, devices and alerts. */
module Seqs {

  /** The elements of `s` that satisfy `p`, in their original order. */
  function Filter<T>(s: seq<T>, p: T -> bool): (r: seq<T>)
    ensures |r| <= |s|
    ensures forall x :: x in r ==> x in s && p(x)
    ensures forall x :: x in s && p(x) ==> x in r
  {
    if s == [] then [] else (if p(s[0]) then [s[0]] else []) + Filter(s[1..], p)
  }

  /** Filtering distributes over concatenation. */
  lemma {:induction false} FilterAppend<T>(a: seq<T>, b: seq<T>, p: T -> bool)
    ensures Filter(a + b, p) == Filter(a, p) + Filter(b, p)
  {
    if a == [] {
      assert a + b == b;
    } else {
      assert (a + b)[1..] == a[1..] + b;
      FilterAppend(a[1..], b, p);
    }
  }

  /** Filtering a prefix one element longer appends that element when it passes. */
  lemma FilterSnoc<T>(s: seq<T>, i: nat, p: T -> bool)
    requires i < |s|
    ensures Filter(s[..i + 1], p) == Filter(s[..i], p) + (if p(s[i]) then [s[i]] else [])
  {
    assert s[..i + 1] == s[..i] + [s[i]];
    FilterAppend(s[..i], [s[i]], p);
    assert Filter([s[i]], p) == (if p(s[i]) then [s[i]] else []) + Filter([s[i]][1..], p);
  }

  /** An element that passes `p` sits in the filtered sequence at the position
      given by the number of passing elements before it. */
  lemma FilterPick<T>(s: seq<T>, p: T -> bool, j: nat)
    requires j < |s| && p(s[j])
    ensures |Filter(s[..j], p)| < |Filter(s, p)|
    ensures Filter(s, p)[|Filter(s[..j], p)|] == s[j]
  {
    assert s == s[..j] + s[j..];
    FilterAppend(s[..j], s[j..], p);
    assert Filter(s[j..], p) == [s[j]] + Filter(s[j..][1..], p);
  }

  /** Nothing passes, nothing is kept. */
  lemma {:induction false} FilterNone<T>(s: seq<T>, p: T -> bool)
    requires forall i :: 0 <= i < |s| ==> !p(s[i])
    ensures Filter(s, p) == []
  {
    if s != [] {
      FilterNone(s[1..], p);
    }
  }

  /** A filter that every element passes keeps the sequence. */
  lemma {:induction false} FilterAllKept<T>(s: seq<T>, p: T -> bool)
    requires forall x :: x in s ==> p(x)
    ensures Filter(s, p) == s
  {
    if s != [] {
      assert forall x :: x in s[1..] ==> x in s;
      FilterAllKept(s[1..], p);
    }
  }

  /** The first element of the filtered sequence is the first element of `s` that passes. */
  lemma FilterFirst<T>(s: seq<T>, p: T -> bool, j: nat)
    requires j < |s| && p(s[j])
    requires forall i :: 0 <= i < j ==> !p(s[i])
    ensures Filter(s, p) != [] && Filter(s, p)[0] == s[j]
  {
    FilterNone(s[..j], p);
    FilterPick(s, p, j);
  }

  /** Every element of the filtered sequence comes from a position of `s`
      with exactly as many passing elements before it as its own index. */
  lemma {:induction false} FilterSource<T>(s: seq<T>, p: T -> bool, k: nat)
    requires k < |Filter(s, p)|
    ensures exists j :: 0 <= j < |s| && s[j] == Filter(s, p)[k] && p(s[j]) && |Filter(s[..j], p)| == k
  {
    var n := |s| - 1;
    FilterSnoc(s, n, p);
    assert s[..n + 1] == s;
    var before := Filter(s[..n], p);
    if k < |before| {
      FilterSource(s[..n], p, k);
      var j :| 0 <= j < n && s[..n][j] == before[k] && p(s[..n][j]) && |Filter(s[..n][..j], p)| == k;
      assert s[..n][..j] == s[..j];
    } else {
      assert s[n] == Filter(s, p)[k];
    }
  }

  /** When filtering by `p` and then by `q` leaves one element, that element
      passes `q` and is the only element of `s` passing both. */
  lemma FilterTwiceOnly<T>(s: seq<T>, p: T -> bool, q: T -> bool)
    requires |Filter(Filter(s, p), q)| == 1
    ensures q(Filter(Filter(s, p), q)[0])
    ensures forall x :: x in s && p(x) && q(x) ==> x == Filter(Filter(s, p), q)[0]
  {
    var r := Filter(Filter(s, p), q);
    assert r[0] in r;
    forall x | x in s && p(x) && q(x)
      ensures x == r[0]
    {
      assert x in Filter(s, p);
      assert x in r;
    }
  }

  /** Two predicates that agree on every element of `s` filter it alike. */
  lemma {:induction false} FilterExt<T>(s: seq<T>, p: T -> bool, q: T -> bool)
    requires forall x :: x in s ==> p(x) == q(x)
    ensures Filter(s, p) == Filter(s, q)
  {
    if s != [] {
      assert forall x :: x in s[1..] ==> x in s;
      FilterExt(s[1..], p, q);
    }
  }

  /** Filtering twice is filtering once by the conjunction. */
  lemma {:induction false} FilterCompose<T>(s: seq<T>, p: T -> bool, q: T -> bool, pq: T -> bool)
    requires forall x :: x in s ==> pq(x) == (p(x) && q(x))
    ensures Filter(Filter(s, p), q) == Filter(s, pq)
  {
    if s != [] {
      assert forall x :: x in s[1..] ==> x in s;
      FilterCompose(s[1..], p, q, pq);
      var head := if p(s[0]) then [s[0]] else [];
      FilterAppend(head, Filter(s[1..], p), q);
    }
  }

  /** A weaker predicate keeps at least as many elements. */
  lemma {:induction false} FilterCountMono<T>(s: seq<T>, p: T -> bool, q: T -> bool)
    requires forall x :: x in s && p(x) ==> q(x)
    ensures |Filter(s, p)| <= |Filter(s, q)|
  {
    if s != [] {
      assert forall x :: x in s[1..] ==> x in s;
      FilterCountMono(s[1..], p, q);
    }
  }

  /** The results of `f` on the elements of `s`, one after another. */
  function ConcatMap<A, B>(s: seq<A>, f: A -> seq<B>): seq<B>
  {
    if s == [] then [] else ConcatMap(s[..|s| - 1], f) + f(s[|s| - 1])
  }

  /** One element more adds its result at the end. */
  lemma ConcatMapStep<A, B>(s: seq<A>, i: nat, f: A -> seq<B>)
    requires i < |s|
    ensures ConcatMap(s[..i + 1], f) == ConcatMap(s[..i], f) + f(s[i])
  {
    assert s[..i + 1][..i] == s[..i];
  }

  /** Every result of an element is among the results. */
  lemma {:induction false} ConcatMapHas<A, B>(s: seq<A>, k: nat, f: A -> seq<B>)
    requires k < |s|
    ensures forall x :: x in f(s[k]) ==> x in ConcatMap(s, f)
  {
    var n := |s| - 1;
    if k < n {
      ConcatMapHas(s[..n], k, f);
      assert s[..n][k] == s[k];
    }
  }

  /** Every result comes from some element. */
  lemma {:induction false} ConcatMapFrom<A, B>(s: seq<A>, f: A -> seq<B>, x: B)
    requires x in ConcatMap(s, f)
    ensures exists k :: 0 <= k < |s| && x in f(s[k])
  {
    var n := |s| - 1;
    if x !in f(s[n]) {
      ConcatMapFrom(s[..n], f, x);
      var k :| 0 <= k < n && x in f(s[..n][k]);
      assert s[..n][k] == s[k];
    }
  }
}
