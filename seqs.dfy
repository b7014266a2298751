/** Array methods the views use (`filter`, `slice`, `reduce`, `new Set`), over `seq`. */
module Seqs {

  /** `a` is obtained from `b` by deleting elements: order is kept. */
  predicate IsSubseq<T(==)>(a: seq<T>, b: seq<T>)
    decreases |b|
  {
    if a == [] then true
    else if b == [] then false
    else if a[0] == b[0] then IsSubseq(a[1..], b[1..])
    else IsSubseq(a, b[1..])
  }

  /** Every sequence is a subsequence of itself. */
  lemma {:induction false} SubseqRefl<T>(s: seq<T>)
    ensures IsSubseq(s, s)
  {
    if s != [] {
      SubseqRefl(s[1..]);
    }
  }

  /** `s.filter(p)` */
  function Filter<T(==)>(s: seq<T>, p: T -> bool): (r: seq<T>)
    ensures |r| <= |s|
    ensures forall i :: 0 <= i < |r| ==> r[i] in s && p(r[i])
    ensures forall i :: 0 <= i < |s| && p(s[i]) ==> s[i] in r
  {
    if s == [] then []
    else if p(s[0]) then [s[0]] + Filter(s[1..], p)
    else Filter(s[1..], p)
  }

  /** Filtering keeps the survivors in their original order. */
  lemma {:induction false} FilterIsSubseq<T>(s: seq<T>, p: T -> bool)
    ensures IsSubseq(Filter(s, p), s)
  {
    if s != [] {
      FilterIsSubseq(s[1..], p);
      var r := Filter(s, p);
      if !p(s[0]) && r != [] {
        assert p(r[0]);
      }
    }
  }

  /** Filtering distributes over concatenation. */
  lemma {:induction false} FilterAppend<T>(a: seq<T>, b: seq<T>, p: T -> bool)
    ensures Filter(a + b, p) == Filter(a, p) + Filter(b, p)
  {
    if a == [] {
      assert a + b == b;
    } else {
      assert (a + b)[0] == a[0];
      assert (a + b)[1..] == a[1..] + b;
      FilterAppend(a[1..], b, p);
    }
  }

  /** A filter that keeps everything returns its input. */
  lemma {:induction false} FilterAll<T>(s: seq<T>, p: T -> bool)
    requires forall x :: x in s ==> p(x)
    ensures Filter(s, p) == s
  {
    if s != [] {
      FilterAll(s[1..], p);
    }
  }

  /** Predicates that agree on the elements filter alike. */
  lemma {:induction false} FilterCongruent<T>(s: seq<T>, p: T -> bool, q: T -> bool)
    requires forall i :: 0 <= i < |s| ==> p(s[i]) == q(s[i])
    ensures Filter(s, p) == Filter(s, q)
  {
    if s != [] {
      FilterCongruent(s[1..], p, q);
    }
  }

  /** Filtering twice by the same predicate is filtering once. */
  lemma FilterIdempotent<T>(s: seq<T>, p: T -> bool)
    ensures Filter(Filter(s, p), p) == Filter(s, p)
  {
    FilterAll(Filter(s, p), p);
  }

  /** `s.filter(p).length` */
  function Count<T(==)>(s: seq<T>, p: T -> bool): (n: nat)
    ensures n <= |s|
  {
    |Filter(s, p)|
  }

  /** Three predicates no element satisfies twice count at most the whole sequence. */
  lemma {:induction false} CountDisjoint<T>(s: seq<T>, p: T -> bool, q: T -> bool, u: T -> bool)
    requires forall x :: x in s ==> (p(x) ==> !q(x) && !u(x)) && (q(x) ==> !u(x))
    ensures Count(s, p) + Count(s, q) + Count(s, u) <= |s|
  {
    if s != [] {
      CountDisjoint(s[1..], p, q, u);
    }
  }

  /** `s.slice(0, n)` for n >= 0 */
  function Take<T>(s: seq<T>, n: nat): (r: seq<T>)
    ensures |r| == if n < |s| then n else |s|
    ensures r == s[..|r|]
  {
    if n < |s| then s[..n] else s
  }

  /** `s.reduce((acc, x) => acc + f(x), 0)` */
  function Sum<T>(s: seq<T>, f: T -> real): real {
    if s == [] then 0.0 else f(s[0]) + Sum(s[1..], f)
  }

  lemma {:induction false} SumAppend<T>(a: seq<T>, b: seq<T>, f: T -> real)
    ensures Sum(a + b, f) == Sum(a, f) + Sum(b, f)
  {
    if a != [] {
      assert (a + b)[0] == a[0];
      assert (a + b)[1..] == a[1..] + b;
      SumAppend(a[1..], b, f);
      assert Sum(a + b, f) == f(a[0]) + Sum(a[1..] + b, f);
    } else {
      assert a + b == b;
    }
  }

  /** Index of the first occurrence of `x`. */
  function FirstIndex<T(==)>(s: seq<T>, x: T): (i: nat)
    requires x in s
    ensures i < |s| && s[i] == x && x !in s[..i]
  {
    if s[0] == x then 0 else 1 + FirstIndex(s[1..], x)
  }

  /** No element occurs twice. */
  predicate Distinct<T(==)>(s: seq<T>) {
    forall i, j :: 0 <= i < j < |s| ==> s[i] != s[j]
  }

  /** `[...new Set(s)]`: each element once, at its first occurrence. */
  function Dedup<T(==)>(s: seq<T>): (r: seq<T>)
    ensures Distinct(r)
    ensures forall i :: 0 <= i < |r| ==> r[i] in s
    ensures forall i :: 0 <= i < |s| ==> s[i] in r
  {
    if s == [] then []
    else
      var r := Dedup(s[..|s| - 1]);
      assert forall i :: 0 <= i < |s| - 1 ==> s[i] == s[..|s| - 1][i];
      if s[|s| - 1] in r then r else r + [s[|s| - 1]]
  }

  /** Appending an element does not move an earlier first occurrence. */
  lemma {:induction false} FirstIndexPrefix<T>(s: seq<T>, x: T)
    requires s != [] && x in s[..|s| - 1]
    ensures FirstIndex(s, x) == FirstIndex(s[..|s| - 1], x)
  {
    if s[0] != x {
      assert s[1..][..|s[1..]| - 1] == s[..|s| - 1][1..];
      FirstIndexPrefix(s[1..], x);
    }
  }

  /** The de-duplicated sequence lists elements in the order of their first occurrence. */
  lemma {:induction false} DedupKeepsFirstOccurrenceOrder<T>(s: seq<T>)
    ensures forall i, j :: 0 <= i < j < |Dedup(s)| ==> FirstIndex(s, Dedup(s)[i]) < FirstIndex(s, Dedup(s)[j])
  {
    if s != [] {
      var init := s[..|s| - 1];
      var last := s[|s| - 1];
      var r := Dedup(init);
      DedupKeepsFirstOccurrenceOrder(init);
      forall x | x in r ensures FirstIndex(s, x) == FirstIndex(init, x) {
        FirstIndexPrefix(s, x);
      }
      if last !in r {
        assert last !in init;
        assert FirstIndex(s, last) == |s| - 1;
        assert Dedup(s) == r + [last];
      }
    }
  }
}
