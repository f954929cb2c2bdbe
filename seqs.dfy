/** Sequence utilities shared by the ledger views: the `Array.prototype.filter`
    and the summing `reduce` that the components apply to transaction lists. */
module Seqs {

  /** The elements of `s` that satisfy `p`, in their original order. */
  function Filter<T>(s: seq<T>, p: T -> bool): (r: seq<T>)
    ensures |r| <= |s|
  {
    if s == [] then [] else (if p(s[0]) then [s[0]] else []) + Filter(s[1..], p)
  }

  /** Exactly the elements of `s` that satisfy `p` survive the filter. */
  lemma {:induction false} FilterMembers<T>(s: seq<T>, p: T -> bool)
    ensures forall i :: 0 <= i < |Filter(s, p)| ==> Filter(s, p)[i] in s && p(Filter(s, p)[i])
    ensures forall i :: 0 <= i < |s| && p(s[i]) ==> s[i] in Filter(s, p)
  {
    if s != [] {
      FilterMembers(s[1..], p);
      assert forall i :: 1 <= i < |s| ==> s[i] == s[1..][i - 1];
    }
  }

  /** The sum of `f` over `s` (a `reduce((acc, x) => acc + f(x), 0)`). */
  function Sum<T>(s: seq<T>, f: T -> real): real
  {
    if s == [] then 0.0 else f(s[0]) + Sum(s[1..], f)
  }

  /** Filtering distributes over concatenation, so it keeps relative order. */
  lemma {:induction false} FilterConcat<T>(a: seq<T>, b: seq<T>, p: T -> bool)
    ensures Filter(a + b, p) == Filter(a, p) + Filter(b, p)
  {
    if a == [] {
      assert a + b == b;
    } else {
      var head := if p(a[0]) then [a[0]] else [];
      assert (a + b)[0] == a[0];
      assert (a + b)[1..] == a[1..] + b;
      FilterConcat(a[1..], b, p);
      calc {
        Filter(a + b, p);
        head + Filter(a[1..] + b, p);
        head + (Filter(a[1..], p) + Filter(b, p));
        (head + Filter(a[1..], p)) + Filter(b, p);
        Filter(a, p) + Filter(b, p);
      }
    }
  }

  /** When every element passes, filtering returns the sequence itself. */
  lemma {:induction false} FilterAllPass<T>(s: seq<T>, p: T -> bool)
    requires forall i :: 0 <= i < |s| ==> p(s[i])
    ensures Filter(s, p) == s
  {
    if s != [] {
      FilterAllPass(s[1..], p);
    }
  }

  /** Filtering twice with the same predicate is filtering once. */
  lemma FilterIdempotent<T>(s: seq<T>, p: T -> bool)
    ensures Filter(Filter(s, p), p) == Filter(s, p)
  {
    FilterMembers(s, p);
    FilterAllPass(Filter(s, p), p);
  }

  /** A sum over a concatenation is the sum of the sums. */
  lemma {:induction false} SumConcat<T>(a: seq<T>, b: seq<T>, f: T -> real)
    ensures Sum(a + b, f) == Sum(a, f) + Sum(b, f)
  {
    if a == [] {
      assert a + b == b;
    } else {
      assert (a + b)[1..] == a[1..] + b;
      SumConcat(a[1..], b, f);
    }
  }
}
