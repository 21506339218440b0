/** Array.prototype.filter and Array.prototype.find over sequences, with the
    facts every caller in the model relies on. */
module Seqs {
  import opened Wrappers

  /** `xs.filter(keep)`: the elements satisfying `keep`, in their original order. */
  function Filter<T>(xs: seq<T>, keep: T -> bool): (r: seq<T>)
    ensures |r| <= |xs|
    ensures forall x :: x in r ==> x in xs && keep(x)
    ensures forall x :: x in xs && keep(x) ==> x in r
  {
    if xs == [] then []
    else if keep(xs[0]) then [xs[0]] + Filter(xs[1..], keep)
    else Filter(xs[1..], keep)
  }

  /** `xs.map(f)`: `f` applied to every element, in order. */
  function Map<T, U>(xs: seq<T>, f: T -> U): (r: seq<U>)
    ensures |r| == |xs|
    ensures forall i :: 0 <= i < |xs| ==> r[i] == f(xs[i])
  {
    if xs == [] then [] else [f(xs[0])] + Map(xs[1..], f)
  }

  /** Filtering a concatenation filters each part. */
  lemma {:induction false} FilterAppend<T>(a: seq<T>, b: seq<T>, keep: T -> bool)
    ensures Filter(a + b, keep) == Filter(a, keep) + Filter(b, keep)
  {
    if a != [] {
      assert (a + b)[1..] == a[1..] + b;
      FilterAppend(a[1..], b, keep);
      if keep(a[0]) {
        assert [a[0]] + Filter(a[1..], keep) + Filter(b, keep) == [a[0]] + (Filter(a[1..], keep) + Filter(b, keep));
      }
    } else {
      assert a + b == b;
    }
  }

  /** `a` is obtained from `b` by deleting elements (order preserved). */
  predicate IsSubseq<T(==)>(a: seq<T>, b: seq<T>)
  {
    if a == [] then true
    else if b == [] then false
    else (a[0] == b[0] && IsSubseq(a[1..], b[1..])) || IsSubseq(a, b[1..])
  }

  lemma {:induction false} FilterIsSubseq<T>(xs: seq<T>, keep: T -> bool)
    ensures IsSubseq(Filter(xs, keep), xs)
  {
    if xs != [] {
      FilterIsSubseq(xs[1..], keep);
      var r := Filter(xs, keep);
      if keep(xs[0]) {
        assert r[0] == xs[0] && r[1..] == Filter(xs[1..], keep);
      } else {
        assert r == Filter(xs[1..], keep);
        if r != [] {
          assert IsSubseq(r, xs[1..]);
        }
      }
    }
  }

  /** Keeping everything keeps the sequence as it is. */
  lemma {:induction false} FilterAll<T>(xs: seq<T>, keep: T -> bool)
    requires forall x :: x in xs ==> keep(x)
    ensures Filter(xs, keep) == xs
  {
    if xs != [] {
      FilterAll(xs[1..], keep);
    }
  }

  /** Filtering twice with the same predicate changes nothing the second time. */
  lemma {:induction false} FilterIdempotent<T>(xs: seq<T>, keep: T -> bool)
    ensures Filter(Filter(xs, keep), keep) == Filter(xs, keep)
  {
    FilterAll(Filter(xs, keep), keep);
  }

  /** The conjunction of two tests. */
  function Both<T>(a: T -> bool, b: T -> bool): T -> bool
  {
    (x: T) => a(x) && b(x)
  }

  /** Two `filter` calls in a row keep what passes both tests, in order. */
  lemma {:induction false} FilterFilter<T>(xs: seq<T>, a: T -> bool, b: T -> bool)
    ensures Filter(Filter(xs, a), b) == Filter(xs, Both(a, b))
  {
    if xs != [] {
      FilterFilter(xs[1..], a, b);
      if a(xs[0]) {
        assert Filter(xs, a)[1..] == Filter(xs[1..], a);
      }
    }
  }

  /** `xs.find(test)`: the first element satisfying `test`, if any. */
  function Find<T>(xs: seq<T>, test: T -> bool): (r: Option<T>)
    ensures r.None? <==> forall x :: x in xs ==> !test(x)
    ensures r.Some? ==> r.value in xs && test(r.value)
  {
    if xs == [] then None
    else if test(xs[0]) then Some(xs[0])
    else Find(xs[1..], test)
  }

  /** What `find` returns is the element at the first index that passes. */
  lemma {:induction false} FindIsFirst<T>(xs: seq<T>, test: T -> bool)
    requires Find(xs, test).Some?
    ensures exists i :: 0 <= i < |xs| && xs[i] == Find(xs, test).value
                        && forall j :: 0 <= j < i ==> !test(xs[j])
  {
    if test(xs[0]) {
      assert xs[0] == Find(xs, test).value;
    } else {
      FindIsFirst(xs[1..], test);
      var i :| 0 <= i < |xs[1..]| && xs[1..][i] == Find(xs[1..], test).value
                && forall j :: 0 <= j < i ==> !test(xs[1..][j]);
      assert xs[i + 1] == Find(xs, test).value;
      forall j | 0 <= j < i + 1 ensures !test(xs[j]) {
        if j > 0 { assert xs[j] == xs[1..][j - 1]; }
      }
    }
  }
}
