/** Sequences built element by element, and the values of a sequence of options. */
module Seqs {

  import opened Options

  /** f applied to every element, in order. */
  function MapSeq<A, B>(f: A -> B, xs: seq<A>): (r: seq<B>)
    ensures |r| == |xs| && forall j :: 0 <= j < |xs| ==> r[j] == f(xs[j])
  {
    seq(|xs|, j requires 0 <= j < |xs| => f(xs[j]))
  }

  /** MapSeq distributes over concatenation. */
  lemma MapAppend<A, B>(f: A -> B, a: seq<A>, b: seq<A>)
    ensures MapSeq(f, a + b) == MapSeq(f, a) + MapSeq(f, b)
  {
    forall j | 0 <= j < |a| + |b| ensures MapSeq(f, a + b)[j] == (MapSeq(f, a) + MapSeq(f, b))[j] {
      if j < |a| {
        assert (a + b)[j] == a[j];
      } else {
        assert (a + b)[j] == b[j - |a|];
      }
    }
  }

  /** MapSeq of one more element is one more result. */
  lemma MapStep<A, B>(f: A -> B, xs: seq<A>, i: nat)
    requires i < |xs|
    ensures MapSeq(f, xs[..i + 1]) == MapSeq(f, xs[..i]) + [f(xs[i])]
  {
    assert MapSeq(f, xs[..i + 1])[..i] == MapSeq(f, xs[..i]);
  }

  /** The values present in a sequence of options, in order. */
  function Values<T>(xs: seq<Option<T>>): seq<T> {
    if xs == [] then []
    else Values(xs[..|xs| - 1]) + match xs[|xs| - 1] case Some(v) => [v] case None => []
  }

  /** There are no more values than options, and each value is present at some position. */
  lemma {:induction false} ValuesSound<T>(xs: seq<Option<T>>)
    ensures |Values(xs)| <= |xs|
    ensures forall v :: v in Values(xs) ==> exists j :: 0 <= j < |xs| && xs[j] == Some(v)
  {
    if xs != [] {
      var n := |xs| - 1;
      var init := xs[..n];
      ValuesSound(init);
      forall v | v in Values(xs)
        ensures exists j :: 0 <= j < |xs| && xs[j] == Some(v)
      {
        if v in Values(init) {
          var j :| 0 <= j < |init| && init[j] == Some(v);
          assert xs[j] == init[j];
        } else {
          assert xs[n] == Some(v);
        }
      }
    }
  }

  /** Values distributes over concatenation. */
  lemma {:induction false} ValuesAppend<T>(a: seq<Option<T>>, b: seq<Option<T>>)
    ensures Values(a + b) == Values(a) + Values(b)
    decreases |b|
  {
    if b == [] {
      assert a + b == a;
    } else {
      var b0 := b[..|b| - 1];
      assert (a + b)[..|a + b| - 1] == a + b0;
      ValuesAppend(a, b0);
    }
  }

  /** The elements of xs that satisfy keep, in their order. */
  function Filter<T>(keep: T -> bool, xs: seq<T>): seq<T> {
    if xs == [] then []
    else (if keep(xs[0]) then [xs[0]] else []) + Filter(keep, xs[1..])
  }

  /** Every element kept satisfies keep and comes from xs. */
  lemma {:induction false} FilterSound<T>(keep: T -> bool, xs: seq<T>)
    ensures |Filter(keep, xs)| <= |xs|
    ensures forall k :: 0 <= k < |Filter(keep, xs)| ==> keep(Filter(keep, xs)[k]) && Filter(keep, xs)[k] in xs
    decreases |xs|
  {
    if xs != [] {
      FilterSound(keep, xs[1..]);
    }
  }

  /** Filter distributes over concatenation, so it keeps the order. */
  lemma {:induction false} FilterAppend<T>(keep: T -> bool, a: seq<T>, b: seq<T>)
    ensures Filter(keep, a + b) == Filter(keep, a) + Filter(keep, b)
    decreases |a|
  {
    if a == [] {
      assert a + b == b;
    } else {
      var h := if keep(a[0]) then [a[0]] else [];
      var ab := a + b;
      assert ab[0] == a[0] && ab[1..] == a[1..] + b;
      assert Filter(keep, ab) == h + Filter(keep, a[1..] + b);
      FilterAppend(keep, a[1..], b);
      assert Filter(keep, a) == h + Filter(keep, a[1..]);
    }
  }

  /** When every element satisfies keep, nothing is dropped. */
  lemma {:induction false} FilterKeepsAll<T>(keep: T -> bool, xs: seq<T>)
    requires forall k :: 0 <= k < |xs| ==> keep(xs[k])
    ensures Filter(keep, xs) == xs
    decreases |xs|
  {
    if xs != [] {
      FilterKeepsAll(keep, xs[1..]);
    }
  }

}
