/** The first-match search that every pattern and every line scan of the parser uses. */
module Scan {
  import opened Options

  /**
   * The first index in [from, to) at which `at` yields a value, with that
   * value. String.prototype.match without the g flag chooses among start
   * positions this way (leftmost first), and the parser's loops choose among
   * lines this way (the first line that matches wins).
   */
  function First<T>(at: nat -> Option<T>, from: nat, to: nat): (r: Option<(nat, T)>)
    decreases if from < to then to - from else 0
    ensures r.Some? ==> from <= r.value.0 < to && at(r.value.0) == Some(r.value.1)
    ensures r.Some? ==> (forall j :: from <= j < r.value.0 ==> at(j).None?)
    ensures r.None? ==> (forall j :: from <= j < to ==> at(j).None?)
  {
    if from >= to then None
    else match at(from)
      case Some(v) => Some((from, v))
      case None => First(at, from + 1, to)
  }

  /** The first index that yields a value is the one First finds. */
  lemma FirstAt<T>(at: nat -> Option<T>, from: nat, to: nat, k: nat)
    requires from <= k < to && at(k).Some?
    requires forall j :: from <= j < k ==> at(j).None?
    ensures First(at, from, to) == Some((k, at(k).value))
  {
  }

  /** First finds nothing exactly when no index yields a value. */
  lemma FirstNone<T>(at: nat -> Option<T>, from: nat, to: nat)
    requires forall j :: from <= j < to ==> at(j).None?
    ensures First(at, from, to).None?
  {
  }

  /** No index in [from, to) yields a value, stated one index at a time. */
  predicate NoneIn<T>(at: nat -> Option<T>, from: nat, to: nat)
    decreases if from < to then to - from else 0
  {
    from >= to || (at(to - 1).None? && NoneIn(at, from, to - 1))
  }

  lemma {:induction false} NoneInAll<T>(at: nat -> Option<T>, from: nat, to: nat)
    ensures NoneIn(at, from, to) <==> forall j :: from <= j < to ==> at(j).None?
    decreases if from < to then to - from else 0
  {
    if from < to {
      NoneInAll(at, from, to - 1);
    }
  }

  function Min(x: nat, y: nat): nat {
    if x < y then x else y
  }

}
