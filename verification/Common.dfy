/** Small shared vocabulary: optional values and results. */
module Wrappers {

  datatype Option<+T> = None | Some(value: T)

  datatype Result<+T, +E> = Ok(value: T) | Err(error: E)
}

/** Totals of a weight over a sequence of actors, the arithmetic behind every
    conservation law in this project. */
module Tally {

  function Min(a: nat, b: nat): (m: nat)
    ensures m <= a && m <= b && (m == a || m == b)
  {
    if a <= b then a else b
  }

  function Total<T>(xs: seq<T>, weight: T -> nat): nat
  {
    if |xs| == 0 then 0 else Total(xs[..|xs| - 1], weight) + weight(xs[|xs| - 1])
  }

  /** Replacing one element changes the total by the difference of the two weights. */
  lemma {:induction false} TotalUpdate<T>(xs: seq<T>, weight: T -> nat, i: nat, v: T)
    requires i < |xs|
    ensures Total(xs[i := v], weight) + weight(xs[i]) == Total(xs, weight) + weight(v)
  {
    var last := |xs| - 1;
    if i == last {
      assert xs[i := v][..last] == xs[..last];
    } else {
      assert xs[i := v][..last] == xs[..last][i := v];
      TotalUpdate(xs[..last], weight, i, v);
    }
  }

  lemma TotalAppend<T>(xs: seq<T>, weight: T -> nat, v: T)
    ensures Total(xs + [v], weight) == Total(xs, weight) + weight(v)
  {
    assert (xs + [v])[..|xs|] == xs;
  }

  /** One element never outweighs the whole. */
  lemma {:induction false} TotalBounds<T>(xs: seq<T>, weight: T -> nat, i: nat)
    requires i < |xs|
    ensures weight(xs[i]) <= Total(xs, weight)
  {
    var last := |xs| - 1;
    if i < last {
      TotalBounds(xs[..last], weight, i);
    }
  }

  /** A total is zero exactly when every weight is. */
  lemma {:induction false} TotalZero<T>(xs: seq<T>, weight: T -> nat)
    ensures Total(xs, weight) == 0 <==> forall i :: 0 <= i < |xs| ==> weight(xs[i]) == 0
  {
    if |xs| > 0 {
      TotalZero(xs[..|xs| - 1], weight);
    }
  }

  /** A positive total has an element of positive weight. */
  lemma TotalWitness<T>(xs: seq<T>, weight: T -> nat) returns (i: nat)
    requires Total(xs, weight) > 0
    ensures i < |xs| && weight(xs[i]) > 0
  {
    TotalZero(xs, weight);
    i :| 0 <= i < |xs| && weight(xs[i]) > 0;
  }
}
