/**
 * What the combo handler relies on from the weighted sampler of the `rand`
 * crate: when building a distribution from a weight vector fails, and which
 * indices a distribution can yield, with what probability. The draw itself
 * is random and stays outside the model: callers pass the drawn index.
 */
module Sampling {
  import opened Closet

  /** The reasons the distribution constructor rejects a weight vector. */
  datatype WeightedError = NoItem | InvalidWeight | AllWeightsZero

  /** A distribution over the indices of `weights`, normalised by `total`. */
  datatype Distribution = Distribution(weights: seq<real>, total: real)

  function Sum(ws: seq<real>): real {
    if ws == [] then 0.0 else ws[0] + Sum(ws[1..])
  }

  predicate AllNonNegative(ws: seq<real>) {
    forall i :: 0 <= i < |ws| ==> ws[i] >= 0.0
  }

  predicate SomePositive(ws: seq<real>) {
    exists i :: 0 <= i < |ws| && ws[i] > 0.0
  }

  /** A sum of non-negative weights is zero exactly when no weight is positive. */
  lemma {:induction false} SumZeroIffNonePositive(ws: seq<real>)
    requires AllNonNegative(ws)
    ensures Sum(ws) >= 0.0
    ensures Sum(ws) == 0.0 <==> !SomePositive(ws)
  {
    if ws != [] {
      var tail := ws[1..];
      assert AllNonNegative(tail) by {
        forall i | 0 <= i < |tail| ensures tail[i] >= 0.0 { assert tail[i] == ws[i + 1]; }
      }
      SumZeroIffNonePositive(tail);
      assert SomePositive(ws) <==> ws[0] > 0.0 || SomePositive(tail) by {
        if SomePositive(ws) && ws[0] <= 0.0 {
          var i :| 0 <= i < |ws| && ws[i] > 0.0;
          assert tail[i - 1] > 0.0;
        }
        if SomePositive(tail) {
          var i :| 0 <= i < |tail| && tail[i] > 0.0;
          assert ws[i + 1] > 0.0;
        }
      }
    }
  }

  /**
   * The distribution constructor: an empty vector has no item, any negative
   * weight is invalid, and a vector of zeros has nothing to draw from.
   */
  function NewWeightedIndex(ws: seq<real>): (r: Result<Distribution, WeightedError>)
    ensures r == Err(NoItem) <==> ws == []
    ensures r == Err(InvalidWeight) <==> ws != [] && !AllNonNegative(ws)
    ensures r == Err(AllWeightsZero) <==> ws != [] && AllNonNegative(ws) && !SomePositive(ws)
    ensures r.Ok? <==> AllNonNegative(ws) && SomePositive(ws)
    ensures r.Ok? ==> r.value.weights == ws && r.value.total == Sum(ws) && r.value.total > 0.0
  {
    if ws == [] then Err(NoItem)
    else if !AllNonNegative(ws) then Err(InvalidWeight)
    else
      SumZeroIffNonePositive(ws);
      if Sum(ws) == 0.0 then Err(AllWeightsZero)
      else Ok(Distribution(ws, Sum(ws)))
  }

  /** The indices the sampler can return: those with a positive weight. */
  predicate InSupport(d: Distribution, i: nat) {
    i < |d.weights| && d.weights[i] > 0.0
  }

  /** The chance that the sampler returns index `i`. */
  function Probability(d: Distribution, i: nat): (p: real)
    requires i < |d.weights| && d.total > 0.0
    ensures d.weights[i] >= 0.0 ==> p >= 0.0
  {
    d.weights[i] / d.total
  }

  /** An index can be drawn exactly when its probability is positive. */
  lemma SupportIsPositiveProbability(ws: seq<real>, i: nat)
    requires NewWeightedIndex(ws).Ok? && i < |ws|
    ensures InSupport(NewWeightedIndex(ws).value, i) <==> Probability(NewWeightedIndex(ws).value, i) > 0.0
  {
  }

  /** A valid distribution has at least one index to draw. */
  lemma SupportNonEmpty(ws: seq<real>)
    requires NewWeightedIndex(ws).Ok?
    ensures exists i: nat :: InSupport(NewWeightedIndex(ws).value, i)
  {
    var i :| 0 <= i < |ws| && ws[i] > 0.0;
    assert InSupport(NewWeightedIndex(ws).value, i);
  }

  /** With a single candidate the only index the sampler can return is 0. */
  lemma SingleCandidateDrawsIt(ws: seq<real>, i: nat)
    requires |ws| == 1 && NewWeightedIndex(ws).Ok?
    ensures InSupport(NewWeightedIndex(ws).value, i) <==> i == 0
  {
  }
}
