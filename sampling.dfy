/** Python's `random.shuffle` and `random.sample`, with the random numbers
    they would draw passed in. Every outcome of the real call is the outcome
    of this model for some admissible draws. */
module Sampling {
  import opened Seqs

  /** The draws `random.shuffle` makes on a list of n elements: for each
      position i from n-1 down to 1 it draws j = randbelow(i + 1), so
      draws[i] <= i (draws[0] is never used). */
  predicate ValidDraws(draws: seq<nat>, n: nat)
  {
    |draws| == n && forall i :: 0 <= i < n ==> draws[i] <= i
  }

  /** `random.shuffle(x)`: the Fisher-Yates loop of CPython's random module,
      swapping x[i] with x[draws[i]] for i from len(x)-1 down to 1. The result
      is a rearrangement of the input. */
  method Shuffle(s: seq<nat>, draws: seq<nat>) returns (r: seq<nat>)
    requires ValidDraws(draws, |s|)
    ensures |r| == |s|
    ensures multiset(r) == multiset(s)
  {
    var a := new nat[|s|](k requires 0 <= k < |s| => s[k]);
    assert a[..] == s;
    var i: int := |s| - 1;
    while i > 0
      invariant -1 <= i < |s|
      invariant a.Length == |s|
      invariant multiset(a[..]) == multiset(s)
      decreases i
    {
      var j := draws[i];
      a[i], a[j] := a[j], a[i];
      i := i - 1;
    }
    r := a[..];
  }

  /** The positions `random.sample(population, k)` picks: k distinct
      positions of the population (k <= len(population), otherwise the call
      raises). */
  predicate SamplePicks(picks: seq<nat>, populationSize: nat, k: nat)
  {
    |picks| == k && AllBelow(picks, populationSize) && NoDuplicates(picks)
  }

  /** `random.sample(population, k)` for the given picks: a list of k
      population members, none taken twice from a population without
      repeats. */
  function Sample(population: seq<nat>, picks: seq<nat>): (r: seq<nat>)
    requires AllBelow(picks, |population|)
    ensures |r| == |picks|
    ensures forall x :: x in r ==> x in population
    ensures NoDuplicates(population) && NoDuplicates(picks) ==> NoDuplicates(r)
  {
    seq(|picks|, k requires 0 <= k < |picks| => population[picks[k]])
  }
}
