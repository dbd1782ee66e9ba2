/** `create_root_dataset`: the server's root dataset, a sample of indices
    drawn from the full dataset with a bias towards BIAS_CLASS. The root size
    (fixed, or the truncated product of the dataset size and the ratio), the
    truncated biased size and the positions `random.sample` picks are
    parameters. */
module RootDataset {
  import opened Seqs
  import opened Sampling

  /** An increasing list repeats nothing. */
  lemma IncreasingNoDuplicates(s: seq<nat>)
    requires forall i, j :: 0 <= i < j < |s| ==> s[i] < s[j]
    ensures NoDuplicates(s)
  {
  }

  /** An increasing list of indices below bound: all entries in range, none repeated. */
  lemma IndexListFacts(labels: seq<nat>, c: nat)
    ensures NoDuplicates(IndicesOf(labels, c)) && NoDuplicates(IndicesNotOf(labels, c))
    ensures AllBelow(IndicesOf(labels, c), |labels|) && AllBelow(IndicesNotOf(labels, c), |labels|)
  {
    var b := IndicesOf(labels, c);
    var u := IndicesNotOf(labels, c);
    IncreasingNoDuplicates(b);
    IncreasingNoDuplicates(u);
    forall i | 0 <= i < |b| ensures b[i] < |labels| {
      assert b[i] in b;
    }
    forall i | 0 <= i < |u| ensures u[i] < |labels| {
      assert u[i] in u;
    }
  }

  /** The picks of the two `random.sample` calls: as many distinct positions
      of each pool as the source asks for. With the bias probability at 1.0
      only the biased pool is sampled, min(root_size, #biased) times. */
  predicate RootDrawsOk(labels: seq<nat>, biasClass: nat, rootSize: nat, fullyBiased: bool,
                        biasedSize: nat, biasedPicks: seq<nat>, unbiasedPicks: seq<nat>)
  {
    var biasedCount := |IndicesOf(labels, biasClass)|;
    var unbiasedCount := |IndicesNotOf(labels, biasClass)|;
    if fullyBiased then
      SamplePicks(biasedPicks, biasedCount, Min(rootSize, biasedCount))
    else
      biasedSize <= rootSize ==>
        SamplePicks(biasedPicks, biasedCount, Min(biasedSize, biasedCount)) &&
        SamplePicks(unbiasedPicks, unbiasedCount, Min(rootSize - biasedSize, unbiasedCount))
  }

  /** The root indices `create_root_dataset` wraps in a Subset. A biased size
      above the root size makes the unbiased size negative, and
      `random.sample` raises on a negative count. Otherwise the root holds at
      most root_size distinct indices of the dataset: when the bias
      probability is 1.0, min(root_size, #biased) of them, all of class
      BIAS_CLASS; else min(biased_size, #biased) of class BIAS_CLASS followed
      by min(root_size - biased_size, #unbiased) of other classes. */
  function RootIndices(labels: seq<nat>, biasClass: nat, rootSize: nat, fullyBiased: bool,
                       biasedSize: nat, biasedPicks: seq<nat>, unbiasedPicks: seq<nat>): (r: Result<seq<nat>>)
    requires RootDrawsOk(labels, biasClass, rootSize, fullyBiased, biasedSize, biasedPicks, unbiasedPicks)
    ensures r.Failure? <==> !fullyBiased && biasedSize > rootSize
    ensures r.Success? ==>
      NoDuplicates(r.value) && AllBelow(r.value, |labels|) && |r.value| <= rootSize
    ensures r.Success? && fullyBiased ==>
      |r.value| == Min(rootSize, |IndicesOf(labels, biasClass)|) &&
      forall i :: 0 <= i < |r.value| ==> labels[r.value[i]] == biasClass
    ensures r.Success? && !fullyBiased ==>
      var k := Min(biasedSize, |IndicesOf(labels, biasClass)|);
      |r.value| == k + Min(rootSize - biasedSize, |IndicesNotOf(labels, biasClass)|) &&
      (forall i :: 0 <= i < k ==> labels[r.value[i]] == biasClass) &&
      (forall i :: k <= i < |r.value| ==> labels[r.value[i]] != biasClass)
  {
    var biased := IndicesOf(labels, biasClass);
    IndexListFacts(labels, biasClass);
    if fullyBiased then
      var root := Sample(biased, biasedPicks);
      assert forall i :: 0 <= i < |root| ==> root[i] in biased;
      Success(root)
    else if biasedSize > rootSize then
      Failure("Sample larger than population or is negative")
    else
      var unbiased := IndicesNotOf(labels, biasClass);
      var fromBiased := Sample(biased, biasedPicks);
      var fromUnbiased := Sample(unbiased, unbiasedPicks);
      assert forall i :: 0 <= i < |fromBiased| ==> fromBiased[i] in biased;
      assert forall i :: 0 <= i < |fromUnbiased| ==> fromUnbiased[i] in unbiased;
      NoDuplicatesConcat(fromBiased, fromUnbiased);
      Success(fromBiased + fromUnbiased)
  }
}
