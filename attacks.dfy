/** The label-poisoning dataset wrappers of federated_learning/data/dataset.py.
    Each wrapper keeps a dataset's samples and rewrites the label of sample
    idx by a fixed integer rule; only the labels are modelled (a dataset is
    its list of labels, each below the number of classes n). */
module Attacks {
  import opened Seqs

  // ---------------------------------------------------------------------
  // Modular shifts shared by several rules
  // ---------------------------------------------------------------------

  /** Adding j modulo n is undone by adding k = n - j modulo n. */
  lemma ShiftBack(n: nat, j: nat, k: nat, x: nat)
    requires x < n && j + k == n
    ensures ((x + j) % n + k) % n == x
  {
    if x + j < n {
      ModSmall(x + j, n);
      ModWrap(x + j + k, n);
    } else {
      ModWrap(x + j, n);
      ModSmall(x + j - n + k, n);
    }
  }

  /** Shifting by k and by n - k undo each other, in either order. */
  lemma ShiftPair(n: nat, k: nat, x: nat)
    requires x < n && k <= n
    ensures ((x + k) % n + (n - k)) % n == x
    ensures ((x + (n - k)) % n + k) % n == x
  {
    ShiftBack(n, k, n - k, x);
    ShiftBack(n, n - k, k, x);
  }

  lemma ModSmall(a: int, n: int)
    requires 0 <= a < n
    ensures a % n == a
  {
  }

  lemma ModWrap(a: int, n: int)
    requires 0 < n <= a < 2 * n
    ensures a % n == a - n
  {
  }

  // ---------------------------------------------------------------------
  // LabelFlippingDataset
  // ---------------------------------------------------------------------

  /** Label flipping: class l of n becomes class n - l - 1. */
  function FlipLabel(n: nat, l: nat): (r: nat)
    requires l < n
    ensures r < n
  {
    n - l - 1
  }

  /** Flipping is an involution, hence a bijection on the n classes. */
  lemma FlipTwice(n: nat, l: nat)
    requires l < n
    ensures FlipLabel(n, FlipLabel(n, l)) == l
  {
  }

  /** The examples of the wrapper's documentation, for ten classes. */
  lemma FlipExamples()
    ensures FlipLabel(10, 0) == 9 && FlipLabel(10, 1) == 8 && FlipLabel(10, 2) == 7
  {
  }

  // ---------------------------------------------------------------------
  // MinMaxAttackDataset
  // ---------------------------------------------------------------------

  /** The confusion map built by the min-max wrapper: class i goes to class
      (i + 1) mod n. */
  function ConfusionMap(n: nat): (m: seq<nat>)
    ensures |m| == n
    ensures AllBelow(m, n)
  {
    seq(n, i requires 0 <= i < n => (i + 1) % n)
  }

  /** The class the min-max map sends to y: its cyclic predecessor. */
  function Predecessor(n: nat, y: nat): (x: nat)
    requires y < n
    ensures x < n
  {
    (y + (n - 1)) % n
  }

  /** The confusion map is a cyclic shift: one-to-one on the n classes, every
      class is hit (by its predecessor), and with two or more classes no
      class is mapped to itself. */
  lemma ConfusionMapIsCyclicShift(n: nat)
    ensures forall i, j :: 0 <= i < n && 0 <= j < n && ConfusionMap(n)[i] == ConfusionMap(n)[j] ==> i == j
    ensures forall y :: 0 <= y < n ==> ConfusionMap(n)[Predecessor(n, y)] == y
    ensures forall x :: 0 <= x < n ==> Predecessor(n, ConfusionMap(n)[x]) == x
    ensures n >= 2 ==> forall i :: 0 <= i < n ==> ConfusionMap(n)[i] != i
  {
    var m := ConfusionMap(n);
    forall x | 0 <= x < n ensures Predecessor(n, m[x]) == x && (n >= 2 ==> m[x] != x) {
      SuccessorFacts(n, x);
    }
    forall y | 0 <= y < n ensures m[Predecessor(n, y)] == y {
      ShiftBack(n, n - 1, 1, y);
    }
  }

  /** The successor of a class is undone by its predecessor, and differs
      from it when there are two classes or more. */
  lemma SuccessorFacts(n: nat, x: nat)
    requires x < n
    ensures Predecessor(n, (x + 1) % n) == x
    ensures n >= 2 ==> (x + 1) % n != x
  {
    ShiftBack(n, 1, n - 1, x);
    if x + 1 < n {
      ModSmall(x + 1, n);
    } else {
      ModWrap(x + 1, n);
    }
  }

  // ---------------------------------------------------------------------
  // AlternatingAttackDataset
  // ---------------------------------------------------------------------

  /** Alternating attack: a sample at an even index gets its label shifted by
      that sample's offset (drawn once from [0, n)); odd indices keep theirs. */
  function AlternatingLabel(n: nat, offsets: seq<nat>, idx: nat, l: nat): (r: nat)
    requires idx < |offsets| && l < n
    ensures r < n
    ensures idx % 2 == 1 ==> r == l
  {
    if idx % 2 == 0 then (l + offsets[idx]) % n else l
  }

  /** The even-index rewrite loses nothing: shifting back by the offset
      recovers the original label. */
  lemma AlternatingRecoverable(n: nat, offsets: seq<nat>, idx: nat, l: nat)
    requires idx < |offsets| && l < n && offsets[idx] < n
    ensures idx % 2 == 0 ==> (AlternatingLabel(n, offsets, idx, l) + (n - offsets[idx])) % n == l
  {
    ShiftBack(n, offsets[idx], n - offsets[idx], l);
  }

  // ---------------------------------------------------------------------
  // TargetedAttackDataset
  // ---------------------------------------------------------------------

  /** Targeted attack: only a label equal to targetClass is rewritten, to
      targetOutput. */
  function TargetedLabel(targetClass: nat, targetOutput: nat, l: nat): nat
  {
    if l == targetClass then targetOutput else l
  }

  // ---------------------------------------------------------------------
  // GradientInversionAttackDataset
  // ---------------------------------------------------------------------

  /** The quarter the gradient-inversion wrapper assigns to index idx of a
      dataset of the given size: with q = size // 4, quarters 0, 1 and 2 are
      the blocks [0, q), [q, 2q) and [2q, 3q), and quarter 3 is the rest. */
  function QuarterOf(size: nat, idx: nat): (quarter: nat)
    ensures quarter <= 3
  {
    var q := size / 4;
    if idx < q then 0 else if idx < 2 * q then 1 else if idx < 3 * q then 2 else 3
  }

  /** The quarter map as `__init__` builds it: a zeroed array of one entry
      per sample, then the slice [start, end) of quarter i set to i, for i
      from 0 to 3. */
  method BuildQuarterMap(size: nat) returns (quarterMap: seq<nat>)
    ensures |quarterMap| == size
    ensures forall idx :: 0 <= idx < size ==> quarterMap[idx] == QuarterOf(size, idx)
  {
    var q := size / 4;
    assert 4 * q <= size;
    var m := new nat[size](_ => 0);
    for i := 0 to 4
      invariant m.Length == size
      invariant forall idx :: 0 <= idx < size ==>
        m[idx] == if idx < (if i == 4 then size else i * q) then QuarterOf(size, idx) else 0
    {
      var start := i * q;
      var end := if i < 3 then (i + 1) * q else size;
      assert (i + 1) * q == i * q + q;
      for j := start to end
        invariant forall idx :: 0 <= idx < size ==>
          m[idx] == if idx < i * q then QuarterOf(size, idx) else if idx < j then i else 0
      {
        m[j] := i;
      }
      assert forall idx :: start <= idx < end ==> QuarterOf(size, idx) == i;
    }
    quarterMap := m[..];
  }

  lemma MulMonotone(a: nat, b: nat, q: nat)
    requires a <= b
    ensures a * q <= b * q
  {
  }

  /** idx / q is the k with k*q <= idx < (k+1)*q. */
  lemma DivUnique(idx: nat, q: nat, k: nat)
    requires q > 0 && k * q <= idx < (k + 1) * q
    ensures idx / q == k
  {
    var d := idx / q;
    assert idx == d * q + idx % q;
    if d < k {
      MulMonotone(d + 1, k, q);
    } else if d > k {
      MulMonotone(k + 1, d, q);
    }
  }

  lemma DivAtLeast(idx: nat, q: nat, k: nat)
    requires q > 0 && k * q <= idx
    ensures idx / q >= k
  {
    var d := idx / q;
    assert idx == d * q + idx % q;
    if d < k {
      MulMonotone(d + 1, k, q);
    }
  }

  /** Away from tiny datasets the quarter is the block number idx // q, capped
      at 3: the map cuts the index range into blocks of exactly q indices,
      with the last block taking the remainder. */
  lemma QuarterByDivision(size: nat, idx: nat)
    requires size >= 4 && idx < size
    ensures QuarterOf(size, idx) == Min(idx / (size / 4), 3)
  {
    var q := size / 4;
    if idx < q {
      DivUnique(idx, q, 0);
    } else if idx < 2 * q {
      DivUnique(idx, q, 1);
    } else if idx < 3 * q {
      DivUnique(idx, q, 2);
    } else {
      DivAtLeast(idx, q, 3);
    }
  }

  /** The four strategies, chosen by quarter: shift by one, shift by n // 2,
      leave unchanged, invert. */
  function Strategy(quarter: nat, n: nat, x: nat): (r: nat)
    requires quarter <= 3 && x < n
    ensures r < n
    ensures quarter == 2 ==> r == x
  {
    if quarter == 0 then (x + 1) % n
    else if quarter == 1 then (x + n / 2) % n
    else if quarter == 2 then x
    else n - x - 1
  }

  /** The inverse of each strategy. */
  function StrategyInverse(quarter: nat, n: nat, y: nat): (x: nat)
    requires quarter <= 3 && y < n
    ensures x < n
  {
    if quarter == 0 then Predecessor(n, y)
    else if quarter == 1 then (y + (n - n / 2)) % n
    else if quarter == 2 then y
    else n - y - 1
  }

  /** Every strategy is a bijection on the n classes. */
  lemma StrategyRoundTrip(quarter: nat, n: nat, x: nat)
    requires quarter <= 3 && x < n
    ensures StrategyInverse(quarter, n, Strategy(quarter, n, x)) == x
    ensures Strategy(quarter, n, StrategyInverse(quarter, n, x)) == x
  {
    if quarter == 0 {
      var y, z := (x + 1) % n, (x + (n - 1)) % n;
      ShiftPair(n, 1, x);
      assert Strategy(quarter, n, x) == y && StrategyInverse(quarter, n, x) == z;
    } else if quarter == 1 {
      var h := n / 2;
      var y, z := (x + h) % n, (x + (n - h)) % n;
      ShiftPair(n, h, x);
      assert Strategy(quarter, n, x) == y && StrategyInverse(quarter, n, x) == z;
    }
  }

  // ---------------------------------------------------------------------
  // The wrappers as one datatype
  // ---------------------------------------------------------------------

  /** One poisoning wrapper with the state its constructor sets up. */
  datatype Attack =
    | LabelFlipping
    | Backdoor(targetLabel: nat)
    | Adaptive
    | MinMax(confusionMap: seq<nat>)
    | Alternating(offsets: seq<nat>)
    | Targeted(targetClass: nat, targetOutput: nat)
    | GradientInversion(quarterMap: seq<nat>)

  /** The state a wrapper of a dataset of the given size holds: the min-max
      confusion map and the quarter map as their constructors build them,
      and one offset in [0, n) per sample (numpy's randint(0, n, size), which
      raises when n is 0). */
  predicate WellFormed(a: Attack, n: nat, size: nat): (r: bool)
    ensures r && a.MinMax? ==> |a.confusionMap| == n && AllBelow(a.confusionMap, n)
    ensures r && a.Alternating? ==> n > 0 && |a.offsets| == size
    ensures r && a.GradientInversion? ==>
      |a.quarterMap| == size && forall idx :: 0 <= idx < size ==> a.quarterMap[idx] <= 3
  {
    match a
    case MinMax(m) => m == ConfusionMap(n)
    case Alternating(offsets) => n > 0 && |offsets| == size && AllBelow(offsets, n)
    case GradientInversion(qm) =>
      |qm| == size && forall idx :: 0 <= idx < size ==> qm[idx] == QuarterOf(size, idx)
    case _ => true
  }

  /** The fixed labels a wrapper may emit are themselves classes. */
  predicate OutputsInRange(a: Attack, n: nat)
  {
    match a
    case Backdoor(t) => t < n
    case Targeted(_, out) => out < n
    case _ => true
  }

  /** `__getitem__`'s label for sample idx whose original label is l. */
  function PoisonedLabel(a: Attack, n: nat, size: nat, idx: nat, l: nat): (r: nat)
    requires WellFormed(a, n, size) && idx < size && l < n
    ensures OutputsInRange(a, n) ==> r < n
  {
    match a
    case LabelFlipping => FlipLabel(n, l)
    case Backdoor(t) => t
    case Adaptive => l
    case MinMax(m) => m[l]
    case Alternating(offsets) => AlternatingLabel(n, offsets, idx, l)
    case Targeted(tc, out) => TargetedLabel(tc, out, l)
    case GradientInversion(qm) => Strategy(qm[idx], n, l)
  }

  /** The labels of the wrapped dataset, sample by sample: same length, and
      still classes of [0, n) when the wrapper's fixed labels are. */
  function Poisoned(a: Attack, n: nat, labels: seq<nat>): (r: seq<nat>)
    requires WellFormed(a, n, |labels|) && AllBelow(labels, n)
    ensures |r| == |labels|
    ensures OutputsInRange(a, n) ==> AllBelow(r, n)
  {
    seq(|labels|, idx requires 0 <= idx < |labels| => PoisonedLabel(a, n, |labels|, idx, labels[idx]))
  }

  /** Wrapping a label-flipped dataset in a second flipper gives back the
      original labels. */
  lemma FlippingTwiceRestores(n: nat, labels: seq<nat>)
    requires AllBelow(labels, n)
    ensures Poisoned(LabelFlipping, n, Poisoned(LabelFlipping, n, labels)) == labels
  {
  }

  /** The backdoor wrapper gives every sample the target label. */
  lemma BackdoorLabelsConstant(n: nat, target: nat, labels: seq<nat>)
    requires AllBelow(labels, n)
    ensures forall idx :: 0 <= idx < |labels| ==> Poisoned(Backdoor(target), n, labels)[idx] == target
  {
  }

  /** The adaptive wrapper passes every label through. */
  lemma AdaptiveIsIdentity(n: nat, labels: seq<nat>)
    requires AllBelow(labels, n)
    ensures Poisoned(Adaptive, n, labels) == labels
  {
  }

  /** The min-max wrapper moves every label to its successor class, which
      differs from it when there are two classes or more, and which the
      predecessor map undoes. */
  lemma MinMaxShiftsEveryLabel(n: nat, labels: seq<nat>)
    requires AllBelow(labels, n)
    ensures forall idx :: 0 <= idx < |labels| ==>
      Predecessor(n, Poisoned(MinMax(ConfusionMap(n)), n, labels)[idx]) == labels[idx]
    ensures n >= 2 ==> forall idx :: 0 <= idx < |labels| ==>
      Poisoned(MinMax(ConfusionMap(n)), n, labels)[idx] != labels[idx]
  {
    ConfusionMapIsCyclicShift(n);
  }

  /** The targeted wrapper changes only samples of the target class, and
      every one of them becomes targetOutput. */
  lemma TargetedChangesOnlyTargetClass(n: nat, tc: nat, out: nat, labels: seq<nat>)
    requires AllBelow(labels, n)
    ensures forall idx :: 0 <= idx < |labels| && labels[idx] != tc ==>
      Poisoned(Targeted(tc, out), n, labels)[idx] == labels[idx]
    ensures forall idx :: 0 <= idx < |labels| && labels[idx] == tc ==>
      Poisoned(Targeted(tc, out), n, labels)[idx] == out
  {
  }

  /** The alternating wrapper leaves odd-indexed samples alone and shifts each
      even-indexed one by its own offset, which shifting back undoes. */
  lemma AlternatingChangesOnlyEvenIndices(n: nat, offsets: seq<nat>, labels: seq<nat>)
    requires AllBelow(labels, n) && WellFormed(Alternating(offsets), n, |labels|)
    ensures forall idx :: 0 <= idx < |labels| && idx % 2 == 1 ==>
      Poisoned(Alternating(offsets), n, labels)[idx] == labels[idx]
    ensures forall idx :: 0 <= idx < |labels| && idx % 2 == 0 ==>
      labels[idx] == (Poisoned(Alternating(offsets), n, labels)[idx] + (n - offsets[idx])) % n
  {
    forall idx | 0 <= idx < |labels| && idx % 2 == 0
      ensures labels[idx] == (Poisoned(Alternating(offsets), n, labels)[idx] + (n - offsets[idx])) % n
    {
      AlternatingRecoverable(n, offsets, idx, labels[idx]);
    }
  }

  /** The gradient-inversion wrapper keeps the labels of its third quarter
      and rewrites every other label by a bijection of its quarter, so the
      quarter's inverse strategy recovers it. */
  lemma GradientInversionRecoverable(n: nat, quarterMap: seq<nat>, labels: seq<nat>)
    requires AllBelow(labels, n) && WellFormed(GradientInversion(quarterMap), n, |labels|)
    ensures forall idx :: 0 <= idx < |labels| && QuarterOf(|labels|, idx) == 2 ==>
      Poisoned(GradientInversion(quarterMap), n, labels)[idx] == labels[idx]
    ensures forall idx :: 0 <= idx < |labels| ==>
      StrategyInverse(QuarterOf(|labels|, idx), n, Poisoned(GradientInversion(quarterMap), n, labels)[idx]) == labels[idx]
  {
    forall idx | 0 <= idx < |labels|
      ensures StrategyInverse(QuarterOf(|labels|, idx), n, Poisoned(GradientInversion(quarterMap), n, labels)[idx]) == labels[idx]
    {
      StrategyRoundTrip(QuarterOf(|labels|, idx), n, labels[idx]);
    }
  }
}
