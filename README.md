# Dataset partitioning and label poisoning of the federated-learning simulator

This project models the integer logic of `federated_learning/data/dataset.py`, the
data module of a federated-learning simulator in which a server scores client
updates against a small trusted root dataset. A dataset is represented by its
list of labels, each a class in `[0, n)`. What a client holds is its list of
sample indices. Every random draw the Python code makes, and every
configuration constant, is a parameter.

- `seqs.dfy` (module `Seqs`) provides the shared vocabulary:
  - `Flatten`, the concatenation of the client lists;
  - `Sum` and `Range`;
  - `IndicesOf` and `IndicesNotOf`, the indices of the samples of a class
    and of all other samples, and `Result`, a value or an error;
  - `Partitions`: a family of index lists holds every index of the dataset
    exactly once.
- `sampling.dfy` (module `Sampling`) models the two sampling calls:
  - `random.shuffle`, as the Fisher-Yates loop of CPython's `random` module,
    driven by its draws;
  - `random.sample`, as a list of distinct picks into the population.
- `attacks.dfy` (module `Attacks`) models the label rules of the poisoning
  wrappers, plus the gradient-inversion quarter map built in place. It covers:
  - `LabelFlippingDataset`;
  - `BackdoorDataset`, its label only;
  - `AdaptiveAttackDataset`;
  - `MinMaxAttackDataset`;
  - `AlternatingAttackDataset`;
  - `TargetedAttackDataset`;
  - `GradientInversionAttackDataset`.

  Each rule is proved to stay within the classes, to be invertible where the
  source's rule is a bijection, and to change nothing it should not. The
  targeted rule, `TargetedLabel`, is stated through what it does to a whole
  dataset, in `TargetedChangesOnlyTargetClass`.
- `split.dfy` (module `Split`) models how the dataset is dealt out to
  `NUM_CLIENTS` clients:
  - grouping the indices by class, then shuffling each class list;
  - the IID split;
  - the label-skew split, with its preferred-client map and per-sample
    client choice;
  - the integer part of the Dirichlet split: the per-client counts, the
    remainder top-up, and the running-offset slicing;
  - the `split_dataset` dispatch.

  Each split is a method with loops and invariants, proved against the
  partition property: the IID and label-skew splits hand every index to
  exactly one client, the label-skew split to the client its draws choose.
  The Dirichlet split gives each client, class by class, its floored count
  plus one when it is a top-up client, taken consecutively from the shuffled
  class list (`DirichletDealt`). It never hands out an index twice, and it
  covers the dataset whenever each class's remainder lies in
  `[0, NUM_CLIENTS]`.
- `root.dfy` (module `RootDataset`) models the index selection of
  `create_root_dataset`: the biased and unbiased pools, the two
  `random.sample` calls, and the error raised when the unbiased size is
  negative.

## Model

| member | source | states |
|---|---|---|
| Attacks.FlipLabel | federated_learning/data/dataset.py:25-28 | the flipped label n - l - 1 of a class l < n is again a class below n |
| Attacks.FlipTwice | federated_learning/data/dataset.py:27 | flipping twice gives back the original class, so flipping is a bijection on the n classes |
| Attacks.FlipExamples | federated_learning/data/dataset.py:15-16 | for ten classes, 0 becomes 9, 1 becomes 8 and 2 becomes 7, as the wrapper's documentation says |
| Attacks.ConfusionMap | federated_learning/data/dataset.py:94 | the confusion map has one entry per class, and every entry is a class |
| Attacks.Predecessor | federated_learning/data/dataset.py:94 | the cyclic predecessor of a class is a class |
| Attacks.SuccessorFacts | federated_learning/data/dataset.py:94 | the predecessor undoes the successor (i + 1) % n of a class, and with two or more classes the successor differs from the class |
| Attacks.ConfusionMapIsCyclicShift | federated_learning/data/dataset.py:94-103 | the map is one-to-one and onto the classes, the predecessor undoes it in both directions, and with two or more classes no class maps to itself |
| Attacks.AlternatingLabel | federated_learning/data/dataset.py:155-164 | the altered label is a class, and odd indices keep their label |
| Attacks.AlternatingRecoverable | federated_learning/data/dataset.py:158-161 | at an even index, shifting back by the sample's offset recovers the original label |
| Attacks.QuarterOf | federated_learning/data/dataset.py:201-217 | every index gets a quarter in 0..3 |
| Attacks.BuildQuarterMap | federated_learning/data/dataset.py:212-217 | the array filled slice by slice has one entry per sample, and entry idx is the quarter of idx: blocks [0,q), [q,2q) and [2q,3q) with q = size // 4, then the rest |
| Attacks.QuarterByDivision | federated_learning/data/dataset.py:202-217 | for size >= 4 the quarter of idx is min(idx // (size // 4), 3), so quarters 0 to 2 are blocks of exactly size // 4 indices and quarter 3 takes the remainder |
| Attacks.Strategy | federated_learning/data/dataset.py:205-210 | every strategy maps a class to a class, and strategy 2 is the identity |
| Attacks.StrategyInverse | federated_learning/data/dataset.py:205-210 | the inverse of each strategy maps a class to a class |
| Attacks.StrategyRoundTrip | federated_learning/data/dataset.py:205-210 | each of the four strategies is a bijection on the classes: its inverse undoes it in both orders |
| Attacks.WellFormed | federated_learning/data/dataset.py:89-217 | the state the wrapper constructors build: the min-max map has one class per class, the alternating offsets need at least one class (numpy's randint raises on an empty range) and give one offset per sample, and the quarter map gives every sample a quarter in 0..3 |
| Attacks.PoisonedLabel | federated_learning/data/dataset.py:22-227 | the label any wrapper returns for a sample is a class whenever the wrapper's fixed output labels are classes |
| Attacks.Poisoned | federated_learning/data/dataset.py:22-227 | a wrapped dataset has as many samples as the original, and all its labels are classes when the wrapper's fixed outputs are |
| Attacks.FlippingTwiceRestores | federated_learning/data/dataset.py:25-28 | wrapping a label-flipped dataset in a second flipper restores every original label |
| Attacks.BackdoorLabelsConstant | federated_learning/data/dataset.py:55-61 | the backdoor wrapper gives every sample the target label |
| Attacks.AdaptiveIsIdentity | federated_learning/data/dataset.py:76-79 | the adaptive wrapper returns every label unchanged |
| Attacks.MinMaxShiftsEveryLabel | federated_learning/data/dataset.py:99-103 | every label moves to its successor class, which the predecessor undoes, and with two or more classes no label stays |
| Attacks.TargetedChangesOnlyTargetClass | federated_learning/data/dataset.py:182-187 | labels other than the target class are unchanged, and every target-class label becomes the target output |
| Attacks.AlternatingChangesOnlyEvenIndices | federated_learning/data/dataset.py:150-164 | odd-indexed samples keep their label, and every even-indexed label is recovered by shifting back by its offset |
| Attacks.GradientInversionRecoverable | federated_learning/data/dataset.py:222-227 | samples of the third quarter keep their label, and every label is recovered by its quarter's inverse strategy |
| Sampling.Shuffle | federated_learning/data/dataset.py:380 | shuffling keeps the length and is a rearrangement: the multiset of elements is unchanged |
| Sampling.Sample | federated_learning/data/dataset.py:513-514 | a sample has as many elements as picks, every element is taken from the population, and none repeats when neither the population nor the picks repeat |
| Seqs.PartitionFacts | federated_learning/data/dataset.py:342-359 | a partition of the dataset holds every index, only indices below the size, no index in two client lists, and no index twice in one list |
| Seqs.PermutationFacts | federated_learning/data/dataset.py:435 | a permutation of the clients has one entry per client, all in range, none repeated |
| Seqs.IndicesWhere | federated_learning/data/dataset.py:506-512 | an index is kept exactly when its sample's label equals c (or differs from c, for the other filter), and the kept indices are increasing |
| Seqs.IndicesOf | federated_learning/data/dataset.py:311-313 | an index is in class c's list exactly when its sample is labelled c, and the list is increasing |
| Split.GroupByClass | federated_learning/data/dataset.py:311-313 | the append loop leaves class c's list equal to the indices labelled c, in order, and the class lists partition the dataset |
| Split.GroupAndShuffle | federated_learning/data/dataset.py:410-417 | after shuffling, each class list is a rearrangement of the indices of that class, and the lists still partition the dataset |
| Split.ClassListMember | federated_learning/data/dataset.py:346 | every index in a shuffled class list is a sample of that class |
| Split.SliceAmongClients | federated_learning/data/dataset.py:383-391 | the client slices concatenate, in order, to the shuffled list; every client but the last gets len // NUM_CLIENTS indices, and the last gets the rest |
| Split.SliceBounds | federated_learning/data/dataset.py:388-389 | slice i ends within the list |
| Split.SplitIid | federated_learning/data/dataset.py:374-393 | the client lists partition the dataset, and the sizes are as above |
| Split.ClientsPerClass | federated_learning/data/dataset.py:320-327 | clients_per_class is 1 in both branches |
| Split.PreferredClients | federated_learning/data/dataset.py:329-339 | each class's preferred list is the single client c % NUM_CLIENTS, so the empty-range fallback is never needed |
| Split.OtherClients | federated_learning/data/dataset.py:344 | a client is listed exactly when it is below NUM_CLIENTS and not preferred, and the list is increasing |
| Split.OtherClientsOfOne | federated_learning/data/dataset.py:343-344 | the other clients are valid clients, exclude the preferred one, and are none exactly when there is a single client |
| Split.OtherClientsLength | federated_learning/data/dataset.py:344 | leaving out one of m clients leaves m - 1 |
| Split.ChoicePool | federated_learning/data/dataset.py:346-356 | the list random.choice picks from is non-empty and holds valid clients; it is the preferred client when the Q-coin says so or when there is one client, and otherwise excludes it |
| Split.AssignedClient | federated_learning/data/dataset.py:346-356 | a sample goes to a valid client: to its class's preferred client after a successful Q-coin or with a single client, otherwise to a different client |
| Split.PlacedByOwners | federated_learning/data/dataset.py:359 | every index a client holds was assigned to that client by its own draws |
| Split.AssignOne | federated_learning/data/dataset.py:346-359 | appending the next index of a class list to its owner keeps every index with its assigned client and adds exactly that index to the clients' contents |
| Split.AssignClass | federated_learning/data/dataset.py:346-359 | appending a class's indices adds exactly that list to the clients' contents, each index with its assigned client |
| Split.SplitNonIid | federated_learning/data/dataset.py:301-359 | the client lists partition the dataset, and every index sits with the client its Q-coin and choice draws assign it |
| Split.TopUp | federated_learning/data/dataset.py:433-435 | the top-up holds no client for a remainder <= 0, and otherwise min(remainder, len(ranking)) clients |
| Split.TopUpEntries | federated_learning/data/dataset.py:433-435 | the top-up clients are the last entries of the ranking, in ranking order |
| Split.TopUpFacts | federated_learning/data/dataset.py:435 | top-up clients are valid and distinct |
| Split.TopUpExact | federated_learning/data/dataset.py:433-435 | a remainder within [0, len(ranking)] selects exactly that many clients |
| Split.RaiseOne | federated_learning/data/dataset.py:436-437 | raising one more top-up client's count keeps the row equal to the floors plus one per client raised, and adds one to the total |
| Split.RaiseAll | federated_learning/data/dataset.py:436-437 | each listed client's count rises by one and no other count changes, so the total rises by the number of clients listed |
| Split.ClassCounts | federated_learning/data/dataset.py:428-439 | a class's row is its floors plus one for each top-up client, and it sums to exactly the class size whenever the remainder lies in [0, NUM_CLIENTS] |
| Split.RowsKept | federated_learning/data/dataset.py:439 | appending a row leaves the rows already built as they were |
| Split.RowAt | federated_learning/data/dataset.py:426-439 | every row built so far holds one count per client, equal to the class's floors plus one for each of its top-up clients |
| Split.SumsKept | federated_learning/data/dataset.py:439 | appending a row leaves the sums of the rows already built as they were |
| Split.SumAt | federated_learning/data/dataset.py:426-439 | every row built so far sums to its class size whenever that class's remainder is in [0, NUM_CLIENTS] |
| Split.DirichletCounts | federated_learning/data/dataset.py:426-439 | every class gets a row of one count per client, equal to the class's floors plus one for each of its top-up clients, and the row sums to the class size whenever the remainder is in [0, NUM_CLIENTS] |
| Split.Chunk | federated_learning/data/dataset.py:446-452 | the guarded slice class_indices[c][start:end] holds min(count, len - start) indices from start on when start < len, and nothing otherwise |
| Split.ChunkExtends | federated_learning/data/dataset.py:446-452 | the chunk handed out at a running offset continues the prefix handed out so far |
| Split.ConsumedStep | federated_learning/data/dataset.py:446-455 | moving a class offset on by a count consumes exactly that class's next chunk |
| Split.DealOne | federated_learning/data/dataset.py:445-455 | handing client j its chunk of class c keeps the loop state: earlier clients complete, offsets correct, and the clients' contents equal to the consumed prefixes |
| Split.DealingDone | federated_learning/data/dataset.py:442-455 | when the loop ends, every offset is its class total |
| Split.DealClass | federated_learning/data/dataset.py:445-455 | one inner step extends client j by its chunk (nothing when the offset is past the end) and advances the class offset |
| Split.DealToClient | federated_learning/data/dataset.py:444-455 | one pass over the classes completes client j |
| Split.DistributeChunks | federated_learning/data/dataset.py:442-455 | client j's list is, class by class, the counts[c][j] indices after those of clients 0..j-1, and the clients together hold exactly the handed-out prefixes of the class lists |
| Split.ConsumedWithin | federated_learning/data/dataset.py:450-452 | the handed-out prefixes are part of the class lists |
| Split.ConsumedAll | federated_learning/data/dataset.py:455 | offsets that reach the ends of the lists have handed out every list |
| Split.SplitDirichlet | federated_learning/data/dataset.py:395-459 | each class list is a rearrangement of that class's indices, and each class's count row is its floors plus one per top-up client. Client j holds, class by class, its counts[c][j] indices that follow those of clients 0..j-1. No index is handed out twice and none lies outside the dataset. When every class's remainder is in [0, NUM_CLIENTS], the clients partition the dataset |
| Split.SplitDataset | federated_learning/data/dataset.py:461-484 | an unknown distribution type, and only that, is an error. Otherwise there is one list per client and no index is handed out twice. The IID split partitions the dataset into equal slices, the last taking the rest. The label-skew split partitions it, each index with the client its draws choose. The Dirichlet split deals as `SplitDirichlet` states, and partitions the dataset when every remainder is in [0, NUM_CLIENTS] |
| Seqs.IndicesNotOf | federated_learning/data/dataset.py:512 | an index is in the unbiased pool exactly when its label differs from BIAS_CLASS, and the pool is increasing |
| RootDataset.IndexListFacts | federated_learning/data/dataset.py:511-512 | both pools are repeat-free lists of valid indices |
| RootDataset.RootIndices | federated_learning/data/dataset.py:505-514 | a biased size above the root size is the sampling error, and nothing else is. Otherwise the root holds at most root_size distinct valid indices. With bias probability 1.0 they are min(root_size, #biased) indices, all of class BIAS_CLASS. Otherwise min(biased_size, #biased) indices of that class come first, followed by min(root_size - biased_size, #unbiased) of other classes |

## Left out

- `load_dataset` is not part of this model: it downloads files, applies torchvision transforms and retries on OSError, all of it I/O, and it calls loader modules that are not part of this model.
- The trigger tensor and the pixel clamp of `BackdoorDataset` work on float images. Only its constant label is modelled.
- `MinSumAttackDataset` is left out. Its label comes from a float probability matrix sampled with `torch.multinomial`, so it has no integer rule to model.
- The random number generators are left out. Their outcomes are parameters:
  - the draws of `random.shuffle`;
  - the Q-coin `random.random() < Q` and the position `random.choice` picks;
  - the positions `random.sample` picks;
  - the offsets `np.random.randint` draws.
- The label-skew draws are indexed by sample index rather than by draw order. Each index is dealt exactly once, so this loses nothing.
- The Dirichlet proportions are floats, and so are `np.floor` and the `argsort` ranking, whose ties are resolved by numpy. The model takes their outcome as inputs: the floored counts per class and client, and some permutation of the clients as the ranking.
- Split.SplitDirichlet: the exact cover is proved only under the condition that every class's remainder lies in [0, NUM_CLIENTS]. That is the case when a class's proportions sum to one; float rounding is not modelled.
- Split.SplitDataset: for the Dirichlet branch the cover is stated under the same remainder condition, for the reason above.
- Configuration constants from the configuration module are parameters: `NUM_CLIENTS` (at least 1), `Q`, `BIAS_CLASS`, `DATA_DISTRIBUTION` and the root sizes. The configuration module is not part of this model.
- `create_root_dataset` computes the root size, either as the fixed `ROOT_DATASET_SIZE` or as the float truncation `int(len * ROOT_DATASET_RATIO)`. It also computes the biased size `int(root_size * BIAS_PROBABILITY)` and the float test `BIAS_PROBABILITY == 1.0`. The model takes all three as inputs: the root size as a natural number, the biased size, and a flag for full bias. A negative configured root size is not modelled.
- Wrapping index lists in `torch.utils.data.Subset` is left out: a subset is just its index list.
- The printed statistics and messages are left out, because they are output only.
- The `classes_per_client` value of the label-skew split is left out: it is computed but never used.
- Sampling.Shuffle: modelled on a copy of the list, since `random.shuffle` mutates a list no caller shares.
