/** How federated_learning/data/dataset.py deals the samples of a dataset out
    to NUM_CLIENTS clients. A client's share is its list of sample indices;
    the random numbers each split draws are parameters, as are the
    configuration constants. */
module Split {
  import opened Seqs
  import opened Sampling

  // ---------------------------------------------------------------------
  // Grouping by class (shared by the label-skew and Dirichlet splits)
  // ---------------------------------------------------------------------

  /** List c holds the indices labelled c among the first idx samples. */
  predicate GroupedUpTo(classIndices: seq<seq<nat>>, labels: seq<nat>, n: nat, idx: nat)
    requires idx <= |labels|
  {
    |classIndices| == n && forall c :: 0 <= c < n ==> classIndices[c] == IndicesOf(labels[..idx], c)
  }

  lemma GroupOne(classIndices: seq<seq<nat>>, labels: seq<nat>, n: nat, idx: nat)
    requires idx < |labels| && labels[idx] < n
    requires GroupedUpTo(classIndices, labels, n, idx)
    ensures GroupedUpTo(classIndices[labels[idx] := classIndices[labels[idx]] + [idx]], labels, n, idx + 1)
  {
    forall c | 0 <= c < n
      ensures IndicesOf(labels[..idx + 1], c) == IndicesOf(labels[..idx], c) + (if labels[idx] == c then [idx] else [])
    {
      IndicesOfSnoc(labels, c, idx);
    }
  }

  /** The loop `class_indices[label].append(idx)` over the dataset: list c
      holds the indices labelled c in order, and the n lists together hold
      every index exactly once. */
  method GroupByClass(labels: seq<nat>, n: nat) returns (classIndices: seq<seq<nat>>)
    requires AllBelow(labels, n)
    ensures |classIndices| == n
    ensures forall c :: 0 <= c < n ==> classIndices[c] == IndicesOf(labels, c)
    ensures Partitions(classIndices, |labels|)
  {
    classIndices := seq(n, _ => []);
    FlattenOfEmpties(classIndices);
    GroupedStart(labels, n);
    for idx: nat := 0 to |labels|
      invariant GroupedUpTo(classIndices, labels, n, idx)
      invariant Partitions(classIndices, idx)
    {
      var l := labels[idx];
      PartitionsGrow(classIndices, l, idx);
      GroupOne(classIndices, labels, n, idx);
      classIndices := classIndices[l := classIndices[l] + [idx]];
    }
    GroupedAll(classIndices, labels, n);
  }

  lemma GroupedStart(labels: seq<nat>, n: nat)
    ensures GroupedUpTo(seq(n, _ => []), labels, n, 0)
  {
    assert labels[..0] == [];
  }

  lemma GroupedAll(classIndices: seq<seq<nat>>, labels: seq<nat>, n: nat)
    requires GroupedUpTo(classIndices, labels, n, |labels|)
    ensures |classIndices| == n
    ensures forall c :: 0 <= c < n ==> classIndices[c] == IndicesOf(labels, c)
  {
    PrefixWhole(labels);
  }

  lemma IndicesOfSnoc(labels: seq<nat>, c: nat, idx: nat)
    requires idx < |labels|
    ensures IndicesOf(labels[..idx + 1], c) == IndicesOf(labels[..idx], c) + (if labels[idx] == c then [idx] else [])
  {
    assert labels[..idx + 1][..idx] == labels[..idx];
  }

  /** The shuffle draws for every class list: one `random.shuffle` per class. */
  predicate ClassDrawsOk(labels: seq<nat>, n: nat, classDraws: seq<seq<nat>>)
  {
    |classDraws| == n &&
    forall c :: 0 <= c < n ==> ValidDraws(classDraws[c], |IndicesOf(labels, c)|)
  }

  /** Group the indices by class, then `random.shuffle` each class list: list
      c holds exactly the indices labelled c, and the lists partition the
      dataset. */
  method GroupAndShuffle(labels: seq<nat>, n: nat, classDraws: seq<seq<nat>>) returns (classLists: seq<seq<nat>>)
    requires AllBelow(labels, n)
    requires ClassDrawsOk(labels, n, classDraws)
    ensures |classLists| == n
    ensures forall c :: 0 <= c < n ==> multiset(classLists[c]) == multiset(IndicesOf(labels, c))
    ensures forall c :: 0 <= c < n ==> |classLists[c]| == |IndicesOf(labels, c)|
    ensures Partitions(classLists, |labels|)
  {
    var grouped := GroupByClass(labels, n);
    classLists := grouped;
    for c := 0 to n
      invariant |classLists| == n
      invariant forall k :: 0 <= k < n ==> multiset(classLists[k]) == multiset(grouped[k])
      invariant forall k :: c <= k < n ==> classLists[k] == grouped[k]
    {
      var shuffled := Shuffle(classLists[c], classDraws[c]);
      classLists := classLists[c := shuffled];
    }
    forall c | 0 <= c < n ensures |classLists[c]| == |IndicesOf(labels, c)| {
      assert |multiset(classLists[c])| == |multiset(grouped[c])|;
    }
    FlattenSameContents(classLists, grouped);
  }

  /** Every index in a shuffled class list is a sample of that class. */
  lemma ClassListMember(labels: seq<nat>, c: nat, list: seq<nat>, x: nat)
    requires multiset(list) == multiset(IndicesOf(labels, c))
    requires x in list
    ensures x < |labels| && labels[x] == c
  {
    assert multiset(list)[x] > 0;
    assert x in IndicesOf(labels, c);
  }

  // ---------------------------------------------------------------------
  // split_dataset_iid
  // ---------------------------------------------------------------------

  /** The IID loop: client i takes the slice of len // NUM_CLIENTS indices
      starting at i * (len // NUM_CLIENTS); the last client takes everything
      from its start to the end. The slices, in order, make up the list. */
  method SliceAmongClients(indices: seq<nat>, numClients: nat) returns (clients: seq<seq<nat>>)
    requires numClients >= 1
    ensures |clients| == numClients
    ensures Flatten(clients) == indices
    ensures forall i :: 0 <= i < numClients - 1 ==> |clients[i]| == |indices| / numClients
    ensures |clients[numClients - 1]| == |indices| - (numClients - 1) * (|indices| / numClients)
  {
    var per := |indices| / numClients;
    clients := [];
    ghost var covered := 0;
    for i := 0 to numClients
      invariant SlicedUpTo(clients, indices, numClients, i, covered)
    {
      var start := i * per;
      var end := if i < numClients - 1 then start + per else |indices|;
      SliceOne(indices, numClients, clients, i, covered, start, end);
      clients := clients + [indices[start..end]];
      covered := end;
    }
    PrefixWhole(indices);
  }

  /** After i rounds of the IID loop: i slices of per = len // k indices
      each (the last client's slice reaching to the end), covering the first
      `covered` indices in order. */
  predicate SlicedUpTo(clients: seq<seq<nat>>, indices: seq<nat>, k: nat, i: nat, covered: nat)
  {
    k >= 1 && i <= k && |clients| == i && covered <= |indices| &&
    Flatten(clients) == indices[..covered] &&
    (i < k ==> covered == i * (|indices| / k)) &&
    (forall j :: 0 <= j < i && j < k - 1 ==> |clients[j]| == |indices| / k) &&
    (i == k ==> covered == |indices| && |clients[k - 1]| == |indices| - (k - 1) * (|indices| / k))
  }

  /** One round of the IID loop: the next slice extends the covered prefix. */
  lemma SliceOne(indices: seq<nat>, k: nat, clients: seq<seq<nat>>, i: nat, covered: nat, start: nat, end: nat)
    requires SlicedUpTo(clients, indices, k, i, covered) && i < k
    requires start == i * (|indices| / k)
    requires end == if i < k - 1 then start + |indices| / k else |indices|
    ensures start <= end <= |indices|
    ensures SlicedUpTo(clients + [indices[start..end]], indices, k, i + 1, end)
  {
    SliceBounds(i, k, |indices|);
    FlattenSnoc(clients, indices[start..end]);
    assert indices[..start] + indices[start..end] == indices[..end];
  }

  /** Slice i of the IID split lies inside the list: with per = len // k,
      slice i ends at (i + 1) * per <= k * per <= len. */
  lemma SliceBounds(i: nat, k: nat, len: nat)
    requires i < k
    ensures (i + 1) * (len / k) == i * (len / k) + len / k
    ensures (i + 1) * (len / k) <= len
  {
    var per := len / k;
    assert len == k * per + len % k;
    var rest: nat := k - (i + 1);
    MulNonNegative(rest, per);
    Distribute(i + 1, rest, per);
    Distribute(i, 1, per);
  }

  lemma MulNonNegative(a: nat, b: nat)
    ensures a * b >= 0
  {
  }

  lemma Distribute(a: nat, b: nat, c: nat)
    ensures (a + b) * c == a * c + b * c
  {
  }

  /** `split_dataset_iid`: shuffle list(range(len)) and slice it among the
      clients; every index goes to exactly one client, and every client but
      the last gets len // NUM_CLIENTS of them. */
  method SplitIid(size: nat, numClients: nat, draws: seq<nat>) returns (clients: seq<seq<nat>>)
    requires numClients >= 1
    requires ValidDraws(draws, size)
    ensures |clients| == numClients
    ensures Partitions(clients, size)
    ensures forall i :: 0 <= i < numClients - 1 ==> |clients[i]| == size / numClients
    ensures |clients[numClients - 1]| == size - (numClients - 1) * (size / numClients)
  {
    var indices := Shuffle(Range(size), draws);
    clients := SliceAmongClients(indices, numClients);
  }

  // ---------------------------------------------------------------------
  // split_dataset_non_iid (label skew)
  // ---------------------------------------------------------------------

  /** `clients_per_class`: in both branches of the source it comes out as 1. */
  function ClientsPerClass(numClients: nat, n: nat): (k: nat)
    requires numClients >= 1
    ensures k == 1
  {
    if numClients <= n then
      assert numClients / n <= 1;
      if numClients / n >= 1 then numClients / n else 1
    else 1
  }

  /** `class_to_clients[c]`: the clients from (c * clients_per_class) %
      NUM_CLIENTS up to clients_per_class further (capped at NUM_CLIENTS),
      or [c % NUM_CLIENTS] if that range is empty. It is always the single
      client c % NUM_CLIENTS, so the fallback is never taken. */
  function PreferredClients(c: nat, numClients: nat, n: nat): (r: seq<nat>)
    requires numClients >= 1
    ensures r == [c % numClients]
  {
    var perClass := ClientsPerClass(numClients, n);
    var start := (c * perClass) % numClients;
    var end := Min(start + perClass, numClients);
    var range := RangeFrom(start, end);
    var fallback: seq<nat> := [c % numClients];
    if range == [] then fallback else range
  }

  /** `other_clients`: the clients below numClients that are not preferred,
      in increasing order. */
  function OtherClients(numClients: nat, preferred: seq<nat>): (r: seq<nat>)
    ensures forall i :: i in r <==> 0 <= i < numClients && i !in preferred
    ensures forall a, b :: 0 <= a < b < |r| ==> r[a] < r[b]
  {
    if numClients == 0 then []
    else
      var last := numClients - 1;
      var earlier := OtherClients(last, preferred);
      assert forall i :: 0 <= i < |earlier| ==> earlier[i] < last by {
        forall i | 0 <= i < |earlier| ensures earlier[i] < last {
          assert earlier[i] in earlier;
        }
      }
      earlier + (if last !in preferred then [last] else [])
  }

  /** With one preferred client p, the others are every client but p: none
      when there is a single client, at least one otherwise. */
  lemma OtherClientsOfOne(numClients: nat, p: nat)
    requires p < numClients
    ensures AllBelow(OtherClients(numClients, [p]), numClients)
    ensures p !in OtherClients(numClients, [p])
    ensures numClients == 1 <==> OtherClients(numClients, [p]) == []
  {
    var others := OtherClients(numClients, [p]);
    forall k | 0 <= k < |others| ensures others[k] < numClients {
      assert others[k] in others;
    }
    if numClients >= 2 {
      assert (if p == 0 then 1 else 0) in others;
    }
  }

  /** Leaving out one client p below m leaves m - 1 clients. */
  lemma {:induction false} OtherClientsLength(m: nat, p: nat)
    ensures |OtherClients(m, [p])| == if p < m then m - 1 else m
  {
    if m > 0 {
      OtherClientsLength(m - 1, p);
    }
  }

  /** How many clients `random.choice` chooses among for a sample. */
  function PoolSize(numClients: nat, toPreferred: bool): nat
  {
    if toPreferred || numClients <= 1 then 1 else numClients - 1
  }

  /** The list `random.choice` picks from for a sample of class c: the
      preferred clients when the Q-coin says so, otherwise the other clients,
      falling back to the preferred ones when there are no others. */
  function ChoicePool(c: nat, numClients: nat, n: nat, toPreferred: bool): (pool: seq<nat>)
    requires numClients >= 1
    ensures pool != []
    ensures AllBelow(pool, numClients)
    ensures toPreferred || numClients == 1 ==> pool == [c % numClients]
    ensures !toPreferred && numClients >= 2 ==> c % numClients !in pool
    ensures |pool| == PoolSize(numClients, toPreferred)
  {
    var preferred := PreferredClients(c, numClients, n);
    var others := OtherClients(numClients, preferred);
    assert AllBelow(others, numClients) && c % numClients !in others &&
      (numClients == 1 <==> others == []) by {
      OtherClientsOfOne(numClients, c % numClients);
    }
    OtherClientsLength(numClients, c % numClients);
    if toPreferred then preferred
    else if others != [] then others
    else preferred
  }

  /** The client a sample of class c goes to, given the outcome of
      `random.random() < Q` and the position `random.choice` draws. With the
      coin it goes to the class's preferred client; without it, to some other
      client whenever there is one. */
  function AssignedClient(c: nat, numClients: nat, n: nat, toPreferred: bool, pick: nat): (client: nat)
    requires numClients >= 1
    requires pick < PoolSize(numClients, toPreferred)
    ensures client < numClients
    ensures toPreferred || numClients == 1 ==> client == c % numClients
    ensures !toPreferred && numClients >= 2 ==> client != c % numClients
  {
    var pool := ChoicePool(c, numClients, n, toPreferred);
    assert pool[pick] in pool;
    pool[pick]
  }

  /** The Q-coin and choice draws, one of each per sample index (each index
      is dealt exactly once, so indexing the draws by sample loses nothing). */
  predicate ChoiceDrawsOk(labels: seq<nat>, n: nat, numClients: nat, toPreferred: seq<bool>, picks: seq<nat>)
  {
    numClients >= 1 && |toPreferred| == |labels| && |picks| == |labels| &&
    forall x :: 0 <= x < |labels| ==> picks[x] < PoolSize(numClients, toPreferred[x])
  }

  /** The client the draws send each sample index to. */
  function Owners(labels: seq<nat>, n: nat, numClients: nat, toPreferred: seq<bool>, picks: seq<nat>): (owner: seq<nat>)
    requires ChoiceDrawsOk(labels, n, numClients, toPreferred, picks)
    ensures |owner| == |labels|
    ensures forall x :: 0 <= x < |labels| ==> owner[x] == AssignedClient(labels[x], numClients, n, toPreferred[x], picks[x])
  {
    seq(|labels|, x requires 0 <= x < |labels| => AssignedClient(labels[x], numClients, n, toPreferred[x], picks[x]))
  }

  /** Every index a client holds is one whose owner is that client. */
  predicate PlacedBy(clients: seq<seq<nat>>, owner: seq<nat>)
  {
    forall j, x {:trigger x in clients[j]} :: 0 <= j < |clients| && x in clients[j] ==> x < |owner| && owner[x] == j
  }

  lemma PlaceOne(clients: seq<seq<nat>>, owner: seq<nat>, idx: nat)
    requires PlacedBy(clients, owner)
    requires idx < |owner| && owner[idx] < |clients|
    ensures PlacedBy(clients[owner[idx] := clients[owner[idx]] + [idx]], owner)
  {
    var grown := clients[owner[idx] := clients[owner[idx]] + [idx]];
    forall j, x | 0 <= j < |grown| && x in grown[j] ensures x < |owner| && owner[x] == j {
      if j == owner[idx] && x == idx {
        assert owner[x] == j;
      } else if j == owner[idx] {
        assert grown[j] == clients[j] + [idx];
        assert x in clients[j];
        assert owner[x] == j;
      } else {
        assert grown[j] == clients[j];
        assert x in clients[j];
        assert owner[x] == j;
      }
    }
  }

  /** Clients placed by the owner sequence hold exactly what the draws assign them. */
  lemma PlacedByOwners(clients: seq<seq<nat>>, labels: seq<nat>, n: nat, numClients: nat,
                       toPreferred: seq<bool>, picks: seq<nat>)
    requires ChoiceDrawsOk(labels, n, numClients, toPreferred, picks)
    requires |clients| == numClients
    requires PlacedBy(clients, Owners(labels, n, numClients, toPreferred, picks))
    ensures forall j, x :: 0 <= j < numClients && x in clients[j] ==> x < |labels|
    ensures forall j, x :: 0 <= j < numClients && x in clients[j] ==>
      x < |labels| && j == AssignedClient(labels[x], numClients, n, toPreferred[x], picks[x])
  {
    var owner := Owners(labels, n, numClients, toPreferred, picks);
    forall j, x | 0 <= j < numClients && x in clients[j]
      ensures x < |labels| && j == AssignedClient(labels[x], numClients, n, toPreferred[x], picks[x])
    {
      assert x < |owner| && owner[x] == j;
    }
  }

  /** Appending the k-th index of a class list to its owner keeps every index
      with its owner and adds that index to the clients' contents. */
  lemma AssignOne(labels: seq<nat>, n: nat, numClients: nat, toPreferred: seq<bool>, picks: seq<nat>,
                  owner: seq<nat>, c: nat, classList: seq<nat>, clients: seq<seq<nat>>,
                  dealt: seq<seq<nat>>, k: nat, idx: nat)
    requires ChoiceDrawsOk(labels, n, numClients, toPreferred, picks)
    requires owner == Owners(labels, n, numClients, toPreferred, picks)
    requires multiset(classList) == multiset(IndicesOf(labels, c))
    requires k < |classList| && idx == classList[k]
    requires |dealt| == numClients && PlacedBy(dealt, owner)
    requires multiset(Flatten(dealt)) == multiset(Flatten(clients)) + multiset(classList[..k])
    ensures idx < |labels| && labels[idx] == c
    ensures owner[idx] == AssignedClient(c, numClients, n, toPreferred[idx], picks[idx])
    ensures PlacedBy(dealt[owner[idx] := dealt[owner[idx]] + [idx]], owner)
    ensures multiset(Flatten(dealt[owner[idx] := dealt[owner[idx]] + [idx]])) ==
      multiset(Flatten(clients)) + multiset(classList[..k + 1])
  {
    ClassListMember(labels, c, classList, idx);
    PlaceOne(dealt, owner, idx);
    FlattenAppendAt(dealt, owner[idx], [idx]);
    PrefixSnoc(classList, k);
  }

  /** The inner loop for one class: each index of the class's shuffled list
      is appended to the client its draws choose. */
  method AssignClass(labels: seq<nat>, n: nat, numClients: nat, toPreferred: seq<bool>, picks: seq<nat>,
                     ghost owner: seq<nat>, c: nat, classList: seq<nat>, clients: seq<seq<nat>>)
    returns (dealt: seq<seq<nat>>)
    requires ChoiceDrawsOk(labels, n, numClients, toPreferred, picks)
    requires owner == Owners(labels, n, numClients, toPreferred, picks)
    requires multiset(classList) == multiset(IndicesOf(labels, c))
    requires |clients| == numClients && PlacedBy(clients, owner)
    ensures |dealt| == numClients && PlacedBy(dealt, owner)
    ensures multiset(Flatten(dealt)) == multiset(Flatten(clients)) + multiset(classList)
  {
    dealt := clients;
    for k: nat := 0 to |classList|
      invariant |dealt| == numClients && PlacedBy(dealt, owner)
      invariant multiset(Flatten(dealt)) == multiset(Flatten(clients)) + multiset(classList[..k])
    {
      var idx := classList[k];
      AssignOne(labels, n, numClients, toPreferred, picks, owner, c, classList, clients, dealt, k, idx);
      var client := AssignedClient(c, numClients, n, toPreferred[idx], picks[idx]);
      dealt := dealt[client := dealt[client] + [idx]];
    }
    PrefixWhole(classList);
  }

  /** `split_dataset_non_iid`: group and shuffle by class, then append each
      index of each class list to the client its draws choose. The client
      lists partition the dataset, and each index sits with its assigned
      client. */
  method SplitNonIid(labels: seq<nat>, n: nat, numClients: nat, classDraws: seq<seq<nat>>,
                     toPreferred: seq<bool>, picks: seq<nat>) returns (clients: seq<seq<nat>>)
    requires numClients >= 1 && AllBelow(labels, n)
    requires ClassDrawsOk(labels, n, classDraws)
    requires ChoiceDrawsOk(labels, n, numClients, toPreferred, picks)
    ensures |clients| == numClients
    ensures Partitions(clients, |labels|)
    ensures forall j, x :: 0 <= j < numClients && x in clients[j] ==> x < |labels|
    ensures forall j, x :: 0 <= j < numClients && x in clients[j] ==>
      x < |labels| && j == AssignedClient(labels[x], numClients, n, toPreferred[x], picks[x])
  {
    var classLists := GroupAndShuffle(labels, n, classDraws);
    ghost var owner := Owners(labels, n, numClients, toPreferred, picks);
    clients := seq(numClients, _ => []);
    FlattenOfEmpties(clients);
    for c := 0 to n
      invariant |clients| == numClients
      invariant multiset(Flatten(clients)) == multiset(Flatten(classLists[..c]))
      invariant PlacedBy(clients, owner)
    {
      clients := AssignClass(labels, n, numClients, toPreferred, picks, owner, c, classLists[c], clients);
      FlattenSnoc(classLists[..c], classLists[c]);
      PrefixSnoc(classLists, c);
    }
    PrefixWhole(classLists);
    PlacedByOwners(clients, labels, n, numClients, toPreferred, picks);
  }

  // ---------------------------------------------------------------------
  // split_dataset_dirichlet
  // ---------------------------------------------------------------------

  /** `np.argsort(proportions[c])[-remainder:]` when remainder > 0: the last
      `remainder` entries of the ranking (all of it when remainder exceeds its
      length); nothing otherwise. */
  function TopUp(ranking: seq<nat>, remainder: int): (top: seq<nat>)
    ensures |top| == if remainder <= 0 then 0 else Min(remainder, |ranking|)
  {
    if remainder <= 0 then []
    else if remainder >= |ranking| then ranking
    else ranking[|ranking| - remainder..]
  }

  /** The top-up is the tail of the ranking: its k-th client is the ranking's
      entry k places after the cut. */
  lemma TopUpEntries(ranking: seq<nat>, remainder: int)
    ensures forall k :: 0 <= k < |TopUp(ranking, remainder)| ==>
      TopUp(ranking, remainder)[k] == ranking[|ranking| - |TopUp(ranking, remainder)| + k]
  {
  }

  /** The clients chosen for a top-up are distinct clients. */
  lemma TopUpFacts(ranking: seq<nat>, numClients: nat, remainder: int)
    requires IsPermutationOf(ranking, numClients)
    ensures |ranking| == numClients
    ensures AllBelow(TopUp(ranking, remainder), numClients)
    ensures NoDuplicates(TopUp(ranking, remainder))
  {
    PermutationFacts(ranking, numClients);
    if 0 < remainder < |ranking| {
      DropKeeps(ranking, |ranking| - remainder, numClients);
    }
  }

  /** A remainder within [0, len(ranking)] selects exactly that many clients. */
  lemma TopUpExact(ranking: seq<nat>, remainder: int)
    ensures 0 <= remainder <= |ranking| ==> |TopUp(ranking, remainder)| == remainder
  {
  }

  /** counts are the floors, raised by one for each client in top. */
  predicate RaisedFor(counts: seq<nat>, floors: seq<nat>, top: seq<nat>)
  {
    |counts| == |floors| &&
    forall i :: 0 <= i < |floors| ==> counts[i] == floors[i] + if i in top then 1 else 0
  }

  lemma RaisedStart(floors: seq<nat>, top: seq<nat>)
    ensures RaisedFor(floors, floors, top[..0])
  {
    assert top[..0] == [];
  }

  lemma RaiseOne(counts: seq<nat>, floors: seq<nat>, top: seq<nat>, k: nat)
    requires k < |top| && NoDuplicates(top) && AllBelow(top, |floors|)
    requires RaisedFor(counts, floors, top[..k]) && Sum(counts) == Sum(floors) + k
    ensures top[k] < |counts|
    ensures RaisedFor(counts[top[k] := counts[top[k]] + 1], floors, top[..k + 1])
    ensures Sum(counts[top[k] := counts[top[k]] + 1]) == Sum(floors) + k + 1
  {
    assert top[k] !in top[..k];
    SumIncrementAt(counts, top[k]);
    PrefixSnoc(top, k);
  }

  /** The loop `class_samples_per_client[c, idx] += 1` over the top-up
      clients: each listed client's count goes up by one, so the total goes
      up by the number of clients listed. */
  method RaiseAll(floors: seq<nat>, top: seq<nat>) returns (counts: seq<nat>)
    requires NoDuplicates(top) && AllBelow(top, |floors|)
    ensures RaisedFor(counts, floors, top)
    ensures Sum(counts) == Sum(floors) + |top|
  {
    counts := floors;
    RaisedStart(floors, top);
    for k: nat := 0 to |top|
      invariant RaisedFor(counts, floors, top[..k])
      invariant Sum(counts) == Sum(floors) + k
    {
      var idx := top[k];
      RaiseOne(counts, floors, top, k);
      counts := counts[idx := counts[idx] + 1];
    }
    PrefixWhole(top);
  }

  /** One class's row of `class_samples_per_client`: the floored counts, plus
      one for each client in the top-up. The row adds up to the floors plus
      the top-up size, which is exactly the class size whenever the
      remainder lies in [0, NUM_CLIENTS]. */
  method ClassCounts(floors: seq<nat>, ranking: seq<nat>, classSize: nat) returns (counts: seq<nat>)
    requires IsPermutationOf(ranking, |floors|)
    ensures RaisedFor(counts, floors, TopUp(ranking, classSize - Sum(floors)))
    ensures Sum(counts) == Sum(floors) + |TopUp(ranking, classSize - Sum(floors))|
    ensures 0 <= classSize - Sum(floors) <= |floors| ==> Sum(counts) == classSize
  {
    var remainder := classSize - Sum(floors);
    var top := TopUp(ranking, remainder);
    TopUpFacts(ranking, |floors|, remainder);
    counts := RaiseAll(floors, top);
    TopUpExact(ranking, remainder);
  }

  /** What `class_indices[c][start:end]` hands out under the guard
      `start < len`: the next `count` indices from start on, cut at the end of
      the list. Appended to the part before start, it gives the part before
      start + count. */
  function Chunk(s: seq<nat>, start: nat, count: nat): (r: seq<nat>)
    ensures |r| == if start < |s| then Min(count, |s| - start) else 0
    ensures forall i :: 0 <= i < |r| ==> r[i] == s[start + i]
  {
    if start < |s| then s[start..Min(start + count, |s|)] else []
  }

  /** A chunk continues the part of the list before its start: appended to
      it, the chunk gives the part before start + count. */
  lemma ChunkExtends(s: seq<nat>, start: nat, count: nat)
    ensures s[..Min(start, |s|)] + Chunk(s, start, count) == s[..Min(start + count, |s|)]
  {
  }

  /** The part of each class list that has been handed out once class c's
      running offset has reached starts[c]. */
  function Consumed(lists: seq<seq<nat>>, starts: seq<nat>): (r: seq<seq<nat>>)
    requires |starts| == |lists|
    ensures |r| == |lists|
  {
    seq(|lists|, c requires 0 <= c < |lists| => lists[c][..Min(starts[c], |lists[c]|)])
  }

  /** Moving one class's offset on by count consumes that class's next chunk. */
  lemma ConsumedStep(lists: seq<seq<nat>>, starts: seq<nat>, c: nat, start: nat, count: nat)
    requires |starts| == |lists| && c < |lists| && starts[c] == start
    ensures multiset(Flatten(Consumed(lists, starts[c := start + count]))) ==
      multiset(Flatten(Consumed(lists, starts))) + multiset(Chunk(lists[c], start, count))
  {
    var consumed := Consumed(lists, starts);
    ChunkExtends(lists[c], start, count);
    assert Consumed(lists, starts[c := start + count]) ==
      consumed[c := consumed[c] + Chunk(lists[c], start, count)];
    FlattenAppendAt(consumed, c, Chunk(lists[c], start, count));
  }

  /** The pieces client j receives from classes 0 .. upTo-1: from class c,
      counts[c][j] indices starting after those of clients 0 .. j-1. */
  function ClientPieces(lists: seq<seq<nat>>, counts: seq<seq<nat>>, j: nat, upTo: nat): (pieces: seq<seq<nat>>)
    requires upTo <= |lists| && |counts| == |lists|
    requires forall c :: 0 <= c < |counts| ==> j < |counts[c]|
    ensures |pieces| == upTo
  {
    seq(upTo, c requires 0 <= c < upTo => Chunk(lists[c], Sum(counts[c][..j]), counts[c][j]))
  }

  lemma ClientPiecesSnoc(lists: seq<seq<nat>>, counts: seq<seq<nat>>, j: nat, c: nat)
    requires c < |lists| && |counts| == |lists|
    requires forall k :: 0 <= k < |counts| ==> j < |counts[k]|
    ensures ClientPieces(lists, counts, j, c + 1) ==
      ClientPieces(lists, counts, j, c) + [Chunk(lists[c], Sum(counts[c][..j]), counts[c][j])]
  {
  }

  /** The total each class hands out: the sum of its row of counts. */
  function Totals(counts: seq<seq<nat>>): (t: seq<nat>)
    ensures |t| == |counts|
  {
    seq(|counts|, c requires 0 <= c < |counts| => Sum(counts[c]))
  }

  /** The loop counters are in range and every class has a count per client. */
  ghost predicate DealShape(lists: seq<seq<nat>>, counts: seq<seq<nat>>, numClients: nat, j: nat, c: nat)
  {
    |counts| == |lists| && (forall k :: 0 <= k < |counts| ==> |counts[k]| == numClients) &&
    j <= numClients && c <= |lists| && (j == numClients ==> c == 0)
  }

  /** Clients before j hold all their pieces, client j those of classes
      before c, and later clients nothing yet. */
  ghost predicate Served(lists: seq<seq<nat>>, counts: seq<seq<nat>>, numClients: nat,
                         clients: seq<seq<nat>>, j: nat, c: nat)
    requires DealShape(lists, counts, numClients, j, c)
  {
    |clients| == numClients &&
    (forall i :: 0 <= i < j ==> clients[i] == Flatten(ClientPieces(lists, counts, i, |lists|))) &&
    (forall i :: j < i < numClients ==> clients[i] == []) &&
    (j < numClients ==> clients[j] == Flatten(ClientPieces(lists, counts, j, c)))
  }

  /** Each class offset has moved past the chunks of the clients served from it. */
  ghost predicate Offsets(counts: seq<seq<nat>>, numClients: nat, starts: seq<nat>, j: nat, c: nat)
    requires (forall k :: 0 <= k < |counts| ==> |counts[k]| == numClients)
    requires j <= numClients && c <= |counts| && (j == numClients ==> c == 0)
  {
    |starts| == |counts| &&
    (forall k :: 0 <= k < c ==> starts[k] == Sum(counts[k][..j + 1])) &&
    (forall k :: c <= k < |counts| ==> starts[k] == Sum(counts[k][..j]))
  }

  /** The clients hold exactly the consumed prefixes of the class lists. */
  ghost predicate Balanced(lists: seq<seq<nat>>, clients: seq<seq<nat>>, starts: seq<nat>)
    requires |starts| == |lists|
  {
    multiset(Flatten(clients)) == multiset(Flatten(Consumed(lists, starts)))
  }

  /** The state of the distribution loop once clients 0 .. j-1 are served
      and client j has received its chunks of classes 0 .. c-1. */
  ghost predicate Dealing(lists: seq<seq<nat>>, counts: seq<seq<nat>>, numClients: nat,
                          clients: seq<seq<nat>>, starts: seq<nat>, j: nat, c: nat)
  {
    DealShape(lists, counts, numClients, j, c) &&
    Served(lists, counts, numClients, clients, j, c) &&
    Offsets(counts, numClients, starts, j, c) &&
    Balanced(lists, clients, starts)
  }

  lemma DealingStarts(lists: seq<seq<nat>>, counts: seq<seq<nat>>, numClients: nat)
    requires |counts| == |lists|
    requires forall k :: 0 <= k < |counts| ==> |counts[k]| == numClients
    ensures Dealing(lists, counts, numClients, seq(numClients, _ => []), seq(|lists|, _ => 0), 0, 0)
  {
    var clients: seq<seq<nat>> := seq(numClients, _ => []);
    var starts: seq<nat> := seq(|lists|, _ => 0);
    FlattenOfEmpties(clients);
    FlattenOfEmpties(Consumed(lists, starts));
    forall k | 0 <= k < |lists| ensures starts[k] == Sum(counts[k][..0]) {
      assert counts[k][..0] == [];
    }
  }

  lemma ServeOne(lists: seq<seq<nat>>, counts: seq<seq<nat>>, numClients: nat,
                 clients: seq<seq<nat>>, j: nat, c: nat, piece: seq<nat>)
    requires DealShape(lists, counts, numClients, j, c)
    requires Served(lists, counts, numClients, clients, j, c)
    requires j < numClients && c < |lists|
    requires piece == Chunk(lists[c], Sum(counts[c][..j]), counts[c][j])
    ensures DealShape(lists, counts, numClients, j, c + 1)
    ensures Served(lists, counts, numClients, clients[j := clients[j] + piece], j, c + 1)
  {
    ClientPiecesSnoc(lists, counts, j, c);
    FlattenSnoc(ClientPieces(lists, counts, j, c), piece);
  }

  lemma OffsetOne(counts: seq<seq<nat>>, numClients: nat, starts: seq<nat>, j: nat, c: nat)
    requires forall k :: 0 <= k < |counts| ==> |counts[k]| == numClients
    requires j < numClients && c < |counts|
    requires Offsets(counts, numClients, starts, j, c)
    ensures Offsets(counts, numClients, starts[c := starts[c] + counts[c][j]], j, c + 1)
  {
    SumPrefixStep(counts[c], j);
  }

  lemma BalanceOne(lists: seq<seq<nat>>, clients: seq<seq<nat>>, starts: seq<nat>, j: nat, c: nat,
                   start: nat, count: nat, piece: seq<nat>)
    requires |starts| == |lists| && j < |clients| && c < |lists|
    requires start == starts[c] && piece == Chunk(lists[c], start, count)
    requires Balanced(lists, clients, starts)
    ensures Balanced(lists, clients[j := clients[j] + piece], starts[c := start + count])
  {
    FlattenAppendAt(clients, j, piece);
    ConsumedStep(lists, starts, c, start, count);
  }

  /** Handing client j its chunk of class c moves the loop one class on. */
  lemma DealOne(lists: seq<seq<nat>>, counts: seq<seq<nat>>, numClients: nat,
                clients: seq<seq<nat>>, starts: seq<nat>, j: nat, c: nat,
                start: nat, count: nat, piece: seq<nat>)
    requires Dealing(lists, counts, numClients, clients, starts, j, c)
    requires j < numClients && c < |lists|
    requires start == starts[c] && count == counts[c][j] && piece == Chunk(lists[c], start, count)
    ensures Dealing(lists, counts, numClients, clients[j := clients[j] + piece], starts[c := start + count], j, c + 1)
  {
    ServeOne(lists, counts, numClients, clients, j, c, piece);
    OffsetOne(counts, numClients, starts, j, c);
    BalanceOne(lists, clients, starts, j, c, start, count, piece);
  }

  /** Once client j has its chunk of every class, the loop moves to client j + 1. */
  lemma DealNextClient(lists: seq<seq<nat>>, counts: seq<seq<nat>>, numClients: nat,
                       clients: seq<seq<nat>>, starts: seq<nat>, j: nat)
    requires Dealing(lists, counts, numClients, clients, starts, j, |lists|)
    requires j < numClients
    ensures Dealing(lists, counts, numClients, clients, starts, j + 1, 0)
  {
    if j + 1 < numClients {
      assert clients[j + 1] == [];
      assert ClientPieces(lists, counts, j + 1, 0) == [];
    }
  }

  /** After the last client, every offset is its class total. */
  lemma DealingDone(lists: seq<seq<nat>>, counts: seq<seq<nat>>, numClients: nat,
                    clients: seq<seq<nat>>, starts: seq<nat>)
    requires Dealing(lists, counts, numClients, clients, starts, numClients, 0)
    ensures |clients| == numClients
    ensures forall j :: 0 <= j < numClients ==> clients[j] == Flatten(ClientPieces(lists, counts, j, |lists|))
    ensures multiset(Flatten(clients)) == multiset(Flatten(Consumed(lists, Totals(counts))))
  {
    forall c | 0 <= c < |lists| ensures starts[c] == Sum(counts[c]) {
      assert counts[c][..numClients] == counts[c];
    }
    assert starts == Totals(counts);
  }

  /** One step of the inner loop: client j receives the next counts[c][j]
      indices of class list c (cut at its end), and the class offset moves on
      by that count. */
  method DealClass(lists: seq<seq<nat>>, counts: seq<seq<nat>>, numClients: nat,
                   clients: seq<seq<nat>>, starts: array<nat>, j: nat, c: nat) returns (served: seq<seq<nat>>)
    requires starts.Length == |lists| && j < numClients && c < |lists|
    requires Dealing(lists, counts, numClients, clients, starts[..], j, c)
    modifies starts
    ensures Dealing(lists, counts, numClients, served, starts[..], j, c + 1)
  {
    var count := counts[c][j];
    var start := starts[c];
    var end: nat := start + count;
    ghost var before := starts[..];
    ghost var piece := Chunk(lists[c], start, count);
    DealOne(lists, counts, numClients, clients, before, j, c, start, count, piece);
    if start < |lists[c]| {
      var slice := lists[c][start..Min(end, |lists[c]|)];
      assert slice == piece;
      served := clients[j := clients[j] + slice];
    } else {
      assert clients[j] + piece == clients[j];
      served := clients;
    }
    assert served == clients[j := clients[j] + piece];
    starts[c] := end;
    assert starts[..] == before[c := end];
  }

  /** One pass of the inner loop over the classes, serving client j. */
  method DealToClient(lists: seq<seq<nat>>, counts: seq<seq<nat>>, numClients: nat,
                      clients: seq<seq<nat>>, starts: array<nat>, j: nat) returns (served: seq<seq<nat>>)
    requires starts.Length == |lists| && j < numClients
    requires Dealing(lists, counts, numClients, clients, starts[..], j, 0)
    modifies starts
    ensures Dealing(lists, counts, numClients, served, starts[..], j + 1, 0)
  {
    served := clients;
    for c := 0 to |lists|
      invariant Dealing(lists, counts, numClients, served, starts[..], j, c)
    {
      served := DealClass(lists, counts, numClients, served, starts, j, c);
    }
    DealNextClient(lists, counts, numClients, served, starts[..], j);
  }

  /** The distribution loop with its running offsets `start_idxs`: client j
      receives, class by class, the next counts[c][j] indices of each class
      list, and the clients together hold exactly the handed-out prefixes of
      the class lists. */
  method DistributeChunks(lists: seq<seq<nat>>, counts: seq<seq<nat>>, numClients: nat) returns (clients: seq<seq<nat>>)
    requires |counts| == |lists|
    requires forall c :: 0 <= c < |counts| ==> |counts[c]| == numClients
    ensures |clients| == numClients
    ensures forall j :: 0 <= j < numClients ==> clients[j] == Flatten(ClientPieces(lists, counts, j, |lists|))
    ensures multiset(Flatten(clients)) == multiset(Flatten(Consumed(lists, Totals(counts))))
  {
    clients := seq(numClients, _ => []);
    var starts := new nat[|lists|](_ => 0);
    assert starts[..] == seq(|lists|, _ => 0);
    DealingStarts(lists, counts, numClients);
    for j := 0 to numClients
      invariant fresh(starts) && starts.Length == |lists|
      invariant Dealing(lists, counts, numClients, clients, starts[..], j, 0)
    {
      clients := DealToClient(lists, counts, numClients, clients, starts, j);
    }
    DealingDone(lists, counts, numClients, clients, starts[..]);
  }

  /** The Dirichlet draws: for every class, the floored per-client counts
      `floor(proportions[c] * class_size)` and the ranking `argsort` gives,
      a permutation of the clients. */
  predicate DirichletDrawsOk(n: nat, numClients: nat, floors: seq<seq<nat>>, rankings: seq<seq<nat>>)
  {
    |floors| == n && |rankings| == n &&
    forall c :: 0 <= c < n ==> |floors[c]| == numClients && IsPermutationOf(rankings[c], numClients)
  }

  /** Row k of `class_samples_per_client`: one count per client, the floors
      of class k raised by one for each of its top-up clients. */
  predicate RowFits(row: seq<nat>, classSize: nat, floors: seq<nat>, ranking: seq<nat>, numClients: nat)
  {
    |row| == numClients && RaisedFor(row, floors, TopUp(ranking, classSize - Sum(floors)))
  }

  /** Rows 0 .. m-1 of `class_samples_per_client` are in place, stated row
      by row from row m-1 back. */
  predicate RowsFit(counts: seq<seq<nat>>, classLists: seq<seq<nat>>, floors: seq<seq<nat>>,
                    rankings: seq<seq<nat>>, numClients: nat, m: nat)
    decreases m
  {
    m <= |counts| && m <= |classLists| && m <= |floors| && m <= |rankings| &&
    (m > 0 ==>
      RowsFit(counts, classLists, floors, rankings, numClients, m - 1) &&
      RowFits(counts[m - 1], |classLists[m - 1]|, floors[m - 1], rankings[m - 1], numClients))
  }

  /** Appending a row leaves the rows before it in place. */
  lemma {:induction false} RowsKept(counts: seq<seq<nat>>, classLists: seq<seq<nat>>, floors: seq<seq<nat>>,
                                   rankings: seq<seq<nat>>, numClients: nat, row: seq<nat>, m: nat)
    requires RowsFit(counts, classLists, floors, rankings, numClients, m)
    ensures RowsFit(counts + [row], classLists, floors, rankings, numClients, m)
    decreases m
  {
    if m > 0 {
      RowsKept(counts, classLists, floors, rankings, numClients, row, m - 1);
      assert (counts + [row])[m - 1] == counts[m - 1];
    }
  }

  /** Every row in place is as `DirichletCounts` promises. */
  lemma {:induction false} RowAt(counts: seq<seq<nat>>, classLists: seq<seq<nat>>, floors: seq<seq<nat>>,
                                 rankings: seq<seq<nat>>, numClients: nat, m: nat, c: nat)
    requires RowsFit(counts, classLists, floors, rankings, numClients, m)
    requires c < m
    ensures RowFits(counts[c], |classLists[c]|, floors[c], rankings[c], numClients)
    decreases m
  {
    if c < m - 1 {
      RowAt(counts, classLists, floors, rankings, numClients, m - 1, c);
    } else {
      assert c == m - 1;
    }
  }

  /** Rows 0 .. m-1 each add up to their class size whenever the class's
      remainder lies in [0, NUM_CLIENTS]. */
  predicate RowsAddUp(counts: seq<seq<nat>>, classLists: seq<seq<nat>>, floors: seq<seq<nat>>, numClients: nat, m: nat)
    decreases m
  {
    m <= |counts| && m <= |classLists| && m <= |floors| &&
    (m > 0 ==>
      RowsAddUp(counts, classLists, floors, numClients, m - 1) &&
      (0 <= |classLists[m - 1]| - Sum(floors[m - 1]) <= numClients ==> Sum(counts[m - 1]) == |classLists[m - 1]|))
  }

  /** Appending a row leaves the sums of the rows before it as they were. */
  lemma {:induction false} SumsKept(counts: seq<seq<nat>>, classLists: seq<seq<nat>>, floors: seq<seq<nat>>,
                                   numClients: nat, row: seq<nat>, m: nat)
    requires RowsAddUp(counts, classLists, floors, numClients, m)
    ensures RowsAddUp(counts + [row], classLists, floors, numClients, m)
    decreases m
  {
    if m > 0 {
      SumsKept(counts, classLists, floors, numClients, row, m - 1);
      assert (counts + [row])[m - 1] == counts[m - 1];
    }
  }

  /** Every row in place adds up as `DirichletCounts` promises. */
  lemma {:induction false} SumAt(counts: seq<seq<nat>>, classLists: seq<seq<nat>>, floors: seq<seq<nat>>,
                                numClients: nat, m: nat, c: nat)
    requires RowsAddUp(counts, classLists, floors, numClients, m)
    requires c < m
    ensures 0 <= |classLists[c]| - Sum(floors[c]) <= numClients ==> Sum(counts[c]) == |classLists[c]|
    decreases m
  {
    if c < m - 1 {
      SumAt(counts, classLists, floors, numClients, m - 1, c);
    }
  }

  /** The loop building `class_samples_per_client`, one row per class. */
  method DirichletCounts(classLists: seq<seq<nat>>, numClients: nat, floors: seq<seq<nat>>, rankings: seq<seq<nat>>)
    returns (counts: seq<seq<nat>>)
    requires DirichletDrawsOk(|classLists|, numClients, floors, rankings)
    ensures |counts| == |classLists|
    ensures forall c :: 0 <= c < |counts| ==> RowFits(counts[c], |classLists[c]|, floors[c], rankings[c], numClients)
    ensures forall c :: 0 <= c < |counts| ==>
      (0 <= |classLists[c]| - Sum(floors[c]) <= numClients ==> Sum(counts[c]) == |classLists[c]|)
  {
    counts := [];
    for c: nat := 0 to |classLists|
      invariant |counts| == c
      invariant RowsFit(counts, classLists, floors, rankings, numClients, c)
      invariant RowsAddUp(counts, classLists, floors, numClients, c)
    {
      var row := ClassCounts(floors[c], rankings[c], |classLists[c]|);
      RowsKept(counts, classLists, floors, rankings, numClients, row, c);
      SumsKept(counts, classLists, floors, numClients, row, c);
      counts := counts + [row];
    }
    forall c | 0 <= c < |counts|
      ensures RowFits(counts[c], |classLists[c]|, floors[c], rankings[c], numClients)
      ensures 0 <= |classLists[c]| - Sum(floors[c]) <= numClients ==> Sum(counts[c]) == |classLists[c]|
    {
      RowAt(counts, classLists, floors, rankings, numClients, |counts|, c);
      SumAt(counts, classLists, floors, numClients, |counts|, c);
    }
  }

  /** The consumed prefixes are part of the class lists. */
  lemma ConsumedWithin(lists: seq<seq<nat>>, ends: seq<nat>)
    requires |ends| == |lists|
    ensures multiset(Flatten(Consumed(lists, ends))) <= multiset(Flatten(lists))
  {
    var handedOut := Consumed(lists, ends);
    forall c | 0 <= c < |lists| ensures multiset(handedOut[c]) <= multiset(lists[c]) {
      var s := lists[c];
      var k := Min(ends[c], |s|);
      assert s == s[..k] + s[k..];
    }
    FlattenSubContents(handedOut, lists);
  }

  /** When every offset reaches the end of its list, everything is consumed. */
  lemma ConsumedAll(lists: seq<seq<nat>>, ends: seq<nat>)
    requires |ends| == |lists|
    requires forall c :: 0 <= c < |lists| ==> ends[c] == |lists[c]|
    ensures Consumed(lists, ends) == lists
  {
    var handedOut := Consumed(lists, ends);
    forall c | 0 <= c < |lists| ensures handedOut[c] == lists[c] {
      PrefixWhole(lists[c]);
    }
  }

  /** What `split_dataset_dirichlet` deals out: classLists are the shuffled
      class lists (each a rearrangement of its class's indices), counts[c] is
      class c's row of `class_samples_per_client` (`RowFits`: its floors plus
      one for each of its top-up clients), and client j holds, class by class, the
      counts[c][j] indices of class list c that follow those of clients
      0 .. j-1. */
  predicate DirichletDealt(labels: seq<nat>, n: nat, numClients: nat, floors: seq<seq<nat>>,
                           rankings: seq<seq<nat>>, classLists: seq<seq<nat>>, counts: seq<seq<nat>>,
                           clients: seq<seq<nat>>)
    requires DirichletDrawsOk(n, numClients, floors, rankings)
  {
    |classLists| == n && |counts| == n &&
    (forall c :: 0 <= c < n ==> multiset(classLists[c]) == multiset(IndicesOf(labels, c))) &&
    (forall c :: 0 <= c < n ==> RowFits(counts[c], |classLists[c]|, floors[c], rankings[c], numClients)) &&
    |clients| == numClients &&
    forall j :: 0 <= j < numClients ==> clients[j] == Flatten(ClientPieces(classLists, counts, j, n))
  }

  /** `split_dataset_dirichlet`: each client receives, from every class, its
      floored count plus one if it is a top-up client, taken consecutively
      from the shuffled class list. No index is ever handed out twice, and
      when every class's remainder lies in [0, NUM_CLIENTS] (as it does when
      the proportions of a class sum to one) the clients partition the
      dataset. */
  method SplitDirichlet(labels: seq<nat>, n: nat, numClients: nat, classDraws: seq<seq<nat>>,
                        floors: seq<seq<nat>>, rankings: seq<seq<nat>>)
    returns (clients: seq<seq<nat>>, ghost classLists: seq<seq<nat>>, ghost counts: seq<seq<nat>>)
    requires numClients >= 1 && AllBelow(labels, n)
    requires ClassDrawsOk(labels, n, classDraws)
    requires DirichletDrawsOk(n, numClients, floors, rankings)
    ensures DirichletDealt(labels, n, numClients, floors, rankings, classLists, counts, clients)
    ensures |clients| == numClients
    ensures multiset(Flatten(clients)) <= multiset(Range(|labels|))
    ensures (forall c :: 0 <= c < n ==> 0 <= |IndicesOf(labels, c)| - Sum(floors[c]) <= numClients) ==>
      Partitions(clients, |labels|)
  {
    var lists := GroupAndShuffle(labels, n, classDraws);
    var table := DirichletCounts(lists, numClients, floors, rankings);
    clients := DistributeChunks(lists, table, numClients);
    classLists, counts := lists, table;
    ConsumedWithin(lists, Totals(table));
    if forall c :: 0 <= c < n ==> 0 <= |IndicesOf(labels, c)| - Sum(floors[c]) <= numClients {
      ConsumedAll(lists, Totals(table));
    }
  }

  // ---------------------------------------------------------------------
  // split_dataset
  // ---------------------------------------------------------------------

  /** Every random draw a split may make. */
  datatype Draws = Draws(
    indexShuffle: seq<nat>,          // random.shuffle of list(range(len)) (IID)
    classShuffles: seq<seq<nat>>,    // random.shuffle of each class list
    toPreferred: seq<bool>,          // per sample: random.random() < Q
    picks: seq<nat>,                 // per sample: the random.choice position
    floors: seq<seq<nat>>,           // per class and client: the floored Dirichlet count
    rankings: seq<seq<nat>>)         // per class: argsort of the Dirichlet proportions

  /** `split_dataset`: dispatch on the distribution type; any other name is
      the source's ValueError. */
  method SplitDataset(labels: seq<nat>, n: nat, numClients: nat, distributionType: string, draws: Draws)
    returns (r: Result<seq<seq<nat>>>)
    requires numClients >= 1
    requires distributionType == "iid" ==> ValidDraws(draws.indexShuffle, |labels|)
    requires distributionType == "label_skew" ==>
      AllBelow(labels, n) && ClassDrawsOk(labels, n, draws.classShuffles) &&
      ChoiceDrawsOk(labels, n, numClients, draws.toPreferred, draws.picks)
    requires distributionType == "dirichlet" ==>
      AllBelow(labels, n) && ClassDrawsOk(labels, n, draws.classShuffles) &&
      DirichletDrawsOk(n, numClients, draws.floors, draws.rankings)
    ensures r.Failure? <==> distributionType !in {"iid", "label_skew", "dirichlet"}
    ensures r.Success? ==> |r.value| == numClients
    ensures r.Success? ==> multiset(Flatten(r.value)) <= multiset(Range(|labels|))
    ensures r.Success? && distributionType != "dirichlet" ==> Partitions(r.value, |labels|)
    ensures r.Success? && distributionType == "iid" ==>
      (forall i :: 0 <= i < numClients - 1 ==> |r.value[i]| == |labels| / numClients) &&
      |r.value[numClients - 1]| == |labels| - (numClients - 1) * (|labels| / numClients)
    ensures r.Success? && distributionType == "label_skew" ==>
      forall j, x :: 0 <= j < numClients && x in r.value[j] ==>
        x < |labels| && j == AssignedClient(labels[x], numClients, n, draws.toPreferred[x], draws.picks[x])
    ensures r.Success? && distributionType == "dirichlet" ==>
      exists classLists, counts :: DirichletDealt(labels, n, numClients, draws.floors, draws.rankings,
                                                  classLists, counts, r.value)
    ensures r.Success? && distributionType == "dirichlet" ==>
      (forall c :: 0 <= c < n ==> 0 <= |IndicesOf(labels, c)| - Sum(draws.floors[c]) <= numClients) ==>
        Partitions(r.value, |labels|)
  {
    if distributionType == "iid" {
      var clients := SplitIid(|labels|, numClients, draws.indexShuffle);
      r := Success(clients);
    } else if distributionType == "label_skew" {
      var clients := SplitNonIid(labels, n, numClients, draws.classShuffles, draws.toPreferred, draws.picks);
      r := Success(clients);
    } else if distributionType == "dirichlet" {
      var clients, classLists, counts := SplitDirichlet(labels, n, numClients, draws.classShuffles,
                                                        draws.floors, draws.rankings);
      r := Success(clients);
      assert DirichletDealt(labels, n, numClients, draws.floors, draws.rankings, classLists, counts, r.value);
    } else {
      r := Failure("Unknown distribution type: " + distributionType);
    }
  }
}
