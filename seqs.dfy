/** Sequence vocabulary shared by the dataset model: index ranges, the
    indices of the samples of a class, the concatenation of per-client index
    lists, sums of counts, and what it means for a family of index lists to
    partition a dataset. */
module Seqs {

  function Min(a: int, b: int): int
  {
    if a <= b then a else b
  }

  datatype Result<T> = Success(value: T) | Failure(error: string)

  /** The indices of the samples whose label is c (when same holds) or is
      not c (otherwise), in increasing order. */
  function IndicesWhere(labels: seq<nat>, c: nat, same: bool): (r: seq<nat>)
    ensures forall x :: x in r <==> 0 <= x < |labels| && (labels[x] == c) == same
    ensures forall i, j :: 0 <= i < j < |r| ==> r[i] < r[j]
  {
    if labels == [] then []
    else
      var last := |labels| - 1;
      var earlier := IndicesWhere(labels[..last], c, same);
      assert forall i :: 0 <= i < |earlier| ==> earlier[i] < last by {
        forall i | 0 <= i < |earlier| ensures earlier[i] < last {
          assert earlier[i] in earlier;
        }
      }
      earlier + (if (labels[last] == c) == same then [last] else [])
  }

  /** The indices of the samples labelled c, in increasing order. */
  function IndicesOf(labels: seq<nat>, c: nat): (r: seq<nat>)
    ensures forall x :: x in r <==> 0 <= x < |labels| && labels[x] == c
    ensures forall i, j :: 0 <= i < j < |r| ==> r[i] < r[j]
  {
    IndicesWhere(labels, c, true)
  }

  /** The indices of the samples whose label is not c, in increasing order. */
  function IndicesNotOf(labels: seq<nat>, c: nat): (r: seq<nat>)
    ensures forall x :: x in r <==> 0 <= x < |labels| && labels[x] != c
    ensures forall i, j :: 0 <= i < j < |r| ==> r[i] < r[j]
  {
    IndicesWhere(labels, c, false)
  }

  /** Every entry lies in [0, n): labels of an n-class dataset, or indices
      into a dataset of n samples. */
  predicate AllBelow(s: seq<nat>, n: nat)
  {
    forall i :: 0 <= i < |s| ==> s[i] < n
  }

  predicate NoDuplicates<T(==)>(s: seq<T>)
  {
    forall i, j :: 0 <= i < j < |s| ==> s[i] != s[j]
  }

  /** Python's list(range(n)). */
  function Range(n: nat): (r: seq<nat>)
    ensures |r| == n
    ensures forall i :: 0 <= i < n ==> r[i] == i
  {
    seq(n, i => i)
  }

  lemma RangeSnoc(n: nat)
    ensures Range(n + 1) == Range(n) + [n]
  {
  }

  /** Handing the next index to any one list keeps a partition a partition. */
  lemma PartitionsGrow(cs: seq<seq<nat>>, i: nat, size: nat)
    requires Partitions(cs, size) && i < |cs|
    ensures Partitions(cs[i := cs[i] + [size]], size + 1)
  {
    FlattenAppendAt(cs, i, [size]);
    RangeSnoc(size);
  }

  /** Python's list(range(lo, hi)). */
  function RangeFrom(lo: nat, hi: nat): (r: seq<nat>)
    requires lo <= hi
    ensures |r| == hi - lo
    ensures forall i :: 0 <= i < hi - lo ==> r[i] == lo + i
  {
    seq(hi - lo, i requires 0 <= i < hi - lo => lo + i)
  }

  /** The concatenation of a list of lists, in order. */
  function Flatten<T>(ss: seq<seq<T>>): seq<T>
  {
    if ss == [] then [] else Flatten(ss[..|ss| - 1]) + ss[|ss| - 1]
  }

  /** Python's sum() over a list of counts. */
  function Sum(s: seq<nat>): nat
  {
    if s == [] then 0 else Sum(s[..|s| - 1]) + s[|s| - 1]
  }

  /** The lists cs together hold every index 0 .. size-1 exactly once. */
  predicate Partitions(cs: seq<seq<nat>>, size: nat)
  {
    multiset(Flatten(cs)) == multiset(Range(size))
  }

  /** p is a rearrangement of 0 .. n-1 (a shuffled range, an argsort). */
  predicate IsPermutationOf(p: seq<nat>, n: nat)
  {
    multiset(p) == multiset(Range(n))
  }

  lemma PrefixWhole<T>(s: seq<T>)
    ensures s[..|s|] == s
  {
  }

  lemma PrefixSnoc<T>(s: seq<T>, k: nat)
    requires k < |s|
    ensures s[..k + 1] == s[..k] + [s[k]]
  {
  }

  lemma FlattenSnoc<T>(ss: seq<seq<T>>, s: seq<T>)
    ensures Flatten(ss + [s]) == Flatten(ss) + s
  {
    assert (ss + [s])[..|ss|] == ss;
  }

  lemma {:induction false} FlattenOfEmpties<T>(ss: seq<seq<T>>)
    requires forall i :: 0 <= i < |ss| ==> ss[i] == []
    ensures Flatten(ss) == []
  {
    if ss != [] {
      FlattenOfEmpties(ss[..|ss| - 1]);
    }
  }

  /** Appending xs to one list adds exactly xs to the concatenation's contents. */
  lemma {:induction false} FlattenAppendAt<T>(ss: seq<seq<T>>, i: nat, xs: seq<T>)
    requires i < |ss|
    ensures multiset(Flatten(ss[i := ss[i] + xs])) == multiset(Flatten(ss)) + multiset(xs)
  {
    var last := |ss| - 1;
    var ts := ss[i := ss[i] + xs];
    assert Flatten(ts) == Flatten(ts[..last]) + ts[last];
    assert Flatten(ss) == Flatten(ss[..last]) + ss[last];
    if i == last {
      assert ts[..last] == ss[..last];
    } else {
      assert ts[..last] == ss[..last][i := ss[i] + xs];
      FlattenAppendAt(ss[..last], i, xs);
      assert ts[last] == ss[last];
    }
  }

  /** Lists with pointwise equal contents have equally filled concatenations. */
  lemma {:induction false} FlattenSameContents<T>(xss: seq<seq<T>>, yss: seq<seq<T>>)
    requires |xss| == |yss|
    requires forall i :: 0 <= i < |xss| ==> multiset(xss[i]) == multiset(yss[i])
    ensures multiset(Flatten(xss)) == multiset(Flatten(yss))
  {
    if xss != [] {
      FlattenSameContents(xss[..|xss| - 1], yss[..|yss| - 1]);
    }
  }

  /** Pointwise sub-contents give sub-contents of the concatenation. */
  lemma {:induction false} FlattenSubContents<T>(xss: seq<seq<T>>, yss: seq<seq<T>>)
    requires |xss| == |yss|
    requires forall i :: 0 <= i < |xss| ==> multiset(xss[i]) <= multiset(yss[i])
    ensures multiset(Flatten(xss)) <= multiset(Flatten(yss))
  {
    if xss != [] {
      FlattenSubContents(xss[..|xss| - 1], yss[..|yss| - 1]);
    }
  }

  /** Raising one count by one raises the total by one. */
  lemma {:induction false} SumIncrementAt(s: seq<nat>, i: nat)
    requires i < |s|
    ensures Sum(s[i := s[i] + 1]) == Sum(s) + 1
  {
    var last := |s| - 1;
    var t := s[i := s[i] + 1];
    if i == last {
      assert t[..last] == s[..last];
    } else {
      assert t[..last] == s[..last][i := s[i] + 1];
      SumIncrementAt(s[..last], i);
    }
  }

  lemma SumPrefixStep(s: seq<nat>, j: nat)
    requires j < |s|
    ensures Sum(s[..j + 1]) == Sum(s[..j]) + s[j]
  {
    assert s[..j + 1][..j] == s[..j];
  }

  /** Each of 0 .. n-1 occurs once in Range(n), and nothing else occurs. */
  lemma {:induction false} RangeCount(n: nat, x: nat)
    ensures multiset(Range(n))[x] == if x < n then 1 else 0
  {
    if n > 0 {
      assert Range(n) == Range(n - 1) + [n - 1];
      RangeCount(n - 1, x);
    }
  }

  lemma DuplicateCount<T>(s: seq<T>, a: nat, b: nat)
    requires a < b < |s| && s[a] == s[b]
    ensures multiset(s)[s[a]] >= 2
  {
    assert s == s[..b] + [s[b]] + s[b + 1..];
    assert s[a] in s[..b];
  }

  /** Each list, and each pair of distinct lists, is part of the concatenation. */
  lemma {:induction false} FlattenPieces<T>(ss: seq<seq<T>>, i: nat, j: nat)
    requires i < j < |ss|
    ensures multiset(ss[i]) + multiset(ss[j]) <= multiset(Flatten(ss))
    ensures multiset(ss[j]) <= multiset(Flatten(ss))
  {
    var last := |ss| - 1;
    if j == last {
      FlattenPiece(ss[..last], i);
    } else {
      FlattenPieces(ss[..last], i, j);
    }
  }

  lemma {:induction false} FlattenPiece<T>(ss: seq<seq<T>>, i: nat)
    requires i < |ss|
    ensures multiset(ss[i]) <= multiset(Flatten(ss))
  {
    var last := |ss| - 1;
    if i < last {
      FlattenPiece(ss[..last], i);
    }
  }

  /** Under a partition, an index that some list holds occurs in no other
      list and only once in its own. */
  lemma {:induction false} PartitionMember(cs: seq<seq<nat>>, size: nat, i: nat, x: nat)
    requires Partitions(cs, size)
    requires i < |cs| && x in cs[i]
    ensures x < size
    ensures multiset(cs[i])[x] == 1
    ensures forall j :: 0 <= j < |cs| && j != i ==> x !in cs[j]
  {
    RangeCount(size, x);
    FlattenPiece(cs, i);
    forall j | 0 <= j < |cs| && j != i ensures x !in cs[j] {
      if j < i { FlattenPieces(cs, j, i); } else { FlattenPieces(cs, i, j); }
    }
  }

  lemma NoDuplicatesByCount(s: seq<nat>)
    requires forall x :: x in s ==> multiset(s)[x] == 1
    ensures NoDuplicates(s)
  {
    forall a, b | 0 <= a < b < |s| ensures s[a] != s[b] {
      if s[a] == s[b] {
        DuplicateCount(s, a, b);
      }
    }
  }

  /** What Partitions promises, spelled out: every index in [0, size) lands
      exactly once, no list holds anything else, no two lists share an
      index, and no list repeats one. */
  lemma PartitionFacts(cs: seq<seq<nat>>, size: nat)
    requires Partitions(cs, size)
    ensures forall x :: 0 <= x < size ==> x in Flatten(cs)
    ensures forall i, x :: 0 <= i < |cs| && x in cs[i] ==> x < size
    ensures forall i, j, x :: 0 <= i < j < |cs| && x in cs[i] ==> x !in cs[j]
    ensures forall i :: 0 <= i < |cs| ==> NoDuplicates(cs[i])
  {
    forall x | 0 <= x < size ensures x in Flatten(cs) {
      RangeCount(size, x);
    }
    forall i, x | 0 <= i < |cs| && x in cs[i] ensures x < size {
      PartitionMember(cs, size, i, x);
    }
    forall i, j, x | 0 <= i < j < |cs| && x in cs[i] ensures x !in cs[j] {
      PartitionMember(cs, size, i, x);
    }
    forall i | 0 <= i < |cs| ensures NoDuplicates(cs[i]) {
      forall x | x in cs[i] ensures multiset(cs[i])[x] == 1 {
        PartitionMember(cs, size, i, x);
      }
      NoDuplicatesByCount(cs[i]);
    }
  }

  /** Dropping a prefix keeps entries in range and distinct. */
  lemma DropKeeps(s: seq<nat>, k: nat, n: nat)
    requires k <= |s| && AllBelow(s, n) && NoDuplicates(s)
    ensures AllBelow(s[k..], n) && NoDuplicates(s[k..])
  {
    forall a, b | 0 <= a < b < |s| - k ensures s[k..][a] != s[k..][b] {
      assert s[k..][a] == s[k + a] && s[k..][b] == s[k + b];
    }
  }

  /** Two repeat-free lists with no common entry concatenate to a repeat-free list. */
  lemma NoDuplicatesConcat(a: seq<nat>, b: seq<nat>)
    requires NoDuplicates(a) && NoDuplicates(b)
    requires forall x :: x in a ==> x !in b
    ensures NoDuplicates(a + b)
  {
    var ab := a + b;
    forall i, j | 0 <= i < j < |ab| ensures ab[i] != ab[j] {
      if i < |a| && j >= |a| {
        assert ab[i] in a && ab[j] == b[j - |a|];
      } else if i >= |a| {
        assert ab[i] == b[i - |a|] && ab[j] == b[j - |a|];
      }
    }
  }

  /** A permutation of 0 .. n-1 has n entries, all below n, none repeated. */
  lemma PermutationFacts(p: seq<nat>, n: nat)
    requires IsPermutationOf(p, n)
    ensures |p| == n
    ensures AllBelow(p, n)
    ensures NoDuplicates(p)
  {
    assert |multiset(p)| == |multiset(Range(n))|;
    forall i | 0 <= i < |p| ensures p[i] < n {
      assert multiset(p)[p[i]] >= 1;
      RangeCount(n, p[i]);
    }
    forall a, b | 0 <= a < b < |p| ensures p[a] != p[b] {
      if p[a] == p[b] {
        DuplicateCount(p, a, b);
        RangeCount(n, p[a]);
      }
    }
  }
}
