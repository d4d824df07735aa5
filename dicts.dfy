/**
 * The string-keyed integer dictionaries the run analysis accumulates into,
 * as Python keeps them: one entry per key, in the order the keys were first
 * inserted.
 */
module Dicts {

  datatype Entry = Entry(key: string, value: int)

  /** A dictionary as its entries in insertion order. */
  type Dict = seq<Entry>

  /** The keys, in insertion order: what iterating over the dictionary yields. */
  function Keys(d: Dict): (ks: seq<string>)
    ensures |ks| == |d|
    ensures forall i :: 0 <= i < |d| ==> ks[i] == d[i].key
  {
    seq(|d|, i requires 0 <= i < |d| => d[i].key)
  }

  /** No key occurs twice. */
  predicate UniqueKeys(d: Dict)
  {
    forall i, j :: 0 <= i < j < |d| ==> d[i].key != d[j].key
  }

  /** The first position at or after `from` that holds key `k`, or -1. */
  function FindFrom(d: Dict, k: string, from: nat): (i: int)
    requires from <= |d|
    ensures i == -1 || from <= i < |d|
    ensures i >= 0 ==> d[i].key == k
    ensures forall j :: from <= j < |d| && (i == -1 || j < i) ==> d[j].key != k
    decreases |d| - from
  {
    if from == |d| then -1
    else if d[from].key == k then from
    else FindFrom(d, k, from + 1)
  }

  /** The position of key `k`, or -1 when it is absent. */
  function Find(d: Dict, k: string): (i: int)
    ensures i == -1 <==> k !in Keys(d)
    ensures i >= 0 ==> i < |d| && d[i].key == k
  {
    var i := FindFrom(d, k, 0);
    assert i >= 0 ==> Keys(d)[i] == k;
    i
  }

  /** `d.get(k, default)`. */
  function Get(d: Dict, k: string, default: int): int
  {
    var i := Find(d, k);
    if i < 0 then default else d[i].value
  }

  /**
   * `d[k] = d.get(k, 0) + delta`: an existing key keeps its place and gains
   * `delta`; a new key goes at the end with value `delta`.
   */
  function Accumulate(d: Dict, k: string, delta: int): Dict
  {
    var i := Find(d, k);
    if i < 0 then d + [Entry(k, delta)] else d[i := Entry(k, d[i].value + delta)]
  }

  /** Accumulating changes the value of `k` by `delta` and no other value. */
  lemma AccumulateGet(d: Dict, k: string, delta: int, other: string)
    ensures Get(Accumulate(d, k, delta), k, 0) == Get(d, k, 0) + delta
    ensures other != k ==> Get(Accumulate(d, k, delta), other, 0) == Get(d, other, 0)
  {
    var i := Find(d, k);
    var e := Accumulate(d, k, delta);
    assert Keys(e) == if i < 0 then Keys(d) + [k] else Keys(d);
    var j := Find(d, other);
    if other != k {
      if j >= 0 {
        assert Find(e, other) == j by { FindUnique(e, other, j); FindUnique(d, other, j); }
      } else {
        assert other !in Keys(e);
      }
    }
    if i >= 0 {
      assert Find(e, k) == i by { FindUnique(e, k, i); FindUnique(d, k, i); }
    } else {
      assert Find(e, k) == |d| by { FindUnique(e, k, |d|); }
    }
  }

  /** A position holding `k` with no earlier one is what `Find` returns. */
  lemma FindUnique(d: Dict, k: string, i: nat)
    requires i < |d| && d[i].key == k
    ensures Find(d, k) <= i
  {
    assert Keys(d)[i] == k;
  }

  /** Insertion order: an existing key keeps its place, a new key is appended. */
  lemma AccumulateKeys(d: Dict, k: string, delta: int)
    ensures Keys(Accumulate(d, k, delta)) == if k in Keys(d) then Keys(d) else Keys(d) + [k]
  {
  }

  /** Accumulating keeps the keys unique. */
  lemma AccumulateUnique(d: Dict, k: string, delta: int)
    requires UniqueKeys(d)
    ensures UniqueKeys(Accumulate(d, k, delta))
  {
    var e := Accumulate(d, k, delta);
    if k !in Keys(d) {
      forall i | 0 <= i < |d| ensures e[i].key != k { assert Keys(d)[i] == d[i].key; }
    }
  }

  /** The sum of the values of `d[..n]`. */
  function SumUpTo(d: Dict, n: nat): int
    requires n <= |d|
  {
    if n == 0 then 0 else SumUpTo(d, n - 1) + d[n - 1].value
  }

  /** The sum of all values. */
  function Sum(d: Dict): int
  {
    SumUpTo(d, |d|)
  }

  /** Replacing one value changes the sum by the difference. */
  lemma {:induction false} SumUpToUpdate(d: Dict, i: nat, e: Entry, n: nat)
    requires i < |d| && n <= |d|
    ensures SumUpTo(d[i := e], n) == SumUpTo(d, n) + (if i < n then e.value - d[i].value else 0)
  {
    if n > 0 {
      SumUpToUpdate(d, i, e, n - 1);
    }
  }

  /** A prefix sum does not look past its end. */
  lemma {:induction false} SumUpToAppend(d: Dict, e: Entry, n: nat)
    requires n <= |d|
    ensures SumUpTo(d + [e], n) == SumUpTo(d, n)
  {
    if n > 0 {
      SumUpToAppend(d, e, n - 1);
    }
  }

  /** Accumulating `delta` adds `delta` to the sum. */
  lemma AccumulateSum(d: Dict, k: string, delta: int)
    ensures Sum(Accumulate(d, k, delta)) == Sum(d) + delta
  {
    var i := Find(d, k);
    if i < 0 {
      SumUpToAppend(d, Entry(k, delta), |d|);
    } else {
      SumUpToUpdate(d, i, Entry(k, d[i].value + delta), |d|);
    }
  }

  /** Every value is at least `m`. */
  predicate AllAtLeast(d: Dict, m: int)
  {
    forall i :: 0 <= i < |d| ==> d[i].value >= m
  }

  /** Accumulating a `delta` that is itself at least `m`, and not negative, keeps every value at least `m`. */
  lemma AccumulateAtLeast(d: Dict, k: string, delta: int, m: int)
    requires AllAtLeast(d, m) && delta >= m && delta >= 0
    ensures AllAtLeast(Accumulate(d, k, delta), m)
  {
  }
}
