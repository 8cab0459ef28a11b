/**
 * The batch partitioner: `Batch` splits an ordered sequence into consecutive
 * chunks by grouping every item under the key `index / maxItems`, and
 * `BatchWithDefaultSize` does so with chunks of 100.
 *
 * The grouping in the source is lazy LINQ (`Select`, `GroupBy`, `Select`);
 * here the chunks are materialised as a sequence of sequences. Groups come
 * out in the order their keys first occur, which for ascending indices is
 * ascending key order, and each group keeps the items in source order, so
 * the recursive definition below takes `|maxItems|` items at a time.
 */
module Extensions {

  const DefaultBatchSize: int := 100

  function Abs(x: int): nat {
    if x < 0 then -x else x
  }

  function Min(a: int, b: int): int {
    if a <= b then a else b
  }

  /** Integer division as C# performs it: the quotient is truncated toward zero. */
  function TruncDiv(a: int, b: int): int
    requires b != 0
  {
    if (a < 0) == (b < 0) then Abs(a) / Abs(b) else -(Abs(a) / Abs(b))
  }

  /** The concatenation of a sequence of chunks. */
  function Flatten<T>(chunks: seq<seq<T>>): seq<T> {
    if chunks == [] then [] else chunks[0] + Flatten(chunks[1..])
  }

  /** `Enumerable.Range(start, count)`: the `count` consecutive integers from `start`. */
  function Range(start: int, count: nat): (r: seq<int>)
    ensures |r| == count
    ensures forall i :: 0 <= i < count ==> r[i] == start + i
  {
    seq(count, i => start + i)
  }

  predicate Distinct<T(==)>(s: seq<T>) {
    forall i, j :: 0 <= i < j < |s| ==> s[i] != s[j]
  }

  /**
   * `Batch(items, maxItems)`. The key selector `inx / maxItems` divides by
   * zero as soon as one item is enumerated, so `maxItems == 0` is an error
   * unless `items` is empty. A negative `maxItems` truncates each key toward
   * zero, which groups exactly as `|maxItems|` does (the keys are negated).
   */
  function Batch<T>(items: seq<T>, maxItems: int): (chunks: seq<seq<T>>)
    requires maxItems != 0 || items == []
    ensures chunks == [] <==> items == []
    ensures forall k :: 0 <= k < |chunks| ==> 0 < |chunks[k]| <= Abs(maxItems)
    ensures forall k :: 0 <= k < |chunks| - 1 ==> |chunks[k]| == Abs(maxItems)
    decreases |items|
  {
    if items == [] then []
    else if |items| <= Abs(maxItems) then [items]
    else [items[..Abs(maxItems)]] + Batch(items[Abs(maxItems)..], maxItems)
  }

  /** `BatchWithDefaultSize(items)`: chunks of at most 100 items that together give back `items`. */
  function BatchWithDefaultSize<T>(items: seq<T>): (chunks: seq<seq<T>>)
    ensures chunks == Batch(items, 100)
    ensures Flatten(chunks) == items
    ensures forall k :: 0 <= k < |chunks| ==> 0 < |chunks[k]| <= 100
    ensures forall k :: 0 <= k < |chunks| - 1 ==> |chunks[k]| == 100
  {
    BatchFlatten(items, DefaultBatchSize);
    Batch(items, DefaultBatchSize)
  }

  /** Concatenating the chunks gives back the input: no item is lost, repeated or moved. */
  lemma {:induction false} BatchFlatten<T>(items: seq<T>, maxItems: int)
    requires maxItems != 0 || items == []
    ensures Flatten(Batch(items, maxItems)) == items
    decreases |items|
  {
    var n := Abs(maxItems);
    if items == [] {
    } else if |items| <= n {
      assert Flatten([items]) == items + Flatten([]);
    } else {
      var chunks := Batch(items, maxItems);
      BatchFlatten(items[n..], maxItems);
      assert chunks[0] == items[..n];
      assert chunks[1..] == Batch(items[n..], maxItems);
      assert items == items[..n] + items[n..];
    }
  }

  /** `k * n` by repeated addition, so that the proofs by induction on `k` stay linear. */
  function Times(k: nat, n: nat): nat {
    if k == 0 then 0 else Times(k - 1, n) + n
  }

  lemma {:induction false} TimesMul(k: nat, n: nat)
    ensures Times(k, n) == k * n
  {
    if k > 0 {
      TimesMul(k - 1, n);
      assert k * n == (k - 1) * n + n;
    }
  }

  lemma {:induction false} ChunkAt<T>(items: seq<T>, maxItems: int, k: nat, j: nat)
    requires maxItems != 0
    requires j < Abs(maxItems) && Times(k, Abs(maxItems)) + j < |items|
    ensures k < |Batch(items, maxItems)|
    ensures j < |Batch(items, maxItems)[k]|
    ensures Batch(items, maxItems)[k][j] == items[Times(k, Abs(maxItems)) + j]
    decreases k
  {
    var n := Abs(maxItems);
    if k > 0 {
      ChunkAt(items[n..], maxItems, k - 1, j);
      assert Batch(items, maxItems)[k] == Batch(items[n..], maxItems)[k - 1];
    }
  }

  /**
   * Item `k * n + j` (with `j < n`, `n == |maxItems|`) is item `j` of chunk
   * `k`: the chunk index is the group key and the offset is the rest.
   */
  lemma BatchAt<T>(items: seq<T>, maxItems: int, k: nat, j: nat)
    requires maxItems != 0
    requires j < Abs(maxItems) && k * Abs(maxItems) + j < |items|
    ensures k < |Batch(items, maxItems)|
    ensures j < |Batch(items, maxItems)[k]|
    ensures Batch(items, maxItems)[k][j] == items[k * Abs(maxItems) + j]
  {
    TimesMul(k, Abs(maxItems));
    ChunkAt(items, maxItems, k, j);
  }

  /**
   * The group key of index `i` under C#'s truncating division: item `i`
   * sits in chunk `|i / maxItems|` at offset `i % |maxItems|`.
   */
  lemma BatchGroupKey<T>(items: seq<T>, maxItems: int, i: nat)
    requires maxItems != 0 && i < |items|
    ensures Abs(TruncDiv(i, maxItems)) < |Batch(items, maxItems)|
    ensures i % Abs(maxItems) < |Batch(items, maxItems)[Abs(TruncDiv(i, maxItems))]|
    ensures Batch(items, maxItems)[Abs(TruncDiv(i, maxItems))][i % Abs(maxItems)] == items[i]
  {
    var n := Abs(maxItems);
    TruncDivKey(i, maxItems);
    DivMod(i, n);
    BatchAt(items, maxItems, i / n, i % n);
  }

  lemma TruncDivKey(i: nat, maxItems: int)
    requires maxItems != 0
    ensures Abs(TruncDiv(i, maxItems)) == i / Abs(maxItems)
  {
  }

  lemma DivMod(i: nat, n: nat)
    requires n > 0
    ensures i == (i / n) * n + i % n && i % n < n
  {
  }

  lemma {:induction false} ChunkSlice<T>(items: seq<T>, maxItems: int, k: nat)
    requires maxItems != 0
    requires k < |Batch(items, maxItems)|
    ensures Times(k, Abs(maxItems)) < |items|
    ensures Batch(items, maxItems)[k] == items[Times(k, Abs(maxItems)) .. Min(Times(k, Abs(maxItems)) + Abs(maxItems), |items|)]
    decreases k
  {
    var n := Abs(maxItems);
    if k > 0 {
      var rest := items[n..];
      ChunkSlice(rest, maxItems, k - 1);
      assert Batch(items, maxItems)[k] == Batch(rest, maxItems)[k - 1];
      var lo := Times(k - 1, n);
      var hi := Min(lo + n, |rest|);
      assert n + lo == Times(k, n);
      assert n + hi == Min(Times(k, n) + n, |items|);
      SliceShift(items, n, lo, hi);
    }
  }

  lemma SliceShift<T>(items: seq<T>, n: nat, lo: nat, hi: nat)
    requires n <= |items| && lo <= hi <= |items| - n
    ensures items[n..][lo..hi] == items[n + lo .. n + hi]
  {
  }

  /** Chunk `k` is exactly the slice of items `k * n .. min((k + 1) * n, |items|)`. */
  lemma BatchChunkAt<T>(items: seq<T>, maxItems: int, k: nat)
    requires maxItems != 0
    requires k < |Batch(items, maxItems)|
    ensures k * Abs(maxItems) < |items|
    ensures Batch(items, maxItems)[k] == items[k * Abs(maxItems) .. Min((k + 1) * Abs(maxItems), |items|)]
  {
    var n := Abs(maxItems);
    TimesMul(k, n);
    ChunkSlice(items, maxItems, k);
    assert (k + 1) * n == k * n + n;
  }

  /** Batching a range whose length exceeds the chunk size peels off its first `n` integers. */
  lemma BatchRangeUnfold(start: int, count: nat, maxItems: int)
    requires maxItems != 0 && count > Abs(maxItems)
    ensures Batch(Range(start, count), maxItems)
         == [Range(start, Abs(maxItems))] + Batch(Range(start + Abs(maxItems), count - Abs(maxItems)), maxItems)
  {
    var n := Abs(maxItems);
    assert Range(start, count)[..n] == Range(start, n);
    assert Range(start, count)[n..] == Range(start + n, count - n);
  }

  /** For a non-empty range, the first chunk is its first `min(n, count)` integers. */
  lemma BatchRangeFirst(start: int, count: nat, maxItems: int)
    requires maxItems != 0 && count > 0
    ensures Batch(Range(start, count), maxItems)[0] == Range(start, Min(Abs(maxItems), count))
  {
    if count > Abs(maxItems) {
      BatchRangeUnfold(start, count, maxItems);
    }
  }

  lemma RangeDistinct(start: int, count: nat)
    ensures Distinct(Range(start, count))
  {
  }
}
