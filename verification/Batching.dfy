/** Splitting a log into batches: what the reader thread hands to the parsers, and how many
    batches the other threads are told to expect. */
module Batching {
  import opened Basics

  const MULTI_RANGE: nat := 0x1_0000_0000 // `multi_t` is an unsigned 32-bit integer

  /** The batches of a log, in order: all of `size` lines except possibly the last. */
  function Chunks<T>(ls: seq<T>, size: nat): (bs: seq<seq<T>>)
    requires size >= 1
    decreases |ls|
  {
    if ls == [] then []
    else if |ls| <= size then [ls]
    else [ls[..size]] + Chunks(ls[size..], size)
  }

  function Flatten<T>(bs: seq<seq<T>>): seq<T>
  {
    if bs == [] then [] else bs[0] + Flatten(bs[1..])
  }

  /** Number of batches of a log; the quotient is stored in a 32-bit integer. */
  function BatchNum(eventNum: nat, batchSize: nat): (n: nat)
    requires batchSize >= 1
    ensures n < MULTI_RANGE
  {
    var batchNum := if eventNum % batchSize == 0 then eventNum / batchSize else eventNum / batchSize + 1;
    batchNum % MULTI_RANGE
  }

  lemma {:induction false} ChunksFlatten<T>(ls: seq<T>, size: nat)
    requires size >= 1
    ensures Flatten(Chunks(ls, size)) == ls
    decreases |ls|
  {
    if |ls| > size {
      ChunksFlatten(ls[size..], size);
      FlattenCons(ls[..size], Chunks(ls[size..], size));
      assert ls == ls[..size] + ls[size..];
    } else if ls != [] {
      FlattenCons(ls, []);
      assert [ls] + [] == [ls] && ls + [] == ls;
    }
  }

  lemma FlattenCons<T>(b: seq<T>, bs: seq<seq<T>>)
    ensures Flatten([b] + bs) == b + Flatten(bs)
  {
    assert ([b] + bs)[1..] == bs;
  }

  /** No batch is empty and only the last one may be short. */
  lemma {:induction false} ChunksSizes<T>(ls: seq<T>, size: nat, k: nat)
    requires size >= 1 && k < |Chunks(ls, size)|
    ensures 1 <= |Chunks(ls, size)[k]| <= size
    ensures k < |Chunks(ls, size)| - 1 ==> |Chunks(ls, size)[k]| == size
    decreases |ls|
  {
    if |ls| > size && k > 0 {
      ChunksSizes(ls[size..], size, k - 1);
    }
  }

  lemma DivStep(n: nat, b: nat)
    requires 1 <= b <= n
    ensures (n - b) / b == n / b - 1 && (n - b) % b == n % b
  {
    var q, r := n / b, n % b;
    assert n - b == b * (q - 1) + r;
    DivUnique(n - b, b, q - 1, r);
  }

  lemma DivUnique(n: int, b: nat, q: int, r: int)
    requires b >= 1 && n == b * q + r && 0 <= r < b
    ensures n / b == q && n % b == r
  {
    var q', r' := n / b, n % b;
    assert n == b * q' + r';
    var d := q - q';
    assert b * d == b * q - b * q';
    if d >= 1 {
      MulAtLeast(b, d);
    } else if d <= -1 {
      assert b * -d == -(b * d);
      MulAtLeast(b, -d);
    }
  }

  lemma {:induction false} ChunksCount<T>(ls: seq<T>, size: nat)
    requires size >= 1
    ensures |Chunks(ls, size)|
         == if |ls| % size == 0 then |ls| / size else |ls| / size + 1
    decreases |ls|
  {
    if |ls| > size {
      ChunksCount(ls[size..], size);
      DivStep(|ls|, size);
    } else if |ls| == size {
      DivUnique(|ls|, size, 1, 0);
    } else {
      DivUnique(|ls|, size, 0, |ls|);
    }
  }

  lemma WrapMulti(n: nat)
    ensures n % MULTI_RANGE <= n && (n % MULTI_RANGE == n <==> n < MULTI_RANGE)
    ensures n >= MULTI_RANGE ==> n - n % MULTI_RANGE >= MULTI_RANGE
  {
  }

  /** The announced number is the number of batches reduced to 32 bits, so it is the true
      number exactly when there are fewer than 2^32 batches. */
  lemma BatchNumCountsChunks<T>(ls: seq<T>, size: nat)
    requires size >= 1
    ensures BatchNum(|ls|, size) == |Chunks(ls, size)| % MULTI_RANGE
    ensures BatchNum(|ls|, size) <= |Chunks(ls, size)|
    ensures BatchNum(|ls|, size) == |Chunks(ls, size)| <==> |Chunks(ls, size)| < MULTI_RANGE
    ensures |Chunks(ls, size)| >= MULTI_RANGE ==>
              |Chunks(ls, size)| - BatchNum(|ls|, size) >= MULTI_RANGE
  {
    ChunksCount(ls, size);
    var n := |Chunks(ls, size)|;
    assert BatchNum(|ls|, size) == n % MULTI_RANGE;
    WrapMulti(n);
  }

  /** A full batch at the front, or the last short one, is the first chunk. */
  lemma ChunksHead<T>(b: seq<T>, rest: seq<T>, size: nat)
    requires size >= 1 && 1 <= |b| <= size
    requires |b| == size || rest == []
    ensures Chunks(b + rest, size) == [b] + Chunks(rest, size)
  {
    if rest == [] {
      assert b + rest == b;
    } else {
      assert (b + rest)[..size] == b && (b + rest)[size..] == rest;
    }
  }
}
