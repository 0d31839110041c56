/** Testing and validating in batches. */
module Evaluation {
  import opened Basics
  import opened BenignSplit

  /** The remainder is taken by the number of full batches, not by the batch size. */
  function BatchCount(n: nat, size: nat): nat
    requires size > 0
  {
    var full := n / size;
    if full == 0 then 1 else if n % full != 0 then full + 1 else full
  }

  function Start(size: nat, i: nat): nat
  {
    i * size
  }

  function End(n: nat, size: nat, i: nat): nat
    requires size > 0
  {
    if i == BatchCount(n, size) - 1 then n else (i + 1) * size
  }

  lemma MulAtMost(d: nat, k: int)
    requires k <= 0
    ensures d * k <= 0
  {
    if k < 0 {
      assert d * k == -(d * (0 - k));
    }
  }

  /** Without a remainder by the batch size there is none by the number of full batches. */
  lemma MultipleOfFull(n: nat, size: nat)
    requires size > 0 && n / size > 0 && n % size == 0
    ensures n % (n / size) == 0
  {
    var full := n / size;
    var quotient, rest := n / full, n % full;
    assert n == full * size && n == full * quotient + rest;
    assert full * (size - quotient) == full * size - full * quotient;
    if size > quotient {
      MulAtLeast(full, size - quotient);
    } else {
      MulAtMost(full, size - quotient);
    }
  }

  /** Where the last batch starts. */
  lemma LastStart(n: nat, size: nat)
    requires size > 0
    ensures Start(size, BatchCount(n, size) - 1) <= n < Start(size, BatchCount(n, size) - 1) + 2 * size
    ensures n > 0 ==> Start(size, BatchCount(n, size) - 1) < n
  {
    var full := n / size;
    assert n == full * size + n % size;
    if full > 0 && n % full != 0 {
      if n % size == 0 {
        MultipleOfFull(n, size);
      }
    } else if full > 0 {
      assert (full - 1) * size == full * size - size;
    }
  }

  lemma StartMonotone(size: nat, i: nat, j: nat)
    requires i <= j
    ensures Start(size, i) <= Start(size, j)
  {
    assert j * size == i * size + (j - i) * size;
  }

  /** In spite of that the batches tile the data: they follow each other from 0 to `n`, each has fewer
      than twice the batch size, and none is empty unless there is no data. */
  lemma BatchesTile(n: nat, size: nat, i: nat)
    requires size > 0 && i < BatchCount(n, size)
    ensures Start(size, 0) == 0 && End(n, size, BatchCount(n, size) - 1) == n
    ensures i + 1 < BatchCount(n, size) ==> End(n, size, i) == Start(size, i + 1)
    ensures Start(size, i) <= End(n, size, i) <= n
    ensures End(n, size, i) - Start(size, i) < 2 * size
    ensures n > 0 ==> Start(size, i) < End(n, size, i)
  {
    LastStart(n, size);
    if i + 1 < BatchCount(n, size) {
      StartMonotone(size, i + 1, BatchCount(n, size) - 1);
      assert (i + 1) * size == i * size + size;
    }
  }

  // ---- Counting -------------------------------------------------------------------------------

  /** How many of the first `n` are predicted `benign` and are `malicious` or not. */
  function Hits(prediction: seq<bool>, truth: seq<bool>, n: nat, benign: bool, malicious: bool): nat
    requires n <= |prediction| && n <= |truth|
  {
    if n == 0 then 0
    else
      Hits(prediction, truth, n - 1, benign, malicious)
      + if prediction[n - 1] == benign && truth[n - 1] == malicious then 1 else 0
  }

  /** Every interaction is counted once. */
  lemma {:induction false} HitsAddUp(prediction: seq<bool>, truth: seq<bool>, n: nat)
    requires n <= |prediction| && n <= |truth|
    ensures Hits(prediction, truth, n, true, true) + Hits(prediction, truth, n, true, false)
            + Hits(prediction, truth, n, false, true) + Hits(prediction, truth, n, false, false) == n
  {
    if n > 0 {
      HitsAddUp(prediction, truth, n - 1);
    }
  }

  function Truth(data: seq<Inter>, gt: GroundTruth): seq<bool>
  {
    seq(|data|, i requires 0 <= i < |data| => Malicious(gt, data[i]))
  }

  /** A batch of the data, with the ground truth of each interaction in it. */
  method GenerateTestBatch(data: seq<Inter>, gt: GroundTruth, size: nat, i: nat)
    returns (batch: seq<Inter>, truth: seq<bool>)
    requires size > 0 && i < BatchCount(|data|, size)
    ensures Start(size, i) <= End(|data|, size, i) <= |data|
    ensures batch == data[Start(size, i)..End(|data|, size, i)]
    ensures truth == Truth(data, gt)[Start(size, i)..End(|data|, size, i)]
  {
    BatchesTile(|data|, size, i);
    var start := i * size;
    var end := if i == BatchCount(|data|, size) - 1 then |data| else (i + 1) * size;
    batch := data[start..end];
    truth := [];
    for k := 0 to |batch|
      invariant truth == Truth(data, gt)[start..start + k]
    {
      var found := false;
      if batch[k].e1 in gt {
        if batch[k].e2 in gt[batch[k].e1] {
          found := true;
        }
      }
      truth := truth + [found];
    }
  }

  datatype Stat = Stat(tnB: nat, fpB: nat, tpM: nat, fnM: nat)

  /** The counts over the first `n` interactions. */
  function StatOf(prediction: seq<bool>, truth: seq<bool>, n: nat): Stat
    requires n <= |prediction| && n <= |truth|
  {
    Stat(Hits(prediction, truth, n, true, false), Hits(prediction, truth, n, false, false),
         Hits(prediction, truth, n, false, true), Hits(prediction, truth, n, true, true))
  }

  /** Counts one batch. `from` is where it starts in the data. */
  method CountBatch(batch: seq<bool>, truth: seq<bool>, before: Stat, ghost prediction: seq<bool>, ghost all: seq<bool>,
                    ghost from: nat)
    returns (stat: Stat)
    requires |batch| == |truth| && from + |batch| <= |prediction| == |all|
    requires batch == prediction[from..from + |batch|] && truth == all[from..from + |batch|]
    requires before == StatOf(prediction, all, from)
    ensures stat == StatOf(prediction, all, from + |batch|)
  {
    stat := before;
    for k := 0 to |batch|
      invariant stat == StatOf(prediction, all, from + k)
    {
      var item := batch[k];
      assert item == prediction[from + k] && truth[k] == all[from + k];
      if item == truth[k] {
        if item {
          stat := stat.(fnM := stat.fnM + 1);
        } else {
          stat := stat.(fpB := stat.fpB + 1);
        }
      } else {
        if item {
          stat := stat.(tnB := stat.tnB + 1);
        } else {
          stat := stat.(tpM := stat.tpM + 1);
        }
      }
    }
  }

  /** Scored below the threshold or not, and in the ground truth or not. */
  predicate JudgedSo(x: Inter, gt: GroundTruth, score: Inter -> real, threshold: real, low: bool, known: bool)
  {
    (score(x) < threshold) == low && (x.e1 in gt && x.e2 in gt[x.e1]) == known
  }

  /** Among the first `n`, the interactions that are judged so. */
  ghost function Judged(data: seq<Inter>, gt: GroundTruth, score: Inter -> real, threshold: real, n: nat, low: bool,
                        known: bool): set<int>
    requires n <= |data|
  {
    set i | 0 <= i < n && JudgedSo(data[i], gt, score, threshold, low, known)
  }

  lemma OneMoreJudged(data: seq<Inter>, gt: GroundTruth, score: Inter -> real, threshold: real, n: nat, low: bool,
                      known: bool)
    requires n < |data|
    ensures |Judged(data, gt, score, threshold, n + 1, low, known)| ==
            |Judged(data, gt, score, threshold, n, low, known)|
            + if JudgedSo(data[n], gt, score, threshold, low, known) then 1 else 0
  {
    var before := Judged(data, gt, score, threshold, n, low, known);
    var after := Judged(data, gt, score, threshold, n + 1, low, known);
    if JudgedSo(data[n], gt, score, threshold, low, known) {
      assert after == before + {n};
    } else {
      assert after == before;
    }
  }

  lemma {:induction false} HitsAreJudged(data: seq<Inter>, gt: GroundTruth, score: Inter -> real, threshold: real,
                                         n: nat, low: bool, known: bool)
    requires n <= |data|
    ensures Hits(Benign(data, score, threshold), Truth(data, gt), n, low, known) ==
            |Judged(data, gt, score, threshold, n, low, known)|
  {
    if n > 0 {
      HitsAreJudged(data, gt, score, threshold, n - 1, low, known);
      OneMoreJudged(data, gt, score, threshold, n - 1, low, known);
    }
  }

  /** A low score is a benign verdict: true positives and false negatives are those of the malicious,
      the others those of the benign. */
  ghost predicate CountsOf(stat: Stat, data: seq<Inter>, gt: GroundTruth, score: Inter -> real, threshold: real)
  {
    && stat.tnB == |Judged(data, gt, score, threshold, |data|, true, false)|
    && stat.fpB == |Judged(data, gt, score, threshold, |data|, false, false)|
    && stat.tpM == |Judged(data, gt, score, threshold, |data|, false, true)|
    && stat.fnM == |Judged(data, gt, score, threshold, |data|, true, true)|
  }

  lemma CountsJudged(data: seq<Inter>, gt: GroundTruth, score: Inter -> real, threshold: real)
    ensures CountsOf(StatOf(Benign(data, score, threshold), Truth(data, gt), |data|), data, gt, score, threshold)
  {
    HitsAreJudged(data, gt, score, threshold, |data|, true, false);
    HitsAreJudged(data, gt, score, threshold, |data|, false, false);
    HitsAreJudged(data, gt, score, threshold, |data|, false, true);
    HitsAreJudged(data, gt, score, threshold, |data|, true, true);
  }

  /** Batch by batch, every interaction is judged once: the four counts are those over the whole data,
      and they add up to its size. `score` is what the model says about an interaction. */
  method Test(data: seq<Inter>, gt: GroundTruth, size: nat, score: Inter -> real, threshold: real) returns (stat: Stat)
    requires size > 0
    ensures stat == StatOf(Benign(data, score, threshold), Truth(data, gt), |data|)
    ensures CountsOf(stat, data, gt, score, threshold) && stat.tnB + stat.fpB + stat.tpM + stat.fnM == |data|
  {
    ghost var prediction, truth := Benign(data, score, threshold), Truth(data, gt);
    stat := Stat(0, 0, 0, 0);
    BatchesTile(|data|, size, 0);
    ghost var at := 0;
    for i := 0 to BatchCount(|data|, size)
      invariant at <= |data| && at == if i < BatchCount(|data|, size) then Start(size, i) else |data|
      invariant stat == StatOf(prediction, truth, at)
    {
      var batch, batchTruth := GenerateTestBatch(data, gt, size, i);
      BatchesTile(|data|, size, i);
      stat := CountBatch(Benign(batch, score, threshold), batchTruth, stat, prediction, truth, at);
      at := End(|data|, size, i);
    }
    HitsAddUp(prediction, truth, |data|);
    CountsJudged(data, gt, score, threshold);
  }

  /** A low score means benign. */
  function Benign(data: seq<Inter>, score: Inter -> real, threshold: real): seq<bool>
  {
    seq(|data|, i requires 0 <= i < |data| => score(data[i]) < threshold)
  }
}
