/** Swapping the known malicious interactions out of the training data. */
module BenignSplit {
  import opened Basics
  import opened Positions

  datatype Inter = Inter(e1: int, e2: int)

  type GroundTruth = map<int, seq<int>>

  predicate Malicious(gt: GroundTruth, i: Inter)
  {
    i.e1 in gt && i.e2 in gt[i.e1]
  }

  /** The parts come back, or the concatenation with an empty list of swaps fails, or the random
      picks given do not suffice. */
  datatype Outcome = Split(train: seq<Inter>, test: seq<Inter>) | DimensionError | PicksExhausted

  function MaliciousCount(gt: GroundTruth, data: seq<Inter>): nat
  {
    if data == [] then 0
    else MaliciousCount(gt, data[..|data| - 1]) + if Malicious(gt, data[|data| - 1]) then 1 else 0
  }

  /** The positions of the malicious interactions, and those interactions. */
  method FindMalicious(data: seq<Inter>, gt: GroundTruth) returns (found: seq<Inter>, idx: seq<nat>)
    ensures InRange(idx, |data|) && Distinct(idx) && found == Picked(data, idx)
    ensures forall k: nat | k < |data| :: k in idx <==> Malicious(gt, data[k])
    ensures |idx| == MaliciousCount(gt, data)
  {
    found, idx := [], [];
    for k := 0 to |data|
      invariant InRange(idx, |data|) && Distinct(idx) && found == Picked(data, idx)
      invariant |idx| == MaliciousCount(gt, data[..k]) && forall i | 0 <= i < |idx| :: idx[i] < k
      invariant forall j: nat | j < |data| :: j in idx <==> j < k && Malicious(gt, data[j])
    {
      assert data[..k + 1][..k] == data[..k];
      if data[k].e1 in gt {
        if data[k].e2 in gt[data[k].e1] {
          found, idx := found + [data[k]], idx + [k];
        }
      }
    }
    assert data[..|data|] == data;
  }

  lemma {:induction false} LeftBenign(data: seq<Inter>, idx: seq<nat>, gt: GroundTruth)
    requires forall k: nat | k < |data| && Malicious(gt, data[k]) :: k in idx
    ensures forall x | x in DeleteAt(data, idx) :: !Malicious(gt, x)
    decreases |data|
  {
    if data != [] {
      LeftBenign(data[..|data| - 1], idx, gt);
    }
  }

  /** Draws one position that has not been drawn and holds a benign interaction. Every draw that does
      not qualify is repeated. */
  method DrawBenign(test: seq<Inter>, gt: GroundTruth, taken: seq<nat>, picks: seq<nat>, from: nat)
    returns (k: nat, next: nat, ok: bool)
    requires InRange(picks, |test|) && from <= |picks|
    ensures from <= next <= |picks|
    ensures ok ==> k < |test| && k !in taken && !Malicious(gt, test[k]) && from < next && picks[next - 1] == k
    ensures ok ==> forall i | from <= i < next - 1 :: picks[i] in taken || Malicious(gt, test[picks[i]])
    ensures !ok ==> forall i | from <= i < |picks| :: picks[i] in taken || Malicious(gt, test[picks[i]])
  {
    k, next, ok := 0, from, false;
    while next < |picks|
      invariant from <= next <= |picks| && !ok
      invariant forall i | from <= i < next :: picks[i] in taken || Malicious(gt, test[picks[i]])
    {
      k := picks[next];
      next := next + 1;
      if k !in taken {
        if test[k].e1 !in gt || test[k].e2 !in gt[test[k].e1] {
          ok := true;
          return;
        }
      }
    }
  }

  /** The benign positions among the first `n` picks have all been taken. */
  predicate AllDrawn(gt: GroundTruth, test: seq<Inter>, picks: seq<nat>, n: nat, idx: seq<nat>)
    requires InRange(picks, |test|) && n <= |picks|
  {
    forall i | 0 <= i < n :: picks[i] in idx || Malicious(gt, test[picks[i]])
  }

  /** The picks hold fewer distinct benign positions than there are malicious interactions to swap. */
  predicate TooFew(gt: GroundTruth, train: seq<Inter>, test: seq<Inter>, picks: seq<nat>, idx: seq<nat>)
    requires InRange(picks, |test|)
  {
    |idx| < MaliciousCount(gt, train) && AllDrawn(gt, test, picks, |picks|, idx)
  }

  /** As many distinct benign positions as are needed. */
  method DrawAll(test: seq<Inter>, gt: GroundTruth, needed: nat, picks: seq<nat>) returns (idx: seq<nat>, ok: bool)
    requires InRange(picks, |test|)
    ensures InRange(idx, |test|) && Distinct(idx) && forall i | 0 <= i < |idx| :: !Malicious(gt, test[idx[i]])
    ensures if ok then |idx| == needed else |idx| < needed && AllDrawn(gt, test, picks, |picks|, idx)
  {
    idx, ok := [], true;
    var next := 0;
    for i := 0 to needed
      invariant ok && |idx| == i && next <= |picks| && AllDrawn(gt, test, picks, next, idx)
      invariant InRange(idx, |test|) && Distinct(idx) && forall j | 0 <= j < |idx| :: !Malicious(gt, test[idx[j]])
    {
      var k;
      k, next, ok := DrawBenign(test, gt, idx, picks, next);
      if !ok {
        return;
      }
      idx := idx + [k];
    }
  }

  /** The training part has no malicious interaction left, both parts keep their sizes, and taken
      together they hold the same interactions as before. */
  ghost predicate Purged(gt: GroundTruth, train: seq<Inter>, test: seq<Inter>, train': seq<Inter>, test': seq<Inter>)
  {
    && |train'| == |train| && |test'| == |test|
    && (forall i | i in train' :: !Malicious(gt, i))
    && Permuted(train' + test', train + test)
  }

  lemma SwapPurges(gt: GroundTruth, train: seq<Inter>, test: seq<Inter>, mal: seq<nat>, ben: seq<nat>)
    requires InRange(mal, |train|) && Distinct(mal) && InRange(ben, |test|) && Distinct(ben) && |mal| == |ben|
    requires forall k: nat | k < |train| && Malicious(gt, train[k]) :: k in mal
    requires forall i | 0 <= i < |ben| :: !Malicious(gt, test[ben[i]])
    ensures Purged(gt, train, test, DeleteAt(train, mal) + Picked(test, ben), DeleteAt(test, ben) + Picked(train, mal))
  {
    var train', test' := DeleteAt(train, mal) + Picked(test, ben), DeleteAt(test, ben) + Picked(train, mal);
    LeftLength(train, mal);
    LeftLength(test, ben);
    LeftBenign(train, mal, gt);
    forall x ensures Times(train' + test', x) == Times(train + test, x) {
      TimesConcat(train', test', x);
      TimesConcat(train, test, x);
      TimesConcat(DeleteAt(train, mal), Picked(test, ben), x);
      TimesConcat(DeleteAt(test, ben), Picked(train, mal), x);
      PickedAndLeft(train, mal, x);
      PickedAndLeft(test, ben, x);
    }
  }

  predicate AnyMalicious(gt: GroundTruth, data: seq<Inter>)
  {
    exists i :: 0 <= i < |data| && Malicious(gt, data[i])
  }

  /** `picks` are the random positions, in the order they are drawn. */
  method EnsureBenignTrain(train: seq<Inter>, test: seq<Inter>, gt: GroundTruth, picks: seq<nat>) returns (r: Outcome)
    requires InRange(picks, |test|)
    ensures r.DimensionError? <==> !AnyMalicious(gt, train)
    ensures r.Split? ==> Purged(gt, train, test, r.train, r.test)
    ensures r.PicksExhausted? ==> exists idx :: TooFew(gt, train, test, picks, idx)
  {
    var malInters, malIndexes := FindMalicious(train, gt);
    if |malInters| == 0 {
      return DimensionError;
    }
    assert Malicious(gt, train[malIndexes[0]]);
    var benIndexes, ok := DrawAll(test, gt, |malInters|, picks);
    if !ok {
      assert TooFew(gt, train, test, picks, benIndexes);
      return PicksExhausted;
    }
    SwapPurges(gt, train, test, malIndexes, benIndexes);
    r := Split(DeleteAt(train, malIndexes) + Picked(test, benIndexes), DeleteAt(test, benIndexes) + malInters);
  }
}
