/** Every run does a bounded amount of work: each step of a thread lowers a rank, and only a
    spurious wakeup raises it, by two. Waking a parked thread costs two, which the notifying
    thread has saved up. */
module PipelineTermination {
  import opened Batching
  import opened Records
  import opened Ring
  import opened Pipeline
  import opened PipelineInvariant
  import opened PipelineSafety

  /** Work left at a program point of the reader, besides unread lines. */
  function ReaderPoint(k: nat, r: Reader): nat
  {
    (if r.tail || r.pc == RDone then 0 else LineCost(k)) + // the last ProduceBatch
    match r.pc
    case PWant => 2 * k + 5
    case PCheck => 2 * k + 4
    case PParked => 2 * k + 3
    case PStore => 2 * k + 3
    case PAdvance => 2 * k + 2
    case PNotify => 2 * k + 1
    case _ => 0
  }

  function LineCost(k: nat): nat { 2 * k + 6 }

  function ParserPoint(pc: ParserPc): nat
  {
    match pc
    case Build => 18
    case GWant => 17
    case GCheck => 16
    case GParked => 15
    case GStore => 15
    case GAdvance => 14
    case GNotify => 13
    case CounterWant => 10
    case CounterCheck => 9
    case BWant => 8
    case BCheck => 7
    case BParked => 6
    case BAdvance => 6
    case BNotify => 5
    case SwapOut => 2
    case CountUp => 1
    case Exited => 0
  }

  const BATCH_COST: nat := 18

  function ParserPoints(ps: seq<Parser>): nat
  {
    if ps == [] then 0 else ParserPoint(ps[0].pc) + ParserPoints(ps[1..])
  }

  function GraphCost(k: nat): nat { 2 * k + 7 }

  function MergerPoint(k: nat, pc: MergerPc): nat
  {
    match pc
    case MTest => 2 * k + 7
    case MWant => 2 * k + 6
    case MCheck => 2 * k + 5
    case MParked => 2 * k + 4
    case MAdvance => 2 * k + 4
    case MNotify => 2 * k + 3
    case MMerge => 2
    case MCount => 1
    case MExited => 0
  }

  function Rank(c: Config, s: State): int
    requires Shape(c, s)
  {
    LineCost(c.workers) * (|c.lines| - s.reader.next) + ReaderPoint(c.workers, s.reader)
    + BATCH_COST * (c.batchNum - s.counter) + ParserPoints(s.parsers)
    + GraphCost(c.workers) * (c.batchNum - s.gcounter) + MergerPoint(c.workers, s.merger.pc)
  }

  // ---- Sums over the parsers --------------------------------------------------------------

  lemma {:induction false} PointsUpdate(ps: seq<Parser>, i: nat, p: Parser)
    requires i < |ps|
    ensures ParserPoints(ps[i := p]) == ParserPoints(ps) - ParserPoint(ps[i].pc) + ParserPoint(p.pc)
  {
    if i == 0 {
      assert ps[i := p][1..] == ps[1..];
    } else {
      PointsUpdate(ps[1..], i - 1, p);
      assert ps[i := p][1..] == ps[1..][i - 1 := p];
    }
  }

  lemma {:induction false} PointsWake(ps: seq<Parser>, from: ParserPc, to: ParserPc)
    requires (from == BParked && to == BWant) || (from == GParked && to == GWant)
    ensures ParserPoints(ps) <= ParserPoints(WakeParsers(ps, from, to)) <= ParserPoints(ps) + 2 * |ps|
  {
    if ps != [] {
      PointsWake(ps[1..], from, to);
      assert WakeParsers(ps, from, to)[1..] == WakeParsers(ps[1..], from, to);
    }
  }

  lemma MulStep(a: nat, x: int)
    ensures a * (x - 1) == a * x - a
  {
  }

  // ---- The rank drops ---------------------------------------------------------------------

  lemma ReadDrops(c: Config, s: State)
    requires Shape(c, s) && ReaderInv(c, s) && s.reader.pc == Reading
    ensures Rank(c, ProduceBatchTask(c, s)) < Rank(c, s)
  {
    MulStep(LineCost(c.workers), |c.lines| - s.reader.next);
  }

  lemma ProduceDrops(c: Config, s: State)
    requires Shape(c, s) && InProduceBatch(s.reader.pc)
    ensures Rank(c, ProduceBatch(c, s)) < Rank(c, s)
  {
    var t := ProduceBatch(c, s);
    assert t.reader.next == s.reader.next;
    if s.reader.pc == PNotify {
      PointsWake(s.parsers, BParked, BWant);
      assert ParserPoints(t.parsers) <= ParserPoints(s.parsers) + 2 * c.workers;
      assert ReaderPoint(c.workers, s.reader) - ReaderPoint(c.workers, t.reader) == 2 * c.workers + 1;
    } else {
      assert ReaderPoint(c.workers, t.reader) < ReaderPoint(c.workers, s.reader);
    }
  }

  lemma CountDrops(c: Config, s: State, i: nat)
    requires Shape(c, s) && i < |s.parsers| && InConsumerTask(s.parsers[i].pc)
    ensures Rank(c, ConsumerTask(c, s, i)) < Rank(c, s)
  {
    PointsUpdate(s.parsers, i, ConsumerTask(c, s, i).parsers[i]);
  }

  lemma ConsumeDrops(c: Config, s: State, i: nat)
    requires Shape(c, s) && i < |s.parsers| && InConsumeBatch(s.parsers[i].pc)
    ensures Rank(c, ConsumeBatch(c, s, i)) < Rank(c, s)
  {
    PointsUpdate(s.parsers, i, ConsumeBatch(c, s, i).parsers[i]);
  }

  lemma GraphDrops(c: Config, s: State, i: nat)
    requires Shape(c, s) && i < |s.parsers| && InProduceGraph(s.parsers[i].pc)
    ensures Rank(c, ProduceGraph(c, s, i)) < Rank(c, s)
  {
    PointsUpdate(s.parsers, i, ProduceGraph(c, s, i).parsers[i]);
  }

  lemma MNotifyDrops(c: Config, s: State)
    requires Shape(c, s) && s.merger.pc == MNotify
    ensures Rank(c, ConsumeGraph(c, s)) < Rank(c, s)
  {
    var t := ConsumeGraph(c, s);
    assert t.parsers == WakeParsers(s.parsers, GParked, GWant) && t.reader == s.reader && t.merger.pc == MMerge;
    assert t.counter == s.counter && t.gcounter == s.gcounter;
    PointsWake(s.parsers, GParked, GWant);
  }

  lemma TakeDrops(c: Config, s: State)
    requires Shape(c, s) && InConsumeGraph(s.merger.pc)
    ensures Rank(c, ConsumeGraph(c, s)) < Rank(c, s)
  {
    if s.merger.pc == MNotify {
      MNotifyDrops(c, s);
    } else {
      assert MergerPoint(c.workers, ConsumeGraph(c, s).merger.pc) < MergerPoint(c.workers, s.merger.pc);
    }
  }

  lemma MergeDrops(c: Config, s: State)
    requires Shape(c, s) && (s.merger.pc == MTest || s.merger.pc == MMerge || s.merger.pc == MCount)
    ensures Rank(c, ConsumeGraphTask(c, s)) < Rank(c, s)
  {
    MulStep(GraphCost(c.workers), c.batchNum - s.gcounter);
  }

  lemma WakeCosts(c: Config, s: State, a: Actor)
    requires Shape(c, s) && Enabled(c, s, a) && a.Spurious()
    ensures Rank(c, Do(c, s, a)) <= Rank(c, s) + 2
  {
    if a.ParserWakes? {
      PointsUpdate(s.parsers, a.i, Do(c, s, a).parsers[a.i]);
    }
  }

  lemma RankDrops(c: Config, s: State, a: Actor)
    requires Inv(c, s) && Enabled(c, s, a)
    ensures if a.Spurious() then Rank(c, Do(c, s, a)) <= Rank(c, s) + 2 else Rank(c, Do(c, s, a)) < Rank(c, s)
  {
    match a
    case ReaderActs => if s.reader.pc == Reading { ReadDrops(c, s); } else { ProduceDrops(c, s); }
    case ParserActs(i) =>
      if InConsumerTask(s.parsers[i].pc) { CountDrops(c, s, i); }
      else if InConsumeBatch(s.parsers[i].pc) { ConsumeDrops(c, s, i); }
      else { GraphDrops(c, s, i); }
    case MergerActs => if InConsumeGraph(s.merger.pc) { TakeDrops(c, s); } else { MergeDrops(c, s); }
    case _ => WakeCosts(c, s, a);
  }

  lemma MulNonNegative(a: nat, x: nat)
    ensures a * x >= 0
  {
  }

  lemma RankNonNegative(c: Config, s: State)
    requires Inv(c, s)
    ensures Rank(c, s) >= 0
  {
    MulNonNegative(LineCost(c.workers), |c.lines| - s.reader.next);
    MulNonNegative(GraphCost(c.workers), c.batchNum - s.gcounter);
  }

  // ---- Whole runs -------------------------------------------------------------------------

  function Accidents(actors: seq<Actor>): nat
  {
    if actors == [] then 0
    else Accidents(actors[..|actors| - 1]) + (if actors[|actors| - 1].Spurious() then 1 else 0)
  }

  /** A run with `w` spurious wakeups has at most Rank(initial state) + 3w steps. In particular
      every schedule without them ends. */
  lemma {:induction false} RunIsBounded(c: Config, states: seq<State>, actors: seq<Actor>)
    requires IsRun(c, states, actors)
    ensures |actors| <= Rank(c, states[0]) + 3 * Accidents(actors)
  {
    var n := |actors|;
    RunInv(c, states, actors, n);
    RankAlongRun(c, states, actors, n);
    RankNonNegative(c, states[n]);
    assert actors[..n] == actors;
  }

  lemma RunShape(c: Config, states: seq<State>, actors: seq<Actor>, k: nat)
    requires IsRun(c, states, actors) && k < |states|
    ensures Shape(c, states[k])
  {
    RunInv(c, states, actors, k);
  }

  lemma RankStep(c: Config, states: seq<State>, actors: seq<Actor>, k: nat)
    requires IsRun(c, states, actors) && k < |actors|
    requires Shape(c, states[k]) && Shape(c, states[k + 1])
    ensures Rank(c, states[k + 1]) + 1 <= Rank(c, states[k]) + (if actors[k].Spurious() then 3 else 0)
  {
    RunInv(c, states, actors, k);
    RankDrops(c, states[k], actors[k]);
  }

  lemma AccidentsNext(actors: seq<Actor>, n: nat)
    requires n < |actors|
    ensures Accidents(actors[..n + 1]) == Accidents(actors[..n]) + (if actors[n].Spurious() then 1 else 0)
  {
    assert actors[..n + 1][..n] == actors[..n];
  }

  lemma {:induction false} RankAlongRun(c: Config, states: seq<State>, actors: seq<Actor>, n: nat)
    requires IsRun(c, states, actors) && n <= |actors| && Shape(c, states[0]) && Shape(c, states[n])
    ensures Rank(c, states[n]) + n <= Rank(c, states[0]) + 3 * Accidents(actors[..n])
  {
    if n > 0 {
      RunShape(c, states, actors, n - 1);
      RankAlongRun(c, states, actors, n - 1);
      RankStep(c, states, actors, n - 1);
      AccidentsNext(actors, n - 1);
    }
  }

  /** The whole story of one execution: if it goes on until no thread can act, then it ends with
      all threads exited and every batch merged exactly once, precisely when the log has fewer
      than 2^32 batches. */
  lemma MaximalRun(c: Config, states: seq<State>, actors: seq<Actor>)
    requires IsRun(c, states, actors)
    requires Shape(c, states[|actors|])
    requires forall a: Actor :: !a.Spurious() ==> !Enabled(c, states[|actors|], a)
    ensures var last := states[|actors|]; var batches := Chunks(c.lines, c.batchSize);
            && (AllExited(last) <==> |batches| < MULTI_RANGE)
            && (|batches| < MULTI_RANGE ==>
                  last.taken == batches && multiset(last.merged) == multiset(batches) && last.gcounter == |batches|)
  {
    var last := states[|actors|];
    RunInv(c, states, actors, |actors|);
    StuckMeansDone(c, last);
    if AllExited(last) {
      CompleteRun(c, last);
    }
  }
}
