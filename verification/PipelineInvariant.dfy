/** What every step of the pipeline keeps: who holds which lock, which slots are empty, where
    every line of the log and every sub-graph is, and that nobody sleeps on a condition that
    already holds. The invariant is split into what concerns one parser and the shared state
    (`Local`) and what concerns the shared state alone, so that each step is checked once for
    the thread that acts and once for an arbitrary other thread. */
module PipelineInvariant {
  import opened Basics
  import opened Batching
  import opened Records
  import opened Ring
  import opened Pipeline

  // ---- Program points that hold a lock --------------------------------------------------

  predicate ReaderLocks(pc: ReaderPc) { pc == PCheck || pc == PStore || pc == PAdvance || pc == PNotify }

  predicate LocksBatches(pc: ParserPc) { pc == BCheck || pc == BAdvance || pc == BNotify }

  predicate InsideCount(pc: ParserPc)
  {
    || pc == BWant || pc == BCheck || pc == BParked || pc == BAdvance
    || pc == BNotify || pc == SwapOut || pc == CountUp
  }

  predicate LocksCounter(pc: ParserPc) { pc == CounterCheck || InsideCount(pc) }

  predicate LocksGraphs(pc: ParserPc) { pc == GCheck || pc == GStore || pc == GAdvance || pc == GNotify }

  predicate MergerLocks(pc: MergerPc) { pc == MCheck || pc == MAdvance || pc == MNotify }

  predicate BeforeSwap(pc: ParserPc) { pc == CounterWant || (LocksCounter(pc) && pc != CountUp) }

  predicate HoldsReference(pc: ParserPc) { pc == BNotify || pc == SwapOut }

  /** The ring slot referenced after ConsumeBatch moved on, or -1. Only the thread holding the
      counter lock can have such a reference. */
  function InFlight(s: State): int
  {
    if s.cmtx.ByParser? && s.cmtx.i < |s.parsers| && HoldsReference(s.parsers[s.cmtx.i].pc)
    then s.parsers[s.cmtx.i].slot else -1
  }

  predicate CountingUp(s: State)
  {
    s.cmtx.ByParser? && s.cmtx.i < |s.parsers| && s.parsers[s.cmtx.i].pc == CountUp
  }

  // ---- The invariant ----------------------------------------------------------------------

  /** What parser `j` knows about itself and the shared state. */
  ghost predicate Local(c: Config, s: State, j: nat)
    requires Shape(c, s) && j < |s.parsers|
  {
    var p := s.parsers[j];
    && (s.bmtx == ByParser(j) <==> LocksBatches(p.pc))
    && (s.cmtx == ByParser(j) <==> LocksCounter(p.pc))
    && (s.gmtx == ByParser(j) <==> LocksGraphs(p.pc))
    && (p.pc == BAdvance ==> s.br != s.bw)
    && (BeforeSwap(p.pc) ==> p.batch == [])
    && (HoldsReference(p.pc) ==> Bump(p.slot, c.batchRepoSize) == s.br)
    && (InsideCount(p.pc) ==> s.counter < c.batchNum)
    && (p.pc == Exited ==> s.counter >= c.batchNum)
    && (p.pc == GStore || p.pc == GAdvance ==> !AtCapacity(s.gr, s.gw, c.graphRepoSize))
    && (p.pc == GAdvance ==> s.gslots[s.gw] == p.graph)
    // no lost wakeup: the thread that made the condition true is about to notify
    && (p.pc == BParked && !Empty(s.br, s.bw) ==> s.reader.pc == PNotify)
    && (p.pc == GParked && !AtCapacity(s.gr, s.gw, c.graphRepoSize) ==> s.merger.pc == MNotify)
  }

  ghost predicate ReaderInv(c: Config, s: State)
    requires Shape(c, s)
  {
    var r := s.reader;
    && (s.bmtx == ByReader <==> ReaderLocks(r.pc))
    && (r.tail ==> r.next == |c.lines|)
    && (match r.pc
        case Reading => !r.tail && |r.batch| < c.batchSize
        case PAdvance => r.batch == []
        case PNotify => r.batch == []
        case RDone => r.batch == [] && r.next == |c.lines|
        case _ => 1 <= |r.batch| <= c.batchSize && (|r.batch| == c.batchSize || r.tail))
    && (r.pc == PStore || r.pc == PAdvance ==> !AtCapacity(s.br, s.bw, c.batchRepoSize))
    && (r.pc == PParked && !AtCapacity(s.br, s.bw, c.batchRepoSize) ==>
          s.bmtx.ByParser? && s.bmtx.i < |s.parsers| && s.parsers[s.bmtx.i].pc == BNotify)
  }

  ghost predicate MergerInv(c: Config, s: State)
    requires Shape(c, s)
  {
    && (s.gmtx == ByMerger <==> MergerLocks(s.merger.pc))
    && (s.merger.pc == MAdvance ==> !Empty(s.gr, s.gw))
    && (s.merger.pc == MParked && !Empty(s.gr, s.gw) ==>
          s.gmtx.ByParser? && s.gmtx.i < |s.parsers| && s.parsers[s.gmtx.i].pc == GNotify)
    && |s.merged| == s.gcounter + (if s.merger.pc == MCount then 1 else 0)
    && (if s.merger.pc == MTest then s.gcounter <= c.batchNum
        else if s.merger.pc == MExited then s.gcounter == c.batchNum
        else s.gcounter < c.batchNum)
  }

  ghost predicate SharedInv(c: Config, s: State)
    requires Shape(c, s)
  {
    && s.bmtx != ByMerger && s.cmtx != ByReader && s.cmtx != ByMerger && s.gmtx != ByReader
    && (s.bmtx.ByParser? ==> s.bmtx.i < |s.parsers|)
    && (s.cmtx.ByParser? ==> s.cmtx.i < |s.parsers|)
    && (s.gmtx.ByParser? ==> s.gmtx.i < |s.parsers|)
    && s.counter <= c.batchNum
    && |s.taken| == s.counter + (if CountingUp(s) then 1 else 0)
  }

  /** Slots that may hold lines: published, referenced after ConsumeBatch, or about to be published. */
  predicate InUse(s: State, j: nat)
  {
    InWindow(j, s.br, s.bw) || InFlight(s) == j || (s.reader.pc == PAdvance && j == s.bw)
  }

  ghost predicate FreeSlotsEmpty(c: Config, s: State)
    requires Shape(c, s)
  {
    forall j :: 0 <= j < c.batchRepoSize ==> InUse(s, j) || s.bslots[j] == []
  }

  /** Batches referenced but not yet swapped out, and stored but not yet published. */
  function Referenced(s: State): seq<Batch>
  {
    if 0 <= InFlight(s) < |s.bslots| then [s.bslots[InFlight(s)]] else []
  }

  function Stored(s: State): seq<Batch>
  {
    if s.reader.pc == PAdvance && s.bw < |s.bslots| then [s.bslots[s.bw]] else []
  }

  /** Every batch formed so far, in the order it was formed. */
  function Formed(c: Config, s: State): seq<Batch>
    requires Shape(c, s)
  {
    s.taken + Referenced(s) + Window(s.bslots, s.br, s.bw) + Stored(s)
  }

  /** The batches formed so far, followed by those of the unread rest, are the batches of the log. */
  ghost predicate LinesConserved(c: Config, s: State)
    requires Shape(c, s)
  {
    Formed(c, s) + Chunks(s.reader.batch + c.lines[s.reader.next..], c.batchSize) == Chunks(c.lines, c.batchSize)
  }

  lemma TimesPush(gs: seq<SubGraph>, x: SubGraph, g: SubGraph)
    ensures Times(gs + [x], g) == Times(gs, g) + (if x == g then 1 else 0)
  {
    assert (gs + [x])[..|gs + [x]| - 1] == gs;
  }

  lemma {:induction false} TimesPop(gs: seq<SubGraph>, x: SubGraph, g: SubGraph)
    ensures Times([x] + gs, g) == Times(gs, g) + (if x == g then 1 else 0)
  {
    if gs == [] {
      assert [x] + gs == [] + [x];
      TimesPush([], x, g);
    } else {
      var n := |gs| - 1;
      TimesPop(gs[..n], x, g);
      assert [x] + gs == ([x] + gs[..n]) + [gs[n]];
      TimesPush([x] + gs[..n], gs[n], g);
    }
  }

  /** The sub-graph (or the batch it will come from) a parser answers for, if any. */
  function Answers(p: Parser): seq<SubGraph>
  {
    match p.pc
    case CountUp => [p.batch]
    case Build => [p.batch]
    case GWant => [p.graph]
    case GCheck => [p.graph]
    case GParked => [p.graph]
    case GStore => [p.graph]
    case GAdvance => [p.graph]
    case _ => []
  }

  function Held(p: Parser, g: SubGraph): nat
  {
    if Answers(p) == [g] then 1 else 0
  }

  function HeldBy(ps: seq<Parser>, g: SubGraph): nat
  {
    if ps == [] then 0 else Held(ps[0], g) + HeldBy(ps[1..], g)
  }

  function MergerHeld(m: Merger, g: SubGraph): nat
  {
    if (m.pc == MNotify || m.pc == MMerge) && m.graph == g then 1 else 0
  }

  /** Each batch taken out is in exactly one place: merged, or on its way. */
  ghost predicate GraphConserved(c: Config, s: State, g: SubGraph)
    requires Shape(c, s)
  {
    Times(s.merged, g) + MergerHeld(s.merger, g) + Times(Window(s.gslots, s.gr, s.gw), g) + HeldBy(s.parsers, g)
    == Times(s.taken, g)
  }

  ghost predicate GraphsConserved(c: Config, s: State)
    requires Shape(c, s)
  {
    forall g :: GraphConserved(c, s, g)
  }

  ghost predicate Locals(c: Config, s: State)
    requires Shape(c, s)
  {
    forall j :: 0 <= j < |s.parsers| ==> Local(c, s, j)
  }

  ghost predicate Inv(c: Config, s: State)
  {
    && Shape(c, s)
    && Locals(c, s) && ReaderInv(c, s) && MergerInv(c, s) && SharedInv(c, s)
    && FreeSlotsEmpty(c, s) && LinesConserved(c, s) && GraphsConserved(c, s)
  }

  // ---- Initially --------------------------------------------------------------------------

  lemma {:induction false} HeldByNobody(ps: seq<Parser>, g: SubGraph)
    requires forall i :: 0 <= i < |ps| ==> Answers(ps[i]) == []
    ensures HeldBy(ps, g) == 0
  {
    if ps != [] {
      HeldByNobody(ps[1..], g);
    }
  }

  lemma InitInv(c: Config, s: State)
    requires c.Valid() && c.Announced() && Init(c, s)
    ensures Inv(c, s)
  {
    forall g {
      HeldByNobody(s.parsers, g);
    }
    assert s.reader.batch + c.lines[s.reader.next..] == c.lines;
    FullIsAtCapacity(s.br, s.bw, c.batchRepoSize);
  }

  // ---- One step, seen by the acting thread and by one parser ------------------------------

  /** The invariant as far as parser `j` and the unsplit parts are concerned. */
  ghost predicate Seen(c: Config, s: State, j: nat)
  {
    && Shape(c, s) && j < |s.parsers|
    && Local(c, s, j) && ReaderInv(c, s) && MergerInv(c, s) && SharedInv(c, s)
  }

  /** The slot the reader is about to fill is empty and nobody holds a reference to it. */
  lemma StoreSlotFree(c: Config, s: State)
    requires Shape(c, s) && ReaderInv(c, s) && SharedInv(c, s) && FreeSlotsEmpty(c, s) && Locals(c, s)
    requires s.reader.pc == PStore
    ensures s.bslots[s.bw] == [] && InFlight(s) != s.bw && !InWindow(s.bw, s.br, s.bw)
  {
    assert InFlight(s) >= 0 ==> Local(c, s, s.cmtx.i);
    assert InUse(s, s.bw) || s.bslots[s.bw] == [];
  }

  lemma ReadingKeeps(c: Config, s: State, j: nat)
    requires Seen(c, s, j) && s.reader.pc == Reading
    ensures Seen(c, ProduceBatchTask(c, s), j)
  {
  }

  lemma PWantKeeps(c: Config, s: State, j: nat)
    requires Seen(c, s, j) && s.reader.pc == PWant && s.bmtx.Free?
    ensures Seen(c, ProduceBatch(c, s), j)
  {
  }

  lemma PCheckKeeps(c: Config, s: State, j: nat)
    requires Seen(c, s, j) && s.reader.pc == PCheck
    ensures Seen(c, ProduceBatch(c, s), j)
  {
    FullIsAtCapacity(s.br, s.bw, c.batchRepoSize);
  }

  lemma PStoreKeeps(c: Config, s: State, j: nat)
    requires Seen(c, s, j) && s.reader.pc == PStore && s.bslots[s.bw] == []
    ensures Seen(c, ProduceBatch(c, s), j)
  {
  }

  lemma PAdvanceKeeps(c: Config, s: State, j: nat)
    requires Seen(c, s, j) && s.reader.pc == PAdvance
    ensures Seen(c, ProduceBatch(c, s), j)
  {
  }

  lemma PNotifyKeeps(c: Config, s: State, j: nat)
    requires Seen(c, s, j) && s.reader.pc == PNotify
    ensures Seen(c, ProduceBatch(c, s), j)
  {
  }

  lemma CounterWantKeeps(c: Config, s: State, i: nat, j: nat)
    requires Seen(c, s, j) && Seen(c, s, i) && s.parsers[i].pc == CounterWant && s.cmtx.Free?
    ensures Seen(c, ConsumerTask(c, s, i), j)
  {
  }

  lemma CounterCheckKeeps(c: Config, s: State, i: nat, j: nat)
    requires Seen(c, s, j) && Seen(c, s, i) && s.parsers[i].pc == CounterCheck
    ensures Seen(c, ConsumerTask(c, s, i), j)
  {
  }

  lemma SwapOutKeeps(c: Config, s: State, i: nat, j: nat)
    requires Seen(c, s, j) && Seen(c, s, i) && s.parsers[i].pc == SwapOut
    ensures Seen(c, ConsumerTask(c, s, i), j)
  {
  }

  lemma CountUpKeeps(c: Config, s: State, i: nat, j: nat)
    requires Seen(c, s, j) && Seen(c, s, i) && s.parsers[i].pc == CountUp
    ensures Seen(c, ConsumerTask(c, s, i), j)
  {
  }

  lemma BuildKeeps(c: Config, s: State, i: nat, j: nat)
    requires Seen(c, s, j) && Seen(c, s, i) && s.parsers[i].pc == Build
    ensures Seen(c, ConsumerTask(c, s, i), j)
  {
  }

  lemma BWantKeeps(c: Config, s: State, i: nat, j: nat)
    requires Seen(c, s, j) && Seen(c, s, i) && s.parsers[i].pc == BWant && s.bmtx.Free?
    ensures Seen(c, ConsumeBatch(c, s, i), j)
  {
  }

  lemma BCheckKeeps(c: Config, s: State, i: nat, j: nat)
    requires Seen(c, s, j) && Seen(c, s, i) && s.parsers[i].pc == BCheck
    ensures Seen(c, ConsumeBatch(c, s, i), j)
  {
  }

  lemma BAdvanceKeeps(c: Config, s: State, i: nat, j: nat)
    requires Seen(c, s, j) && Seen(c, s, i) && s.parsers[i].pc == BAdvance
    ensures Seen(c, ConsumeBatch(c, s, i), j)
  {
  }

  lemma BNotifyKeeps(c: Config, s: State, i: nat, j: nat)
    requires Seen(c, s, j) && Seen(c, s, i) && s.parsers[i].pc == BNotify
    ensures Seen(c, ConsumeBatch(c, s, i), j)
  {
  }

  lemma GWantKeeps(c: Config, s: State, i: nat, j: nat)
    requires Seen(c, s, j) && Seen(c, s, i) && s.parsers[i].pc == GWant && s.gmtx.Free?
    ensures Seen(c, ProduceGraph(c, s, i), j)
  {
  }

  lemma GCheckBranch(c: Config, s: State, i: nat)
    requires Shape(c, s) && i < |s.parsers| && s.parsers[i].pc == GCheck
    ensures ProduceGraph(c, s, i) ==
      if AtCapacity(s.gr, s.gw, c.graphRepoSize)
      then s.(parsers := s.parsers[i := s.parsers[i].(pc := GParked)], gmtx := Free)
      else s.(parsers := s.parsers[i := s.parsers[i].(pc := GStore)])
  {
    FullIsAtCapacity(s.gr, s.gw, c.graphRepoSize);
  }

  lemma GParkKeeps(c: Config, s: State, i: nat, j: nat)
    requires Seen(c, s, j) && Seen(c, s, i) && s.parsers[i].pc == GCheck
    requires AtCapacity(s.gr, s.gw, c.graphRepoSize)
    ensures Seen(c, s.(parsers := s.parsers[i := s.parsers[i].(pc := GParked)], gmtx := Free), j)
  {
  }

  lemma GRoomKeeps(c: Config, s: State, i: nat, j: nat)
    requires Seen(c, s, j) && Seen(c, s, i) && s.parsers[i].pc == GCheck
    requires !AtCapacity(s.gr, s.gw, c.graphRepoSize)
    ensures Seen(c, s.(parsers := s.parsers[i := s.parsers[i].(pc := GStore)]), j)
  {
  }

  lemma GCheckKeeps(c: Config, s: State, i: nat, j: nat)
    requires Seen(c, s, j) && Seen(c, s, i) && s.parsers[i].pc == GCheck
    ensures Seen(c, ProduceGraph(c, s, i), j)
  {
    GCheckBranch(c, s, i);
    if AtCapacity(s.gr, s.gw, c.graphRepoSize) {
      GParkKeeps(c, s, i, j);
    } else {
      GRoomKeeps(c, s, i, j);
    }
  }

  lemma GStoreKeeps(c: Config, s: State, i: nat, j: nat)
    requires Seen(c, s, j) && Seen(c, s, i) && s.parsers[i].pc == GStore
    ensures Seen(c, ProduceGraph(c, s, i), j)
  {
  }

  lemma GAdvanceKeeps(c: Config, s: State, i: nat, j: nat)
    requires Seen(c, s, j) && Seen(c, s, i) && s.parsers[i].pc == GAdvance
    ensures Seen(c, ProduceGraph(c, s, i), j)
  {
  }

  lemma GNotifyKeeps(c: Config, s: State, i: nat, j: nat)
    requires Seen(c, s, j) && Seen(c, s, i) && s.parsers[i].pc == GNotify
    ensures Seen(c, ProduceGraph(c, s, i), j)
  {
  }

  lemma MergeTaskKeeps(c: Config, s: State, j: nat)
    requires Seen(c, s, j) && (s.merger.pc == MTest || s.merger.pc == MMerge || s.merger.pc == MCount)
    ensures Seen(c, ConsumeGraphTask(c, s), j)
  {
  }

  lemma MWantKeeps(c: Config, s: State, j: nat)
    requires Seen(c, s, j) && s.merger.pc == MWant && s.gmtx.Free?
    ensures Seen(c, ConsumeGraph(c, s), j)
  {
  }

  lemma MCheckKeeps(c: Config, s: State, j: nat)
    requires Seen(c, s, j) && s.merger.pc == MCheck
    ensures Seen(c, ConsumeGraph(c, s), j)
  {
  }

  lemma MAdvanceKeeps(c: Config, s: State, j: nat)
    requires Seen(c, s, j) && s.merger.pc == MAdvance
    ensures Seen(c, ConsumeGraph(c, s), j)
  {
  }

  lemma MNotifyKeeps(c: Config, s: State, j: nat)
    requires Seen(c, s, j) && s.merger.pc == MNotify
    ensures Seen(c, ConsumeGraph(c, s), j)
  {
  }

  lemma ReaderWakesKeeps(c: Config, s: State, j: nat)
    requires Seen(c, s, j) && s.reader.pc == PParked
    ensures Seen(c, Do(c, s, ReaderWakes), j)
  {
  }

  lemma ParserWakesKeeps(c: Config, s: State, i: nat, j: nat)
    requires Seen(c, s, j) && Seen(c, s, i) && (s.parsers[i].pc == BParked || s.parsers[i].pc == GParked)
    ensures Seen(c, Do(c, s, ParserWakes(i)), j)
  {
  }

  lemma MergerWakesKeeps(c: Config, s: State, j: nat)
    requires Seen(c, s, j) && s.merger.pc == MParked
    ensures Seen(c, Do(c, s, MergerWakes), j)
  {
  }
}
