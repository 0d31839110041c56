/** No step loses or duplicates a line, a batch or a sub-graph, and free slots stay empty. */
module PipelineConservation {
  import opened Basics
  import opened Batching
  import opened Records
  import opened Ring
  import opened Pipeline
  import opened PipelineInvariant

  // ---- Steps that move no lines -----------------------------------------------------------

  /** The data the batch side of the invariant is about is the same in both states. */
  ghost predicate SameLines(c: Config, s: State, t: State)
    requires Shape(c, s) && Shape(c, t)
  {
    && t.bslots == s.bslots && t.br == s.br && t.bw == s.bw && t.taken == s.taken
    && InFlight(t) == InFlight(s) && (t.reader.pc == PAdvance <==> s.reader.pc == PAdvance)
    && t.reader.batch + c.lines[t.reader.next..] == s.reader.batch + c.lines[s.reader.next..]
  }

  lemma SameLinesKeeps(c: Config, s: State, t: State)
    requires Shape(c, s) && Shape(c, t) && SameLines(c, s, t)
    requires FreeSlotsEmpty(c, s) && LinesConserved(c, s)
    ensures FreeSlotsEmpty(c, t) && LinesConserved(c, t)
  {
    assert Formed(c, t) == Formed(c, s);
    forall j | 0 <= j < c.batchRepoSize
      ensures InUse(t, j) || t.bslots[j] == []
    {
      assert InUse(s, j) || s.bslots[j] == [];
    }
  }

  lemma ReadingSameLines(c: Config, s: State)
    requires Shape(c, s) && s.reader.pc == Reading
    ensures SameLines(c, s, ProduceBatchTask(c, s))
  {
    var r := s.reader;
    if r.next < |c.lines| {
      assert c.lines[r.next..] == [c.lines[r.next]] + c.lines[r.next + 1..];
    }
  }

  lemma ProduceSameLines(c: Config, s: State)
    requires Shape(c, s) && SharedInv(c, s)
    requires s.reader.pc == PWant || s.reader.pc == PCheck || s.reader.pc == PNotify
    ensures SameLines(c, s, ProduceBatch(c, s))
  {
  }

  lemma CountSameLines(c: Config, s: State, i: nat)
    requires Shape(c, s) && i < |s.parsers| && Local(c, s, i) && SharedInv(c, s)
    requires s.parsers[i].pc == CounterWant ==> s.cmtx.Free?
    requires InConsumerTask(s.parsers[i].pc) && s.parsers[i].pc != SwapOut
    ensures SameLines(c, s, ConsumerTask(c, s, i))
  {
  }

  lemma ConsumeSameLines(c: Config, s: State, i: nat)
    requires Shape(c, s) && i < |s.parsers| && Local(c, s, i)
    requires InConsumeBatch(s.parsers[i].pc) && s.parsers[i].pc != BAdvance
    ensures SameLines(c, s, ConsumeBatch(c, s, i))
  {
  }

  lemma GraphSameLines(c: Config, s: State, i: nat)
    requires Shape(c, s) && i < |s.parsers| && Local(c, s, i)
    requires InProduceGraph(s.parsers[i].pc)
    ensures SameLines(c, s, ProduceGraph(c, s, i))
  {
  }

  lemma MergerSameLines(c: Config, s: State)
    requires Shape(c, s) && Enabled(c, s, MergerActs)
    ensures SameLines(c, s, Do(c, s, MergerActs))
  {
  }

  lemma WakeSameLines(c: Config, s: State, a: Actor)
    requires Shape(c, s) && Enabled(c, s, a) && a.Spurious()
    ensures SameLines(c, s, Do(c, s, a))
  {
  }

  ghost predicate LinesInv(c: Config, s: State)
  {
    && Shape(c, s) && Locals(c, s) && ReaderInv(c, s) && SharedInv(c, s)
    && FreeSlotsEmpty(c, s) && LinesConserved(c, s)
  }

  // ---- Steps that move lines --------------------------------------------------------------

  lemma PStoreFree(c: Config, s: State)
    requires LinesInv(c, s) && s.reader.pc == PStore
    ensures FreeSlotsEmpty(c, ProduceBatch(c, s))
  {
    var t := ProduceBatch(c, s);
    forall j | 0 <= j < c.batchRepoSize
      ensures InUse(t, j) || t.bslots[j] == []
    {
      assert InUse(s, j) || s.bslots[j] == [];
    }
  }

  lemma PStoreConserves(c: Config, s: State)
    requires LinesInv(c, s) && s.reader.pc == PStore
    ensures LinesConserved(c, ProduceBatch(c, s))
  {
    var t := ProduceBatch(c, s);
    StoreSlotFree(c, s);
    var b, rest := s.reader.batch, c.lines[s.reader.next..];
    WindowFrame(s.bslots, s.bw, b, s.br, s.bw);
    ChunksHead(b, rest, c.batchSize);
    assert [] + rest == rest;
    assert Formed(c, t) == Formed(c, s) + [b];
    SeqAssoc(Formed(c, s), [b], Chunks(rest, c.batchSize));
  }

  lemma PStoreLines(c: Config, s: State)
    requires LinesInv(c, s) && s.reader.pc == PStore
    ensures FreeSlotsEmpty(c, ProduceBatch(c, s)) && LinesConserved(c, ProduceBatch(c, s))
  {
    PStoreFree(c, s);
    PStoreConserves(c, s);
  }

  lemma PAdvanceLines(c: Config, s: State)
    requires LinesInv(c, s) && s.reader.pc == PAdvance
    ensures FreeSlotsEmpty(c, ProduceBatch(c, s)) && LinesConserved(c, ProduceBatch(c, s))
  {
    var t := ProduceBatch(c, s);
    WindowPush(s.bslots, s.br, s.bw);
    SeqAssoc(s.taken + Referenced(s), Window(s.bslots, s.br, s.bw), [s.bslots[s.bw]]);
    assert Formed(c, t) == Formed(c, s) by {
      assert Stored(t) == [] && Referenced(t) == Referenced(s);
      assert Formed(c, t) == s.taken + Referenced(s) + (Window(s.bslots, s.br, s.bw) + [s.bslots[s.bw]]);
    }
    PAdvanceFree(c, s);
  }

  lemma PAdvanceFree(c: Config, s: State)
    requires Shape(c, s) && s.reader.pc == PAdvance && FreeSlotsEmpty(c, s)
    requires !AtCapacity(s.br, s.bw, c.batchRepoSize)
    ensures FreeSlotsEmpty(c, ProduceBatch(c, s))
  {
    var t := ProduceBatch(c, s);
    forall j | 0 <= j < c.batchRepoSize
      ensures InUse(t, j) || t.bslots[j] == []
    {
      assert InUse(s, j) || s.bslots[j] == [];
    }
  }

  lemma BAdvanceFormed(c: Config, s: State, i: nat)
    requires LinesInv(c, s) && i < |s.parsers| && s.parsers[i].pc == BAdvance
    ensures InFlight(s) == -1 && InFlight(ConsumeBatch(c, s, i)) == s.br
    ensures Formed(c, ConsumeBatch(c, s, i)) == Formed(c, s)
  {
    assert Local(c, s, i);
    WindowPop(s.bslots, s.br, s.bw);
  }

  lemma BAdvanceLines(c: Config, s: State, i: nat)
    requires LinesInv(c, s) && i < |s.parsers| && s.parsers[i].pc == BAdvance
    ensures FreeSlotsEmpty(c, ConsumeBatch(c, s, i)) && LinesConserved(c, ConsumeBatch(c, s, i))
  {
    var t := ConsumeBatch(c, s, i);
    BAdvanceFormed(c, s, i);
    forall j | 0 <= j < c.batchRepoSize
      ensures InUse(t, j) || t.bslots[j] == []
    {
      assert InUse(s, j) || s.bslots[j] == [];
    }
  }

  /** The referenced slot is outside the published window and is not the one the reader has just
      stored into. */
  lemma SwapOutSlot(c: Config, s: State, i: nat)
    requires LinesInv(c, s) && i < |s.parsers| && s.parsers[i].pc == SwapOut
    ensures InFlight(s) == s.parsers[i].slot && InFlight(ConsumerTask(c, s, i)) == -1
    ensures !InWindow(s.parsers[i].slot, s.br, s.bw) && s.parsers[i].batch == []
    ensures s.reader.pc == PAdvance ==> s.parsers[i].slot != s.bw
  {
    assert Local(c, s, i);
  }

  /** So the swap through the reference takes exactly the referenced batch out of the ring. */
  lemma SwapOutLines(c: Config, s: State, i: nat)
    requires LinesInv(c, s) && i < |s.parsers| && s.parsers[i].pc == SwapOut
    ensures FreeSlotsEmpty(c, ConsumerTask(c, s, i)) && LinesConserved(c, ConsumerTask(c, s, i))
  {
    SwapOutSlot(c, s, i);
    SwapOutFormed(c, s, i);
    SwapOutFree(c, s, i);
    var t := ConsumerTask(c, s, i);
    assert t.reader == s.reader;
  }

  lemma SwapOutFormed(c: Config, s: State, i: nat)
    requires Shape(c, s) && i < |s.parsers| && s.parsers[i].pc == SwapOut
    requires InFlight(s) == s.parsers[i].slot && InFlight(ConsumerTask(c, s, i)) == -1
    requires !InWindow(s.parsers[i].slot, s.br, s.bw) && (s.reader.pc == PAdvance ==> s.parsers[i].slot != s.bw)
    ensures Formed(c, ConsumerTask(c, s, i)) == Formed(c, s)
  {
    var t, p := ConsumerTask(c, s, i), s.parsers[i];
    WindowFrame(s.bslots, p.slot, p.batch, s.br, s.bw);
    assert Stored(t) == Stored(s) && Referenced(t) == [] && Referenced(s) == [s.bslots[p.slot]];
    assert t.taken + Referenced(t) == s.taken + Referenced(s);
  }

  lemma SwapOutFree(c: Config, s: State, i: nat)
    requires Shape(c, s) && i < |s.parsers| && s.parsers[i].pc == SwapOut && FreeSlotsEmpty(c, s)
    requires InFlight(s) == s.parsers[i].slot && s.parsers[i].batch == []
    ensures FreeSlotsEmpty(c, ConsumerTask(c, s, i))
  {
    var t := ConsumerTask(c, s, i);
    forall j | 0 <= j < c.batchRepoSize
      ensures InUse(t, j) || t.bslots[j] == []
    {
      assert InUse(s, j) || s.bslots[j] == [];
    }
  }

  lemma LinesKept(c: Config, s: State, a: Actor)
    requires LinesInv(c, s) && Enabled(c, s, a)
    ensures FreeSlotsEmpty(c, Do(c, s, a)) && LinesConserved(c, Do(c, s, a))
  {
    var t := Do(c, s, a);
    match a
    case ReaderActs =>
      if s.reader.pc == PStore {
        PStoreLines(c, s);
      } else if s.reader.pc == PAdvance {
        PAdvanceLines(c, s);
      } else {
        if s.reader.pc == Reading { ReadingSameLines(c, s); } else { ProduceSameLines(c, s); }
        SameLinesKeeps(c, s, t);
      }
    case ParserActs(i) =>
      assert Local(c, s, i);
      if s.parsers[i].pc == BAdvance {
        BAdvanceLines(c, s, i);
      } else if s.parsers[i].pc == SwapOut {
        SwapOutLines(c, s, i);
      } else {
        if InConsumerTask(s.parsers[i].pc) { CountSameLines(c, s, i); }
        else if InConsumeBatch(s.parsers[i].pc) { ConsumeSameLines(c, s, i); }
        else { GraphSameLines(c, s, i); }
        SameLinesKeeps(c, s, t);
      }
    case MergerActs => MergerSameLines(c, s); SameLinesKeeps(c, s, t);
    case _ => WakeSameLines(c, s, a); SameLinesKeeps(c, s, t);
  }

  // ---- Sub-graphs -------------------------------------------------------------------------

  lemma {:induction false} HeldByUpdate(ps: seq<Parser>, i: nat, p: Parser, g: SubGraph)
    requires i < |ps|
    ensures HeldBy(ps[i := p], g) + Held(ps[i], g) == HeldBy(ps, g) + Held(p, g)
  {
    if i == 0 {
      assert ps[i := p][1..] == ps[1..];
    } else {
      HeldByUpdate(ps[1..], i - 1, p, g);
      assert ps[i := p][1..] == ps[1..][i - 1 := p];
    }
  }

  lemma {:induction false} HeldByWake(ps: seq<Parser>, from: ParserPc, to: ParserPc, g: SubGraph)
    requires (from == BParked && to == BWant) || (from == GParked && to == GWant)
    ensures HeldBy(WakeParsers(ps, from, to), g) == HeldBy(ps, g)
  {
    if ps != [] {
      HeldByWake(ps[1..], from, to, g);
      assert WakeParsers(ps, from, to)[1..] == WakeParsers(ps[1..], from, to);
    }
  }

  lemma ReaderGraphs(c: Config, s: State, g: SubGraph)
    requires Shape(c, s) && Enabled(c, s, ReaderActs) && GraphConserved(c, s, g)
    ensures GraphConserved(c, Do(c, s, ReaderActs), g)
  {
    if s.reader.pc == PNotify {
      HeldByWake(s.parsers, BParked, BWant, g);
      SameGraphs(c, s, ProduceBatch(c, s), g);
    } else if s.reader.pc == Reading {
      SameGraphs(c, s, ProduceBatchTask(c, s), g);
    } else {
      SameGraphs(c, s, ProduceBatch(c, s), g);
    }
  }

  lemma SameGraphs(c: Config, s: State, t: State, g: SubGraph)
    requires Shape(c, s) && Shape(c, t) && GraphConserved(c, s, g)
    requires t.merged == s.merged && t.taken == s.taken && t.gslots == s.gslots && t.gr == s.gr && t.gw == s.gw
    requires MergerHeld(t.merger, g) == MergerHeld(s.merger, g) && HeldBy(t.parsers, g) == HeldBy(s.parsers, g)
    ensures GraphConserved(c, t, g)
  {
  }

  lemma SwapOutTakes(c: Config, s: State, i: nat)
    requires Shape(c, s) && i < |s.parsers| && s.parsers[i].pc == SwapOut
    ensures var t, batch := ConsumerTask(c, s, i), s.bslots[s.parsers[i].slot];
            && t.parsers == s.parsers[i := t.parsers[i]] && Answers(s.parsers[i]) == []
            && Answers(t.parsers[i]) == [batch] && t.taken == s.taken + [batch]
            && t.merger == s.merger && t.merged == s.merged
            && Window(t.gslots, t.gr, t.gw) == Window(s.gslots, s.gr, s.gw)
  {
  }

  lemma SwapOutGraphs(c: Config, s: State, i: nat, g: SubGraph)
    requires Shape(c, s) && i < |s.parsers| && s.parsers[i].pc == SwapOut && GraphConserved(c, s, g)
    ensures GraphConserved(c, ConsumerTask(c, s, i), g)
  {
    SwapOutTakes(c, s, i);
    HeldByUpdate(s.parsers, i, ConsumerTask(c, s, i).parsers[i], g);
    TimesPush(s.taken, s.bslots[s.parsers[i].slot], g);
  }

  /** Parser `i` moves on without handing anything over. */
  ghost predicate OnlyMoves(s: State, t: State, i: nat)
  {
    && i < |s.parsers| == |t.parsers|
    && t.parsers == s.parsers[i := t.parsers[i]] && Answers(t.parsers[i]) == Answers(s.parsers[i])
    && (t.merger == s.merger || t.merger == WakeMerger(s.merger))
    && t.merged == s.merged && t.taken == s.taken && t.gslots == s.gslots && t.gr == s.gr && t.gw == s.gw
  }

  lemma OnlyMovesKeeps(c: Config, s: State, t: State, i: nat, g: SubGraph)
    requires Shape(c, s) && Shape(c, t) && OnlyMoves(s, t, i) && GraphConserved(c, s, g)
    ensures GraphConserved(c, t, g)
  {
    HeldByUpdate(s.parsers, i, t.parsers[i], g);
  }

  lemma CountOnlyMoves(c: Config, s: State, i: nat)
    requires Shape(c, s) && i < |s.parsers| && InConsumerTask(s.parsers[i].pc) && s.parsers[i].pc != SwapOut
    ensures OnlyMoves(s, ConsumerTask(c, s, i), i)
  {
  }

  lemma ConsumeOnlyMoves(c: Config, s: State, i: nat)
    requires Shape(c, s) && i < |s.parsers| && InConsumeBatch(s.parsers[i].pc)
    ensures OnlyMoves(s, ConsumeBatch(c, s, i), i)
  {
  }

  lemma ProduceOnlyMoves(c: Config, s: State, i: nat)
    requires Shape(c, s) && i < |s.parsers| && InProduceGraph(s.parsers[i].pc)
    requires s.parsers[i].pc != GStore && s.parsers[i].pc != GAdvance
    ensures OnlyMoves(s, ProduceGraph(c, s, i), i)
  {
  }

  lemma GStoreTables(c: Config, s: State, i: nat)
    requires Shape(c, s) && i < |s.parsers| && s.parsers[i].pc == GStore
    ensures var t := ProduceGraph(c, s, i);
            && t.parsers == s.parsers[i := t.parsers[i]] && Answers(t.parsers[i]) == Answers(s.parsers[i])
            && t.merger == s.merger && t.merged == s.merged && t.taken == s.taken
            && Shape(c, t) && Window(t.gslots, t.gr, t.gw) == Window(s.gslots, s.gr, s.gw)
  {
    WindowFrame(s.gslots, s.gw, s.parsers[i].graph, s.gr, s.gw);
  }

  lemma GStoreGraphs(c: Config, s: State, i: nat, g: SubGraph)
    requires Shape(c, s) && i < |s.parsers| && s.parsers[i].pc == GStore && GraphConserved(c, s, g)
    ensures GraphConserved(c, ProduceGraph(c, s, i), g)
  {
    GStoreTables(c, s, i);
    HeldByUpdate(s.parsers, i, ProduceGraph(c, s, i).parsers[i], g);
  }

  lemma GAdvanceHandsOver(c: Config, s: State, i: nat)
    requires Shape(c, s) && i < |s.parsers| && Local(c, s, i) && s.parsers[i].pc == GAdvance
    ensures var t := ProduceGraph(c, s, i);
            && t.parsers == s.parsers[i := t.parsers[i]] && Answers(t.parsers[i]) == []
            && (forall g :: MergerHeld(t.merger, g) == MergerHeld(s.merger, g))
            && t.merged == s.merged && t.taken == s.taken && Shape(c, t)
            && Window(t.gslots, t.gr, t.gw) == Window(s.gslots, s.gr, s.gw) + [s.parsers[i].graph]
  {
    WindowPush(s.gslots, s.gr, s.gw);
  }

  lemma GAdvanceGraphs(c: Config, s: State, i: nat, g: SubGraph)
    requires Shape(c, s) && i < |s.parsers| && Local(c, s, i) && s.parsers[i].pc == GAdvance
    requires GraphConserved(c, s, g)
    ensures GraphConserved(c, ProduceGraph(c, s, i), g)
  {
    GAdvanceHandsOver(c, s, i);
    HeldByUpdate(s.parsers, i, ProduceGraph(c, s, i).parsers[i], g);
    TimesPush(Window(s.gslots, s.gr, s.gw), s.parsers[i].graph, g);
  }

  lemma MAdvanceTakes(c: Config, s: State)
    requires Shape(c, s) && s.merger.pc == MAdvance && MergerInv(c, s)
    ensures var t := ConsumeGraph(c, s);
            && t.parsers == s.parsers && t.merged == s.merged && t.taken == s.taken && Shape(c, t)
            && (forall g ::
                MergerHeld(t.merger, g) == (if s.gslots[s.gr] == g then 1 else 0) && MergerHeld(s.merger, g) == 0)
            && Window(s.gslots, s.gr, s.gw) == [s.gslots[s.gr]] + Window(t.gslots, t.gr, t.gw)
  {
    WindowPop(s.gslots, s.gr, s.gw);
  }

  lemma MAdvanceGraphs(c: Config, s: State, g: SubGraph)
    requires Shape(c, s) && s.merger.pc == MAdvance && MergerInv(c, s) && GraphConserved(c, s, g)
    ensures GraphConserved(c, ConsumeGraph(c, s), g)
  {
    var t := ConsumeGraph(c, s);
    MAdvanceTakes(c, s);
    TimesPop(Window(t.gslots, t.gr, t.gw), s.gslots[s.gr], g);
  }

  lemma MNotifyGraphs(c: Config, s: State, g: SubGraph)
    requires Shape(c, s) && s.merger.pc == MNotify && GraphConserved(c, s, g)
    ensures GraphConserved(c, ConsumeGraph(c, s), g)
  {
    HeldByWake(s.parsers, GParked, GWant, g);
  }

  lemma MMergeMoves(c: Config, s: State)
    requires Shape(c, s) && s.merger.pc == MMerge
    ensures var t := ConsumeGraphTask(c, s);
            && t.parsers == s.parsers && t.taken == s.taken && t.gslots == s.gslots && t.gr == s.gr && t.gw == s.gw
            && t.merged == s.merged + [s.merger.graph]
            && (forall g :: MergerHeld(s.merger, g) == (if s.merger.graph == g then 1 else 0) &&
                            MergerHeld(t.merger, g) == 0)
  {
  }

  lemma MMergeGraphs(c: Config, s: State, g: SubGraph)
    requires Shape(c, s) && s.merger.pc == MMerge && GraphConserved(c, s, g)
    ensures GraphConserved(c, ConsumeGraphTask(c, s), g)
  {
    MMergeMoves(c, s);
    TimesPush(s.merged, s.merger.graph, g);
  }

  lemma MergerGraphs(c: Config, s: State, g: SubGraph)
    requires Shape(c, s) && Enabled(c, s, MergerActs) && GraphConserved(c, s, g)
    requires s.merger.pc != MAdvance && s.merger.pc != MNotify && s.merger.pc != MMerge
    ensures GraphConserved(c, Do(c, s, MergerActs), g)
  {
    SameGraphs(c, s, Do(c, s, MergerActs), g);
  }

  lemma WakeGraphs(c: Config, s: State, a: Actor, g: SubGraph)
    requires Shape(c, s) && Enabled(c, s, a) && a.Spurious() && GraphConserved(c, s, g)
    ensures GraphConserved(c, Do(c, s, a), g)
  {
    if a.ParserWakes? {
      assert OnlyMoves(s, Do(c, s, a), a.i);
      OnlyMovesKeeps(c, s, Do(c, s, a), a.i, g);
    }
  }

  lemma ParserGraphs(c: Config, s: State, i: nat, g: SubGraph)
    requires Shape(c, s) && Enabled(c, s, ParserActs(i)) && Local(c, s, i) && GraphConserved(c, s, g)
    ensures GraphConserved(c, Do(c, s, ParserActs(i)), g)
  {
    if s.parsers[i].pc == SwapOut {
      SwapOutGraphs(c, s, i, g);
    } else if s.parsers[i].pc == GStore {
      GStoreGraphs(c, s, i, g);
    } else if s.parsers[i].pc == GAdvance {
      GAdvanceGraphs(c, s, i, g);
    } else {
      if InConsumerTask(s.parsers[i].pc) { CountOnlyMoves(c, s, i); }
      else if InConsumeBatch(s.parsers[i].pc) { ConsumeOnlyMoves(c, s, i); }
      else { ProduceOnlyMoves(c, s, i); }
      OnlyMovesKeeps(c, s, Do(c, s, ParserActs(i)), i, g);
    }
  }

  lemma GraphsKept(c: Config, s: State, a: Actor, g: SubGraph)
    requires Shape(c, s) && Locals(c, s) && MergerInv(c, s) && Enabled(c, s, a) && GraphConserved(c, s, g)
    ensures GraphConserved(c, Do(c, s, a), g)
  {
    match a
    case ReaderActs => ReaderGraphs(c, s, g);
    case ParserActs(i) =>
      assert Local(c, s, i);
      ParserGraphs(c, s, i, g);
    case MergerActs =>
      if s.merger.pc == MAdvance { MAdvanceGraphs(c, s, g); }
      else if s.merger.pc == MNotify { MNotifyGraphs(c, s, g); }
      else if s.merger.pc == MMerge { MMergeGraphs(c, s, g); }
      else { MergerGraphs(c, s, g); }
    case _ => WakeGraphs(c, s, a, g);
  }
}
