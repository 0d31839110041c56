/** What the pipeline guarantees in every state of every run: the referenced slot is not touched,
    batches come out exactly once and in order, and the pipeline never gets stuck unless the log
    has too many batches for the 32-bit announcement. */
module PipelineSafety {
  import opened Basics
  import opened Batching
  import opened Records
  import opened Ring
  import opened Pipeline
  import opened PipelineInvariant
  import opened PipelineConservation

  // ---- Every reachable state ----------------------------------------------------------------

  lemma ReaderSeen(c: Config, s: State, j: nat)
    requires Inv(c, s) && Enabled(c, s, ReaderActs) && j < |s.parsers|
    ensures Seen(c, Do(c, s, ReaderActs), j)
  {
    assert Local(c, s, j);
    match s.reader.pc
    case Reading => ReadingKeeps(c, s, j);
    case PWant => PWantKeeps(c, s, j);
    case PCheck => PCheckKeeps(c, s, j);
    case PStore => StoreSlotFree(c, s); PStoreKeeps(c, s, j);
    case PAdvance => PAdvanceKeeps(c, s, j);
    case PNotify => PNotifyKeeps(c, s, j);
  }

  lemma ConsumerTaskSeen(c: Config, s: State, i: nat, j: nat)
    requires Seen(c, s, i) && Seen(c, s, j) && Enabled(c, s, ParserActs(i)) && InConsumerTask(s.parsers[i].pc)
    ensures Seen(c, ConsumerTask(c, s, i), j)
  {
    match s.parsers[i].pc
    case CounterWant => CounterWantKeeps(c, s, i, j);
    case CounterCheck => CounterCheckKeeps(c, s, i, j);
    case SwapOut => SwapOutKeeps(c, s, i, j);
    case CountUp => CountUpKeeps(c, s, i, j);
    case Build => BuildKeeps(c, s, i, j);
  }

  lemma ConsumeBatchSeen(c: Config, s: State, i: nat, j: nat)
    requires Seen(c, s, i) && Seen(c, s, j) && Enabled(c, s, ParserActs(i)) && InConsumeBatch(s.parsers[i].pc)
    ensures Seen(c, ConsumeBatch(c, s, i), j)
  {
    match s.parsers[i].pc
    case BWant => BWantKeeps(c, s, i, j);
    case BCheck => BCheckKeeps(c, s, i, j);
    case BAdvance => BAdvanceKeeps(c, s, i, j);
    case BNotify => BNotifyKeeps(c, s, i, j);
  }

  lemma ProduceGraphSeen(c: Config, s: State, i: nat, j: nat)
    requires Seen(c, s, i) && Seen(c, s, j) && Enabled(c, s, ParserActs(i)) && InProduceGraph(s.parsers[i].pc)
    ensures Seen(c, ProduceGraph(c, s, i), j)
  {
    match s.parsers[i].pc
    case GWant => GWantKeeps(c, s, i, j);
    case GCheck => GCheckKeeps(c, s, i, j);
    case GStore => GStoreKeeps(c, s, i, j);
    case GAdvance => GAdvanceKeeps(c, s, i, j);
    case GNotify => GNotifyKeeps(c, s, i, j);
  }

  lemma MergerSeen(c: Config, s: State, j: nat)
    requires Seen(c, s, j) && Enabled(c, s, MergerActs)
    ensures Seen(c, Do(c, s, MergerActs), j)
  {
    match s.merger.pc
    case MWant => MWantKeeps(c, s, j);
    case MCheck => MCheckKeeps(c, s, j);
    case MAdvance => MAdvanceKeeps(c, s, j);
    case MNotify => MNotifyKeeps(c, s, j);
    case _ => MergeTaskKeeps(c, s, j);
  }

  lemma StepSeen(c: Config, s: State, a: Actor, j: nat)
    requires Inv(c, s) && Enabled(c, s, a) && j < |s.parsers|
    ensures Seen(c, Do(c, s, a), j)
  {
    assert Local(c, s, j);
    match a
    case ReaderActs => ReaderSeen(c, s, j);
    case ParserActs(i) =>
      assert Local(c, s, i);
      if InConsumerTask(s.parsers[i].pc) { ConsumerTaskSeen(c, s, i, j); }
      else if InConsumeBatch(s.parsers[i].pc) { ConsumeBatchSeen(c, s, i, j); }
      else { ProduceGraphSeen(c, s, i, j); }
    case MergerActs => MergerSeen(c, s, j);
    case ReaderWakes => ReaderWakesKeeps(c, s, j);
    case ParserWakes(i) => assert Local(c, s, i); ParserWakesKeeps(c, s, i, j);
    case MergerWakes => MergerWakesKeeps(c, s, j);
  }

  lemma StepInv(c: Config, s: State, a: Actor)
    requires Inv(c, s) && Enabled(c, s, a)
    ensures Inv(c, Do(c, s, a))
  {
    var t := Do(c, s, a);
    StepSeen(c, s, a, 0);
    forall j | 0 <= j < |t.parsers|
      ensures Local(c, t, j)
    {
      StepSeen(c, s, a, j);
    }
    LinesKept(c, s, a);
    forall g
      ensures GraphConserved(c, t, g)
    {
      assert GraphConserved(c, s, g);
      GraphsKept(c, s, a, g);
    }
  }

  /** The invariant holds along every run, whatever the scheduler and spurious wakeups do. */
  lemma {:induction false} RunInv(c: Config, states: seq<State>, actors: seq<Actor>, k: nat)
    requires IsRun(c, states, actors) && k < |states|
    ensures Inv(c, states[k])
  {
    if k == 0 {
      InitInv(c, states[0]);
    } else {
      RunInv(c, states, actors, k - 1);
      StepInv(c, states[k - 1], actors[k - 1]);
    }
  }

  // ---- The reference into the ring --------------------------------------------------------

  /** While a parser holds a reference to a slot, that slot is the one just behind the read
      position, is not published, is not the one the reader writes, and no other parser is
      inside ConsumeBatch or holds a reference. */
  lemma ReferenceExclusive(c: Config, s: State, i: nat, j: nat)
    requires Inv(c, s) && i < |s.parsers| && HoldsReference(s.parsers[i].pc)
    ensures Bump(s.parsers[i].slot, c.batchRepoSize) == s.br
    ensures !InWindow(s.parsers[i].slot, s.br, s.bw)
    ensures s.reader.pc == PStore || s.reader.pc == PAdvance ==> s.bw != s.parsers[i].slot
    ensures j < |s.parsers| && j != i ==> !LocksCounter(s.parsers[j].pc)
  {
    assert Local(c, s, i);
    assert j < |s.parsers| ==> Local(c, s, j);
  }

  /** No step of any other thread changes the referenced slot, moves the read position or
      disturbs the reference. */
  lemma ReferenceFrozen(c: Config, s: State, a: Actor, i: nat)
    requires Inv(c, s) && Enabled(c, s, a) && i < |s.parsers| && HoldsReference(s.parsers[i].pc)
    requires a != ParserActs(i)
    ensures var t := Do(c, s, a); var x := s.parsers[i].slot;
            t.parsers[i] == s.parsers[i] && t.bslots[x] == s.bslots[x] && t.br == s.br && t.taken == s.taken
  {
    assert Local(c, s, i);
    if a.ParserActs? {
      ReferenceExclusive(c, s, i, a.i);
    } else {
      ReferenceExclusive(c, s, i, i);
    }
  }

  /** Along a run: what a parser swaps out is the oldest published batch at the moment
      ConsumeBatch took the reference, however many steps of other threads lie in between. */
  lemma {:induction false} SwapGetsOldest(c: Config, states: seq<State>, actors: seq<Actor>, m: nat, n: nat, i: nat)
    requires IsRun(c, states, actors) && m < n < |states|
    requires i < |states[m].parsers| && states[m].parsers[i].pc == BAdvance && actors[m] == ParserActs(i)
    requires forall k :: m < k < n && actors[k] == ParserActs(i) ==> states[k].parsers[i].pc != SwapOut
    ensures Shape(c, states[n]) && i < |states[n].parsers| && HoldsReference(states[n].parsers[i].pc)
    ensures states[n].bslots[states[n].parsers[i].slot] == states[m].bslots[states[m].br]
    ensures states[n].parsers[i].slot == states[m].br && states[n].taken == states[m].taken
    decreases n
  {
    var k := n - 1;
    RunInv(c, states, actors, k);
    if k > m {
      SwapGetsOldest(c, states, actors, m, k, i);
      if actors[k] != ParserActs(i) {
        ReferenceFrozen(c, states[k], actors[k], i);
      }
    }
  }

  // ---- Exactly-once batching --------------------------------------------------------------

  /** The batches taken out so far are the first batches of the log, in order; each time
      ProduceBatch returns, the reader's own batch is empty again. */
  lemma TakenIsPrefix(c: Config, s: State)
    requires Inv(c, s)
    ensures s.taken <= Chunks(c.lines, c.batchSize)
    ensures s.reader.pc == PNotify ==> s.reader.batch == []
  {
    FirstOfFour(s.taken, Referenced(s), Window(s.bslots, s.br, s.bw), Stored(s),
                Chunks(s.reader.batch + c.lines[s.reader.next..], c.batchSize), Chunks(c.lines, c.batchSize));
  }

  lemma FirstOfFour<T>(a: seq<T>, b: seq<T>, d: seq<T>, e: seq<T>, f: seq<T>, all: seq<T>)
    requires a + b + d + e + f == all
    ensures a <= all
  {
    assert a + b + d + e + f == a + (b + d + e + f);
  }

  lemma TakenBound(c: Config, s: State)
    requires Inv(c, s)
    ensures s.counter <= |s.taken| <= c.batchNum
  {
    assert s.cmtx.ByParser? ==> Local(c, s, s.cmtx.i);
  }

  lemma SameTimesSameMultiset(a: seq<SubGraph>, b: seq<SubGraph>, d: seq<SubGraph>)
    requires forall g :: Times(a, g) + Times(b, g) <= Times(d, g)
    ensures |a| + |b| <= |d|
    ensures (forall g :: Times(a, g) + Times(b, g) == Times(d, g)) ==>
            multiset(a + b) == multiset(d) && |a| + |b| == |d|
  {
    var ab, md := multiset(a + b), multiset(d);
    forall g
      ensures ab[g] == Times(a, g) + Times(b, g) && md[g] == Times(d, g)
    {
      assert ab == multiset(a) + multiset(b);
      TimesIsMultiplicity(a, g);
      TimesIsMultiplicity(b, g);
      TimesIsMultiplicity(d, g);
    }
    BagInclusion(ab, md);
    assert |ab| == |a + b| && |md| == |d|;
    if forall g :: Times(a, g) + Times(b, g) == Times(d, g) {
      assert ab == md;
    }
  }

  lemma BagInclusion<T>(a: multiset<T>, b: multiset<T>)
    requires forall x :: a[x] <= b[x]
    ensures |a| <= |b|
  {
    assert b == a + (b - a);
  }

  /** Published sub-graphs and merged ones never exceed the batches taken out. */
  lemma GraphRoom(c: Config, s: State)
    requires Inv(c, s)
    ensures |s.merged| + |Window(s.gslots, s.gr, s.gw)| <= |s.taken| <= c.batchNum
  {
    TakenBound(c, s);
    forall g
      ensures Times(s.merged, g) + Times(Window(s.gslots, s.gr, s.gw), g) <= Times(s.taken, g)
    {
      assert GraphConserved(c, s, g);
    }
    SameTimesSameMultiset(s.merged, Window(s.gslots, s.gr, s.gw), s.taken);
  }

  /** When the parsers have exited, every batch taken out is merged, in the ring or in the merger's hands. */
  lemma GraphsAfterParsers(c: Config, s: State)
    requires Inv(c, s) && s.merger.pc != MNotify && s.merger.pc != MMerge
    requires forall i :: 0 <= i < |s.parsers| ==> s.parsers[i].pc == Exited
    ensures multiset(s.merged + Window(s.gslots, s.gr, s.gw)) == multiset(s.taken)
    ensures |s.merged| + |Window(s.gslots, s.gr, s.gw)| == |s.taken|
  {
    forall g
      ensures Times(s.merged, g) + Times(Window(s.gslots, s.gr, s.gw), g) == Times(s.taken, g)
    {
      assert GraphConserved(c, s, g);
      HeldByNobody(s.parsers, g);
    }
    SameTimesSameMultiset(s.merged, Window(s.gslots, s.gr, s.gw), s.taken);
  }

  lemma FormedAtEnd(c: Config, s: State)
    requires Shape(c, s) && AllExited(s)
    ensures Formed(c, s) == s.taken + Window(s.bslots, s.br, s.bw)
  {
    assert InFlight(s) == -1;
  }

  /** The batch side of a finished pipeline. */
  lemma AllTaken(c: Config, s: State)
    requires Inv(c, s) && AllExited(s) && c.Announced()
    ensures |s.taken| == c.batchNum && s.taken == Chunks(c.lines, c.batchSize)
    ensures |s.taken| < MULTI_RANGE
  {
    var all, window := Chunks(c.lines, c.batchSize), Window(s.bslots, s.br, s.bw);
    assert |s.taken| == c.batchNum by {
      TakenBound(c, s);
      assert Local(c, s, 0);
    }
    assert all == s.taken + window by {
      FormedAtEnd(c, s);
      assert [] + c.lines[s.reader.next..] == [];
    }
    assert |all| - |s.taken| < MULTI_RANGE;
    BatchNumCountsChunks(c.lines, c.batchSize);
  }

  /** If all threads have exited, the log had fewer than 2^32 batches, exactly those batches were
      taken out, in order, and each of their sub-graphs was merged exactly once. */
  lemma CompleteRun(c: Config, s: State)
    requires Inv(c, s) && AllExited(s) && c.Announced()
    ensures |Chunks(c.lines, c.batchSize)| < MULTI_RANGE
    ensures s.taken == Chunks(c.lines, c.batchSize) && Flatten(s.taken) == c.lines
    ensures |s.merged| == c.batchNum == |Chunks(c.lines, c.batchSize)|
    ensures multiset(s.merged) == multiset(Chunks(c.lines, c.batchSize))
  {
    AllTaken(c, s);
    GraphsAfterParsers(c, s);
    assert s.merged + [] == s.merged;
    ChunksFlatten(c.lines, c.batchSize);
  }

  // ---- Deadlock freedom -------------------------------------------------------------------

  /** A parser waiting for a batch can only be waiting for a reader that is still running. */
  lemma ParkedParserHasReader(c: Config, s: State, i: nat)
    requires Inv(c, s) && c.Announced() && |Chunks(c.lines, c.batchSize)| < MULTI_RANGE
    requires i < |s.parsers| && s.parsers[i].pc == BParked && s.bmtx.Free?
    ensures Enabled(c, s, ReaderActs)
  {
    assert Local(c, s, i);
    assert Window(s.bslots, s.br, s.bw) == [];
    assert s.cmtx == ByParser(i);
    if s.reader.pc == RDone {
      BatchNumCountsChunks(c.lines, c.batchSize);
    }
  }

  /** A parser waiting for room can only be waiting for a merger that is still running. */
  lemma ParkedParserHasMerger(c: Config, s: State, i: nat)
    requires Inv(c, s) && i < |s.parsers| && s.parsers[i].pc == GParked && s.gmtx.Free?
    ensures Enabled(c, s, MergerActs)
  {
    assert Local(c, s, i);
    GraphRoom(c, s);
  }

  /** When the parsers are gone, the reader and the merger can still finish. */
  lemma NoParsersLeft(c: Config, s: State)
    requires Inv(c, s) && c.Announced() && |Chunks(c.lines, c.batchSize)| < MULTI_RANGE
    requires s.bmtx.Free? && s.gmtx.Free? && s.cmtx.Free?
    requires forall i :: 0 <= i < |s.parsers| ==> s.parsers[i].pc == Exited
    ensures AllExited(s) || Enabled(c, s, ReaderActs) || Enabled(c, s, MergerActs)
  {
    assert Local(c, s, 0);
    BatchNumCountsChunks(c.lines, c.batchSize);
    if s.merger.pc == MParked {
      GraphsAfterParsers(c, s);
    }
    if s.reader.pc == PParked {
      ParkedReaderLeftOver(c, s);
    }
  }

  /** A reader parked for good would have formed more batches than the log has. */
  lemma ParkedReaderLeftOver(c: Config, s: State)
    requires Inv(c, s) && s.reader.pc == PParked && s.bmtx.Free?
    ensures |s.taken| < |Chunks(c.lines, c.batchSize)|
  {
    assert AtCapacity(s.br, s.bw, c.batchRepoSize);
    assert |Window(s.bslots, s.br, s.bw)| >= 1;
    assert |Formed(c, s)| >= |s.taken| + |Window(s.bslots, s.br, s.bw)|;
  }

  /** No deadlock and no lost wakeup: as long as the log has fewer than 2^32 batches, every
      reachable state is final or some thread can act without anybody waking up by accident. */
  lemma Progress(c: Config, s: State) returns (a: Actor)
    requires Inv(c, s) && c.Announced() && |Chunks(c.lines, c.batchSize)| < MULTI_RANGE && !AllExited(s)
    ensures Enabled(c, s, a) && !a.Spurious()
  {
    if !s.bmtx.Free? || !s.gmtx.Free? {
      a := LockHolderActs(c, s);
    } else if s.cmtx.ByParser? {
      var i := s.cmtx.i;
      assert Local(c, s, i);
      a := ParserActs(i);
      if s.parsers[i].pc == BParked {
        ParkedParserHasReader(c, s, i);
        a := ReaderActs;
      }
    } else if i :| 0 <= i < |s.parsers| && s.parsers[i].pc != Exited {
      assert Local(c, s, i);
      a := ParserActs(i);
      if s.parsers[i].pc == GParked {
        ParkedParserHasMerger(c, s, i);
        a := MergerActs;
      }
    } else {
      NoParsersLeft(c, s);
      a := if Enabled(c, s, ReaderActs) then ReaderActs else MergerActs;
    }
  }

  /** Whoever holds a buffer lock can go on. */
  lemma LockHolderActs(c: Config, s: State) returns (a: Actor)
    requires Inv(c, s) && (!s.bmtx.Free? || !s.gmtx.Free?)
    ensures Enabled(c, s, a) && !a.Spurious()
  {
    var holder := if s.bmtx.Free? then s.gmtx else s.bmtx;
    match holder
    case ByReader => a := ReaderActs;
    case ByMerger => a := MergerActs;
    case ByParser(i) => assert Local(c, s, i); a := ParserActs(i);
  }

  /** The exact condition: a state where nobody can act means success if and only if the log has
      fewer than 2^32 batches. Beyond that the announced number is too small and the reader is
      left behind. */
  lemma StuckMeansDone(c: Config, s: State)
    requires Inv(c, s) && c.Announced()
    requires forall a: Actor :: !a.Spurious() ==> !Enabled(c, s, a)
    ensures AllExited(s) <==> |Chunks(c.lines, c.batchSize)| < MULTI_RANGE
  {
    if AllExited(s) {
      CompleteRun(c, s);
    } else if |Chunks(c.lines, c.batchSize)| < MULTI_RANGE {
      var a := Progress(c, s);
    }
  }
}
