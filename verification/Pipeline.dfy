/** The construction pipeline as a step machine. One reader, any number of parsers and one merger
    share two rings, two counters, three mutexes and four condition variables. Every step is one
    thread executing the code between two points where another thread can observe or block it;
    `Do` is deterministic once the scheduler has picked the acting thread. */
module Pipeline {
  import opened Batching
  import opened Records
  import opened Ring

  type Batch = seq<Record>
  /** A sub-graph is named by the batch it was built from. */
  type SubGraph = Batch

  datatype Config = Config(lines: seq<Record>, batchSize: nat, batchNum: nat, batchRepoSize: nat,
                           graphRepoSize: nat, workers: nat)
  {
    predicate Valid()
    {
      && 1 <= batchSize && 2 <= batchRepoSize < MULTI_RANGE && 2 <= graphRepoSize < MULTI_RANGE
      && 1 <= workers
    }

    /** InitItemRepository announces the number of batches before the threads start. */
    predicate Announced()
      requires Valid()
    {
      batchNum == BatchNum(|lines|, batchSize)
    }
  }

  datatype Owner = Free | ByReader | ByParser(i: nat) | ByMerger

  /** `P…` program points are inside ProduceBatch. */
  datatype ReaderPc = Reading | PWant | PCheck | PParked | PStore | PAdvance | PNotify | RDone

  /** `B…` points are inside ConsumeBatch, `G…` points inside ProduceGraph. */
  datatype ParserPc =
    | CounterWant | CounterCheck
    | BWant | BCheck | BParked | BAdvance | BNotify
    | SwapOut | CountUp | Build
    | GWant | GCheck | GParked | GStore | GAdvance | GNotify
    | Exited

  /** Points from MWant to MNotify are inside ConsumeGraph. */
  datatype MergerPc = MTest | MWant | MCheck | MParked | MAdvance | MNotify | MMerge | MCount | MExited

  /** `tail` marks the last ProduceBatch call, made after the end of the file. */
  datatype Reader = Reader(pc: ReaderPc, next: nat, batch: Batch, tail: bool)
  /** `slot` is the ring element ConsumeBatch returned a reference to. */
  datatype Parser = Parser(pc: ParserPc, slot: nat, batch: Batch, graph: SubGraph)
  datatype Merger = Merger(pc: MergerPc, graph: SubGraph)

  /** `taken` and `merged` record the batches taken out of the ring and the sub-graphs merged,
      in order; no thread reads them. */
  datatype State = State(
    reader: Reader, parsers: seq<Parser>, merger: Merger,
    bslots: seq<Batch>, br: nat, bw: nat, bmtx: Owner,
    counter: nat, cmtx: Owner,
    gslots: seq<SubGraph>, gr: nat, gw: nat, gmtx: Owner,
    gcounter: nat,
    taken: seq<Batch>, merged: seq<SubGraph>)

  /** The scheduler's choice: a thread takes a step, or a parked thread wakes up spuriously. */
  datatype Actor =
    | ReaderActs | ParserActs(i: nat) | MergerActs
    | ReaderWakes | ParserWakes(i: nat) | MergerWakes
  {
    predicate Spurious() { ReaderWakes? || ParserWakes? || MergerWakes? }
  }

  ghost predicate Init(c: Config, s: State)
    requires c.Valid()
  {
    && s.reader == Reader(Reading, 0, [], false)
    && |s.parsers| == c.workers
    && (forall i :: 0 <= i < c.workers ==>
          s.parsers[i].pc == CounterWant && s.parsers[i].batch == [] && s.parsers[i].slot == 0)
    && s.merger.pc == MTest
    && |s.bslots| == c.batchRepoSize && (forall j :: 0 <= j < c.batchRepoSize ==> s.bslots[j] == [])
    && |s.gslots| == c.graphRepoSize // the pointers themselves are uninitialised
    && s.br == s.bw == s.gr == s.gw == s.counter == s.gcounter == 0
    && s.bmtx == s.cmtx == s.gmtx == Free
    && s.taken == [] && s.merged == []
  }

  /** Array bounds: what every step needs to be defined. */
  predicate Shape(c: Config, s: State)
  {
    && c.Valid()
    && |s.parsers| == c.workers
    && |s.bslots| == c.batchRepoSize && s.br < c.batchRepoSize && s.bw < c.batchRepoSize
    && |s.gslots| == c.graphRepoSize && s.gr < c.graphRepoSize && s.gw < c.graphRepoSize
    && s.reader.next <= |c.lines|
    && forall i :: 0 <= i < |s.parsers| ==> s.parsers[i].slot < c.batchRepoSize
  }

  /** A thread is blocked exactly at a lock somebody holds, on a condition variable, or at the end. */
  predicate Enabled(c: Config, s: State, a: Actor)
    requires Shape(c, s)
  {
    match a
    case ReaderActs =>
      (s.reader.pc == PWant ==> s.bmtx.Free?) && s.reader.pc != PParked && s.reader.pc != RDone
    case ParserActs(i) =>
      && i < |s.parsers|
      && (match s.parsers[i].pc
          case CounterWant => s.cmtx.Free?
          case BWant => s.bmtx.Free?
          case GWant => s.gmtx.Free?
          case BParked => false
          case GParked => false
          case Exited => false
          case _ => true)
    case MergerActs =>
      (s.merger.pc == MWant ==> s.gmtx.Free?) && s.merger.pc != MParked && s.merger.pc != MExited
    case ReaderWakes => s.reader.pc == PParked
    case ParserWakes(i) => i < |s.parsers| && (s.parsers[i].pc == BParked || s.parsers[i].pc == GParked)
    case MergerWakes => s.merger.pc == MParked
  }

  /** notify_all on batch_repo_not_empty and on graph_repo_not_full. */
  function WakeParser(p: Parser, from: ParserPc, to: ParserPc): Parser
  {
    if p.pc == from then p.(pc := to) else p
  }

  function WakeParsers(ps: seq<Parser>, from: ParserPc, to: ParserPc): (qs: seq<Parser>)
    ensures |qs| == |ps|
    ensures forall i :: 0 <= i < |ps| ==> qs[i] == WakeParser(ps[i], from, to)
  {
    seq(|ps|, i requires 0 <= i < |ps| => WakeParser(ps[i], from, to))
  }

  /** notify_all on batch_repo_not_full: only the reader waits there. */
  function WakeReader(r: Reader): Reader
  {
    if r.pc == PParked then r.(pc := PWant) else r
  }

  /** notify_all on graph_repo_not_empty: only the merger waits there. */
  function WakeMerger(m: Merger): Merger
  {
    if m.pc == MParked then m.(pc := MWant) else m
  }

  // ---- The reader thread ----------------------------------------------------------------

  predicate InProduceBatch(pc: ReaderPc)
  {
    pc == PWant || pc == PCheck || pc == PStore || pc == PAdvance || pc == PNotify
  }

  function ProduceBatchTask(c: Config, s: State): (t: State)
    requires Shape(c, s) && s.reader.pc == Reading
    ensures Shape(c, t)
  {
    var r := s.reader;
    if r.next < |c.lines| then
      var batch := r.batch + [c.lines[r.next]];
      s.(reader := Reader(if |batch| == c.batchSize then PWant else Reading, r.next + 1, batch, false))
    else if |r.batch| > 0 then
      s.(reader := r.(pc := PWant, tail := true))
    else
      s.(reader := r.(pc := RDone))
  }

  function ProduceBatch(c: Config, s: State): (t: State)
    requires Shape(c, s) && InProduceBatch(s.reader.pc)
    ensures Shape(c, t)
  {
    var r := s.reader;
    match r.pc
    case PWant => s.(reader := r.(pc := PCheck), bmtx := ByReader)
    case PCheck =>
      if Full(s.br, s.bw, c.batchRepoSize) then
        s.(reader := r.(pc := PParked), bmtx := Free)
      else
        s.(reader := r.(pc := PStore))
    case PStore =>
      s.(bslots := s.bslots[s.bw := r.batch], reader := r.(pc := PAdvance, batch := s.bslots[s.bw]))
    case PAdvance =>
      s.(bw := Bump(s.bw, c.batchRepoSize), reader := r.(pc := PNotify))
    case PNotify =>
      s.(parsers := WakeParsers(s.parsers, BParked, BWant), bmtx := Free,
         reader := r.(pc := if r.tail then RDone else Reading))
  }

  // ---- A parser thread ------------------------------------------------------------------

  predicate InConsumerTask(pc: ParserPc)
  {
    pc == CounterWant || pc == CounterCheck || pc == SwapOut || pc == CountUp || pc == Build
  }

  predicate InConsumeBatch(pc: ParserPc) { pc == BWant || pc == BCheck || pc == BAdvance || pc == BNotify }

  predicate InProduceGraph(pc: ParserPc)
  {
    pc == GWant || pc == GCheck || pc == GStore || pc == GAdvance || pc == GNotify
  }

  function ConsumerTask(c: Config, s: State, i: nat): (t: State)
    requires Shape(c, s) && i < |s.parsers| && InConsumerTask(s.parsers[i].pc)
    ensures Shape(c, t)
  {
    var p := s.parsers[i];
    match p.pc
    case CounterWant => s.(parsers := s.parsers[i := p.(pc := CounterCheck)], cmtx := ByParser(i))
    case CounterCheck =>
      if s.counter < c.batchNum then
        s.(parsers := s.parsers[i := p.(pc := BWant)])
      else
        s.(parsers := s.parsers[i := p.(pc := Exited)], cmtx := Free)
    case SwapOut =>
      s.(bslots := s.bslots[p.slot := p.batch],
         parsers := s.parsers[i := p.(pc := CountUp, batch := s.bslots[p.slot])],
         taken := s.taken + [s.bslots[p.slot]])
    case CountUp =>
      s.(parsers := s.parsers[i := p.(pc := Build)], counter := s.counter + 1, cmtx := Free)
    case Build => s.(parsers := s.parsers[i := p.(pc := GWant, graph := p.batch)])
  }

  function ConsumeBatch(c: Config, s: State, i: nat): (t: State)
    requires Shape(c, s) && i < |s.parsers| && InConsumeBatch(s.parsers[i].pc)
    ensures Shape(c, t)
  {
    var p := s.parsers[i];
    match p.pc
    case BWant => s.(parsers := s.parsers[i := p.(pc := BCheck)], bmtx := ByParser(i))
    case BCheck =>
      if Empty(s.br, s.bw) then
        s.(parsers := s.parsers[i := p.(pc := BParked)], bmtx := Free)
      else
        s.(parsers := s.parsers[i := p.(pc := BAdvance)])
    case BAdvance =>
      s.(parsers := s.parsers[i := p.(pc := BNotify, slot := s.br)], br := Bump(s.br, c.batchRepoSize))
    case BNotify =>
      s.(reader := WakeReader(s.reader), bmtx := Free, parsers := s.parsers[i := p.(pc := SwapOut)])
  }

  function ProduceGraph(c: Config, s: State, i: nat): (t: State)
    requires Shape(c, s) && i < |s.parsers| && InProduceGraph(s.parsers[i].pc)
    ensures Shape(c, t)
  {
    var p := s.parsers[i];
    match p.pc
    case GWant => s.(parsers := s.parsers[i := p.(pc := GCheck)], gmtx := ByParser(i))
    case GCheck =>
      if Full(s.gr, s.gw, c.graphRepoSize) then
        s.(parsers := s.parsers[i := p.(pc := GParked)], gmtx := Free)
      else
        s.(parsers := s.parsers[i := p.(pc := GStore)])
    case GStore =>
      s.(gslots := s.gslots[s.gw := p.graph], parsers := s.parsers[i := p.(pc := GAdvance)])
    case GAdvance =>
      s.(gw := Bump(s.gw, c.graphRepoSize), parsers := s.parsers[i := p.(pc := GNotify)])
    case GNotify =>
      s.(merger := WakeMerger(s.merger), gmtx := Free,
         parsers := s.parsers[i := p.(pc := CounterWant, batch := [])])
  }

  // ---- The merger thread ----------------------------------------------------------------

  predicate InConsumeGraph(pc: MergerPc) { pc == MWant || pc == MCheck || pc == MAdvance || pc == MNotify }

  function ConsumeGraphTask(c: Config, s: State): (t: State)
    requires Shape(c, s) && (s.merger.pc == MTest || s.merger.pc == MMerge || s.merger.pc == MCount)
    ensures Shape(c, t)
  {
    var m := s.merger;
    match m.pc
    case MTest => s.(merger := m.(pc := if s.gcounter < c.batchNum then MWant else MExited))
    case MMerge => s.(merged := s.merged + [m.graph], merger := m.(pc := MCount))
    case MCount => s.(gcounter := s.gcounter + 1, merger := m.(pc := MTest))
  }

  function ConsumeGraph(c: Config, s: State): (t: State)
    requires Shape(c, s) && InConsumeGraph(s.merger.pc)
    ensures Shape(c, t)
  {
    var m := s.merger;
    match m.pc
    case MWant => s.(merger := m.(pc := MCheck), gmtx := ByMerger)
    case MCheck =>
      if Empty(s.gr, s.gw) then
        s.(merger := m.(pc := MParked), gmtx := Free)
      else
        s.(merger := m.(pc := MAdvance))
    case MAdvance =>
      s.(merger := Merger(MNotify, s.gslots[s.gr]), gr := Bump(s.gr, c.graphRepoSize))
    case MNotify =>
      s.(parsers := WakeParsers(s.parsers, GParked, GWant), gmtx := Free, merger := m.(pc := MMerge))
  }

  function Do(c: Config, s: State, a: Actor): (t: State)
    requires Shape(c, s) && Enabled(c, s, a)
    ensures Shape(c, t)
  {
    match a
    case ReaderActs => if s.reader.pc == Reading then ProduceBatchTask(c, s) else ProduceBatch(c, s)
    case ParserActs(i) =>
      if InConsumerTask(s.parsers[i].pc) then ConsumerTask(c, s, i)
      else if InConsumeBatch(s.parsers[i].pc) then ConsumeBatch(c, s, i)
      else ProduceGraph(c, s, i)
    case MergerActs => if InConsumeGraph(s.merger.pc) then ConsumeGraph(c, s) else ConsumeGraphTask(c, s)
    case ReaderWakes => s.(reader := WakeReader(s.reader))
    case ParserWakes(i) =>
      var p := s.parsers[i];
      s.(parsers := s.parsers[i := p.(pc := if p.pc == BParked then BWant else GWant)])
    case MergerWakes => s.(merger := WakeMerger(s.merger))
  }

  /** A run: the states visited and the scheduling choices between them. */
  ghost predicate IsRun(c: Config, states: seq<State>, actors: seq<Actor>)
  {
    && c.Valid() && c.Announced() && |states| == |actors| + 1
    && Init(c, states[0])
    && forall k :: 0 <= k < |actors| ==>
         Shape(c, states[k]) && Enabled(c, states[k], actors[k]) &&
         states[k + 1] == Do(c, states[k], actors[k])
  }

  predicate AllExited(s: State)
  {
    s.reader.pc == RDone && s.merger.pc == MExited && forall i :: 0 <= i < |s.parsers| ==> s.parsers[i].pc == Exited
  }
}
