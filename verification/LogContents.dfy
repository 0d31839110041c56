/** What the lines of a log mean for the graph, said of the graph alone: its nodes by kind, its events
    and its edges, both ways. */
module LogContents {
  import opened Basics
  import opened Records
  import opened Batching
  import opened Observables
  import opened Construction

  // ---- Nodes ------------------------------------------------------------------------------------

  /** Subjects are processes and file objects files, in the two datasets whose names are known;
      network flows are sockets in any. */
  predicate IsProc(dataset: int, r: Record, id: int)
  {
    (dataset == 0 || dataset == 1) && r.Subject? && r.id == id
  }

  predicate IsFile(dataset: int, r: Record, id: int)
  {
    (dataset == 0 || dataset == 1) && r.FileObject? && r.id == id
  }

  predicate IsSocket(r: Record, id: int)
  {
    r.NetFlow? && r.id == id
  }

  predicate SomeProc(dataset: int, lines: seq<Record>, id: int)
  {
    exists i :: 0 <= i < |lines| && IsProc(dataset, lines[i], id)
  }

  predicate SomeFile(dataset: int, lines: seq<Record>, id: int)
  {
    exists i :: 0 <= i < |lines| && IsFile(dataset, lines[i], id)
  }

  predicate SomeSocket(lines: seq<Record>, id: int)
  {
    exists i :: 0 <= i < |lines| && IsSocket(lines[i], id)
  }

  /** The nodes are those that some line describes. */
  ghost predicate NodesOfLines(dataset: int, lines: seq<Record>, o: Obs)
  {
    && (forall id :: id in o.procs <==> SomeProc(dataset, lines, id))
    && (forall id :: id in o.files <==> SomeFile(dataset, lines, id))
    && (forall id :: id in o.sockets <==> SomeSocket(lines, id))
    && o.nodes == o.procs + o.files + o.sockets
  }

  lemma NodesNext(dataset: int, lines: seq<Record>, o: Obs, r: Record)
    requires NodesOfLines(dataset, lines, o)
    ensures NodesOfLines(dataset, lines + [r], Apply(dataset, o, r))
  {
    var more := lines + [r];
    assert more[|lines|] == r;
    forall id
      ensures SomeProc(dataset, more, id) <==> SomeProc(dataset, lines, id) || IsProc(dataset, r, id)
      ensures SomeFile(dataset, more, id) <==> SomeFile(dataset, lines, id) || IsFile(dataset, r, id)
      ensures SomeSocket(more, id) <==> SomeSocket(lines, id) || IsSocket(r, id)
    {
      LinesNext(dataset, lines, r, id);
    }
  }

  lemma LinesNext(dataset: int, lines: seq<Record>, r: Record, id: int)
    ensures SomeProc(dataset, lines + [r], id) <==> SomeProc(dataset, lines, id) || IsProc(dataset, r, id)
    ensures SomeFile(dataset, lines + [r], id) <==> SomeFile(dataset, lines, id) || IsFile(dataset, r, id)
    ensures SomeSocket(lines + [r], id) <==> SomeSocket(lines, id) || IsSocket(r, id)
  {
    var more := lines + [r];
    assert more[|lines|] == r;
    assert forall i | 0 <= i < |lines| :: more[i] == lines[i];
  }

  // ---- What the node tables say -------------------------------------------------------------------

  /** A subject is named by its own name in one dataset and by its command line in the other. */
  predicate SaysProc(dataset: int, r: Record, id: int, p: ProcInfo)
  {
    && IsProc(dataset, r, id) && p.pid == r.pid && p.args == r.path && p.ppid == r.ppid
    && p.exe == if dataset == 0 then r.name else r.cmdLine
  }

  /** A file is named by its path in one dataset and by its file name in the other. */
  predicate SaysFile(dataset: int, r: Record, id: int, f: FileInfo)
  {
    IsFile(dataset, r, id) && f.version == " " && f.name == if dataset == 0 then r.path else r.filename
  }

  predicate SaysSocket(r: Record, id: int, s: SocketInfo)
  {
    IsSocket(r, id) && s.name == r.address
  }

  /** Every entry is that of some line. */
  ghost predicate NamedFrom(dataset: int, lines: seq<Record>, n: Names)
  {
    && (forall id | id in n.procs :: exists r :: r in lines && SaysProc(dataset, r, id, n.procs[id]))
    && (forall id | id in n.files :: exists r :: r in lines && SaysFile(dataset, r, id, n.files[id]))
    && (forall id | id in n.sockets :: exists r :: r in lines && SaysSocket(r, id, n.sockets[id]))
  }

  predicate FirstProc(dataset: int, lines: seq<Record>, i: nat, id: int)
  {
    i < |lines| && IsProc(dataset, lines[i], id) && forall j :: 0 <= j < i ==> !IsProc(dataset, lines[j], id)
  }

  predicate FirstFile(dataset: int, lines: seq<Record>, i: nat, id: int)
  {
    i < |lines| && IsFile(dataset, lines[i], id) && forall j :: 0 <= j < i ==> !IsFile(dataset, lines[j], id)
  }

  predicate FirstSocket(lines: seq<Record>, i: nat, id: int)
  {
    i < |lines| && IsSocket(lines[i], id) && forall j :: 0 <= j < i ==> !IsSocket(lines[j], id)
  }

  /** Every entry is that of the first line with the identifier. */
  ghost predicate NamedFirst(dataset: int, lines: seq<Record>, n: Names)
  {
    && (forall i: nat, id | FirstProc(dataset, lines, i, id) ::
          id in n.procs && SaysProc(dataset, lines[i], id, n.procs[id]))
    && (forall i: nat, id | FirstFile(dataset, lines, i, id) ::
          id in n.files && SaysFile(dataset, lines[i], id, n.files[id]))
    && (forall i: nat, id | FirstSocket(lines, i, id) ::
          id in n.sockets && SaysSocket(lines[i], id, n.sockets[id]))
  }

  /** The tables have the entries of these lines and no others. */
  predicate OnlyNamed(dataset: int, lines: seq<Record>, n: Names)
  {
    && (forall id | id in n.procs :: SomeProc(dataset, lines, id))
    && (forall id | id in n.files :: SomeFile(dataset, lines, id))
    && (forall id | id in n.sockets :: SomeSocket(lines, id))
  }

  lemma FirstsBefore(dataset: int, lines: seq<Record>, r: Record, i: nat, id: int)
    requires i <= |lines|
    ensures i < |lines| ==>
            && (FirstProc(dataset, lines + [r], i, id) <==> FirstProc(dataset, lines, i, id))
            && (FirstFile(dataset, lines + [r], i, id) <==> FirstFile(dataset, lines, i, id))
            && (FirstSocket(lines + [r], i, id) <==> FirstSocket(lines, i, id))
    ensures i == |lines| ==>
            && (FirstProc(dataset, lines + [r], i, id) <==> IsProc(dataset, r, id) && !SomeProc(dataset, lines, id))
            && (FirstFile(dataset, lines + [r], i, id) <==> IsFile(dataset, r, id) && !SomeFile(dataset, lines, id))
            && (FirstSocket(lines + [r], i, id) <==> IsSocket(r, id) && !SomeSocket(lines, id))
  {
    var more := lines + [r];
    assert more[|lines|] == r && forall j | 0 <= j < |lines| :: more[j] == lines[j];
  }

  lemma NamedNext(dataset: int, lines: seq<Record>, n: Names, r: Record)
    requires NamedFirst(dataset, lines, n) && OnlyNamed(dataset, lines, n)
    ensures NamedFirst(dataset, lines + [r], Naming(dataset, n, r))
  {
    var more := lines + [r];
    forall i: nat, id | i < |more|
      ensures i < |lines| ==> more[i] == lines[i]
      ensures FirstProc(dataset, more, i, id) ==> i < |lines| || id !in n.procs
      ensures FirstFile(dataset, more, i, id) ==> i < |lines| || id !in n.files
      ensures FirstSocket(more, i, id) ==> i < |lines| || id !in n.sockets
      ensures i < |lines| && FirstProc(dataset, more, i, id) ==> FirstProc(dataset, lines, i, id)
      ensures i < |lines| && FirstFile(dataset, more, i, id) ==> FirstFile(dataset, lines, i, id)
      ensures i < |lines| && FirstSocket(more, i, id) ==> FirstSocket(lines, i, id)
    {
      FirstsBefore(dataset, lines, r, i, id);
    }
  }

  lemma OnlyNamedNext(dataset: int, lines: seq<Record>, n: Names, r: Record)
    requires OnlyNamed(dataset, lines, n)
    ensures OnlyNamed(dataset, lines + [r], Naming(dataset, n, r))
  {
    forall id
      ensures SomeProc(dataset, lines + [r], id) <==> SomeProc(dataset, lines, id) || IsProc(dataset, r, id)
      ensures SomeFile(dataset, lines + [r], id) <==> SomeFile(dataset, lines, id) || IsFile(dataset, r, id)
      ensures SomeSocket(lines + [r], id) <==> SomeSocket(lines, id) || IsSocket(r, id)
    {
      LinesNext(dataset, lines, r, id);
    }
  }

  /** In one pass the first line with an identifier names the node. */
  lemma {:induction false} NamesOfLog(dataset: int, lines: seq<Record>)
    ensures NamedFirst(dataset, lines, NamingAll(dataset, NO_NAMES, lines))
    ensures OnlyNamed(dataset, lines, NamingAll(dataset, NO_NAMES, lines))
    decreases |lines|
  {
    if lines != [] {
      var n := |lines| - 1;
      var was := NamingAll(dataset, NO_NAMES, lines[..n]);
      NamesOfLog(dataset, lines[..n]);
      NamedNext(dataset, lines[..n], was, lines[n]);
      OnlyNamedNext(dataset, lines[..n], was, lines[n]);
      assert lines == lines[..n] + [lines[n]];
    }
  }

  lemma {:induction false} NamingFrom(dataset: int, lines: seq<Record>, rs: seq<Record>)
    requires forall r | r in rs :: r in lines
    ensures NamedFrom(dataset, lines, NamingAll(dataset, NO_NAMES, rs))
    decreases |rs|
  {
    if rs != [] {
      NamingFrom(dataset, lines, rs[..|rs| - 1]);
      assert rs[|rs| - 1] in lines;
      NamingOne(dataset, lines, NamingAll(dataset, NO_NAMES, rs[..|rs| - 1]), rs[|rs| - 1]);
    }
  }

  lemma NamingOne(dataset: int, lines: seq<Record>, n: Names, r: Record)
    requires NamedFrom(dataset, lines, n) && r in lines
    ensures NamedFrom(dataset, lines, Naming(dataset, n, r))
  {
    var m := Naming(dataset, n, r);
    forall id | id in m.procs && (id !in n.procs || m.procs[id] != n.procs[id])
      ensures SaysProc(dataset, r, id, m.procs[id])
    {
    }
    forall id | id in m.files && (id !in n.files || m.files[id] != n.files[id])
      ensures SaysFile(dataset, r, id, m.files[id])
    {
    }
    forall id | id in m.sockets && (id !in n.sockets || m.sockets[id] != n.sockets[id])
      ensures SaysSocket(r, id, m.sockets[id])
    {
    }
  }

  lemma MergedFrom(dataset: int, lines: seq<Record>, a: Names, b: Names)
    requires NamedFrom(dataset, lines, a) && NamedFrom(dataset, lines, b)
    ensures NamedFrom(dataset, lines, MergeNames(a, b))
  {
  }

  lemma {:induction false} AllMergedFrom(dataset: int, lines: seq<Record>, batches: seq<seq<Record>>)
    requires forall b, r | b in batches && r in b :: r in lines
    ensures NamedFrom(dataset, lines, MergeAllNames(dataset, batches))
    decreases |batches|
  {
    if batches != [] {
      var n := |batches| - 1;
      assert batches[n] in batches && forall b | b in batches[..n] :: b in batches;
      AllMergedFrom(dataset, lines, batches[..n]);
      NamingFrom(dataset, lines, batches[n]);
      MergedFrom(dataset, lines, MergeAllNames(dataset, batches[..n]), NamingAll(dataset, NO_NAMES, batches[n]));
    }
  }

  lemma {:induction false} ChunkLines(lines: seq<Record>, size: nat, b: seq<Record>, r: Record)
    requires size >= 1 && b in Chunks(lines, size) && r in b
    ensures r in lines
    decreases |lines|
  {
    if |lines| > size && b != lines[..size] {
      ChunkLines(lines[size..], size, b, r);
    }
  }

  /** In any order of arrival the merged tables have the entries of lines of the log. */
  lemma NamesOfArrivals(dataset: int, lines: seq<Record>, size: nat, arrivals: seq<seq<Record>>)
    requires size >= 1 && multiset(arrivals) == multiset(Chunks(lines, size))
    ensures NamedFrom(dataset, lines, MergeAllNames(dataset, arrivals))
  {
    forall b, r | b in arrivals && r in b
      ensures r in lines
    {
      assert b in multiset(Chunks(lines, size));
      ChunkLines(lines, size, b, r);
    }
    AllMergedFrom(dataset, lines, arrivals);
  }

  // ---- Events -----------------------------------------------------------------------------------

  /** Among the first `n` lines, the events that count: all but those skipped or unknown. */
  function EventCount(lines: seq<Record>, n: nat): nat
    requires n <= |lines|
  {
    if n == 0 then 0
    else
      var r := lines[n - 1];
      EventCount(lines, n - 1) + if r.Event? && r.kind != EvSkipped && r.kind != EvUnknown then 1 else 0
  }

  // ---- Edges ------------------------------------------------------------------------------------

  predicate Has(es: seq<Edge>, ev: Record, from: int, to: int, relation: EdgeType, noted: Noted)
    requires ev.Event?
  {
    Edge(EdgeInfo(from, to, relation, ev.seqNum, 0, ev.timestamp, ev.uuid), noted) in es
  }

  /** The edges of an event are in the graph: data flows from what is read to the process and from the
      process to what it writes. All are noted for the object and the process, but those of clones. */
  predicate EventInGraph(dataset: int, ev: Record, es: seq<Edge>)
    requires ev.Event?
  {
    var (p, x, y) := (ev.sub, ev.obj, ev.obj2);
    match ev.kind
    case EvClone => Has(es, ev, p, x, Clone, Nowhere)
    case EvFork => Has(es, ev, p, x, Clone, Nowhere)
    case EvExecute =>
      && (dataset == 0 ==> Has(es, ev, p, x, Execve, Lists(x, p)))
      && (dataset == 1 ==> Has(es, ev, x, p, Execve, Lists(x, p)))
    case EvConnect => Has(es, ev, p, x, Connect, Lists(x, p))
    case EvUnlink => Has(es, ev, p, x, Delete, Lists(x, p))
    case EvRead => Has(es, ev, x, p, Read, Lists(x, p))
    case EvWrite => Has(es, ev, p, x, Write, Lists(x, p))
    case EvRecvfrom => Has(es, ev, x, p, Recv, Lists(x, p))
    case EvRecvmsg => Has(es, ev, x, p, Recv, Lists(x, p))
    case EvReadSocket => Has(es, ev, x, p, Recv, Lists(x, p))
    case EvSendto => Has(es, ev, p, x, Send, Lists(x, p))
    case EvSendmsg => Has(es, ev, p, x, Send, Lists(x, p))
    case EvWriteSocket => Has(es, ev, p, x, Send, Lists(x, p))
    case EvLoad => Has(es, ev, x, p, Load, Lists(x, p))
    case EvCreate => Has(es, ev, p, x, Create, Lists(x, p))
    case EvRename => Has(es, ev, x, p, Read, Lists(x, p)) && Has(es, ev, p, y, Write, Lists(y, p))
    case EvUpdate => Has(es, ev, x, p, Delete, Lists(x, p)) && Has(es, ev, p, y, Create, Lists(y, p))
    case EvOpen => true
    case EvClose => true
    case EvSkipped => true
    case EvUnknown => true
  }

  predicate Is(e: Edge, from: int, to: int, relation: EdgeType, noted: Noted)
  {
    e.info.n1 == from && e.info.n2 == to && e.info.relation == relation && e.noted == noted
  }

  /** An edge that such an event accounts for. */
  predicate EdgeOfEvent(dataset: int, ev: Record, e: Edge)
    requires ev.Event?
  {
    var (p, x, y) := (ev.sub, ev.obj, ev.obj2);
    && e.info.seqNum == ev.seqNum && e.info.sess == 0 && e.info.timestamp == ev.timestamp && e.info.uuid == ev.uuid
    && match ev.kind
       case EvClone => Is(e, p, x, Clone, Nowhere)
       case EvFork => Is(e, p, x, Clone, Nowhere)
       case EvExecute =>
         (dataset == 0 && Is(e, p, x, Execve, Lists(x, p))) || (dataset == 1 && Is(e, x, p, Execve, Lists(x, p)))
       case EvConnect => Is(e, p, x, Connect, Lists(x, p))
       case EvUnlink => Is(e, p, x, Delete, Lists(x, p))
       case EvRead => Is(e, x, p, Read, Lists(x, p))
       case EvWrite => Is(e, p, x, Write, Lists(x, p))
       case EvRecvfrom => Is(e, x, p, Recv, Lists(x, p))
       case EvRecvmsg => Is(e, x, p, Recv, Lists(x, p))
       case EvReadSocket => Is(e, x, p, Recv, Lists(x, p))
       case EvSendto => Is(e, p, x, Send, Lists(x, p))
       case EvSendmsg => Is(e, p, x, Send, Lists(x, p))
       case EvWriteSocket => Is(e, p, x, Send, Lists(x, p))
       case EvLoad => Is(e, x, p, Load, Lists(x, p))
       case EvCreate => Is(e, p, x, Create, Lists(x, p))
       case EvRename => Is(e, x, p, Read, Lists(x, p)) || Is(e, p, y, Write, Lists(y, p))
       case EvUpdate => Is(e, x, p, Delete, Lists(x, p)) || Is(e, p, y, Create, Lists(y, p))
       case _ => false
  }

  predicate EdgeOfLine(dataset: int, r: Record, e: Edge)
  {
    r.Event? && EdgeOfEvent(dataset, r, e)
  }

  predicate EdgeOfSome(dataset: int, lines: seq<Record>, e: Edge)
  {
    exists i :: 0 <= i < |lines| && EdgeOfLine(dataset, lines[i], e)
  }

  /** How many edges a line adds: two for a rename or an update, none for other lines than events. */
  function EdgeCount(dataset: int, r: Record): nat
  {
    if !r.Event? then 0
    else
      match r.kind
      case EvExecute => if dataset == 0 || dataset == 1 then 1 else 0
      case EvRename => 2
      case EvUpdate => 2
      case EvOpen => 0
      case EvClose => 0
      case EvSkipped => 0
      case EvUnknown => 0
      case _ => 1
  }

  function EdgeTotal(dataset: int, lines: seq<Record>, n: nat): nat
    requires n <= |lines|
  {
    if n == 0 then 0 else EdgeTotal(dataset, lines, n - 1) + EdgeCount(dataset, lines[n - 1])
  }

  /** Every event has its edges, every edge an event, and there are as many as the events call for. */
  ghost predicate EdgesOfLines(dataset: int, lines: seq<Record>, es: seq<Edge>)
  {
    && (forall i | 0 <= i < |lines| && lines[i].Event? :: EventInGraph(dataset, lines[i], es))
    && (forall e | e in es :: EdgeOfSome(dataset, lines, e))
    && |es| == EdgeTotal(dataset, lines, |lines|)
  }

  lemma EventAdds(dataset: int, ev: Record)
    requires ev.Event?
    ensures EventInGraph(dataset, ev, Forget(EdgesOf(dataset, ev)))
    ensures |EdgesOf(dataset, ev)| == EdgeCount(dataset, ev)
  {
    var es := Forget(EdgesOf(dataset, ev));
    assert |es| > 0 ==> es[0] in es;
    assert |es| > 1 ==> es[1] in es;
  }

  lemma AddedAt(dataset: int, ev: Record, k: nat)
    requires ev.Event? && k < |EdgesOf(dataset, ev)|
    ensures EdgeOfEvent(dataset, ev, Forget(EdgesOf(dataset, ev))[k])
  {
    assert k == 0 || k == 1;
    match ev.kind
    case EvExecute =>
    case EvRename =>
    case EvUpdate =>
    case _ =>
  }

  lemma AddedAreOfEvent(dataset: int, ev: Record)
    requires ev.Event?
    ensures forall e | e in Forget(EdgesOf(dataset, ev)) :: EdgeOfEvent(dataset, ev, e)
  {
    var es := Forget(EdgesOf(dataset, ev));
    forall e | e in es
      ensures EdgeOfEvent(dataset, ev, e)
    {
      var k :| 0 <= k < |es| && es[k] == e;
      AddedAt(dataset, ev, k);
    }
  }

  lemma InGraphGrows(dataset: int, ev: Record, a: seq<Edge>, b: seq<Edge>)
    requires ev.Event? && (EventInGraph(dataset, ev, a) || EventInGraph(dataset, ev, b))
    ensures EventInGraph(dataset, ev, a + b)
  {
    assert forall e | e in a || e in b :: e in a + b;
  }

  lemma OfSomeNext(dataset: int, lines: seq<Record>, r: Record, e: Edge)
    requires EdgeOfSome(dataset, lines, e) || EdgeOfLine(dataset, r, e)
    ensures EdgeOfSome(dataset, lines + [r], e)
  {
    if i :| 0 <= i < |lines| && EdgeOfLine(dataset, lines[i], e) {
      assert (lines + [r])[i] == lines[i];
    } else {
      assert (lines + [r])[|lines|] == r;
    }
  }

  lemma EventEdgesNext(dataset: int, lines: seq<Record>, es: seq<Edge>, ev: Record)
    requires ev.Event? && EdgesOfLines(dataset, lines, es)
    ensures EdgesOfLines(dataset, lines + [ev], es + Forget(EdgesOf(dataset, ev)))
  {
    var more, added := lines + [ev], Forget(EdgesOf(dataset, ev));
    EventAdds(dataset, ev);
    AddedAreOfEvent(dataset, ev);
    forall i | 0 <= i < |more| && more[i].Event?
      ensures EventInGraph(dataset, more[i], es + added)
    {
      assert i < |lines| ==> more[i] == lines[i];
      InGraphGrows(dataset, more[i], es, added);
    }
    forall e | e in es + added
      ensures EdgeOfSome(dataset, more, e)
    {
      OfSomeNext(dataset, lines, ev, e);
    }
    TotalNext(dataset, lines, ev, |lines|);
  }

  lemma OtherEdgesNext(dataset: int, lines: seq<Record>, es: seq<Edge>, r: Record)
    requires !r.Event? && EdgesOfLines(dataset, lines, es)
    ensures EdgesOfLines(dataset, lines + [r], es)
  {
    var more := lines + [r];
    forall i | 0 <= i < |more| && more[i].Event?
      ensures EventInGraph(dataset, more[i], es)
    {
      assert more[i] == lines[i];
    }
    forall e | e in es
      ensures EdgeOfSome(dataset, more, e)
    {
      OfSomeNext(dataset, lines, r, e);
    }
    TotalNext(dataset, lines, r, |lines|);
  }

  lemma {:induction false} TotalNext(dataset: int, lines: seq<Record>, r: Record, n: nat)
    requires n <= |lines|
    ensures EdgeTotal(dataset, lines + [r], n) == EdgeTotal(dataset, lines, n)
    ensures EventCount(lines + [r], n) == EventCount(lines, n)
  {
    if n > 0 {
      TotalNext(dataset, lines, r, n - 1);
    }
  }

  // ---- The identifiers asked for ------------------------------------------------------------------

  /** The hash of the event, but for the two edges of a rename or an update: each has one of its own. */
  function HashFor(ev: Record, relation: EdgeType): int
    requires ev.Event?
  {
    match ev.kind
    case EvRename => if relation == Read then ev.e1Id else ev.e2Id
    case EvUpdate => if relation == Delete then ev.e1Id else ev.e2Id
    case _ => ev.eId
  }

  predicate HashedAs(dataset: int, r: Record, e: Edge, id: int)
  {
    EdgeOfLine(dataset, r, e) && id == HashFor(r, e.info.relation)
  }

  predicate HashedAsSome(dataset: int, lines: seq<Record>, e: Edge, id: int)
  {
    exists i :: 0 <= i < |lines| && HashedAs(dataset, lines[i], e, id)
  }

  lemma LineAsks(dataset: int, r: Record)
    requires r.Event?
    ensures |AskedBy(dataset, r)| == |Forget(EdgesOf(dataset, r))|
    ensures forall k | 0 <= k < |AskedBy(dataset, r)| ::
              HashedAs(dataset, r, Forget(EdgesOf(dataset, r))[k], AskedBy(dataset, r)[k])
  {
    AddedAreOfEvent(dataset, r);
    forall k | 0 <= k < |AskedBy(dataset, r)|
      ensures HashedAs(dataset, r, Forget(EdgesOf(dataset, r))[k], AskedBy(dataset, r)[k])
    {
      assert Forget(EdgesOf(dataset, r))[k] in Forget(EdgesOf(dataset, r));
    }
  }

  /** The edges and the identifiers asked for them go together, one by one: each identifier is the hash
      that an event behind the edge has for it. */
  ghost predicate AskedTogether(dataset: int, lines: seq<Record>, es: seq<Edge>, asked: seq<int>)
  {
    |es| == |asked| && forall k | 0 <= k < |es| :: HashedAsSome(dataset, lines, es[k], asked[k])
  }

  lemma HashedNext(dataset: int, lines: seq<Record>, r: Record, e: Edge, id: int)
    requires HashedAsSome(dataset, lines, e, id) || HashedAs(dataset, r, e, id)
    ensures HashedAsSome(dataset, lines + [r], e, id)
  {
    if i :| 0 <= i < |lines| && HashedAs(dataset, lines[i], e, id) {
      assert (lines + [r])[i] == lines[i];
    } else {
      assert (lines + [r])[|lines|] == r;
    }
  }

  lemma AsksNext(dataset: int, lines: seq<Record>, r: Record, es: seq<Edge>, asked: seq<int>, added: seq<Edge>,
                 ids: seq<int>)
    requires AskedTogether(dataset, lines, es, asked) && |added| == |ids|
    requires forall k | 0 <= k < |added| :: HashedAs(dataset, r, added[k], ids[k])
    ensures AskedTogether(dataset, lines + [r], es + added, asked + ids)
  {
    forall k | 0 <= k < |es + added|
      ensures HashedAsSome(dataset, lines + [r], (es + added)[k], (asked + ids)[k])
    {
      if k < |es| {
        HashedNext(dataset, lines, r, es[k], asked[k]);
      } else {
        HashedNext(dataset, lines, r, added[k - |es|], ids[k - |es|]);
      }
    }
  }

  lemma {:induction false} LogAsks(dataset: int, lines: seq<Record>)
    ensures AskedTogether(dataset, lines, ApplyAll(dataset, EMPTY_OBS, lines).edges, AskedByAll(dataset, lines))
    decreases |lines|
  {
    if lines != [] {
      var n := |lines| - 1;
      var r, es, asked := lines[n], ApplyAll(dataset, EMPTY_OBS, lines[..n]).edges, AskedByAll(dataset, lines[..n]);
      LogAsks(dataset, lines[..n]);
      assert lines == lines[..n] + [r];
      if r.Event? {
        LineAsks(dataset, r);
        AsksNext(dataset, lines[..n], r, es, asked, Forget(EdgesOf(dataset, r)), AskedBy(dataset, r));
      } else {
        AsksNext(dataset, lines[..n], r, es, asked, [], []);
        assert es + [] == es && asked + [] == asked;
      }
    }
  }

  // ---- The whole log ----------------------------------------------------------------------------

  /** What a log makes of an empty graph. */
  ghost predicate LogInGraph(dataset: int, lines: seq<Record>, o: Obs)
  {
    && NodesOfLines(dataset, lines, o) && EdgesOfLines(dataset, lines, o.edges)
    && o.events == EventCount(lines, |lines|)
  }

  lemma EdgesNext(dataset: int, lines: seq<Record>, o: Obs, r: Record)
    requires EdgesOfLines(dataset, lines, o.edges)
    ensures EdgesOfLines(dataset, lines + [r], Apply(dataset, o, r).edges)
  {
    if r.Event? {
      EventEdgesNext(dataset, lines, o.edges, r);
    } else {
      OtherEdgesNext(dataset, lines, o.edges, r);
      assert Apply(dataset, o, r).edges == o.edges;
    }
  }

  lemma EventsNext(dataset: int, lines: seq<Record>, o: Obs, r: Record)
    requires o.events == EventCount(lines, |lines|)
    ensures Apply(dataset, o, r).events == EventCount(lines + [r], |lines + [r]|)
  {
    TotalNext(dataset, lines, r, |lines|);
  }

  lemma LogInGraphNext(dataset: int, lines: seq<Record>, o: Obs, r: Record)
    requires LogInGraph(dataset, lines, o)
    ensures LogInGraph(dataset, lines + [r], Apply(dataset, o, r))
  {
    NodesNext(dataset, lines, o, r);
    EdgesNext(dataset, lines, o, r);
    EventsNext(dataset, lines, o, r);
  }

  lemma NothingInGraph(dataset: int)
    ensures LogInGraph(dataset, [], EMPTY_OBS)
  {
  }

  /** The graph of a log has the nodes its lines describe, counts its events, and has the edges of its
      events and no others. */
  lemma {:induction false} GraphOfLog(dataset: int, lines: seq<Record>)
    ensures LogInGraph(dataset, lines, ApplyAll(dataset, EMPTY_OBS, lines))
    decreases |lines|
  {
    if lines == [] {
      NothingInGraph(dataset);
    } else {
      var n := |lines| - 1;
      GraphOfLog(dataset, lines[..n]);
      LogInGraphNext(dataset, lines[..n], ApplyAll(dataset, EMPTY_OBS, lines[..n]), lines[n]);
      assert lines == lines[..n] + [lines[n]];
    }
  }

  lemma SameMembers<T>(a: seq<T>, b: seq<T>)
    requires multiset(a) == multiset(b)
    ensures |a| == |b| && forall e :: e in a <==> e in b
  {
    assert |a| == |multiset(a)| == |multiset(b)| == |b|;
    forall e
      ensures e in a <==> e in b
    {
      assert e in multiset(a) <==> e in multiset(b);
    }
  }

  /** The same of a graph whose edges came in another order. */
  lemma SameContents(dataset: int, lines: seq<Record>, o: Obs)
    requires Same(o, ApplyAll(dataset, EMPTY_OBS, lines))
    ensures LogInGraph(dataset, lines, o)
  {
    GraphOfLog(dataset, lines);
    SameMembers(o.edges, ApplyAll(dataset, EMPTY_OBS, lines).edges);
  }
}
