/** What can be observed of a knowledge graph once edge identifiers are forgotten, and how audit
    records and merges change it. This is the specification the graph class is proved against. */
module Observables {
  import opened Basics
  import opened Records
  import opened Batching

  /** An edge without its identifier. */
  datatype EdgeInfo = EdgeInfo(n1: int, n2: int, relation: EdgeType, seqNum: nat, sess: int,
                               timestamp: string, uuid: string)

  /** The interaction lists an edge is noted in, if any. */
  datatype Noted = Nowhere | FileOnly(file: int) | Lists(file: int, proc: int)

  datatype Edge = Edge(info: EdgeInfo, noted: Noted)

  /** The keys of the node tables, the event count, and the edges in the order they were inserted. */
  datatype Obs = Obs(procs: set<int>, files: set<int>, sockets: set<int>, nodes: set<int>, events: nat,
                     edges: seq<Edge>)

  const EMPTY_OBS := Obs({}, {}, {}, {}, 0, [])

  /** One call of InsertEdge, with the identifier asked for. */
  datatype Insertion = Insertion(eId: int, edge: Edge)

  function Link(ev: Record, eId: int, from: int, to: int, rel: EdgeType, file: int): Insertion
    requires ev.Event?
  {
    Insertion(eId, Edge(EdgeInfo(from, to, rel, ev.seqNum, 0, ev.timestamp, ev.uuid), Lists(file, ev.sub)))
  }

  function Bare(i: Insertion): Insertion
  {
    i.(edge := i.edge.(noted := Nowhere))
  }

  /** The edges an event adds. Reads and receives point from the object to the process. */
  function EdgesOf(dataset: int, ev: Record): seq<Insertion>
    requires ev.Event?
  {
    match ev.kind
    case EvClone => [Bare(Link(ev, ev.eId, ev.sub, ev.obj, Clone, ev.obj))]
    case EvFork => [Bare(Link(ev, ev.eId, ev.sub, ev.obj, Clone, ev.obj))]
    case EvExecute =>
      if dataset == 0 then [Link(ev, ev.eId, ev.sub, ev.obj, Execve, ev.obj)]
      else if dataset == 1 then [Link(ev, ev.eId, ev.obj, ev.sub, Execve, ev.obj)]
      else []
    case EvConnect => [Link(ev, ev.eId, ev.sub, ev.obj, Connect, ev.obj)]
    case EvUnlink => [Link(ev, ev.eId, ev.sub, ev.obj, Delete, ev.obj)]
    case EvRead => [Link(ev, ev.eId, ev.obj, ev.sub, Read, ev.obj)]
    case EvWrite => [Link(ev, ev.eId, ev.sub, ev.obj, Write, ev.obj)]
    case EvRecvfrom => [Link(ev, ev.eId, ev.obj, ev.sub, Recv, ev.obj)]
    case EvRecvmsg => [Link(ev, ev.eId, ev.obj, ev.sub, Recv, ev.obj)]
    case EvReadSocket => [Link(ev, ev.eId, ev.obj, ev.sub, Recv, ev.obj)]
    case EvSendto => [Link(ev, ev.eId, ev.sub, ev.obj, Send, ev.obj)]
    case EvSendmsg => [Link(ev, ev.eId, ev.sub, ev.obj, Send, ev.obj)]
    case EvWriteSocket => [Link(ev, ev.eId, ev.sub, ev.obj, Send, ev.obj)]
    case EvLoad => [Link(ev, ev.eId, ev.obj, ev.sub, Load, ev.obj)]
    case EvCreate => [Link(ev, ev.eId, ev.sub, ev.obj, Create, ev.obj)]
    case EvRename =>
      [Link(ev, ev.e1Id, ev.obj, ev.sub, Read, ev.obj), Link(ev, ev.e2Id, ev.sub, ev.obj2, Write, ev.obj2)]
    case EvUpdate =>
      [Link(ev, ev.e1Id, ev.obj, ev.sub, Delete, ev.obj), Link(ev, ev.e2Id, ev.sub, ev.obj2, Create, ev.obj2)]
    case EvOpen => []
    case EvClose => []
    case EvSkipped => []
    case EvUnknown => []
  }

  /** Skipped and unknown events are not counted as analysed. */
  predicate Analyzed(ev: Record)
    requires ev.Event?
  {
    ev.kind != EvSkipped && ev.kind != EvUnknown
  }

  function Forget(es: seq<Insertion>): seq<Edge>
  {
    seq(|es|, k requires 0 <= k < |es| => es[k].edge)
  }

  /** The identifiers asked for: hashes of the event, or of its objects. */
  function Asked(es: seq<Insertion>): seq<int>
  {
    seq(|es|, k requires 0 <= k < |es| => es[k].eId)
  }

  function AskedBy(dataset: int, r: Record): seq<int>
  {
    if r.Event? then Asked(EdgesOf(dataset, r)) else []
  }

  function AskedByAll(dataset: int, rs: seq<Record>): seq<int>
    decreases |rs|
  {
    if rs == [] then [] else AskedByAll(dataset, rs[..|rs| - 1]) + AskedBy(dataset, rs[|rs| - 1])
  }

  function AddEdges(o: Obs, es: seq<Insertion>): Obs
  {
    o.(edges := o.edges + Forget(es))
  }

  /** One line of the log. For other datasets processes and files are not loaded. */
  function Apply(dataset: int, o: Obs, r: Record): Obs
  {
    match r
    case Event(_, _, _, _, _, _, _, _, _, _) =>
      AddEdges(o, EdgesOf(dataset, r)).(events := o.events + (if Analyzed(r) then 1 else 0))
    case Subject(id, _, _, _, _, _, _) =>
      if dataset == 0 || dataset == 1 then o.(procs := o.procs + {id}, nodes := o.nodes + {id}) else o
    case FileObject(id, _, _, _) =>
      if dataset == 0 || dataset == 1 then o.(files := o.files + {id}, nodes := o.nodes + {id}) else o
    case NetFlow(id, _, _) => o.(sockets := o.sockets + {id}, nodes := o.nodes + {id})
    case OtherRecord => o
  }

  function ApplyAll(dataset: int, o: Obs, rs: seq<Record>): Obs
    decreases |rs|
  {
    if rs == [] then o else Apply(dataset, ApplyAll(dataset, o, rs[..|rs| - 1]), rs[|rs| - 1])
  }

  /** What the node tables say of the nodes. */
  datatype Names = Names(procs: map<int, ProcInfo>, files: map<int, FileInfo>, sockets: map<int, SocketInfo>)

  const NO_NAMES := Names(map[], map[], map[])

  /** The first entry stays. */
  function Entered<V>(m: map<int, V>, id: int, x: V): map<int, V>
  {
    if id in m then m else m[id := x]
  }

  /** Which string names a node depends on the dataset. */
  function Naming(dataset: int, n: Names, r: Record): Names
  {
    match r
    case Subject(id, pid, name, cmdLine, path, ppid, _) =>
      if dataset == 0 then n.(procs := Entered(n.procs, id, ProcInfo(pid, name, path, ppid)))
      else if dataset == 1 then n.(procs := Entered(n.procs, id, ProcInfo(pid, cmdLine, path, ppid)))
      else n
    case FileObject(id, path, filename, _) =>
      if dataset == 0 then n.(files := Entered(n.files, id, FileInfo(path, " ")))
      else if dataset == 1 then n.(files := Entered(n.files, id, FileInfo(filename, " ")))
      else n
    case NetFlow(id, address, _) => n.(sockets := Entered(n.sockets, id, SocketInfo(address)))
    case _ => n
  }

  function NamingAll(dataset: int, n: Names, rs: seq<Record>): Names
    decreases |rs|
  {
    if rs == [] then n else Naming(dataset, NamingAll(dataset, n, rs[..|rs| - 1]), rs[|rs| - 1])
  }

  /** Of two graphs the second one's entries replace the first one's. */
  function MergeNames(a: Names, b: Names): Names
  {
    Names(a.procs + b.procs, a.files + b.files, a.sockets + b.sockets)
  }

  function MergeAllNames(dataset: int, batches: seq<seq<Record>>): Names
    decreases |batches|
  {
    if batches == [] then NO_NAMES
    else MergeNames(MergeAllNames(dataset, batches[..|batches| - 1]),
                    NamingAll(dataset, NO_NAMES, batches[|batches| - 1]))
  }

  function Merge(a: Obs, b: Obs): Obs
  {
    Obs(a.procs + b.procs, a.files + b.files, a.sockets + b.sockets, a.nodes + b.nodes, a.events + b.events,
        a.edges + b.edges)
  }

  /** Sub-graphs built from the batches and merged in the given order into an empty graph. */
  function MergeAll(dataset: int, batches: seq<seq<Record>>): Obs
    decreases |batches|
  {
    if batches == [] then EMPTY_OBS
    else Merge(MergeAll(dataset, batches[..|batches| - 1]), ApplyAll(dataset, EMPTY_OBS, batches[|batches| - 1]))
  }

  /** The same graph, up to the order in which the edges came. */
  predicate Same(a: Obs, b: Obs)
  {
    && a.procs == b.procs && a.files == b.files && a.sockets == b.sockets && a.nodes == b.nodes
    && a.events == b.events && multiset(a.edges) == multiset(b.edges)
  }

  // ---- Merge is a monoid, commutative up to order, and records act on it ---------------------

  lemma MergeAssoc(a: Obs, b: Obs, c: Obs)
    ensures Merge(Merge(a, b), c) == Merge(a, Merge(b, c))
  {
    SeqAssoc(a.edges, b.edges, c.edges);
  }

  lemma MergeEmpty(a: Obs)
    ensures Merge(a, EMPTY_OBS) == a
  {
    assert a.edges + [] == a.edges;
  }

  lemma SameComm(a: Obs, b: Obs)
    ensures Same(Merge(a, b), Merge(b, a))
  {
  }

  lemma SameMerge(a: Obs, b: Obs, c: Obs)
    requires Same(b, c)
    ensures Same(Merge(a, b), Merge(a, c)) && Same(Merge(b, a), Merge(c, a))
  {
  }

  lemma ApplyMerge(dataset: int, a: Obs, b: Obs, r: Record)
    ensures Apply(dataset, Merge(a, b), r) == Merge(a, Apply(dataset, b, r))
  {
    if r.Event? {
      SeqAssoc(a.edges, b.edges, Forget(EdgesOf(dataset, r)));
    }
  }

  lemma {:induction false} ApplyAllMerge(dataset: int, a: Obs, b: Obs, rs: seq<Record>)
    ensures ApplyAll(dataset, Merge(a, b), rs) == Merge(a, ApplyAll(dataset, b, rs))
    decreases |rs|
  {
    if rs != [] {
      var n := |rs| - 1;
      ApplyAllMerge(dataset, a, b, rs[..n]);
      ApplyMerge(dataset, a, ApplyAll(dataset, b, rs[..n]), rs[n]);
    }
  }

  lemma {:induction false} ApplyAllConcat(dataset: int, o: Obs, rs: seq<Record>, qs: seq<Record>)
    ensures ApplyAll(dataset, o, rs + qs) == ApplyAll(dataset, ApplyAll(dataset, o, rs), qs)
    decreases |qs|
  {
    if qs == [] {
      assert rs + qs == rs;
    } else {
      var n := |qs| - 1;
      ApplyAllConcat(dataset, o, rs, qs[..n]);
      assert (rs + qs)[..|rs + qs| - 1] == rs + qs[..n];
    }
  }

  // ---- Merging in order is parsing in one go -----------------------------------------------

  lemma FlattenSnoc<T>(bs: seq<seq<T>>, b: seq<T>)
    ensures Flatten(bs + [b]) == Flatten(bs) + b
  {
    if bs == [] {
      assert bs + [b] == [b] && Flatten([b]) == b + Flatten<T>([]);
    } else {
      assert (bs + [b])[1..] == bs[1..] + [b];
      FlattenSnoc(bs[1..], b);
    }
  }

  lemma MergeAllSnoc(dataset: int, xs: seq<seq<Record>>, x: seq<Record>)
    ensures MergeAll(dataset, xs + [x]) == Merge(MergeAll(dataset, xs), ApplyAll(dataset, EMPTY_OBS, x))
  {
    assert (xs + [x])[..|xs + [x]| - 1] == xs;
  }

  lemma ApplyAllFrom(dataset: int, o: Obs, rs: seq<Record>)
    ensures ApplyAll(dataset, o, rs) == Merge(o, ApplyAll(dataset, EMPTY_OBS, rs))
  {
    MergeEmpty(o);
    ApplyAllMerge(dataset, o, EMPTY_OBS, rs);
  }

  /** However the lines were split, merging the sub-graphs in order gives what one pass gives. */
  lemma {:induction false} MergeInOrder(dataset: int, batches: seq<seq<Record>>)
    ensures MergeAll(dataset, batches) == ApplyAll(dataset, EMPTY_OBS, Flatten(batches))
    decreases |batches|
  {
    if batches != [] {
      var first, last := batches[..|batches| - 1], batches[|batches| - 1];
      assert batches == first + [last];
      MergeInOrder(dataset, first);
      MergeAllSnoc(dataset, first, last);
      FlattenSnoc(first, last);
      ApplyAllConcat(dataset, EMPTY_OBS, Flatten(first), last);
      ApplyAllFrom(dataset, ApplyAll(dataset, EMPTY_OBS, Flatten(first)), last);
    }
  }

  // ---- The merge order does not matter -----------------------------------------------------

  lemma {:induction false} MergeAllSplit(dataset: int, xs: seq<seq<Record>>, ys: seq<seq<Record>>)
    ensures MergeAll(dataset, xs + ys) == Merge(MergeAll(dataset, xs), MergeAll(dataset, ys))
    decreases |ys|
  {
    if ys == [] {
      assert xs + ys == xs;
      MergeEmpty(MergeAll(dataset, xs));
    } else {
      var first, last := ys[..|ys| - 1], ys[|ys| - 1];
      assert ys == first + [last];
      assert xs + ys == (xs + first) + [last];
      MergeAllSplit(dataset, xs, first);
      MergeAllSnoc(dataset, xs + first, last);
      MergeAllSnoc(dataset, first, last);
      MergeAssoc(MergeAll(dataset, xs), MergeAll(dataset, first), ApplyAll(dataset, EMPTY_OBS, last));
    }
  }

  /** Moving one batch to the front of the order gives the same graph. */
  lemma MergeAllPull(dataset: int, xs: seq<seq<Record>>, k: nat)
    requires k < |xs|
    ensures Same(MergeAll(dataset, xs), MergeAll(dataset, [xs[k]] + (xs[..k] + xs[k + 1..])))
  {
    var a, b, x := xs[..k], xs[k + 1..], [xs[k]];
    assert xs == (a + x) + b;
    MergeAllSplit(dataset, a + x, b);
    MergeAllSplit(dataset, a, x);
    MergeAllSplit(dataset, x, a + b);
    MergeAllSplit(dataset, a, b);
    var ma, mb, mx := MergeAll(dataset, a), MergeAll(dataset, b), MergeAll(dataset, x);
    SameComm(ma, mx);
    SameMerge(mb, Merge(ma, mx), Merge(mx, ma));
    MergeAssoc(mx, ma, mb);
  }

  lemma {:induction false} MergeAnyOrder(dataset: int, xs: seq<seq<Record>>, ys: seq<seq<Record>>)
    requires multiset(xs) == multiset(ys)
    ensures Same(MergeAll(dataset, xs), MergeAll(dataset, ys))
    decreases |ys|
  {
    if ys == [] {
      assert |multiset(xs)| == 0;
      assert xs == [];
    } else {
      var k := Matching(xs, ys);
      var rest := xs[..k] + xs[k + 1..];
      assert ys == [ys[0]] + ys[1..];
      MergeAllPull(dataset, xs, k);
      MergeAnyOrder(dataset, rest, ys[1..]);
      MergeAllSplit(dataset, [ys[0]], rest);
      MergeAllSplit(dataset, [ys[0]], ys[1..]);
      SameMerge(MergeAll(dataset, [ys[0]]), MergeAll(dataset, rest), MergeAll(dataset, ys[1..]));
    }
  }

  /** Threaded construction refines sequential construction: sub-graphs built from any split of
      the log into batches, merged in any order, give the same graph as one pass. */
  lemma ThreadedRefinesSequential(dataset: int, lines: seq<Record>, size: nat, arrivals: seq<seq<Record>>)
    requires size >= 1 && multiset(arrivals) == multiset(Chunks(lines, size))
    ensures Same(MergeAll(dataset, arrivals), ApplyAll(dataset, EMPTY_OBS, lines))
  {
    MergeAnyOrder(dataset, arrivals, Chunks(lines, size));
    MergeInOrder(dataset, Chunks(lines, size));
    ChunksFlatten(lines, size);
  }

  // ---- What the interaction lists hold -------------------------------------------------------

  datatype Table = FileTable | ProcTable

  /** The edge is noted in some list of this table. */
  predicate NotedIn(t: Table, noted: Noted)
  {
    noted.Lists? || (noted.FileOnly? && t.FileTable?)
  }

  function KeyIn(t: Table, noted: Noted): int
    requires NotedIn(t, noted)
  {
    if t.FileTable? then noted.file else noted.proc
  }

  /** The edges that belong into the list of `k`. */
  function Listed(t: Table, k: int, es: seq<Edge>): seq<EdgeInfo>
  {
    if es == [] then []
    else
      var n := |es| - 1;
      Listed(t, k, es[..n]) + (if NotedIn(t, es[n].noted) && KeyIn(t, es[n].noted) == k then [es[n].info] else [])
  }

  function Occurrences(t: Table, k: int, es: seq<Edge>, x: EdgeInfo): nat
  {
    if es == [] then 0
    else
      var e := es[|es| - 1];
      Occurrences(t, k, es[..|es| - 1], x) +
      (if NotedIn(t, e.noted) && KeyIn(t, e.noted) == k && e.info == x then 1 else 0)
  }

  lemma {:induction false} ListedOccurrences(t: Table, k: int, es: seq<Edge>, x: EdgeInfo)
    ensures multiset(Listed(t, k, es))[x] == Occurrences(t, k, es, x)
  {
    if es != [] {
      ListedOccurrences(t, k, es[..|es| - 1], x);
    }
  }

  lemma {:induction false} OccurrencesConcat(t: Table, k: int, xs: seq<Edge>, ys: seq<Edge>, x: EdgeInfo)
    ensures Occurrences(t, k, xs + ys, x) == Occurrences(t, k, xs, x) + Occurrences(t, k, ys, x)
  {
    if ys == [] {
      assert xs + ys == xs;
    } else {
      var n := |ys| - 1;
      OccurrencesConcat(t, k, xs, ys[..n], x);
      assert (xs + ys)[..|xs + ys| - 1] == xs + ys[..n];
    }
  }

  lemma {:induction false} SameOccurrences(t: Table, k: int, xs: seq<Edge>, ys: seq<Edge>, x: EdgeInfo)
    requires multiset(xs) == multiset(ys)
    ensures Occurrences(t, k, xs, x) == Occurrences(t, k, ys, x)
    decreases |ys|
  {
    if ys == [] {
      assert |multiset(xs)| == 0;
      assert xs == [];
    } else {
      var j := Matching(xs, ys);
      var a, b := xs[..j], xs[j + 1..];
      SameOccurrences(t, k, a + b, ys[1..], x);
      assert xs == (a + [xs[j]]) + b && ys == [ys[0]] + ys[1..];
      OccurrencesConcat(t, k, a + [xs[j]], b, x);
      OccurrencesConcat(t, k, a, [xs[j]], x);
      OccurrencesConcat(t, k, a, b, x);
      OccurrencesConcat(t, k, [ys[0]], ys[1..], x);
    }
  }

  /** The same graph has the same bag of edges in every interaction list. */
  lemma SameLists(t: Table, k: int, xs: seq<Edge>, ys: seq<Edge>)
    requires multiset(xs) == multiset(ys)
    ensures multiset(Listed(t, k, xs)) == multiset(Listed(t, k, ys))
  {
    forall x: EdgeInfo
      ensures multiset(Listed(t, k, xs))[x] == multiset(Listed(t, k, ys))[x]
    {
      ListedOccurrences(t, k, xs, x);
      ListedOccurrences(t, k, ys, x);
      SameOccurrences(t, k, xs, ys, x);
    }
  }

  /** A partner for the first element of a permuted sequence; the rests are permuted as well. */
  lemma Matching<T>(xs: seq<T>, ys: seq<T>) returns (j: nat)
    requires multiset(xs) == multiset(ys) && ys != []
    ensures j < |xs| && xs[j] == ys[0] && multiset(xs[..j] + xs[j + 1..]) == multiset(ys[1..])
  {
    assert ys[0] in multiset(xs);
    j :| 0 <= j < |xs| && xs[j] == ys[0];
    assert xs == xs[..j] + [xs[j]] + xs[j + 1..];
    assert ys == [ys[0]] + ys[1..];
    assert multiset(xs[..j] + xs[j + 1..]) == multiset(xs) - multiset{ys[0]};
    assert multiset(ys[1..]) == multiset(ys) - multiset{ys[0]};
  }
}
