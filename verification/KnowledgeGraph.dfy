/** The knowledge graph object: node tables, the edge table with its probing insert, and the
    per-file and per-process interaction lists, which hold the same edge objects as the table. */
module KnowledgeGraph {
  import opened Basics
  import opened Records
  import opened Observables

  /** An edge object. Its identifier changes while it is inserted; the rest never does. Where it is
      noted is known to the proof only. */
  class KGEdge {
    const info: EdgeInfo
    ghost const noted: Noted
    var eId: int

    constructor (info: EdgeInfo, ghost noted: Noted, eId: int)
      ensures this.info == info && this.noted == noted && this.eId == eId
    {
      this.info := info;
      this.noted := noted;
      this.eId := eId;
    }
  }

  type EdgeMap = map<int, KGEdge>
  type InterMap = map<int, seq<KGEdge>>

  ghost predicate Belongs(t: Table, k: int, e: KGEdge)
  {
    NotedIn(t, e.noted) && KeyIn(t, e.noted) == k
  }

  /** The list of `k`: not empty, without repetition, of edges that belong into it. */
  ghost predicate ListOver(t: Table, k: int, es: seq<KGEdge>, edges: set<KGEdge>)
  {
    es != [] && Distinct(es) && forall i :: 0 <= i < |es| ==> es[i] in edges && Belongs(t, k, es[i])
  }

  /** Every list holds edges that belong there, and every edge that belongs somewhere is listed. */
  ghost predicate ListsOver(t: Table, m: InterMap, edges: set<KGEdge>)
  {
    && (forall k | k in m :: ListOver(t, k, m[k], edges))
    && (forall e | e in edges && NotedIn(t, e.noted) :: IsListed(m, KeyIn(t, e.noted), e))
  }

  predicate IsListed(m: InterMap, k: int, e: KGEdge)
  {
    k in m && e in m[k]
  }

  ghost function Describe(es: seq<KGEdge>): seq<Edge>
  {
    seq(|es|, k requires 0 <= k < |es| => Edge(es[k].info, es[k].noted))
  }

  ghost function IdsOf(es: seq<KGEdge>): seq<int>
    reads es
  {
    seq(|es|, k requires 0 <= k < |es| reads es => es[k].eId)
  }

  /** `e` is the first identifier from `id` on that is not taken. */
  ghost predicate FirstFree(taken: EdgeMap, id: int, e: int)
  {
    e >= id && e !in taken && forall j :: id <= j < e ==> j in taken
  }

  // ---- Identifiers of a row of edges -----------------------------------------------------------

  predicate FirstNotIn(taken: seq<int>, id: int, e: int)
  {
    e >= id && e !in taken && forall j :: id <= j < e ==> j in taken
  }

  /** After the identifiers `before`, each of these was the first free one from the one asked for. */
  predicate Probed(before: seq<int>, ids: seq<int>, asked: seq<int>)
  {
    && |ids| == |before| + |asked| && before <= ids
    && forall k :: |before| <= k < |ids| ==> FirstNotIn(ids[..k], asked[k - |before|], ids[k])
  }

  lemma ProbedOneMore(before: seq<int>, ids: seq<int>, asked: seq<int>, id: int, e: int)
    requires Probed(before, ids, asked) && FirstNotIn(ids, id, e)
    ensures Probed(before, ids + [e], asked + [id])
  {
    var more := ids + [e];
    forall k | |before| <= k < |more|
      ensures FirstNotIn(more[..k], (asked + [id])[k - |before|], more[k])
    {
      assert more[..k] == ids[..k];
      assert ids[..|ids|] == ids;
    }
  }

  lemma ProbedTrans(a: seq<int>, b: seq<int>, c: seq<int>, first: seq<int>, then_: seq<int>)
    requires Probed(a, b, first) && Probed(b, c, then_)
    ensures Probed(a, c, first + then_)
  {
    forall k | |a| <= k < |c|
      ensures FirstNotIn(c[..k], (first + then_)[k - |a|], c[k])
    {
      if k < |b| {
        assert c[..k] == b[..k];
      }
    }
  }

  /** If the identifiers asked for are new and differ, each edge gets the one asked for. */
  lemma {:induction false} ProbedFresh(ids: seq<int>, asked: seq<int>)
    requires Probed([], ids, asked) && Distinct(asked)
    ensures ids == asked
    decreases |ids|
  {
    if ids != [] {
      var n := |ids| - 1;
      assert forall k | 0 <= k < n :: ids[..n][..k] == ids[..k];
      ProbedFresh(ids[..n], asked[..n]);
      assert asked[n] !in asked[..n];
      assert FirstNotIn(ids[..n], asked[n], ids[n]);
      assert ids == ids[..n] + [ids[n]] && asked == asked[..n] + [asked[n]];
    }
  }

  /** The edges of this row are in the table under these identifiers. */
  ghost predicate Under(edges: EdgeMap, row: seq<KGEdge>, ids: seq<int>)
  {
    |ids| == |row| && forall k | 0 <= k < |row| :: ids[k] in edges && edges[ids[k]] == row[k]
  }

  /** Each edge of the row was put into the table under the first free identifier from the one asked
      for on, one after the other. */
  ghost predicate PutInto(edges: EdgeMap, row: seq<KGEdge>, asked: seq<int>)
  {
    exists ids: seq<int> :: PutAt(edges, row, asked, ids)
  }

  ghost predicate PutAt(edges: EdgeMap, row: seq<KGEdge>, asked: seq<int>, ids: seq<int>)
  {
    Under(edges, row, ids) && Probed([], ids, asked)
  }

  /** So if the identifiers asked for differ, each edge is found under its own. */
  lemma PutFresh(edges: EdgeMap, row: seq<KGEdge>, asked: seq<int>)
    requires PutInto(edges, row, asked) && Distinct(asked)
    ensures Under(edges, row, asked)
  {
    var ids: seq<int> :| PutAt(edges, row, asked, ids);
    ProbedFresh(ids, asked);
  }

  ghost predicate KeyedById(edges: EdgeMap, objs: set<KGEdge>)
    reads objs
  {
    && (forall k | k in edges :: edges[k] in objs && edges[k].eId == k)
    && (forall e | e in objs :: e.eId in edges && edges[e.eId] == e)
  }

  predicate InTable(m: EdgeMap, e: KGEdge)
  {
    exists k :: k in m && m[k] == e
  }

  lemma InTableAt(m: EdgeMap, k: int, e: KGEdge)
    requires k in m && m[k] == e
    ensures InTable(m, e)
  {
  }

  // ---- Nodes -----------------------------------------------------------------------------------

  /** The kind of a node names a table that has it. */
  predicate NamesTable(kind: NodeType, k: int, procs: set<int>, files: set<int>, sockets: set<int>)
  {
    match kind
    case Proc => k in procs
    case File => k in files
    case Socket => k in sockets
    case _ => false
  }

  /** The node table has the keys of the three tables, each with a kind it has there. */
  ghost predicate NodesOf(nodes: map<int, NodeType>, procs: set<int>, files: set<int>, sockets: set<int>)
  {
    && nodes.Keys == procs + files + sockets
    && forall k | k in nodes :: NamesTable(nodes[k], k, procs, files, sockets)
  }

  class KG {
    var procs: map<int, ProcInfo>
    var files: map<int, FileInfo>
    var sockets: map<int, SocketInfo>
    var nodes: map<int, NodeType>
    var edges: EdgeMap
    var fileInter: InterMap
    var procInter: InterMap
    var eventNum: nat
    var noiseNum: nat
    ghost var objs: set<KGEdge>   // the edge objects in the table
    ghost var trace: seq<KGEdge>  // the same, in the order they were inserted

    ghost predicate Valid()
      reads this, objs
    {
      TableValid() && NodesValid() && ListsValid() && TraceValid()
    }

    /** Every edge is in the table under its own identifier, so no object is in it twice. */
    ghost predicate TableValid()
      reads this`edges, this`objs, objs
    {
      KeyedById(edges, objs)
    }

    ghost predicate NodesValid()
      reads this`nodes, this`procs, this`files, this`sockets
    {
      NodesOf(nodes, procs.Keys, files.Keys, sockets.Keys)
    }

    ghost predicate ListsValid()
      reads this`fileInter, this`procInter, this`objs
    {
      ListsOver(FileTable, fileInter, objs) && ListsOver(ProcTable, procInter, objs)
    }

    ghost predicate TraceValid()
      reads this`trace, this`objs
    {
      TraceOf(trace, objs)
    }

    static ghost predicate TraceOf(trace: seq<KGEdge>, objs: set<KGEdge>)
    {
      && Distinct(trace)
      && (forall i :: 0 <= i < |trace| ==> trace[i] in objs)
      && (forall e | e in objs :: e in trace)
    }

    /** The identifiers of the edges, in the order they were inserted. */
    ghost function Ids(): seq<int>
      reads this`trace, trace
    {
      IdsOf(trace)
    }

    ghost function Observe(): Obs
      reads this
    {
      Obs(procs.Keys, files.Keys, sockets.Keys, nodes.Keys, eventNum, Describe(trace))
    }

    /** What the node tables say. */
    ghost function Named(): Names
      reads this`procs, this`files, this`sockets
    {
      Names(procs, files, sockets)
    }

    constructor ()
      ensures Valid() && Observe() == EMPTY_OBS && objs == {} && noiseNum == 0 && Named() == NO_NAMES
    {
      procs, files, sockets, nodes := map[], map[], map[], map[];
      edges, fileInter, procInter := map[], map[], map[];
      eventNum, noiseNum, objs, trace := 0, 0, {}, [];
    }

    // ---- Node tables ------------------------------------------------------------------------

    /** The first record with an identifier wins. */
    method InsertProc(id: int, p: ProcInfo)
      requires NodesValid()
      modifies this`procs, this`nodes
      ensures NodesValid()
      ensures procs == (if id in old(procs) then old(procs) else old(procs)[id := p])
      ensures nodes == (if id in old(procs) then old(nodes) else old(nodes)[id := Proc])
      ensures procs.Keys == old(procs).Keys + {id} && nodes.Keys == old(nodes).Keys + {id}
    {
      if id in procs { return; }
      procs := procs[id := p];
      nodes := nodes[id := Proc];
    }

    method InsertFile(id: int, f: FileInfo)
      requires NodesValid()
      modifies this`files, this`nodes
      ensures NodesValid()
      ensures files == (if id in old(files) then old(files) else old(files)[id := f])
      ensures nodes == (if id in old(files) then old(nodes) else old(nodes)[id := File])
      ensures files.Keys == old(files).Keys + {id} && nodes.Keys == old(nodes).Keys + {id}
    {
      if id in files { return; }
      files := files[id := f];
      nodes := nodes[id := File];
    }

    method InsertSocket(id: int, s: SocketInfo)
      requires NodesValid()
      modifies this`sockets, this`nodes
      ensures NodesValid()
      ensures sockets == (if id in old(sockets) then old(sockets) else old(sockets)[id := s])
      ensures nodes == (if id in old(sockets) then old(nodes) else old(nodes)[id := Socket])
      ensures sockets.Keys == old(sockets).Keys + {id} && nodes.Keys == old(nodes).Keys + {id}
    {
      if id in sockets { return; }
      sockets := sockets[id := s];
      nodes := nodes[id := Socket];
    }

    /** All tables but that of the edges are replaced. */
    method TakeOver(procs: map<int, ProcInfo>, files: map<int, FileInfo>, sockets: map<int, SocketInfo>,
                    nodes: map<int, NodeType>, fileInter: InterMap, procInter: InterMap)
      requires TableValid() && TraceValid()
      requires NodesOf(nodes, procs.Keys, files.Keys, sockets.Keys)
      requires ListsOver(FileTable, fileInter, objs) && ListsOver(ProcTable, procInter, objs)
      modifies this`procs, this`files, this`sockets, this`nodes, this`fileInter, this`procInter
      ensures Valid() && this.procs == procs && this.files == files && this.sockets == sockets && this.nodes == nodes
      ensures this.fileInter == fileInter && this.procInter == procInter
    {
      this.procs, this.files, this.sockets, this.nodes := procs, files, sockets, nodes;
      this.fileInter, this.procInter := fileInter, procInter;
    }

    // ---- Edges ------------------------------------------------------------------------------

    /** The probing loop: counts the edge's identifier up to the first free one. */
    method Probe(id: int, edge: KGEdge)
      requires edge.eId == id
      modifies edge`eId
      ensures FirstFree(edges, id, edge.eId)
    {
      var e := id;
      while e in edges
        invariant edge.eId == e && e >= id && forall j :: id <= j < e ==> j in edges
        decreases set j | j in edges && j >= e
      {
        ghost var ahead := set j | j in edges && j >= e;
        assert e in ahead && (set j | j in edges && j >= e + 1) == ahead - {e};
        e := e + 1;
        edge.eId := e;
      }
    }

    /** Probing insert: the edge ends up at the first free identifier from its own on, carries
        that identifier, and no entry is overwritten. */
    method InsertEdge(id: int, edge: KGEdge)
      requires TableValid() && edge !in objs && edge.eId == id
      modifies this`edges, this`objs, edge`eId
      ensures TableValid()
      ensures FirstFree(old(edges), id, edge.eId)
      ensures edges == old(edges)[edge.eId := edge]
      ensures objs == old(objs) + {edge}
    {
      Probe(id, edge);
      edges, objs := edges[edge.eId := edge], objs + {edge};
    }

    /** Takes the edge with this identifier out of the table, if there is one, and counts it. */
    method DropNoise(id: int)
      requires TableValid()
      modifies this`edges, this`objs, this`noiseNum
      ensures TableValid()
      ensures edges == old(edges) - {id}
      ensures |old(edges)| == |edges| + noiseNum - old(noiseNum)
    {
      if id in edges {
        objs := objs - {edges[id]};
        assert edges == (edges - {id})[id := edges[id]];
        edges := edges - {id};
        noiseNum := noiseNum + 1;
      } else {
        assert edges - {id} == edges;
      }
    }

    // ---- Interaction lists --------------------------------------------------------------------

    static lemma ListsAppend(t: Table, m: InterMap, key: int, edge: KGEdge, objs: set<KGEdge>)
      requires edge in objs && ListsOver(t, m, objs - {edge}) && Belongs(t, key, edge)
      ensures ListsOver(t, m[key := (if key in m then m[key] else []) + [edge]], objs)
    {
      var r := m[key := (if key in m then m[key] else []) + [edge]];
      assert ListOver(t, key, r[key], objs);
      forall e | e in objs && NotedIn(t, e.noted)
        ensures IsListed(r, KeyIn(t, e.noted), e)
      {
        assert e != edge ==> IsListed(m, KeyIn(t, e.noted), e);
      }
    }

    method InsertFileInteraction(key: int, edge: KGEdge)
      requires edge in objs && ListsOver(FileTable, fileInter, objs - {edge}) && Belongs(FileTable, key, edge)
      modifies this`fileInter
      ensures ListsOver(FileTable, fileInter, objs)
      ensures fileInter == old(fileInter)[key := (if key in old(fileInter) then old(fileInter)[key] else []) + [edge]]
    {
      ListsAppend(FileTable, fileInter, key, edge, objs);
      if key in fileInter {
        fileInter := fileInter[key := fileInter[key] + [edge]];
      } else {
        assert [] + [edge] == [edge];
        fileInter := fileInter[key := [edge]];
      }
    }

    method InsertProcInteraction(key: int, edge: KGEdge)
      requires edge in objs && ListsOver(ProcTable, procInter, objs - {edge}) && Belongs(ProcTable, key, edge)
      modifies this`procInter
      ensures ListsOver(ProcTable, procInter, objs)
      ensures procInter == old(procInter)[key := (if key in old(procInter) then old(procInter)[key] else []) + [edge]]
    {
      ListsAppend(ProcTable, procInter, key, edge, objs);
      if key in procInter {
        procInter := procInter[key := procInter[key] + [edge]];
      } else {
        assert [] + [edge] == [edge];
        procInter := procInter[key := [edge]];
      }
    }

    // ---- Audit records ------------------------------------------------------------------------

    method NewEdge(i: Insertion) returns (e: KGEdge)
      requires TableValid() && TraceValid()
      modifies this`edges, this`objs, this`trace
      ensures TableValid() && TraceValid()
      ensures fresh(e) && e.info == i.edge.info && e.noted == i.edge.noted
      ensures objs == old(objs) + {e} && trace == old(trace) + [e]
      ensures edges == old(edges)[e.eId := e] && FirstFree(old(edges), i.eId, e.eId)
      ensures Ids() == old(Ids()) + [e.eId] && FirstNotIn(old(Ids()), i.eId, e.eId)
    {
      e := new KGEdge(i.edge.info, i.edge.noted, i.eId);
      assert e !in objs && e !in trace;
      IdsAreKeys(edges, objs, trace);
      InsertEdge(i.eId, e);
      trace := trace + [e];
    }

    /** The identifiers of the edges are the keys of the table. */
    static lemma IdsAreKeys(edges: EdgeMap, objs: set<KGEdge>, trace: seq<KGEdge>)
      requires KeyedById(edges, objs) && TraceOf(trace, objs)
      ensures forall k :: k in IdsOf(trace) <==> k in edges
    {
      forall k | k in edges
        ensures k in IdsOf(trace)
      {
        var i :| 0 <= i < |trace| && trace[i] == edges[k];
        assert IdsOf(trace)[i] == k;
      }
      forall k | k in IdsOf(trace)
        ensures k in edges
      {
        var i :| 0 <= i < |trace| && IdsOf(trace)[i] == k;
        assert trace[i] in objs;
      }
    }

    method Note(edge: KGEdge, noted: Noted)
      requires edge in objs && edge.noted == noted
      requires ListsOver(FileTable, fileInter, objs - {edge}) && ListsOver(ProcTable, procInter, objs - {edge})
      modifies this`fileInter, this`procInter
      ensures ListsValid()
    {
      if !noted.Nowhere? {
        InsertFileInteraction(noted.file, edge);
      }
      if noted.Lists? {
        InsertProcInteraction(noted.proc, edge);
      }
    }

    /** What a Syscall method does with each edge: makes it, inserts it, and notes it in both lists
        unless it is bare. */
    method AddEdge(i: Insertion)
      requires Valid()
      modifies this`edges, this`objs, this`trace, this`fileInter, this`procInter
      ensures Valid() && (forall e :: e in objs && e !in old(objs) ==> fresh(e))
      ensures Describe(trace) == Describe(old(trace)) + [i.edge]
      ensures |Ids()| == |old(Ids())| + 1 && old(Ids()) <= Ids() && FirstNotIn(old(Ids()), i.eId, Ids()[|old(Ids())|])
    {
      var e := NewEdge(i);
      assert objs - {e} == old(objs);
      Note(e, i.edge.noted);
    }

    /** The edges of one event, one after the other. */
    method AddAll(es: seq<Insertion>)
      requires Valid()
      modifies this`edges, this`objs, this`trace, this`fileInter, this`procInter
      ensures Valid() && (forall e :: e in objs && e !in old(objs) ==> fresh(e))
      ensures Describe(trace) == Describe(old(trace)) + Forget(es) && Probed(old(Ids()), Ids(), Asked(es))
    {
      for k := 0 to |es|
        invariant Valid() && (forall e :: e in objs && e !in old(objs) ==> fresh(e))
        invariant Describe(trace) == Describe(old(trace)) + Forget(es)[..k]
        invariant Probed(old(Ids()), Ids(), Asked(es)[..k])
      {
        ghost var ids := Ids();
        AddEdge(es[k]);
        assert Ids() == ids + [Ids()[|ids|]] && Asked(es)[..k + 1] == Asked(es)[..k] + [es[k].eId];
        ProbedOneMore(old(Ids()), ids, Asked(es)[..k], es[k].eId, Ids()[|ids|]);
      }
    }

    method SyscallClone(ev: Record)
      requires Valid() && ev.Event? && (ev.kind == EvClone || ev.kind == EvFork)
      modifies this`edges, this`objs, this`trace, this`fileInter, this`procInter
      ensures Valid() && (forall e :: e in objs && e !in old(objs) ==> fresh(e))
      ensures Describe(trace) == Describe(old(trace)) + Forget(EdgesOf(0, ev))
      ensures Probed(old(Ids()), Ids(), Asked(EdgesOf(0, ev)))
    {
      AddAll([Bare(Link(ev, ev.eId, ev.sub, ev.obj, Clone, ev.obj))]);
    }

    method SyscallExecve(dataset: int, ev: Record)
      requires Valid() && ev.Event? && ev.kind == EvExecute
      modifies this`edges, this`objs, this`trace, this`fileInter, this`procInter
      ensures Valid() && (forall e :: e in objs && e !in old(objs) ==> fresh(e))
      ensures Describe(trace) == Describe(old(trace)) + Forget(EdgesOf(dataset, ev))
      ensures Probed(old(Ids()), Ids(), Asked(EdgesOf(dataset, ev)))
    {
      if dataset == 0 {
        AddAll([Link(ev, ev.eId, ev.sub, ev.obj, Execve, ev.obj)]);
      } else if dataset == 1 {
        AddAll([Link(ev, ev.eId, ev.obj, ev.sub, Execve, ev.obj)]);
      }
    }

    /** Rename reads the old object and writes the new one; update deletes and creates. */
    method SyscallRename(ev: Record)
      requires Valid() && ev.Event? && ev.kind == EvRename
      modifies this`edges, this`objs, this`trace, this`fileInter, this`procInter
      ensures Valid() && (forall e :: e in objs && e !in old(objs) ==> fresh(e))
      ensures Describe(trace) == Describe(old(trace)) + Forget(EdgesOf(0, ev))
      ensures Probed(old(Ids()), Ids(), Asked(EdgesOf(0, ev)))
    {
      AddAll([Link(ev, ev.e1Id, ev.obj, ev.sub, Read, ev.obj), Link(ev, ev.e2Id, ev.sub, ev.obj2, Write, ev.obj2)]);
    }

    method SyscallUpdate(ev: Record)
      requires Valid() && ev.Event? && ev.kind == EvUpdate
      modifies this`edges, this`objs, this`trace, this`fileInter, this`procInter
      ensures Valid() && (forall e :: e in objs && e !in old(objs) ==> fresh(e))
      ensures Describe(trace) == Describe(old(trace)) + Forget(EdgesOf(0, ev))
      ensures Probed(old(Ids()), Ids(), Asked(EdgesOf(0, ev)))
    {
      AddAll([Link(ev, ev.e1Id, ev.obj, ev.sub, Delete, ev.obj), Link(ev, ev.e2Id, ev.sub, ev.obj2, Create, ev.obj2)]);
    }

    /** The events that add a single edge between the subject and an object. */
    method Access(ev: Record)
      requires Valid() && ev.Event? && |EdgesOf(0, ev)| == 1 && ev.kind !in {EvClone, EvFork, EvExecute}
      modifies this`edges, this`objs, this`trace, this`fileInter, this`procInter
      ensures Valid() && (forall e :: e in objs && e !in old(objs) ==> fresh(e))
      ensures Describe(trace) == Describe(old(trace)) + Forget(EdgesOf(0, ev))
      ensures Probed(old(Ids()), Ids(), Asked(EdgesOf(0, ev)))
    {
      var edge;
      match ev.kind {
        case EvConnect => edge := Link(ev, ev.eId, ev.sub, ev.obj, Connect, ev.obj);
        case EvUnlink => edge := Link(ev, ev.eId, ev.sub, ev.obj, Delete, ev.obj);
        case EvRead => edge := Link(ev, ev.eId, ev.obj, ev.sub, Read, ev.obj);
        case EvWrite => edge := Link(ev, ev.eId, ev.sub, ev.obj, Write, ev.obj);
        case EvRecvfrom => edge := Link(ev, ev.eId, ev.obj, ev.sub, Recv, ev.obj);
        case EvRecvmsg => edge := Link(ev, ev.eId, ev.obj, ev.sub, Recv, ev.obj);
        case EvReadSocket => edge := Link(ev, ev.eId, ev.obj, ev.sub, Recv, ev.obj);
        case EvSendto => edge := Link(ev, ev.eId, ev.sub, ev.obj, Send, ev.obj);
        case EvSendmsg => edge := Link(ev, ev.eId, ev.sub, ev.obj, Send, ev.obj);
        case EvWriteSocket => edge := Link(ev, ev.eId, ev.sub, ev.obj, Send, ev.obj);
        case EvLoad => edge := Link(ev, ev.eId, ev.obj, ev.sub, Load, ev.obj);
        case EvCreate => edge := Link(ev, ev.eId, ev.sub, ev.obj, Create, ev.obj);
      }
      assert EdgesOf(0, ev) == [edge];
      AddAll([edge]);
    }

    /** The syscall switch. Returns whether the event counts as analysed. */
    method Event2Triplet(dataset: int, ev: Record) returns (analyzed: bool)
      requires Valid() && ev.Event?
      modifies this`edges, this`objs, this`trace, this`fileInter, this`procInter
      ensures Valid() && (forall e :: e in objs && e !in old(objs) ==> fresh(e))
      ensures Describe(trace) == Describe(old(trace)) + Forget(EdgesOf(dataset, ev))
      ensures Probed(old(Ids()), Ids(), Asked(EdgesOf(dataset, ev)))
      ensures analyzed == Analyzed(ev)
    {
      analyzed := ev.kind != EvSkipped && ev.kind != EvUnknown;
      match ev.kind
      case EvSkipped =>
      case EvUnknown =>
      case EvOpen =>
      case EvClose =>
      case EvClone => SyscallClone(ev);
      case EvFork => SyscallClone(ev);
      case EvExecute => SyscallExecve(dataset, ev);
      case EvRename => SyscallRename(ev);
      case EvUpdate => SyscallUpdate(ev);
      case _ => Access(ev);
    }

    /** LoadProc, LoadFile and LoadSock; which string names a node depends on the dataset. */
    method LoadNode(dataset: int, r: Record)
      requires NodesValid() && !r.Event?
      modifies this`procs, this`files, this`sockets, this`nodes
      ensures NodesValid() && Observe() == Apply(dataset, old(Observe()), r)
      ensures Named() == Naming(dataset, old(Named()), r)
    {
      match r
      case Subject(id, pid, name, cmdLine, path, ppid, _) =>
        if dataset == 0 {
          InsertProc(id, ProcInfo(pid, name, path, ppid));
        } else if dataset == 1 {
          InsertProc(id, ProcInfo(pid, cmdLine, path, ppid));
        }
      case FileObject(id, path, filename, _) =>
        if dataset == 0 {
          InsertFile(id, FileInfo(path, " "));
        } else if dataset == 1 {
          InsertFile(id, FileInfo(filename, " "));
        }
      case NetFlow(id, address, _) => InsertSocket(id, SocketInfo(address));
      case OtherRecord =>
    }

    /** One line of the log, as both construction paths handle it; the count of analysed events
        is kept by the caller. */
    method ProcessRecord(dataset: int, r: Record) returns (analyzed: bool)
      requires Valid()
      modifies this`procs, this`files, this`sockets, this`nodes
      modifies this`edges, this`objs, this`trace, this`fileInter, this`procInter
      ensures Valid() && (forall e :: e in objs && e !in old(objs) ==> fresh(e))
      ensures Observe() == Apply(dataset, old(Observe()), r).(events := old(eventNum))
      ensures Named() == Naming(dataset, old(Named()), r)
      ensures Probed(old(Ids()), Ids(), AskedBy(dataset, r))
      ensures analyzed == (r.Event? && Analyzed(r))
    {
      analyzed := false;
      if r.Event? {
        analyzed := Event2Triplet(dataset, r);
      } else {
        LoadNode(dataset, r);
      }
    }
  }
}
