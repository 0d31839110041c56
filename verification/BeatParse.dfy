/** A whole Auditbeat log: the calls, the recovery, the edge table, the noise reduction, the clean-up
    and the search, as one graph. */
module BeatParse {
  import opened Basics
  import opened Records
  import opened Observables
  import opened KnowledgeGraph
  import opened Rekeying
  import opened Recovery
  import opened BeatTables
  import opened BeatRuns
  import opened CallContents
  import opened Ownership
  import opened NoiseReduction
  import opened NoiseAdjacency
  import opened GraphParse
  import opened Cleanup
  import opened Interactions
  import N = NodeTables

  // ---- From listed edges to edges ---------------------------------------------------------------

  /** The identifier that an end of an edge points to. */
  function EndId(v: N.View, e: N.End): int
    requires N.InPool(e, |v.pool|)
  {
    match e
    case ProcEnd(p) => v.pool[p].id
    case FileEnd(f) => f
    case SocketEnd(s) => s
  }

  /** The lists that an edge is noted in, by the identifiers their nodes have now. */
  function NotedOf(v: N.View, e: N.Link): Noted
    requires N.LinkFits(e, |v.pool|)
  {
    if e.mark.Unlisted? then Nowhere
    else if e.mark.FileOnly? then Noted.FileOnly(N.ObjectOf(e))
    else Lists(N.ObjectOf(e), v.pool[N.ProcOf(e)].id)
  }

  function Resolved(v: N.View, e: N.Link): Edge
    requires N.LinkFits(e, |v.pool|)
  {
    Edge(EdgeInfo(EndId(v, e.from), EndId(v, e.to), e.relation, e.stamp.seqNum, e.stamp.sess, e.stamp.timestamp, ""),
         NotedOf(v, e))
  }

  function AllResolved(v: N.View): (es: seq<Edge>)
    requires N.LinksKept(v)
    ensures |es| == |v.links| - v.listed
  {
    seq(|v.links| - v.listed, i requires 0 <= i < |v.links| - v.listed => Resolved(v, v.links[v.listed + i]))
  }

  lemma EndIsNode(v: N.View, e: N.End)
    requires N.Keyed(v) && N.Typed(v) && N.EndKept(v, e)
    ensures EndId(v, e) in v.nodes && (e.ProcEnd? ==> EndId(v, e) in v.procs)
  {
    assert N.OfKind(v.nodes, Proc, v.procs.Keys) && N.OfKind(v.nodes, File, v.files.Keys);
    assert N.OfKind(v.nodes, Socket, v.sockets.Keys);
  }

  /** Both ends are nodes, and one of them is a process. */
  predicate JoinsNodes(nodes: map<int, NodeType>, procs: set<int>, e: EdgeInfo)
  {
    e.n1 in nodes && e.n2 in nodes && (e.n1 in procs || e.n2 in procs)
  }

  lemma ResolvedJoins(v: N.View, e: N.Link)
    requires N.Keyed(v) && N.Typed(v) && N.LinkFits(e, |v.pool|) && N.LinkKept(v, e)
    ensures JoinsNodes(v.nodes, v.procs.Keys, Resolved(v, e).info)
  {
    EndIsNode(v, e.from);
    EndIsNode(v, e.to);
  }

  lemma ResolvedAt(v: N.View, i: nat)
    requires N.LinksKept(v) && v.listed + i < |v.links|
    ensures N.LinkFits(v.links[v.listed + i], |v.pool|) && N.LinkKept(v, v.links[v.listed + i])
    ensures AllResolved(v)[i] == Resolved(v, v.links[v.listed + i])
  {
  }

  /** When the edge table is made, both ends of every listed edge resolve to nodes of the graph, however
      often the identifiers have changed since the edge was noted, and one of them is a process. */
  lemma ResolvedEndsAreNodes(v: N.View, i: nat)
    requires N.Consistent(v) && v.listed + i < |v.links|
    ensures JoinsNodes(v.nodes, v.procs.Keys, AllResolved(v)[i].info)
  {
    ResolvedAt(v, i);
    ResolvedJoins(v, v.links[v.listed + i]);
  }

  /** The identifier that this end stands for now. */
  predicate StandsAt(v: N.View, e: N.End, id: int)
  {
    && (e.ProcEnd? ==> e.p < |v.pool| && id == v.pool[e.p].id)
    && (e.FileEnd? ==> id == e.f) && (e.SocketEnd? ==> id == e.s)
  }

  /** The edge leads from the node at one end to the node at the other, with the relation and the stamp
      of the call, and it is noted for the file or socket, the process, both or neither, as marked. */
  predicate SaysLink(v: N.View, e: N.Link, r: Edge)
  {
    && StandsAt(v, e.from, r.info.n1) && StandsAt(v, e.to, r.info.n2) && r.info.relation == e.relation
    && r.info.seqNum == e.stamp.seqNum && r.info.sess == e.stamp.sess && r.info.timestamp == e.stamp.timestamp
    && (e.mark == N.Unlisted ==> r.noted == Nowhere)
    && (e.mark == N.FileOnly ==> r.noted.FileOnly? && EndOf(v, e, r.noted.file, false))
    && (e.mark == N.Both ==>
          r.noted.Lists? && EndOf(v, e, r.noted.file, false) && EndOf(v, e, r.noted.proc, true))
  }

  /** The process, or what is not a process, at one of the ends. */
  predicate EndOf(v: N.View, e: N.Link, id: int, proc: bool)
  {
    || (e.from.ProcEnd? == proc && StandsAt(v, e.from, id))
    || (e.to.ProcEnd? == proc && StandsAt(v, e.to, id))
  }

  /** After the recovery, each edge that the calls listed is made with the identifiers that its ends
      have by then. */
  lemma EdgesOfCalls(hasher: N.Hasher, v: N.View, w: N.View, i: nat)
    requires StepTo(hasher, v, Recovering, w) && N.LinksKept(w) && v.listed + i < |v.links|
    ensures w.links == v.links && |AllResolved(w)| == |v.links| - v.listed
    ensures SaysLink(w, v.links[v.listed + i], AllResolved(w)[i])
  {
    RecoveryKeeps(hasher, v, w);
    ResolvedAt(w, i);
  }

  /** Accesses point the way the noise reduction expects. */
  lemma ResolvedOwned(v: N.View, e: N.Link)
    requires N.LinkFits(e, |v.pool|)
    ensures OwnedEdge(Resolved(v, e))
  {
  }

  lemma DescribeOneMore(trace: seq<KGEdge>, edge: KGEdge, e: Edge)
    requires edge.info == e.info && edge.noted == e.noted
    ensures Describe(trace + [edge]) == Describe(trace) + [e]
  {
  }

  function Hashes(hashOf: EdgeInfo -> int, es: seq<Edge>): seq<int>
  {
    seq(|es|, i requires 0 <= i < |es| => hashOf(es[i].info))
  }

  method InsertListed(kg: KG, es: seq<Edge>, hashOf: EdgeInfo -> int) returns (made: seq<KGEdge>)
    requires kg.TableValid() && kg.TraceValid()
    modifies kg`edges, kg`objs, kg`trace
    ensures kg.TableValid() && kg.TraceValid()
    ensures kg.trace == old(kg.trace) + made && Describe(made) == es
    ensures Probed(old(kg.Ids()), kg.Ids(), Hashes(hashOf, es))
  {
    made := [];
    for i := 0 to |es|
      invariant kg.TableValid() && kg.TraceValid()
      invariant kg.trace == old(kg.trace) + made && Describe(made) == es[..i]
      invariant Probed(old(kg.Ids()), kg.Ids(), Hashes(hashOf, es)[..i])
    {
      ghost var ids := kg.Ids();
      var edge := kg.NewEdge(Insertion(hashOf(es[i].info), es[i]));
      ProbedOneMore(old(kg.Ids()), ids, Hashes(hashOf, es)[..i], hashOf(es[i].info), edge.eId);
      assert Hashes(hashOf, es)[..i + 1] == Hashes(hashOf, es)[..i] + [hashOf(es[i].info)];
      DescribeOneMore(made, edge, es[i]);
      assert es[..i + 1] == es[..i] + [es[i]];
      made := made + [edge];
    }
  }

  /** Computes the identifier of every listed edge from its ends and inserts the edge under it, or
      under the next free one; nothing is listed any more. */
  method GenKGEdgeTable(t: BeatTables.Tables, kg: KG, hashOf: EdgeInfo -> int) returns (made: seq<KGEdge>)
    requires N.LinksKept(t.Look()) && kg.TableValid() && kg.TraceValid()
    modifies t`listed, kg`edges, kg`objs, kg`trace
    ensures kg.TableValid() && kg.TraceValid() && t.Look() == old(t.Look()).(listed := |t.links|)
    ensures kg.trace == old(kg.trace) + made && Describe(made) == AllResolved(old(t.Look()))
    ensures Probed(old(kg.Ids()), kg.Ids(), Hashes(hashOf, AllResolved(old(t.Look()))))
  {
    made := InsertListed(kg, AllResolved(t.Look()), hashOf);
    t.listed := |t.links|;
  }

  // ---- The interaction lists as edges -------------------------------------------------------------

  /** The edges at these positions. */
  function Placed(made: seq<KGEdge>, positions: seq<nat>): seq<KGEdge>
    requires forall i :: 0 <= i < |positions| ==> positions[i] < |made|
  {
    seq(|positions|, i requires 0 <= i < |positions| => made[positions[i]])
  }

  predicate Increasing(s: seq<nat>, n: nat)
  {
    (forall i :: 0 <= i < |s| ==> s[i] < n) && forall i, j :: 0 <= i < j < |s| ==> s[i] < s[j]
  }

  lemma {:induction false} ProcNotesAre(links: seq<N.Link>, p: nat)
    ensures Increasing(N.ProcNotes(links, p), |links|)
    ensures forall i: nat :: i in N.ProcNotes(links, p) <==>
            i < |links| && links[i].mark.Both? && N.ProcOf(links[i]) == p
    decreases |links|
  {
    if links != [] {
      ProcNotesAre(links[..|links| - 1], p);
    }
  }

  lemma {:induction false} FileNotesAre(links: seq<N.Link>, f: int)
    ensures Increasing(N.FileNotes(links, f), |links|)
    ensures forall i: nat :: i in N.FileNotes(links, f) <==>
            i < |links| && !links[i].mark.Unlisted? && N.ObjectOf(links[i]) == f
    decreases |links|
  {
    if links != [] {
      FileNotesAre(links[..|links| - 1], f);
    }
  }

  /** Made from these links, in order. */
  ghost predicate MadeFrom(v: N.View, made: seq<KGEdge>)
    requires N.LinksKept(v)
  {
    && |made| == |v.links| && Distinct(made)
    && forall i | 0 <= i < |made| ::
       made[i].info == Resolved(v, v.links[i]).info && made[i].noted == NotedOf(v, v.links[i])
  }

  /** The positions of each list are positions of edges. */
  ghost predicate InRange(inter: map<int, seq<nat>>, n: nat)
  {
    forall k | k in inter :: Increasing(inter[k], n)
  }

  lemma ListsInRange(v: N.View)
    requires N.Consistent(v)
    ensures InRange(v.fileInter, |v.links|) && InRange(v.procInter, |v.links|)
  {
    forall k | k in v.fileInter
      ensures Increasing(v.fileInter[k], |v.links|)
    {
      FileNotesAre(v.links, k);
    }
    forall k | k in v.procInter
      ensures Increasing(v.procInter[k], |v.links|)
    {
      ProcNotesAre(v.links, v.procs[k]);
    }
  }

  function AllPlaced(made: seq<KGEdge>, inter: map<int, seq<nat>>): InterMap
    requires InRange(inter, |made|)
  {
    map k | k in inter :: Placed(made, inter[k])
  }

  lemma PlacedDistinct(made: seq<KGEdge>, positions: seq<nat>)
    requires Distinct(made) && Increasing(positions, |made|)
    ensures Distinct(Placed(made, positions))
  {
  }

  lemma FileListPlaced(v: N.View, made: seq<KGEdge>, objs: set<KGEdge>, f: int)
    requires N.LinksKept(v) && N.FileLists(v.fileInter, v.links) && MadeFrom(v, made) &&
             (forall e | e in made :: e in objs)
    requires f in v.fileInter && Increasing(v.fileInter[f], |made|)
    ensures ListOver(FileTable, f, Placed(made, v.fileInter[f]), objs)
  {
    FileNotesAre(v.links, f);
    PlacedDistinct(made, v.fileInter[f]);
  }

  lemma ProcListPlaced(v: N.View, made: seq<KGEdge>, objs: set<KGEdge>, k: int)
    requires N.Keyed(v) && N.LinksKept(v) && N.ProcLists(v) && MadeFrom(v, made) && (forall e | e in made :: e in objs)
    requires k in v.procInter && Increasing(v.procInter[k], |made|)
    ensures ListOver(ProcTable, k, Placed(made, v.procInter[k]), objs)
  {
    ProcNotesAre(v.links, v.procs[k]);
    PlacedDistinct(made, v.procInter[k]);
  }

  lemma PlacedHas(made: seq<KGEdge>, positions: seq<nat>, i: nat)
    requires Increasing(positions, |made|) && i in positions
    ensures i < |made| && made[i] in Placed(made, positions)
  {
    var j :| 0 <= j < |positions| && positions[j] == i;
    assert Placed(made, positions)[j] == made[i];
  }

  lemma FileListed(v: N.View, made: seq<KGEdge>, i: nat)
    requires N.Consistent(v) && MadeFrom(v, made) && InRange(v.fileInter, |made|)
    requires i < |made| && NotedIn(FileTable, made[i].noted)
    ensures IsListed(AllPlaced(made, v.fileInter), KeyIn(FileTable, made[i].noted), made[i])
  {
    var f := N.ObjectOf(v.links[i]);
    FileNotesAre(v.links, f);
    assert i in N.FileNotes(v.links, f);
    PlacedHas(made, v.fileInter[f], i);
  }

  lemma ProcListed(v: N.View, made: seq<KGEdge>, i: nat)
    requires N.Consistent(v) && MadeFrom(v, made) && InRange(v.procInter, |made|)
    requires i < |made| && NotedIn(ProcTable, made[i].noted)
    ensures IsListed(AllPlaced(made, v.procInter), KeyIn(ProcTable, made[i].noted), made[i])
  {
    var p := N.ProcOf(v.links[i]);
    assert N.LinkFits(v.links[i], |v.pool|);
    ProcNotesAre(v.links, p);
    assert i in N.ProcNotes(v.links, p);
    PlacedHas(made, v.procInter[v.pool[p].id], i);
  }

  /** The lists of positions, as lists of edges, hold exactly the edges that belong there. */
  lemma ListsPlaced(v: N.View, made: seq<KGEdge>, objs: set<KGEdge>)
    requires N.Consistent(v) && MadeFrom(v, made) && InRange(v.fileInter, |made|) && InRange(v.procInter, |made|)
    requires forall e :: e in made <==> e in objs
    ensures ListsOver(FileTable, AllPlaced(made, v.fileInter), objs)
    ensures ListsOver(ProcTable, AllPlaced(made, v.procInter), objs)
  {
    var files, procs := AllPlaced(made, v.fileInter), AllPlaced(made, v.procInter);
    forall f | f in files
      ensures ListOver(FileTable, f, files[f], objs)
    {
      FileListPlaced(v, made, objs, f);
    }
    forall k | k in procs
      ensures ListOver(ProcTable, k, procs[k], objs)
    {
      ProcListPlaced(v, made, objs, k);
    }
    forall e | e in objs && NotedIn(FileTable, e.noted)
      ensures IsListed(files, KeyIn(FileTable, e.noted), e)
    {
      var i: nat :| i < |made| && made[i] == e;
      FileListed(v, made, i);
    }
    forall e | e in objs && NotedIn(ProcTable, e.noted)
      ensures IsListed(procs, KeyIn(ProcTable, e.noted), e)
    {
      var i: nat :| i < |made| && made[i] == e;
      ProcListed(v, made, i);
    }
  }

  // ---- The graph object ---------------------------------------------------------------------------

  /** The tables and the graph are one object in the program; here the graph takes over the nodes. */
  ghost predicate Mirrors(t: BeatTables.Tables, kg: KG)
    reads t, kg`procs, kg`files, kg`sockets, kg`nodes
  {
    && kg.files == t.files && kg.sockets == t.sockets && kg.nodes == t.nodes && kg.procs.Keys == t.procs.Keys
    && forall k | k in t.procs :: t.procs[k] < |t.pool| && kg.procs[k] == InfoOf(t.pool[t.procs[k]])
  }

  function InfoOf(p: N.Process): ProcInfo
  {
    ProcInfo(p.pid, p.exe, p.args, p.ppid)
  }

  function Infos(v: N.View): (m: map<int, ProcInfo>)
    requires N.Keyed(v)
    ensures m.Keys == v.procs.Keys
  {
    map k | k in v.procs :: InfoOf(v.pool[v.procs[k]])
  }

  /** As lists of edges, these lists of positions hold exactly the edges that belong there. */
  ghost predicate Placeable(t: BeatTables.Tables, made: seq<KGEdge>, objs: set<KGEdge>)
    reads t`fileInter, t`procInter
  {
    && InRange(t.fileInter, |made|) && ListsOver(FileTable, AllPlaced(made, t.fileInter), objs)
    && InRange(t.procInter, |made|) && ListsOver(ProcTable, AllPlaced(made, t.procInter), objs)
  }

  /** The graph gets the node tables, and the interaction lists as lists of edges. */
  method PublishGraph(t: BeatTables.Tables, kg: KG, made: seq<KGEdge>)
    requires N.Keyed(t.Look()) && N.Typed(t.Look()) && Placeable(t, made, kg.objs)
    requires kg.TableValid() && kg.TraceValid()
    modifies kg`procs, kg`files, kg`sockets, kg`nodes, kg`fileInter, kg`procInter
    ensures kg.Valid() && NodesTyped(kg) && Mirrors(t, kg)
  {
    N.TypedKeys(t.nodes, t.procs.Keys, t.files.Keys, t.sockets.Keys);
    kg.TakeOver(Infos(t.Look()), t.files, t.sockets, t.nodes, AllPlaced(made, t.fileInter),
      AllPlaced(made, t.procInter));
  }

  lemma MadePlaceable(t: BeatTables.Tables, made: seq<KGEdge>, objs: set<KGEdge>)
    requires t.Valid() && MadeFrom(t.Look(), made) && forall e :: e in made <==> e in objs
    ensures Placeable(t, made, objs)
  {
    ListsInRange(t.Look());
    ListsPlaced(t.Look(), made, objs);
  }

  lemma AllOwned(v: N.View)
    requires N.LinksKept(v)
    ensures forall k | 0 <= k < |AllResolved(v)| :: OwnedEdge(AllResolved(v)[k])
  {
    forall k | 0 <= k < |AllResolved(v)|
      ensures OwnedEdge(AllResolved(v)[k])
    {
      assert N.LinkFits(v.links[v.listed + k], |v.pool|);
      ResolvedOwned(v, v.links[v.listed + k]);
    }
  }

  lemma MadeFromAll(v: N.View, made: seq<KGEdge>)
    requires N.LinksKept(v) && v.listed == 0 && Distinct(made) && Describe(made) == AllResolved(v)
    ensures MadeFrom(v.(listed := |v.links|), made)
  {
    assert |Describe(made)| == |made|;
    forall i | 0 <= i < |made|
      ensures made[i].info == Resolved(v, v.links[i]).info && made[i].noted == NotedOf(v, v.links[i])
    {
      assert N.LinkFits(v.links[i], |v.pool|);
      assert Describe(made)[i] == AllResolved(v)[i];
    }
  }

  /** Every edge joins two nodes, and one of them is a process. */
  ghost predicate AllJoin(nodes: map<int, NodeType>, procs: set<int>, objs: set<KGEdge>)
  {
    forall e | e in objs :: JoinsNodes(nodes, procs, e.info)
  }

  lemma AllResolvedJoin(v: N.View, made: seq<KGEdge>, objs: set<KGEdge>)
    requires N.Consistent(v) && Describe(made) == AllResolved(v) && forall e | e in objs :: e in made
    ensures AllJoin(v.nodes, v.procs.Keys, objs)
  {
    forall e | e in objs
      ensures JoinsNodes(v.nodes, v.procs.Keys, e.info)
    {
      var i: nat :| i < |made| && made[i] == e;
      assert Describe(made)[i].info == e.info;
      ResolvedEndsAreNodes(v, i);
    }
  }

  /** The edge table of a first log. */
  method LinkEdges(t: BeatTables.Tables, kg: KG, hashOf: EdgeInfo -> int) returns (made: seq<KGEdge>)
    requires t.Valid() && t.listed == 0 && kg.TableValid() && kg.TraceValid() && kg.trace == []
    modifies t`listed, kg`edges, kg`objs, kg`trace
    ensures t.Look() == old(t.Look()).(listed := |t.links|)
    ensures kg.TableValid() && kg.TraceValid() && kg.trace == made && Describe(made) == AllResolved(old(t.Look()))
    ensures Placeable(t, made, kg.objs) && AllJoin(t.nodes, t.procs.Keys, kg.objs)
    ensures PutInto(kg.edges, kg.trace, Hashes(hashOf, AllResolved(old(t.Look()))))
  {
    ghost var v := t.Look();
    made := GenKGEdgeTable(t, kg, hashOf);
    RowUnder(kg);
    assert PutAt(kg.edges, kg.trace, Hashes(hashOf, AllResolved(v)), kg.Ids());
    assert kg.trace == made;
    N.UnlistedKeeps(v);
    MadeFromAll(v, made);
    MadePlaceable(t, made, kg.objs);
    AllResolvedJoin(v, made, kg.objs);
  }

  /** The edge table and the interaction lists of a first log: a valid graph with the nodes of the
      tables, whose edges are the listed ones. */
  method LinkGraph(t: BeatTables.Tables, kg: KG, hashOf: EdgeInfo -> int)
    requires t.Valid() && t.listed == 0 && kg.TableValid() && kg.TraceValid() && kg.trace == []
    modifies t`listed, kg`procs, kg`files, kg`sockets, kg`nodes
    modifies kg`edges, kg`objs, kg`trace, kg`fileInter, kg`procInter
    ensures t.Look() == old(t.Look()).(listed := |t.links|)
    ensures kg.Valid() && Describe(kg.trace) == AllResolved(old(t.Look()))
    ensures Mirrors(t, kg) && NodesTyped(kg) && AllJoin(kg.nodes, kg.procs.Keys, kg.objs)
    ensures PutInto(kg.edges, kg.trace, Hashes(hashOf, AllResolved(old(t.Look()))))
  {
    var made := LinkEdges(t, kg, hashOf);
    PublishGraph(t, kg, made);
  }

  // ---- The whole log ------------------------------------------------------------------------------

  /** No edge joins two pipes, since every edge has a process at one end. */
  lemma NoPipesJoined(w: N.View, edges: EdgeMap, objs: set<KGEdge>, left: EdgeMap)
    requires N.Typed(w) && AllJoin(w.nodes, w.procs.Keys, objs) && EdgesOnce(edges, objs)
    requires forall k | k in left :: k in edges && left[k] == edges[k]
    ensures NoPipeToPipe(left, Pipes(w.files))
  {
    forall k | k in left
      ensures !(left[k].info.n1 in Pipes(w.files) && left[k].info.n2 in Pipes(w.files))
    {
      assert JoinsNodes(w.nodes, w.procs.Keys, left[k].info);
      assert N.OfKind(w.nodes, Proc, w.procs.Keys) && N.OfKind(w.nodes, File, w.files.Keys);
    }
  }

  /** No pipe edge touches a socket, since the other end of every edge at a pipe is a process. */
  lemma PipesEndAway(w: N.View, es: seq<KGEdge>, f: int, objs: set<KGEdge>)
    requires N.Typed(w) && AllJoin(w.nodes, w.procs.Keys, objs) && IsPipeList(es, Pipes(w.files), f, objs)
    ensures EndsAway(es, f, LocalSockets(w.sockets))
  {
    assert N.OfKind(w.nodes, Proc, w.procs.Keys) && N.OfKind(w.nodes, File, w.files.Keys);
    assert N.OfKind(w.nodes, Socket, w.sockets.Keys);
    var i := LastWriterFound(es, f);
    var j := LastReaderFound(es, f);
    assert i < |es| ==> JoinsNodes(w.nodes, w.procs.Keys, es[i].info);
    assert j < |es| ==> JoinsNodes(w.nodes, w.procs.Keys, es[j].info);
  }

  ghost predicate AllWritesKept(lists: PipeLists, pipeHash: PipeKey -> int, edges: EdgeMap)
  {
    forall f | f in lists :: WritesKept(lists[f], f, pipeHash, edges)
  }

  lemma PipeWritesKept(w: N.View, left: EdgeMap, objs: set<KGEdge>, lists: PipeLists, pipeHash: PipeKey -> int,
                       edges: EdgeMap)
    requires N.Typed(w) && AllJoin(w.nodes, w.procs.Keys, objs) && HashesFresh(left, lists, pipeHash)
    requires CleanedUp(left, objs, Pipes(w.files), LocalSockets(w.sockets), lists, pipeHash, edges)
    ensures AllWritesKept(lists, pipeHash, edges)
  {
    forall f | f in lists
      ensures WritesKept(lists[f], f, pipeHash, edges)
    {
      PipesEndAway(w, lists[f], f, objs);
    }
  }

  /** The edge objects that a reduction leaves. */
  ghost function ObjsLeft(r: Reduction): set<KGEdge>
  {
    set e | e in r.objs && InTable(r.left, e)
  }

  lemma LeftAreObjs(r: Reduction, objs: set<KGEdge>)
    requires Reduces(r) && (forall k | k in r.left :: r.left[k] in objs) && forall e | e in objs :: InTable(r.left, e)
    ensures objs == ObjsLeft(r)
  {
    forall e
      ensures e in objs <==> e in ObjsLeft(r)
    {
      if e in objs {
        assert InTable(r.left, e);
      }
    }
  }

  /** What the clean-ups make of the edge table of a graph over these tables: they lose no edge away
      from pipes and local sockets and no write into a pipe that was read, unless hashes collide. */
  ghost predicate Tidied(w: N.View, left: EdgeMap, objs: set<KGEdge>, lists: PipeLists, pipeHash: PipeKey -> int,
                         edges: EdgeMap)
  {
    && CleanedUp(left, objs, Pipes(w.files), LocalSockets(w.sockets), lists, pipeHash, edges)
    && (HashesFresh(left, lists, pipeHash) ==> AllWritesKept(lists, pipeHash, edges))
  }

  /** The end of a log on the reduced graph. */
  method TidyGraph(kg: KG, ghost w: N.View, pipeHash: PipeKey -> int, timeOf: string -> Int64)
    returns (ex: Explorer, ghost lists: PipeLists, ghost arcs: set<Arc>, ghost runs: seq<Run>)
    requires N.Typed(w) && HasNodesOf(kg, w) && kg.TableValid() && Closed(kg.nodes, kg.edges)
    requires NoPipeToPipe(kg.edges, Pipes(w.files)) && AllJoin(w.nodes, w.procs.Keys, kg.objs)
    modifies kg`edges, kg`objs, kg`nodes, kg`files, kg`sockets
    ensures NodesTyped(kg) && kg.TableValid() && Closed(kg.nodes, kg.edges)
    ensures Tidied(w, old(kg.edges), old(kg.objs), lists, pipeHash, kg.edges)
    ensures kg.files == w.files - Pipes(w.files) && kg.sockets == w.sockets - LocalSockets(w.sockets)
    ensures kg.nodes == w.nodes - Pipes(w.files) - LocalSockets(w.sockets)
    ensures Searched(ex, kg.nodes, kg.edges, timeOf, arcs, runs)
  {
    ghost var left, objs, pipes := kg.edges, kg.objs, {};
    ex, arcs, runs, pipes, lists := CleanAndSearch(kg, pipeHash, timeOf);
    if HashesFresh(left, lists, pipeHash) {
      PipeWritesKept(w, left, objs, lists, pipeHash, kg.edges);
    }
  }

  /** The node tables of the graph are those of `w`. */
  ghost predicate HasNodesOf(kg: KG, w: N.View)
    reads kg`nodes, kg`procs, kg`files, kg`sockets
  {
    kg.nodes == w.nodes && kg.procs.Keys == w.procs.Keys && kg.files == w.files && kg.sockets == w.sockets
  }

  /** What the end of a log makes of the tables `w` and an empty graph. */
  ghost predicate Ended(w: N.View, trace: seq<KGEdge>, r: Reduction, lists: PipeLists, pipeHash: PipeKey -> int,
                        edges: EdgeMap)
  {
    && N.LinksKept(w) && Describe(trace) == AllResolved(w)
    && Reduces(r) && KG.TraceOf(trace, r.objs) && r.tb.nodes == w.nodes
    && Tidied(w, r.left, ObjsLeft(r), lists, pipeHash, edges)
  }

  /** The graph is closed, and every file that is left is searched from or found in some search. */
  ghost predicate Finished(kg: KG, w: N.View, r: Reduction, lists: PipeLists, pipeHash: PipeKey -> int, ex: Explorer,
                           timeOf: string -> Int64, arcs: set<Arc>, runs: seq<Run>)
    reads kg, kg.objs, ex
  {
    && Ended(w, kg.trace, r, lists, pipeHash, kg.edges) && kg.TableValid() && Closed(kg.nodes, kg.edges)
    && Searched(ex, kg.nodes, kg.edges, timeOf, arcs, runs)
  }

  /** The noise reduction at the end of a log: what it leaves meets what the clean-ups need. */
  method ReduceLog(kg: KG, ghost w: N.View) returns (ghost r: Reduction)
    requires N.Typed(w) && HasNodesOf(kg, w)
    requires kg.Valid() && Owned(kg.Observe()) && AllJoin(w.nodes, w.procs.Keys, kg.objs)
    modifies kg`fileInter, kg`procInter, kg`edges, kg`noiseNum, kg`objs
    ensures Reduces(r) && r.edges == old(kg.edges) && r.objs == old(kg.objs) && r.left == kg.edges
    ensures r.tb.nodes == w.nodes && kg.trace == old(kg.trace) && kg.TableValid() && Closed(kg.nodes, kg.edges)
    ensures NoPipeToPipe(kg.edges, Pipes(w.files)) && AllJoin(w.nodes, w.procs.Keys, kg.objs)
    ensures kg.objs == ObjsLeft(r)
  {
    ghost var trace := kg.trace;
    r := ReduceGraph(kg);
    assert kg.trace == trace;
    NoPipesJoined(w, r.edges, r.objs, kg.edges);
    forall e | e in kg.objs ensures InTable(r.left, e) {
      InTableAt(r.left, e.eId, e);
    }
    LeftAreObjs(r, kg.objs);
  }

  /** The end of a log on the graph: the noise is deleted, pipes and local sockets go, and what is left
      is searched. Nothing is assumed of the noise reduction or of the clean-ups: the graph that a log
      leaves meets what each of them needs. */
  method FinishLog(kg: KG, ghost w: N.View, pipeHash: PipeKey -> int, timeOf: string -> Int64)
    returns (ex: Explorer, ghost r: Reduction, ghost lists: PipeLists, ghost arcs: set<Arc>, ghost runs: seq<Run>)
    requires N.LinksKept(w) && N.Typed(w) && Describe(kg.trace) == AllResolved(w) && HasNodesOf(kg, w)
    requires kg.Valid() && Owned(kg.Observe()) && AllJoin(w.nodes, w.procs.Keys, kg.objs)
    modifies kg`fileInter, kg`procInter, kg`edges, kg`noiseNum, kg`objs, kg`nodes, kg`files, kg`sockets
    ensures Finished(kg, w, r, lists, pipeHash, ex, timeOf, arcs, runs)
    ensures r.edges == old(kg.edges) && r.objs == old(kg.objs) && NodesTyped(kg) && kg.trace == old(kg.trace)
    ensures kg.files == w.files - Pipes(w.files) && kg.sockets == w.sockets - LocalSockets(w.sockets)
    ensures kg.nodes == w.nodes - Pipes(w.files) - LocalSockets(w.sockets)
  {
    ghost var trace := kg.trace;
    assert Describe(trace) == AllResolved(w) && KG.TraceOf(trace, kg.objs);
    r := ReduceLog(kg, w);
    assert kg.trace == trace;
    ex, lists, arcs, runs := TidyGraph(kg, w, pipeHash, timeOf);
    assert kg.trace == trace;
  }

  /** The steps of a log fit the tables they find: its calls, and the recovery of names, for which
      every blank process with a known parent needs an ancestor to take its names from. */
  ghost predicate LogFits(hasher: N.Hasher, v: N.View, calls: seq<Call>)
    requires N.Consistent(v)
  {
    && CallsFit(hasher, v, calls)
    && var w := AfterCalls(hasher, v, calls);
       Recoverable(w.pool, w.pids) && Fits(hasher, w, Recovering)
  }

  /** The calls of a log and the recovery. */
  method RunLog(t: BeatTables.Tables, calls: seq<Call>) returns (ghost v: N.View)
    requires t.Valid() && LogFits(t.hasher, t.Look(), calls)
    modifies t`pool, t`procs, t`files, t`sockets, t`nodes, t`pids
    modifies t`fds, t`procInter, t`fileInter, t`links
    ensures v == AfterCalls(t.hasher, old(t.Look()), calls)
    ensures StepTo(t.hasher, v, Recovering, t.Look()) && t.Valid()
  {
    RunCalls(t, calls);
    v := t.Look();
    ghost var ren, order;
    ren, order := ProcInfoRecover(t);
    assert RecoversTo(t.hasher, v, t.pool, ren);
    assert MovesTo(t.hasher, v, t.pool, ren, order, t.Look());
  }

  /** The tables after the clean-up at the end of a log. */
  function Cleaned(w: N.View): N.View
  {
    var v := N.DropFiles(w.(listed := |w.links|), Pipes(w.files));
    N.DropSockets(v, LocalSockets(v.sockets))
  }

  lemma CleanedConsistent(w: N.View)
    requires N.Consistent(w)
    ensures N.Consistent(Cleaned(w))
  {
    var u := w.(listed := |w.links|);
    var v := N.DropFiles(u, Pipes(w.files));
    N.UnlistedKeeps(w);
    N.DropFilesExact(u, Pipes(w.files));
    N.DropSocketsExact(v, LocalSockets(v.sockets));
  }

  lemma CleanedTables(w: N.View, files: map<int, FileInfo>, sockets: map<int, SocketInfo>, nodes: map<int, NodeType>)
    requires files == w.files - Pipes(w.files) && sockets == w.sockets - LocalSockets(w.sockets)
    requires nodes == w.nodes - Pipes(w.files) - LocalSockets(w.sockets)
    ensures w.(listed := |w.links|, files := files, sockets := sockets, nodes := nodes) == Cleaned(w)
  {
  }

  /** The tables take back the nodes that the clean-up left. */
  method TakeBack(t: BeatTables.Tables, kg: KG, ghost w: N.View, ghost r: Reduction, ghost lists: PipeLists,
                  pipeHash: PipeKey -> int, ex: Explorer, timeOf: string -> Int64, ghost arcs: set<Arc>,
                  ghost runs: seq<Run>)
    requires t.Look() == w.(listed := |w.links|) && Finished(kg, w, r, lists, pipeHash, ex, timeOf, arcs, runs)
    modifies t`files, t`sockets, t`nodes
    ensures t.Look() == w.(listed := |w.links|, files := kg.files, sockets := kg.sockets, nodes := kg.nodes)
    ensures Finished(kg, w, r, lists, pipeHash, ex, timeOf, arcs, runs)
  {
    t.files, t.sockets, t.nodes := kg.files, kg.sockets, kg.nodes;
  }

  lemma TraceOwned(kg: KG, w: N.View)
    requires N.LinksKept(w) && Describe(kg.trace) == AllResolved(w)
    ensures Owned(kg.Observe())
  {
    AllOwned(w);
  }

  /** The graph of the log: made, reduced and cleaned up. */
  method EndGraph(t: BeatTables.Tables, kg: KG, hashOf: EdgeInfo -> int, pipeHash: PipeKey -> int,
                  timeOf: string -> Int64)
    returns (ex: Explorer, ghost r: Reduction, ghost lists: PipeLists, ghost arcs: set<Arc>, ghost runs: seq<Run>)
    requires t.Valid() && t.listed == 0 && kg.TableValid() && kg.TraceValid() && kg.trace == []
    modifies t`listed, kg
    ensures t.Look() == old(t.Look()).(listed := |t.links|)
    ensures Finished(kg, old(t.Look()), r, lists, pipeHash, ex, timeOf, arcs, runs)
    ensures PutInto(r.edges, kg.trace, Hashes(hashOf, AllResolved(old(t.Look()))))
    ensures kg.files == t.files - Pipes(t.files) && kg.sockets == t.sockets - LocalSockets(t.sockets)
    ensures kg.nodes == t.nodes - Pipes(t.files) - LocalSockets(t.sockets) && kg.procs.Keys == t.procs.Keys
  {
    ghost var w := t.Look();
    LinkGraph(t, kg, hashOf);
    TraceOwned(kg, w);
    ex, r, lists, arcs, runs := FinishLog(kg, w, pipeHash, timeOf);
    assert t.Look() == w.(listed := |w.links|);
  }

  /** The same, and the tables take back the nodes that are left. */
  method EndLog(t: BeatTables.Tables, kg: KG, hashOf: EdgeInfo -> int, pipeHash: PipeKey -> int,
                timeOf: string -> Int64)
    returns (ex: Explorer, ghost r: Reduction, ghost lists: PipeLists, ghost arcs: set<Arc>, ghost runs: seq<Run>)
    requires t.Valid() && t.listed == 0 && kg.TableValid() && kg.TraceValid() && kg.trace == []
    modifies t`listed, t`files, t`sockets, t`nodes, kg
    ensures t.Look() == Cleaned(old(t.Look()))
    ensures Finished(kg, old(t.Look()), r, lists, pipeHash, ex, timeOf, arcs, runs)
    ensures PutInto(r.edges, kg.trace, Hashes(hashOf, AllResolved(old(t.Look()))))
    ensures kg.files == t.files && kg.sockets == t.sockets && kg.nodes == t.nodes && kg.procs.Keys == t.procs.Keys
  {
    ghost var w := t.Look();
    ex, r, lists, arcs, runs := EndGraph(t, kg, hashOf, pipeHash, timeOf);
    CleanedTables(w, kg.files, kg.sockets, kg.nodes);
    TakeBack(t, kg, w, r, lists, pipeHash, ex, timeOf, arcs, runs);
  }

  /** A first log, from empty tables to the interactions of its files. If its steps fit, the tables are
      consistent in the end; the graph is closed; the edges before the noise reduction are those of the
      calls, resolved to the identifiers that the recovery leaves; and every file that is left is
      searched from or found in some search. */
  method KGBeatParse(t: BeatTables.Tables, calls: seq<Call>, kg: KG, hashOf: EdgeInfo -> int, pipeHash: PipeKey -> int,
                     timeOf: string -> Int64)
    returns (ex: Explorer, ghost v: N.View, ghost w: N.View, ghost r: Reduction, ghost lists: PipeLists,
             ghost arcs: set<Arc>, ghost runs: seq<Run>)
    requires t.Valid() && t.Look() == N.EMPTY_VIEW && LogFits(t.hasher, t.Look(), calls)
    requires kg.TableValid() && kg.TraceValid() && kg.trace == []
    modifies t, kg
    ensures v == AfterCalls(t.hasher, old(t.Look()), calls) && StepTo(t.hasher, v, Recovering, w)
    ensures t.Look() == Cleaned(w) && t.Valid()
    ensures Finished(kg, w, r, lists, pipeHash, ex, timeOf, arcs, runs)
    ensures PutInto(r.edges, kg.trace, Hashes(hashOf, AllResolved(w)))
    ensures kg.files == t.files && kg.sockets == t.sockets && kg.nodes == t.nodes && kg.procs.Keys == t.procs.Keys
  {
    v := RunLog(t, calls);
    w := t.Look();
    ex, r, lists, arcs, runs := EndLog(t, kg, hashOf, pipeHash, timeOf);
    CleanedConsistent(w);
  }
}
