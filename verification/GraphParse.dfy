/** From a built graph to the interactions of its files: the noise is deleted, and what is left is
    searched. */
module GraphParse {
  import opened Records
  import opened Batching
  import opened Observables
  import opened KnowledgeGraph
  import opened Construction
  import opened LogContents
  import NodeTables
  import opened Ownership
  import opened NoiseReduction
  import opened NoiseTheorems
  import opened NoiseAdjacency
  import opened Interactions

  lemma KeyedIsTable(kg: KG)
    requires kg.TableValid()
    ensures EdgesOnce(kg.edges, kg.objs)
  {
    forall e | e in kg.objs
      ensures InTable(kg.edges, e)
    {
      InTableAt(kg.edges, e.eId, e);
    }
  }

  /** The reducer never stops the program on a graph built from a log. */
  method DeleteLogNoise(kg: KG) returns (ghost tmpOrder: InterMap, ghost order: seq<int>, ghost noisy: set<int>)
    requires kg.Valid() && Owned(kg.Observe())
    modifies kg`fileInter, kg`procInter, kg`edges, kg`noiseNum, kg`objs
    ensures Resorted(old(kg.fileInter), tmpOrder) && Resorted(tmpOrder, kg.fileInter)
    ensures Resorted(old(kg.procInter), kg.procInter) && ListsOwned(kg.fileInter, kg.procInter)
    ensures ReduceNoise.NoiseFound(old(kg.edges), old(kg.objs), tmpOrder,
                                   Tables(kg.nodes, kg.fileInter, kg.procInter), order, {}, noisy)
    ensures Without(old(kg.edges), noisy, kg.edges) && kg.TableValid() && Closed(kg.nodes, kg.edges)
    ensures |old(kg.edges)| == |kg.edges| + kg.noiseNum - old(kg.noiseNum)
  {
    ListsAreOwned(kg);
    ghost var fileInter, procInter := kg.fileInter, kg.procInter;
    var reducer := new ReduceNoise(kg);
    ghost var ok;
    ok, tmpOrder, order := reducer.DeleteNoise();
    noisy := reducer.noisy;
    ResortedTwice(fileInter, tmpOrder, kg.fileInter);
    ResortedOwned(fileInter, procInter, kg.fileInter, kg.procInter);
    LibrariesHaveLists(Tables(kg.nodes, kg.fileInter, kg.procInter));
  }

  /** Noise reduction on a graph built from a log: what it did is a reduction in the sense of the
      adjacency theorems, and what it left is a closed graph. */
  method ReduceGraph(kg: KG) returns (ghost r: Reduction)
    requires kg.Valid() && Owned(kg.Observe())
    modifies kg`fileInter, kg`procInter, kg`edges, kg`noiseNum, kg`objs
    ensures Reduces(r) && r.edges == old(kg.edges) && r.objs == old(kg.objs) && r.left == kg.edges
    ensures r.tb.nodes == kg.nodes && kg.TableValid() && Closed(kg.nodes, kg.edges)
    ensures |old(kg.edges)| == |kg.edges| + kg.noiseNum - old(kg.noiseNum)
    ensures kg.Observe() == old(kg.Observe()) && KG.TraceOf(kg.trace, r.objs) && ListsSorted(r)
    ensures kg.trace == old(kg.trace) && kg.Ids() == old(kg.Ids())
    ensures kg.NodesValid() && kg.Named() == old(kg.Named())
  {
    KeyedIsTable(kg);
    ghost var edges, objs, fileInter, procInter := kg.edges, kg.objs, kg.fileInter, kg.procInter;
    ghost var tmpOrder, order, noisy := DeleteLogNoise(kg);
    r := Reduction(edges, objs, tmpOrder, Tables(kg.nodes, kg.fileInter, kg.procInter), order, noisy, kg.edges);
    IsReduction(r, fileInter, procInter);
  }

  lemma IsReduction(r: Reduction, fileInter: InterMap, procInter: InterMap)
    requires EdgesOnce(r.edges, r.objs) && ListsOwned(r.tb.fileInter, r.tb.procInter)
    requires ListsOver(FileTable, fileInter, r.objs) && ListsOver(ProcTable, procInter, r.objs)
    requires Resorted(fileInter, r.tmpOrder) && Resorted(r.tmpOrder, r.tb.fileInter)
    requires Resorted(procInter, r.tb.procInter)
    requires ReduceNoise.NoiseFound(r.edges, r.objs, r.tmpOrder, r.tb, r.order, {}, r.noisy)
    requires Without(r.edges, r.noisy, r.left)
    ensures Reduces(r) && ListsSorted(r)
  {
    ResortedLists(FileTable, fileInter, r.tmpOrder, r.objs);
    ResortedLists(FileTable, r.tmpOrder, r.tb.fileInter, r.objs);
    ResortedLists(ProcTable, procInter, r.tb.procInter, r.objs);
  }

  lemma ResortedTwice(a: InterMap, b: InterMap, c: InterMap)
    requires Resorted(a, b) && Resorted(b, c)
    ensures Resorted(a, c)
  {
  }

  /** The edges as the search sees them. */
  function ArcsOfGraph(edges: EdgeMap, timeOf: string -> Int64): map<int, Arc>
  {
    map k | k in edges :: Arc(edges[k].info.n1, edges[k].info.n2, timeOf(edges[k].info.timestamp))
  }

  /** The arcs searched are the edges of the graph: from one end to the other, at the time of the edge. */
  lemma ArcsAreEdges(edges: EdgeMap, timeOf: string -> Int64, arcs: set<Arc>)
    requires Explorer.ArcsOf(ArcsOfGraph(edges, timeOf), arcs)
    ensures forall k | k in edges ::
              Arc(edges[k].info.n1, edges[k].info.n2, timeOf(edges[k].info.timestamp)) in arcs
    ensures forall a | a in arcs ::
              exists k :: k in edges && edges[k].info.n1 == a.n1 && edges[k].info.n2 == a.n2 &&
                          timeOf(edges[k].info.timestamp) == a.time
  {
    var m := ArcsOfGraph(edges, timeOf);
    forall k | k in edges
      ensures Arc(edges[k].info.n1, edges[k].info.n2, timeOf(edges[k].info.timestamp)) in arcs
    {
      assert m[k] in arcs;
    }
  }

  lemma ClosedArcs(nodes: map<int, NodeType>, edges: EdgeMap, timeOf: string -> Int64)
    requires Closed(nodes, edges)
    ensures var m := ArcsOfGraph(edges, timeOf); forall k | k in m :: m[k].n1 in nodes && m[k].n2 in nodes
  {
    forall k | k in edges
      ensures edges[k].info.n1 in nodes && edges[k].info.n2 in nodes
    {
      assert !Dangling(nodes, edges[k]);
    }
  }

  /** What the search found on this graph: every file is searched from, or skipped and found in some
      list; each search is closed, as far as it goes, and its list holds exactly what it recorded. */
  ghost predicate Searched(ex: Explorer, nodes: map<int, NodeType>, edges: EdgeMap, timeOf: string -> Int64,
                           arcs: set<Arc>, runs: seq<Run>)
    reads ex
  {
    && ex.nodes == nodes && Explorer.ArcsOf(ArcsOfGraph(edges, timeOf), arcs) && TableSound(arcs, ex.table)
    && ex.AllRun(arcs, runs, {}) && Explorer.OutCounted(ArcsOfGraph(edges, timeOf), ex.children)
    && AllFiled(ArcsOfGraph(edges, timeOf), ex.children, ex.parents)
    && AllWritten(ex.children, ex.parents, ex.table, runs)
    && (forall f | f in nodes && nodes[f] == File :: StartsAt(runs, f) || f in ex.skip)
    && (forall f | f in nodes && nodes[f] == File :: StartsAt(runs, f) || Interactions.Listed(ex.table, f))
    && (forall f | StartsAt(runs, f) :: Explorer.Covered(arcs, ex.table, f))
  }

  /** The search on a closed graph never adds to the node table it goes over. */
  method SearchGraph(kg: KG, timeOf: string -> Int64)
    returns (ex: Explorer, ghost arcs: set<Arc>, ghost runs: seq<Run>)
    requires Closed(kg.nodes, kg.edges)
    ensures fresh(ex) && Searched(ex, kg.nodes, kg.edges, timeOf, arcs, runs)
  {
    ex := new Explorer(kg.nodes);
    ClosedArcs(kg.nodes, kg.edges, timeOf);
    arcs, runs := ex.FindAllObjectInteractions(ArcsOfGraph(kg.edges, timeOf));
  }

  /** The edges before the reduction are those inserted so far; what is left of them is the edge table
      of the graph, which is closed; every file that is left is searched from or found in some search. */
  ghost predicate Parsed(kg: KG, r: Reduction, ex: Explorer, timeOf: string -> Int64, arcs: set<Arc>, runs: seq<Run>)
    reads kg, kg.objs, ex
  {
    && Reduces(r) && ListsSorted(r) && KG.TraceOf(kg.trace, r.objs) && r.tb.nodes == kg.nodes
    && r.left == kg.edges && |r.edges| == |kg.edges| + kg.noiseNum && kg.TableValid() && Closed(kg.nodes, kg.edges)
    && Searched(ex, kg.nodes, kg.edges, timeOf, arcs, runs)
  }

  lemma RowUnder(kg: KG)
    requires kg.TableValid() && kg.TraceValid()
    ensures Under(kg.edges, kg.trace, kg.Ids())
  {
  }

  /** The end of both constructions. */
  method ReduceAndSearch(kg: KG, timeOf: string -> Int64)
    returns (ex: Explorer, ghost r: Reduction, ghost arcs: set<Arc>, ghost runs: seq<Run>)
    requires kg.Valid() && Owned(kg.Observe()) && kg.noiseNum == 0
    modifies kg`fileInter, kg`procInter, kg`edges, kg`noiseNum, kg`objs
    ensures kg.Observe() == old(kg.Observe()) && Parsed(kg, r, ex, timeOf, arcs, runs)
    ensures r.edges == old(kg.edges) && Under(r.edges, kg.trace, kg.Ids()) && kg.Ids() == old(kg.Ids())
    ensures kg.NodesValid() && kg.Named() == old(kg.Named())
  {
    RowUnder(kg);
    ghost var names := kg.Named();
    r := ReduceGraph(kg);
    assert kg.NodesValid() && kg.Named() == names;
    ex, arcs, runs := SearchGraph(kg, timeOf);
    assert kg.NodesValid() && kg.Named() == names;
  }

  // ---- Nodes and identifiers of a log -------------------------------------------------------------

  predicate KindsApart(procs: set<int>, files: set<int>, sockets: set<int>)
  {
    procs !! files && procs !! sockets && files !! sockets
  }

  /** Every node is of the kind of the one table that has it, exactly when no two tables share a key. */
  lemma TypedIffApart(nodes: map<int, NodeType>, procs: set<int>, files: set<int>, sockets: set<int>)
    requires NodesOf(nodes, procs, files, sockets)
    ensures NodeTables.TypedUnion(nodes, procs, files, sockets) <==> KindsApart(procs, files, sockets)
  {
    if NodeTables.TypedUnion(nodes, procs, files, sockets) {
      TypedApart(nodes, procs, files, sockets);
    } else if KindsApart(procs, files, sockets) {
      ApartTyped(nodes, procs, files, sockets);
    }
  }

  lemma TypedApart(nodes: map<int, NodeType>, procs: set<int>, files: set<int>, sockets: set<int>)
    requires NodeTables.TypedUnion(nodes, procs, files, sockets)
    ensures KindsApart(procs, files, sockets)
  {
    assert NodeTables.OfKind(nodes, Proc, procs) && NodeTables.OfKind(nodes, File, files);
    assert NodeTables.OfKind(nodes, Socket, sockets);
    assert forall k :: !(k in procs && k in files) && !(k in procs && k in sockets) && !(k in files && k in sockets);
  }

  lemma ApartTyped(nodes: map<int, NodeType>, procs: set<int>, files: set<int>, sockets: set<int>)
    requires NodesOf(nodes, procs, files, sockets) && KindsApart(procs, files, sockets)
    ensures NodeTables.TypedUnion(nodes, procs, files, sockets)
  {
    forall k
      ensures k in nodes ==> nodes[k] == Proc || nodes[k] == File || nodes[k] == Socket
      ensures k in procs <==> k in nodes && nodes[k] == Proc
      ensures k in files <==> k in nodes && nodes[k] == File
      ensures k in sockets <==> k in nodes && nodes[k] == Socket
    {
      assert k in nodes <==> k in procs || k in files || k in sockets;
      assert k in nodes ==> NamesTable(nodes[k], k, procs, files, sockets);
    }
  }

  /** The files of a log: described as such, and not as a process or a socket too. */
  predicate OnlyFile(dataset: int, lines: seq<Record>, id: int)
  {
    SomeFile(dataset, lines, id) && !SomeProc(dataset, lines, id) && !SomeSocket(lines, id)
  }

  /** The graph holds what the lines say, every node has a kind and a name it is described with, and
      every file is searched from or found in some search. */
  ghost predicate HoldsLog(kg: KG, ex: Explorer, dataset: int, lines: seq<Record>, runs: seq<Run>)
    reads kg, ex
  {
    && LogInGraph(dataset, lines, kg.Observe()) && kg.NodesValid() && NamedFrom(dataset, lines, kg.Named())
    && (NodeTables.TypedUnion(kg.nodes, kg.procs.Keys, kg.files.Keys, kg.sockets.Keys) <==>
        KindsApart(kg.procs.Keys, kg.files.Keys, kg.sockets.Keys))
    && (forall id | OnlyFile(dataset, lines, id) :: id in kg.nodes && kg.nodes[id] == File)
    && (forall id | OnlyFile(dataset, lines, id) :: StartsAt(runs, id) || Interactions.Listed(ex.table, id))
  }

  lemma LogHeld(kg: KG, ex: Explorer, dataset: int, lines: seq<Record>, timeOf: string -> Int64, arcs: set<Arc>,
                runs: seq<Run>)
    requires LogInGraph(dataset, lines, kg.Observe()) && kg.NodesValid() && NamedFrom(dataset, lines, kg.Named())
    requires Searched(ex, kg.nodes, kg.edges, timeOf, arcs, runs)
    ensures HoldsLog(kg, ex, dataset, lines, runs)
  {
    TypedIffApart(kg.nodes, kg.procs.Keys, kg.files.Keys, kg.sockets.Keys);
    forall id | OnlyFile(dataset, lines, id)
      ensures id in kg.nodes && kg.nodes[id] == File
    {
      var o := kg.Observe();
      assert id in o.files && id !in o.procs && id !in o.sockets;
      assert NamesTable(kg.nodes[id], id, kg.procs.Keys, kg.files.Keys, kg.sockets.Keys);
    }
  }

  /** From a built graph to its interactions. */
  method ParseBuilt(kg: KG, dataset: int, ghost lines: seq<Record>, timeOf: string -> Int64)
    returns (ex: Explorer, ghost r: Reduction, ghost arcs: set<Arc>, ghost runs: seq<Run>)
    requires kg.Valid() && Owned(kg.Observe()) && kg.noiseNum == 0 && LogInGraph(dataset, lines, kg.Observe())
    requires NamedFrom(dataset, lines, kg.Named())
    modifies kg`fileInter, kg`procInter, kg`edges, kg`noiseNum, kg`objs
    ensures kg.Observe() == old(kg.Observe()) && Parsed(kg, r, ex, timeOf, arcs, runs)
    ensures HoldsLog(kg, ex, dataset, lines, runs) && Under(r.edges, kg.trace, kg.Ids()) && kg.Ids() == old(kg.Ids())
    ensures kg.Named() == old(kg.Named())
  {
    ex, r, arcs, runs := ReduceAndSearch(kg, timeOf);
    LogHeld(kg, ex, dataset, lines, timeOf, arcs, runs);
  }

  /** The graph of a log before the reduction. */
  method BuildGraph(dataset: int, lines: seq<Record>) returns (kg: KG)
    ensures fresh(kg) && kg.Valid() && kg.noiseNum == 0
    ensures kg.Observe() == ApplyAll(dataset, EMPTY_OBS, lines) && Probed([], kg.Ids(), AskedByAll(dataset, lines))
    ensures kg.Named() == NamingAll(dataset, NO_NAMES, lines)
  {
    kg := new KG();
    ProcessLog(dataset, lines, kg);
  }

  /** A DARPA log in one pass: nodes, event count and inserted edges are those its records specify. */
  method KGDarpaParse(dataset: int, lines: seq<Record>, timeOf: string -> Int64)
    returns (kg: KG, ex: Explorer, ghost r: Reduction, ghost arcs: set<Arc>, ghost runs: seq<Run>)
    ensures kg.Observe() == ApplyAll(dataset, EMPTY_OBS, lines)
    ensures Parsed(kg, r, ex, timeOf, arcs, runs) && HoldsLog(kg, ex, dataset, lines, runs)
    ensures PutInto(r.edges, kg.trace, AskedByAll(dataset, lines)) && NamedFirst(dataset, lines, kg.Named())
  {
    kg := BuildGraph(dataset, lines);
    NamesOfLog(dataset, lines);
    NamingFrom(dataset, lines, lines);
    LogsAreOwned(dataset, lines);
    GraphOfLog(dataset, lines);
    ex, r, arcs, runs := ParseBuilt(kg, dataset, lines, timeOf);
    assert PutAt(r.edges, kg.trace, AskedByAll(dataset, lines), kg.Ids());
  }

  /** The same from the batches of the log, whose sub-graphs arrive in any order: nodes, event count
      and inserted edges are those of one pass, up to the order of the edges. */
  method MultithreadConstruction(dataset: int, ghost lines: seq<Record>, ghost size: nat, arrivals: seq<seq<Record>>,
                                 timeOf: string -> Int64)
    returns (kg: KG, ex: Explorer, ghost r: Reduction, ghost arcs: set<Arc>, ghost runs: seq<Run>)
    requires size >= 1 && multiset(arrivals) == multiset(Chunks(lines, size))
    ensures Same(kg.Observe(), ApplyAll(dataset, EMPTY_OBS, lines))
    ensures Parsed(kg, r, ex, timeOf, arcs, runs) && HoldsLog(kg, ex, dataset, lines, runs)
  {
    kg := ConsumeGraphs(dataset, arrivals);
    ThreadedRefinesSequential(dataset, lines, size, arrivals);
    LogsAreOwned(dataset, lines);
    SameAreOwned(ApplyAll(dataset, EMPTY_OBS, lines), kg.Observe());
    SameContents(dataset, lines, kg.Observe());
    NamesOfArrivals(dataset, lines, size, arrivals);
    ex, r, arcs, runs := ParseBuilt(kg, dataset, lines, timeOf);
  }
}
