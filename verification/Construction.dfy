/** Building the graph from a log: in one pass, or from the sub-graphs of its batches. */
module Construction {
  import opened Records
  import opened Batching
  import opened Observables
  import opened Iteration
  import opened KnowledgeGraph
  import opened Pipeline
  import opened PipelineTermination

  /** The sub-graph of one batch. */
  method SubKGConstruction(dataset: int, batch: seq<Record>) returns (kg: KG)
    ensures fresh(kg) && kg.Valid() && (forall e :: e in kg.objs ==> fresh(e))
    ensures kg.Observe() == ApplyAll(dataset, EMPTY_OBS, batch) && kg.Named() == NamingAll(dataset, NO_NAMES, batch)
  {
    kg := new KG();
    ProcessLog(dataset, batch, kg);
  }

  /** One pass over the log: events are counted on the side and added at the end. */
  method ProcessLog(dataset: int, lines: seq<Record>, kg: KG)
    requires kg.Valid()
    modifies kg
    ensures kg.Valid() && (forall e :: e in kg.objs && e !in old(kg.objs) ==> fresh(e))
    ensures kg.Observe() == ApplyAll(dataset, old(kg.Observe()), lines) && kg.noiseNum == old(kg.noiseNum)
    ensures Probed(old(kg.Ids()), kg.Ids(), AskedByAll(dataset, lines))
    ensures kg.Named() == NamingAll(dataset, old(kg.Named()), lines)
  {
    var analyzed := 0;
    ghost var o := kg.Observe();
    var k := 0;
    while k < |lines|
      invariant 0 <= k <= |lines| && kg.Valid() && kg.noiseNum == old(kg.noiseNum)
      invariant forall e :: e in kg.objs && e !in old(kg.objs) ==> fresh(e)
      invariant kg.eventNum == o.events
      invariant kg.Observe() == ApplyAll(dataset, o, lines[..k]).(events := o.events)
      invariant ApplyAll(dataset, o, lines[..k]).events == o.events + analyzed
      invariant Probed(old(kg.Ids()), kg.Ids(), AskedByAll(dataset, lines[..k]))
      invariant kg.Named() == NamingAll(dataset, old(kg.Named()), lines[..k])
    {
      ghost var p := ApplyAll(dataset, o, lines[..k]);
      ghost var ids := kg.Ids();
      var counted := kg.ProcessRecord(dataset, lines[k]);
      AskedNext(dataset, lines, k, old(kg.Ids()), ids, kg.Ids());
      ApplyNext(dataset, o, lines, k);
      NamingNext(dataset, old(kg.Named()), lines, k);
      ApplyEvents(dataset, p, o.events, lines[k]);
      analyzed := if counted then analyzed + 1 else analyzed;
      k := k + 1;
    }
    assert lines[..k] == lines;
    kg.eventNum := kg.eventNum + analyzed;
  }

  lemma AskedNext(dataset: int, lines: seq<Record>, k: nat, a: seq<int>, b: seq<int>, c: seq<int>)
    requires k < |lines| && Probed(a, b, AskedByAll(dataset, lines[..k])) && Probed(b, c, AskedBy(dataset, lines[k]))
    ensures Probed(a, c, AskedByAll(dataset, lines[..k + 1]))
  {
    assert lines[..k + 1][..k] == lines[..k];
    ProbedTrans(a, b, c, AskedByAll(dataset, lines[..k]), AskedBy(dataset, lines[k]));
  }

  lemma ApplyNext(dataset: int, o: Obs, lines: seq<Record>, k: nat)
    requires k < |lines|
    ensures ApplyAll(dataset, o, lines[..k + 1]) == Apply(dataset, ApplyAll(dataset, o, lines[..k]), lines[k])
  {
    assert lines[..k + 1][..k] == lines[..k];
  }

  lemma NamingNext(dataset: int, n: Names, lines: seq<Record>, k: nat)
    requires k < |lines|
    ensures NamingAll(dataset, n, lines[..k + 1]) == Naming(dataset, NamingAll(dataset, n, lines[..k]), lines[k])
  {
    assert lines[..k + 1][..k] == lines[..k];
  }

  lemma ApplyEvents(dataset: int, o: Obs, n: nat, r: Record)
    ensures Apply(dataset, o.(events := n), r).(events := n) == Apply(dataset, o, r).(events := n)
    ensures Apply(dataset, o, r).events == o.events + (if r.Event? && Analyzed(r) then 1 else 0)
  {
  }

  // ---- MergeGraph, table by table, in whatever order the tables are iterated ----------------

  /** One node table is entered into another, and its keys into the node table with their kind. */
  ghost predicate Entering(nodes: map<int, NodeType>, ids: set<int>, kind: NodeType, r: map<int, NodeType>)
  {
    r.Keys == nodes.Keys + ids && forall k | k in r :: r[k] == if k in ids then kind else nodes[k]
  }

  method MergeTable<V>(mine: map<int, V>, theirs: map<int, V>, nodes: map<int, NodeType>, kind: NodeType)
    returns (r: map<int, V>, nodes': map<int, NodeType>)
    ensures r == mine + theirs && Entering(nodes, theirs.Keys, kind, nodes')
  {
    r, nodes' := mine, nodes;
    var todo := theirs.Keys;
    while todo != {}
      invariant todo <= theirs.Keys && r == mine + (theirs - todo)
      invariant Entering(nodes, theirs.Keys - todo, kind, nodes')
      decreases todo
    {
      var h := Pick(todo);
      r, nodes' := r[h := theirs[h]], nodes'[h := kind];
      todo := todo - {h};
    }
    assert theirs - {} == theirs && theirs.Keys - {} == theirs.Keys;
  }

  lemma EnteredKeeps(nodes: map<int, NodeType>, procs: set<int>, files: set<int>, sockets: set<int>,
                     p: set<int>, f: set<int>, s: set<int>,
                     a: map<int, NodeType>, b: map<int, NodeType>, c: map<int, NodeType>)
    requires NodesOf(nodes, procs, files, sockets)
    requires Entering(nodes, p, Proc, a) && Entering(a, f, File, b) && Entering(b, s, Socket, c)
    ensures NodesOf(c, procs + p, files + f, sockets + s) && c.Keys == nodes.Keys + (p + f + s)
  {
    forall k | k in c
      ensures NamesTable(c[k], k, procs + p, files + f, sockets + s)
    {
      if k !in s && k !in f && k !in p {
        assert k in nodes && c[k] == nodes[k];
      }
    }
  }

  /** Every edge of the sub-graph is probed into the table; none is lost or overwritten. */
  method MergeEdges(sub: KG, kg: KG)
    requires kg.TableValid() && sub.TableValid() && kg != sub && kg.objs !! sub.objs
    modifies kg`edges, kg`objs, sub.objs
    ensures kg.TableValid() && kg.objs == old(kg.objs) + sub.objs
  {
    var todo := sub.edges.Keys;
    ghost var left := sub.objs;
    while todo != {}
      invariant todo <= sub.edges.Keys && kg.TableValid() && left <= sub.objs
      invariant kg.objs == old(kg.objs) + (sub.objs - left)
      invariant forall k | k in todo :: sub.edges[k].eId == k && sub.edges[k] in left
      invariant forall e | e in left :: e.eId in todo && sub.edges[e.eId] == e
      decreases todo
    {
      var k := Pick(todo);
      var e := sub.edges[k];
      kg.InsertEdge(k, e);
      left := left - {e};
      todo := todo - {k};
    }
    assert left == {};
  }

  /** Key by key, our list followed by theirs. */
  predicate JoinOf(mine: InterMap, theirs: InterMap, r: InterMap)
  {
    && r.Keys == mine.Keys + theirs.Keys
    && forall k | k in r :: r[k] == (if k in mine then mine[k] else []) + (if k in theirs then theirs[k] else [])
  }

  /** Appending each whole list, or adopting it when the file or process is new. */
  method JoinLists(mine: InterMap, theirs: InterMap) returns (r: InterMap)
    ensures JoinOf(mine, theirs, r)
  {
    r := mine;
    var todo := theirs.Keys;
    while todo != {}
      invariant todo <= theirs.Keys && JoinOf(mine, theirs - todo, r)
      decreases todo
    {
      var k := Pick(todo);
      if k in r {
        r := r[k := r[k] + theirs[k]];
      } else {
        r := r[k := theirs[k]];
      }
      todo := todo - {k};
    }
    assert theirs - {} == theirs;
  }

  lemma JoinedListOver(t: Table, k: int, xs: seq<KGEdge>, ys: seq<KGEdge>, a: set<KGEdge>, b: set<KGEdge>)
    requires a !! b && ListOver(t, k, xs, a) && ListOver(t, k, ys, b)
    ensures ListOver(t, k, xs + ys, a + b)
  {
  }

  lemma JoinIsOver(t: Table, mine: InterMap, theirs: InterMap, r: InterMap, a: set<KGEdge>, b: set<KGEdge>)
    requires a !! b && ListsOver(t, mine, a) && ListsOver(t, theirs, b) && JoinOf(mine, theirs, r)
    ensures ListsOver(t, r, a + b)
  {
    forall k | k in r
      ensures ListOver(t, k, r[k], a + b)
    {
      if k in mine && k in theirs {
        JoinedListOver(t, k, mine[k], theirs[k], a, b);
      } else {
        assert r[k] == if k in mine then mine[k] else theirs[k];
      }
    }
    forall e | e in a + b && NotedIn(t, e.noted)
      ensures IsListed(r, KeyIn(t, e.noted), e)
    {
      assert IsListed(if e in a then mine else theirs, KeyIn(t, e.noted), e);
    }
  }

  method MergeNodes(sub: KG, kg: KG)
    requires kg.NodesValid() && sub.NodesValid() && kg != sub
    modifies kg`procs, kg`files, kg`sockets, kg`nodes
    ensures kg.NodesValid()
    ensures kg.procs == old(kg.procs) + sub.procs && kg.files == old(kg.files) + sub.files
    ensures kg.sockets == old(kg.sockets) + sub.sockets
    ensures kg.nodes.Keys == old(kg.nodes).Keys + sub.nodes.Keys
  {
    var procs, a := MergeTable(kg.procs, sub.procs, kg.nodes, Proc);
    var files, b := MergeTable(kg.files, sub.files, a, File);
    var sockets, c := MergeTable(kg.sockets, sub.sockets, b, Socket);
    EnteredKeeps(kg.nodes, kg.procs.Keys, kg.files.Keys, kg.sockets.Keys, sub.procs.Keys, sub.files.Keys,
                 sub.sockets.Keys, a, b, c);
    kg.procs, kg.files, kg.sockets, kg.nodes := procs, files, sockets, c;
  }

  method MergeInteractions(sub: KG, kg: KG, ghost mine: set<KGEdge>)
    requires kg != sub && mine !! sub.objs && kg.objs == mine + sub.objs && sub.ListsValid()
    requires ListsOver(FileTable, kg.fileInter, mine) && ListsOver(ProcTable, kg.procInter, mine)
    modifies kg`fileInter, kg`procInter
    ensures kg.ListsValid()
  {
    var files := JoinLists(kg.fileInter, sub.fileInter);
    var procs := JoinLists(kg.procInter, sub.procInter);
    JoinIsOver(FileTable, kg.fileInter, sub.fileInter, files, mine, sub.objs);
    JoinIsOver(ProcTable, kg.procInter, sub.procInter, procs, mine, sub.objs);
    kg.fileInter, kg.procInter := files, procs;
  }

  lemma TracesJoin(xs: seq<KGEdge>, ys: seq<KGEdge>, a: set<KGEdge>, b: set<KGEdge>)
    requires a !! b && KG.TraceOf(xs, a) && KG.TraceOf(ys, b)
    ensures KG.TraceOf(xs + ys, a + b) && Describe(xs + ys) == Describe(xs) + Describe(ys)
  {
  }

  /** The edges, in the order of the two graphs. */
  method MergeTraced(sub: KG, kg: KG)
    requires kg.TableValid() && kg.TraceValid() && kg != sub && kg.objs !! sub.objs
    requires sub.TableValid() && sub.TraceValid()
    modifies kg`edges, kg`objs, kg`trace, sub.objs
    ensures kg.TableValid() && kg.TraceValid() && kg.objs == old(kg.objs) + sub.objs
    ensures Describe(kg.trace) == Describe(old(kg.trace)) + Describe(sub.trace)
  {
    TracesJoin(kg.trace, sub.trace, kg.objs, sub.objs);
    kg.trace := kg.trace + sub.trace;
    MergeEdges(sub, kg);
  }

  /** Nodes, edges and the event count; the interaction lists of both graphs stay as they are. */
  method MergeTables(sub: KG, kg: KG)
    requires kg.TableValid() && kg.NodesValid() && kg.TraceValid() && kg != sub && kg.objs !! sub.objs
    requires sub.TableValid() && sub.NodesValid() && sub.TraceValid()
    modifies kg`eventNum, kg`procs, kg`files, kg`sockets, kg`nodes, kg`edges, kg`objs, kg`trace, sub.objs
    ensures kg.TableValid() && kg.NodesValid() && kg.TraceValid() && kg.objs == old(kg.objs) + sub.objs
    ensures kg.procs == old(kg.procs) + sub.procs && kg.files == old(kg.files) + sub.files
    ensures kg.sockets == old(kg.sockets) + sub.sockets
    ensures kg.nodes.Keys == old(kg.nodes).Keys + sub.nodes.Keys && kg.eventNum == old(kg.eventNum) + sub.eventNum
    ensures Describe(kg.trace) == Describe(old(kg.trace)) + Describe(sub.trace)
  {
    kg.eventNum := kg.eventNum + sub.eventNum;
    MergeNodes(sub, kg);
    MergeTraced(sub, kg);
  }

  /** Merging one sub-graph; its edge objects move over, with new identifiers where needed. */
  method MergeGraph(sub: KG, kg: KG)
    requires kg.Valid() && sub.Valid() && kg != sub && kg.objs !! sub.objs
    modifies kg`eventNum, kg`procs, kg`files, kg`sockets, kg`nodes, kg`edges, kg`objs, kg`trace, sub.objs
    modifies kg`fileInter, kg`procInter
    ensures kg.Valid() && kg.objs == old(kg.objs) + sub.objs
    ensures kg.Observe() == Merge(old(kg.Observe()), old(sub.Observe()))
    ensures kg.Named() == MergeNames(old(kg.Named()), sub.Named())
  {
    MergeTables(sub, kg);
    MergeInteractions(sub, kg, old(kg.objs));
  }

  lemma MergeAllNext(dataset: int, arrivals: seq<seq<Record>>, k: nat)
    requires k < |arrivals|
    ensures MergeAll(dataset, arrivals[..k + 1]) ==
            Merge(MergeAll(dataset, arrivals[..k]), ApplyAll(dataset, EMPTY_OBS, arrivals[k]))
  {
    assert arrivals[..k + 1] == arrivals[..k] + [arrivals[k]];
    MergeAllSnoc(dataset, arrivals[..k], arrivals[k]);
  }

  /** The sub-graph of one batch is built and merged. */
  method MergeBatch(dataset: int, batch: seq<Record>, kg: KG)
    requires kg.Valid()
    modifies kg`eventNum, kg`procs, kg`files, kg`sockets, kg`nodes, kg`edges, kg`objs, kg`trace
    modifies kg`fileInter, kg`procInter
    ensures kg.Valid() && kg.Observe() == Merge(old(kg.Observe()), ApplyAll(dataset, EMPTY_OBS, batch))
    ensures kg.Named() == MergeNames(old(kg.Named()), NamingAll(dataset, NO_NAMES, batch))
  {
    var sub := SubKGConstruction(dataset, batch);
    MergeGraph(sub, kg);
  }

  method MergeArrivals(dataset: int, arrivals: seq<seq<Record>>, kg: KG)
    requires kg.Valid() && kg.Observe() == EMPTY_OBS && kg.Named() == NO_NAMES
    modifies kg`eventNum, kg`procs, kg`files, kg`sockets, kg`nodes, kg`edges, kg`objs, kg`trace
    modifies kg`fileInter, kg`procInter
    ensures kg.Valid() && kg.Observe() == MergeAll(dataset, arrivals)
    ensures kg.Named() == MergeAllNames(dataset, arrivals)
  {
    for k := 0 to |arrivals|
      invariant kg.Valid() && kg.Observe() == MergeAll(dataset, arrivals[..k])
      invariant kg.Named() == MergeAllNames(dataset, arrivals[..k])
    {
      MergeAllNext(dataset, arrivals, k);
      assert arrivals[..k + 1][..k] == arrivals[..k];
      MergeBatch(dataset, arrivals[k], kg);
    }
    assert arrivals[..|arrivals|] == arrivals;
  }

  /** The merger's side of the pipeline: sub-graphs arrive in some order and are merged. */
  method ConsumeGraphs(dataset: int, arrivals: seq<seq<Record>>) returns (kg: KG)
    ensures fresh(kg) && kg.Valid() && kg.Observe() == MergeAll(dataset, arrivals) && kg.noiseNum == 0
    ensures kg.Named() == MergeAllNames(dataset, arrivals)
  {
    kg := new KG();
    MergeArrivals(dataset, arrivals, kg);
  }

  /** End to end: in every maximal run of the pipeline on a log of fewer than 2^32 batches, merging
      the sub-graphs in the order the merger received them gives the graph of a single pass. */
  lemma PipelineBuildsSequentialGraph(dataset: int, c: Config, states: seq<State>, actors: seq<Actor>)
    requires IsRun(c, states, actors) && |Chunks(c.lines, c.batchSize)| < MULTI_RANGE
    requires Shape(c, states[|actors|])
    requires forall a: Actor :: !a.Spurious() ==> !Enabled(c, states[|actors|], a)
    ensures Same(MergeAll(dataset, states[|actors|].merged), ApplyAll(dataset, EMPTY_OBS, c.lines))
  {
    MaximalRun(c, states, actors);
    ThreadedRefinesSequential(dataset, c.lines, c.batchSize, states[|actors|].merged);
  }
}
