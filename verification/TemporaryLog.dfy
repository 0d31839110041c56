/** A log that the temporary file pass takes apart: what one process does to one file. */
module TemporaryLog {
  import opened Basics
  import opened Records
  import opened Observables
  import opened KnowledgeGraph
  import opened Construction
  import opened NoiseReduction
  import opened NoiseAdjacency
  import opened Interactions
  import opened GraphParse

  /** An event of this kind by the process `p` on the file `f`. */
  predicate Does(r: Record, kind: EventKind, p: int, f: int)
  {
    r.Event? && r.kind == kind && r.sub == p && r.obj == f
  }

  /** The records of a process and of a file, which the process then creates, writes, unlinks and
      writes again. */
  predicate WritesAgain(lines: seq<Record>, p: int, f: int)
  {
    && |lines| == 6 && p != f && lines[0].Subject? && lines[0].id == p && lines[1].FileObject? && lines[1].id == f
    && Does(lines[2], EvCreate, p, f) && Does(lines[3], EvWrite, p, f)
    && Does(lines[4], EvUnlink, p, f) && Does(lines[5], EvWrite, p, f)
    && lines[2].seqNum < lines[3].seqNum < lines[4].seqNum < lines[5].seqNum
  }

  /** The edge of an event by a process on a file. */
  function EdgeFor(r: Record, relation: EdgeType): Edge
    requires r.Event?
  {
    Edge(EdgeInfo(r.sub, r.obj, relation, r.seqNum, 0, r.timestamp, r.uuid), Lists(r.obj, r.sub))
  }

  /** What the graph is after some of the lines. */
  predicate After(dataset: int, lines: seq<Record>, n: nat, nodes: set<int>, es: seq<Edge>)
    requires n <= |lines|
  {
    var o := ApplyAll(dataset, EMPTY_OBS, lines[..n]);
    o.nodes == nodes && o.edges == es
  }

  /** The relation of the edge that such an event adds. */
  function RelationOf(kind: EventKind): EdgeType
  {
    match kind
    case EvCreate => Create
    case EvUnlink => Delete
    case _ => Write
  }

  lemma OneMoreEdge(dataset: int, lines: seq<Record>, n: nat, nodes: set<int>, es: seq<Edge>, e: Edge)
    requires n < |lines| && After(dataset, lines, n, nodes, es) && lines[n].Event?
    requires lines[n].kind == EvCreate || lines[n].kind == EvUnlink || lines[n].kind == EvWrite
    requires e == EdgeFor(lines[n], RelationOf(lines[n].kind))
    ensures After(dataset, lines, n + 1, nodes, es + [e])
  {
    ApplyNext(dataset, EMPTY_OBS, lines, n);
  }

  lemma NodesFirst(dataset: int, lines: seq<Record>, p: int, f: int)
    requires WritesAgain(lines, p, f) && (dataset == 0 || dataset == 1)
    ensures After(dataset, lines, 2, {p, f}, [])
  {
    assert lines[..0] == [];
    ApplyNext(dataset, EMPTY_OBS, lines, 0);
    ApplyNext(dataset, EMPTY_OBS, lines, 1);
  }

  /** The edges of the four events. */
  function FourEdges(lines: seq<Record>): seq<Edge>
    requires |lines| == 6 && lines[2].Event? && lines[3].Event? && lines[4].Event? && lines[5].Event?
  {
    [EdgeFor(lines[2], Create)] + [EdgeFor(lines[3], Write)] + [EdgeFor(lines[4], Delete)] + [EdgeFor(lines[5], Write)]
  }

  lemma TwoEdges(dataset: int, lines: seq<Record>, p: int, f: int)
    requires WritesAgain(lines, p, f) && (dataset == 0 || dataset == 1)
    ensures After(dataset, lines, 4, {p, f}, [EdgeFor(lines[2], Create)] + [EdgeFor(lines[3], Write)])
  {
    NodesFirst(dataset, lines, p, f);
    OneMoreEdge(dataset, lines, 2, {p, f}, [], EdgeFor(lines[2], Create));
    assert [] + [EdgeFor(lines[2], Create)] == [EdgeFor(lines[2], Create)];
    OneMoreEdge(dataset, lines, 3, {p, f}, [EdgeFor(lines[2], Create)], EdgeFor(lines[3], Write));
  }

  lemma EdgesOfLog(dataset: int, lines: seq<Record>, p: int, f: int)
    requires WritesAgain(lines, p, f) && (dataset == 0 || dataset == 1)
    ensures var o := ApplyAll(dataset, EMPTY_OBS, lines); o.nodes == {p, f} && o.edges == FourEdges(lines)
  {
    var es := [EdgeFor(lines[2], Create)] + [EdgeFor(lines[3], Write)];
    TwoEdges(dataset, lines, p, f);
    OneMoreEdge(dataset, lines, 4, {p, f}, es, EdgeFor(lines[4], Delete));
    OneMoreEdge(dataset, lines, 5, {p, f}, es + [EdgeFor(lines[4], Delete)], EdgeFor(lines[5], Write));
    assert lines[..6] == lines;
  }

  predicate InSequence(es: seq<KGEdge>)
  {
    forall i, j :: 0 <= i < j < |es| ==> es[i].info.seqNum < es[j].info.seqNum
  }

  lemma FirstIsMember<T>(list: seq<T>)
    ensures list == [] || list[0] in list
  {
  }

  /** Edges with different sequence numbers can be sorted in one way only. */
  lemma {:induction false} SortedInSequence(list: seq<KGEdge>, es: seq<KGEdge>)
    requires Distinct(list) && Sorted(list) && InSequence(es) && forall e :: e in list <==> e in es
    ensures list == es
    decreases |es|
  {
    FirstIsMember(list);
    if es != [] {
      var n, m := |es| - 1, |list| - 1;
      assert es[n] in list;
      var i :| 0 <= i < |list| && list[i] == es[n];
      assert list[m] in es;
      assert i == m;
      forall e
        ensures e in list[..m] <==> e in es[..n]
      {
        assert e in list <==> e in list[..m] || e == list[m];
        assert e in es <==> e in es[..n] || e == es[n];
      }
      SortedInSequence(list[..m], es[..n]);
      assert list == list[..m] + [list[m]] && es == es[..n] + [es[n]];
    }
  }

  /** The edges of the log, in the order of the log, are the list of the file. */
  lemma ListIsTrace(m: InterMap, trace: seq<KGEdge>, objs: set<KGEdge>, f: int)
    requires ListsOver(FileTable, m, objs) && AllSorted(m) && KG.TraceOf(trace, objs) && InSequence(trace)
    requires trace != [] && forall i | 0 <= i < |trace| :: trace[i].noted.Lists? && trace[i].noted.file == f
    ensures f in m && m[f] == trace
  {
    forall e | e in trace
      ensures IsListed(m, f, e)
    {
    }
    assert IsListed(m, f, trace[0]);
    assert ListOver(FileTable, f, m[f], objs);
    SortedInSequence(m[f], trace);
  }

  /** The edges of the log are those of the file's list, created, written, deleted and written again. */
  lemma TraceIsWrittenAgain(trace: seq<KGEdge>, lines: seq<Record>, p: int, f: int)
    requires WritesAgain(lines, p, f) && Describe(trace) == FourEdges(lines)
    ensures WrittenAgain(f, p, trace) && InSequence(trace)
    ensures forall i | 0 <= i < |trace| :: trace[i].noted == Lists(f, p)
  {
    assert |trace| == |Describe(trace)| == 4;
    forall i | 0 <= i < 4
      ensures trace[i].info == FourEdges(lines)[i].info && trace[i].noted == FourEdges(lines)[i].noted
    {
      assert Describe(trace)[i] == FourEdges(lines)[i];
    }
  }

  lemma TraceSeparates(r: Reduction, trace: seq<KGEdge>, lines: seq<Record>, p: int, f: int)
    requires Reduces(r) && ListsSorted(r) && KG.TraceOf(trace, r.objs)
    requires WritesAgain(lines, p, f) && Describe(trace) == FourEdges(lines)
    ensures Joined(r.edges, p, f) && !Joined(r.left, p, f)
  {
    TraceIsWrittenAgain(trace, lines, p, f);
    ListIsTrace(r.tmpOrder, trace, r.objs, f);
    ListIsTrace(r.tb.fileInter, trace, r.objs, f);
    TemporaryFilesBreakAdjacency(r, f, p);
  }

  /** The pair is joined by four edges before the noise reduction and by none after it, although both
      are still nodes. */
  method WrittenAgainLog(dataset: int, lines: seq<Record>, p: int, f: int, timeOf: string -> Int64)
    returns (kg: KG, ghost r: Reduction)
    requires WritesAgain(lines, p, f) && (dataset == 0 || dataset == 1)
    ensures Reduces(r) && r.left == kg.edges && p in kg.nodes && f in kg.nodes
    ensures Joined(r.edges, p, f) && !Joined(kg.edges, p, f)
  {
    var ex;
    ghost var arcs, runs;
    kg, ex, r, arcs, runs := KGDarpaParse(dataset, lines, timeOf);
    EdgesOfLog(dataset, lines, p, f);
    TraceSeparates(r, kg.trace, lines, p, f);
    assert p in kg.Observe().nodes && f in kg.Observe().nodes;
  }
}
