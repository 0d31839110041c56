/** Which node's interaction list an access is noted in, established for every graph built from a
    log: writes and sends point into the file that lists them, reads, receives and loads into the
    process that lists them, and a loaded file has a list of its own. */
module Ownership {
  import opened Records
  import opened Observables
  import opened KnowledgeGraph
  import opened ShadowSpec

  predicate OwnedByFile(file: int, info: EdgeInfo)
  {
    && (info.n1 == file || info.n2 == file)
    && (IsWriteOrSend(info.relation) ==> info.n2 == file)
    && (info.relation == Load ==> info.n1 == file)
  }

  predicate OwnedByProc(proc: int, info: EdgeInfo)
  {
    IsReadOrRecv(info.relation) || info.relation == Load ==> info.n2 == proc
  }

  predicate OwnedEdge(e: Edge)
  {
    && (!e.noted.Nowhere? ==> OwnedByFile(e.noted.file, e.info))
    && (e.noted.Lists? ==> OwnedByProc(e.noted.proc, e.info))
  }

  predicate Owned(o: Obs)
  {
    forall k :: 0 <= k < |o.edges| ==> OwnedEdge(o.edges[k])
  }

  lemma EventsOwned(dataset: int, ev: Record)
    requires ev.Event?
    ensures forall k :: 0 <= k < |EdgesOf(dataset, ev)| ==> OwnedEdge(EdgesOf(dataset, ev)[k].edge)
  {
  }

  /** Every graph built from a log in one pass is owned, and so is every graph with the same edges. */
  lemma {:induction false} LogsAreOwned(dataset: int, lines: seq<Record>)
    ensures Owned(ApplyAll(dataset, EMPTY_OBS, lines))
    decreases |lines|
  {
    if lines != [] {
      var r := lines[|lines| - 1];
      LogsAreOwned(dataset, lines[..|lines| - 1]);
      if r.Event? {
        EventsOwned(dataset, r);
      }
    }
  }

  lemma SameAreOwned(a: Obs, b: Obs)
    requires Same(a, b) && Owned(a)
    ensures Owned(b)
  {
    forall k | 0 <= k < |b.edges|
      ensures OwnedEdge(b.edges[k])
    {
      assert b.edges[k] in multiset(a.edges);
    }
  }

  /** The same facts, list by list. */
  ghost predicate ListsOwned(fileInter: InterMap, procInter: InterMap)
  {
    && (forall f | f in fileInter :: FileListOwned(f, fileInter[f]))
    && (forall p | p in procInter :: ProcListOwned(p, procInter[p], fileInter))
  }

  ghost predicate FileListOwned(f: int, es: seq<KGEdge>)
  {
    forall i :: 0 <= i < |es| ==> OwnedByFile(f, es[i].info)
  }

  ghost predicate ProcListOwned(p: int, es: seq<KGEdge>, fileInter: InterMap)
  {
    forall i :: 0 <= i < |es| ==>
      OwnedByProc(p, es[i].info) && (es[i].info.relation == Load ==> es[i].info.n1 in fileInter)
  }

  lemma EdgeIsOwned(kg: KG, e: KGEdge)
    requires kg.Valid() && Owned(kg.Observe()) && e in kg.objs
    ensures OwnedEdge(Edge(e.info, e.noted))
  {
    var k :| 0 <= k < |kg.trace| && kg.trace[k] == e;
    assert kg.Observe().edges[k] == Edge(e.info, e.noted);
  }

  lemma ListsAreOwned(kg: KG)
    requires kg.Valid() && Owned(kg.Observe())
    ensures ListsOwned(kg.fileInter, kg.procInter)
  {
    forall f, i | f in kg.fileInter && 0 <= i < |kg.fileInter[f]|
      ensures OwnedByFile(f, kg.fileInter[f][i].info)
    {
      assert ListOver(FileTable, f, kg.fileInter[f], kg.objs);
      EdgeIsOwned(kg, kg.fileInter[f][i]);
    }
    forall p, i | p in kg.procInter && 0 <= i < |kg.procInter[p]|
      ensures OwnedByProc(p, kg.procInter[p][i].info)
      ensures kg.procInter[p][i].info.relation == Load ==> kg.procInter[p][i].info.n1 in kg.fileInter
    {
      var e := kg.procInter[p][i];
      assert ListOver(ProcTable, p, kg.procInter[p], kg.objs);
      EdgeIsOwned(kg, e);
      assert IsListed(kg.fileInter, e.noted.file, e);
    }
  }
}
