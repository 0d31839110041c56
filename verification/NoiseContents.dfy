/** Which edges the noise reduction deletes, said of relations, ends and positions alone. */
module NoiseContents {
  import opened Records
  import opened Observables
  import opened KnowledgeGraph

  // ---- The lists ----------------------------------------------------------------------------------

  /** By sequence number, and by the number of the relation where these are equal. */
  predicate InOrder(list: seq<KGEdge>)
  {
    forall j, i :: 0 <= j < i < |list| ==>
      var (a, b) := (list[j].info, list[i].info);
      a.seqNum < b.seqNum || (a.seqNum == b.seqNum && EdgeEnum2Int(a.relation) <= EdgeEnum2Int(b.relation))
  }

  predicate AllInOrder(m: InterMap)
  {
    forall f | f in m :: InOrder(m[f])
  }

  // ---- Repeated accesses --------------------------------------------------------------------------

  /** Between these positions nothing leaves the node that the edge at `i` goes into, but for edges
      from where that edge comes from itself. */
  predicate NothingLeaves(list: seq<KGEdge>, j: nat, i: nat)
    requires j < i < |list|
  {
    forall m :: j < m < i ==> list[m].info.n1 != list[i].info.n2 || list[m].info.n1 == list[i].info.n1
  }

  /** The edge at `i` reads or receives again what the one at `j` did. */
  predicate ReadsAgain(list: seq<KGEdge>, j: nat, i: nat)
  {
    && j < i < |list| && list[j].info.n1 == list[i].info.n1
    && (list[j].info.relation == Read || list[j].info.relation == Recv)
    && (list[i].info.relation == Read || list[i].info.relation == Recv)
    && NothingLeaves(list, j, i)
  }

  /** The edge at `i` writes or sends again what the one at `j` did. */
  predicate WritesAgain(list: seq<KGEdge>, j: nat, i: nat)
  {
    && j < i < |list| && list[j].info.n1 == list[i].info.n1
    && (list[j].info.relation == Write || list[j].info.relation == Send)
    && (list[i].info.relation == Write || list[i].info.relation == Send)
    && NothingLeaves(list, j, i)
  }

  ghost predicate ReadBefore(procInter: InterMap, e: KGEdge)
  {
    exists p: int, j: nat, i: nat :: p in procInter && ReadsAgain(procInter[p], j, i) && procInter[p][i] == e
  }

  ghost predicate WrittenBefore(fileInter: InterMap, e: KGEdge)
  {
    exists f: int, j: nat, i: nat :: f in fileInter && WritesAgain(fileInter[f], j, i) && fileInter[f][i] == e
  }

  // ---- Temporary files ----------------------------------------------------------------------------

  predicate Between(e: KGEdge, f: int, p: int)
  {
    (e.info.n1 == f && e.info.n2 == p) || (e.info.n1 != f && e.info.n1 == p)
  }

  /** A file that is created, used by its creator alone, and deleted for the first time at `k`. */
  predicate DeletedByCreator(f: int, list: seq<KGEdge>, k: nat)
  {
    && 0 < k < |list| && list[0].info.relation == Create && list[k].info.relation == Delete
    && forall m :: 0 < m <= k ==>
         Between(list[m], f, list[0].info.n1) && (m < k ==> list[m].info.relation != Delete)
  }

  ghost predicate OfTemporary(fileInter: InterMap, e: KGEdge)
  {
    exists f: int, k: nat, i: nat ::
      f in fileInter && DeletedByCreator(f, fileInter[f], k) && i <= k && fileInter[f][i] == e
  }

  // ---- Missing nodes and libraries ----------------------------------------------------------------

  predicate EndMissing(nodes: map<int, NodeType>, e: KGEdge)
  {
    e.info.n1 !in nodes || e.info.n2 !in nodes
  }

  /** A file that nobody but this process ever wrote to. */
  predicate OwnFile(nodes: map<int, NodeType>, fileInter: InterMap, f: int, p: int)
  {
    && f in nodes && nodes[f] == File && f in fileInter
    && forall i :: 0 <= i < |fileInter[f]| && fileInter[f][i].info.n2 == f ==> fileInter[f][i].info.n1 == p
  }

  ghost predicate LoadIn(procInter: InterMap, p: int, e: KGEdge)
  {
    p in procInter && e in procInter[p] && e.info.relation == Load
  }

  /** A load of a file by the only process that wrote to it. */
  ghost predicate OwnLoad(nodes: map<int, NodeType>, fileInter: InterMap, procInter: InterMap, e: KGEdge)
  {
    (exists p :: LoadIn(procInter, p, e)) && OwnFile(nodes, fileInter, e.info.n1, e.info.n2)
  }

  /** A load of a file that was loaded so. */
  ghost predicate LoadOfOwn(nodes: map<int, NodeType>, fileInter: InterMap, procInter: InterMap, objs: set<KGEdge>,
                            e: KGEdge)
  {
    && (exists p :: LoadIn(procInter, p, e))
    && (exists t :: t in objs && t.info.n1 == e.info.n1 && OwnLoad(nodes, fileInter, procInter, t))
  }

  // ---- What is deleted ----------------------------------------------------------------------------

  /** The lists as they are sorted for the pass over temporary files, and again for the other passes,
      and the nodes. */
  datatype Sight = Sight(nodes: map<int, NodeType>, first: InterMap, fileInter: InterMap, procInter: InterMap)

  ghost predicate Noise(s: Sight, e: KGEdge)
  {
    || OfTemporary(s.first, e) || WrittenBefore(s.fileInter, e) || ReadBefore(s.procInter, e)
    || EndMissing(s.nodes, e)
  }

  /** Whatever is noise is deleted, and so is a load of one's own file; what is deleted is noise, or a
      load of a file that someone loaded as his own. */
  ghost predicate NoiseGone(edges: EdgeMap, objs: set<KGEdge>, s: Sight, before: set<int>, left: EdgeMap)
  {
    && AllInOrder(s.first) && AllInOrder(s.fileInter) && AllInOrder(s.procInter)
    && (forall k | k in left :: k in edges && left[k] == edges[k])
    && (forall k | k in edges && (k in before || Noise(s, edges[k])) :: k !in left)
    && (forall k | k in edges && OwnLoad(s.nodes, s.fileInter, s.procInter, edges[k]) :: k !in left)
    && (forall k | k in edges && k !in left ::
          || k in before || Noise(s, edges[k])
          || LoadOfOwn(s.nodes, s.fileInter, s.procInter, objs, edges[k]))
  }
}
