/** Which pairs of nodes are still joined after the whole noise reduction. The shadow passes never
    separate a pair, but they may keep the very access that the temporary file pass deletes. */
module NoiseAdjacency {
  import opened Records
  import opened Observables
  import opened KnowledgeGraph
  import opened ShadowSpec
  import NC = NoiseContents
  import opened Ownership
  import opened NoiseReduction
  import opened NoiseTheorems

  /** One noise reduction: the edge table before and after, the sorted lists the passes saw, the
      order in which the library pass visited the processes, and the identifiers collected. */
  datatype Reduction = Reduction(edges: EdgeMap, objs: set<KGEdge>, tmpOrder: InterMap, tb: Tables,
                                 order: seq<int>, noisy: set<int>, left: EdgeMap)

  /** Each edge object has one identifier. */
  ghost predicate EdgesOnce(edges: EdgeMap, objs: set<KGEdge>)
  {
    && (forall k | k in edges :: edges[k] in objs)
    && (forall e | e in objs :: InTable(edges, e))
    && (forall j, k | j in edges && k in edges && edges[j] == edges[k] :: j == k)
  }

  /** What deleting the noise of a graph built from a log does, starting with nothing collected. */
  ghost predicate Reduces(r: Reduction)
  {
    && EdgesOnce(r.edges, r.objs)
    && ListsOver(FileTable, r.tmpOrder, r.objs)
    && ListsOver(FileTable, r.tb.fileInter, r.objs) && ListsOver(ProcTable, r.tb.procInter, r.objs)
    && ListsOwned(r.tb.fileInter, r.tb.procInter)
    && ReduceNoise.NoiseFound(r.edges, r.objs, r.tmpOrder, r.tb, r.order, {}, r.noisy)
    && Without(r.edges, r.noisy, r.left)
  }

  ghost predicate AllSorted(m: InterMap)
  {
    forall f | f in m :: Sorted(m[f])
  }

  /** The passes look at sorted lists. */
  ghost predicate ListsSorted(r: Reduction)
  {
    AllSorted(r.tmpOrder) && AllSorted(r.tb.fileInter) && AllSorted(r.tb.procInter)
  }

  /** Some edge of the table leads from `a` to `b`. */
  predicate Joined(edges: EdgeMap, a: int, b: int)
  {
    exists k :: k in edges && edges[k].info.n1 == a && edges[k].info.n2 == b
  }

  /** The access at `j` comes from the same source in the same window as the one at `i`; accesses of
      a node by itself form one window. */
  predicate TwinsAt(pass: Pass, m: InterMap, f: int, i: nat, j: nat)
  {
    && f in m && j < i < |m[f]| && pass.Looks(m[f][i]) && Repeats(pass, m[f], j, i)
    && (m[f][i].info.n1 == f || Window(m[f], f, j) == Window(m[f], f, i))
  }

  /** In its window no earlier access from the same source was deleted as temporary. */
  ghost predicate NoTemporaryTwin(pass: Pass, m: InterMap, tmpOrder: InterMap, t: KGEdge)
  {
    forall f: int, i: nat, j: nat | TwinsAt(pass, m, f, i, j) && m[f][i] == t :: !TmpMarks(tmpOrder, m[f][j])
  }

  /** An edge the temporary, missing and library passes spare. If it is a write or send, no write or
      send by that process in the window is a temporary one; reads and receives likewise. */
  ghost predicate Spared(r: Reduction, t: KGEdge)
    requires Reduces(r)
  {
    && !TmpMarks(r.tmpOrder, t) && !Dangling(r.tb.nodes, t) && t !in LibraryLoads(r.tb, r.order)
    && NoTemporaryTwin(FilePass, r.tb.fileInter, r.tmpOrder, t)
    && NoTemporaryTwin(ProcPass, r.tb.procInter, r.tmpOrder, t)
  }

  ghost predicate SparedBetween(r: Reduction, a: int, b: int, t: KGEdge)
    requires Reduces(r)
  {
    t in r.objs && t.info.n1 == a && t.info.n2 == b && Spared(r, t)
  }

  /** None of the five passes marks the edge. */
  ghost predicate Unmarked(r: Reduction, t: KGEdge)
    requires Reduces(r)
  {
    && !TmpMarks(r.tmpOrder, t) && !Dangling(r.tb.nodes, t) && t !in LibraryLoads(r.tb, r.order)
    && !Marks(FilePass, r.tb.fileInter, t) && !Marks(ProcPass, r.tb.procInter, t)
  }

  lemma LeftAreUnmarked(r: Reduction, k: int)
    requires Reduces(r) && k in r.edges
    ensures k in r.left <==> Unmarked(r, r.edges[k])
  {
    var t := r.edges[k];
    assert k in r.noisy <==>
           || t in Temporaries(r.tmpOrder, r.objs)
           || t in Shadows(FilePass, r.tb.fileInter, r.objs) || t in Shadows(ProcPass, r.tb.procInter, r.objs)
           || t in Missing(r.tb.nodes, r.objs) || t in LibraryLoads(r.tb, r.order);
  }

  // ---- Which edges go, said of relations and ends -----------------------------------------------

  ghost function Seen(r: Reduction): NC.Sight
  {
    ReduceNoise.Seen(r.tmpOrder, r.tb)
  }

  /** Repeated accesses, temporary files, missing nodes and libraries, and nothing else. */
  lemma ReductionExact(r: Reduction)
    requires Reduces(r) && ListsSorted(r)
    ensures NC.NoiseGone(r.edges, r.objs, Seen(r), {}, r.left)
  {
    ReduceNoise.NoiseIsGone(r.edges, r.objs, r.tmpOrder, r.tb, r.order, {}, r.noisy, r.left);
  }

  predicate IsRead(e: KGEdge) { e.info.relation == Read || e.info.relation == Recv }

  predicate IsWrite(e: KGEdge) { e.info.relation == Write || e.info.relation == Send }

  /** The edges at `j` and `i` lead into `n` from the same node, and none between them leaves `n`. A node
      that accesses itself leaves itself each time, which does not count. */
  predicate SameAccess(n: int, list: seq<KGEdge>, j: nat, i: nat)
  {
    && j < i < |list| && list[j].info.n1 == list[i].info.n1 && list[j].info.n2 == list[i].info.n2 == n
    && (list[i].info.n1 == n || forall m :: j < m < i ==> list[m].info.n1 != n)
  }

  predicate ReadRepeats(r: Reduction, n: int, j: nat, i: nat, e: KGEdge)
  {
    && n in r.tb.procInter && SameAccess(n, r.tb.procInter[n], j, i)
    && IsRead(r.tb.procInter[n][j]) && IsRead(r.tb.procInter[n][i]) && r.tb.procInter[n][i] == e
  }

  predicate WriteRepeats(r: Reduction, n: int, j: nat, i: nat, e: KGEdge)
  {
    && n in r.tb.fileInter && SameAccess(n, r.tb.fileInter[n], j, i)
    && IsWrite(r.tb.fileInter[n][j]) && IsWrite(r.tb.fileInter[n][i]) && r.tb.fileInter[n][i] == e
  }

  /** In the list of its process a read or receive goes if the process had the same from the same
      object since it last did anything itself; in the list of its file a write or send goes if the
      same process wrote the file since it was last read. */
  lemma RepeatsGo(r: Reduction, n: int, j: nat, i: nat, e: KGEdge)
    requires Reduces(r) && (ReadRepeats(r, n, j, i, e) || WriteRepeats(r, n, j, i, e))
    ensures InTable(r.edges, e) && !InTable(r.left, e)
  {
    if ReadRepeats(r, n, j, i, e) {
      assert ListOver(ProcTable, n, r.tb.procInter[n], r.objs) && NC.ReadsAgain(r.tb.procInter[n], j, i);
      assert NC.ReadBefore(r.tb.procInter, e);
    } else {
      assert ListOver(FileTable, n, r.tb.fileInter[n], r.objs) && NC.WritesAgain(r.tb.fileInter[n], j, i);
      assert NC.WrittenBefore(r.tb.fileInter, e);
    }
    NoiseNotLeft(r, e);
  }

  lemma NoiseNotLeft(r: Reduction, e: KGEdge)
    requires Reduces(r) && NC.Noise(Seen(r), e)
    ensures !InTable(r.left, e)
  {
    if k :| k in r.left && r.left[k] == e {
      ReduceNoise.NoiseOf(r.edges, r.objs, r.tmpOrder, r.tb, k);
    }
  }

  /** An edge that no other rule deletes is deleted only as such a repeated access. */
  lemma OnlyRepeatsGo(r: Reduction, k: int)
    requires Reduces(r) && k in r.edges && k !in r.left
    requires var e := r.edges[k];
             && !NC.OfTemporary(r.tmpOrder, e) && !NC.EndMissing(r.tb.nodes, e)
             && !NC.LoadOfOwn(r.tb.nodes, r.tb.fileInter, r.tb.procInter, r.objs, e)
    ensures (exists n: int, j: nat, i: nat :: ReadRepeats(r, n, j, i, r.edges[k])) ||
            (exists n: int, j: nat, i: nat :: WriteRepeats(r, n, j, i, r.edges[k]))
  {
    var e := r.edges[k];
    ReduceNoise.NoiseOf(r.edges, r.objs, r.tmpOrder, r.tb, k);
    ReduceNoise.LoadGone(r.edges, r.objs, r.tb, r.order, k);
    OwnedPassLists(r.tb.fileInter, r.tb.procInter);
    if NC.ReadBefore(r.tb.procInter, e) {
      var n: int, j: nat, i: nat :| n in r.tb.procInter && NC.ReadsAgain(r.tb.procInter[n], j, i) &&
                                    r.tb.procInter[n][i] == e;
      assert Incoming(ProcPass, r.tb.procInter[n], n);
      assert ReadRepeats(r, n, j, i, e);
    } else {
      var n: int, j: nat, i: nat :| n in r.tb.fileInter && NC.WritesAgain(r.tb.fileInter[n], j, i) &&
                                    r.tb.fileInter[n][i] == e;
      assert Incoming(FilePass, r.tb.fileInter[n], n);
      assert WriteRepeats(r, n, j, i, e);
    }
  }

  /** The lists of a pass, each with its own accesses only. */
  ghost predicate PassLists(pass: Pass, m: InterMap)
  {
    forall f | f in m :: Incoming(pass, m[f], f)
  }

  lemma OwnedPassLists(fileInter: InterMap, procInter: InterMap)
    requires ListsOwned(fileInter, procInter)
    ensures PassLists(FilePass, fileInter) && PassLists(ProcPass, procInter)
  {
    forall f | f in fileInter
      ensures Incoming(FilePass, fileInter[f], f)
    {
      assert FileListOwned(f, fileInter[f]);
    }
    forall p | p in procInter
      ensures Incoming(ProcPass, procInter[p], p)
    {
      assert ProcListOwned(p, procInter[p], fileInter);
    }
  }

  /** An access that a pass does not mark has no twin before it at all. */
  lemma UnmarkedHasNoTwin(pass: Pass, m: InterMap, tmpOrder: InterMap, t: KGEdge)
    requires PassLists(pass, m) && !Marks(pass, m, t)
    ensures NoTemporaryTwin(pass, m, tmpOrder, t)
  {
    forall f: int, i: nat, j: nat | TwinsAt(pass, m, f, i, j) && m[f][i] == t
      ensures false
    {
      assert !ShadowedAt(pass, m, f, i);
      ShadowedIsWindowwise(pass, m[f], f, i);
    }
  }

  /** The access that the pass keeps in place of a marked one: unmarked, with the same ends, and not
      a temporary one. */
  lemma KeptTwin(pass: Pass, tbl: Table, m: InterMap, objs: set<KGEdge>, tmpOrder: InterMap, t: KGEdge)
    returns (u: KGEdge)
    requires PassLists(pass, m) && ListsOver(tbl, m, objs) && Marks(pass, m, t)
    requires NoTemporaryTwin(pass, m, tmpOrder, t) && !TmpMarks(tmpOrder, t)
    ensures u in objs && Parallel(u, t) && pass.Looks(u) && pass.Looks(t)
    ensures !Marks(pass, m, u) && !TmpMarks(tmpOrder, u)
  {
    var f: int, i: nat :| ShadowedAt(pass, m, f, i) && m[f][i] == t;
    var k := FirstTwin(pass, m[f], f, i);
    assert ListOver(tbl, f, m[f], objs) && Incoming(pass, m[f], f);
    u := m[f][k];
    UnmarkedAt(pass, tbl, m, objs, f, k);
    assert TwinsAt(pass, m, f, i, k);
  }

  lemma FirstTwin(pass: Pass, list: seq<KGEdge>, f: int, i: nat) returns (k: nat)
    requires Incoming(pass, list, f) && i < |list| && Shadowed(pass, list, i)
    ensures k < i && Repeats(pass, list, k, i) && !Shadowed(pass, list, k)
    ensures list[i].info.n1 == f || Window(list, f, k) == Window(list, f, i)
  {
    if list[i].info.n1 == f {
      k := UnmarkedTwin(pass, list, i);
    } else {
      k := FirstInWindowKept(pass, list, f, i);
    }
  }

  lemma LoadsOnly(r: Reduction, t: KGEdge)
    requires Reduces(r) && t in LibraryLoads(r.tb, r.order)
    ensures t.info.relation == Load
  {
    assert MaybeLibrary(r.tb, t, r.objs);
  }

  /** A spared edge, or the access a shadow pass keeps for it, is marked by no pass. */
  lemma SparedSurvives(r: Reduction, t: KGEdge) returns (u: KGEdge)
    requires Reduces(r) && t in r.objs && Spared(r, t)
    ensures u in r.objs && Parallel(u, t) && Unmarked(r, u)
  {
    OwnedPassLists(r.tb.fileInter, r.tb.procInter);
    u := t;
    if Marks(FilePass, r.tb.fileInter, t) {
      u := KeptTwin(FilePass, FileTable, r.tb.fileInter, r.objs, r.tmpOrder, t);
      OtherPass(FilePass, ProcPass, r.tb.procInter, u);
    } else if Marks(ProcPass, r.tb.procInter, t) {
      u := KeptTwin(ProcPass, ProcTable, r.tb.procInter, r.objs, r.tmpOrder, t);
      OtherPass(ProcPass, FilePass, r.tb.fileInter, u);
    }
    if u in LibraryLoads(r.tb, r.order) {
      LoadsOnly(r, u);
    }
  }

  /** The noise reduction leaves an edge from `a` to `b` exactly when some edge between them is
      spared: not temporary, missing or a library load, and, if it is an access a shadow pass looks
      at, without a temporary access from the same source earlier in its window. */
  lemma JoinedIffSpared(r: Reduction, a: int, b: int)
    requires Reduces(r)
    ensures Joined(r.left, a, b) <==> exists t :: SparedBetween(r, a, b, t)
  {
    if Joined(r.left, a, b) {
      var k :| k in r.left && r.left[k].info.n1 == a && r.left[k].info.n2 == b;
      var t := r.edges[k];
      LeftAreUnmarked(r, k);
      OwnedPassLists(r.tb.fileInter, r.tb.procInter);
      UnmarkedHasNoTwin(FilePass, r.tb.fileInter, r.tmpOrder, t);
      UnmarkedHasNoTwin(ProcPass, r.tb.procInter, r.tmpOrder, t);
      assert SparedBetween(r, a, b, t);
    }
    if t :| SparedBetween(r, a, b, t) {
      var u := SparedSurvives(r, t);
      assert InTable(r.edges, u);
      var k :| k in r.edges && r.edges[k] == u;
      LeftAreUnmarked(r, k);
      assert r.left[k] == u;
    }
  }

  /** Later than the temporary prefix of the file, or not in its list at all. */
  predicate AfterPrefix(list: seq<KGEdge>, k: nat, t: KGEdge)
  {
    forall i :: 0 <= i < |list| && list[i] == t ==> i > k
  }

  /** A pair joined in the temporary prefix of a file stays joined exactly when an edge that is not
      in that prefix joins it too and is spared. */
  lemma TemporaryPair(r: Reduction, f: int, k: nat, i: nat)
    requires Reduces(r) && TemporaryAt(r.tmpOrder, f, k, i)
    ensures var e := r.tmpOrder[f][i].info;
            Joined(r.edges, e.n1, e.n2) &&
            (Joined(r.left, e.n1, e.n2) <==>
             exists t :: SparedBetween(r, e.n1, e.n2, t) && AfterPrefix(r.tmpOrder[f], k, t))
  {
    var list := r.tmpOrder[f];
    var e := list[i].info;
    assert ListOver(FileTable, f, list, r.objs);
    assert list[i] in r.objs;
    JoinedIffSpared(r, e.n1, e.n2);
    forall t | SparedBetween(r, e.n1, e.n2, t)
      ensures AfterPrefix(list, k, t)
    {
      forall j: nat | j < |list| && list[j] == t
        ensures j > k
      {
        assert TemporaryAt(r.tmpOrder, f, k, j) || j > k;
      }
    }
  }

  /** A pair whose every edge is a temporary one is separated, as by a process that creates a file
      and deletes it again. */
  lemma OnlyTemporary(r: Reduction, a: int, b: int)
    requires Reduces(r)
    requires forall t | t in r.objs && t.info.n1 == a && t.info.n2 == b :: TmpMarks(r.tmpOrder, t)
    ensures !Joined(r.left, a, b)
  {
    JoinedIffSpared(r, a, b);
  }

  /** Without temporary files a pair stays joined exactly when both are nodes and some edge between
      them is not a library load. */
  lemma NoTemporaryFiles(r: Reduction, a: int, b: int)
    requires Reduces(r) && forall t | t in r.objs :: !TmpMarks(r.tmpOrder, t)
    ensures Joined(r.left, a, b) <==>
            a in r.tb.nodes && b in r.tb.nodes &&
            exists t :: t in r.objs && t.info.n1 == a && t.info.n2 == b && t !in LibraryLoads(r.tb, r.order)
  {
    JoinedIffSpared(r, a, b);
    forall t | t in r.objs && t.info.n1 == a && t.info.n2 == b && t !in LibraryLoads(r.tb, r.order)
      ensures SparedBetween(r, a, b, t) <==> a in r.tb.nodes && b in r.tb.nodes
    {
      TwinsListed(FilePass, FileTable, r.tb.fileInter, r.objs, r.tmpOrder, t);
      TwinsListed(ProcPass, ProcTable, r.tb.procInter, r.objs, r.tmpOrder, t);
    }
  }

  lemma TwinsListed(pass: Pass, tbl: Table, m: InterMap, objs: set<KGEdge>, tmpOrder: InterMap, t: KGEdge)
    requires ListsOver(tbl, m, objs) && forall e | e in objs :: !TmpMarks(tmpOrder, e)
    ensures NoTemporaryTwin(pass, m, tmpOrder, t)
  {
    forall f: int, i: nat, j: nat | TwinsAt(pass, m, f, i, j)
      ensures !TmpMarks(tmpOrder, m[f][j])
    {
      assert ListOver(tbl, f, m[f], objs);
    }
  }

  /** Created, written, deleted and written again, all by one process. */
  predicate WrittenAgain(f: int, p: int, list: seq<KGEdge>)
  {
    && |list| == 4 && f != p && (forall i :: 0 <= i < 4 ==> list[i].info.n1 == p && list[i].info.n2 == f)
    && list[0].info.relation == Create && list[1].info.relation == Write
    && list[2].info.relation == Delete && list[3].info.relation == Write
  }

  /** The first write is a temporary one and the second repeats it in the same window. */
  lemma SecondWriteRepeats(m: InterMap, tmpOrder: InterMap, f: int, p: int)
    requires f in m && f in tmpOrder && m[f] == tmpOrder[f] && WrittenAgain(f, p, m[f])
    ensures TemporaryAt(tmpOrder, f, 2, 1) && TmpMarks(tmpOrder, m[f][1]) && TwinsAt(FilePass, m, f, 3, 1)
  {
    assert Temporary(f, m[f], 2);
    assert TemporaryAt(tmpOrder, f, 2, 1);
    WindowGrows(m[f], f, 1, 3);
  }

  /** A later write alone does not keep a pair joined: a process that creates, writes, deletes and
      writes a file again loses its first write as temporary and its second as shadowed by it. */
  lemma TemporaryFilesBreakAdjacency(r: Reduction, f: int, p: int)
    requires Reduces(r) && f in r.tmpOrder && f in r.tb.fileInter && r.tb.fileInter[f] == r.tmpOrder[f]
    requires WrittenAgain(f, p, r.tmpOrder[f])
    requires forall t | t in r.objs && t.info.n1 == p && t.info.n2 == f :: t in r.tmpOrder[f]
    ensures Joined(r.edges, p, f) && !Joined(r.left, p, f)
  {
    var list := r.tmpOrder[f];
    SecondWriteRepeats(r.tb.fileInter, r.tmpOrder, f, p);
    TemporaryPair(r, f, 2, 1);
    forall t | SparedBetween(r, p, f, t) && AfterPrefix(list, 2, t)
      ensures false
    {
    }
  }
}
