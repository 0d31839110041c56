/** What noise reduction preserves, and what it does not. */
module NoiseTheorems {
  import opened Basics
  import opened Records
  import opened Observables
  import opened KnowledgeGraph
  import opened ShadowSpec
  import opened Ownership
  import opened NoiseReduction

  // ---- The shadow passes -----------------------------------------------------------------------

  /** The access kept for a source in a window is one of its earliest there. */
  lemma KeptIsEarliest(pass: Pass, list: seq<KGEdge>, f: int, i: nat) returns (k: nat)
    requires Sorted(list) && Incoming(pass, list, f) && i < |list| && pass.Looks(list[i]) && list[i].info.n1 != f
    ensures k < |list| && Repeats(pass, list, k, i) && Window(list, f, k) == Window(list, f, i)
    ensures !Shadowed(pass, list, k)
    ensures forall j :: 0 <= j < |list| && Repeats(pass, list, j, i) && Window(list, f, j) == Window(list, f, i) ==>
              !CompareInter(list[j], list[k]) && (j == k || Shadowed(pass, list, j))
  {
    k := FirstInWindowKept(pass, list, f, i);
    forall j | 0 <= j < |list| && Repeats(pass, list, j, i) && Window(list, f, j) == Window(list, f, i)
      ensures !CompareInter(list[j], list[k]) && (j == k || Shadowed(pass, list, j))
    {
      assert j >= k;
      ShadowedIsWindowwise(pass, list, f, j);
      assert j != k ==> Repeats(pass, list, k, j);
    }
  }

  predicate AccessIn(pass: Pass, list: seq<KGEdge>, f: int, w: nat, i: nat)
    requires i < |list|
  {
    pass.Looks(list[i]) && list[i].info.n1 != f && Window(list, f, i) == w
  }

  /** In every window, the sources that access the node are the same with and without the marked edges. */
  lemma SourcesPerWindowKept(pass: Pass, list: seq<KGEdge>, f: int, w: nat)
    requires Incoming(pass, list, f)
    ensures (set i | 0 <= i < |list| && AccessIn(pass, list, f, w, i) :: list[i].info.n1)
            == (set i | 0 <= i < |list| && AccessIn(pass, list, f, w, i) && !Shadowed(pass, list, i) :: list[i].info.n1)
  {
    forall i | 0 <= i < |list| && AccessIn(pass, list, f, w, i)
      ensures exists k :: 0 <= k < |list| && AccessIn(pass, list, f, w, k) && !Shadowed(pass, list, k)
                          && list[k].info.n1 == list[i].info.n1
    {
      var k := FirstInWindowKept(pass, list, f, i);
    }
  }

  /** No edge is in a list twice, nor in two lists of one table. */
  lemma OnePlace(t: Table, m: InterMap, objs: set<KGEdge>, f: int, i: nat, g: int, j: nat)
    requires ListsOver(t, m, objs) && f in m && g in m && i < |m[f]| && j < |m[g]| && m[f][i] == m[g][j]
    ensures f == g && i == j
  {
    assert ListOver(t, f, m[f], objs) && ListOver(t, g, m[g], objs);
    assert Belongs(t, f, m[f][i]) && Belongs(t, g, m[g][j]);
  }

  lemma InNoOtherList(t: Table, m: InterMap, objs: set<KGEdge>, f: int, i: nat, g: int)
    requires ListsOver(t, m, objs) && f in m && g in m && i < |m[f]| && f != g
    ensures m[f][i] !in m[g]
  {
    forall j: nat | j < |m[g]|
      ensures m[g][j] != m[f][i]
    {
      if m[g][j] == m[f][i] {
        OnePlace(t, m, objs, f, i, g, j);
      }
    }
  }

  lemma UnmarkedAt(pass: Pass, t: Table, m: InterMap, objs: set<KGEdge>, f: int, k: nat)
    requires ListsOver(t, m, objs) && f in m && k < |m[f]| && !Shadowed(pass, m[f], k)
    ensures !Marks(pass, m, m[f][k])
  {
    forall g: int, j: nat | ShadowedAt(pass, m, g, j) && m[g][j] == m[f][k]
      ensures false
    {
      OnePlace(t, m, objs, f, k, g, j);
    }
  }

  /** The passes look at different relations. */
  lemma OtherPass(pass: Pass, other: Pass, m: InterMap, e: KGEdge)
    requires pass != other && pass.Looks(e)
    ensures !Marks(other, m, e)
  {
  }

  predicate Parallel(a: KGEdge, b: KGEdge)
  {
    a.info.n1 == b.info.n1 && a.info.n2 == b.info.n2
  }

  /** The two shadow passes together preserve adjacency: every edge either of them marks has a
      parallel edge that neither marks. */
  lemma ShadowsKeepAdjacency(kg: KG, e: KGEdge) returns (t: KGEdge)
    requires kg.ListsValid() && ListsOwned(kg.fileInter, kg.procInter)
    requires Marks(FilePass, kg.fileInter, e) || Marks(ProcPass, kg.procInter, e)
    ensures t in kg.objs && Parallel(t, e)
    ensures !Marks(FilePass, kg.fileInter, t) && !Marks(ProcPass, kg.procInter, t)
  {
    if Marks(FilePass, kg.fileInter, e) {
      var f: int, i: nat :| ShadowedAt(FilePass, kg.fileInter, f, i) && kg.fileInter[f][i] == e;
      var k := UnmarkedTwin(FilePass, kg.fileInter[f], i);
      assert ListOver(FileTable, f, kg.fileInter[f], kg.objs) && FileListOwned(f, kg.fileInter[f]);
      t := kg.fileInter[f][k];
      UnmarkedAt(FilePass, FileTable, kg.fileInter, kg.objs, f, k);
      OtherPass(FilePass, ProcPass, kg.procInter, t);
    } else {
      var p: int, i: nat :| ShadowedAt(ProcPass, kg.procInter, p, i) && kg.procInter[p][i] == e;
      var k := UnmarkedTwin(ProcPass, kg.procInter[p], i);
      assert ListOver(ProcTable, p, kg.procInter[p], kg.objs) && ProcListOwned(p, kg.procInter[p], kg.fileInter);
      t := kg.procInter[p][k];
      UnmarkedAt(ProcPass, ProcTable, kg.procInter, kg.objs, p, k);
      OtherPass(ProcPass, FilePass, kg.fileInter, t);
    }
  }

  // ---- Temporary files ---------------------------------------------------------------------------

  /** Every edge the temporary file pass marks joins the file and its creator. */
  lemma TemporaryJoinsCreator(list: seq<KGEdge>, f: int, k: nat, i: nat)
    requires FileListOwned(f, list) && Temporary(f, list, k) && i <= k
    ensures {list[i].info.n1, list[i].info.n2} == {f, list[0].info.n1} ||
            (i == 0 && list[0].info.n1 == f)
  {
  }

  /** Sorted lists of the passes: resorting keeps who owns what. */
  lemma ResortedOwned(fileInter: InterMap, procInter: InterMap, files: InterMap, procs: InterMap)
    requires ListsOwned(fileInter, procInter) && Resorted(fileInter, files) && Resorted(procInter, procs)
    ensures ListsOwned(files, procs)
  {
    forall f | f in files
      ensures FileListOwned(f, files[f])
    {
      forall i | 0 <= i < |files[f]|
        ensures OwnedByFile(f, files[f][i].info)
      {
        assert files[f][i] in multiset(fileInter[f]);
      }
    }
    forall p | p in procs
      ensures ProcListOwned(p, procs[p], files)
    {
      forall i | 0 <= i < |procs[p]|
        ensures OwnedByProc(p, procs[p][i].info) && (procs[p][i].info.relation == Load ==> procs[p][i].info.n1 in files)
      {
        assert procs[p][i] in multiset(procInter[p]);
      }
    }
  }

  // ---- Libraries -----------------------------------------------------------------------------------

  /** On a graph built from a log the library pass never stops the program. */
  lemma LibrariesHaveLists(tb: Tables)
    requires ListsOwned(tb.fileInter, tb.procInter)
    ensures LoadsHaveFiles(tb)
  {
    forall p | p in tb.procInter
      ensures ListedHaveFiles(tb, p)
    {
      assert ProcListOwned(p, tb.procInter[p], tb.fileInter);
    }
  }

  /** Two loads of one file of which only the first is by its sole writer. */
  ghost predicate Contested(tb: Tables, objs: set<KGEdge>, a: KGEdge, b: KGEdge)
  {
    && a in objs && b in objs && SurelyLibrary(tb, a)
    && IsLoad(tb.procInter, b) && b.info.n1 == a.info.n1 && !SurelyLibrary(tb, b)
  }

  /** A load is marked by the end of its list if its file is a library by then. */
  lemma {:induction false} MarkedInList(tb: Tables, list: seq<KGEdge>, i: nat, n: nat, s: Found)
    requires i < n <= |list| && list[i].info.relation == Load
    requires list[i].info.n1 in s.libraries || Trackable(tb, list[i].info.n1, list[i].info.n2)
    ensures list[i] in AfterList(tb, list, n, s).marked && list[i].info.n1 in AfterList(tb, list, n, s).libraries
  {
    if i == n - 1 {
      ListGrows(tb, list, n - 1, s);
    } else {
      MarkedInList(tb, list, i, n - 1, s);
    }
  }

  lemma {:induction false} ListGrows(tb: Tables, list: seq<KGEdge>, n: nat, s: Found)
    requires n <= |list|
    ensures s.libraries <= AfterList(tb, list, n, s).libraries && s.marked <= AfterList(tb, list, n, s).marked
  {
    if n > 0 {
      ListGrows(tb, list, n - 1, s);
    }
  }

  lemma {:induction false} OrderGrows(tb: Tables, order: seq<int>, m: nat, n: nat)
    requires m <= n <= |order| && HaveLists(order, tb.procInter)
    ensures AfterOrder(tb, order, m).libraries <= AfterOrder(tb, order, n).libraries
    ensures AfterOrder(tb, order, m).marked <= AfterOrder(tb, order, n).marked
  {
    if m < n {
      OrderGrows(tb, order, m, n - 1);
      var list := tb.procInter[order[n - 1]];
      ListGrows(tb, list, |list|, AfterOrder(tb, order, n - 1));
    }
  }

  /** Only a load of the list itself is added to what is marked. */
  lemma {:induction false} MarkedElsewhere(tb: Tables, list: seq<KGEdge>, n: nat, s: Found, e: KGEdge)
    requires n <= |list| && e !in list && e !in s.marked
    ensures e !in AfterList(tb, list, n, s).marked
  {
    if n > 0 {
      MarkedElsewhere(tb, list, n - 1, s, e);
    }
  }

  /** While no library is known, a list whose loads of a file are by one process that is not its sole
      writer marks none of them. */
  lemma {:induction false} NotMarkedFirst(tb: Tables, list: seq<KGEdge>, p: int, n: nat, f: int)
    requires n <= |list| && !Trackable(tb, f, p)
    requires forall i :: 0 <= i < |list| && list[i].info.relation == Load ==> list[i].info.n2 == p
    ensures f !in AfterList(tb, list, n, Found({}, {})).libraries
    ensures forall e | e in AfterList(tb, list, n, Found({}, {})).marked :: e.info.n1 != f
  {
    if n > 0 {
      NotMarkedFirst(tb, list, p, n - 1, f);
    }
  }

  lemma {:induction false} NotMarkedLater(tb: Tables, order: seq<int>, n: nat, e: KGEdge)
    requires 1 <= n <= |order| && HaveLists(order, tb.procInter)
    requires e !in AfterOrder(tb, order, 1).marked
    requires forall m :: 1 <= m < |order| ==> e !in tb.procInter[order[m]]
    ensures e !in AfterOrder(tb, order, n).marked
  {
    if n > 1 {
      NotMarkedLater(tb, order, n - 1, e);
      var list := tb.procInter[order[n - 1]];
      MarkedElsewhere(tb, list, |list|, AfterOrder(tb, order, n - 1), e);
    }
  }

  /** Some order visits this process first. */
  lemma Leading(procInter: InterMap, p: int) returns (order: seq<int>)
    requires p in procInter
    ensures Visits(order, procInter) && |order| > 0 && order[0] == p
  {
    order := [p];
    var todo := procInter.Keys - {p};
    while todo != {}
      invariant todo <= procInter.Keys && Distinct(order) && HaveLists(order, procInter)
      invariant |order| > 0 && order[0] == p
      invariant forall q | q in procInter :: q in todo <==> q !in order
      decreases todo
    {
      var q := Member(todo);
      order, todo := order + [q], todo - {q};
    }
  }

  /** Loads of one file in one list are marked or spared together. */
  lemma ContestedApart(tb: Tables, objs: set<KGEdge>, a: KGEdge, b: KGEdge, p: int, i: nat, q: int, j: nat)
    requires ListsOwned(tb.fileInter, tb.procInter) && Contested(tb, objs, a, b)
    requires Loads(tb.procInter, p, i, a) && Loads(tb.procInter, q, j, b)
    ensures p != q && a.info.n2 == p && b.info.n2 == q
    ensures Trackable(tb, a.info.n1, p) && !Trackable(tb, a.info.n1, q)
  {
    assert ProcListOwned(p, tb.procInter[p], tb.fileInter) && ProcListOwned(q, tb.procInter[q], tb.fileInter);
  }

  /** Visiting the sole writer first marks both loads. */
  lemma WriterFirst(tb: Tables, order: seq<int>, a: KGEdge, b: KGEdge, p: int, i: nat, q: int, j: nat)
    requires Visits(order, tb.procInter) && |order| > 0 && order[0] == p && p != q
    requires Loads(tb.procInter, p, i, a) && Loads(tb.procInter, q, j, b)
    requires Trackable(tb, a.info.n1, a.info.n2) && b.info.n1 == a.info.n1
    ensures b in LibraryLoads(tb, order)
  {
    var n := |order|;
    var k :| 0 <= k < n && order[k] == q;
    MarkedInList(tb, tb.procInter[p], i, |tb.procInter[p]|, AfterOrder(tb, order, 0));
    OrderGrows(tb, order, 1, k);
    MarkedInList(tb, tb.procInter[q], j, |tb.procInter[q]|, AfterOrder(tb, order, k));
    OrderGrows(tb, order, k + 1, n);
  }

  /** Visiting the other process first marks the writer's load only. */
  lemma WriterLater(tb: Tables, order: seq<int>, objs: set<KGEdge>, b: KGEdge, q: int, j: nat)
    requires ListsOver(ProcTable, tb.procInter, objs) && ListsOwned(tb.fileInter, tb.procInter)
    requires Visits(order, tb.procInter) && |order| > 0 && order[0] == q
    requires Loads(tb.procInter, q, j, b) && !Trackable(tb, b.info.n1, q)
    ensures b !in LibraryLoads(tb, order)
  {
    var list := tb.procInter[q];
    assert ProcListOwned(q, list, tb.fileInter);
    NotMarkedFirst(tb, list, q, |list|, b.info.n1);
    forall m | 1 <= m < |order|
      ensures b !in tb.procInter[order[m]]
    {
      InNoOtherList(ProcTable, tb.procInter, objs, q, j, order[m]);
    }
    assert AfterOrder(tb, order, 1) == AfterList(tb, list, |list|, Found({}, {}));
    NotMarkedLater(tb, order, |order|, b);
  }

  lemma ContestDecides(tb: Tables, objs: set<KGEdge>, a: KGEdge, b: KGEdge) returns (order: seq<int>, other: seq<int>)
    requires ListsOver(ProcTable, tb.procInter, objs) && ListsOwned(tb.fileInter, tb.procInter)
    requires Contested(tb, objs, a, b)
    ensures Visits(order, tb.procInter) && Visits(other, tb.procInter)
    ensures b in LibraryLoads(tb, order) && b !in LibraryLoads(tb, other)
  {
    var p: int, i: nat :| Loads(tb.procInter, p, i, a);
    var q: int, j: nat :| Loads(tb.procInter, q, j, b);
    ContestedApart(tb, objs, a, b, p, i, q, j);
    order := Leading(tb.procInter, p);
    WriterFirst(tb, order, a, b, p, i, q, j);
    other := Leading(tb.procInter, q);
    WriterLater(tb, other, objs, b, q, j);
  }

  lemma NoContest(tb: Tables, order: seq<int>, objs: set<KGEdge>)
    requires ListsOver(ProcTable, tb.procInter, objs) && Visits(order, tb.procInter)
    requires forall a, b :: !Contested(tb, objs, a, b)
    ensures LibraryLoads(tb, order) == set e | e in objs && SurelyLibrary(tb, e)
  {
    WithinBounds(tb, order, objs);
    forall e | e in LibraryLoads(tb, order)
      ensures SurelyLibrary(tb, e)
    {
      var a :| a in objs && a.info.n1 == e.info.n1 && SurelyLibrary(tb, a);
      assert !Contested(tb, objs, a, e);
    }
  }

  /** Two visiting orders of the process lists can mark different loads, exactly when some load of a
      file is by its sole writer and another is not. */
  lemma LibraryOrder(tb: Tables, objs: set<KGEdge>)
    requires ListsOver(ProcTable, tb.procInter, objs) && ListsOwned(tb.fileInter, tb.procInter)
    ensures (exists a, b :: Contested(tb, objs, a, b)) <==>
            (exists order, other :: Visits(order, tb.procInter) && Visits(other, tb.procInter) &&
                                    LibraryLoads(tb, order) != LibraryLoads(tb, other))
  {
    if a, b :| Contested(tb, objs, a, b) {
      var order, other := ContestDecides(tb, objs, a, b);
    } else {
      forall order, other | Visits(order, tb.procInter) && Visits(other, tb.procInter)
        ensures LibraryLoads(tb, order) == LibraryLoads(tb, other)
      {
        NoContest(tb, order, objs);
        NoContest(tb, other, objs);
      }
    }
  }

  /** A file that one process writes and loads and a second process loads: what is marked depends on
      which process is visited first. */
  lemma LibraryRace(f: int, p: int, q: int, write: KGEdge, a: KGEdge, b: KGEdge)
    requires f != p && f != q && p != q
    requires write.info.relation == Write && write.info.n1 == p && write.info.n2 == f
    requires a.info.relation == Load && a.info.n1 == f && a.info.n2 == p
    requires b.info.relation == Load && b.info.n1 == f && b.info.n2 == q
    ensures var tb := Tables(map[f := File, p := Proc, q := Proc], map[f := [write, a, b]],
                             map[p := [write, a], q := [b]]);
            && Visits([p, q], tb.procInter) && LibraryLoads(tb, [p, q]) == {a, b}
            && Visits([q, p], tb.procInter) && LibraryLoads(tb, [q, p]) == {a}
  {
    var tb := Tables(map[f := File, p := Proc, q := Proc], map[f := [write, a, b]], map[p := [write, a], q := [b]]);
    assert tb.fileInter[f][0] == write;
    assert Trackable(tb, f, p) && !Trackable(tb, f, q);
    RaceFrom(tb, f, p, q, write, a, b, Found({}, {}));
    RaceFrom(tb, f, p, q, write, a, b, Found({f}, {a}));
    OrderOfTwo(tb, p, q);
    OrderOfTwo(tb, q, p);
  }

  lemma RaceFrom(tb: Tables, f: int, p: int, q: int, write: KGEdge, a: KGEdge, b: KGEdge, s: Found)
    requires write.info.relation == Write && a.info == a.info.(relation := Load, n1 := f, n2 := p)
    requires b.info == b.info.(relation := Load, n1 := f, n2 := q)
    requires Trackable(tb, f, p) && !Trackable(tb, f, q)
    ensures AfterList(tb, [write, a], 2, s) == Found(s.libraries + {f}, s.marked + {a})
    ensures AfterList(tb, [b], 1, s) == if f in s.libraries then Found(s.libraries, s.marked + {b}) else s
  {
    var list, one := [write, a], [b];
    assert AfterList(tb, list, 1, s) == AfterLoad(tb, write, AfterList(tb, list, 0, s)) == s;
    assert AfterList(tb, list, 2, s) == AfterLoad(tb, a, s);
    assert AfterList(tb, one, 1, s) == AfterLoad(tb, b, AfterList(tb, one, 0, s));
    assert f in s.libraries ==> s.libraries + {f} == s.libraries;
  }

  lemma OrderOfTwo(tb: Tables, p: int, q: int)
    requires p in tb.procInter && q in tb.procInter
    ensures HaveLists([p, q], tb.procInter)
    ensures AfterOrder(tb, [p, q], 2) ==
            AfterList(tb, tb.procInter[q], |tb.procInter[q]|,
                      AfterList(tb, tb.procInter[p], |tb.procInter[p]|, Found({}, {})))
  {
    var order := [p, q];
    assert AfterOrder(tb, order, 1) ==
           AfterList(tb, tb.procInter[p], |tb.procInter[p]|, AfterOrder(tb, order, 0));
  }
}
