/** The noise reduction object: five passes collect the identifiers of noisy edges, then the edges
    are deleted. Interaction tables are iterated in any order and equal edges may sort in any order. */
module NoiseReduction {
  import opened Basics
  import opened Records
  import opened Observables
  import opened Iteration
  import opened KnowledgeGraph
  import opened ShadowSpec
  import opened NoiseContents

  // ---- Sorting the interaction lists -----------------------------------------------------------

  predicate CompareInter(a: KGEdge, b: KGEdge)
  {
    if a.info.seqNum != b.info.seqNum then a.info.seqNum < b.info.seqNum
    else EdgeEnum2Int(a.info.relation) < EdgeEnum2Int(b.info.relation)
  }

  predicate Sorted(list: seq<KGEdge>)
  {
    forall i, j :: 0 <= i < j < |list| ==> !CompareInter(list[j], list[i])
  }

  lemma InsertedBag<T>(r: seq<T>, p: nat, x: T)
    requires p <= |r|
    ensures multiset(r[..p] + [x] + r[p..]) == multiset(r) + multiset{x}
  {
    assert r == r[..p] + r[p..];
  }

  /** Stands for the library sort: callers may only rely on the result being a sorted permutation. */
  method Sort(list: seq<KGEdge>) returns (r: seq<KGEdge>)
    ensures Sorted(r) && multiset(r) == multiset(list)
  {
    r := [];
    for i := 0 to |list|
      invariant Sorted(r) && multiset(r) == multiset(list[..i])
    {
      var p := |r|;
      while p > 0 && CompareInter(list[i], r[p - 1])
        invariant 0 <= p <= |r|
        invariant forall j :: p <= j < |r| ==> CompareInter(list[i], r[j])
      {
        p := p - 1;
      }
      InsertedBag(r, p, list[i]);
      assert list[..i + 1] == list[..i] + [list[i]];
      r := r[..p] + [list[i]] + r[p..];
    }
    assert list[..|list|] == list;
  }

  ghost predicate Resorted(m: InterMap, r: InterMap)
  {
    r.Keys == m.Keys && forall f | f in m :: multiset(r[f]) == multiset(m[f]) && Sorted(r[f])
  }

  lemma SingleOccurrence(es: seq<KGEdge>, x: KGEdge)
    requires Distinct(es)
    ensures multiset(es)[x] <= 1
  {
    if x in es {
      var k :| 0 <= k < |es| && es[k] == x;
      assert es == es[..k] + [x] + es[k + 1..];
      assert x !in es[..k] && x !in es[k + 1..];
      assert multiset(es) == multiset(es[..k]) + multiset{x} + multiset(es[k + 1..]);
    }
  }

  lemma DoubleOccurrence(es: seq<KGEdge>, i: nat, j: nat)
    requires i < j < |es| && es[i] == es[j]
    ensures multiset(es)[es[i]] >= 2
  {
    assert es == es[..j] + es[j..];
    assert es[..j][i] == es[i] && es[j..][0] == es[i];
  }

  lemma PermutedList(t: Table, k: int, es: seq<KGEdge>, fs: seq<KGEdge>, objs: set<KGEdge>)
    requires ListOver(t, k, es, objs) && multiset(fs) == multiset(es)
    ensures ListOver(t, k, fs, objs)
  {
    assert es[0] in multiset(fs);
    forall i, j | 0 <= i < j < |fs|
      ensures fs[i] != fs[j]
    {
      if fs[i] == fs[j] {
        DoubleOccurrence(fs, i, j);
        SingleOccurrence(es, fs[i]);
      }
    }
    forall i | 0 <= i < |fs|
      ensures fs[i] in objs && Belongs(t, k, fs[i])
    {
      assert fs[i] in multiset(es);
    }
  }

  lemma ResortedLists(t: Table, m: InterMap, r: InterMap, objs: set<KGEdge>)
    requires ListsOver(t, m, objs) && Resorted(m, r)
    ensures ListsOver(t, r, objs)
  {
    forall f | f in r
      ensures ListOver(t, f, r[f], objs)
    {
      PermutedList(t, f, m[f], r[f], objs);
    }
    forall e | e in objs && NotedIn(t, e.noted)
      ensures IsListed(r, KeyIn(t, e.noted), e)
    {
      assert IsListed(m, KeyIn(t, e.noted), e);
      assert e in multiset(r[KeyIn(t, e.noted)]);
    }
  }

  method SortLists(t: Table, m: InterMap, ghost objs: set<KGEdge>) returns (r: InterMap)
    requires ListsOver(t, m, objs)
    ensures Resorted(m, r) && ListsOver(t, r, objs)
  {
    r := m;
    var todo := m.Keys;
    while todo != {}
      invariant todo <= m.Keys == r.Keys
      invariant forall f | f in todo :: r[f] == m[f]
      invariant forall f | f in m && f !in todo :: multiset(r[f]) == multiset(m[f]) && Sorted(r[f])
      decreases todo
    {
      var f := Pick(todo);
      var list := Sort(r[f]);
      r := r[f := list];
      todo := todo - {f};
    }
    ResortedLists(t, m, r, objs);
  }

  // ---- What the passes mark --------------------------------------------------------------------

  ghost predicate ShadowedAt(pass: Pass, m: InterMap, f: int, i: nat)
  {
    f in m && i < |m[f]| && Shadowed(pass, m[f], i)
  }

  /** A shadow pass over these lists marks the edge. */
  ghost predicate Marks(pass: Pass, m: InterMap, e: KGEdge)
  {
    exists f: int, i: nat :: ShadowedAt(pass, m, f, i) && m[f][i] == e
  }

  /** The other end of an access to `f`. */
  function Accessor(e: KGEdge, f: int): int
  {
    if e.info.n1 == f then e.info.n2 else e.info.n1
  }

  /** The file is created, used only by its creator, and first deleted at `k`. */
  predicate Temporary(f: int, list: seq<KGEdge>, k: nat)
  {
    && 1 <= k < |list|
    && list[0].info.relation == Create && list[k].info.relation == Delete
    && (forall m :: 1 <= m <= k ==> Accessor(list[m], f) == list[0].info.n1)
    && (forall m :: 1 <= m < k ==> list[m].info.relation != Delete)
  }

  ghost predicate TemporaryAt(m: InterMap, f: int, k: nat, i: nat)
  {
    f in m && Temporary(f, m[f], k) && i <= k
  }

  ghost predicate TmpMarks(m: InterMap, e: KGEdge)
  {
    exists f: int, k: nat, i: nat :: TemporaryAt(m, f, k, i) && m[f][i] == e
  }

  predicate Dangling(nodes: map<int, NodeType>, e: KGEdge)
  {
    e.info.n1 !in nodes || e.info.n2 !in nodes
  }

  /** Every edge joins two nodes of the graph. */
  predicate Closed(nodes: map<int, NodeType>, edges: EdgeMap)
  {
    forall k | k in edges :: !Dangling(nodes, edges[k])
  }

  /** A file written by at most this process. */
  predicate WrittenOnlyBy(list: seq<KGEdge>, f: int, p: int)
  {
    forall i :: 0 <= i < |list| && list[i].info.n2 == f ==> list[i].info.n1 == p
  }

  /** The tables the library pass looks at. */
  datatype Tables = Tables(nodes: map<int, NodeType>, fileInter: InterMap, procInter: InterMap)

  predicate IsFile(tb: Tables, f: int)
  {
    f in tb.nodes && tb.nodes[f] == File
  }

  /** The file is a File node and nobody but the process ever wrote it. */
  predicate Trackable(tb: Tables, f: int, p: int)
  {
    IsFile(tb, f) && f in tb.fileInter && WrittenOnlyBy(tb.fileInter[f], f, p)
  }

  /** The file is nobody else's to read: the other direction of the check. */
  predicate ReadOnlyBy(list: seq<KGEdge>, f: int, p: int)
  {
    forall i :: 0 <= i < |list| && list[i].info.n1 == f ==> list[i].info.n2 == p
  }

  ghost predicate Loads(procInter: InterMap, p: int, i: nat, e: KGEdge)
  {
    p in procInter && i < |procInter[p]| && procInter[p][i] == e && e.info.relation == Load
  }

  ghost predicate IsLoad(procInter: InterMap, e: KGEdge)
  {
    exists p: int, i: nat :: Loads(procInter, p, i, e)
  }

  /** Loads the pass marks in every iteration order. */
  ghost predicate SurelyLibrary(tb: Tables, e: KGEdge)
  {
    IsLoad(tb.procInter, e) && Trackable(tb, e.info.n1, e.info.n2)
  }

  /** Loads the pass marks in some iteration order at most. */
  ghost predicate MaybeLibrary(tb: Tables, e: KGEdge, objs: set<KGEdge>)
  {
    IsLoad(tb.procInter, e) && LibraryFile(tb, e.info.n1, objs)
  }

  ghost predicate LibraryFile(tb: Tables, f: int, objs: set<KGEdge>)
  {
    exists t :: t in objs && t.info.n1 == f && SurelyLibrary(tb, t)
  }

  /** Each of these files was found to be a library. */
  ghost predicate KnownLibraries(tb: Tables, libraries: set<int>, objs: set<KGEdge>)
  {
    forall f | f in libraries :: LibraryFile(tb, f, objs)
  }

  ghost predicate ListedHaveFiles(tb: Tables, p: int)
    requires p in tb.procInter
  {
    forall i | 0 <= i < |tb.procInter[p]| && tb.procInter[p][i].info.relation == Load ::
      tb.procInter[p][i].info.n1 in tb.fileInter
  }

  ghost predicate LoadsHaveFiles(tb: Tables)
  {
    forall p | p in tb.procInter :: ListedHaveFiles(tb, p)
  }

  ghost predicate LibraryBounds(tb: Tables, objs: set<KGEdge>, marked: set<KGEdge>)
  {
    OnlyLibraries(tb, objs, marked) && forall e | e in objs && SurelyLibrary(tb, e) :: e in marked
  }

  ghost predicate OnlyLibraries(tb: Tables, objs: set<KGEdge>, marked: set<KGEdge>)
  {
    marked <= objs && forall e | e in marked :: MaybeLibrary(tb, e, objs)
  }

  /** What the library pass knows after some of its loads: the libraries found, and the loads marked. */
  datatype Found = Found(libraries: set<int>, marked: set<KGEdge>)

  ghost function AfterLoad(tb: Tables, e: KGEdge, s: Found): Found
  {
    if e.info.relation == Load && (e.info.n1 in s.libraries || Trackable(tb, e.info.n1, e.info.n2)) then
      Found(s.libraries + {e.info.n1}, s.marked + {e})
    else
      s
  }

  /** After the first `n` edges of a list. */
  ghost function AfterList(tb: Tables, list: seq<KGEdge>, n: nat, s: Found): Found
    requires n <= |list|
  {
    if n == 0 then s else AfterLoad(tb, list[n - 1], AfterList(tb, list, n - 1, s))
  }

  predicate HaveLists(order: seq<int>, procInter: InterMap)
  {
    forall i :: 0 <= i < |order| ==> order[i] in procInter
  }

  /** After the lists of the first `n` processes of an order. */
  ghost function AfterOrder(tb: Tables, order: seq<int>, n: nat): Found
    requires n <= |order| && HaveLists(order, tb.procInter)
  {
    if n == 0 then Found({}, {})
    else
      var list := tb.procInter[order[n - 1]];
      AfterList(tb, list, |list|, AfterOrder(tb, order, n - 1))
  }

  /** An order in which an iteration may visit the process lists: each once. */
  ghost predicate Visits(order: seq<int>, procInter: InterMap)
  {
    Distinct(order) && HaveLists(order, procInter) && forall p | p in procInter :: p in order
  }

  /** The loads that the library pass marks when it visits the process lists in this order. */
  ghost function LibraryLoads(tb: Tables, order: seq<int>): set<KGEdge>
    requires Visits(order, tb.procInter)
  {
    AfterOrder(tb, order, |order|).marked
  }

  ghost predicate SureLoadsIn(tb: Tables, p: int, objs: set<KGEdge>, marked: set<KGEdge>)
  {
    forall i: nat, e | Loads(tb.procInter, p, i, e) && e in objs && SurelyLibrary(tb, e) :: e in marked
  }

  /** What is found so far is of libraries, and misses no sure load of this much of the list. */
  lemma {:induction false} ListWithinBounds(tb: Tables, p: int, n: nat, s: Found, objs: set<KGEdge>)
    requires p in tb.procInter && ListOver(ProcTable, p, tb.procInter[p], objs) && n <= |tb.procInter[p]|
    requires KnownLibraries(tb, s.libraries, objs) && OnlyLibraries(tb, objs, s.marked)
    ensures var r := AfterList(tb, tb.procInter[p], n, s);
            && KnownLibraries(tb, r.libraries, objs) && OnlyLibraries(tb, objs, r.marked)
            && s.marked <= r.marked && s.libraries <= r.libraries
            && forall i | 0 <= i < n && tb.procInter[p][i].info.relation == Load &&
                          SurelyLibrary(tb, tb.procInter[p][i]) ::
                 tb.procInter[p][i] in r.marked
  {
    if n > 0 {
      ListWithinBounds(tb, p, n - 1, s, objs);
      var e := tb.procInter[p][n - 1];
      if e.info.relation == Load {
        assert Loads(tb.procInter, p, n - 1, e);
        if Trackable(tb, e.info.n1, e.info.n2) {
          assert SurelyLibrary(tb, e);
        }
      }
    }
  }

  lemma {:induction false} OrderWithinBounds(tb: Tables, order: seq<int>, n: nat, objs: set<KGEdge>)
    requires ListsOver(ProcTable, tb.procInter, objs) && n <= |order| && HaveLists(order, tb.procInter)
    ensures var r := AfterOrder(tb, order, n);
            && KnownLibraries(tb, r.libraries, objs) && OnlyLibraries(tb, objs, r.marked)
            && forall m | 0 <= m < n :: SureLoadsIn(tb, order[m], objs, r.marked)
  {
    if n > 0 {
      OrderWithinBounds(tb, order, n - 1, objs);
      var p := order[n - 1];
      ListWithinBounds(tb, p, |tb.procInter[p]|, AfterOrder(tb, order, n - 1), objs);
    }
  }

  /** In any order the pass marks every sure library load, and only possible ones. */
  lemma WithinBounds(tb: Tables, order: seq<int>, objs: set<KGEdge>)
    requires ListsOver(ProcTable, tb.procInter, objs) && Visits(order, tb.procInter)
    ensures LibraryBounds(tb, objs, LibraryLoads(tb, order))
  {
    OrderWithinBounds(tb, order, |order|, objs);
    var marked := LibraryLoads(tb, order);
    forall e | e in objs && SurelyLibrary(tb, e)
      ensures e in marked
    {
      var p: int, i: nat :| Loads(tb.procInter, p, i, e);
      var m :| 0 <= m < |order| && order[m] == p;
      assert SureLoadsIn(tb, order[m], objs, marked);
    }
  }

  // ---- The same, said of relations and ends ----------------------------------------------------

  lemma SortedInOrder(list: seq<KGEdge>)
    requires Sorted(list)
    ensures InOrder(list)
  {
    forall j, i | 0 <= j < i < |list|
      ensures !CompareInter(list[i], list[j])
    {
    }
  }

  lemma AllSortedInOrder(m: InterMap)
    requires forall f | f in m :: Sorted(m[f])
    ensures AllInOrder(m)
  {
    forall f | f in m
      ensures InOrder(m[f])
    {
      SortedInOrder(m[f]);
    }
  }

  lemma BlocksLeave(list: seq<KGEdge>, j: nat, i: nat)
    requires j < i < |list|
    ensures NothingLeaves(list, j, i) <==> forall m :: j < m < i ==> !Blocks(list, m, i)
  {
    forall m | j < m < i
      ensures Blocks(list, m, i) <==>
              !(list[m].info.n1 != list[i].info.n2 || list[m].info.n1 == list[i].info.n1)
    {
    }
  }

  lemma ShadowedReads(list: seq<KGEdge>, i: nat)
    requires i < |list|
    ensures Shadowed(ProcPass, list, i) <==> exists j: nat :: ReadsAgain(list, j, i)
  {
    if Shadowed(ProcPass, list, i) {
      var j :| 0 <= j < i && Repeats(ProcPass, list, j, i) && forall m :: j < m < i ==> !Blocks(list, m, i);
      BlocksLeave(list, j, i);
      assert ReadsAgain(list, j, i);
    }
    if j: nat :| ReadsAgain(list, j, i) {
      BlocksLeave(list, j, i);
      assert Repeats(ProcPass, list, j, i);
    }
  }

  lemma ShadowedWrites(list: seq<KGEdge>, i: nat)
    requires i < |list|
    ensures Shadowed(FilePass, list, i) <==> exists j: nat :: WritesAgain(list, j, i)
  {
    if Shadowed(FilePass, list, i) {
      var j :| 0 <= j < i && Repeats(FilePass, list, j, i) && forall m :: j < m < i ==> !Blocks(list, m, i);
      BlocksLeave(list, j, i);
      assert WritesAgain(list, j, i);
    }
    if j: nat :| WritesAgain(list, j, i) {
      BlocksLeave(list, j, i);
      assert Repeats(FilePass, list, j, i);
    }
  }

  /** The process pass marks exactly the reads and receives that repeat an earlier one. */
  lemma ReadsMarked(m: InterMap, e: KGEdge)
    ensures Marks(ProcPass, m, e) <==> ReadBefore(m, e)
  {
    if Marks(ProcPass, m, e) {
      var p: int, i: nat :| ShadowedAt(ProcPass, m, p, i) && m[p][i] == e;
      ShadowedReads(m[p], i);
      var j: nat :| ReadsAgain(m[p], j, i);
    }
    if p: int, j: nat, i: nat :| p in m && ReadsAgain(m[p], j, i) && m[p][i] == e {
      ShadowedReads(m[p], i);
      assert ShadowedAt(ProcPass, m, p, i);
    }
  }

  /** The file pass marks exactly the writes and sends that repeat an earlier one. */
  lemma WritesMarked(m: InterMap, e: KGEdge)
    ensures Marks(FilePass, m, e) <==> WrittenBefore(m, e)
  {
    if Marks(FilePass, m, e) {
      var f: int, i: nat :| ShadowedAt(FilePass, m, f, i) && m[f][i] == e;
      ShadowedWrites(m[f], i);
      var j: nat :| WritesAgain(m[f], j, i);
    }
    if f: int, j: nat, i: nat :| f in m && WritesAgain(m[f], j, i) && m[f][i] == e {
      ShadowedWrites(m[f], i);
      assert ShadowedAt(FilePass, m, f, i);
    }
  }

  lemma TemporaryIsDeleted(f: int, list: seq<KGEdge>, k: nat)
    ensures Temporary(f, list, k) <==> DeletedByCreator(f, list, k)
  {
    if 0 < k < |list| {
      var p := list[0].info.n1;
      forall m | 0 < m <= k
        ensures Accessor(list[m], f) == p <==> Between(list[m], f, p)
      {
      }
    }
  }

  lemma TemporariesMarked(m: InterMap, e: KGEdge)
    ensures TmpMarks(m, e) <==> OfTemporary(m, e)
  {
    if f: int, k: nat, i: nat :| TemporaryAt(m, f, k, i) && m[f][i] == e {
      TemporaryIsDeleted(f, m[f], k);
    }
    if f: int, k: nat, i: nat :| f in m && DeletedByCreator(f, m[f], k) && i <= k && m[f][i] == e {
      TemporaryIsDeleted(f, m[f], k);
      assert TemporaryAt(m, f, k, i);
    }
  }

  lemma SureIsOwn(tb: Tables, e: KGEdge)
    ensures SurelyLibrary(tb, e) <==> OwnLoad(tb.nodes, tb.fileInter, tb.procInter, e)
  {
    LoadsAreIn(tb, e);
  }

  lemma LoadsAreIn(tb: Tables, e: KGEdge)
    ensures IsLoad(tb.procInter, e) <==> exists p :: LoadIn(tb.procInter, p, e)
  {
    if p: int, i: nat :| Loads(tb.procInter, p, i, e) {
      assert LoadIn(tb.procInter, p, e);
    }
    if p :| LoadIn(tb.procInter, p, e) {
      var i :| 0 <= i < |tb.procInter[p]| && tb.procInter[p][i] == e;
      assert Loads(tb.procInter, p, i, e);
    }
  }

  lemma MaybeIsOfOwn(tb: Tables, e: KGEdge, objs: set<KGEdge>)
    requires MaybeLibrary(tb, e, objs)
    ensures LoadOfOwn(tb.nodes, tb.fileInter, tb.procInter, objs, e)
  {
    LoadsAreIn(tb, e);
    var t :| t in objs && t.info.n1 == e.info.n1 && SurelyLibrary(tb, t);
    SureIsOwn(tb, t);
  }

  // ---- As sets of edges, and of their identifiers -------------------------------------------------

  ghost function Shadows(pass: Pass, m: InterMap, objs: set<KGEdge>): set<KGEdge>
  {
    set e | e in objs && Marks(pass, m, e)
  }

  ghost function Temporaries(m: InterMap, objs: set<KGEdge>): set<KGEdge>
  {
    set e | e in objs && TmpMarks(m, e)
  }

  ghost function Missing(nodes: map<int, NodeType>, objs: set<KGEdge>): set<KGEdge>
  {
    set e | e in objs && Dangling(nodes, e)
  }

  /** The identifiers of these edges in the edge table. */
  ghost function KeysOf(edges: EdgeMap, es: set<KGEdge>): set<int>
  {
    set k | k in edges && edges[k] in es
  }

  /** What is left of a table once these identifiers are gone. */
  predicate Without(edges: EdgeMap, ids: set<int>, left: EdgeMap)
  {
    && (forall k | k in left :: k in edges && k !in ids && left[k] == edges[k])
    && (forall k | k in edges && k !in ids :: k in left)
  }

  // ---- The passes ------------------------------------------------------------------------------

  /** The backward scan from one access. */
  method ScanBack(pass: Pass, list: seq<KGEdge>, i: nat) returns (mark: bool)
    requires i < |list| && pass.Looks(list[i])
    ensures mark <==> Shadowed(pass, list, i)
  {
    var b := i;
    while b > 0
      invariant 0 <= b <= i
      invariant forall m :: b <= m < i ==> !Blocks(list, m, i) && !Repeats(pass, list, m, i)
    {
      if list[b - 1].info.n1 == list[i].info.n1 {
        if pass.Looks(list[b - 1]) {
          assert Repeats(pass, list, b - 1, i);
          return true;
        }
      } else if list[b - 1].info.n1 == list[i].info.n2 {
        assert Blocks(list, b - 1, i);
        return false;
      }
      b := b - 1;
    }
    return false;
  }

  /** One list, from its end to its start. */
  method ShadowList(pass: Pass, list: seq<KGEdge>) returns (table: seq<int>)
    ensures forall i | 0 <= i < |list| && Shadowed(pass, list, i) :: list[i].eId in table
    ensures forall x | x in table :: exists i :: 0 <= i < |list| && Shadowed(pass, list, i) && list[i].eId == x
  {
    table := [];
    var n := |list|;
    while n > 0
      invariant 0 <= n <= |list|
      invariant forall i | n <= i < |list| && Shadowed(pass, list, i) :: list[i].eId in table
      invariant forall x | x in table :: exists i :: 0 <= i < |list| && Shadowed(pass, list, i) && list[i].eId == x
    {
      n := n - 1;
      if pass.Looks(list[n]) {
        var mark := ScanBack(pass, list, n);
        if mark {
          table := table + [list[n].eId];
        }
      }
    }
  }

  /** All lists of a table. */
  method ShadowLists(pass: Pass, m: InterMap) returns (table: seq<int>)
    ensures forall f: int, i: nat | ShadowedAt(pass, m, f, i) :: m[f][i].eId in table
    ensures forall x | x in table :: exists f: int, i: nat :: ShadowedAt(pass, m, f, i) && m[f][i].eId == x
  {
    table := [];
    var todo := m.Keys;
    while todo != {}
      invariant todo <= m.Keys
      invariant forall f: int, i: nat | ShadowedAt(pass, m, f, i) && f !in todo :: m[f][i].eId in table
      invariant forall x | x in table :: exists f: int, i: nat :: ShadowedAt(pass, m, f, i) && m[f][i].eId == x
      decreases todo
    {
      var f := Pick(todo);
      var more := ShadowList(pass, m[f]);
      forall x | x in more
        ensures exists f: int, i: nat :: ShadowedAt(pass, m, f, i) && m[f][i].eId == x
      {
        var i :| 0 <= i < |m[f]| && Shadowed(pass, m[f], i) && m[f][i].eId == x;
        assert ShadowedAt(pass, m, f, i);
      }
      table := table + more;
      todo := todo - {f};
    }
  }

  /** One file of the temporary file pass: the collected prefix, or nothing. */
  method TmpList(f: int, list: seq<KGEdge>) returns (table: seq<int>)
    requires list != []
    ensures table == [] ==> forall k: nat :: !Temporary(f, list, k)
    ensures table != [] ==> Temporary(f, list, |table| - 1) && forall i :: 0 <= i < |table| ==> table[i] == list[i].eId
  {
    if list[0].info.relation != Create {
      return [];
    }
    var parent := list[0].info.n1;
    table := [list[0].eId];
    for k := 1 to |list|
      invariant |table| == k && forall i :: 0 <= i < k ==> table[i] == list[i].eId
      invariant forall i :: 1 <= i < k ==> Accessor(list[i], f) == parent && list[i].info.relation != Delete
    {
      if Accessor(list[k], f) != parent {
        return [];
      }
      table := table + [list[k].eId];
      if list[k].info.relation == Delete {
        return;
      }
    }
    table := [];
  }

  lemma TemporaryOnce(f: int, list: seq<KGEdge>, j: nat, k: nat)
    requires Temporary(f, list, j) && Temporary(f, list, k)
    ensures j == k
  {
  }

  class ReduceNoise {
    const infotbl: KG
    var noisy: set<int>

    constructor (kg: KG)
      ensures infotbl == kg && noisy == {}
    {
      infotbl, noisy := kg, {};
    }

    method InsertNoisyEvents(table: seq<int>)
      modifies this`noisy
      ensures noisy == old(noisy) + set x | x in table
    {
      for i := 0 to |table|
        invariant noisy == old(noisy) + set x | x in table[..i]
      {
        assert table[..i + 1] == table[..i] + [table[i]];
        noisy := noisy + {table[i]};
      }
      assert table[..|table|] == table;
    }

    method ShadowFileEdge()
      requires infotbl.TableValid() && infotbl.ListsValid()
      modifies this`noisy, infotbl`fileInter
      ensures infotbl.TableValid() && infotbl.ListsValid() && Resorted(old(infotbl.fileInter), infotbl.fileInter)
      ensures noisy == old(noisy) + KeysOf(infotbl.edges, Shadows(FilePass, infotbl.fileInter, infotbl.objs))
    {
      var lists := SortLists(FileTable, infotbl.fileInter, infotbl.objs);
      infotbl.fileInter := lists;
      var table := ShadowLists(FilePass, lists);
      TableIsMarks(FilePass, FileTable, infotbl, lists, table);
      InsertNoisyEvents(table);
    }

    method ShadowProcEdge()
      requires infotbl.TableValid() && infotbl.ListsValid()
      modifies this`noisy, infotbl`procInter
      ensures infotbl.TableValid() && infotbl.ListsValid() && Resorted(old(infotbl.procInter), infotbl.procInter)
      ensures noisy == old(noisy) + KeysOf(infotbl.edges, Shadows(ProcPass, infotbl.procInter, infotbl.objs))
    {
      var lists := SortLists(ProcTable, infotbl.procInter, infotbl.objs);
      infotbl.procInter := lists;
      var table := ShadowLists(ProcPass, lists);
      TableIsMarks(ProcPass, ProcTable, infotbl, lists, table);
      InsertNoisyEvents(table);
    }

    static lemma TableIsMarks(pass: Pass, t: Table, kg: KG, m: InterMap, table: seq<int>)
      requires kg.TableValid() && ListsOver(t, m, kg.objs)
      requires forall f: int, i: nat | ShadowedAt(pass, m, f, i) :: m[f][i].eId in table
      requires forall x | x in table :: exists f: int, i: nat :: ShadowedAt(pass, m, f, i) && m[f][i].eId == x
      ensures (set x | x in table) == KeysOf(kg.edges, Shadows(pass, m, kg.objs))
    {
      var marked := Shadows(pass, m, kg.objs);
      forall x | x in table
        ensures exists e :: e in marked && e.eId == x
      {
        var f: int, i: nat :| ShadowedAt(pass, m, f, i) && m[f][i].eId == x;
        assert ListOver(t, f, m[f], kg.objs);
        assert m[f][i] in marked;
      }
      IdsAreKeys(kg, table, marked);
    }

    /** Sorts every file list and marks the edges of temporary files. */
    method TmpFile()
      requires infotbl.TableValid() && infotbl.ListsValid()
      modifies this`noisy, infotbl`fileInter
      ensures infotbl.TableValid() && infotbl.ListsValid() && Resorted(old(infotbl.fileInter), infotbl.fileInter)
      ensures noisy == old(noisy) + KeysOf(infotbl.edges, Temporaries(infotbl.fileInter, infotbl.objs))
    {
      var lists := SortLists(FileTable, infotbl.fileInter, infotbl.objs);
      infotbl.fileInter := lists;
      var table := TmpLists(lists, infotbl.objs);
      TableIsTmp(infotbl, lists, table);
      InsertNoisyEvents(table);
    }

    static lemma TmpListTable(m: InterMap, f: int, table: seq<int>)
      requires f in m && (table == [] ==> forall k: nat :: !Temporary(f, m[f], k))
      requires table != [] ==>
                 Temporary(f, m[f], |table| - 1) && (forall i :: 0 <= i < |table| ==> table[i] == m[f][i].eId)
      ensures TmpIds(m, {f}, table)
    {
      forall x | x in table
        ensures exists f: int, k: nat, i: nat :: TemporaryAt(m, f, k, i) && m[f][i].eId == x
      {
        var i :| 0 <= i < |table| && table[i] == x;
        assert TemporaryAt(m, f, |table| - 1, i);
      }
      forall k: nat, i: nat | TemporaryAt(m, f, k, i)
        ensures m[f][i].eId in table
      {
        TemporaryOnce(f, m[f], k, |table| - 1);
        assert table[i] == m[f][i].eId;
      }
    }

    /** The table holds exactly the identifiers of the temporary edges of these files. */
    static ghost predicate TmpIds(m: InterMap, files: set<int>, table: seq<int>)
      reads set f: int, i: nat | f in m && i < |m[f]| :: m[f][i]
    {
      && (forall f: int, k: nat, i: nat | f in files && TemporaryAt(m, f, k, i) :: m[f][i].eId in table)
      && (forall x | x in table :: exists f: int, k: nat, i: nat :: TemporaryAt(m, f, k, i) && m[f][i].eId == x)
    }

    static lemma TmpJoin(m: InterMap, files: set<int>, f: int, table: seq<int>, more: seq<int>)
      requires TmpIds(m, files, table) && TmpIds(m, {f}, more)
      ensures TmpIds(m, files + {f}, table + more)
    {
      forall g: int, k: nat, i: nat | g in files + {f} && TemporaryAt(m, g, k, i)
        ensures m[g][i].eId in table + more
      {
        assert g in {f} || g in files;
      }
    }

    static method TmpLists(m: InterMap, ghost objs: set<KGEdge>) returns (table: seq<int>)
      requires ListsOver(FileTable, m, objs)
      ensures TmpIds(m, m.Keys, table)
    {
      table := [];
      var todo := m.Keys;
      while todo != {}
        invariant todo <= m.Keys && TmpIds(m, m.Keys - todo, table)
        decreases todo
      {
        var f := Pick(todo);
        assert ListOver(FileTable, f, m[f], objs);
        var more := TmpList(f, m[f]);
        TmpListTable(m, f, more);
        TmpJoin(m, m.Keys - todo, f, table, more);
        table, todo := table + more, todo - {f};
        assert m.Keys - todo == m.Keys - (todo + {f}) + {f};
      }
    }

    static lemma TableIsTmp(kg: KG, m: InterMap, table: seq<int>)
      requires kg.TableValid() && ListsOver(FileTable, m, kg.objs)
      requires TmpIds(m, m.Keys, table)
      ensures (set x | x in table) == KeysOf(kg.edges, Temporaries(m, kg.objs))
    {
      var marked := Temporaries(m, kg.objs);
      forall x | x in table
        ensures exists e :: e in marked && e.eId == x
      {
        var f: int, k: nat, i: nat :| TemporaryAt(m, f, k, i) && m[f][i].eId == x;
        assert ListOver(FileTable, f, m[f], kg.objs);
        assert m[f][i] in marked;
      }
      IdsAreKeys(kg, table, marked);
    }

    /** Marks the edges one of whose endpoints has no node. */
    method MissingEdge()
      requires infotbl.TableValid()
      modifies this`noisy
      ensures noisy == old(noisy) + KeysOf(infotbl.edges, Missing(infotbl.nodes, infotbl.objs))
    {
      var todo := infotbl.edges.Keys;
      while todo != {}
        invariant todo <= infotbl.edges.Keys
        invariant noisy == old(noisy) + (KeysOf(infotbl.edges, Missing(infotbl.nodes, infotbl.objs)) - todo)
        decreases todo
      {
        var k := Pick(todo);
        var edge := infotbl.edges[k];
        if edge.info.n1 !in infotbl.nodes || edge.info.n2 !in infotbl.nodes {
          noisy := noisy + {edge.eId};
        }
        todo := todo - {k};
      }
    }

    /** Whether one process alone wrote the file (direction 1), or alone read it. A File node
        without an interaction list ends the program. */
    static method TrackabilityCheck(tb: Tables, f: int, p: int, direction: int) returns (ok: bool, r: bool)
      ensures ok <==> !IsFile(tb, f) || f in tb.fileInter
      ensures ok && direction == 1 ==> (r <==> Trackable(tb, f, p))
      ensures ok && direction != 1 ==> (r <==> IsFile(tb, f) && f in tb.fileInter && ReadOnlyBy(tb.fileInter[f], f, p))
    {
      if f !in tb.nodes || tb.nodes[f] != File {
        return true, false;
      }
      if f !in tb.fileInter {
        return false, false;
      }
      var list := tb.fileInter[f];
      if direction == 1 {
        for i := 0 to |list|
          invariant forall j :: 0 <= j < i && list[j].info.n2 == f ==> list[j].info.n1 == p
        {
          if f == list[i].info.n2 && p != list[i].info.n1 {
            return true, false;
          }
        }
      } else {
        for i := 0 to |list|
          invariant forall j :: 0 <= j < i && list[j].info.n1 == f ==> list[j].info.n2 == p
        {
          if f == list[i].info.n1 && p != list[i].info.n2 {
            return true, false;
          }
        }
      }
      return true, true;
    }

    /** One load: whether it is of a known library or of a file just found to be one. */
    static method LibraryLoad(tb: Tables, edge: KGEdge, known: set<int>)
      returns (ok: bool, libraries: set<int>, mark: bool)
      ensures edge.info.n1 in tb.fileInter ==> ok
      ensures ok ==> (mark <==> edge.info.n1 in known || Trackable(tb, edge.info.n1, edge.info.n2))
      ensures ok ==> libraries == if mark then known + {edge.info.n1} else known
    {
      ok, libraries, mark := true, known, true;
      if edge.info.n1 !in known {
        ok, mark := TrackabilityCheck(tb, edge.info.n1, edge.info.n2, 1);
        if ok && mark {
          libraries := known + {edge.info.n1};
        }
      }
    }

    /** The table lists exactly the identifiers of these edges. */
    static ghost predicate IdsOf(table: seq<int>, marked: set<KGEdge>)
      reads marked
    {
      && (forall x | x in table :: exists e :: e in marked && e.eId == x)
      && (forall e | e in marked :: e.eId in table)
    }

    static lemma IdsJoin(table: seq<int>, marked: set<KGEdge>, e: KGEdge)
      requires IdsOf(table, marked)
      ensures IdsOf(table + [e.eId], marked + {e})
    {
      forall x | x in table + [e.eId]
        ensures exists d :: d in marked + {e} && d.eId == x
      {
        if x in table {
          var d :| d in marked && d.eId == x;
          assert d in marked + {e};
        } else {
          assert e in marked + {e};
        }
      }
    }

    static lemma IdsAreKeys(kg: KG, table: seq<int>, marked: set<KGEdge>)
      requires kg.TableValid() && marked <= kg.objs && IdsOf(table, marked)
      ensures (set x | x in table) == KeysOf(kg.edges, marked)
    {
      forall x | x in table
        ensures x in KeysOf(kg.edges, marked)
      {
        var e :| e in marked && e.eId == x;
      }
      forall k | k in KeysOf(kg.edges, marked)
        ensures k in table
      {
        assert kg.edges[k].eId == k;
      }
    }

    /** The loads of one process, given the libraries known so far. */
    static method LibraryList(tb: Tables, p: int, known: set<int>, noise: seq<int>, ghost before: Found)
      returns (ok: bool, libraries: set<int>, table: seq<int>, ghost after: Found)
      requires p in tb.procInter && before.libraries == known && IdsOf(noise, before.marked)
      ensures ListedHaveFiles(tb, p) ==> ok
      ensures ok ==> after == AfterList(tb, tb.procInter[p], |tb.procInter[p]|, before)
      ensures ok ==> libraries == after.libraries && IdsOf(table, after.marked)
    {
      var list := tb.procInter[p];
      ok, libraries, table, after := true, known, noise, before;
      for n := 0 to |list|
        invariant ok && after == AfterList(tb, list, n, before)
        invariant libraries == after.libraries && IdsOf(table, after.marked)
      {
        var edge := list[n];
        if edge.info.relation == Load {
          var mark;
          ok, libraries, mark := LibraryLoad(tb, edge, libraries);
          if !ok {
            return;
          }
          if mark {
            IdsJoin(table, after.marked, edge);
            table := table + [edge.eId];
          }
        }
        after := AfterLoad(tb, edge, after);
      }
    }

    /** All processes, in some order. */
    static method LibraryTable(tb: Tables) returns (ok: bool, table: seq<int>, ghost order: seq<int>)
      ensures LoadsHaveFiles(tb) ==> ok
      ensures ok ==> Visits(order, tb.procInter) && IdsOf(table, LibraryLoads(tb, order))
    {
      ok, table, order := true, [], [];
      var libraries := {};
      ghost var found := Found({}, {});
      var todo := tb.procInter.Keys;
      while todo != {}
        invariant ok && VisitedSoFar(tb.procInter, order, todo)
        invariant found == AfterOrder(tb, order, |order|)
        invariant libraries == found.libraries && IdsOf(table, found.marked)
        decreases todo
      {
        var p := Pick(todo);
        ok, libraries, table, found := LibraryList(tb, p, libraries, table, found);
        if !ok {
          return;
        }
        OrderGrows(tb, order, p);
        VisitedNext(tb.procInter, order, todo, p);
        order, todo := order + [p], todo - {p};
      }
    }

    /** The order has visited each process that is not left to do, once. */
    static ghost predicate VisitedSoFar(procInter: InterMap, order: seq<int>, todo: set<int>)
    {
      && todo <= procInter.Keys && Distinct(order) && HaveLists(order, procInter)
      && forall p | p in procInter :: p in todo <==> p !in order
    }

    static lemma VisitedNext(procInter: InterMap, order: seq<int>, todo: set<int>, p: int)
      requires VisitedSoFar(procInter, order, todo) && p in todo
      ensures VisitedSoFar(procInter, order + [p], todo - {p})
    {
    }

    static lemma {:induction false} SameOrder(tb: Tables, order: seq<int>, p: int, n: nat)
      requires n <= |order| && p in tb.procInter && HaveLists(order, tb.procInter)
      ensures AfterOrder(tb, order + [p], n) == AfterOrder(tb, order, n)
    {
      if n > 0 {
        SameOrder(tb, order, p, n - 1);
      }
    }

    static lemma OrderGrows(tb: Tables, order: seq<int>, p: int)
      requires p in tb.procInter && HaveLists(order, tb.procInter)
      ensures AfterOrder(tb, order + [p], |order| + 1) ==
              AfterList(tb, tb.procInter[p], |tb.procInter[p]|, AfterOrder(tb, order, |order|))
    {
      SameOrder(tb, order, p, |order|);
    }

    /** Marks what the visiting order of the process lists makes it mark: every sure library load,
        and only possible ones. */
    method Library() returns (ok: bool, ghost order: seq<int>)
      requires infotbl.TableValid() && infotbl.ListsValid()
      modifies this`noisy
      ensures LoadsHaveFiles(Tables(infotbl.nodes, infotbl.fileInter, infotbl.procInter)) ==> ok
      ensures ok ==> LibraryOrdered(Tables(infotbl.nodes, infotbl.fileInter, infotbl.procInter), infotbl.objs, order)
      ensures ok ==> noisy == old(noisy) + KeysOf(infotbl.edges,
                       LibraryLoads(Tables(infotbl.nodes, infotbl.fileInter, infotbl.procInter), order))
    {
      var tb := Tables(infotbl.nodes, infotbl.fileInter, infotbl.procInter);
      var table;
      ok, table, order := LibraryTable(tb);
      if ok {
        WithinBounds(tb, order, infotbl.objs);
        IdsAreKeys(infotbl, table, LibraryLoads(tb, order));
        InsertNoisyEvents(table);
      }
    }

    /** The order visits each process list once, and what it marks lies between the sure and the
        possible loads. */
    static ghost predicate LibraryOrdered(tb: Tables, objs: set<KGEdge>, order: seq<int>)
    {
      Visits(order, tb.procInter) && LibraryBounds(tb, objs, LibraryLoads(tb, order))
    }

    /** Deletes the edges under the collected identifiers. The interaction lists keep pointing at
        the deleted edge objects. */
    method RemoveNoisyEdges()
      requires infotbl.TableValid()
      modifies infotbl`edges, infotbl`noiseNum, infotbl`objs
      ensures infotbl.TableValid()
      ensures Without(old(infotbl.edges), noisy, infotbl.edges)
      ensures |old(infotbl.edges)| == |infotbl.edges| + infotbl.noiseNum - old(infotbl.noiseNum)
    {
      ghost var edges := infotbl.edges;
      var todo := noisy;
      ghost var done := {};
      while todo != {}
        invariant done + todo == noisy && infotbl.TableValid()
        invariant Without(edges, done, infotbl.edges)
        invariant |edges| == |infotbl.edges| + infotbl.noiseNum - old(infotbl.noiseNum)
        decreases todo
      {
        var k := Pick(todo);
        infotbl.DropNoise(k);
        todo, done := todo - {k}, done + {k};
      }
      assert done == noisy;
    }

    /** The passes that work on the sorted lists. */
    method CollectListNoise() returns (ghost tmpOrder: InterMap)
      requires infotbl.TableValid() && infotbl.ListsValid()
      modifies this`noisy, infotbl`fileInter, infotbl`procInter
      ensures infotbl.TableValid() && infotbl.ListsValid()
      ensures Resorted(old(infotbl.fileInter), tmpOrder) && Resorted(tmpOrder, infotbl.fileInter)
      ensures Resorted(old(infotbl.procInter), infotbl.procInter)
      ensures forall k :: k in noisy <==>
                          k in old(noisy) ||
                            ListNoise(infotbl.edges, infotbl.objs, tmpOrder, infotbl.fileInter, infotbl.procInter, k)
    {
      TmpFile();
      tmpOrder := infotbl.fileInter;
      ShadowFileEdge();
      ShadowProcEdge();
    }

    /** The five passes in order; they stop the program only at a File node without a list. */
    method CollectNoise() returns (ok: bool, ghost tmpOrder: InterMap, ghost order: seq<int>)
      requires infotbl.TableValid() && infotbl.ListsValid()
      modifies this`noisy, infotbl`fileInter, infotbl`procInter
      ensures infotbl.TableValid() && infotbl.ListsValid()
      ensures Resorted(old(infotbl.fileInter), tmpOrder) && Resorted(tmpOrder, infotbl.fileInter)
      ensures Resorted(old(infotbl.procInter), infotbl.procInter)
      ensures LoadsHaveFiles(Tables(infotbl.nodes, infotbl.fileInter, infotbl.procInter)) ==> ok
      ensures ok ==> NoiseFound(infotbl.edges, infotbl.objs, tmpOrder,
                                Tables(infotbl.nodes, infotbl.fileInter, infotbl.procInter), order, old(noisy), noisy)
    {
      tmpOrder := CollectListNoise();
      MissingEdge();
      ok, order := Library();
    }

    /** The identifier of an edge of a temporary file, or of one that a shadow pass marks. */
    static ghost predicate ListNoise(edges: EdgeMap, objs: set<KGEdge>, tmpOrder: InterMap,
                                     fileInter: InterMap, procInter: InterMap, k: int)
    {
      || k in KeysOf(edges, Temporaries(tmpOrder, objs))
      || k in KeysOf(edges, Shadows(FilePass, fileInter, objs))
      || k in KeysOf(edges, Shadows(ProcPass, procInter, objs))
    }

    /** The identifiers collected are exactly those of the five passes. */
    static ghost predicate NoiseFound(edges: EdgeMap, objs: set<KGEdge>, tmpOrder: InterMap, tb: Tables,
                                      order: seq<int>, before: set<int>, after: set<int>)
    {
      && LibraryOrdered(tb, objs, order)
      && forall k :: k in after <==>
           || k in before
           || ListNoise(edges, objs, tmpOrder, tb.fileInter, tb.procInter, k)
           || k in KeysOf(edges, Missing(tb.nodes, objs))
           || k in KeysOf(edges, LibraryLoads(tb, order))
    }

    /** What the passes saw, for the statement without them. */
    static ghost function Seen(tmpOrder: InterMap, tb: Tables): Sight
    {
      Sight(tb.nodes, tmpOrder, tb.fileInter, tb.procInter)
    }

    static lemma NoiseOf(edges: EdgeMap, objs: set<KGEdge>, tmpOrder: InterMap, tb: Tables, k: int)
      requires k in edges && edges[k] in objs
      ensures Noise(Seen(tmpOrder, tb), edges[k]) <==>
              || ListNoise(edges, objs, tmpOrder, tb.fileInter, tb.procInter, k)
              || k in KeysOf(edges, Missing(tb.nodes, objs))
    {
      var e := edges[k];
      TemporariesMarked(tmpOrder, e);
      WritesMarked(tb.fileInter, e);
      ReadsMarked(tb.procInter, e);
    }

    /** The edges deleted are those that repeat an access, belong to a temporary file or miss an end,
        and loads of libraries. */
    static lemma NoiseIsGone(edges: EdgeMap, objs: set<KGEdge>, tmpOrder: InterMap, tb: Tables, order: seq<int>,
                             before: set<int>, after: set<int>, left: EdgeMap)
      requires forall k | k in edges :: edges[k] in objs
      requires forall f | f in tmpOrder :: Sorted(tmpOrder[f])
      requires forall f | f in tb.fileInter :: Sorted(tb.fileInter[f])
      requires forall p | p in tb.procInter :: Sorted(tb.procInter[p])
      requires NoiseFound(edges, objs, tmpOrder, tb, order, before, after) && Without(edges, after, left)
      ensures NoiseGone(edges, objs, Seen(tmpOrder, tb), before, left)
    {
      AllSortedInOrder(tmpOrder);
      AllSortedInOrder(tb.fileInter);
      AllSortedInOrder(tb.procInter);
      forall k | k in edges
        ensures k in before || Noise(Seen(tmpOrder, tb), edges[k]) ==> k !in left
        ensures OwnLoad(tb.nodes, tb.fileInter, tb.procInter, edges[k]) ==> k !in left
        ensures k !in left ==>
                || k in before || Noise(Seen(tmpOrder, tb), edges[k])
                || LoadOfOwn(tb.nodes, tb.fileInter, tb.procInter, objs, edges[k])
      {
        NoiseOf(edges, objs, tmpOrder, tb, k);
        LoadGone(edges, objs, tb, order, k);
      }
    }

    static lemma LoadGone(edges: EdgeMap, objs: set<KGEdge>, tb: Tables, order: seq<int>, k: int)
      requires LibraryOrdered(tb, objs, order) && k in edges && edges[k] in objs
      ensures OwnLoad(tb.nodes, tb.fileInter, tb.procInter, edges[k]) ==> k in KeysOf(edges, LibraryLoads(tb, order))
      ensures k in KeysOf(edges, LibraryLoads(tb, order)) ==>
              LoadOfOwn(tb.nodes, tb.fileInter, tb.procInter, objs, edges[k])
    {
      SureIsOwn(tb, edges[k]);
      if k in KeysOf(edges, LibraryLoads(tb, order)) {
        MaybeIsOfOwn(tb, edges[k], objs);
      }
    }

    static lemma NoDanglingLeft(kg: KG, tmpOrder: InterMap, tb: Tables, order: seq<int>,
                                before: set<int>, after: set<int>)
      requires kg.TableValid() && NoiseFound(kg.edges, kg.objs, tmpOrder, tb, order, before, after)
      ensures forall k | k in kg.edges && k !in after :: !Dangling(tb.nodes, kg.edges[k])
    {
    }

    /** The whole pass: the deleted edges are exactly the collected ones, each surviving edge joins
        two nodes of the graph, and the deleted ones are counted. */
    method DeleteNoise() returns (ok: bool, ghost tmpOrder: InterMap, ghost order: seq<int>)
      requires infotbl.TableValid() && infotbl.ListsValid()
      modifies this`noisy, infotbl`fileInter, infotbl`procInter, infotbl`edges, infotbl`noiseNum, infotbl`objs
      ensures Resorted(old(infotbl.fileInter), tmpOrder) && Resorted(tmpOrder, infotbl.fileInter)
      ensures Resorted(old(infotbl.procInter), infotbl.procInter)
      ensures LoadsHaveFiles(Tables(infotbl.nodes, infotbl.fileInter, infotbl.procInter)) ==> ok
      ensures ok ==> NoiseFound(old(infotbl.edges), old(infotbl.objs), tmpOrder,
                                Tables(infotbl.nodes, infotbl.fileInter, infotbl.procInter), order, old(noisy), noisy)
      ensures ok ==> Without(old(infotbl.edges), noisy, infotbl.edges)
      ensures ok ==> NoiseGone(old(infotbl.edges), old(infotbl.objs),
                               Sight(infotbl.nodes, tmpOrder, infotbl.fileInter, infotbl.procInter), old(noisy),
                               infotbl.edges)
      ensures ok ==> infotbl.TableValid() && Closed(infotbl.nodes, infotbl.edges)
      ensures ok ==> |old(infotbl.edges)| == |infotbl.edges| + infotbl.noiseNum - old(infotbl.noiseNum)
    {
      ghost var edges, objs := infotbl.edges, infotbl.objs;
      ok, tmpOrder, order := CollectNoise();
      if ok {
        ghost var tb := Tables(infotbl.nodes, infotbl.fileInter, infotbl.procInter);
        NoDanglingLeft(infotbl, tmpOrder, tb, order, old(noisy), noisy);
        RemoveNoisyEdges();
        NoiseIsGone(edges, objs, tmpOrder, tb, order, old(noisy), noisy, infotbl.edges);
      }
    }
  }
}
