/** The interaction lists hold exactly what the inserted edges say, so graphs with the same edges
    have the same bag of edges in every file's and every process's list. */
module ListContents {
  import opened Basics
  import opened Records
  import opened Observables
  import opened KnowledgeGraph

  function Infos(es: seq<KGEdge>): seq<EdgeInfo>
  {
    seq(|es|, k requires 0 <= k < |es| => es[k].info)
  }

  /** The edges of the trace that belong to one list. */
  ghost function Members(t: Table, k: int, es: seq<KGEdge>): seq<KGEdge>
  {
    if es == [] then []
    else
      var n := |es| - 1;
      Members(t, k, es[..n]) + (if Belongs(t, k, es[n]) then [es[n]] else [])
  }

  lemma {:induction false} MembersInfos(t: Table, k: int, es: seq<KGEdge>)
    ensures Infos(Members(t, k, es)) == Listed(t, k, Describe(es))
  {
    if es != [] {
      var n := |es| - 1;
      MembersInfos(t, k, es[..n]);
      assert Describe(es)[..n] == Describe(es[..n]);
    }
  }

  lemma {:induction false} MembersOf(t: Table, k: int, es: seq<KGEdge>)
    requires Distinct(es)
    ensures Distinct(Members(t, k, es))
    ensures forall e :: e in Members(t, k, es) <==> e in es && Belongs(t, k, e)
  {
    if es != [] {
      var n := |es| - 1;
      MembersOf(t, k, es[..n]);
      assert es == es[..n] + [es[n]];
    }
  }

  lemma DropMember(xs: seq<KGEdge>, ys: seq<KGEdge>) returns (j: nat)
    requires Distinct(xs) && Distinct(ys) && xs != [] && forall e :: e in xs <==> e in ys
    ensures j < |ys| && ys[j] == xs[0] && Distinct(ys[..j] + ys[j + 1..])
    ensures forall e :: e in xs[1..] <==> e in ys[..j] + ys[j + 1..]
  {
    assert xs[0] in ys;
    j :| 0 <= j < |ys| && ys[j] == xs[0];
    var rest := ys[..j] + ys[j + 1..];
    forall e
      ensures e in rest <==> e in ys && e != ys[j]
    {
      if e in ys && e != ys[j] {
        var i :| 0 <= i < |ys| && ys[i] == e;
        assert rest[if i < j then i else i - 1] == e;
      }
    }
    assert xs == [xs[0]] + xs[1..];
  }

  lemma TimesMiddle(a: seq<KGEdge>, e: KGEdge, b: seq<KGEdge>, x: EdgeInfo)
    ensures Times(Infos((a + [e]) + b), x) == Times(Infos(a + b), x) + (if e.info == x then 1 else 0)
  {
    assert Infos((a + [e]) + b) == (Infos(a) + [e.info]) + Infos(b);
    assert Infos(a + b) == Infos(a) + Infos(b);
    TimesConcat(Infos(a) + [e.info], Infos(b), x);
    TimesConcat(Infos(a), [e.info], x);
    TimesConcat(Infos(a), Infos(b), x);
  }

  lemma TimesPull(es: seq<KGEdge>, j: nat, x: EdgeInfo)
    requires j < |es|
    ensures Times(Infos(es), x) == Times(Infos(es[..j] + es[j + 1..]), x) + (if es[j].info == x then 1 else 0)
  {
    TimesMiddle(es[..j], es[j], es[j + 1..], x);
    assert es == (es[..j] + [es[j]]) + es[j + 1..];
  }

  lemma TimesHead(es: seq<KGEdge>, x: EdgeInfo)
    requires es != []
    ensures Times(Infos(es), x) == Times(Infos(es[1..]), x) + (if es[0].info == x then 1 else 0)
  {
    TimesPull(es, 0, x);
    assert es[..0] + es[1..] == es[1..];
  }

  lemma TailDistinct(es: seq<KGEdge>)
    requires Distinct(es) && es != []
    ensures Distinct(es[1..])
  {
  }

  /** Two sequences without repetition over the same edges are permutations of each other. */
  lemma {:induction false} SameMembers(xs: seq<KGEdge>, ys: seq<KGEdge>, x: EdgeInfo)
    requires Distinct(xs) && Distinct(ys) && forall e :: e in xs <==> e in ys
    ensures Times(Infos(xs), x) == Times(Infos(ys), x)
    decreases |xs|
  {
    if xs == [] {
      assert forall i :: 0 <= i < |ys| ==> ys[i] in xs;
    } else {
      var j := DropMember(xs, ys);
      var rest := ys[..j] + ys[j + 1..];
      TailDistinct(xs);
      SameMembers(xs[1..], rest, x);
      TimesPull(ys, j, x);
      TimesHead(xs, x);
    }
  }

  /** The list of `k`, as a bag, is what the observable graph says it is. */
  lemma ListHoldsItsEdges(t: Table, k: int, m: InterMap, trace: seq<KGEdge>, objs: set<KGEdge>)
    requires KG.TraceOf(trace, objs) && ListsOver(t, m, objs)
    ensures multiset(if k in m then Infos(m[k]) else []) == multiset(Listed(t, k, Describe(trace)))
  {
    var list := if k in m then m[k] else [];
    MembersOf(t, k, trace);
    MembersInfos(t, k, trace);
    forall e
      ensures e in list <==> e in Members(t, k, trace)
    {
      if e in list {
        assert ListOver(t, k, m[k], objs);
      }
      if e in trace && Belongs(t, k, e) {
        assert IsListed(m, k, e);
      }
    }
    forall x: EdgeInfo
      ensures multiset(Infos(list))[x] == multiset(Listed(t, k, Describe(trace)))[x]
    {
      SameMembers(list, Members(t, k, trace), x);
      TimesIsMultiplicity(Infos(list), x);
      TimesIsMultiplicity(Infos(Members(t, k, trace)), x);
    }
    assert k !in m ==> Infos(list) == [];
  }

  /** So two graphs with the same edges agree on every interaction list. */
  lemma SameGraphSameLists(a: KG, b: KG, k: int)
    requires a.Valid() && b.Valid() && Same(a.Observe(), b.Observe())
    ensures multiset(if k in a.fileInter then Infos(a.fileInter[k]) else [])
            == multiset(if k in b.fileInter then Infos(b.fileInter[k]) else [])
    ensures multiset(if k in a.procInter then Infos(a.procInter[k]) else [])
            == multiset(if k in b.procInter then Infos(b.procInter[k]) else [])
  {
    ListHoldsItsEdges(FileTable, k, a.fileInter, a.trace, a.objs);
    ListHoldsItsEdges(FileTable, k, b.fileInter, b.trace, b.objs);
    ListHoldsItsEdges(ProcTable, k, a.procInter, a.trace, a.objs);
    ListHoldsItsEdges(ProcTable, k, b.procInter, b.trace, b.objs);
    SameLists(FileTable, k, Describe(a.trace), Describe(b.trace));
    SameLists(ProcTable, k, Describe(a.trace), Describe(b.trace));
  }
}
