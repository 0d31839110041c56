/** What a shadow pass marks, stated on one interaction list: within each window between edges
    leaving the file (or process), only the first access from each source is kept. */
module ShadowSpec {
  import opened Records
  import opened Observables
  import opened KnowledgeGraph

  predicate IsWriteOrSend(rel: EdgeType) { rel == Write || rel == Send }

  predicate IsReadOrRecv(rel: EdgeType) { rel == Read || rel == Recv }

  /** Which accesses a pass looks at: writes in file lists, reads in process lists. */
  datatype Pass = FilePass | ProcPass
  {
    predicate Looks(e: KGEdge)
    {
      if FilePass? then IsWriteOrSend(e.info.relation) else IsReadOrRecv(e.info.relation)
    }
  }

  /** The backward scan from `i` stops at `m` without marking. */
  predicate Blocks(list: seq<KGEdge>, m: nat, i: nat)
    requires m < |list| && i < |list|
  {
    list[m].info.n1 != list[i].info.n1 && list[m].info.n1 == list[i].info.n2
  }

  predicate Repeats(pass: Pass, list: seq<KGEdge>, j: nat, i: nat)
    requires j < |list| && i < |list|
  {
    list[j].info.n1 == list[i].info.n1 && pass.Looks(list[j])
  }

  /** What the scan decides: an earlier access from the same source, nothing blocking in between. */
  ghost predicate Shadowed(pass: Pass, list: seq<KGEdge>, i: nat)
    requires i < |list|
  {
    && pass.Looks(list[i])
    && exists j :: 0 <= j < i && Repeats(pass, list, j, i) && forall m :: j < m < i ==> !Blocks(list, m, i)
  }

  /** The number of edges leaving `f` before position `i`: the window `i` is in. */
  function Window(list: seq<KGEdge>, f: int, i: nat): nat
    requires i <= |list|
  {
    if i == 0 then 0
    else Window(list, f, i - 1) + (if list[i - 1].info.n1 == f then 1 else 0)
  }

  lemma {:induction false} WindowGrows(list: seq<KGEdge>, f: int, j: nat, i: nat)
    requires j <= i <= |list|
    ensures Window(list, f, j) <= Window(list, f, i)
    ensures Window(list, f, j) == Window(list, f, i) <==> forall m :: j <= m < i ==> list[m].info.n1 != f
  {
    if j < i {
      WindowGrows(list, f, j, i - 1);
    }
  }

  /** An earlier access from the same source in the same window. */
  ghost predicate SeenInWindow(pass: Pass, list: seq<KGEdge>, f: int, i: nat)
    requires i < |list|
  {
    exists j :: 0 <= j < i && Repeats(pass, list, j, i) && Window(list, f, j) == Window(list, f, i)
  }

  /** The accesses of a list all go into the node that owns it. */
  predicate Incoming(pass: Pass, list: seq<KGEdge>, f: int)
  {
    forall i :: 0 <= i < |list| && pass.Looks(list[i]) ==> list[i].info.n2 == f
  }

  lemma SameWindow(pass: Pass, list: seq<KGEdge>, f: int, j: nat, i: nat)
    requires j < i < |list| && Repeats(pass, list, j, i) && list[i].info.n1 != f && list[i].info.n2 == f
    ensures Window(list, f, j) == Window(list, f, i) <==> forall m :: j < m < i ==> !Blocks(list, m, i)
  {
    WindowGrows(list, f, j, i);
    if forall m :: j < m < i ==> !Blocks(list, m, i) {
      forall m | j <= m < i
        ensures list[m].info.n1 != f
      {
        assert m > j ==> !Blocks(list, m, i);
      }
    } else {
      var m :| j < m < i && Blocks(list, m, i);
      assert list[m].info.n1 == f;
    }
  }

  /** The scan marks exactly the accesses that are not the first of their source in their window.
      Accesses of the node by itself form one window of their own. */
  lemma ShadowedIsWindowwise(pass: Pass, list: seq<KGEdge>, f: int, i: nat)
    requires Incoming(pass, list, f) && i < |list| && pass.Looks(list[i])
    ensures list[i].info.n1 != f ==> (Shadowed(pass, list, i) <==> SeenInWindow(pass, list, f, i))
    ensures list[i].info.n1 == f ==>
              (Shadowed(pass, list, i) <==> exists j :: 0 <= j < i && Repeats(pass, list, j, i))
  {
    if list[i].info.n1 != f {
      forall j | 0 <= j < i && Repeats(pass, list, j, i)
        ensures Window(list, f, j) == Window(list, f, i) <==> forall m :: j < m < i ==> !Blocks(list, m, i)
      {
        SameWindow(pass, list, f, j, i);
      }
    }
  }

  /** Every source that accesses the node in a window still has an unmarked access there, so the
      set of writers (or of objects read) per window is unchanged. */
  lemma {:induction false} FirstInWindowKept(pass: Pass, list: seq<KGEdge>, f: int, i: nat) returns (k: nat)
    requires Incoming(pass, list, f) && i < |list| && pass.Looks(list[i]) && list[i].info.n1 != f
    ensures k <= i && Repeats(pass, list, k, i) && Window(list, f, k) == Window(list, f, i)
    ensures !Shadowed(pass, list, k)
    ensures forall j :: 0 <= j < k && Repeats(pass, list, j, i) ==> Window(list, f, j) != Window(list, f, i)
    decreases i
  {
    ShadowedIsWindowwise(pass, list, f, i);
    if Shadowed(pass, list, i) {
      var j :| 0 <= j < i && Repeats(pass, list, j, i) && Window(list, f, j) == Window(list, f, i);
      k := FirstInWindowKept(pass, list, f, j);
    } else {
      k := i;
    }
  }

  /** Without any assumption on the list: a marked access repeats an unmarked one. */
  lemma {:induction false} UnmarkedTwin(pass: Pass, list: seq<KGEdge>, i: nat) returns (k: nat)
    requires i < |list| && Shadowed(pass, list, i)
    ensures k < i && Repeats(pass, list, k, i) && !Shadowed(pass, list, k)
    decreases i
  {
    var j :| 0 <= j < i && Repeats(pass, list, j, i) && forall m :: j < m < i ==> !Blocks(list, m, i);
    if Shadowed(pass, list, j) {
      k := UnmarkedTwin(pass, list, j);
    } else {
      k := j;
    }
  }
}
