/** Bringing the entries of the knowledge graph matrices into canonical order. */
module KgSort {
  import opened Basics
  import opened Positions
  import opened Iteration

  /** One entry: head, tail, relation and the value of the matrix, which is not looked at. */
  datatype Quad<V> = Quad(h: int, t: int, r: int, v: V)

  /** The entries with one head, as parallel lists. */
  datatype Lists<V> = Lists(ts: seq<int>, rs: seq<int>, vs: seq<V>)

  predicate Parallel<V>(l: Lists<V>)
  {
    |l.ts| == |l.rs| == |l.vs|
  }

  function Rows<V>(h: int, l: Lists<V>): seq<Quad<V>>
    requires Parallel(l)
  {
    seq(|l.ts|, i requires 0 <= i < |l.ts| => Quad(h, l.ts[i], l.rs[i], l.vs[i]))
  }

  /** Four parallel lists as one. */
  function Zip<V>(hs: seq<int>, ts: seq<int>, rs: seq<int>, vs: seq<V>): seq<Quad<V>>
    requires |hs| == |ts| == |rs| == |vs|
  {
    seq(|hs|, i requires 0 <= i < |hs| => Quad(hs[i], ts[i], rs[i], vs[i]))
  }

  /** Lexicographic order by head and tail. */
  predicate Before<V>(a: Quad<V>, b: Quad<V>)
  {
    a.h < b.h || (a.h == b.h && a.t <= b.t)
  }

  predicate Sorted<V>(qs: seq<Quad<V>>)
  {
    forall i, j :: 0 <= i < j < |qs| ==> Before(qs[i], qs[j])
  }

  lemma SortedRows<V>(hs: seq<int>, ts: seq<int>, rs: seq<int>, vs: seq<V>)
    requires |hs| == |ts| == |rs| == |vs| && Sorted(Zip(hs, ts, rs, vs))
    ensures forall i, j :: 0 <= i < j < |hs| ==> hs[i] < hs[j] || (hs[i] == hs[j] && ts[i] <= ts[j])
  {
    forall i, j | 0 <= i < j < |hs|
      ensures hs[i] < hs[j] || (hs[i] == hs[j] && ts[i] <= ts[j])
    {
      assert Before(Zip(hs, ts, rs, vs)[i], Zip(hs, ts, rs, vs)[j]);
    }
  }

  // ---- Grouping by head -----------------------------------------------------------------------

  /** The entries with head `h`, in order. */
  function OfHead<V>(qs: seq<Quad<V>>, h: int): seq<Quad<V>>
  {
    if qs == [] then []
    else OfHead(qs[..|qs| - 1], h) + if qs[|qs| - 1].h == h then [qs[|qs| - 1]] else []
  }

  lemma {:induction false} CountOfHead<V>(qs: seq<Quad<V>>, h: int, x: Quad<V>)
    ensures Times(OfHead(qs, h), x) == if x.h == h then Times(qs, x) else 0
    decreases |qs|
  {
    if qs != [] {
      var n := |qs| - 1;
      CountOfHead(qs[..n], h, x);
      TimesConcat(OfHead(qs[..n], h), if qs[n].h == h then [qs[n]] else [], x);
    }
  }

  predicate Grouped<V(==)>(qs: seq<Quad<V>>, groups: map<int, Lists<V>>)
  {
    && (forall h | h in groups :: Parallel(groups[h]) && Rows(h, groups[h]) == OfHead(qs, h))
    && (forall i | 0 <= i < |qs| :: qs[i].h in groups)
  }

  /** Appends an entry to its group. */
  function Appended<V>(l: Lists<V>, q: Quad<V>): Lists<V>
  {
    Lists(l.ts + [q.t], l.rs + [q.r], l.vs + [q.v])
  }

  lemma GroupOneMore<V>(qs: seq<Quad<V>>, groups: map<int, Lists<V>>, q: Quad<V>)
    requires Grouped(qs, groups)
    ensures var l := if q.h in groups then groups[q.h] else Lists([], [], []);
            Grouped(qs + [q], groups[q.h := Appended(l, q)])
  {
    var l := if q.h in groups then groups[q.h] else Lists([], [], []);
    assert (qs + [q])[..|qs|] == qs;
    if q.h !in groups {
      NoneOfHead(qs, q.h);
    }
    assert Rows(q.h, Appended(l, q)) == Rows(q.h, l) + [q];
    forall h | h in groups && h != q.h ensures OfHead(qs + [q], h) == Rows(h, groups[h]) {
    }
  }

  lemma {:induction false} NoneOfHead<V>(qs: seq<Quad<V>>, h: int)
    requires forall i | 0 <= i < |qs| :: qs[i].h != h
    ensures OfHead(qs, h) == []
    decreases |qs|
  {
    if qs != [] {
      NoneOfHead(qs[..|qs| - 1], h);
    }
  }

  method Group<V(==)>(hs: seq<int>, ts: seq<int>, rs: seq<int>, vs: seq<V>) returns (groups: map<int, Lists<V>>)
    requires |hs| == |ts| == |rs| == |vs|
    ensures Grouped(Zip(hs, ts, rs, vs), groups)
  {
    groups := map[];
    ghost var qs := Zip(hs, ts, rs, vs);
    for i := 0 to |hs|
      invariant Grouped(qs[..i], groups)
    {
      var q := Quad(hs[i], ts[i], rs[i], vs[i]);
      GroupOneMore(qs[..i], groups, q);
      assert qs[..i + 1] == qs[..i] + [q];
      if q.h !in groups {
        groups := groups[q.h := Lists([], [], [])];
      }
      groups := groups[q.h := Appended(groups[q.h], q)];
    }
    assert qs[..|hs|] == qs;
  }

  // ---- Sorting one head -----------------------------------------------------------------------

  predicate Ordering(order: seq<nat>, ts: seq<int>)
  {
    && InRange(order, |ts|) && Distinct(order) && (forall i: nat | i < |ts| :: i in order)
    && (forall i, j :: 0 <= i < j < |order| ==> ts[order[i]] <= ts[order[j]])
  }

  lemma {:induction false} SomeLeast(ts: seq<int>, left: set<nat>) returns (k: nat)
    requires left != {} && forall i | i in left :: i < |ts|
    ensures k in left && forall i | i in left :: ts[k] <= ts[i]
    decreases left
  {
    k := Member(left);
    if left != {k} {
      var rest := left - {k};
      assert left == rest + {k};
      var l := SomeLeast(ts, rest);
      if ts[l] < ts[k] {
        k := l;
      }
    }
  }

  function Below(n: nat): (s: set<nat>)
    ensures forall i: nat :: i in s <==> i < n
  {
    if n == 0 then {} else Below(n - 1) + {n - 1}
  }

  /** Positions in the order of their values; ties come in any order. */
  method Argsort(ts: seq<int>) returns (order: seq<nat>)
    ensures Ordering(order, ts)
  {
    order := [];
    var left := Below(|ts|);
    while left != {}
      invariant forall i | i in left :: i < |ts| && i !in order
      invariant InRange(order, |ts|) && Distinct(order) && (forall i: nat | i < |ts| :: i in order || i in left)
      invariant forall i, j :: 0 <= i < j < |order| ==> ts[order[i]] <= ts[order[j]]
      invariant forall i, j | 0 <= i < |order| && j in left :: ts[order[i]] <= ts[j]
      decreases left
    {
      ghost var least := SomeLeast(ts, left);
      var k :| k in left && forall i | i in left :: ts[k] <= ts[i];
      left, order := left - {k}, order + [k];
    }
  }

  function Reorder<V>(l: Lists<V>, order: seq<nat>): Lists<V>
    requires Parallel(l) && InRange(order, |l.ts|)
  {
    Lists(Picked(l.ts, order), Picked(l.rs, order), Picked(l.vs, order))
  }

  /** The rows of a head, by tail. */
  predicate SortedGroup<V>(l: Lists<V>)
  {
    Parallel(l) && forall i, j :: 0 <= i < j < |l.ts| ==> l.ts[i] <= l.ts[j]
  }

  lemma ReorderSorts<V(!new)>(h: int, l: Lists<V>, order: seq<nat>)
    requires Parallel(l) && Ordering(order, l.ts)
    ensures SortedGroup(Reorder(l, order)) && Permuted(Rows(h, Reorder(l, order)), Rows(h, l))
  {
    assert Rows(h, Reorder(l, order)) == Picked(Rows(h, l), order);
    PickedPermutes(Rows(h, l), order);
  }

  /** Every head is sorted; its rows are those it had. */
  ghost predicate AllSorted<V(!new)>(groups: map<int, Lists<V>>, sorted: map<int, Lists<V>>, heads: set<int>)
  {
    forall h | h in heads :: h in groups && h in sorted && Parallel(groups[h]) && SortedGroup(sorted[h])
                             && Permuted(Rows(h, sorted[h]), Rows(h, groups[h]))
  }

  method SortTails<V(!new)>(groups: map<int, Lists<V>>) returns (sorted: map<int, Lists<V>>)
    requires forall h | h in groups :: Parallel(groups[h])
    ensures sorted.Keys == groups.Keys && AllSorted(groups, sorted, groups.Keys)
  {
    sorted := map[];
    var todo := groups.Keys;
    while todo != {}
      invariant todo <= groups.Keys && sorted.Keys == groups.Keys - todo
      invariant AllSorted(groups, sorted, groups.Keys - todo)
      decreases todo
    {
      var h := Pick(todo);
      var order := Argsort(groups[h].ts);
      ReorderSorts(h, groups[h], order);
      sorted := sorted[h := Reorder(groups[h], order)];
      todo := todo - {h};
    }
  }

  // ---- All heads ------------------------------------------------------------------------------

  predicate Increasing(hs: seq<int>)
  {
    forall i, j :: 0 <= i < j < |hs| ==> hs[i] < hs[j]
  }

  lemma {:induction false} SomeSmallest(left: set<int>) returns (k: int)
    requires left != {}
    ensures k in left && forall i | i in left :: k <= i
    decreases left
  {
    k := Member(left);
    if left != {k} {
      var rest := left - {k};
      assert left == rest + {k};
      var l := SomeSmallest(rest);
      if l < k {
        k := l;
      }
    }
  }

  method SortKeys(keys: set<int>) returns (hs: seq<int>)
    ensures Increasing(hs) && forall h :: h in hs <==> h in keys
  {
    hs := [];
    var left := keys;
    while left != {}
      invariant Increasing(hs) && (forall h :: h in keys <==> h in hs || h in left)
      invariant left <= keys && forall i, h | 0 <= i < |hs| && h in left :: hs[i] < h
      decreases left
    {
      ghost var least := SomeSmallest(left);
      var k :| k in left && forall h | h in left :: k <= h;
      left, hs := left - {k}, hs + [k];
    }
  }

  /** The output so far: the sorted entries of the heads `done`, and of no other. */
  ghost predicate Output<V(!new)>(qs: seq<Quad<V>>, out: seq<Quad<V>>, done: seq<int>)
  {
    && Sorted(out) && (forall i | 0 <= i < |out| :: out[i].h in done)
    && (forall x :: Times(out, x) == if x.h in done then Times(qs, x) else 0)
  }

  lemma OutputOneMore<V(!new)>(qs: seq<Quad<V>>, out: seq<Quad<V>>, done: seq<int>, h: int, group: Lists<V>,
                        l: Lists<V>)
    requires Output(qs, out, done) && forall i | 0 <= i < |done| :: done[i] < h
    requires Parallel(group) && Rows(h, group) == OfHead(qs, h) && SortedGroup(l) &&
             Permuted(Rows(h, l), Rows(h, group))
    ensures Output(qs, out + Rows(h, l), done + [h])
  {
    forall x ensures Times(out + Rows(h, l), x) == if x.h in done + [h] then Times(qs, x) else 0 {
      TimesConcat(out, Rows(h, l), x);
      CountOfHead(qs, h, x);
    }
  }

  lemma {:induction false} CountAbsent<V>(qs: seq<Quad<V>>, x: Quad<V>)
    requires forall i | 0 <= i < |qs| :: qs[i].h != x.h
    ensures Times(qs, x) == 0
    decreases |qs|
  {
    if qs != [] {
      CountAbsent(qs[..|qs| - 1], x);
    }
  }

  function Repeat(h: int, n: nat): seq<int>
  {
    seq(n, _ => h)
  }

  lemma ZipConcat<V>(hs: seq<int>, ts: seq<int>, rs: seq<int>, vs: seq<V>,
                     hs2: seq<int>, ts2: seq<int>, rs2: seq<int>, vs2: seq<V>)
    requires |hs| == |ts| == |rs| == |vs| && |hs2| == |ts2| == |rs2| == |vs2|
    ensures Zip(hs + hs2, ts + ts2, rs + rs2, vs + vs2) == Zip(hs, ts, rs, vs) + Zip(hs2, ts2, rs2, vs2)
  {
  }

  /** One round of the output loop: the group of the next head is appended. */
  lemma GroupOutput<V(!new)>(qs: seq<Quad<V>>, groups: map<int, Lists<V>>, sorted: map<int, Lists<V>>, heads: seq<int>,
                             i: nat, hs: seq<int>, ts: seq<int>, rs: seq<int>, vs: seq<V>)
    requires Grouped(qs, groups) && sorted.Keys == groups.Keys && AllSorted(groups, sorted, groups.Keys)
    requires i < |heads| && heads[i] in groups && Increasing(heads)
    requires |hs| == |ts| == |rs| == |vs| && Output(qs, Zip(hs, ts, rs, vs), heads[..i])
    ensures var l := sorted[heads[i]];
            Output(qs, Zip(hs + Repeat(heads[i], |l.ts|), ts + l.ts, rs + l.rs, vs + l.vs), heads[..i + 1])
  {
    var h, l := heads[i], sorted[heads[i]];
    OutputOneMore(qs, Zip(hs, ts, rs, vs), heads[..i], h, groups[h], l);
    ZipConcat(hs, ts, rs, vs, Repeat(h, |l.ts|), l.ts, l.rs, l.vs);
    assert heads[..i + 1] == heads[..i] + [h] && Zip(Repeat(h, |l.ts|), l.ts, l.rs, l.vs) == Rows(h, l);
  }

  lemma OutputDone<V(!new)>(qs: seq<Quad<V>>, out: seq<Quad<V>>, heads: seq<int>)
    requires Output(qs, out, heads) && forall i | 0 <= i < |qs| :: qs[i].h in heads
    ensures Permuted(out, qs)
  {
    forall x ensures Times(out, x) == Times(qs, x) {
      if x.h !in heads {
        CountAbsent(qs, x);
      }
    }
  }

  /** Sorts four parallel lists: the entries that come out are those that went in, ordered by head and
      tail, however ties are broken. */
  method SortEntries<V(!new, ==)>(hs: seq<int>, rs: seq<int>, ts: seq<int>, vs: seq<V>)
    returns (hs': seq<int>, rs': seq<int>, ts': seq<int>, vs': seq<V>)
    requires |hs| == |ts| == |rs| == |vs|
    ensures |hs'| == |ts'| == |rs'| == |vs'|
    ensures Sorted(Zip(hs', ts', rs', vs')) && Permuted(Zip(hs', ts', rs', vs'), Zip(hs, ts, rs, vs))
  {
    ghost var qs := Zip(hs, ts, rs, vs);
    var groups := Group(hs, ts, rs, vs);
    var sorted := SortTails(groups);
    var heads := SortKeys(sorted.Keys);
    hs', rs', ts', vs' := [], [], [], [];
    for i := 0 to |heads|
      invariant |hs'| == |ts'| == |rs'| == |vs'|
      invariant Output(qs, Zip(hs', ts', rs', vs'), heads[..i])
    {
      var h, l := heads[i], sorted[heads[i]];
      GroupOutput(qs, groups, sorted, heads, i, hs', ts', rs', vs');
      hs', ts', rs', vs' := hs' + Repeat(h, |l.ts|), ts' + l.ts, rs' + l.rs, vs' + l.vs;
    }
    assert heads[..|heads|] == heads;
    OutputDone(qs, Zip(hs', ts', rs', vs'), heads);
  }

  /** A matrix of the adjacency list: rows, columns and data. */
  datatype Matrix<V> = Matrix(rows: seq<int>, cols: seq<int>, data: seq<V>)

  /** The entries of all matrices; matrix `k` belongs to relation `adjR[k]`. */
  function AllEntries<V>(norms: seq<Matrix<V>>, adjR: seq<int>): seq<Quad<V>>
    requires |norms| == |adjR| && forall k | 0 <= k < |norms| :: |norms[k].rows| == |norms[k].cols| == |norms[k].data|
  {
    if norms == [] then []
    else
      var n := |norms| - 1;
      var m := norms[n];
      AllEntries(norms[..n], adjR[..n]) + Zip(m.rows, m.cols, Repeat(adjR[n], |m.rows|), m.data)
  }

  /** How many entries the first `k` matrices have. */
  function Offset<V>(norms: seq<Matrix<V>>, k: nat): nat
    requires k <= |norms|
  {
    if k == 0 then 0 else Offset(norms, k - 1) + |norms[k - 1].rows|
  }

  lemma {:induction false} OffsetOfPrefix<V>(norms: seq<Matrix<V>>, k: nat)
    requires 0 < |norms| && k < |norms|
    ensures Offset(norms[..|norms| - 1], k) == Offset(norms, k)
  {
    if k > 0 {
      OffsetOfPrefix(norms, k - 1);
    }
  }

  /** Each entry of a matrix, by its row, its column, the relation of the matrix and its value, has a place
      of its own, and there are no other places. */
  lemma {:induction false} EntryAt<V>(norms: seq<Matrix<V>>, adjR: seq<int>, k: nat, i: nat)
    requires |norms| == |adjR| && forall k | 0 <= k < |norms| :: |norms[k].rows| == |norms[k].cols| == |norms[k].data|
    requires k < |norms| && i < |norms[k].rows|
    ensures |AllEntries(norms, adjR)| == Offset(norms, |norms|) && Offset(norms, k) + i < |AllEntries(norms, adjR)|
    ensures AllEntries(norms, adjR)[Offset(norms, k) + i] ==
            Quad(norms[k].rows[i], norms[k].cols[i], adjR[k], norms[k].data[i])
    decreases |norms|
  {
    EntriesCounted(norms, adjR);
    var n := |norms| - 1;
    OffsetOfPrefix(norms, n);
    EntriesCounted(norms[..n], adjR[..n]);
    if k < n {
      EntryAt(norms[..n], adjR[..n], k, i);
      OffsetOfPrefix(norms, k);
    }
  }

  lemma {:induction false} EntriesCounted<V>(norms: seq<Matrix<V>>, adjR: seq<int>)
    requires |norms| == |adjR| && forall k | 0 <= k < |norms| :: |norms[k].rows| == |norms[k].cols| == |norms[k].data|
    ensures |AllEntries(norms, adjR)| == Offset(norms, |norms|)
    decreases |norms|
  {
    if norms != [] {
      var n := |norms| - 1;
      EntriesCounted(norms[..n], adjR[..n]);
      OffsetOfPrefix(norms, n);
    }
  }

  method GetAllKgData<V(!new, ==)>(norms: seq<Matrix<V>>, adjR: seq<int>)
    returns (hs': seq<int>, rs': seq<int>, ts': seq<int>, vs': seq<V>)
    requires |norms| == |adjR| && forall k | 0 <= k < |norms| :: |norms[k].rows| == |norms[k].cols| == |norms[k].data|
    ensures |hs'| == |ts'| == |rs'| == |vs'|
    ensures Sorted(Zip(hs', ts', rs', vs')) && Permuted(Zip(hs', ts', rs', vs'), AllEntries(norms, adjR))
    ensures forall i, j :: 0 <= i < j < |hs'| ==> hs'[i] < hs'[j] || (hs'[i] == hs'[j] && ts'[i] <= ts'[j])
  {
    var hs, ts, rs, vs := [], [], [], [];
    for k := 0 to |norms|
      invariant |hs| == |ts| == |rs| == |vs|
      invariant Zip(hs, ts, rs, vs) == AllEntries(norms[..k], adjR[..k])
    {
      var m := norms[k];
      assert norms[..k + 1][..k] == norms[..k] && adjR[..k + 1][..k] == adjR[..k];
      var r := Repeat(adjR[k], |m.rows|);
      ZipConcat(hs, ts, rs, vs, m.rows, m.cols, r, m.data);
      hs, ts, rs, vs := hs + m.rows, ts + m.cols, rs + r, vs + m.data;
    }
    assert norms[..|norms|] == norms && adjR[..|norms|] == adjR;
    hs', rs', ts', vs' := SortEntries(hs, rs, ts, vs);
    SortedRows(hs', ts', rs', vs');
  }
}
