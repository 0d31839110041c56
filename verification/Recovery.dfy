/** Processes that were never executed get the executable and the arguments of an ancestor. */
module Recovery {
  import opened Basics
  import opened Records
  import opened Rekeying
  import opened NodeTables
  import opened BeatTables
  import opened Iteration

  type Pids = map<string, nat>

  predicate Blank(r: Process)
  {
    r.exe == " "
  }

  /** The process needs an executable and its parent is known. */
  predicate Orphaned(pool: seq<Process>, pids: Pids, p: nat)
  {
    p < |pool| && Blank(pool[p]) && pool[p].ppid in pids
  }

  /** `s` is the nearest ancestor of `p`, or `p` itself, that has an executable; it is `n` steps up. */
  predicate Reaches(pool: seq<Process>, pids: Pids, p: nat, s: nat, n: nat)
    decreases n
  {
    && p < |pool| && s < |pool|
    && if !Blank(pool[p]) then n == 0 && s == p
       else n > 0 && pool[p].ppid in pids && Reaches(pool, pids, pids[pool[p].ppid], s, n - 1)
  }

  ghost predicate HasSource(pool: seq<Process>, pids: Pids, p: nat)
  {
    exists s: nat, n: nat :: Reaches(pool, pids, p, s, n)
  }

  /** Every blank process with a known parent has an ancestor to take its executable from. */
  ghost predicate Recoverable(pool: seq<Process>, pids: Pids)
  {
    forall p | Orphaned(pool, pids, p) :: HasSource(pool, pids, p)
  }

  function Filled(hasher: Hasher, r: Process, source: Process): Process
  {
    r.(exe := source.exe, args := source.args, id := hasher(r.pid + source.exe + source.args))
  }

  ghost predicate FilledFromAncestor(hasher: Hasher, pool: seq<Process>, pids: Pids, p: nat, r: Process)
    requires p < |pool|
  {
    exists s: nat, n: nat :: Reaches(pool, pids, p, s, n) && r == Filled(hasher, pool[p], pool[s])
  }

  /** Exactly the blank processes with a known parent have changed, each after its nearest ancestor
      that had an executable before. */
  ghost predicate Recovered(hasher: Hasher, pool: seq<Process>, pids: Pids, after: seq<Process>)
  {
    && |after| == |pool|
    && (forall p | 0 <= p < |pool| ::
       if Orphaned(pool, pids, p) then FilledFromAncestor(hasher, pool, pids, p, after[p])
                                      else after[p] == pool[p])
  }

  lemma {:induction false} ReachesOne(pool: seq<Process>, pids: Pids, p: nat, s: nat, n: nat, s': nat, n': nat)
    requires Reaches(pool, pids, p, s, n) && Reaches(pool, pids, p, s', n')
    ensures s == s' && n == n'
    decreases n
  {
    if Blank(pool[p]) {
      ReachesOne(pool, pids, pids[pool[p].ppid], s, n - 1, s', n' - 1);
    }
  }

  /** The outcome does not depend on the order in which the processes are visited. */
  lemma RecoveredOne(hasher: Hasher, pool: seq<Process>, pids: Pids, after: seq<Process>, after': seq<Process>)
    requires Recovered(hasher, pool, pids, after) && Recovered(hasher, pool, pids, after')
    ensures after == after'
  {
    forall p | 0 <= p < |pool| ensures after[p] == after'[p] {
      if Orphaned(pool, pids, p) {
        var s: nat, n: nat :| Reaches(pool, pids, p, s, n) && after[p] == Filled(hasher, pool[p], pool[s]);
        var s': nat, n': nat :| Reaches(pool, pids, p, s', n') && after'[p] == Filled(hasher, pool[p], pool[s']);
        ReachesOne(pool, pids, p, s, n, s', n');
      }
    }
  }

  /** From a process up to its nearest ancestor with an executable, parent by parent. */
  predicate LineUp(pool: seq<Process>, pids: Pids, line: seq<nat>)
  {
    && line != [] && (forall i :: 0 <= i < |line| ==> line[i] < |pool|)
    && (forall i :: 0 <= i < |line| - 1 ==> pool[line[i]].exe == " ")
    && (forall i :: 0 <= i < |line| - 1 ==> pool[line[i]].ppid in pids && pids[pool[line[i]].ppid] == line[i + 1])
    && pool[line[|line| - 1]].exe != " "
  }

  lemma {:induction false} ReachesLine(pool: seq<Process>, pids: Pids, p: nat, s: nat, n: nat) returns (line: seq<nat>)
    requires Reaches(pool, pids, p, s, n)
    ensures LineUp(pool, pids, line) && |line| == n + 1 && line[0] == p && line[n] == s
    decreases n
  {
    if Blank(pool[p]) {
      var rest := ReachesLine(pool, pids, pids[pool[p].ppid], s, n - 1);
      line := [p] + rest;
    } else {
      line := [p];
    }
  }

  /** What the recovery writes: the executable and the arguments of the ancestor, and their hash. */
  lemma RecoveredNames(hasher: Hasher, pool: seq<Process>, pids: Pids, after: seq<Process>, p: nat)
    returns (line: seq<nat>)
    requires Recovered(hasher, pool, pids, after) && p < |pool|
    requires pool[p].exe == " " && pool[p].ppid in pids
    ensures LineUp(pool, pids, line) && line[0] == p
    ensures var s := pool[line[|line| - 1]];
            after[p] == Process(pool[p].pid, s.exe, s.args, pool[p].ppid, hasher(pool[p].pid + s.exe + s.args))
  {
    assert Orphaned(pool, pids, p);
    var s: nat, n: nat :| Reaches(pool, pids, p, s, n) && after[p] == Filled(hasher, pool[p], pool[s]);
    line := ReachesLine(pool, pids, p, s, n);
  }

  // ---- While it runs ------------------------------------------------------------------------------

  /** Some of the orphaned processes have been filled. */
  ghost predicate Underway(hasher: Hasher, was: seq<Process>, pids: Pids, pool: seq<Process>)
  {
    && |pool| == |was|
    && (forall p | 0 <= p < |was| ::
          pool[p] == was[p] || (Orphaned(was, pids, p) && FilledFromAncestor(hasher, was, pids, p, pool[p])))
  }

  /** A process that has an executable now has that of its nearest ancestor. */
  lemma SourceOf(hasher: Hasher, was: seq<Process>, pids: Pids, pool: seq<Process>, p: nat) returns (s: nat, n: nat)
    requires Underway(hasher, was, pids, pool) && p < |pool| && !Blank(pool[p])
    ensures Reaches(was, pids, p, s, n) && pool[p].exe == was[s].exe && pool[p].args == was[s].args
  {
    if pool[p] == was[p] {
      s, n := p, 0;
    } else {
      s, n :| Reaches(was, pids, p, s, n) && pool[p] == Filled(hasher, was[p], was[s]);
    }
  }

  lemma {:induction false} ReachesNonBlank(pool: seq<Process>, pids: Pids, p: nat, s: nat, n: nat)
    requires Reaches(pool, pids, p, s, n)
    ensures !Blank(pool[s])
    decreases n
  {
    if Blank(pool[p]) {
      ReachesNonBlank(pool, pids, pids[pool[p].ppid], s, n - 1);
    }
  }

  /** Filling a process from a parent that has an executable keeps that up. */
  lemma FillKeeps(hasher: Hasher, was: seq<Process>, pids: Pids, pool: seq<Process>, p: nat)
    requires Underway(hasher, was, pids, pool) && Orphaned(was, pids, p) && pool[p] == was[p]
    requires pids[was[p].ppid] < |pool| && !Blank(pool[pids[was[p].ppid]])
    ensures var r := Filled(hasher, pool[p], pool[pids[was[p].ppid]]);
            Underway(hasher, was, pids, pool[p := r]) && !Blank(r)
  {
    var s, n := SourceOf(hasher, was, pids, pool, pids[was[p].ppid]);
    assert Reaches(was, pids, p, s, n + 1);
    ReachesNonBlank(was, pids, p, s, n + 1);
  }

  /** The renaming collected so far: the old identifier of every filled process, and its new one. */
  ghost predicate Collected(procs: map<int, nat>, was: seq<Process>, pool: seq<Process>, ren: Renaming)
  {
    && |pool| == |was|
    && (forall p | 0 <= p < |was| :: was[p].id in ren <==> Blank(was[p]) && !Blank(pool[p]))
    && (forall p | 0 <= p < |was| :: was[p].id in ren ==> ren[was[p].id] == pool[p].id)
    && (forall k | k in ren :: k in procs)
  }

  /** The blank processes still to do, each once. */
  predicate Pending(pids: Pids, pool: seq<Process>, list: seq<nat>)
  {
    && (forall i | 0 <= i < |list| :: Orphaned(pool, pids, list[i]))
    && (forall i, j | 0 <= i < j < |list| :: list[i] != list[j])
  }

  /** As long as an orphaned process has an ancestor to take its executable from, one of those to do
      has a parent that has one already. */
  lemma {:induction false} SomeReady(hasher: Hasher, was: seq<Process>, pids: Pids, pool: seq<Process>,
                                     list: seq<nat>, p: nat, s: nat, n: nat) returns (q: nat)
    requires Underway(hasher, was, pids, pool) && Orphaned(pool, pids, p) && Reaches(was, pids, p, s, n)
    requires forall q | Orphaned(pool, pids, q) :: q in list
    ensures q in list && Orphaned(pool, pids, q) && pids[pool[q].ppid] < |pool| && !Blank(pool[pids[pool[q].ppid]])
    decreases n
  {
    assert pool[p] == was[p] by {
      if pool[p] != was[p] {
        var s': nat, n': nat :| Reaches(was, pids, p, s', n') && pool[p] == Filled(hasher, was[p], was[s']);
        ReachesNonBlank(was, pids, p, s', n');
      }
    }
    var parent := pids[was[p].ppid];
    if Blank(pool[parent]) {
      q := SomeReady(hasher, was, pids, pool, list, parent, s, n - 1);
    } else {
      q := p;
    }
  }

  // ---- The passes -----------------------------------------------------------------------------------

  /** Takes over executable and arguments of the parent, and notes the change of identifier. */
  method Fill(t: Tables, p: nat, ren: Renaming, ghost was: seq<Process>) returns (ren': Renaming)
    requires Underway(t.hasher, was, t.pids, t.pool) && Collected(t.procs, was, t.pool, ren) && IdsApart(t.procs, was)
    requires Orphaned(was, t.pids, p) && t.pool[p] == was[p]
    requires t.pids[was[p].ppid] < |t.pool| && !Blank(t.pool[t.pids[was[p].ppid]])
    modifies t`pool
    ensures t.pool == old(t.pool)[p := Filled(t.hasher, was[p], old(t.pool)[t.pids[was[p].ppid]])] && !Blank(t.pool[p])
    ensures Underway(t.hasher, was, t.pids, t.pool) && Collected(t.procs, was, t.pool, ren')
  {
    FillKeeps(t.hasher, was, t.pids, t.pool, p);
    var parent := t.pool[t.pids[t.pool[p].ppid]];
    var before := t.pool[p].id;
    t.SetProc(p, parent.exe, parent.args);
    ren' := ren[before := t.pool[p].id];
  }

  /** The processes are in the table, each under its own identifier. */
  predicate IdsApart(procs: map<int, nat>, pool: seq<Process>)
  {
    forall p | 0 <= p < |pool| :: pool[p].id in procs && procs[pool[p].id] == p
  }

  /** The process objects are exactly those of the table, each under its own identifier. */
  predicate TableOf(procs: map<int, nat>, pool: seq<Process>, pids: Pids)
  {
    && IdsApart(procs, pool)
    && (forall k | k in procs :: procs[k] < |pool| && pool[procs[k]].id == k)
    && (forall pid | pid in pids :: pids[pid] < |pool|)
  }

  /** The processes that the first pass has not come to are unchanged, and none of them is listed. */
  predicate Unvisited(was: seq<Process>, pool: seq<Process>, list: seq<nat>, todo: set<int>)
    requires |pool| == |was|
  {
    && (forall q | 0 <= q < |was| && was[q].id in todo :: pool[q] == was[q])
    && (forall i | 0 <= i < |list| :: list[i] < |was| && was[list[i]].id !in todo)
  }

  /** Every process that still needs an executable is listed or not visited yet. */
  ghost predicate Covered(pids: Pids, was: seq<Process>, pool: seq<Process>, list: seq<nat>, todo: set<int>)
    requires |pool| == |was|
  {
    forall q: nat | Orphaned(pool, pids, q) :: q in list || was[q].id in todo
  }

  /** One process of the first pass. */
  method Visit(t: Tables, p: nat, list: seq<nat>, ren: Renaming, ghost was: seq<Process>, ghost todo: set<int>)
    returns (list': seq<nat>, ren': Renaming)
    requires Underway(t.hasher, was, t.pids, t.pool) && Collected(t.procs, was, t.pool, ren) &&
             TableOf(t.procs, was, t.pids)
    requires p < |was| && was[p].id !in todo && Unvisited(was, t.pool, list, todo + {was[p].id})
    requires Pending(t.pids, t.pool, list) && Covered(t.pids, was, t.pool, list, todo + {was[p].id})
    modifies t`pool
    ensures Underway(t.hasher, was, t.pids, t.pool) && Collected(t.procs, was, t.pool, ren')
    ensures Unvisited(was, t.pool, list', todo)
    ensures Pending(t.pids, t.pool, list') && Covered(t.pids, was, t.pool, list', todo)
  {
    list', ren' := list, ren;
    assert t.pool[p] == was[p];
    if t.pool[p].exe != " " || t.pool[p].ppid !in t.pids {
      return;
    }
    if t.pool[t.pids[t.pool[p].ppid]].exe == " " {
      list' := list + [p];
      return;
    }
    ren' := Fill(t, p, ren, was);
  }

  /** The first pass, over the process table in any order. */
  method VisitTable(t: Tables, ghost was: seq<Process>) returns (list: seq<nat>, ren: Renaming)
    requires TableOf(t.procs, t.pool, t.pids) && was == t.pool
    modifies t`pool
    ensures Underway(t.hasher, was, t.pids, t.pool) && Collected(t.procs, was, t.pool, ren)
    ensures Pending(t.pids, t.pool, list) && Covered(t.pids, was, t.pool, list, {})
  {
    list, ren := [], map[];
    var todo := t.procs.Keys;
    while todo != {}
      invariant todo <= t.procs.Keys
      invariant Underway(t.hasher, was, t.pids, t.pool) && Collected(t.procs, was, t.pool, ren)
      invariant Unvisited(was, t.pool, list, todo)
      invariant Pending(t.pids, t.pool, list) && Covered(t.pids, was, t.pool, list, todo)
      decreases todo
    {
      var k := Pick(todo);
      assert todo - {k} + {k} == todo;
      list, ren := Visit(t, t.procs[k], list, ren, was, todo - {k});
      todo := todo - {k};
    }
  }

  /** The processes still to do are those put back and the rest of the round, each once. */
  ghost predicate RoundCovers(pids: Pids, pool: seq<Process>, rest: seq<nat>, list: seq<nat>)
  {
    && Pending(pids, pool, rest) && Pending(pids, pool, list)
    && (forall q: nat | Orphaned(pool, pids, q) :: q in list || q in rest)
    && (forall q | q in list :: q !in rest)
  }

  predicate ParentBlank(pool: seq<Process>, pids: Pids, p: nat)
  {
    && p < |pool| && pool[p].ppid in pids && pids[pool[p].ppid] < |pool| && Blank(pool[pids[pool[p].ppid]])
  }

  lemma StillBlank(hasher: Hasher, was: seq<Process>, pids: Pids, pool: seq<Process>, p: nat)
    requires Underway(hasher, was, pids, pool) && Orphaned(pool, pids, p)
    ensures pool[p] == was[p]
  {
    if pool[p] != was[p] {
      var s: nat, n: nat :| Reaches(was, pids, p, s, n) && pool[p] == Filled(hasher, was[p], was[s]);
      ReachesNonBlank(was, pids, p, s, n);
    }
  }

  /** The first process of the rest is put back. */
  lemma PutBack(pids: Pids, pool: seq<Process>, rest: seq<nat>, list: seq<nat>)
    requires rest != [] && RoundCovers(pids, pool, rest, list)
    ensures RoundCovers(pids, pool, rest[1..], list + [rest[0]])
  {
    forall q: nat | Orphaned(pool, pids, q)
      ensures q in list + [rest[0]] || q in rest[1..]
    {
      assert q in rest ==> q == rest[0] || q in rest[1..];
    }
  }

  /** It was filled, and is not orphaned any more. */
  lemma TakenOut(pids: Pids, pool: seq<Process>, rest: seq<nat>, list: seq<nat>, r: Process)
    requires rest != [] && RoundCovers(pids, pool, rest, list) && !Blank(r)
    ensures RoundCovers(pids, pool[rest[0] := r], rest[1..], list)
  {
    var after := pool[rest[0] := r];
    assert forall q: nat :: Orphaned(after, pids, q) <==> Orphaned(pool, pids, q) && q != rest[0];
  }

  /** One process of a round. */
  method Retry(t: Tables, rest: seq<nat>, list: seq<nat>, ren: Renaming, ghost was: seq<Process>)
    returns (list': seq<nat>, ren': Renaming)
    requires Underway(t.hasher, was, t.pids, t.pool) && Collected(t.procs, was, t.pool, ren) &&
             TableOf(t.procs, was, t.pids)
    requires rest != [] && RoundCovers(t.pids, t.pool, rest, list)
    modifies t`pool
    ensures Underway(t.hasher, was, t.pids, t.pool) && Collected(t.procs, was, t.pool, ren')
    ensures RoundCovers(t.pids, t.pool, rest[1..], list')
    ensures list' == if ParentBlank(old(t.pool), t.pids, rest[0]) then list + [rest[0]] else list
    ensures forall q | 0 <= q < |was| && !Blank(old(t.pool)[q]) :: !Blank(t.pool[q])
  {
    list', ren' := list, ren;
    var p := rest[0];
    StillBlank(t.hasher, was, t.pids, t.pool, p);
    if t.pool[t.pids[t.pool[p].ppid]].exe == " " {
      PutBack(t.pids, t.pool, rest, list);
      list' := list + [p];
      return;
    }
    ren' := Fill(t, p, ren, was);
    TakenOut(t.pids, old(t.pool), rest, list, t.pool[p]);
  }

  /** A listed process whose parent has an executable. */
  lemma SomeListedReady(hasher: Hasher, was: seq<Process>, pids: Pids, pool: seq<Process>, list: seq<nat>)
    returns (q: nat, parent: nat)
    requires Underway(hasher, was, pids, pool) && Recoverable(was, pids)
    requires list != [] && Pending(pids, pool, list) && Covered(pids, was, pool, list, {})
    ensures q in list && q < |was| && was[q].ppid in pids && pids[was[q].ppid] == parent
    ensures parent < |pool| && !Blank(pool[parent])
  {
    StillBlank(hasher, was, pids, pool, list[0]);
    assert HasSource(was, pids, list[0]);
    var s: nat, n: nat :| Reaches(was, pids, list[0], s, n);
    q := SomeReady(hasher, was, pids, pool, list, list[0], s, n);
    StillBlank(hasher, was, pids, pool, q);
    parent := pids[was[q].ppid];
  }

  /** A process that has no ancestor with an executable stays blank. */
  lemma Hopeless(hasher: Hasher, was: seq<Process>, pids: Pids, pool: seq<Process>, p: nat)
    requires Underway(hasher, was, pids, pool) && Orphaned(was, pids, p) && !HasSource(was, pids, p)
    ensures Orphaned(pool, pids, p)
  {
  }

  /** One round over the processes still to do. If each has an ancestor to take its executable from,
      fewer are left; one that has none is left in any case. */
  method Round(t: Tables, temp: seq<nat>, ren: Renaming, ghost was: seq<Process>)
    returns (list: seq<nat>, ren': Renaming)
    requires Underway(t.hasher, was, t.pids, t.pool) && Collected(t.procs, was, t.pool, ren) &&
             TableOf(t.procs, was, t.pids)
    requires temp != [] && Pending(t.pids, t.pool, temp) && Covered(t.pids, was, t.pool, temp, {})
    modifies t`pool
    ensures Underway(t.hasher, was, t.pids, t.pool) && Collected(t.procs, was, t.pool, ren')
    ensures Pending(t.pids, t.pool, list) && Covered(t.pids, was, t.pool, list, {})
    ensures Recoverable(was, t.pids) ==> |list| < |temp|
    ensures forall p | p in temp && !HasSource(was, t.pids, p) :: p in list
  {
    list, ren' := [], ren;
    ghost var ready: nat, parent: nat := 0, 0;
    if Recoverable(was, t.pids) {
      ready, parent := SomeListedReady(t.hasher, was, t.pids, t.pool, temp);
    }
    var rest := temp;
    while rest != []
      invariant Underway(t.hasher, was, t.pids, t.pool) && Collected(t.procs, was, t.pool, ren')
      invariant RoundCovers(t.pids, t.pool, rest, list)
      invariant |list| + |rest| <= |temp|
      invariant Recoverable(was, t.pids) ==>
        parent < |was| && !Blank(t.pool[parent]) && (ready in rest || |list| + |rest| < |temp|)
    {
      list, ren' := Retry(t, rest, list, ren', was);
      rest := rest[1..];
    }
    forall p | p in temp && !HasSource(was, t.pids, p) ensures p in list {
      StillOrphaned(t.hasher, was, t.pids, old(t.pool), p);
      Hopeless(t.hasher, was, t.pids, t.pool, p);
    }
  }

  lemma StillOrphaned(hasher: Hasher, was: seq<Process>, pids: Pids, pool: seq<Process>, p: nat)
    requires Underway(hasher, was, pids, pool) && Orphaned(pool, pids, p)
    ensures Orphaned(was, pids, p)
  {
    StillBlank(hasher, was, pids, pool, p);
  }

  // ---- Moving the entries ---------------------------------------------------------------------------

  /** The four tables after all keys have been exchanged in this order. */
  function MovedAll(v: View, ren: Renaming, order: seq<int>): View
    requires forall i :: 0 <= i < |order| ==> order[i] in ren
  {
    v.(procs := ExchangeAll(v.procs, ren, order), nodes := ExchangeAll(v.nodes, ren, order),
       fds := ExchangeAll(v.fds, ren, order), procInter := ExchangeAll(v.procInter, ren, order))
  }

  lemma MovedOneMore(v: View, ren: Renaming, order: seq<int>, k: int)
    requires (forall i :: 0 <= i < |order| ==> order[i] in ren) && k in ren
    ensures MovedAll(v, ren, order + [k]) == MoveKeys(MovedAll(v, ren, order), k, ren[k])
  {
    assert (order + [k])[..|order|] == order;
  }

  /** The last loop, over the collected changes in any order. */
  method MoveEntries(t: Tables, ren: Renaming) returns (ghost order: seq<int>)
    modifies t`procs, t`nodes, t`fds, t`procInter
    ensures IsOrder(ren, order) && t.Look() == MovedAll(old(t.Look()), ren, order)
  {
    order := [];
    var todo := ren.Keys;
    while todo != {}
      invariant todo <= ren.Keys
      invariant forall i :: 0 <= i < |order| ==> order[i] in ren && order[i] !in todo
      invariant forall k :: k in ren ==> k in order || k in todo
      invariant forall i, j :: 0 <= i < j < |order| ==> order[i] != order[j]
      invariant t.Look() == MovedAll(old(t.Look()), ren, order)
      decreases todo
    {
      var k := Pick(todo);
      MovedOneMore(old(t.Look()), ren, order, k);
      t.ExchangeKeys(k, ren[k]);
      todo, order := todo - {k}, order + [k];
    }
  }

  /** A table in which every entry is found under its new key. */
  ghost predicate AllMoved<V>(m: map<int, V>, ren: Renaming, r: map<int, V>)
  {
    Moved(m, ren, ren.Keys, r)
  }

  /** The processes have their new identifiers. */
  predicate NewIds(was: seq<Process>, ren: Renaming, pool: seq<Process>)
  {
    |pool| == |was| && forall p | 0 <= p < |was| :: pool[p].id == NewKey(ren, ren.Keys, was[p].id)
  }

  lemma KeyedMoved(v: View, ren: Renaming, w: View)
    requires Keyed(v) && NewIds(v.pool, ren, w.pool) && AllMoved(v.procs, ren, w.procs)
    ensures Keyed(w)
  {
    forall k | k in w.procs ensures w.procs[k] < |w.pool| && w.pool[w.procs[k]].id == k {
      assert CameFrom(v.procs, ren, ren.Keys, k);
      var l :| l in v.procs && NewKey(ren, ren.Keys, l) == k;
      assert Arrived(v.procs, w.procs, l, k);
    }
    forall p | 0 <= p < |w.pool| ensures w.pool[p].id in w.procs && w.procs[w.pool[p].id] == p {
      assert Arrived(v.procs, w.procs, v.pool[p].id, w.pool[p].id);
    }
  }

  lemma OfKindMoved(nodes: map<int, NodeType>, ids: set<int>, kind: NodeType, ren: Renaming, nodes': map<int, NodeType>,
                    ids': set<int>)
    requires OfKind(nodes, kind, ids) && AllMoved(nodes, ren, nodes')
    requires forall k :: k in ids' <==> exists l :: l in ids && NewKey(ren, ren.Keys, l) == k
    ensures OfKind(nodes', kind, ids')
  {
    forall k ensures k in ids' <==> k in nodes' && nodes'[k] == kind {
      if k in ids' {
        var l :| l in ids && NewKey(ren, ren.Keys, l) == k;
        assert Arrived(nodes, nodes', l, k);
      }
      if k in nodes' && nodes'[k] == kind {
        assert CameFrom(nodes, ren, ren.Keys, k);
        var l :| l in nodes && NewKey(ren, ren.Keys, l) == k;
        assert Arrived(nodes, nodes', l, k);
        assert l in ids;
      }
    }
  }

  /** Only keys of processes are renamed, so the files and sockets keep theirs. */
  lemma KeysKept(ids: set<int>, procs: set<int>, ren: Renaming)
    requires ren.Keys <= procs && forall k | k in ids :: k !in procs
    ensures forall k :: k in ids <==> exists l :: l in ids && NewKey(ren, ren.Keys, l) == k
  {
    forall k | k in ids ensures NewKey(ren, ren.Keys, k) == k {
      assert k !in ren.Keys;
    }
  }

  lemma KeysMoved<V>(m: map<int, V>, ren: Renaming, r: map<int, V>)
    requires AllMoved(m, ren, r)
    ensures forall k :: k in r.Keys <==> exists l :: l in m.Keys && NewKey(ren, ren.Keys, l) == k
  {
    forall k ensures k in r.Keys <==> exists l :: l in m.Keys && NewKey(ren, ren.Keys, l) == k {
      if k in r {
        assert CameFrom(m, ren, ren.Keys, k);
        var l :| l in m && NewKey(ren, ren.Keys, l) == k;
        assert l in m.Keys;
      }
      if l :| l in m.Keys && NewKey(ren, ren.Keys, l) == k {
        assert Arrived(m, r, l, k);
      }
    }
  }

  lemma OtherKindMoved(nodes: map<int, NodeType>, ids: set<int>, kind: NodeType, procs: set<int>, ren: Renaming,
                       nodes': map<int, NodeType>)
    requires OfKind(nodes, kind, ids) && OfKind(nodes, Proc, procs) && kind != Proc
    requires ren.Keys <= procs && AllMoved(nodes, ren, nodes')
    ensures OfKind(nodes', kind, ids)
  {
    KeysKept(ids, procs, ren);
    OfKindMoved(nodes, ids, kind, ren, nodes', ids);
  }

  lemma KindsMoved(nodes: map<int, NodeType>, ren: Renaming, nodes': map<int, NodeType>)
    requires AllMoved(nodes, ren, nodes')
    requires forall k | k in nodes :: nodes[k] == Proc || nodes[k] == File || nodes[k] == Socket
    ensures forall k | k in nodes' :: nodes'[k] == Proc || nodes'[k] == File || nodes'[k] == Socket
  {
    forall k | k in nodes' ensures nodes'[k] == Proc || nodes'[k] == File || nodes'[k] == Socket {
      assert CameFrom(nodes, ren, ren.Keys, k);
      var l :| l in nodes && NewKey(ren, ren.Keys, l) == k;
      assert Arrived(nodes, nodes', l, k);
    }
  }

  lemma TypedMoved(v: View, ren: Renaming, w: View)
    requires Typed(v) && ren.Keys <= v.procs.Keys && w.files == v.files && w.sockets == v.sockets
    requires AllMoved(v.nodes, ren, w.nodes) && AllMoved(v.procs, ren, w.procs)
    ensures Typed(w)
  {
    KeysMoved(v.procs, ren, w.procs);
    OfKindMoved(v.nodes, v.procs.Keys, Proc, ren, w.nodes, w.procs.Keys);
    OtherKindMoved(v.nodes, v.files.Keys, File, v.procs.Keys, ren, w.nodes);
    OtherKindMoved(v.nodes, v.sockets.Keys, Socket, v.procs.Keys, ren, w.nodes);
    KindsMoved(v.nodes, ren, w.nodes);
  }

  lemma FdsMoved(v: View, ren: Renaming, w: View)
    requires (forall k | k in v.fds :: k in v.procs) && AllMoved(v.procs, ren, w.procs) && AllMoved(v.fds, ren, w.fds)
    ensures forall k | k in w.fds :: k in w.procs
  {
    forall k | k in w.fds
      ensures k in w.procs
    {
      assert CameFrom(v.fds, ren, ren.Keys, k);
      var l :| l in v.fds && NewKey(ren, ren.Keys, l) == k;
      assert Arrived(v.procs, w.procs, l, k);
    }
  }

  lemma ProcListsMoved(v: View, ren: Renaming, w: View)
    requires ProcLists(v) && w.links == v.links && NewIds(v.pool, ren, w.pool)
    requires AllMoved(v.procs, ren, w.procs) && AllMoved(v.procInter, ren, w.procInter)
    ensures ProcLists(w)
  {
    forall k | k in w.procInter
      ensures k in w.procs && w.procInter[k] != [] && w.procInter[k] == ProcNotes(w.links, w.procs[k])
    {
      assert CameFrom(v.procInter, ren, ren.Keys, k);
      var l :| l in v.procInter && NewKey(ren, ren.Keys, l) == k;
      assert Arrived(v.procs, w.procs, l, k) && Arrived(v.procInter, w.procInter, l, k);
    }
    forall p | 0 <= p < |w.pool| && ProcNotes(w.links, p) != []
      ensures w.pool[p].id in w.procInter
    {
      assert Arrived(v.procInter, w.procInter, v.pool[p].id, w.pool[p].id);
    }
  }

  lemma {:induction false} Within(a: set<int>, b: set<int>)
    requires forall k | k in a :: k in b
    ensures a <= b
  {
    if a != {} {
      var k := Member(a);
      Within(a - {k}, b);
      assert a == (a - {k}) + {k};
    }
  }

  /** With fresh new identifiers no entry is lost, and the tables are consistent again. */
  lemma MovedConsistent(v: View, ren: Renaming, order: seq<int>, pool: seq<Process>)
    requires Consistent(v) && NewIds(v.pool, ren, pool) && ren.Keys <= v.procs.Keys
    requires IsOrder(ren, order) && Fresh(v.nodes.Keys, ren)
    ensures Consistent(MovedAll(v.(pool := pool), ren, order))
    ensures var w := MovedAll(v, ren, order);
            AllMoved(v.procs, ren, w.procs) && AllMoved(v.nodes, ren, w.nodes) && AllMoved(v.fds, ren, w.fds)
            && AllMoved(v.procInter, ren, w.procInter)
  {
    var keys, w := v.nodes.Keys, MovedAll(v.(pool := pool), ren, order);
    Within(v.procs.Keys, keys);
    Within(v.fds.Keys, keys);
    Within(v.procInter.Keys, keys);
    ExchangeAllMoves(v.procs, keys, ren, order, ren.Keys);
    ExchangeAllMoves(v.nodes, keys, ren, order, ren.Keys);
    ExchangeAllMoves(v.fds, keys, ren, order, ren.Keys);
    ExchangeAllMoves(v.procInter, keys, ren, order, ren.Keys);
    KeyedMoved(v, ren, w);
    TypedMoved(v, ren, w);
    FdsMoved(v, ren, w);
    ProcListsMoved(v, ren, w);
    EndsStay(v, w);
  }

  /** The identifiers of the first `n` processes. */
  function Ids(pool: seq<Process>, n: nat): set<int>
    requires n <= |pool|
  {
    if n == 0 then {} else Ids(pool, n - 1) + {pool[n - 1].id}
  }

  lemma {:induction false} IdsAre(pool: seq<Process>, n: nat, k: int)
    requires n <= |pool|
    ensures k in Ids(pool, n) <==> exists p :: 0 <= p < n && pool[p].id == k
  {
    if n > 0 {
      IdsAre(pool, n - 1, k);
    }
  }

  lemma {:induction false} IdsCount(pool: seq<Process>, n: nat)
    requires n <= |pool| && forall p, q | 0 <= p < q < |pool| :: pool[p].id != pool[q].id
    ensures |Ids(pool, n)| == n
  {
    if n > 0 {
      IdsCount(pool, n - 1);
      IdsAre(pool, n - 1, pool[n - 1].id);
    }
  }

  lemma PoolCount(v: View)
    requires Keyed(v)
    ensures |v.procs.Keys| == |v.pool|
  {
    var ids := Ids(v.pool, |v.pool|);
    IdsCount(v.pool, |v.pool|);
    forall k
      ensures k in ids <==> k in v.procs.Keys
    {
      IdsAre(v.pool, |v.pool|, k);
      assert k in v.procs ==> v.pool[v.procs[k]].id == k;
    }
    Within(v.procs.Keys, ids);
    Within(ids, v.procs.Keys);
    assert v.procs.Keys == ids;
  }

  /** If the new identifiers are not fresh, some order of the exchanges loses a node. */
  lemma SomeOrderBreaks(v: View, ren: Renaming, pool: seq<Process>) returns (order: seq<int>)
    requires Consistent(v) && |pool| == |v.pool| && ren.Keys <= v.nodes.Keys && !Fresh(v.nodes.Keys, ren)
    ensures IsOrder(ren, order) && !Consistent(MovedAll(v.(pool := pool), ren, order))
  {
    order := LosingOrder(v.nodes, ren);
    var w := MovedAll(v.(pool := pool), ren, order);
    NodeCount(v);
    PoolCount(v);
    if Consistent(w) {
      NodeCount(w);
      PoolCount(w);
    }
  }

  /** Whatever the order of the exchanges, the tables are consistent again exactly when the recovered
      identifiers are fresh. */
  lemma MovedExact(v: View, ren: Renaming, pool: seq<Process>)
    requires Consistent(v) && NewIds(v.pool, ren, pool) && ren.Keys <= v.procs.Keys
    ensures Fresh(v.nodes.Keys, ren) <==>
            forall order | IsOrder(ren, order) :: Consistent(MovedAll(v.(pool := pool), ren, order))
  {
    Within(v.procs.Keys, v.nodes.Keys);
    if Fresh(v.nodes.Keys, ren) {
      forall order | IsOrder(ren, order)
        ensures Consistent(MovedAll(v.(pool := pool), ren, order))
      {
        MovedConsistent(v, ren, order, pool);
      }
    } else {
      var order := SomeOrderBreaks(v, ren, pool);
    }
  }

  // ---- All of it ------------------------------------------------------------------------------------

  lemma TableOfView(v: View)
    requires Keyed(v) && Reachable(v)
    ensures TableOf(v.procs, v.pool, v.pids)
  {
  }

  /** When nothing is left to do, the outcome is the specified one. */
  lemma DoneIsRecovered(hasher: Hasher, was: seq<Process>, pids: Pids, pool: seq<Process>)
    requires Underway(hasher, was, pids, pool) && Covered(pids, was, pool, [], {})
    ensures Recovered(hasher, was, pids, pool)
  {
    forall p: nat | p < |was| && Orphaned(was, pids, p) ensures FilledFromAncestor(hasher, was, pids, p, pool[p]) {
      assert !Orphaned(pool, pids, p);
    }
  }

  lemma RecoveredIds(hasher: Hasher, v: View, pool: seq<Process>, ren: Renaming)
    requires Keyed(v) && Recovered(hasher, v.pool, v.pids, pool) && Collected(v.procs, v.pool, pool, ren)
    ensures NewIds(v.pool, ren, pool) && ren.Keys <= v.procs.Keys
  {
    forall p | 0 <= p < |v.pool| ensures pool[p].id == NewKey(ren, ren.Keys, v.pool[p].id) {
      if v.pool[p].id !in ren && Orphaned(v.pool, v.pids, p) {
        var s: nat, n: nat :| Reaches(v.pool, v.pids, p, s, n) && pool[p] == Filled(hasher, v.pool[p], v.pool[s]);
        ReachesNonBlank(v.pool, v.pids, p, s, n);
      }
    }
    Within(ren.Keys, v.procs.Keys);
  }

  /** The first pass and the rounds. */
  method FillAll(t: Tables) returns (ren: Renaming)
    requires TableOf(t.procs, t.pool, t.pids) && Recoverable(t.pool, t.pids)
    modifies t`pool
    ensures Recovered(t.hasher, old(t.pool), t.pids, t.pool) && Collected(t.procs, old(t.pool), t.pool, ren)
  {
    ghost var was := t.pool;
    var list;
    list, ren := VisitTable(t, was);
    while list != []
      invariant Underway(t.hasher, was, t.pids, t.pool) && Collected(t.procs, was, t.pool, ren)
      invariant Pending(t.pids, t.pool, list) && Covered(t.pids, was, t.pool, list, {})
      decreases |list|
    {
      list, ren := Round(t, list, ren, was);
    }
    DoneIsRecovered(t.hasher, was, t.pids, t.pool);
  }

  /** Every blank process with a known parent takes over executable and arguments of its nearest
      ancestor that had an executable, whatever the order of the visits; nothing else about the
      processes changes. The entries of four tables follow, and if the new identifiers are fresh none
      is lost and the tables are consistent again. */
  method ProcInfoRecover(t: Tables) returns (ghost ren: Renaming, ghost order: seq<int>)
    requires t.Valid() && Recoverable(t.pool, t.pids)
    modifies t`pool, t`procs, t`nodes, t`fds, t`procInter
    ensures Recovered(t.hasher, old(t.pool), t.pids, t.pool) && Collected(old(t.procs), old(t.pool), t.pool, ren)
    ensures IsOrder(ren, order) && t.Look() == MovedAll(old(t.Look()).(pool := t.pool), ren, order)
    ensures Fresh(old(t.nodes).Keys, ren) ==> t.Valid()
  {
    ghost var v := t.Look();
    TableOfView(v);
    var changes := FillAll(t);
    RecoveredIds(t.hasher, v, t.pool, changes);
    order := MoveEntries(t, changes);
    ren := changes;
    if Fresh(v.nodes.Keys, ren) {
      MovedConsistent(v, ren, order, t.pool);
    }
  }
}
