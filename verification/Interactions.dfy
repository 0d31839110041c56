/** The bounded temporal search that collects, for every file, the entities it interacts with. */
module Interactions {
  import opened Basics
  import opened Records
  import opened Iteration

  type Int64 = t: int | -0x8000_0000_0000_0000 <= t < 0x8000_0000_0000_0000

  const UINT64_MAX: nat := 0xFFFF_FFFF_FFFF_FFFF

  /** An edge as the search sees it, with its timestamp as a number. */
  datatype Arc = Arc(n1: int, n2: int, time: Int64)

  type ArcLists = map<int, seq<Arc>>

  /** Timestamps are signed, but are compared as unsigned integers. */
  function U64(t: Int64): (u: nat)
    ensures u <= UINT64_MAX && (u == UINT64_MAX <==> t == -1)
  {
    if t < 0 then t + 0x1_0000_0000_0000_0000 else t
  }

  function At<T>(m: map<int, seq<T>>, n: int): seq<T>
  {
    if n in m then m[n] else []
  }

  // ---- Which edges are followed ----------------------------------------------------------------

  function NotBefore(kids: seq<Arc>, minTime: nat): seq<Arc>
  {
    if kids == [] then []
    else
      var n := |kids| - 1;
      NotBefore(kids[..n], minTime) + (if U64(kids[n].time) >= minTime then [kids[n]] else [])
  }

  /** UINT64_MAX marks the start node, where all edges are followed. */
  function Followed(kids: seq<Arc>, minTime: nat): seq<Arc>
  {
    if minTime == UINT64_MAX then kids else NotBefore(kids, minTime)
  }

  lemma {:induction false} NotBeforeMember(kids: seq<Arc>, minTime: nat, a: Arc)
    ensures a in NotBefore(kids, minTime) <==> a in kids && U64(a.time) >= minTime
  {
    if kids != [] {
      var n := |kids| - 1;
      NotBeforeMember(kids[..n], minTime, a);
      assert kids == kids[..n] + [kids[n]];
    }
  }

  lemma {:induction false} NotBeforeAll(kids: seq<Arc>, minTime: nat)
    requires forall i :: 0 <= i < |kids| ==> U64(kids[i].time) >= minTime
    ensures NotBefore(kids, minTime) == kids
  {
    if kids != [] {
      NotBeforeAll(kids[..|kids| - 1], minTime);
    }
  }

  /** Whether an edge at time `u` is followed after one at time `t`. Timestamps are signed but the
      code compares them as unsigned integers, and takes the time -1 for the mark of the start node:
      after -1 everything is followed, and an edge at a negative time counts as later than any at a
      non-negative one. */
  predicate Follows(t: Int64, u: Int64)
  {
    if t == -1 then true
    else if t < 0 then t <= u < 0
    else t <= u || u < 0
  }

  /** That is exactly what the search does after an edge at time `t`. */
  lemma FollowedMember(kids: seq<Arc>, t: Int64, a: Arc)
    ensures a in Followed(kids, U64(t)) <==> a in kids && Follows(t, a.time)
  {
    NotBeforeMember(kids, U64(t), a);
  }

  predicate NoneBefore(kids: seq<Arc>, t: int)
  {
    forall a | a in kids :: a.time >= t
  }

  /** Of these children none earlier than `t` is followed, exactly when there is no child at a negative
      time after a non-negative one, and none before -1 after -1. */
  lemma FollowedInOrder(kids: seq<Arc>, t: Int64)
    ensures NoneBefore(Followed(kids, U64(t)), t) <==>
            if t >= 0 then NoneBefore(kids, 0) else if t == -1 then NoneBefore(kids, -1) else true
  {
    forall a
      ensures a in Followed(kids, U64(t)) <==> a in kids && Follows(t, a.time)
    {
      FollowedMember(kids, t, a);
    }
  }

  /** So time order is kept whatever the children are, exactly for times before -1. */
  lemma AlwaysInOrder(t: Int64)
    ensures t < -1 <==> forall kids :: NoneBefore(Followed(kids, U64(t)), t)
  {
    if t < -1 {
      forall kids ensures NoneBefore(Followed(kids, U64(t)), t) {
        FollowedInOrder(kids, t);
      }
    } else {
      var kids := [Arc(2, 3, -5)];
      assert kids[0] in kids;
      FollowedInOrder(kids, t);
    }
  }

  /** An edge at time -5 is followed after one at time 3. */
  lemma NegativeAfterPositive()
    ensures Arc(2, 3, -5) in Followed([Arc(2, 3, -5)], U64(3))
  {
    assert [Arc(2, 3, -5)][0] == Arc(2, 3, -5);
    FollowedMember([Arc(2, 3, -5)], 3, Arc(2, 3, -5));
  }

  // ---- Paths -----------------------------------------------------------------------------------

  function End(s: int, path: seq<Arc>): int
  {
    if path == [] then s else path[|path| - 1].n2
  }

  /** A walk from `s` along edges of the graph, each of them followed after the one before it. */
  ghost predicate IsPath(arcs: set<Arc>, s: int, path: seq<Arc>)
  {
    && (forall k | 0 <= k < |path| :: path[k] in arcs)
    && (path != [] ==> path[0].n1 == s)
    && (forall j, k | 0 <= j && k == j + 1 < |path| :: path[k].n1 == path[j].n2 && Follows(path[j].time, path[k].time))
  }

  lemma Extend(arcs: set<Arc>, s: int, path: seq<Arc>, a: Arc) returns (longer: seq<Arc>)
    requires IsPath(arcs, s, path) && a in arcs && a.n1 == End(s, path)
    requires path != [] ==> Follows(path[|path| - 1].time, a.time)
    ensures longer == path + [a] && IsPath(arcs, s, longer) && End(s, longer) == a.n2
  {
    longer := path + [a];
  }

  predicate InTimeOrder(path: seq<Arc>)
  {
    forall j, k :: 0 <= j < k < |path| ==> path[j].time <= path[k].time
  }

  lemma {:induction false} StepsInOrder(path: seq<Arc>)
    requires forall j, k | 0 <= j && k == j + 1 < |path| :: path[j].time <= path[k].time
    ensures InTimeOrder(path)
    decreases |path|
  {
    if |path| > 1 {
      StepsInOrder(path[..|path| - 1]);
      assert forall k | 0 <= k < |path| - 1 :: path[..|path| - 1][k] == path[k];
      assert path[|path| - 2].time <= path[|path| - 1].time;
    }
  }

  /** The two kinds of step back in time that the comparison allows. */
  predicate GoesBack(t: Int64, u: Int64)
  {
    (t >= 0 && u < 0) || (t == -1 && u < -1)
  }

  predicate NoStepBack(path: seq<Arc>)
  {
    forall j, k | 0 <= j && k == j + 1 < |path| :: !GoesBack(path[j].time, path[k].time)
  }

  /** A path is in time order exactly when no step is of those kinds. */
  lemma PathInOrder(arcs: set<Arc>, s: int, path: seq<Arc>)
    requires IsPath(arcs, s, path)
    ensures InTimeOrder(path) <==> NoStepBack(path)
  {
    if NoStepBack(path) {
      StepsInOrder(path);
    }
  }

  /** No edge of the graph leads on to one that steps back. */
  ghost predicate NoBackwardPair(arcs: set<Arc>)
  {
    forall a, b | a in arcs && b in arcs && a.n2 == b.n1 :: !GoesBack(a.time, b.time)
  }

  /** All paths of at most six edges that a search may follow in a graph, from whatever start, are in
      time order exactly when no edge leads on to one that steps back. */
  lemma GraphInOrder(arcs: set<Arc>)
    ensures NoBackwardPair(arcs) <==>
            forall s, path | IsPath(arcs, s, path) && |path| <= 6 :: InTimeOrder(path)
  {
    if NoBackwardPair(arcs) {
      forall s, path | IsPath(arcs, s, path)
        ensures InTimeOrder(path)
      {
        PathInOrder(arcs, s, path);
      }
    } else {
      var a, b :| a in arcs && b in arcs && a.n2 == b.n1 && GoesBack(a.time, b.time);
      var path := [a, b];
      assert IsPath(arcs, a.n1, path) && path[0].time > path[1].time;
    }
  }

  /** On a graph without negative times every entity recorded is reached in time order. */
  lemma TimelyRelevant(arcs: set<Arc>, s: int, x: int)
    requires Relevant(arcs, s, x) && forall a | a in arcs :: a.time >= 0
    ensures (exists path :: ReachedBy(arcs, s, x, path) && InTimeOrder(path))
            || (exists path, a :: FeedsAt(arcs, s, x, path, a) && InTimeOrder(path))
  {
    if path :| ReachedBy(arcs, s, x, path) {
      PathInOrder(arcs, s, path);
    } else {
      var path, a :| FeedsAt(arcs, s, x, path, a);
      PathInOrder(arcs, s, path);
    }
  }

  /** `x` ends this path of at most six edges from `s`. */
  ghost predicate ReachedBy(arcs: set<Arc>, s: int, x: int, path: seq<Arc>)
  {
    IsPath(arcs, s, path) && 1 <= |path| <= 6 && End(s, path) == x
  }

  /** `x` is the source of an edge into the end of this path of at most five edges from `s`. */
  ghost predicate FeedsAt(arcs: set<Arc>, s: int, x: int, path: seq<Arc>, a: Arc)
  {
    IsPath(arcs, s, path) && |path| <= 5 && a in arcs && a.n2 == End(s, path) && a.n1 == x
  }

  ghost predicate Relevant(arcs: set<Arc>, s: int, x: int)
  {
    || (exists path :: ReachedBy(arcs, s, x, path))
    || (exists path, a :: FeedsAt(arcs, s, x, path, a))
  }

  ghost predicate TableSound(arcs: set<Arc>, table: map<int, seq<int>>)
  {
    forall s, i :: s in table && 0 <= i < |table[s]| ==> Relevant(arcs, s, table[s][i])
  }

  /** These entries are appended to the list of `s`, and nothing else changes. */
  ghost predicate Appended(s: int, old_: map<int, seq<int>>, xs: seq<int>, table: map<int, seq<int>>)
  {
    && At(table, s) == At(old_, s) + xs && (forall k | k in old_ :: k in table)
    && (forall k | k in table && k != s :: k in old_ && table[k] == old_[k])
  }

  lemma AppendedOneMore(s: int, a: map<int, seq<int>>, xs: seq<int>, b: map<int, seq<int>>, x: int)
    requires Appended(s, a, xs, b)
    ensures Appended(s, a, xs + [x], b[s := At(b, s) + [x]])
  {
    SeqAssoc(At(a, s), xs, [x]);
  }

  lemma AppendedAt(s: int, old_: map<int, seq<int>>, xs: seq<int>, table: map<int, seq<int>>, i: nat)
    requires Appended(s, old_, xs, table) && s in table && i < |table[s]|
    ensures if i < |At(old_, s)| then s in old_ && table[s][i] == old_[s][i]
            else i - |At(old_, s)| < |xs| && table[s][i] == xs[i - |At(old_, s)|]
  {
  }

  lemma AppendedSound(arcs: set<Arc>, s: int, old_: map<int, seq<int>>, xs: seq<int>, table: map<int, seq<int>>)
    requires TableSound(arcs, old_) && Appended(s, old_, xs, table)
    requires forall i | 0 <= i < |xs| :: Relevant(arcs, s, xs[i])
    ensures TableSound(arcs, table) && Grows(s, old_, table)
  {
    forall k, i | k in table && 0 <= i < |table[k]|
      ensures Relevant(arcs, k, table[k][i])
    {
      if k == s {
        AppendedAt(s, old_, xs, table, i);
      }
    }
  }

  /** Lists only get longer, and only that of `s`. */
  ghost predicate Grows(s: int, old_: map<int, seq<int>>, table: map<int, seq<int>>)
  {
    && (forall k | k in old_ :: k in table && old_[k] <= table[k])
    && (forall k | k in table && k != s :: k in old_ && table[k] == old_[k])
  }

  lemma GrowsTrans(s: int, a: map<int, seq<int>>, b: map<int, seq<int>>, c: map<int, seq<int>>)
    requires Grows(s, a, b) && Grows(s, b, c)
    ensures Grows(s, a, c)
  {
  }

  /** The sources of the edges into `c`, except those from `prev`, are in the list of `s`. */
  ghost predicate ParentsIn(arcs: set<Arc>, table: map<int, seq<int>>, s: int, c: int, prev: int)
  {
    forall a | a in arcs && a.n2 == c && (prev == 0 || a.n1 != prev) :: a.n1 in At(table, s)
  }

  ghost predicate ChildrenIn(arcs: set<Arc>, table: map<int, seq<int>>, s: int, c: int)
  {
    forall a | a in arcs && a.n1 == c :: a.n2 in At(table, s)
  }

  lemma NeighboursGrow(arcs: set<Arc>, k: int, old_: map<int, seq<int>>, table: map<int, seq<int>>,
                       s: int, c: int, prev: int)
    requires Grows(k, old_, table)
    ensures ParentsIn(arcs, old_, s, c, prev) ==> ParentsIn(arcs, table, s, c, prev)
    ensures ChildrenIn(arcs, old_, s, c) ==> ChildrenIn(arcs, table, s, c)
  {
  }

  ghost predicate Listed(table: map<int, seq<int>>, x: int)
  {
    exists s :: s in table && x in table[s]
  }

  lemma ListedGrows(s: int, a: map<int, seq<int>>, b: map<int, seq<int>>, x: int)
    requires Grows(s, a, b) && Listed(a, x)
    ensures Listed(b, x)
  {
    var k :| k in a && x in a[k];
    assert x in b[k];
  }

  /** The two tables of edges by source and by target hold exactly the edges of the graph. */
  ghost predicate Related(arcs: set<Arc>, children: ArcLists, parents: ArcLists)
  {
    && (forall n, a :: a in At(children, n) <==> a in arcs && a.n1 == n)
    && (forall n, a :: a in At(parents, n) <==> a in arcs && a.n2 == n)
  }

  ghost predicate ClosedUnder(nodes: map<int, NodeType>, arcs: set<Arc>)
  {
    forall a | a in arcs :: a.n1 in nodes && a.n2 in nodes
  }

  /** Skipped files lead nowhere else: the only edge out of the file goes to a node that the search
      it was listed by had reached. */
  ghost predicate Skippable(arcs: set<Arc>, table: map<int, seq<int>>, x: int)
  {
    exists s, path, a :: SkippableAt(arcs, table, x, s, path, a)
  }

  ghost predicate SkippableAt(arcs: set<Arc>, table: map<int, seq<int>>, x: int, s: int, path: seq<Arc>, a: Arc)
  {
    x in At(table, s) && FeedsAt(arcs, s, x, path, a) && forall b | b in arcs && b.n1 == x :: b == a
  }

  lemma SkippableGrows(arcs: set<Arc>, s: int, old_: map<int, seq<int>>, table: map<int, seq<int>>, x: int)
    requires Grows(s, old_, table) && Skippable(arcs, old_, x)
    ensures Skippable(arcs, table, x)
  {
    var k, path, a :| SkippableAt(arcs, old_, x, k, path, a);
    assert SkippableAt(arcs, table, x, k, path, a);
  }

  ghost predicate SkipSound(arcs: set<Arc>, table: map<int, seq<int>>, before: set<int>, skip: set<int>)
  {
    before <= skip && forall x | x in skip && x !in before :: Skippable(arcs, table, x)
  }

  lemma SkipSoundGrows(arcs: set<Arc>, s: int, old_: map<int, seq<int>>, table: map<int, seq<int>>,
                       before: set<int>, skip: set<int>)
    requires Grows(s, old_, table) && SkipSound(arcs, old_, before, skip)
    ensures SkipSound(arcs, table, before, skip)
  {
    forall x | x in skip && x !in before
      ensures Skippable(arcs, table, x)
    {
      SkippableGrows(arcs, s, old_, table, x);
    }
  }

  // ---- What one search does ----------------------------------------------------------------------

  /** How a node was come to: the node before it, 0 for none, the time of the edge between them, none
      at the start, and the number of steps the search may still go on. */
  datatype Expansion = Expansion(prev: int, time: Option<Int64>, left: nat)

  /** The nodes that a search expanded. */
  type Search = map<int, Expansion>

  /** An edge that is followed from the node `x`. */
  predicate LeadsOn(arcs: set<Arc>, x: int, e: Expansion, a: Arc)
  {
    a in arcs && a.n1 == x && (e.time.Some? ==> Follows(e.time.value, a.time))
  }

  /** An edge into the node `x`, but not from the node before it. */
  predicate LeadsIn(arcs: set<Arc>, x: int, e: Expansion, a: Arc)
  {
    a in arcs && a.n2 == x && (e.prev == 0 || a.n1 != e.prev)
  }

  /** The node `x` was expanded along an edge followed from another expanded node. */
  predicate CameBy(arcs: set<Arc>, search: Search, x: int, a: Arc)
  {
    && x in search && a.n2 == x && a.n1 in search && search[a.n1].left >= 1
    && LeadsOn(arcs, a.n1, search[a.n1], a)
    && search[x] == Expansion(a.n1, Some(a.time), search[a.n1].left - 1)
  }

  ghost predicate CameFrom(arcs: set<Arc>, search: Search, x: int)
  {
    exists a :: CameBy(arcs, search, x, a)
  }

  /** The neighbours of an expanded node are recorded, and if steps are left, those that edges lead on
      to are expanded too. */
  ghost predicate GoesOn(arcs: set<Arc>, list: seq<int>, nodes: set<int>, x: int, e: Expansion)
  {
    && (forall a | LeadsOn(arcs, x, e, a) :: a.n2 in list && (e.left >= 1 ==> a.n2 in nodes))
    && (forall a | LeadsIn(arcs, x, e, a) :: a.n1 in list)
  }

  ghost predicate Neighbour(arcs: set<Arc>, search: Search, y: int, x: int, a: Arc)
  {
    x in search && ((LeadsOn(arcs, x, search[x], a) && a.n2 == y) || (LeadsIn(arcs, x, search[x], a) && a.n1 == y))
  }

  ghost predicate SomeNeighbour(arcs: set<Arc>, search: Search, y: int)
  {
    exists x, a :: Neighbour(arcs, search, y, x, a)
  }

  /** A search from `s`, finished: it starts there with five steps to go, comes to every other node it
      expands along an edge, goes on from all of them, and records their neighbours and nothing else. */
  ghost predicate Explored(arcs: set<Arc>, list: seq<int>, s: int, search: Search)
  {
    && s in search && search[s] == Expansion(0, None, 5)
    && (forall x | x in search && x != s :: CameFrom(arcs, search, x))
    && (forall x | x in search :: GoesOn(arcs, list, search.Keys, x, search[x]))
    && (forall y :: y in list <==> SomeNeighbour(arcs, search, y))
  }

  ghost predicate OnlyNeighbours(arcs: set<Arc>, list: seq<int>, search: Search)
  {
    forall y | y in list :: SomeNeighbour(arcs, search, y)
  }

  predicate SearchGrows(was: Search, search: Search)
  {
    forall x | x in was :: x in search && search[x] == was[x]
  }

  /** The search has gone on from every node it came to since `was`; how it came to `root`, if that is
      one of them, is left open. */
  ghost predicate Progress(arcs: set<Arc>, list: seq<int>, was: Search, search: Search, root: Option<int>)
  {
    && SearchGrows(was, search)
    && (forall x | x in search && x !in was && root != Some(x) :: CameFrom(arcs, search, x))
    && (forall x | x in search && x !in was :: GoesOn(arcs, list, search.Keys, x, search[x]))
  }

  /** Whatever the visits of a search have written is a neighbour of a node it expanded. */
  lemma {:induction false} WrittenAreNeighbours(arcs: set<Arc>, children: ArcLists, parents: ArcLists,
                                                visits: seq<Visit>, search: Search, y: int)
    requires Related(arcs, children, parents) && Replay(children, parents, visits).Some?
    requires SearchGrows(Replay(children, parents, visits).value.search, search)
    requires y in Replay(children, parents, visits).value.list
    ensures SomeNeighbour(arcs, search, y)
    decreases |visits|
  {
    var n := |visits| - 1;
    var r, v := Replay(children, parents, visits[..n]).value, visits[n];
    var into, on := NotFrom(At(parents, v.node), v.how.prev), GoneOn(children, v);
    if y in r.list {
      WrittenAreNeighbours(arcs, children, parents, visits[..n], search, y);
    } else if y in Sources(into) {
      var j :| 0 <= j < |into| && into[j].n1 == y;
      NotFromMember(At(parents, v.node), v.how.prev, into[j]);
      assert Neighbour(arcs, search, y, v.node, into[j]);
    } else {
      var j :| 0 <= j < |on| && on[j].n2 == y;
      GoneOnLeads(arcs, children, parents, v, on[j]);
      assert Neighbour(arcs, search, y, v.node, on[j]);
    }
  }

  lemma GoneOnLeads(arcs: set<Arc>, children: ArcLists, parents: ArcLists, v: Visit, a: Arc)
    requires Related(arcs, children, parents) && a in GoneOn(children, v)
    ensures LeadsOn(arcs, v.node, v.how, a)
  {
    if v.how.time.Some? {
      FollowedMember(At(children, v.node), v.how.time.value, a);
    }
    assert a in At(children, v.node);
  }

  lemma CameFromStays(arcs: set<Arc>, was: Search, search: Search, x: int)
    requires CameFrom(arcs, was, x) && SearchGrows(was, search)
    ensures CameFrom(arcs, search, x)
  {
    var a :| CameBy(arcs, was, x, a);
    assert CameBy(arcs, search, x, a);
  }

  /** From a child to the next one. */
  lemma ProgressOn(arcs: set<Arc>, list: seq<int>, was: Search, mid: Search, longer: seq<int>, search: Search, x: int)
    requires Progress(arcs, list, was, mid, None) && Progress(arcs, longer, mid, search, Some(x))
    requires list <= longer && CameFrom(arcs, search, x)
    ensures Progress(arcs, longer, was, search, None)
  {
    forall y | y in search && y !in was
      ensures CameFrom(arcs, search, y) && GoesOn(arcs, longer, search.Keys, y, search[y])
    {
      if y in mid {
        CameFromStays(arcs, mid, search, y);
        assert GoesOn(arcs, list, mid.Keys, y, mid[y]);
      }
    }
  }

  // ---- The list of a search, entry by entry ------------------------------------------------------

  /** A node that the search expanded, and how it came there. */
  datatype Visit = Visit(node: int, how: Expansion)

  /** The edges that do not come from the node before. */
  function NotFrom(into: seq<Arc>, prev: int): seq<Arc>
  {
    if into == [] then []
    else
      var n := |into| - 1;
      NotFrom(into[..n], prev) + (if prev != 0 && into[n].n1 == prev then [] else [into[n]])
  }

  lemma {:induction false} NotFromMember(into: seq<Arc>, prev: int, a: Arc)
    ensures a in NotFrom(into, prev) <==> a in into && (prev == 0 || a.n1 != prev)
  {
    if into != [] {
      var n := |into| - 1;
      NotFromMember(into[..n], prev, a);
      assert into == into[..n] + [into[n]];
    }
  }

  function Sources(es: seq<Arc>): seq<int>
  {
    seq(|es|, i requires 0 <= i < |es| => es[i].n1)
  }

  function Targets(kids: seq<Arc>): seq<int>
  {
    seq(|kids|, i requires 0 <= i < |kids| => kids[i].n2)
  }

  /** The edges out of a node that are followed from there. */
  function GoneOn(children: ArcLists, v: Visit): seq<Arc>
  {
    Followed(At(children, v.node), if v.how.time.Some? then U64(v.how.time.value) else UINT64_MAX)
  }

  /** What a search has expanded, and what it has written. */
  datatype Replayed = Replayed(search: Search, list: seq<int>)

  /** Node by node: the sources of all edges in, then the targets of the edges followed, once for each
      edge. No node is visited twice. */
  function Replay(children: ArcLists, parents: ArcLists, visits: seq<Visit>): Option<Replayed>
  {
    if visits == [] then Some(Replayed(map[], []))
    else
      var n := |visits| - 1;
      match Replay(children, parents, visits[..n])
      case None => None
      case Some(r) =>
        var v := visits[n];
        if v.node in r.search then None
        else Some(Replayed(r.search[v.node := v.how],
                           (r.list + Sources(NotFrom(At(parents, v.node), v.how.prev))) + Targets(GoneOn(children, v))))
  }

  /** One more visit. */
  lemma VisitNext(children: ArcLists, parents: ArcLists, visits: seq<Visit>, v: Visit, search: Search, a: seq<int>)
    requires Replay(children, parents, visits) == Some(Replayed(search, a)) && v.node !in search
    ensures Replay(children, parents, visits + [v]) ==
            Some(Replayed(search[v.node := v.how],
                          (a + Sources(NotFrom(At(parents, v.node), v.how.prev))) + Targets(GoneOn(children, v))))
  {
    assert (visits + [v])[..|visits|] == visits;
  }

  // ---- The tables of edges -----------------------------------------------------------------------

  /** The edges out of a node, in this order. */
  function OutOf(edges: map<int, Arc>, order: seq<int>, n: int): seq<Arc>
  {
    if order == [] then []
    else
      var l := |order| - 1;
      OutOf(edges, order[..l], n) + (if order[l] in edges && edges[order[l]].n1 == n then [edges[order[l]]] else [])
  }

  /** The edges into a node. */
  function Into(edges: map<int, Arc>, order: seq<int>, n: int): seq<Arc>
  {
    if order == [] then []
    else
      var l := |order| - 1;
      Into(edges, order[..l], n) + (if order[l] in edges && edges[order[l]].n2 == n then [edges[order[l]]] else [])
  }

  /** The tables have each of these edges once, in this order. */
  ghost predicate Filed(edges: map<int, Arc>, order: seq<int>, children: ArcLists, parents: ArcLists)
  {
    && Distinct(order) && (forall k | k in order :: k in edges)
    && FiledOut(edges, order, children) && FiledIn(edges, order, parents)
  }

  ghost predicate FiledOut(edges: map<int, Arc>, order: seq<int>, children: ArcLists)
  {
    forall n :: At(children, n) == OutOf(edges, order, n)
  }

  ghost predicate FiledIn(edges: map<int, Arc>, order: seq<int>, parents: ArcLists)
  {
    forall n :: At(parents, n) == Into(edges, order, n)
  }

  /** The tables have each edge of the graph once, in some order. */
  ghost predicate AllFiled(edges: map<int, Arc>, children: ArcLists, parents: ArcLists)
  {
    exists order: seq<int> :: Filed(edges, order, children, parents) && forall k | k in edges :: k in order
  }

  lemma OutNext(edges: map<int, Arc>, order: seq<int>, children: ArcLists, k: int)
    requires FiledOut(edges, order, children) && k in edges
    ensures var e := edges[k]; FiledOut(edges, order + [k], children[e.n1 := At(children, e.n1) + [e]])
  {
    var e := edges[k];
    var kids := children[e.n1 := At(children, e.n1) + [e]];
    assert (order + [k])[..|order|] == order;
    forall n
      ensures At(kids, n) == OutOf(edges, order + [k], n)
    {
      assert At(children, n) == OutOf(edges, order, n);
    }
  }

  lemma InNext(edges: map<int, Arc>, order: seq<int>, parents: ArcLists, k: int)
    requires FiledIn(edges, order, parents) && k in edges
    ensures var e := edges[k]; FiledIn(edges, order + [k], parents[e.n2 := At(parents, e.n2) + [e]])
  {
    var e := edges[k];
    var folks := parents[e.n2 := At(parents, e.n2) + [e]];
    assert (order + [k])[..|order|] == order;
    forall n
      ensures At(folks, n) == Into(edges, order + [k], n)
    {
      assert At(parents, n) == Into(edges, order, n);
    }
  }

  // ---- Files that are skipped --------------------------------------------------------------------

  /** One edge leads out of this node. */
  ghost predicate OneOut(edges: map<int, Arc>, n: int)
  {
    exists k :: OnlyKeyOut(edges, n, k)
  }

  predicate OnlyKeyOut(edges: map<int, Arc>, n: int, k: int)
  {
    k in edges && edges[k].n1 == n && forall j | j in edges && edges[j].n1 == n :: j == k
  }

  /** Files with one child are not searched from once they are recorded as the source of an edge. */
  predicate Lone(nodes: map<int, NodeType>, children: ArcLists, y: int)
  {
    y in nodes && nodes[y] == File && |At(children, y)| == 1
  }

  ghost predicate SourceAt(arcs: set<Arc>, was: Search, search: Search, y: int, x: int, a: Arc)
  {
    x in search && x !in was && LeadsIn(arcs, x, search[x], a) && a.n1 == y
  }

  /** `y` is recorded as the source of an edge into a node expanded since `was`. */
  ghost predicate Source(arcs: set<Arc>, was: Search, search: Search, y: int)
  {
    exists x, a :: SourceAt(arcs, was, search, y, x, a)
  }

  /** What the search has added to the files that are skipped since `was`. */
  ghost predicate SkipsAdded(arcs: set<Arc>, nodes: map<int, NodeType>, children: ArcLists, was: Search, search: Search,
                             before: set<int>, skip: set<int>)
  {
    forall y :: y in skip <==> y in before || (Lone(nodes, children, y) && Source(arcs, was, search, y))
  }

  lemma SkipsTrans(arcs: set<Arc>, nodes: map<int, NodeType>, children: ArcLists, a: Search, b: Search, c: Search,
                   k0: set<int>, k1: set<int>, k2: set<int>)
    requires SearchGrows(a, b) && SearchGrows(b, c)
    requires SkipsAdded(arcs, nodes, children, a, b, k0, k1) && SkipsAdded(arcs, nodes, children, b, c, k1, k2)
    ensures SkipsAdded(arcs, nodes, children, a, c, k0, k2)
  {
    forall y
      ensures Source(arcs, a, c, y) <==> Source(arcs, a, b, y) || Source(arcs, b, c, y)
    {
      SourcesJoin(arcs, a, b, c, y);
    }
  }

  lemma SourcesJoin(arcs: set<Arc>, a: Search, b: Search, c: Search, y: int)
    requires SearchGrows(a, b) && SearchGrows(b, c)
    ensures Source(arcs, a, c, y) <==> Source(arcs, a, b, y) || Source(arcs, b, c, y)
  {
    if x, e :| SourceAt(arcs, a, c, y, x, e) {
      assert if x in b then SourceAt(arcs, a, b, y, x, e) else SourceAt(arcs, b, c, y, x, e);
    }
    if x, e :| SourceAt(arcs, a, b, y, x, e) {
      assert SourceAt(arcs, a, c, y, x, e);
    }
    if x, e :| SourceAt(arcs, b, c, y, x, e) {
      assert SourceAt(arcs, a, c, y, x, e);
    }
  }

  /** One search: where it started, and the nodes it expanded. */
  datatype Run = Run(start: int, search: Search, visits: seq<Visit>)

  ghost predicate StartsAt(runs: seq<Run>, f: int)
  {
    exists i :: 0 <= i < |runs| && runs[i].start == f
  }

  /** The search from this file is finished, and its list holds what it recorded. */
  ghost predicate RunDone(arcs: set<Arc>, table: map<int, seq<int>>, run: Run)
  {
    Explored(arcs, At(table, run.start), run.start, run.search)
  }

  /** The list of each search is what its visits made of it. */
  ghost predicate AllWritten(children: ArcLists, parents: ArcLists, table: map<int, seq<int>>, runs: seq<Run>)
  {
    forall i :: 0 <= i < |runs| ==> Written(children, parents, table, runs[i])
  }

  ghost predicate Written(children: ArcLists, parents: ArcLists, table: map<int, seq<int>>, run: Run)
  {
    Replay(children, parents, run.visits) == Some(Replayed(run.search, At(table, run.start)))
  }

  lemma WrittenStays(children: ArcLists, parents: ArcLists, was: map<int, seq<int>>, table: map<int, seq<int>>,
                     runs: seq<Run>, run: Run)
    requires AllWritten(children, parents, was, runs) && Grows(run.start, was, table) && !StartsAt(runs, run.start)
    requires Written(children, parents, table, run)
    ensures AllWritten(children, parents, table, runs + [run])
  {
    forall i | 0 <= i < |runs + [run]|
      ensures Written(children, parents, table, (runs + [run])[i])
    {
      if i < |runs| {
        assert StartsAt(runs, runs[i].start) && Written(children, parents, was, runs[i]);
        assert At(table, runs[i].start) == At(was, runs[i].start);
      }
    }
  }

  /** Some of these searches makes `y` a file to skip. */
  ghost predicate SkippedBy(arcs: set<Arc>, nodes: map<int, NodeType>, children: ArcLists, runs: seq<Run>, y: int)
  {
    Lone(nodes, children, y) && exists i :: 0 <= i < |runs| && Source(arcs, map[], runs[i].search, y)
  }

  /** The members of the graph object the search works on. */
  class Explorer {
    var nodes: map<int, NodeType>     // KGNodeTable
    var children: ArcLists            // nodeRelationshipsMapObj
    var parents: ArcLists
    var table: map<int, seq<int>>     // ObjectInteractionTable
    var skip: set<int>                // SkipObjectInteractionTable
    ghost var search: Search          // the nodes expanded from the current start
    ghost var visits: seq<Visit>      // the same, in order

    constructor (nodes: map<int, NodeType>)
      ensures this.nodes == nodes && children == map[] && parents == map[] && table == map[] && skip == {}
      ensures search == map[] && visits == []
    {
      this.nodes, children, parents, table, skip, search, visits := nodes, map[], map[], map[], {}, map[], [];
    }

    /** The list of `p` is what the visits so far made of it. */
    ghost predicate UpToDate(p: int)
      reads this`children, this`parents, this`table, this`search, this`visits
    {
      Replay(children, parents, visits) == Some(Replayed(search, At(table, p)))
    }

    method InsertObjectInteractions(p: int, child: int)
      modifies this`table
      ensures table == old(table)[p := At(old(table), p) + [child]]
    {
      if p in table {
        table := table[p := table[p] + [child]];
      } else {
        assert [] + [child] == [child];
        table := table[p := [child]];
      }
    }

    /** Indexing the node table inserts an undefined node when there is none. */
    method NodeTypeOf(n: int) returns (t: NodeType)
      modifies this`nodes
      ensures nodes == if n in old(nodes) then old(nodes) else old(nodes)[n := NoNode]
      ensures n in old(nodes) ==> t == old(nodes)[n]
    {
      if n !in nodes {
        nodes := nodes[n := NoNode];
      }
      t := nodes[n];
    }

    method FindAllChildren(p: int, minTime: nat) returns (r: seq<Arc>)
      requires minTime <= UINT64_MAX
      modifies this`nodes
      ensures nodes == if p in old(nodes) then old(nodes) else old(nodes)[p := NoNode]
      ensures r == Followed(At(children, p), minTime)
    {
      var _ := NodeTypeOf(p);
      var kids := At(children, p);
      var least: nat := minTime;
      if minTime == UINT64_MAX {
        for i := 0 to |kids|
          invariant least <= UINT64_MAX && forall j :: 0 <= j < i ==> U64(kids[j].time) >= least
        {
          if U64(kids[i].time) < least {
            least := U64(kids[i].time);
          }
        }
        if least == UINT64_MAX {
          least := 0;
        }
        NotBeforeAll(kids, least);
      }
      r := [];
      for i := 0 to |kids|
        invariant r == NotBefore(kids[..i], least)
      {
        assert kids[..i + 1][..i] == kids[..i];
        if U64(kids[i].time) >= least {
          r := r + [kids[i]];
        }
      }
      assert kids[..|kids|] == kids;
    }

    /** The sources of the edges into `c`, except along the edge the search came by, are recorded
        for `p`; a recorded file whose only edge leads here is not searched from later. */
    method FindOneHopParents(c: int, p: int, prev: int, ghost arcs: set<Arc>, ghost path: seq<Arc>)
      requires Related(arcs, children, parents) && ClosedUnder(nodes, arcs)
      requires IsPath(arcs, p, path) && |path| <= 5 && End(p, path) == c && TableSound(arcs, table)
      requires c in search && search[c].prev == prev
      modifies this`nodes, this`table, this`skip
      ensures nodes == old(nodes) && Grows(p, old(table), table) && TableSound(arcs, table)
      ensures SkipSound(arcs, table, old(skip), skip)
      ensures ParentsIn(arcs, table, p, c, prev)
      ensures SkipsOf(arcs, nodes, children, c, search[c], old(skip), skip)
      ensures Appended(p, old(table), Sources(NotFrom(At(parents, c), prev)), table)
    {
      ghost var before := table;
      var parentEdges := RecordParents(c, p, prev);
      ParentsLead(arcs, children, parents, c, search[c], parentEdges);
      SourcesSound(arcs, p, path, c, search[c], parentEdges);
      AppendedSound(arcs, p, before, Sources(parentEdges), table);
      SourcesIn(parentEdges, At(before, p), At(table, p));
      SkipParents(c, p, parentEdges, arcs, path);
    }

    method RecordParents(c: int, p: int, prev: int) returns (parentEdges: seq<Arc>)
      modifies this`table
      ensures parentEdges == NotFrom(At(parents, c), prev) && Appended(p, old(table), Sources(parentEdges), table)
    {
      var into := At(parents, c);
      parentEdges := [];
      for i := 0 to |into|
        invariant parentEdges == NotFrom(into[..i], prev) && Appended(p, old(table), Sources(parentEdges), table)
      {
        assert into[..i + 1][..i] == into[..i];
        if prev != 0 && into[i].n1 == prev {
          continue;
        }
        AppendedOneMore(p, old(table), Sources(parentEdges), table, into[i].n1);
        InsertObjectInteractions(p, into[i].n1);
        assert Sources(parentEdges + [into[i]]) == Sources(parentEdges) + [into[i].n1];
        parentEdges := parentEdges + [into[i]];
      }
      assert into[..|into|] == into;
    }

    /** The edges recorded are those that lead in. */
    static lemma ParentsLead(arcs: set<Arc>, children: ArcLists, parents: ArcLists, c: int, e: Expansion, es: seq<Arc>)
      requires Related(arcs, children, parents) && es == NotFrom(At(parents, c), e.prev)
      ensures forall j | 0 <= j < |es| :: LeadsIn(arcs, c, e, es[j])
      ensures forall a | LeadsIn(arcs, c, e, a) :: a in es
    {
      forall j | 0 <= j < |es|
        ensures LeadsIn(arcs, c, e, es[j])
      {
        NotFromMember(At(parents, c), e.prev, es[j]);
      }
      forall a | LeadsIn(arcs, c, e, a)
        ensures a in es
      {
        NotFromMember(At(parents, c), e.prev, a);
      }
    }

    static lemma SourcesIn(es: seq<Arc>, before: seq<int>, list: seq<int>)
      requires list == before + Sources(es)
      ensures forall j | 0 <= j < |es| :: es[j].n1 in list
      ensures forall a | a in es :: a.n1 in list
    {
      forall j | 0 <= j < |es|
        ensures es[j].n1 in list
      {
        assert list[|before| + j] == es[j].n1;
      }
      forall a | a in es
        ensures a.n1 in list
      {
        var j :| 0 <= j < |es| && es[j] == a;
      }
    }

    /** Their sources belong into the list. */
    static lemma SourcesSound(arcs: set<Arc>, p: int, path: seq<Arc>, c: int, e: Expansion, es: seq<Arc>)
      requires IsPath(arcs, p, path) && |path| <= 5 && End(p, path) == c
      requires forall j | 0 <= j < |es| :: LeadsIn(arcs, c, e, es[j])
      ensures forall i | 0 <= i < |Sources(es)| :: Relevant(arcs, p, Sources(es)[i])
    {
      forall i | 0 <= i < |Sources(es)|
        ensures Relevant(arcs, p, Sources(es)[i])
      {
        assert FeedsAt(arcs, p, es[i].n1, path, es[i]);
      }
    }

    method SkipParents(c: int, p: int, parentEdges: seq<Arc>, ghost arcs: set<Arc>, ghost path: seq<Arc>)
      requires Related(arcs, children, parents) && ClosedUnder(nodes, arcs)
      requires IsPath(arcs, p, path) && |path| <= 5 && End(p, path) == c
      requires c in search && forall j | 0 <= j < |parentEdges| ::
                 LeadsIn(arcs, c, search[c], parentEdges[j]) && parentEdges[j].n1 in At(table, p)
      requires forall a | LeadsIn(arcs, c, search[c], a) :: a in parentEdges
      modifies this`nodes, this`skip
      ensures nodes == old(nodes) && SkipSound(arcs, table, old(skip), skip)
      ensures SkipsOf(arcs, nodes, children, c, search[c], old(skip), skip)
    {
      for i := 0 to |parentEdges|
        invariant nodes == old(nodes) && SkipSound(arcs, table, old(skip), skip)
        invariant forall y ::
            y in skip <==> y in old(skip) || (Lone(nodes, children, y) && SourceIn(parentEdges[..i], y))
      {
        SourceNext(parentEdges, i);
        var from := parentEdges[i].n1;
        var t := NodeTypeOf(from);
        if t == File && |At(children, from)| == 1 {
          OnlyEdge(arcs, children, parents, parentEdges[i]);
          assert SkippableAt(arcs, table, from, p, path, parentEdges[i]);
          skip := skip + {from};
        }
      }
      SourcesAre(arcs, c, search[c], parentEdges);
    }

    static predicate SourceIn(es: seq<Arc>, y: int)
    {
      exists j :: 0 <= j < |es| && es[j].n1 == y
    }

    static lemma SourceNext(es: seq<Arc>, i: nat)
      requires i < |es|
      ensures forall y :: SourceIn(es[..i + 1], y) <==> SourceIn(es[..i], y) || es[i].n1 == y
    {
      assert es[..i + 1] == es[..i] + [es[i]];
      forall y
        ensures SourceIn(es[..i + 1], y) <==> SourceIn(es[..i], y) || es[i].n1 == y
      {
        if SourceIn(es[..i], y) {
          var j :| 0 <= j < i && es[..i][j].n1 == y;
          assert es[..i + 1][j].n1 == y;
        }
        assert es[..i + 1][i] == es[i];
      }
    }

    /** What expanding one node adds to the files that are skipped. */
    static ghost predicate SkipsOf(arcs: set<Arc>, nodes: map<int, NodeType>, children: ArcLists, x: int, e: Expansion,
                                   before: set<int>, skip: set<int>)
    {
      forall y :: y in skip <==> y in before || (Lone(nodes, children, y) && SourceOf(arcs, x, e, y))
    }

    static ghost predicate SourceOf(arcs: set<Arc>, x: int, e: Expansion, y: int)
    {
      exists a :: LeadsIn(arcs, x, e, a) && a.n1 == y
    }

    static lemma SourcesAre(arcs: set<Arc>, x: int, e: Expansion, es: seq<Arc>)
      requires forall j | 0 <= j < |es| :: LeadsIn(arcs, x, e, es[j])
      requires forall a | LeadsIn(arcs, x, e, a) :: a in es
      ensures forall y :: SourceIn(es[..|es|], y) <==> SourceOf(arcs, x, e, y)
    {
      assert es[..|es|] == es;
    }

    static lemma OnlyEdge(arcs: set<Arc>, children: ArcLists, parents: ArcLists, a: Arc)
      requires Related(arcs, children, parents) && a in arcs && |At(children, a.n1)| == 1
      ensures forall b | b in arcs && b.n1 == a.n1 :: b == a
    {
      forall b | b in arcs && b.n1 == a.n1
        ensures b == a
      {
        var list := At(children, a.n1);
        assert a in list && b in list;
        assert list == [list[0]];
      }
    }

    static lemma ChildIsReached(arcs: set<Arc>, p: int, path: seq<Arc>, a: Arc)
      requires |path| <= 5 && IsPath(arcs, p, path) && Continues(arcs, p, path, a)
      ensures Relevant(arcs, p, a.n2)
    {
      var longer := Extend(arcs, p, path, a);
      assert ReachedBy(arcs, p, a.n2, longer);
    }

    static predicate EndsIn(kids: seq<Arc>, list: seq<int>)
    {
      forall i :: 0 <= i < |kids| ==> kids[i].n2 in list
    }

    method RecordChildren(p: int, kids: seq<Arc>)
      modifies this`table
      ensures Appended(p, old(table), Targets(kids), table)
    {
      for i := 0 to |kids|
        invariant Appended(p, old(table), Targets(kids[..i]), table)
      {
        AppendedOneMore(p, old(table), Targets(kids[..i]), table, kids[i].n2);
        InsertObjectInteractions(p, kids[i].n2);
        assert Targets(kids[..i + 1]) == Targets(kids[..i]) + [kids[i].n2];
      }
      assert kids[..|kids|] == kids;
    }

    /** The targets of the children belong into the list. */
    static lemma TargetsSound(arcs: set<Arc>, p: int, path: seq<Arc>, kids: seq<Arc>)
      requires |path| <= 5 && IsPath(arcs, p, path)
      requires forall i :: 0 <= i < |kids| ==> Continues(arcs, p, path, kids[i])
      ensures forall i | 0 <= i < |Targets(kids)| :: Relevant(arcs, p, Targets(kids)[i])
    {
      forall i | 0 <= i < |Targets(kids)|
        ensures Relevant(arcs, p, Targets(kids)[i])
      {
        ChildIsReached(arcs, p, path, kids[i]);
      }
    }

    static lemma TargetsIn(kids: seq<Arc>, before: seq<int>, list: seq<int>)
      requires list == before + Targets(kids)
      ensures EndsIn(kids, list)
    {
      forall i | 0 <= i < |kids|
        ensures kids[i].n2 in list
      {
        assert list[|before| + i] == kids[i].n2;
      }
    }

    /** The children are recorded, and all of them belong there. */
    method RecordFollowed(p: int, kids: seq<Arc>, ghost arcs: set<Arc>, ghost path: seq<Arc>)
      requires |path| <= 5 && IsPath(arcs, p, path) && TableSound(arcs, table)
      requires forall i :: 0 <= i < |kids| ==> Continues(arcs, p, path, kids[i])
      modifies this`table
      ensures Grows(p, old(table), table) && TableSound(arcs, table) && Appended(p, old(table), Targets(kids), table)
      ensures EndsIn(kids, At(table, p))
    {
      ghost var before := table;
      RecordChildren(p, kids);
      TargetsSound(arcs, p, path, kids);
      AppendedSound(arcs, p, before, Targets(kids), table);
      TargetsIn(kids, At(before, p), At(table, p));
    }

    /** The node is expanded: its neighbours are recorded, sources of edges first. */
    method ExpandNode(start: int, prev: int, curr: int, depth: nat, minTime: nat, ghost arcs: set<Arc>,
                      ghost path: seq<Arc>) returns (childEdges: seq<Arc>)
      requires Related(arcs, children, parents) && ClosedUnder(nodes, arcs) && curr in nodes
      requires |path| + depth == 5 && IsPath(arcs, start, path) && End(start, path) == curr
      requires minTime == if path == [] then UINT64_MAX else U64(path[|path| - 1].time)
      requires TableSound(arcs, table) && curr !in search
      requires UpToDate(start)
      modifies this`nodes, this`table, this`skip, this`search, this`visits
      ensures UpToDate(start)
      ensures nodes == old(nodes) && Grows(start, old(table), table) && TableSound(arcs, table)
      ensures SkipSound(arcs, table, old(skip), skip)
      ensures search == old(search)[curr := Expansion(prev, TimeOf(path), depth)]
      ensures SkipsAdded(arcs, nodes, children, old(search), search, old(skip), skip)
      ensures forall i :: 0 <= i < |childEdges| ==> Continues(arcs, start, path, childEdges[i])
      ensures RecordedAll(arcs, At(table, start), curr, search[curr], childEdges)
    {
      ghost var t0, s0, v0 := table, search, visits;
      ghost var visit := Visit(curr, Expansion(prev, TimeOf(path), depth));
      childEdges := Expand(start, prev, curr, depth, minTime, arcs, path);
      VisitNext(children, parents, v0, visit, s0, At(t0, start));
      visits := visits + [visit];
    }

    /** Without the note of the visit. The list of the start gets the sources of all edges in, then the
        targets of the edges followed. */
    method Expand(start: int, prev: int, curr: int, depth: nat, minTime: nat, ghost arcs: set<Arc>,
                  ghost path: seq<Arc>) returns (childEdges: seq<Arc>)
      requires Related(arcs, children, parents) && ClosedUnder(nodes, arcs) && curr in nodes
      requires |path| + depth == 5 && IsPath(arcs, start, path) && End(start, path) == curr
      requires minTime == if path == [] then UINT64_MAX else U64(path[|path| - 1].time)
      requires TableSound(arcs, table) && curr !in search
      modifies this`nodes, this`table, this`skip, this`search
      ensures nodes == old(nodes) && Grows(start, old(table), table) && TableSound(arcs, table)
      ensures SkipSound(arcs, table, old(skip), skip)
      ensures search == old(search)[curr := Expansion(prev, TimeOf(path), depth)]
      ensures SkipsAdded(arcs, nodes, children, old(search), search, old(skip), skip)
      ensures forall i :: 0 <= i < |childEdges| ==> Continues(arcs, start, path, childEdges[i])
      ensures RecordedAll(arcs, At(table, start), curr, search[curr], childEdges)
      ensures childEdges == Followed(At(children, curr), minTime)
      ensures At(table, start) ==
              (At(old(table), start) + Sources(NotFrom(At(parents, curr), prev))) + Targets(childEdges)
    {
      ghost var t0, k0, s0 := table, skip, search;
      search := search[curr := Expansion(prev, TimeOf(path), depth)];
      childEdges := FindAllChildren(curr, minTime);
      AllContinue(arcs, children, parents, start, path, curr, minTime);
      FollowedAreLed(arcs, start, path, curr, search[curr], childEdges);
      FindOneHopParents(curr, start, prev, arcs, path);
      SkipsFirst(arcs, nodes, children, s0, search, curr, k0, skip);
      ghost var t1 := table;
      RecordFollowed(start, childEdges, arcs, path);
      ExpandedGrows(arcs, start, t0, t1, table, k0, skip, curr, prev);
    }

    static lemma ExpandedGrows(arcs: set<Arc>, start: int, t0: map<int, seq<int>>, t1: map<int, seq<int>>,
                               t2: map<int, seq<int>>, k0: set<int>, skip: set<int>, x: int, prev: int)
      requires Grows(start, t0, t1) && Grows(start, t1, t2) && SkipSound(arcs, t1, k0, skip)
      requires ParentsIn(arcs, t1, start, x, prev)
      ensures Grows(start, t0, t2) && SkipSound(arcs, t2, k0, skip) && ParentsIn(arcs, t2, start, x, prev)
    {
      GrowsTrans(start, t0, t1, t2);
      SkipSoundGrows(arcs, start, t1, t2, k0, skip);
      NeighboursGrow(arcs, start, t1, t2, start, x, prev);
    }

    /** The edges that lead on from a node are these, and all its neighbours are in the list. */
    static ghost predicate RecordedAll(arcs: set<Arc>, list: seq<int>, x: int, e: Expansion, kids: seq<Arc>)
    {
      && (forall a | LeadsOn(arcs, x, e, a) :: a in kids)
      && EndsIn(kids, list) && (forall a | LeadsIn(arcs, x, e, a) :: a.n1 in list)
    }

    static lemma ExpandedStays(arcs: set<Arc>, list: seq<int>, longer: seq<int>, x: int, e: Expansion, kids: seq<Arc>)
      requires RecordedAll(arcs, list, x, e, kids) && list <= longer
      ensures RecordedAll(arcs, longer, x, e, kids)
    {
    }

    /** The depth-first search. The path from the start to the current node is known to the proof
        only; `minTime` is the timestamp of its last edge. */
    method FindInteractiveEntities(start: int, prev: int, curr: int, depth: nat, visited: set<int>, minTime: nat,
                                   ghost arcs: set<Arc>, ghost path: seq<Arc>) returns (seen: set<int>)
      requires Related(arcs, children, parents) && ClosedUnder(nodes, arcs) && curr in nodes
      requires |path| + depth == 5 && IsPath(arcs, start, path) && End(start, path) == curr
      requires minTime == if path == [] then UINT64_MAX else U64(path[|path| - 1].time)
      requires TableSound(arcs, table)
      requires curr !in search && visited == search.Keys + {curr} && UpToDate(start)
      modifies this`nodes, this`table, this`skip, this`search, this`visits
      ensures UpToDate(start)
      ensures nodes == old(nodes) && Grows(start, old(table), table) && TableSound(arcs, table)
      ensures SkipSound(arcs, table, old(skip), skip)
      ensures Progress(arcs, At(table, start), old(search), search, Some(curr)) && seen == search.Keys
      ensures curr in search && search[curr] == Expansion(prev, TimeOf(path), depth)
      ensures SkipsAdded(arcs, nodes, children, old(search), search, old(skip), skip)
      decreases depth
    {
      seen := visited;
      ghost var s0, t0, k0 := search, table, skip;
      var childEdges := ExpandNode(start, prev, curr, depth, minTime, arcs, path);
      if |childEdges| == 0 || depth == 0 {
        FirstProgress(arcs, At(table, start), s0, search, curr, childEdges, search);
        return;
      }
      ghost var s1, t1, k1 := search, table, skip;
      seen := SearchChildren(start, curr, depth, childEdges, seen, arcs, path);
      FurtherSearched(arcs, start, t0, t1, table, k0, k1, skip);
      SkipsTrans(arcs, nodes, children, s0, s1, search, k0, k1, skip);
      ExpandedStays(arcs, At(t1, start), At(table, start), curr, s1[curr], childEdges);
      FirstProgress(arcs, At(table, start), s0, s1, curr, childEdges, search);
    }

    /** The recursion into the children not yet visited. */
    method SearchChildren(start: int, curr: int, depth: nat, childEdges: seq<Arc>, visited: set<int>,
                          ghost arcs: set<Arc>, ghost path: seq<Arc>) returns (seen: set<int>)
      requires Related(arcs, children, parents) && ClosedUnder(nodes, arcs)
      requires depth >= 1 && |path| + depth == 5 && IsPath(arcs, start, path) && End(start, path) == curr
      requires forall i :: 0 <= i < |childEdges| ==> Continues(arcs, start, path, childEdges[i])
      requires TableSound(arcs, table)
      requires curr in search && search[curr].time == TimeOf(path) && search[curr].left == depth
      requires visited == search.Keys && UpToDate(start)
      modifies this`nodes, this`table, this`skip, this`search, this`visits
      ensures UpToDate(start)
      ensures nodes == old(nodes) && Grows(start, old(table), table) && TableSound(arcs, table)
      ensures SkipSound(arcs, table, old(skip), skip)
      ensures Progress(arcs, At(table, start), old(search), search, None) && seen == search.Keys
      ensures AllIn(childEdges, |childEdges|, search)
      ensures SkipsAdded(arcs, nodes, children, old(search), search, old(skip), skip)
      decreases depth, 2
    {
      seen := visited;
      for i := 0 to |childEdges|
        invariant nodes == old(nodes) && Grows(start, old(table), table) && TableSound(arcs, table)
        invariant SkipSound(arcs, table, old(skip), skip)
        invariant Progress(arcs, At(table, start), old(search), search, None) && seen == search.Keys
        invariant UpToDate(start)
        invariant AllIn(childEdges, i, search)
        invariant SkipsAdded(arcs, nodes, children, old(search), search, old(skip), skip)
      {
        ghost var s1 := search;
        seen := TryChild(start, curr, depth, childEdges[i], seen, arcs, path, old(table), old(skip), old(search));
        AllInNext(childEdges, i, s1, search);
      }
    }

    /** The first `n` of these edges lead to nodes of the search. */
    static predicate AllIn(kids: seq<Arc>, n: nat, search: Search)
    {
      n <= |kids| && forall j :: 0 <= j < n ==> kids[j].n2 in search
    }

    static lemma AllInNext(kids: seq<Arc>, n: nat, was: Search, search: Search)
      requires n < |kids| && AllIn(kids, n, was) && SearchGrows(was, search) && kids[n].n2 in search
      ensures AllIn(kids, n + 1, search)
    {
    }

    /** One child, unless it has been visited. `t0`, `k0` and `s0` are from before the first child. */
    method TryChild(start: int, curr: int, depth: nat, edge: Arc, visited: set<int>, ghost arcs: set<Arc>,
                    ghost path: seq<Arc>, ghost t0: map<int, seq<int>>, ghost k0: set<int>, ghost s0: Search)
      returns (seen: set<int>)
      requires Related(arcs, children, parents) && ClosedUnder(nodes, arcs)
      requires depth >= 1 && |path| + depth == 5 && IsPath(arcs, start, path) && End(start, path) == curr
      requires Continues(arcs, start, path, edge) && TableSound(arcs, table)
      requires curr in search && search[curr].time == TimeOf(path) && search[curr].left == depth
      requires visited == search.Keys && UpToDate(start)
      requires Grows(start, t0, table) && SkipSound(arcs, table, k0, skip)
      requires Progress(arcs, At(table, start), s0, search, None)
      requires SkipsAdded(arcs, nodes, children, s0, search, k0, skip)
      modifies this`nodes, this`table, this`skip, this`search, this`visits
      ensures UpToDate(start) && nodes == old(nodes) && TableSound(arcs, table)
      ensures Grows(start, t0, table) && SkipSound(arcs, table, k0, skip)
      ensures Progress(arcs, At(table, start), s0, search, None) && seen == search.Keys
      ensures SearchGrows(old(search), search) && edge.n2 in search
      ensures SkipsAdded(arcs, nodes, children, s0, search, k0, skip)
      decreases depth, 1
    {
      seen := visited;
      if edge.n2 !in seen {
        ghost var t1, k1, s1 := table, skip, search;
        seen := SearchChild(start, curr, depth, edge, seen, arcs, path);
        SearchedOn(arcs, nodes, children, start, t0, k0, s0, t1, k1, s1, table, skip, search, edge.n2);
      }
    }

    /** What the search of one more child adds up to. */
    static lemma SearchedOn(arcs: set<Arc>, nodes: map<int, NodeType>, children: ArcLists, start: int,
                            t0: map<int, seq<int>>, k0: set<int>, s0: Search, t1: map<int, seq<int>>, k1: set<int>,
                            s1: Search, t2: map<int, seq<int>>, k2: set<int>, s2: Search, x: int)
      requires Grows(start, t0, t1) && SkipSound(arcs, t1, k0, k1) && Progress(arcs, At(t1, start), s0, s1, None)
      requires Grows(start, t1, t2) && SkipSound(arcs, t2, k1, k2) && Progress(arcs, At(t2, start), s1, s2, Some(x))
      requires CameFrom(arcs, s2, x)
      requires SkipsAdded(arcs, nodes, children, s0, s1, k0, k1) && SkipsAdded(arcs, nodes, children, s1, s2, k1, k2)
      ensures Grows(start, t0, t2) && SkipSound(arcs, t2, k0, k2) && Progress(arcs, At(t2, start), s0, s2, None)
      ensures SkipsAdded(arcs, nodes, children, s0, s2, k0, k2)
    {
      FurtherSearched(arcs, start, t0, t1, t2, k0, k1, k2);
      ListGrows(start, t1, t2);
      ProgressOn(arcs, At(t1, start), s0, s1, At(t2, start), s2, x);
      SkipsTrans(arcs, nodes, children, s0, s1, s2, k0, k1, k2);
    }

    static lemma ListGrows(start: int, t1: map<int, seq<int>>, t2: map<int, seq<int>>)
      requires Grows(start, t1, t2)
      ensures At(t1, start) <= At(t2, start)
    {
    }

    /** The recursion into a child that has not been visited. */
    method SearchChild(start: int, curr: int, depth: nat, edge: Arc, visited: set<int>, ghost arcs: set<Arc>,
                       ghost path: seq<Arc>) returns (seen: set<int>)
      requires Related(arcs, children, parents) && ClosedUnder(nodes, arcs)
      requires depth >= 1 && |path| + depth == 5 && IsPath(arcs, start, path) && End(start, path) == curr
      requires Continues(arcs, start, path, edge) && edge.n2 !in search
      requires TableSound(arcs, table)
      requires curr in search && search[curr].time == TimeOf(path) && search[curr].left == depth
      requires visited == search.Keys && UpToDate(start)
      modifies this`nodes, this`table, this`skip, this`search, this`visits
      ensures UpToDate(start)
      ensures nodes == old(nodes) && Grows(start, old(table), table) && TableSound(arcs, table)
      ensures SkipSound(arcs, table, old(skip), skip)
      ensures Progress(arcs, At(table, start), old(search), search, Some(edge.n2)) && seen == search.Keys
      ensures edge.n2 in search && CameFrom(arcs, search, edge.n2)
      ensures SkipsAdded(arcs, nodes, children, old(search), search, old(skip), skip)
      decreases depth, 0
    {
      ghost var longer := Extend(arcs, start, path, edge);
      seen := visited + {edge.n2};
      seen := FindInteractiveEntities(start, curr, edge.n2, depth - 1, seen, U64(edge.time), arcs, longer);
      assert CameBy(arcs, search, edge.n2, edge);
    }

    static lemma FurtherSearched(arcs: set<Arc>, start: int, t0: map<int, seq<int>>, t1: map<int, seq<int>>,
                                 t2: map<int, seq<int>>, k0: set<int>, k1: set<int>, k2: set<int>)
      requires Grows(start, t0, t1) && Grows(start, t1, t2) && SkipSound(arcs, t1, k0, k1) &&
               SkipSound(arcs, t2, k1, k2)
      ensures Grows(start, t0, t2) && SkipSound(arcs, t2, k0, k2)
    {
      GrowsTrans(start, t0, t1, t2);
      SkipSoundGrows(arcs, start, t1, t2, k0, k1);
      SkipSoundTrans(arcs, t2, k0, k1, k2);
    }

    /** The time of the last edge of a path. */
    static function TimeOf(path: seq<Arc>): Option<Int64>
    {
      if path == [] then None else Some(path[|path| - 1].time)
    }

    /** The children found are those that edges lead on to. */
    static lemma FollowedAreLed(arcs: set<Arc>, s: int, path: seq<Arc>, curr: int, e: Expansion, kids: seq<Arc>)
      requires End(s, path) == curr && e.time == TimeOf(path)
      requires forall i :: 0 <= i < |kids| ==> Continues(arcs, s, path, kids[i])
      requires forall a | Continues(arcs, s, path, a) :: a in kids
      ensures forall i :: 0 <= i < |kids| ==> LeadsOn(arcs, curr, e, kids[i])
      ensures forall a | LeadsOn(arcs, curr, e, a) :: a in kids
    {
    }

    /** Expanding the current node is progress, and so is what its children add. */
    static lemma FirstProgress(arcs: set<Arc>, list: seq<int>, was: Search, first: Search, curr: int, kids: seq<Arc>,
                               search: Search)
      requires curr !in was && curr in first && first == was[curr := first[curr]]
      requires Progress(arcs, list, first, search, None)
      requires RecordedAll(arcs, list, curr, first[curr], kids)
      requires first[curr].left >= 1 ==> forall i :: 0 <= i < |kids| ==> kids[i].n2 in search
      ensures Progress(arcs, list, was, search, Some(curr))
    {
      forall a | LeadsOn(arcs, curr, first[curr], a)
        ensures a.n2 in list && (first[curr].left >= 1 ==> a.n2 in search)
      {
        var i :| 0 <= i < |kids| && kids[i] == a;
      }
      assert GoesOn(arcs, list, search.Keys, curr, search[curr]);
    }

    static lemma SkipsFirst(arcs: set<Arc>, nodes: map<int, NodeType>, children: ArcLists, was: Search, first: Search,
                            curr: int, before: set<int>, skip: set<int>)
      requires curr !in was && curr in first && first == was[curr := first[curr]]
      requires SkipsOf(arcs, nodes, children, curr, first[curr], before, skip)
      ensures SkipsAdded(arcs, nodes, children, was, first, before, skip)
    {
      forall y
        ensures Source(arcs, was, first, y) <==> SourceOf(arcs, curr, first[curr], y)
      {
        if a :| LeadsIn(arcs, curr, first[curr], a) && a.n1 == y {
          assert SourceAt(arcs, was, first, y, curr, a);
        }
      }
    }

    static lemma SkipSoundTrans(arcs: set<Arc>, table: map<int, seq<int>>, a: set<int>, b: set<int>, c: set<int>)
      requires SkipSound(arcs, table, a, b) && SkipSound(arcs, table, b, c)
      ensures SkipSound(arcs, table, a, c)
    {
    }

    /** The edge goes on from the end of the path and is followed after its last edge. */
    static ghost predicate Continues(arcs: set<Arc>, s: int, path: seq<Arc>, a: Arc)
    {
      && a in arcs && a.n1 == End(s, path)
      && (path != [] ==> Follows(path[|path| - 1].time, a.time))
    }

    static lemma AllContinue(arcs: set<Arc>, children: ArcLists, parents: ArcLists, s: int, path: seq<Arc>, curr: int,
                             minTime: nat)
      requires Related(arcs, children, parents) && IsPath(arcs, s, path) && End(s, path) == curr
      requires minTime == if path == [] then UINT64_MAX else U64(path[|path| - 1].time)
      ensures var kids := Followed(At(children, curr), minTime);
              && (forall i :: 0 <= i < |kids| ==> Continues(arcs, s, path, kids[i]))
              && (forall a | Continues(arcs, s, path, a) :: a in kids)
    {
      var kids := Followed(At(children, curr), minTime);
      forall i | 0 <= i < |kids|
        ensures Continues(arcs, s, path, kids[i])
      {
        assert kids[i] in kids;
        if path != [] {
          FollowedMember(At(children, curr), path[|path| - 1].time, kids[i]);
        }
        assert kids[i] in At(children, curr);
      }
      forall a | Continues(arcs, s, path, a)
        ensures a in kids
      {
        assert a in At(children, curr);
        if path != [] {
          FollowedMember(At(children, curr), path[|path| - 1].time, a);
        }
      }
    }

    // ---- All files -----------------------------------------------------------------------------

    static ghost predicate ArcsOf(edges: map<int, Arc>, arcs: set<Arc>)
    {
      (forall k | k in edges :: edges[k] in arcs) && forall a | a in arcs :: exists k :: k in edges && edges[k] == a
    }

    static lemma ArcsOfNext(edges: map<int, Arc>, todo: set<int>, k: int, arcs: set<Arc>)
      requires k in todo && k in edges && ArcsOf(edges - todo, arcs)
      ensures ArcsOf(edges - (todo - {k}), arcs + {edges[k]})
    {
      var part, next := edges - todo, edges - (todo - {k});
      assert next == part[k := edges[k]];
      forall a | a in arcs + {edges[k]}
        ensures exists j :: j in next && next[j] == a
      {
        if a in arcs {
          var j :| j in part && part[j] == a;
          assert j in next && next[j] == a;
        } else {
          assert next[k] == a;
        }
      }
    }

    static lemma OneOutNext(part: map<int, Arc>, k: int, a: Arc, children: ArcLists)
      requires k !in part && OutCounted(part, children)
      ensures OutCounted(part[k := a], children[a.n1 := At(children, a.n1) + [a]])
    {
      var next, kids := part[k := a], children[a.n1 := At(children, a.n1) + [a]];
      forall n
        ensures |At(kids, n)| == 0 <==> NoneOut(next, n)
        ensures |At(kids, n)| == 1 <==> OneOut(next, n)
      {
        if n != a.n1 {
          OtherOut(part, k, a, n);
        } else {
          assert next[k] == a;
          if NoneOut(part, n) {
            assert OnlyKeyOut(next, n, k);
          } else {
            var j :| j in part && part[j].n1 == n;
            assert next[j] == part[j];
          }
        }
      }
    }

    static lemma OtherOut(part: map<int, Arc>, k: int, a: Arc, n: int)
      requires k !in part && a.n1 != n
      ensures NoneOut(part[k := a], n) <==> NoneOut(part, n)
      ensures OneOut(part[k := a], n) <==> OneOut(part, n)
    {
      var next := part[k := a];
      assert forall j | j in part :: next[j] == part[j];
      if j :| OnlyKeyOut(part, n, j) {
        assert OnlyKeyOut(next, n, j);
      }
      if j :| OnlyKeyOut(next, n, j) {
        assert OnlyKeyOut(part, n, j);
      }
    }

    static predicate NoneOut(edges: map<int, Arc>, n: int)
    {
      forall j | j in edges :: edges[j].n1 != n
    }

    /** Whether a list of children is empty or single says how many edges lead out of the node. */
    static ghost predicate OutCounted(edges: map<int, Arc>, children: ArcLists)
    {
      && (forall n :: |At(children, n)| == 0 <==> NoneOut(edges, n))
      && (forall n :: |At(children, n)| == 1 <==> OneOut(edges, n))
    }

    /** The edges but for those still to do. */
    static ghost predicate RelatedSoFar(edges: map<int, Arc>, todo: set<int>, order: seq<int>, arcs: set<Arc>,
                                        children: ArcLists, parents: ArcLists)
    {
      && Related(arcs, children, parents) && ArcsOf(edges - todo, arcs) && OutCounted(edges - todo, children)
      && Filed(edges, order, children, parents) && forall k :: k in order <==> k in edges && k !in todo
    }

    static lemma FiledNext(edges: map<int, Arc>, order: seq<int>, children: ArcLists, parents: ArcLists, k: int)
      requires Filed(edges, order, children, parents) && k in edges && k !in order
      ensures var e := edges[k];
              Filed(edges, order + [k], children[e.n1 := At(children, e.n1) + [e]],
                    parents[e.n2 := At(parents, e.n2) + [e]])
    {
      OutNext(edges, order, children, k);
      InNext(edges, order, parents, k);
    }

    static lemma RelateNext(edges: map<int, Arc>, todo: set<int>, order: seq<int>, arcs: set<Arc>, children: ArcLists,
                            parents: ArcLists, k: int)
      requires RelatedSoFar(edges, todo, order, arcs, children, parents) && k in todo && k in edges
      ensures var e := edges[k];
              RelatedSoFar(edges, todo - {k}, order + [k], arcs + {e}, children[e.n1 := At(children, e.n1) + [e]],
                           parents[e.n2 := At(parents, e.n2) + [e]])
    {
      var e := edges[k];
      RelatedNext(arcs, children, parents, e);
      assert edges - (todo - {k}) == (edges - todo)[k := e];
      OneOutNext(edges - todo, k, e, children);
      FiledNext(edges, order, children, parents, k);
      ArcsOfNext(edges, todo, k, arcs);
    }

    method Relate(edges: map<int, Arc>) returns (ghost arcs: set<Arc>)
      requires children == map[] && parents == map[]
      modifies this`children, this`parents
      ensures Related(arcs, children, parents)
      ensures ArcsOf(edges, arcs) && OutCounted(edges, children) && AllFiled(edges, children, parents)
    {
      arcs := {};
      ghost var order: seq<int> := [];
      var todo := edges.Keys;
      while todo != {}
        invariant todo <= edges.Keys && RelatedSoFar(edges, todo, order, arcs, children, parents)
        decreases todo
      {
        var k := Pick(todo);
        var edge := edges[k];
        RelateNext(edges, todo, order, arcs, children, parents, k);
        children := children[edge.n1 := At(children, edge.n1) + [edge]];
        parents := parents[edge.n2 := At(parents, edge.n2) + [edge]];
        arcs, order := arcs + {edge}, order + [k];
        todo := todo - {k};
      }
      assert edges - {} == edges;
    }

    static lemma RelatedNext(arcs: set<Arc>, children: ArcLists, parents: ArcLists, edge: Arc)
      requires Related(arcs, children, parents)
      ensures Related(arcs + {edge}, children[edge.n1 := At(children, edge.n1) + [edge]],
                      parents[edge.n2 := At(parents, edge.n2) + [edge]])
    {
      var kids := children[edge.n1 := At(children, edge.n1) + [edge]];
      var folks := parents[edge.n2 := At(parents, edge.n2) + [edge]];
      forall n, a
        ensures a in At(kids, n) <==> a in arcs + {edge} && a.n1 == n
        ensures a in At(folks, n) <==> a in arcs + {edge} && a.n2 == n
      {
        assert a in At(kids, n) <==> a in At(children, n) || (n == edge.n1 && a == edge);
        assert a in At(folks, n) <==> a in At(parents, n) || (n == edge.n2 && a == edge);
      }
    }

    /** The neighbours of a start node, in both directions, are in its list. */
    static ghost predicate Covered(arcs: set<Arc>, table: map<int, seq<int>>, f: int)
    {
      ChildrenIn(arcs, table, f, f) && ParentsIn(arcs, table, f, f, 0)
    }

    static lemma ExploredCovers(arcs: set<Arc>, table: map<int, seq<int>>, f: int, search: Search)
      requires Explored(arcs, At(table, f), f, search)
      ensures Covered(arcs, table, f)
    {
      var e := search[f];
      assert GoesOn(arcs, At(table, f), search.Keys, f, e);
      forall a | a in arcs && a.n1 == f
        ensures a.n2 in At(table, f)
      {
        assert LeadsOn(arcs, f, e, a);
      }
      forall a | a in arcs && a.n2 == f
        ensures a.n1 in At(table, f)
      {
        assert LeadsIn(arcs, f, e, a);
      }
    }

    /** All searches so far: each is finished, from a file not skipped by the searches before it; what
        they record is in the table, and the files they make skipped are skipped. */
    static ghost predicate AreRun(arcs: set<Arc>, nodes: map<int, NodeType>, children: ArcLists,
                                  table: map<int, seq<int>>, skip: set<int>, runs: seq<Run>, before: set<int>)
    {
      && (forall i :: 0 <= i < |runs| ==> RunDone(arcs, table, runs[i]))
      && (forall i, j :: 0 <= i < j < |runs| ==> runs[i].start != runs[j].start)
      && (forall k | k in table :: StartsAt(runs, k))
      && (forall i :: 0 <= i < |runs| ==> runs[i].start in nodes && nodes[runs[i].start] == File &&
                                          runs[i].start !in before &&
                                          !SkippedBy(arcs, nodes, children, runs[..i], runs[i].start))
      && (forall y :: y in skip <==> y in before || SkippedBy(arcs, nodes, children, runs, y))
    }

    ghost predicate AllRun(arcs: set<Arc>, runs: seq<Run>, before: set<int>)
      reads this`nodes, this`children, this`table, this`skip
    {
      AreRun(arcs, nodes, children, table, skip, runs, before)
    }

    static lemma StartsNext(runs: seq<Run>, run: Run)
      ensures forall f :: StartsAt(runs + [run], f) <==> StartsAt(runs, f) || run.start == f
    {
      forall f
        ensures StartsAt(runs + [run], f) <==> StartsAt(runs, f) || run.start == f
      {
        if i :| 0 <= i < |runs| && runs[i].start == f {
          assert (runs + [run])[i].start == f;
        }
        assert (runs + [run])[|runs|] == run;
      }
    }

    static lemma SkippedNext(arcs: set<Arc>, nodes: map<int, NodeType>, children: ArcLists, runs: seq<Run>, run: Run,
                             y: int)
      ensures SkippedBy(arcs, nodes, children, runs + [run], y) <==>
              SkippedBy(arcs, nodes, children, runs, y) ||
              (Lone(nodes, children, y) && Source(arcs, map[], run.search, y))
    {
      var more := runs + [run];
      if i :| 0 <= i < |runs| && Source(arcs, map[], runs[i].search, y) {
        assert Source(arcs, map[], more[i].search, y);
      }
      assert more[|runs|] == run;
    }

    /** The lists of the searches before stay as they are, and the skipped files are those of all. */
    static lemma RunsKeep(arcs: set<Arc>, nodes: map<int, NodeType>, children: ArcLists, runs: seq<Run>, run: Run,
                          before: set<int>, t0: map<int, seq<int>>, k0: set<int>, table: map<int, seq<int>>,
                          skip: set<int>)
      requires AreRun(arcs, nodes, children, t0, k0, runs, before) && Grows(run.start, t0, table)
      requires run.start in nodes && nodes[run.start] == File && run.start !in k0 && !StartsAt(runs, run.start)
      requires RunDone(arcs, table, run) && SkipsAdded(arcs, nodes, children, map[], run.search, k0, skip)
      ensures AreRun(arcs, nodes, children, table, skip, runs + [run], before)
    {
      var more := runs + [run];
      StartsNext(runs, run);
      forall i | 0 <= i < |more|
        ensures RunDone(arcs, table, more[i])
        ensures more[i].start in nodes && nodes[more[i].start] == File && more[i].start !in before
        ensures !SkippedBy(arcs, nodes, children, more[..i], more[i].start)
      {
        assert more[..i] == runs[..i];
        if i < |runs| {
          assert StartsAt(runs, runs[i].start);
          assert At(table, runs[i].start) == At(t0, runs[i].start);
        } else {
          assert runs[..i] == runs;
        }
      }
      forall i, j | 0 <= i < j < |more|
        ensures more[i].start != more[j].start
      {
        assert StartsAt(runs, more[i].start);
      }
      forall y
        ensures y in skip <==> y in before || SkippedBy(arcs, nodes, children, more, y)
      {
        SkippedNext(arcs, nodes, children, runs, run, y);
      }
    }

    /** One more search. */
    method RunSearch(f: int, ghost arcs: set<Arc>, ghost runs: seq<Run>, ghost before: set<int>)
      returns (ghost run: Run)
      requires Related(arcs, children, parents) && ClosedUnder(nodes, arcs) && f in nodes && nodes[f] == File
      requires TableSound(arcs, table) && AllRun(arcs, runs, before) && f !in skip && !StartsAt(runs, f)
      requires AllWritten(children, parents, table, runs)
      modifies this`nodes, this`table, this`skip, this`search, this`visits
      ensures nodes == old(nodes) && TableSound(arcs, table) && Grows(f, old(table), table)
      ensures SkipSound(arcs, table, old(skip), skip)
      ensures run.start == f && AllRun(arcs, runs + [run], before)
      ensures AllWritten(children, parents, table, runs + [run])
    {
      ghost var t0, k0 := table, skip;
      search, visits := map[], [];
      assert f !in table;
      var _ := FindInteractiveEntities(f, 0, f, 5, {f}, UINT64_MAX, arcs, []);
      run := Run(f, search, visits);
      forall y | y in At(table, f)
        ensures SomeNeighbour(arcs, search, y)
      {
        WrittenAreNeighbours(arcs, children, parents, visits, search, y);
      }
      SearchFinished(arcs, At(table, f), f, search);
      RunsKeep(arcs, nodes, children, runs, run, before, t0, k0, table, skip);
      WrittenStays(children, parents, t0, table, runs, run);
    }

    static lemma SearchFinished(arcs: set<Arc>, list: seq<int>, f: int, search: Search)
      requires f in search && search[f] == Expansion(0, None, 5) && Progress(arcs, list, map[], search, Some(f))
      requires OnlyNeighbours(arcs, list, search)
      ensures Explored(arcs, list, f, search)
    {
      forall y | SomeNeighbour(arcs, search, y)
        ensures y in list
      {
        var x, a :| Neighbour(arcs, search, y, x, a);
        assert GoesOn(arcs, list, search.Keys, x, search[x]);
      }
    }

    /** The search from every file that is not skipped, in any order of the node table. */
    method RunSearches(ghost arcs: set<Arc>) returns (ghost runs: seq<Run>)
      requires Related(arcs, children, parents) && ClosedUnder(nodes, arcs) && table == map[]
      modifies this`nodes, this`table, this`skip, this`search, this`visits
      ensures nodes == old(nodes) && TableSound(arcs, table) && SkipSound(arcs, table, old(skip), skip)
      ensures AllRun(arcs, runs, old(skip)) && AllTried(nodes, runs, skip, {})
      ensures AllWritten(children, parents, table, runs)
    {
      runs := [];
      var todo := nodes.Keys;
      while todo != {}
        invariant nodes == old(nodes) && todo <= nodes.Keys
        invariant TableSound(arcs, table) && SkipSound(arcs, table, old(skip), skip)
        invariant AllRun(arcs, runs, old(skip)) && AllTried(nodes, runs, skip, todo)
        invariant AllWritten(children, parents, table, runs)
        decreases todo
      {
        var f := Pick(todo);
        if nodes[f] == File && f !in skip {
          ghost var t1, k1 := table, skip;
          ghost var run := RunSearch(f, arcs, runs, old(skip));
          SkipSoundGrows(arcs, f, t1, table, old(skip), k1);
          SkipSoundTrans(arcs, table, old(skip), k1, skip);
          TriedNext(nodes, runs, run, k1, skip, todo);
          runs := runs + [run];
        }
        todo := todo - {f};
      }
    }

    /** Every file that is not to be tried any more is searched from or skipped. */
    static ghost predicate AllTried(nodes: map<int, NodeType>, runs: seq<Run>, skip: set<int>, todo: set<int>)
    {
      && (forall f | StartsAt(runs, f) :: f !in todo)
      && (forall f | f in nodes && nodes[f] == File && f !in todo :: StartsAt(runs, f) || f in skip)
    }

    static lemma TriedNext(nodes: map<int, NodeType>, runs: seq<Run>, run: Run, k: set<int>, skip: set<int>,
                           todo: set<int>)
      requires AllTried(nodes, runs, k, todo) && k <= skip && run.start in todo
      ensures AllTried(nodes, runs + [run], skip, todo - {run.start})
    {
      StartsNext(runs, run);
    }

    /** All searches of the graph. */
    method FindAllObjectInteractions(edges: map<int, Arc>) returns (ghost arcs: set<Arc>, ghost runs: seq<Run>)
      requires children == map[] && parents == map[] && table == map[]
      requires forall k | k in edges :: edges[k].n1 in nodes && edges[k].n2 in nodes
      modifies this
      ensures ArcsOf(edges, arcs) && OutCounted(edges, children) && AllFiled(edges, children, parents)
      ensures AllWritten(children, parents, table, runs)
      ensures nodes == old(nodes) && TableSound(arcs, table) && SkipSound(arcs, table, old(skip), skip)
      ensures AllRun(arcs, runs, old(skip))
      ensures forall f | f in nodes && nodes[f] == File :: StartsAt(runs, f) || f in skip
      ensures forall f | StartsAt(runs, f) :: Covered(arcs, table, f)
      ensures old(skip) == {} ==> forall f | f in nodes && nodes[f] == File :: StartsAt(runs, f) || Listed(table, f)
    {
      arcs := Relate(edges);
      assert ClosedUnder(nodes, arcs);
      runs := RunSearches(arcs);
      AllCovered(arcs, runs, old(skip));
    }

    lemma AllCovered(arcs: set<Arc>, runs: seq<Run>, before: set<int>)
      requires AllRun(arcs, runs, before)
      ensures forall f | StartsAt(runs, f) :: Covered(arcs, table, f)
    {
      forall f | StartsAt(runs, f)
        ensures Covered(arcs, table, f)
      {
        var i :| 0 <= i < |runs| && runs[i].start == f;
        assert RunDone(arcs, table, runs[i]);
        ExploredCovers(arcs, table, f, runs[i].search);
      }
    }
  }
}
