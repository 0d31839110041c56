/** What is done to the finished graph: pipes become edges between the processes at their ends, and
    local sockets go. */
module Cleanup {
  import opened Basics
  import opened Records
  import opened Observables
  import opened KnowledgeGraph
  import opened NoiseReduction
  import opened Iteration
  import NodeTables
  import opened GraphParse
  import opened Interactions

  /** The identifier of a pipe edge is a hash of these. */
  datatype PipeKey = PipeKey(n1: int, n2: int, seqNum: nat, sess: int)

  function KeyOf(info: EdgeInfo): PipeKey
  {
    PipeKey(info.n1, info.n2, info.seqNum, info.sess)
  }

  /** Some part of the name is this word. */
  ghost predicate HasInside(name: string, word: string)
  {
    exists before: string, after: string :: name == before + word + after
  }

  lemma InsideContained(name: string, word: string)
    ensures Contains(name, word) <==> HasInside(name, word)
  {
    if Contains(name, word) {
      var i :| 0 <= i <= |name| - |word| && name[i..][..|word|] == word;
      assert name == name[..i] + word + name[i..][|word|..];
    }
    if HasInside(name, word) {
      var before: string, after: string :| name == before + word + after;
      assert name[|before|..][..|word|] == word;
    }
  }

  /** The nodes that go are the files with "pipe" in their names and the sockets with "socket". */
  lemma NamesThatGo(files: map<int, FileInfo>, sockets: map<int, SocketInfo>)
    ensures forall f :: f in Pipes(files) <==> f in files && HasInside(files[f].name, "pipe")
    ensures forall s :: s in LocalSockets(sockets) <==> s in sockets && HasInside(sockets[s].name, "socket")
  {
    forall f | f in files ensures Contains(files[f].name, "pipe") <==> HasInside(files[f].name, "pipe") {
      InsideContained(files[f].name, "pipe");
    }
    forall s | s in sockets ensures Contains(sockets[s].name, "socket") <==> HasInside(sockets[s].name, "socket") {
      InsideContained(sockets[s].name, "socket");
    }
  }

  predicate Touches(info: EdgeInfo, ids: set<int>)
  {
    info.n1 in ids || info.n2 in ids
  }

  // ---- Local sockets ------------------------------------------------------------------------------

  /** Exactly the edges at the nodes `ids` are gone. */
  predicate WithoutEdgesAt(m: EdgeMap, ids: set<int>, r: EdgeMap)
  {
    && (forall k | k in r :: k in m && r[k] == m[k])
    && (forall k | k in m :: k in r <==> !Touches(m[k].info, ids))
  }

  /** The identifiers of the edges at the nodes `ids`. */
  method EdgesAt(kg: KG, ids: set<int>) returns (found: seq<KGEdge>)
    requires kg.TableValid()
    ensures Distinct(found) && (forall i | 0 <= i < |found| :: found[i] in kg.objs && Touches(found[i].info, ids))
    ensures forall e | e in kg.objs && Touches(e.info, ids) :: e in found
  {
    found := [];
    var todo := kg.edges.Keys;
    while todo != {}
      invariant todo <= kg.edges.Keys
      invariant Distinct(found)
      invariant forall i | 0 <= i < |found| ::
                found[i] in kg.objs && Touches(found[i].info, ids) && found[i].eId !in todo
      invariant forall e | e in kg.objs && Touches(e.info, ids) :: e in found || e.eId in todo
      decreases todo
    {
      var k := Pick(todo);
      todo := todo - {k};
      if Touches(kg.edges[k].info, ids) {
        found := found + [kg.edges[k]];
      }
    }
  }

  /** Takes out the edge that is in the table under the identifier of `e`. */
  method ExtractEdge(kg: KG, e: KGEdge)
    requires kg.TableValid() && e.eId in kg.edges
    modifies kg`edges, kg`objs
    ensures kg.TableValid() && kg.edges == old(kg.edges) - {e.eId}
    ensures kg.objs == old(kg.objs) - {old(kg.edges)[e.eId]}
  {
    ghost var there := kg.edges[e.eId];
    assert there in kg.objs && there.eId == e.eId;
    kg.edges, kg.objs := kg.edges - {e.eId}, kg.objs - {there};
  }

  /** Exactly the entries under these identifiers are gone. */
  predicate RemovedIds(m: EdgeMap, ids: seq<int>, r: EdgeMap)
  {
    && (forall k | k in r :: k in m && r[k] == m[k])
    && (forall k | k in m :: k in r <==> k !in ids)
  }

  method ExtractEdges(kg: KG, list: seq<KGEdge>, ghost ids: seq<int>)
    requires kg.TableValid() && |ids| == |list| && Distinct(ids)
    requires forall i | 0 <= i < |list| :: list[i].eId == ids[i] && ids[i] in kg.edges
    modifies kg`edges, kg`objs
    ensures kg.TableValid() && RemovedIds(old(kg.edges), ids, kg.edges)
  {
    for i := 0 to |list|
      invariant kg.TableValid() && RemovedIds(old(kg.edges), ids[..i], kg.edges)
    {
      ExtractEdge(kg, list[i]);
      assert ids[..i + 1] == ids[..i] + [ids[i]];
    }
    assert ids[..|list|] == ids;
  }

  ghost predicate NodesTyped(kg: KG)
    reads kg`nodes, kg`procs, kg`files, kg`sockets
  {
    NodeTables.TypedUnion(kg.nodes, kg.procs.Keys, kg.files.Keys, kg.sockets.Keys)
  }

  lemma TypedWithoutSockets(nodes: map<int, NodeType>, procs: set<int>, files: set<int>, sockets: set<int>,
                            gone: set<int>)
    requires NodeTables.TypedUnion(nodes, procs, files, sockets) && gone <= sockets
    ensures NodeTables.TypedUnion(nodes - gone, procs, files, sockets - gone)
  {
    assert forall k | k in gone :: k in nodes && nodes[k] == Socket;
  }

  lemma TypedWithoutFiles(nodes: map<int, NodeType>, procs: set<int>, files: set<int>, sockets: set<int>,
                          gone: set<int>)
    requires NodeTables.TypedUnion(nodes, procs, files, sockets) && gone <= files
    ensures NodeTables.TypedUnion(nodes - gone, procs, files - gone, sockets)
  {
    assert forall k | k in gone :: k in nodes && nodes[k] == File;
  }

  /** The identifiers of the edges at these nodes, each once. */
  predicate IdsAt(m: EdgeMap, ids: set<int>, found: seq<int>)
  {
    && Distinct(found) && (forall i | 0 <= i < |found| :: found[i] in m && Touches(m[found[i]].info, ids))
    && (forall k | k in m && Touches(m[k].info, ids) :: k in found)
  }

  ghost method IdsOfEdges(kg: KG, ids: set<int>, found: seq<KGEdge>) returns (r: seq<int>)
    requires kg.TableValid() && Distinct(found)
    requires forall i | 0 <= i < |found| :: found[i] in kg.objs && Touches(found[i].info, ids)
    requires forall e | e in kg.objs && Touches(e.info, ids) :: e in found
    ensures |r| == |found| && (forall i | 0 <= i < |found| :: r[i] == found[i].eId) && IdsAt(kg.edges, ids, r)
  {
    r := seq(|found|, i requires 0 <= i < |found| reads found => found[i].eId);
    forall k | k in kg.edges && Touches(kg.edges[k].info, ids) ensures k in r {
      var i :| 0 <= i < |found| && found[i] == kg.edges[k];
      assert r[i] == k;
    }
  }

  lemma ClosedWithout(nodes: map<int, NodeType>, m: EdgeMap, ids: set<int>, r: EdgeMap)
    requires Closed(nodes, m) && WithoutEdgesAt(m, ids, r)
    ensures Closed(nodes - ids, r)
  {
    forall k | k in r ensures !Dangling(nodes - ids, r[k]) {
      assert !Dangling(nodes, m[k]);
    }
  }

  /** The local sockets are gone, with exactly the edges at them; the rest of the graph is still
      typed and closed. */
  method DeleteLocalSocket(kg: KG)
    requires kg.TableValid() && NodesTyped(kg)
    modifies kg`edges, kg`objs, kg`nodes, kg`sockets
    ensures kg.TableValid() && NodesTyped(kg)
    ensures kg.sockets == old(kg.sockets) - LocalSockets(old(kg.sockets))
    ensures kg.nodes == old(kg.nodes) - LocalSockets(old(kg.sockets))
    ensures WithoutEdgesAt(old(kg.edges), LocalSockets(old(kg.sockets)), kg.edges)
    ensures old(Closed(kg.nodes, kg.edges)) ==> Closed(kg.nodes, kg.edges)
  {
    var gone := LocalSockets(kg.sockets);
    var found := EdgesAt(kg, gone);
    ghost var ids := IdsOfEdges(kg, gone, found);
    TypedWithoutSockets(kg.nodes, kg.procs.Keys, kg.files.Keys, kg.sockets.Keys, gone);
    kg.nodes, kg.sockets := kg.nodes - gone, kg.sockets - gone;
    ExtractEdges(kg, found, ids);
    if Closed(old(kg.nodes), old(kg.edges)) { ClosedWithout(old(kg.nodes), old(kg.edges), gone, kg.edges); }
  }

  // ---- Pipes --------------------------------------------------------------------------------------

  /** An edge at a pipe is listed for the pipe it leaves, or else for the pipe it enters. */
  predicate ListedFor(info: EdgeInfo, pipes: set<int>, f: int)
  {
    f in pipes && (info.n1 == f || (info.n1 !in pipes && info.n2 == f))
  }

  type PipeLists = map<int, seq<KGEdge>>

  /** The edges `seen` that are listed for the pipe, each once. */
  predicate IsPipeList(es: seq<KGEdge>, pipes: set<int>, f: int, seen: set<KGEdge>)
  {
    && Distinct(es)
    && (forall i | 0 <= i < |es| :: es[i] in seen && ListedFor(es[i].info, pipes, f))
    && (forall e | e in seen && ListedFor(e.info, pipes, f) :: e in es)
  }

  predicate ArePipeLists(lists: PipeLists, pipes: set<int>, seen: set<KGEdge>)
  {
    lists.Keys == pipes && forall f | f in lists :: IsPipeList(lists[f], pipes, f, seen)
  }

  lemma ListOneMore(lists: PipeLists, pipes: set<int>, seen: set<KGEdge>, e: KGEdge, lists': PipeLists)
    requires ArePipeLists(lists, pipes, seen) && e !in seen
    requires lists' == if e.info.n1 in pipes then lists[e.info.n1 := lists[e.info.n1] + [e]]
                       else if e.info.n2 in pipes then lists[e.info.n2 := lists[e.info.n2] + [e]] else lists
    ensures ArePipeLists(lists', pipes, seen + {e})
  {
    forall f | f in lists' ensures IsPipeList(lists'[f], pipes, f, seen + {e}) {
      assert IsPipeList(lists[f], pipes, f, seen);
    }
  }

  method ListPipeEdges(kg: KG, pipes: set<int>) returns (lists: PipeLists)
    requires kg.TableValid()
    ensures ArePipeLists(lists, pipes, kg.objs)
  {
    lists := map f | f in pipes :: [];
    var todo := kg.edges.Keys;
    ghost var seen: set<KGEdge> := {};
    while todo != {}
      invariant todo <= kg.edges.Keys && ArePipeLists(lists, pipes, seen)
      invariant forall e :: e in seen <==> e in kg.objs && e.eId !in todo
      decreases todo
    {
      var k := Pick(todo);
      var e := kg.edges[k];
      todo := todo - {k};
      ghost var before := lists;
      if e.info.n1 in lists {
        lists := lists[e.info.n1 := lists[e.info.n1] + [e]];
      } else if e.info.n2 in lists {
        lists := lists[e.info.n2 := lists[e.info.n2] + [e]];
      }
      ListOneMore(before, pipes, seen, e, lists);
      seen := seen + {e};
    }
    assert seen == kg.objs;
  }

  /** The process of the last edge in the list that does not leave the pipe. */
  function LastWriter(es: seq<KGEdge>, f: int): Option<int>
  {
    if es == [] then None
    else
      var info := es[|es| - 1].info;
      if info.n1 != f then Some(info.n1) else LastWriter(es[..|es| - 1], f)
  }

  /** The process of the last edge that leaves it. */
  function LastReader(es: seq<KGEdge>, f: int): Option<int>
  {
    if es == [] then None
    else
      var info := es[|es| - 1].info;
      if info.n1 == f then Some(info.n2) else LastReader(es[..|es| - 1], f)
  }

  /** The sequence numbers of the writes, in order. */
  function WriteSeqs(es: seq<KGEdge>, f: int): seq<nat>
  {
    if es == [] then []
    else
      var info := es[|es| - 1].info;
      WriteSeqs(es[..|es| - 1], f) + (if info.n1 != f then [info.seqNum] else [])
  }

  predicate WrittenAt(es: seq<KGEdge>, f: int, n: nat)
  {
    exists i :: 0 <= i < |es| && es[i].info.n1 != f && es[i].info.seqNum == n
  }

  predicate ReadBy(es: seq<KGEdge>, f: int, p: int)
  {
    exists i :: 0 <= i < |es| && es[i].info.n1 == f && es[i].info.n2 == p
  }

  /** The last writer is that of an edge with only reads after it, or there is no write. */
  lemma {:induction false} LastWriterFound(es: seq<KGEdge>, f: int) returns (i: nat)
    ensures LastWriter(es, f).Some? ==>
              i < |es| && es[i].info.n1 == LastWriter(es, f).value != f &&
              forall j :: i < j < |es| ==> es[j].info.n1 == f
    ensures LastWriter(es, f).None? ==> forall j :: 0 <= j < |es| ==> es[j].info.n1 == f
    decreases |es|
  {
    i := 0;
    if es != [] {
      if es[|es| - 1].info.n1 != f {
        i := |es| - 1;
      } else {
        i := LastWriterFound(es[..|es| - 1], f);
      }
    }
  }

  lemma {:induction false} LastReaderFound(es: seq<KGEdge>, f: int) returns (i: nat)
    ensures LastReader(es, f).Some? ==>
              i < |es| && es[i].info.n1 == f && es[i].info.n2 == LastReader(es, f).value
              && forall j :: i < j < |es| ==> es[j].info.n1 != f
    ensures LastReader(es, f).None? ==> forall j :: 0 <= j < |es| ==> es[j].info.n1 != f
    decreases |es|
  {
    i := 0;
    if es != [] {
      if es[|es| - 1].info.n1 == f {
        i := |es| - 1;
      } else {
        i := LastReaderFound(es[..|es| - 1], f);
      }
    }
  }

  lemma {:induction false} WriteSeqsMember(es: seq<KGEdge>, f: int, n: nat)
    ensures n in WriteSeqs(es, f) <==> WrittenAt(es, f, n)
    decreases |es|
  {
    if es != [] {
      var last := |es| - 1;
      WriteSeqsMember(es[..last], f, n);
      if WrittenAt(es, f, n) {
        var i :| 0 <= i < |es| && es[i].info.n1 != f && es[i].info.seqNum == n;
        assert i < last ==> es[..last][i] == es[i];
      }
      if WrittenAt(es[..last], f, n) {
        var i :| 0 <= i < last && es[..last][i].info.n1 != f && es[..last][i].info.seqNum == n;
        assert es[i] == es[..last][i];
      }
    }
  }

  /** The last writer and the last reader win, every write gives its sequence number, and session and
      timestamp are those of the last edge. */
  method ScanPipe(es: seq<KGEdge>, f: int)
    returns (p1: Option<int>, p2: Option<int>, seqs: seq<nat>, sess: int, timestamp: string)
    ensures p1 == LastWriter(es, f) && p2 == LastReader(es, f) && seqs == WriteSeqs(es, f)
    ensures es != [] ==> sess == es[|es| - 1].info.sess && timestamp == es[|es| - 1].info.timestamp
  {
    p1, p2, seqs, sess, timestamp := None, None, [], 0, "";
    assert es[..0] == [];
    for i := 0 to |es|
      invariant p1 == LastWriter(es[..i], f) && p2 == LastReader(es[..i], f) && seqs == WriteSeqs(es[..i], f)
      invariant i > 0 ==> sess == es[i - 1].info.sess && timestamp == es[i - 1].info.timestamp
    {
      var info := es[i].info;
      assert es[..i + 1][..i] == es[..i] && es[..i + 1][i] == es[i];
      if info.n1 == f {
        p2 := Some(info.n2);
      } else {
        p1 := Some(info.n1);
        seqs := seqs + [info.seqNum];
      }
      sess, timestamp := info.sess, info.timestamp;
    }
    assert es[..|es|] == es;
  }

  /** An edge of the pipe `f`: from its last writer to its last reader, with the sequence number of a
      write and the session of its last edge. */
  predicate IsPipeEdge(es: seq<KGEdge>, f: int, info: EdgeInfo)
  {
    && es != [] && info.relation == Pipe && LastWriter(es, f) == Some(info.n1) && LastReader(es, f) == Some(info.n2)
    && WrittenAt(es, f, info.seqNum) && es[|es| - 1].info.sess == info.sess && info.uuid == ""
  }

  /** The edge at `w` enters the pipe and every later one leaves it; the one at `r` leaves it and no
      later one does; and some edge that enters it has this sequence number. */
  predicate BetweenEnds(es: seq<KGEdge>, f: int, w: nat, r: nat, n: nat)
  {
    && w < |es| && es[w].info.n1 != f && (forall j :: w < j < |es| ==> es[j].info.n1 == f)
    && r < |es| && es[r].info.n1 == f && (forall j :: r < j < |es| ==> es[j].info.n1 != f)
    && WrittenAt(es, f, n)
  }

  /** A pipe edge leads from where the last edge into the pipe comes from to where the last edge out of
      it goes, with the sequence number of a write and the session of the last edge of all. */
  lemma PipeEdgeEnds(es: seq<KGEdge>, f: int, info: EdgeInfo) returns (w: nat, r: nat)
    requires IsPipeEdge(es, f, info)
    ensures BetweenEnds(es, f, w, r, info.seqNum) && info.n1 == es[w].info.n1 && info.n2 == es[r].info.n2
    ensures info.relation == Pipe && info.sess == es[|es| - 1].info.sess && info.uuid == ""
  {
    w := LastWriterFound(es, f);
    r := LastReaderFound(es, f);
    WriteSeqsMember(es, f, info.seqNum);
  }

  /** An edge that may be made for some pipe, under the hash of its key. */
  predicate IsMade(lists: PipeLists, hashOf: PipeKey -> int, k: int, info: EdgeInfo)
  {
    k == hashOf(KeyOf(info)) && exists f :: f in lists && IsPipeEdge(lists[f], f, info)
  }

  /** It has the timestamp of the last edge too. */
  predicate MadeFor(es: seq<KGEdge>, f: int, info: EdgeInfo)
  {
    IsPipeEdge(es, f, info) && es[|es| - 1].info.timestamp == info.timestamp
  }

  predicate MadeForSome(lists: PipeLists, info: EdgeInfo)
  {
    exists f :: f in lists && MadeFor(lists[f], f, info)
  }

  /** Nothing was taken out, and what is new are pipe edges. */
  predicate OnlyPipesAdded(m: EdgeMap, lists: PipeLists, hashOf: PipeKey -> int, r: EdgeMap)
  {
    && (forall k | k in m :: k in r)
    && (forall k | k in r ::
       (k in m && r[k] == m[k]) || (IsMade(lists, hashOf, k, r[k].info) && MadeForSome(lists, r[k].info)))
  }

  /** The hashes of pipe edges are new, and different keys have different hashes. */
  ghost predicate HashesFresh(m: EdgeMap, lists: PipeLists, hashOf: PipeKey -> int)
  {
    && (forall k, info | IsMade(lists, hashOf, k, info) :: k !in m)
    && (forall k, info, info' | IsMade(lists, hashOf, k, info) && IsMade(lists, hashOf, k, info') ::
       KeyOf(info) == KeyOf(info'))
  }

  /** A pipe edge has this hash. */
  ghost predicate Taken(lists: PipeLists, hashOf: PipeKey -> int, k: int)
  {
    exists info :: IsMade(lists, hashOf, k, info)
  }

  /** Of the edges that touch none of the nodes `gone`, only one whose identifier is the hash of a pipe
      edge can be lost. */
  ghost predicate RestKept(m: EdgeMap, gone: set<int>, lists: PipeLists, hashOf: PipeKey -> int, r: EdgeMap)
  {
    forall k | k in m && !Touches(m[k].info, gone) && !Taken(lists, hashOf, k) :: k in r && r[k] == m[k]
  }

  /** Every write into the pipe has become an edge from a writer to a reader, if it has both. */
  ghost predicate WritesKept(es: seq<KGEdge>, f: int, hashOf: PipeKey -> int, r: EdgeMap)
  {
    forall n, p | WrittenAt(es, f, n) && ReadBy(es, f, p) :: HasPipeEdge(es, f, n, hashOf, r)
  }

  predicate HasPipeEdge(es: seq<KGEdge>, f: int, n: nat, hashOf: PipeKey -> int, r: EdgeMap)
  {
    exists k :: k in r && IsPipeEdge(es, f, r[k].info) && r[k].info.seqNum == n && k == hashOf(KeyOf(r[k].info))
  }

  /** Puts a new edge under the hash of its key; an edge that is there is replaced. */
  method PutPipeEdge(kg: KG, key: PipeKey, timestamp: string, hashOf: PipeKey -> int) returns (e: KGEdge)
    requires kg.TableValid()
    modifies kg`edges, kg`objs
    ensures kg.TableValid() && fresh(e) && kg.edges == old(kg.edges)[hashOf(key) := e]
    ensures e.info == EdgeInfo(key.n1, key.n2, Pipe, key.seqNum, key.sess, timestamp, "")
  {
    e := new KGEdge(EdgeInfo(key.n1, key.n2, Pipe, key.seqNum, key.sess, timestamp, ""), Nowhere, hashOf(key));
    ghost var gone := if e.eId in kg.edges then {kg.edges[e.eId]} else {};
    kg.edges, kg.objs := kg.edges[e.eId := e], kg.objs - gone + {e};
  }

  /** Replacing an edge by one with the same key loses no pipe edge. */
  lemma PipeEdgesStay(m: EdgeMap, lists: PipeLists, hashOf: PipeKey -> int, r: EdgeMap, f: int, n: nat, e: KGEdge)
    requires OnlyPipesAdded(m, lists, hashOf, r) && HashesFresh(m, lists, hashOf)
    requires f in lists && HasPipeEdge(lists[f], f, n, hashOf, r)
    requires IsMade(lists, hashOf, hashOf(KeyOf(e.info)), e.info) && e.info.relation == Pipe
    ensures HasPipeEdge(lists[f], f, n, hashOf, r[hashOf(KeyOf(e.info)) := e])
  {
    var k0 := hashOf(KeyOf(e.info));
    var k :| k in r && IsPipeEdge(lists[f], f, r[k].info) && r[k].info.seqNum == n && k == hashOf(KeyOf(r[k].info));
    if k == k0 {
      assert IsMade(lists, hashOf, k, r[k].info);
      assert KeyOf(r[k].info) == KeyOf(e.info);
      assert IsPipeEdge(lists[f], f, e.info);
    }
    assert k in r[k0 := e];
  }

  /** The writes into the pipe `f` with these sequence numbers, and all those into the pipes `done`,
      are kept. */
  ghost predicate KeptSoFar(m: EdgeMap, lists: PipeLists, hashOf: PipeKey -> int, r: EdgeMap, done: set<int>, f: int,
                            seqs: seq<nat>)
    requires f in lists && done <= lists.Keys
  {
    && OnlyPipesAdded(m, lists, hashOf, r)
    && (HashesFresh(m, lists, hashOf) ==>
          && (forall g | g in done :: WritesKept(lists[g], g, hashOf, r))
          && (forall n | n in seqs :: HasPipeEdge(lists[f], f, n, hashOf, r)))
  }

  lemma PutKeeps(m: EdgeMap, lists: PipeLists, hashOf: PipeKey -> int, r: EdgeMap, done: set<int>, f: int,
                 seqs: seq<nat>, e: KGEdge)
    requires f in lists && done <= lists.Keys && KeptSoFar(m, lists, hashOf, r, done, f, seqs)
    requires MadeFor(lists[f], f, e.info)
    ensures KeptSoFar(m, lists, hashOf, r[hashOf(KeyOf(e.info)) := e], done, f, seqs + [e.info.seqNum])
  {
    var k0 := hashOf(KeyOf(e.info));
    var r' := r[k0 := e];
    assert IsMade(lists, hashOf, k0, e.info);
    if HashesFresh(m, lists, hashOf) {
      forall g | g in done ensures WritesKept(lists[g], g, hashOf, r') {
        forall n, p | WrittenAt(lists[g], g, n) && ReadBy(lists[g], g, p)
          ensures HasPipeEdge(lists[g], g, n, hashOf, r')
        {
          PipeEdgesStay(m, lists, hashOf, r, g, n, e);
        }
      }
      forall n | n in seqs + [e.info.seqNum] ensures HasPipeEdge(lists[f], f, n, hashOf, r') {
        if n in seqs {
          PipeEdgesStay(m, lists, hashOf, r, f, n, e);
        } else {
          assert k0 in r' && IsPipeEdge(lists[f], f, r'[k0].info);
        }
      }
    }
  }

  lemma WritesCollected(es: seq<KGEdge>, f: int)
    ensures forall n | WrittenAt(es, f, n) :: n in WriteSeqs(es, f)
    ensures forall n | n in WriteSeqs(es, f) :: WrittenAt(es, f, n)
    ensures (exists n :: WrittenAt(es, f, n)) ==> LastWriter(es, f).Some?
    ensures (exists p :: ReadBy(es, f, p)) ==> LastReader(es, f).Some?
  {
    var i := LastWriterFound(es, f);
    var j := LastReaderFound(es, f);
    forall n: nat
      ensures n in WriteSeqs(es, f) <==> WrittenAt(es, f, n)
    {
      WriteSeqsMember(es, f, n);
    }
  }

  /** The edges of one pipe: one from its last writer to its last reader for every write, if it has
      both. */
  method MakePipeEdges(kg: KG, lists: PipeLists, f: int, hashOf: PipeKey -> int, ghost m: EdgeMap, ghost done: set<int>)
    requires kg.TableValid() && f in lists && done <= lists.Keys && KeptSoFar(m, lists, hashOf, kg.edges, done, f, [])
    modifies kg`edges, kg`objs
    ensures kg.TableValid() && OnlyPipesAdded(m, lists, hashOf, kg.edges)
    ensures HashesFresh(m, lists, hashOf) ==> forall g | g in done + {f} :: WritesKept(lists[g], g, hashOf, kg.edges)
  {
    var p1, p2, seqs, sess, timestamp := ScanPipe(lists[f], f);
    WritesCollected(lists[f], f);
    if p1.None? || p2.None? {
      return;
    }
    for i := 0 to |seqs|
      invariant kg.TableValid() && KeptSoFar(m, lists, hashOf, kg.edges, done, f, seqs[..i])
    {
      ghost var before := kg.edges;
      var e := PutPipeEdge(kg, PipeKey(p1.value, p2.value, seqs[i], sess), timestamp, hashOf);
      PutKeeps(m, lists, hashOf, before, done, f, seqs[..i], e);
      assert seqs[..i + 1] == seqs[..i] + [seqs[i]];
    }
    assert seqs[..|seqs|] == seqs;
  }

  predicate InSome(lists: PipeLists, done: set<int>, e: KGEdge)
    requires done <= lists.Keys
  {
    exists f :: f in done && e in lists[f]
  }

  /** The edges listed for the pipes `done`, each once. */
  predicate AllListed(lists: PipeLists, done: set<int>, del: seq<KGEdge>)
    requires done <= lists.Keys
  {
    && Distinct(del)
    && (forall i | 0 <= i < |del| :: InSome(lists, done, del[i]))
    && (forall f, e | f in done && e in lists[f] :: e in del)
  }

  lemma AllListedOneMore(lists: PipeLists, pipes: set<int>, objs: set<KGEdge>, done: set<int>, del: seq<KGEdge>, f: int)
    requires ArePipeLists(lists, pipes, objs) && done <= pipes && f in pipes && f !in done &&
             AllListed(lists, done, del)
    ensures AllListed(lists, done + {f}, del + lists[f])
  {
    assert IsPipeList(lists[f], pipes, f, objs);
    forall i, j | 0 <= i < |del| && 0 <= j < |lists[f]| ensures del[i] != lists[f][j] {
      assert InSome(lists, done, del[i]);
      var g :| g in done && del[i] in lists[g];
      assert IsPipeList(lists[g], pipes, g, objs);
      assert ListedFor(lists[f][j].info, pipes, f);
    }
    forall i | 0 <= i < |del + lists[f]| ensures InSome(lists, done + {f}, (del + lists[f])[i]) {
      if i < |del| {
        assert InSome(lists, done, del[i]);
        var g :| g in done && del[i] in lists[g];
        assert g in done + {f};
      } else {
        assert f in done + {f};
      }
    }
  }

  /** The first part: every pipe gets its edges, and the edges at pipes are collected. */
  method MakeAllPipeEdges(kg: KG, lists: PipeLists, hashOf: PipeKey -> int, ghost objs: set<KGEdge>)
    returns (del: seq<KGEdge>)
    requires kg.TableValid() && ArePipeLists(lists, lists.Keys, objs)
    modifies kg`edges, kg`objs
    ensures kg.TableValid() && OnlyPipesAdded(old(kg.edges), lists, hashOf, kg.edges)
    ensures HashesFresh(old(kg.edges), lists, hashOf) ==>
            forall f | f in lists :: WritesKept(lists[f], f, hashOf, kg.edges)
    ensures AllListed(lists, lists.Keys, del)
  {
    del := [];
    var todo := lists.Keys;
    ghost var done: set<int> := {};
    while todo != {}
      invariant todo + done == lists.Keys && todo !! done
      invariant kg.TableValid() && OnlyPipesAdded(old(kg.edges), lists, hashOf, kg.edges)
      invariant HashesFresh(old(kg.edges), lists, hashOf) ==>
                forall f | f in done :: WritesKept(lists[f], f, hashOf, kg.edges)
      invariant AllListed(lists, done, del)
      decreases todo
    {
      var f := Pick(todo);
      AllListedOneMore(lists, lists.Keys, objs, done, del, f);
      MakePipeEdges(kg, lists, f, hashOf, old(kg.edges), done);
      del, todo, done := del + lists[f], todo - {f}, done + {f};
    }
    assert done == lists.Keys;
  }

  /** The collected edges are those at pipes. */
  lemma CollectedIds(m: EdgeMap, objs: set<KGEdge>, lists: PipeLists, pipes: set<int>, del: seq<KGEdge>, ids: seq<int>)
    requires ArePipeLists(lists, pipes, objs) && AllListed(lists, lists.Keys, del) && |ids| == |del|
    requires forall k | k in m :: m[k] in objs
    requires forall i | 0 <= i < |del| :: del[i] in objs ==> ids[i] in m && m[ids[i]] == del[i]
    requires forall k, l | k in m && l in m && k != l :: m[k] != m[l]
    ensures IdsAt(m, pipes, ids)
  {
    forall i | 0 <= i < |ids| ensures ids[i] in m && m[ids[i]] == del[i] && Touches(del[i].info, pipes) {
      assert InSome(lists, lists.Keys, del[i]);
      var f :| f in lists.Keys && del[i] in lists[f];
      assert IsPipeList(lists[f], pipes, f, objs);
    }
    forall k | k in m && Touches(m[k].info, pipes) ensures k in ids {
      var f := if m[k].info.n1 in pipes then m[k].info.n1 else m[k].info.n2;
      assert ListedFor(m[k].info, pipes, f) && IsPipeList(lists[f], pipes, f, objs);
      assert m[k] in del;
      var i :| 0 <= i < |del| && del[i] == m[k];
      assert ids[i] == k;
    }
  }

  /** The edges that were not at pipes, and pipe edges. */
  predicate PipesReplaced(m: EdgeMap, pipes: set<int>, lists: PipeLists, hashOf: PipeKey -> int, r: EdgeMap)
  {
    forall k | k in r ::
      || (k in m && r[k] == m[k] && !Touches(m[k].info, pipes))
      || (IsMade(lists, hashOf, k, r[k].info) && MadeForSome(lists, r[k].info))
  }

  lemma RemovedReplaces(m: EdgeMap, pipes: set<int>, lists: PipeLists, hashOf: PipeKey -> int, mid: EdgeMap,
                        ids: seq<int>, r: EdgeMap)
    requires OnlyPipesAdded(m, lists, hashOf, mid) && IdsAt(m, pipes, ids) && RemovedIds(mid, ids, r)
    ensures PipesReplaced(m, pipes, lists, hashOf, r) && RestKept(m, pipes, lists, hashOf, r)
    ensures HashesFresh(m, lists, hashOf) ==>
              forall f | f in lists && WritesKept(lists[f], f, hashOf, mid) :: WritesKept(lists[f], f, hashOf, r)
  {
    forall k | k in m && !Touches(m[k].info, pipes) && !Taken(lists, hashOf, k)
      ensures k in r && r[k] == m[k]
    {
      assert !IsMade(lists, hashOf, k, mid[k].info);
    }
    if HashesFresh(m, lists, hashOf) {
      forall f | f in lists && WritesKept(lists[f], f, hashOf, mid) ensures WritesKept(lists[f], f, hashOf, r) {
        forall n, p | WrittenAt(lists[f], f, n) && ReadBy(lists[f], f, p)
          ensures HasPipeEdge(lists[f], f, n, hashOf, r)
        {
          assert HasPipeEdge(lists[f], f, n, hashOf, mid);
          var k :| k in mid && IsPipeEdge(lists[f], f, mid[k].info) && mid[k].info.seqNum == n &&
            k == hashOf(KeyOf(mid[k].info));
          assert IsMade(lists, hashOf, k, mid[k].info);
        }
      }
    }
  }

  /** With fresh hashes no edge away from these nodes is lost. */
  lemma FreshRestKept(m: EdgeMap, gone: set<int>, lists: PipeLists, hashOf: PipeKey -> int, r: EdgeMap)
    requires RestKept(m, gone, lists, hashOf, r) && HashesFresh(m, lists, hashOf)
    ensures forall k | k in m && !Touches(m[k].info, gone) :: k in r && r[k] == m[k]
  {
  }

  /** No edge joins two pipes. */
  predicate NoPipeToPipe(m: EdgeMap, pipes: set<int>)
  {
    forall k | k in m :: !(m[k].info.n1 in pipes && m[k].info.n2 in pipes)
  }

  /** An edge of the pipe's list ends outside the pipe in a node that is not a pipe. */
  lemma ListedEnds(nodes: map<int, NodeType>, m: EdgeMap, objs: set<KGEdge>, pipes: set<int>, es: seq<KGEdge>, f: int,
                   i: nat)
    requires Closed(nodes, m) && NoPipeToPipe(m, pipes) && (forall e | e in objs :: InTable(m, e))
    requires IsPipeList(es, pipes, f, objs) && i < |es|
    ensures es[i].info.n1 != f ==> es[i].info.n1 in nodes && es[i].info.n1 !in pipes
    ensures es[i].info.n1 == f ==> es[i].info.n2 in nodes && es[i].info.n2 !in pipes
  {
    assert InTable(m, es[i]) && ListedFor(es[i].info, pipes, f);
    var k :| k in m && m[k] == es[i];
    assert !Dangling(nodes, m[k]);
  }

  /** A pipe edge joins nodes that are not pipes. */
  lemma PipeEdgeJoins(nodes: map<int, NodeType>, m: EdgeMap, objs: set<KGEdge>, pipes: set<int>, es: seq<KGEdge>,
                      f: int, info: EdgeInfo)
    requires Closed(nodes, m) && NoPipeToPipe(m, pipes) && (forall e | e in objs :: InTable(m, e))
    requires IsPipeList(es, pipes, f, objs) && IsPipeEdge(es, f, info)
    ensures info.n1 in nodes - pipes && info.n2 in nodes - pipes
  {
    var i := LastWriterFound(es, f);
    var j := LastReaderFound(es, f);
    ListedEnds(nodes, m, objs, pipes, es, f, i);
    ListedEnds(nodes, m, objs, pipes, es, f, j);
  }

  lemma ReplacedClosed(nodes: map<int, NodeType>, m: EdgeMap, objs: set<KGEdge>, pipes: set<int>, lists: PipeLists,
                       hashOf: PipeKey -> int, r: EdgeMap)
    requires Closed(nodes, m) && NoPipeToPipe(m, pipes) && (forall e | e in objs :: InTable(m, e))
    requires ArePipeLists(lists, pipes, objs) && PipesReplaced(m, pipes, lists, hashOf, r)
    ensures Closed(nodes - pipes, r)
  {
    forall k | k in r ensures !Dangling(nodes - pipes, r[k]) {
      if k in m && r[k] == m[k] && !Touches(m[k].info, pipes) {
        assert !Dangling(nodes, m[k]);
      } else {
        var f :| f in lists && IsPipeEdge(lists[f], f, r[k].info);
        PipeEdgeJoins(nodes, m, objs, pipes, lists[f], f, r[k].info);
      }
    }
  }

  ghost method IdsOf(kg: KG, del: seq<KGEdge>) returns (ids: seq<int>)
    ensures |ids| == |del| && forall i | 0 <= i < |del| :: ids[i] == del[i].eId
  {
    ids := seq(|del|, i requires 0 <= i < |del| reads del => del[i].eId);
  }

  /** The pipe edges are made, and the edges at pipes are collected. */
  method ReplacePipes(kg: KG, pipes: set<int>, hashOf: PipeKey -> int)
    returns (del: seq<KGEdge>, ghost ids: seq<int>, ghost lists: PipeLists)
    requires kg.TableValid()
    modifies kg`edges, kg`objs
    ensures kg.TableValid() && OnlyPipesAdded(old(kg.edges), lists, hashOf, kg.edges)
    ensures ArePipeLists(lists, pipes, old(kg.objs))
    ensures HashesFresh(old(kg.edges), lists, hashOf) ==>
            forall f | f in lists :: WritesKept(lists[f], f, hashOf, kg.edges)
    ensures |ids| == |del| && (forall i | 0 <= i < |del| :: ids[i] == del[i].eId) && IdsAt(old(kg.edges), pipes, ids)
    ensures forall e | e in old(kg.objs) :: InTable(old(kg.edges), e)
  {
    forall e | e in kg.objs ensures InTable(kg.edges, e) {
      InTableAt(kg.edges, e.eId, e);
    }
    var pipeLists := ListPipeEdges(kg, pipes);
    lists := pipeLists;
    del := MakeAllPipeEdges(kg, pipeLists, hashOf, kg.objs);
    ids := IdsOf(kg, del);
    CollectedIds(old(kg.edges), old(kg.objs), lists, pipes, del, ids);
  }

  method EraseFiles(kg: KG, gone: set<int>)
    requires NodesTyped(kg) && gone <= kg.files.Keys
    modifies kg`nodes, kg`files
    ensures NodesTyped(kg) && kg.files == old(kg.files) - gone && kg.nodes == old(kg.nodes) - gone
  {
    TypedWithoutFiles(kg.nodes, kg.procs.Keys, kg.files.Keys, kg.sockets.Keys, gone);
    kg.nodes, kg.files := kg.nodes - gone, kg.files - gone;
  }

  /** Pipe nodes and the edges at them are gone, and what is new are pipe edges, which replace an edge
      only under their own hash. If their hashes are fresh, nothing else is lost and each write into a
      pipe that was also read is an edge from a writer to a reader; if no edge joins two pipes the graph
      stays closed. */
  method DeletePipeEdge(kg: KG, hashOf: PipeKey -> int) returns (ghost pipes: set<int>, ghost lists: PipeLists)
    requires kg.TableValid() && NodesTyped(kg)
    modifies kg`edges, kg`objs, kg`nodes, kg`files
    ensures kg.TableValid() && NodesTyped(kg)
    ensures pipes == Pipes(old(kg.files)) && kg.files == old(kg.files) - pipes && kg.nodes == old(kg.nodes) - pipes
    ensures ArePipeLists(lists, pipes, old(kg.objs)) && PipesReplaced(old(kg.edges), pipes, lists, hashOf, kg.edges)
    ensures RestKept(old(kg.edges), pipes, lists, hashOf, kg.edges)
    ensures HashesFresh(old(kg.edges), lists, hashOf) ==>
              && (forall k | k in old(kg.edges) && !Touches(old(kg.edges)[k].info, pipes) ::
                    k in kg.edges && kg.edges[k] == old(kg.edges)[k])
              && (forall f | f in lists :: WritesKept(lists[f], f, hashOf, kg.edges))
    ensures Closed(old(kg.nodes), old(kg.edges)) && NoPipeToPipe(old(kg.edges), pipes) ==> Closed(kg.nodes, kg.edges)
  {
    var found := Pipes(kg.files);
    pipes := found;
    var del;
    ghost var ids;
    del, ids, lists := ReplacePipes(kg, found, hashOf);
    ghost var mid := kg.edges;
    EraseFiles(kg, found);
    ExtractEdges(kg, del, ids);
    RemovedReplaces(old(kg.edges), pipes, lists, hashOf, mid, ids, kg.edges);
    if HashesFresh(old(kg.edges), lists, hashOf) {
      FreshRestKept(old(kg.edges), pipes, lists, hashOf, kg.edges);
    }
    if Closed(old(kg.nodes), old(kg.edges)) && NoPipeToPipe(old(kg.edges), pipes) {
      ReplacedClosed(old(kg.nodes), old(kg.edges), old(kg.objs), pipes, lists, hashOf, kg.edges);
    }
  }

  // ---- The search on the cleaned graph ----------------------------------------------------------

  /** The edge of this pipe, if it gets one, does not touch these nodes. */
  predicate EndsAway(es: seq<KGEdge>, f: int, ids: set<int>)
  {
    && (LastWriter(es, f).Some? ==> LastWriter(es, f).value !in ids)
    && (LastReader(es, f).Some? ==> LastReader(es, f).value !in ids)
  }

  /** What both clean-ups make of an edge table: all edges at pipes and local sockets are gone; the
      others stay, and the writes into pipes have become edges, unless a local socket is at their end. */
  ghost predicate CleanedUp(m: EdgeMap, objs: set<KGEdge>, pipes: set<int>, locals: set<int>, lists: PipeLists,
                            hashOf: PipeKey -> int, r: EdgeMap)
  {
    && ArePipeLists(lists, pipes, objs) && PipesReplaced(m, pipes, lists, hashOf, r)
    && (forall k | k in r :: !Touches(r[k].info, locals))
    && RestKept(m, pipes + locals, lists, hashOf, r)
    && (HashesFresh(m, lists, hashOf) ==>
          forall f | f in lists && EndsAway(lists[f], f, locals) :: WritesKept(lists[f], f, hashOf, r))
  }

  lemma WritesStay(es: seq<KGEdge>, f: int, locals: set<int>, hashOf: PipeKey -> int, mid: EdgeMap, r: EdgeMap)
    requires WritesKept(es, f, hashOf, mid) && EndsAway(es, f, locals) && WithoutEdgesAt(mid, locals, r)
    ensures WritesKept(es, f, hashOf, r)
  {
    forall n, p | WrittenAt(es, f, n) && ReadBy(es, f, p)
      ensures HasPipeEdge(es, f, n, hashOf, r)
    {
      assert HasPipeEdge(es, f, n, hashOf, mid);
      var k :| k in mid && IsPipeEdge(es, f, mid[k].info) && mid[k].info.seqNum == n && k == hashOf(KeyOf(mid[k].info));
      assert k in r;
    }
  }

  /** One clean-up after the other. */
  lemma BothClean(m: EdgeMap, objs: set<KGEdge>, pipes: set<int>, locals: set<int>, lists: PipeLists,
                  hashOf: PipeKey -> int, mid: EdgeMap, r: EdgeMap)
    requires ArePipeLists(lists, pipes, objs) && PipesReplaced(m, pipes, lists, hashOf, mid)
    requires RestKept(m, pipes, lists, hashOf, mid) && WithoutEdgesAt(mid, locals, r)
    requires HashesFresh(m, lists, hashOf) ==> forall f | f in lists :: WritesKept(lists[f], f, hashOf, mid)
    ensures CleanedUp(m, objs, pipes, locals, lists, hashOf, r)
  {
    forall k | k in m && !Touches(m[k].info, pipes + locals) && !Taken(lists, hashOf, k)
      ensures k in r && r[k] == m[k]
    {
      assert k in mid && mid[k] == m[k];
    }
    if HashesFresh(m, lists, hashOf) {
      forall f | f in lists && EndsAway(lists[f], f, locals) ensures WritesKept(lists[f], f, hashOf, r) {
        WritesStay(lists[f], f, locals, hashOf, mid, r);
      }
    }
  }

  /** The last steps of a parse, from a closed graph: the clean-ups keep it closed, so the search
      never adds to the node table it goes over, and every file that is left is searched from or
      found in some search. */
  method CleanAndSearch(kg: KG, hashOf: PipeKey -> int, timeOf: string -> Int64)
    returns (ex: Explorer, ghost arcs: set<Arc>, ghost runs: seq<Run>, ghost pipes: set<int>, ghost lists: PipeLists)
    requires kg.TableValid() && NodesTyped(kg) && Closed(kg.nodes, kg.edges) && NoPipeToPipe(kg.edges, Pipes(kg.files))
    modifies kg`edges, kg`objs, kg`nodes, kg`files, kg`sockets
    ensures kg.TableValid() && NodesTyped(kg) && Closed(kg.nodes, kg.edges)
    ensures pipes == Pipes(old(kg.files)) && kg.files == old(kg.files) - pipes
    ensures kg.sockets == old(kg.sockets) - LocalSockets(old(kg.sockets))
    ensures kg.nodes == old(kg.nodes) - pipes - LocalSockets(old(kg.sockets))
    ensures CleanedUp(old(kg.edges), old(kg.objs), pipes, LocalSockets(old(kg.sockets)), lists, hashOf, kg.edges)
    ensures fresh(ex) && Searched(ex, kg.nodes, kg.edges, timeOf, arcs, runs)
  {
    pipes, lists := DeletePipeEdge(kg, hashOf);
    ghost var piped := kg.edges;
    DeleteLocalSocket(kg);
    BothClean(old(kg.edges), old(kg.objs), pipes, LocalSockets(old(kg.sockets)), lists, hashOf, piped, kg.edges);
    ex, arcs, runs := SearchGraph(kg, timeOf);
  }
}
