/** The tables behind the Auditbeat front end, as a state and what each update does to it. They are
    keyed by node identifiers, and the identifier of a process changes while it lives: it is the hash
    of its pid, executable and arguments. */
module NodeTables {
  import opened Basics
  import opened Records
  import opened Rekeying

  /** A process object. Pointers to process objects are positions in a pool. */
  datatype Process = Process(pid: string, exe: string, args: string, ppid: string, id: int)

  type Hasher = string -> int

  /** The identifier of a process is the hash of its pid, executable and arguments. */
  function NewProcess(hasher: Hasher, pid: string, exe: string, args: string, ppid: string): Process
  {
    Process(pid, exe, args, ppid, hasher(pid + exe + args))
  }

  /** An end of an edge is a pointer to the identifier of its node, read when the edge table is made. */
  datatype End = ProcEnd(p: nat) | FileEnd(f: int) | SocketEnd(s: int)

  datatype Stamp = Stamp(seqNum: nat, sess: int, timestamp: string)

  /** Which interaction lists an edge is noted in: none, that of its file or socket, or also that of
      its process. */
  datatype Mark = Unlisted | FileOnly | Both

  datatype Link = Link(from: End, to: End, relation: EdgeType, mark: Mark, stamp: Stamp)

  /** The pool holds the process objects that anything points to. Interactions are positions among
      all edges ever made; the edges from `listed` on are still to be put into the edge table. */
  datatype View = View(pool: seq<Process>, procs: map<int, nat>, files: map<int, FileInfo>,
                       sockets: map<int, SocketInfo>,
                       nodes: map<int, NodeType>, pids: map<string, nat>, fds: map<int, seq<int>>,
                       procInter: map<int, seq<nat>>, fileInter: map<int, seq<nat>>, links: seq<Link>, listed: nat)

  const EMPTY_VIEW := View([], map[], map[], map[], map[], map[], map[], map[], map[], [], 0)

  // ---- The invariant ----------------------------------------------------------------------------

  /** Every process that anything points to is in the table, under its current identifier. */
  predicate Keyed(v: View)
  {
    && (forall k | k in v.procs :: v.procs[k] < |v.pool| && v.pool[v.procs[k]].id == k)
    && (forall p | 0 <= p < |v.pool| :: v.pool[p].id in v.procs && v.procs[v.pool[p].id] == p)
  }

  /** The node table is the disjoint union of the three tables, each with its own kind. */
  ghost predicate Typed(v: View)
  {
    TypedUnion(v.nodes, v.procs.Keys, v.files.Keys, v.sockets.Keys)
  }

  ghost predicate TypedUnion(nodes: map<int, NodeType>, procs: set<int>, files: set<int>, sockets: set<int>)
  {
    && (forall k | k in nodes :: nodes[k] == Proc || nodes[k] == File || nodes[k] == Socket)
    && OfKind(nodes, Proc, procs) && OfKind(nodes, File, files) && OfKind(nodes, Socket, sockets)
  }

  ghost predicate OfKind(nodes: map<int, NodeType>, kind: NodeType, ids: set<int>)
  {
    forall k :: k in ids <==> k in nodes && nodes[k] == kind
  }

  predicate IsObject(e: End)
  {
    !e.ProcEnd?
  }

  /** Every edge has a process at one end, and a noted edge a file or socket at the other; accesses
      lead the way their relation says. */
  predicate Shaped(e: Link)
  {
    && (e.from.ProcEnd? || e.to.ProcEnd?)
    && (e.mark != Unlisted ==> IsObject(e.from) || IsObject(e.to))
    && (e.relation == Write || e.relation == Send ==> e.from.ProcEnd?)
    && (e.relation == Read || e.relation == Recv || e.relation == Load ==> e.to.ProcEnd?)
  }

  /** The process of an edge, at the end where a noted edge has one. */
  function ProcOf(e: Link): nat
  {
    if e.from.ProcEnd? then e.from.p else if e.to.ProcEnd? then e.to.p else 0
  }

  function IdOf(e: End): int
  {
    match e
    case FileEnd(f) => f
    case SocketEnd(s) => s
    case ProcEnd(_) => 0
  }

  /** The file or socket of a noted edge. */
  function ObjectOf(e: Link): int
  {
    IdOf(if e.from.ProcEnd? then e.to else e.from)
  }

  predicate InPool(e: End, n: nat)
  {
    e.ProcEnd? ==> e.p < n
  }

  predicate EndKept(v: View, e: End)
  {
    match e
    case ProcEnd(p) => p < |v.pool|
    case FileEnd(f) => f in v.files
    case SocketEnd(s) => s in v.sockets
  }

  predicate LinkFits(e: Link, n: nat)
  {
    Shaped(e) && InPool(e.from, n) && InPool(e.to, n)
  }

  predicate LinkKept(v: View, e: Link)
  {
    EndKept(v, e.from) && EndKept(v, e.to)
  }

  predicate PidsKnown(v: View)
  {
    forall pid | pid in v.pids :: v.pids[pid] < |v.pool|
  }

  predicate LinksKept(v: View)
  {
    && v.listed <= |v.links|
    && (forall i | 0 <= i < |v.links| :: LinkFits(v.links[i], |v.pool|))
    && (forall i | v.listed <= i < |v.links| :: LinkKept(v, v.links[i]))
  }

  /** The pid table points to processes, and the edges still to be put into the edge table join
      nodes that are in the tables. */
  predicate Reachable(v: View)
  {
    PidsKnown(v) && LinksKept(v)
  }

  /** The positions of the edges noted for a process, in order. */
  function ProcNotes(links: seq<Link>, p: nat): seq<nat>
  {
    if links == [] then []
    else
      var n := |links| - 1;
      ProcNotes(links[..n], p) + (if links[n].mark == Both && ProcOf(links[n]) == p then [n] else [])
  }

  /** The positions of the edges noted for a file or socket, in order. */
  function FileNotes(links: seq<Link>, f: int): seq<nat>
  {
    if links == [] then []
    else
      var n := |links| - 1;
      FileNotes(links[..n], f) + (if links[n].mark != Unlisted && ObjectOf(links[n]) == f then [n] else [])
  }

  /** The list under an identifier is that of the process which has it now. */
  predicate ProcLists(v: View)
  {
    && (forall k | k in v.procInter ::
          k in v.procs && v.procInter[k] != [] && v.procInter[k] == ProcNotes(v.links, v.procs[k]))
    && (forall p | 0 <= p < |v.pool| :: ProcNotes(v.links, p) != [] ==> v.pool[p].id in v.procInter)
  }

  ghost predicate FileLists(fileInter: map<int, seq<nat>>, links: seq<Link>)
  {
    && (forall f | f in fileInter :: fileInter[f] != [] && fileInter[f] == FileNotes(links, f))
    && (forall f :: FileNotes(links, f) != [] ==> f in fileInter)
  }

  /** Descriptors and interactions are kept for processes in the table, and each list holds exactly
      the edges noted for its node. */
  ghost predicate Owned(v: View)
  {
    (forall k | k in v.fds :: k in v.procs) && ProcLists(v) && FileLists(v.fileInter, v.links)
  }

  ghost predicate Consistent(v: View)
  {
    Keyed(v) && Typed(v) && Reachable(v) && Owned(v)
  }

  /** No node of another kind has this identifier. */
  predicate Room(v: View, id: int, kind: NodeType)
  {
    id in v.nodes ==> v.nodes[id] == kind
  }

  // ---- Updates ----------------------------------------------------------------------------------

  /** A process whose identifier is in the table already is dropped in favour of that one. */
  function AddProc(v: View, r: Process): View
  {
    if r.id in v.procs then v
    else v.(pool := v.pool + [r], procs := v.procs[r.id := |v.pool|], nodes := v.nodes[r.id := Proc])
  }

  function AddFile(v: View, id: int, f: FileInfo): View
  {
    if id in v.files then v else v.(files := v.files[id := f], nodes := v.nodes[id := File])
  }

  function AddSocket(v: View, id: int, name: string): View
  {
    if id in v.sockets then v else v.(sockets := v.sockets[id := SocketInfo(name)], nodes := v.nodes[id := Socket])
  }

  function DropFiles(v: View, ids: set<int>): View
  {
    v.(files := v.files - ids, nodes := v.nodes - ids)
  }

  function DropSockets(v: View, ids: set<int>): View
  {
    v.(sockets := v.sockets - ids, nodes := v.nodes - ids)
  }

  function Noting(m: map<int, seq<nat>>, k: int, i: nat): map<int, seq<nat>>
  {
    m[k := if k in m then m[k] + [i] else [i]]
  }

  /** A new edge, noted in the lists its mark says. */
  function Linked(v: View, e: Link): View
    requires LinkFits(e, |v.pool|)
  {
    var n := |v.links|;
    v.(links := v.links + [e],
       fileInter := if e.mark == Unlisted then v.fileInter else Noting(v.fileInter, ObjectOf(e), n),
       procInter := if e.mark != Both then v.procInter else Noting(v.procInter, v.pool[ProcOf(e)].id, n))
  }

  function SetPid(v: View, pid: string, p: nat): View
  {
    v.(pids := v.pids[pid := p])
  }

  function SetFds(v: View, k: int, vec: seq<int>): View
  {
    v.(fds := v.fds[k := vec])
  }

  function SetPpid(v: View, p: nat, ppid: string): View
    requires p < |v.pool|
  {
    v.(pool := v.pool[p := v.pool[p].(ppid := ppid)])
  }

  function SetNames(v: View, p: nat, exe: string, args: string, id: int): View
    requires p < |v.pool|
  {
    v.(pool := v.pool[p := v.pool[p].(exe := exe, args := args, id := id)])
  }

  /** The entries of four tables move to a new key. */
  function MoveKeys(v: View, from: int, to: int): View
  {
    v.(procs := Exchange(v.procs, from, to), nodes := Exchange(v.nodes, from, to),
       fds := Exchange(v.fds, from, to), procInter := Exchange(v.procInter, from, to))
  }

  /** A process gets a new executable, new arguments and a new identifier, and its entries in four
      tables move there. */
  function Rekey(v: View, p: nat, exe: string, args: string, to: int): View
    requires p < |v.pool|
  {
    MoveKeys(SetNames(v, p, exe, args, to), v.pool[p].id, to)
  }

  /** What re-keying does, entry by entry. */
  ghost predicate Rekeyed(v: View, p: nat, exe: string, args: string, to: int, w: View)
    requires p < |v.pool|
  {
    && w.pool == v.pool[p := v.pool[p].(exe := exe, args := args, id := to)]
    && Exchanged(v.procs, v.pool[p].id, to, w.procs) && Exchanged(v.nodes, v.pool[p].id, to, w.nodes)
    && Exchanged(v.procInter, v.pool[p].id, to, w.procInter) && Exchanged(v.fds, v.pool[p].id, to, w.fds)
    && w.files == v.files && w.sockets == v.sockets && w.pids == v.pids
    && w.fileInter == v.fileInter && w.links == v.links && w.listed == v.listed
  }

  // ---- What the updates keep ----------------------------------------------------------------------

  /** A node of kind `kind` is added: the tables of the other kinds must not have its identifier. */
  lemma TypedAdd(nodes: map<int, NodeType>, kind: NodeType, id: int, same: set<int>, other: set<int>, third: set<int>,
                 k2: NodeType, k3: NodeType)
    requires kind != k2 && kind != k3
    requires OfKind(nodes, kind, same) && OfKind(nodes, k2, other) && OfKind(nodes, k3, third)
    ensures OfKind(nodes[id := kind], kind, same + {id})
    ensures OfKind(nodes[id := kind], k2, other) <==> !(id in nodes && nodes[id] == k2)
    ensures OfKind(nodes[id := kind], k3, third) <==> !(id in nodes && nodes[id] == k3)
  {
  }

  lemma EndsStay(v: View, w: View)
    requires Reachable(v) && v.links == w.links && v.listed == w.listed && v.pids == w.pids && |v.pool| <= |w.pool|
    requires v.files.Keys <= w.files.Keys && v.sockets.Keys <= w.sockets.Keys
    ensures Reachable(w)
  {
    forall i | w.listed <= i < |w.links|
      ensures LinkKept(w, w.links[i])
    {
      assert LinkKept(v, v.links[i]);
    }
  }

  lemma ProcsStay(v: View, w: View)
    requires Keyed(v) && Owned(v) && w.pool == v.pool && w.procs == v.procs && w.fds == v.fds
    requires w.procInter == v.procInter && w.fileInter == v.fileInter && w.links == v.links
    ensures Keyed(w) && Owned(w)
  {
  }

  /** A new process has no edges yet. */
  lemma {:induction false} NoNotes(links: seq<Link>, p: nat)
    requires forall i | 0 <= i < |links| :: LinkFits(links[i], p)
    ensures ProcNotes(links, p) == []
    decreases |links|
  {
    if links != [] {
      NoNotes(links[..|links| - 1], p);
    }
  }

  lemma AddProcKeyed(v: View, r: Process)
    requires Keyed(v) && Owned(v) && Reachable(v)
    ensures Keyed(AddProc(v, r)) && Owned(AddProc(v, r))
  {
    var w := AddProc(v, r);
    NoNotes(v.links, |v.pool|);
    forall p | 0 <= p < |w.pool| ensures w.pool[p].id in w.procs && w.procs[w.pool[p].id] == p {
      assert p < |v.pool| ==> v.pool[p].id in v.procs;
    }
  }

  /** The tables stay consistent exactly when no file or socket has the identifier. */
  lemma AddProcKeeps(v: View, r: Process)
    requires Consistent(v)
    ensures Consistent(AddProc(v, r)) <==> Room(v, r.id, Proc)
  {
    EndsStay(v, AddProc(v, r));
    AddProcKeyed(v, r);
    TypedAdd(v.nodes, Proc, r.id, v.procs.Keys, v.files.Keys, v.sockets.Keys, File, Socket);
    assert r.id !in v.procs ==> AddProc(v, r).procs.Keys == v.procs.Keys + {r.id};
  }

  lemma AddFileTyped(v: View, id: int, f: FileInfo)
    requires Typed(v)
    ensures Typed(AddFile(v, id, f)) <==> Room(v, id, File)
  {
    TypedAdd(v.nodes, File, id, v.files.Keys, v.procs.Keys, v.sockets.Keys, Proc, Socket);
    assert id !in v.files ==> AddFile(v, id, f).files.Keys == v.files.Keys + {id};
  }

  lemma AddFileKeeps(v: View, id: int, f: FileInfo)
    requires Consistent(v)
    ensures Consistent(AddFile(v, id, f)) <==> Room(v, id, File)
  {
    EndsStay(v, AddFile(v, id, f));
    ProcsStay(v, AddFile(v, id, f));
    AddFileTyped(v, id, f);
  }

  lemma AddSocketTyped(v: View, id: int, name: string)
    requires Typed(v)
    ensures Typed(AddSocket(v, id, name)) <==> Room(v, id, Socket)
  {
    TypedAdd(v.nodes, Socket, id, v.sockets.Keys, v.procs.Keys, v.files.Keys, Proc, File);
    assert id !in v.sockets ==> AddSocket(v, id, name).sockets.Keys == v.sockets.Keys + {id};
  }

  lemma AddSocketKeeps(v: View, id: int, name: string)
    requires Consistent(v)
    ensures Consistent(AddSocket(v, id, name)) <==> Room(v, id, Socket)
  {
    EndsStay(v, AddSocket(v, id, name));
    ProcsStay(v, AddSocket(v, id, name));
    AddSocketTyped(v, id, name);
  }

  /** No edge that is still to be put into the edge table ends in one of these. */
  predicate NoneListedAt(v: View, ends: set<End>)
  {
    forall i | v.listed <= i < |v.links| :: v.links[i].from !in ends && v.links[i].to !in ends
  }

  function FileEnds(ids: set<int>): set<End>
  {
    set f | f in ids :: FileEnd(f)
  }

  function SocketEnds(ids: set<int>): set<End>
  {
    set s | s in ids :: SocketEnd(s)
  }

  lemma OthersKept(nodes: map<int, NodeType>, kind: NodeType, ids: set<int>, gone: set<int>, goneKind: NodeType)
    requires OfKind(nodes, kind, ids) && forall k | k in gone :: k in nodes && nodes[k] == goneKind
    ensures OfKind(nodes - gone, kind, if kind == goneKind then ids - gone else ids)
  {
  }

  lemma DropReachable(v: View, w: View, ends: set<End>)
    requires Reachable(v) && w.links == v.links && w.listed == v.listed && w.pids == v.pids && w.pool == v.pool
    requires forall e :: EndKept(w, e) <==> EndKept(v, e) && e !in ends
    ensures Reachable(w) <==> NoneListedAt(v, ends)
  {
    if Reachable(w) {
      forall i | v.listed <= i < |v.links|
        ensures v.links[i].from !in ends && v.links[i].to !in ends
      {
        assert LinkKept(w, w.links[i]);
      }
    } else {
      assert exists i :: w.listed <= i < |w.links| && !LinkKept(w, w.links[i]);
    }
  }

  lemma DropTyped(v: View, ids: set<int>, kind: NodeType)
    requires Typed(v) && forall k | k in ids :: k in v.nodes && v.nodes[k] == kind
    ensures TypedUnion(v.nodes - ids, if kind == Proc then v.procs.Keys - ids else v.procs.Keys,
                       if kind == File then v.files.Keys - ids else v.files.Keys,
                       if kind == Socket then v.sockets.Keys - ids else v.sockets.Keys)
  {
    OthersKept(v.nodes, Proc, v.procs.Keys, ids, kind);
    OthersKept(v.nodes, File, v.files.Keys, ids, kind);
    OthersKept(v.nodes, Socket, v.sockets.Keys, ids, kind);
  }

  /** Files can be dropped exactly when no listed edge ends in them. */
  lemma DropFilesExact(v: View, ids: set<int>)
    requires Consistent(v) && ids <= v.files.Keys
    ensures Consistent(DropFiles(v, ids)) <==> NoneListedAt(v, FileEnds(ids))
  {
    var w := DropFiles(v, ids);
    ProcsStay(v, w);
    DropTyped(v, ids, File);
    assert w.files.Keys == v.files.Keys - ids;
    DropReachable(v, w, FileEnds(ids));
  }

  lemma DropSocketsExact(v: View, ids: set<int>)
    requires Consistent(v) && ids <= v.sockets.Keys
    ensures Consistent(DropSockets(v, ids)) <==> NoneListedAt(v, SocketEnds(ids))
  {
    var w := DropSockets(v, ids);
    ProcsStay(v, w);
    DropTyped(v, ids, Socket);
    assert w.sockets.Keys == v.sockets.Keys - ids;
    DropReachable(v, w, SocketEnds(ids));
  }

  lemma OneMore(links: seq<Link>, e: Link)
    ensures forall p :: ProcNotes(links + [e], p) ==
                        ProcNotes(links, p) + (if e.mark == Both && ProcOf(e) == p then [|links|] else [])
    ensures forall f :: FileNotes(links + [e], f) ==
                        FileNotes(links, f) + (if e.mark != Unlisted && ObjectOf(e) == f then [|links|] else [])
  {
    assert (links + [e])[..|links|] == links;
  }

  lemma LinkedProcLists(v: View, e: Link)
    requires Keyed(v) && ProcLists(v) && LinkFits(e, |v.pool|)
    ensures ProcLists(Linked(v, e))
  {
    OneMore(v.links, e);
    var w := Linked(v, e);
    forall k | k in w.procInter
      ensures k in w.procs && w.procInter[k] != [] && w.procInter[k] == ProcNotes(w.links, w.procs[k])
    {
      assert k in v.procInter || k == v.pool[ProcOf(e)].id;
    }
  }

  lemma LinkedFileLists(v: View, e: Link)
    requires FileLists(v.fileInter, v.links) && LinkFits(e, |v.pool|)
    ensures FileLists(Linked(v, e).fileInter, v.links + [e])
  {
    OneMore(v.links, e);
  }

  lemma LinkedReachable(v: View, e: Link)
    requires Reachable(v) && Shaped(e) && LinkKept(v, e)
    ensures Reachable(Linked(v, e))
  {
    var w := Linked(v, e);
    forall i | 0 <= i < |w.links|
      ensures LinkFits(w.links[i], |w.pool|)
    {
      assert i < |v.links| ==> LinkFits(v.links[i], |v.pool|);
    }
    forall i | w.listed <= i < |w.links|
      ensures LinkKept(w, w.links[i])
    {
      assert i < |v.links| ==> LinkKept(v, v.links[i]);
    }
  }

  lemma LinkedKeeps(v: View, e: Link)
    requires Consistent(v) && Shaped(e) && LinkKept(v, e)
    ensures Consistent(Linked(v, e))
  {
    LinkedReachable(v, e);
    LinkedProcLists(v, e);
    LinkedFileLists(v, e);
  }

  /** The listed edges are in the edge table now. */
  lemma UnlistedKeeps(v: View)
    requires Consistent(v)
    ensures Consistent(v.(listed := |v.links|))
  {
    ProcsStay(v, v.(listed := |v.links|));
  }

  lemma SetPidKeeps(v: View, pid: string, p: nat)
    requires Consistent(v) && p < |v.pool|
    ensures Consistent(SetPid(v, pid, p))
  {
    var w := SetPid(v, pid, p);
    ProcsStay(v, w);
    forall i | w.listed <= i < |w.links|
      ensures LinkKept(w, w.links[i])
    {
      assert LinkKept(v, v.links[i]);
    }
  }

  lemma SetPpidKeeps(v: View, p: nat, ppid: string)
    requires Consistent(v) && p < |v.pool|
    ensures Consistent(SetPpid(v, p, ppid))
  {
    EndsStay(v, SetPpid(v, p, ppid));
  }

  lemma SetFdsKeeps(v: View, k: int, vec: seq<int>)
    requires Consistent(v) && k in v.procs
    ensures Consistent(SetFds(v, k, vec))
  {
    EndsStay(v, SetFds(v, k, vec));
  }

  /** A socket gets another name and keeps its identifier. */
  lemma RenamedInPlace(v: View, id: int, name: string)
    requires Consistent(v) && id in v.sockets
    ensures Consistent(v.(sockets := v.sockets[id := SocketInfo(name)]))
  {
    var w := v.(sockets := v.sockets[id := SocketInfo(name)]);
    assert w.sockets.Keys == v.sockets.Keys;
    EndsStay(v, w);
    ProcsStay(v, w);
  }

  lemma RekeyKeyed(v: View, p: nat, exe: string, args: string, to: int, w: View)
    requires Keyed(v) && p < |v.pool| && Rekeyed(v, p, exe, args, to, w)
    requires to == v.pool[p].id || to !in v.procs
    ensures Keyed(w)
  {
    var from := v.pool[p].id;
    assert w.pool[p].id == to && v.procs[from] == p;
    forall q | 0 <= q < |w.pool|
      ensures w.pool[q].id in w.procs && w.procs[w.pool[q].id] == q
    {
      if q != p {
        assert w.pool[q] == v.pool[q] && v.procs[v.pool[q].id] == q;
      }
    }
  }

  lemma RekeyProcLists(v: View, p: nat, exe: string, args: string, to: int, w: View)
    requires Keyed(v) && ProcLists(v) && p < |v.pool| && Rekeyed(v, p, exe, args, to, w)
    requires to == v.pool[p].id || to !in v.procs
    ensures ProcLists(w)
  {
    var from := v.pool[p].id;
    forall k | k in w.procInter
      ensures k in w.procs && w.procInter[k] != [] && w.procInter[k] == ProcNotes(w.links, w.procs[k])
    {
      var before := if k in v.procInter && k != from then k else from;
      assert v.procInter[before] == ProcNotes(v.links, v.procs[before]);
    }
    forall q | 0 <= q < |w.pool| && ProcNotes(w.links, q) != []
      ensures w.pool[q].id in w.procInter
    {
      assert q != p ==> w.pool[q] == v.pool[q] && v.pool[q].id != from;
    }
  }

  lemma RekeyKeeps(v: View, p: nat, exe: string, args: string, to: int, w: View)
    requires Consistent(v) && p < |v.pool| && Rekeyed(v, p, exe, args, to, w)
    requires to == v.pool[p].id || to !in v.nodes
    ensures Consistent(w)
  {
    assert to in v.procs ==> to in v.nodes;
    EndsStay(v, w);
    RekeyKeyed(v, p, exe, args, to, w);
    RekeyProcLists(v, p, exe, args, to, w);
  }

  lemma RekeyEntries(v: View, p: nat, exe: string, args: string, to: int)
    requires p < |v.pool|
    ensures Rekeyed(v, p, exe, args, to, Rekey(v, p, exe, args, to))
  {
    var from := v.pool[p].id;
    ExchangeEntries(v.procs, from, to);
    ExchangeEntries(v.nodes, from, to);
    ExchangeEntries(v.fds, from, to);
    ExchangeEntries(v.procInter, from, to);
  }

  /** Re-keying a process keeps the tables consistent exactly when no other node has its new
      identifier. */
  lemma RekeyExact(v: View, p: nat, exe: string, args: string, to: int)
    requires Consistent(v) && p < |v.pool|
    ensures Consistent(Rekey(v, p, exe, args, to)) <==> to == v.pool[p].id || to !in v.nodes
  {
    var w := Rekey(v, p, exe, args, to);
    RekeyEntries(v, p, exe, args, to);
    if to == v.pool[p].id || to !in v.nodes {
      RekeyKeeps(v, p, exe, args, to, w);
    } else {
      RekeyBroken(v, p, exe, args, to);
      BrokenInconsistent(w);
    }
  }

  // ---- What stays broken --------------------------------------------------------------------------

  /** A process is not under its identifier, or two nodes of different kinds have the same one. No
      later call repairs either. */
  ghost predicate Broken(v: View)
  {
    !Keyed(v) || Clash(v.procs.Keys, v.files.Keys, v.sockets.Keys)
  }

  ghost predicate Clash(procs: set<int>, files: set<int>, sockets: set<int>)
  {
    exists k :: Shared(k, procs, files, sockets)
  }

  predicate Shared(k: int, procs: set<int>, files: set<int>, sockets: set<int>)
  {
    (k in procs && k in files) || (k in procs && k in sockets) || (k in files && k in sockets)
  }

  lemma BrokenInconsistent(v: View)
    requires Broken(v)
    ensures !Consistent(v)
  {
    if Keyed(v) {
      var k :| Shared(k, v.procs.Keys, v.files.Keys, v.sockets.Keys);
    }
  }

  lemma BrokenStays(v: View, w: View)
    requires Broken(v) && w.procs == v.procs
    requires |w.pool| == |v.pool| && forall p | 0 <= p < |v.pool| :: w.pool[p].id == v.pool[p].id
    requires v.files.Keys <= w.files.Keys && v.sockets.Keys <= w.sockets.Keys
    ensures Broken(w)
  {
    if Keyed(v) {
      var k :| Shared(k, v.procs.Keys, v.files.Keys, v.sockets.Keys);
      assert Shared(k, w.procs.Keys, w.files.Keys, w.sockets.Keys);
    }
  }

  /** The same processes, files and sockets. */
  predicate SameNodes(v: View, w: View)
  {
    w.pool == v.pool && w.procs == v.procs && w.files == v.files && w.sockets == v.sockets
  }

  lemma BrokenSame(v: View, w: View)
    requires Broken(v) && SameNodes(v, w)
    ensures Broken(w) && !Consistent(w)
  {
    BrokenInconsistent(v);
    BrokenInconsistent(w);
  }

  /** The same processes by identifier, and the same files and sockets. */
  predicate Alike(v: View, w: View)
  {
    && w.procs == v.procs && w.files == v.files && w.sockets == v.sockets
    && |w.pool| == |v.pool| && forall p | 0 <= p < |v.pool| :: w.pool[p].id == v.pool[p].id
  }

  lemma BrokenAlike(v: View, w: View)
    requires Broken(v) && Alike(v, w)
    ensures Broken(w)
  {
    BrokenStays(v, w);
  }

  lemma SetPpidStaysBroken(v: View, p: nat, ppid: string)
    requires Broken(v) && p < |v.pool|
    ensures Broken(SetPpid(v, p, ppid))
  {
    BrokenAlike(v, SetPpid(v, p, ppid));
  }

  lemma AddProcBreaks(v: View, r: Process)
    requires Typed(v) && !Room(v, r.id, Proc)
    ensures Broken(AddProc(v, r))
  {
    var w := AddProc(v, r);
    assert Shared(r.id, w.procs.Keys, w.files.Keys, w.sockets.Keys);
  }

  lemma AddFileBreaks(v: View, id: int, f: FileInfo)
    requires Typed(v) && !Room(v, id, File)
    ensures Broken(AddFile(v, id, f))
  {
    var w := AddFile(v, id, f);
    assert Shared(id, w.procs.Keys, w.files.Keys, w.sockets.Keys);
  }

  lemma AddSocketBreaks(v: View, id: int, name: string)
    requires Typed(v) && !Room(v, id, Socket)
    ensures Broken(AddSocket(v, id, name))
  {
    var w := AddSocket(v, id, name);
    assert Shared(id, w.procs.Keys, w.files.Keys, w.sockets.Keys);
  }

  lemma RekeyBroken(v: View, p: nat, exe: string, args: string, to: int)
    requires Keyed(v) && Typed(v) && p < |v.pool| && to != v.pool[p].id && to in v.nodes
    ensures Broken(Rekey(v, p, exe, args, to))
  {
    var w := Rekey(v, p, exe, args, to);
    RekeyEntries(v, p, exe, args, to);
    if to in v.procs {
      assert w.pool[p].id == to && w.procs[to] != p;
    } else {
      assert Shared(to, w.procs.Keys, w.files.Keys, w.sockets.Keys);
    }
  }

  // ---- Counting -----------------------------------------------------------------------------------

  lemma Apart(a: set<int>, b: set<int>)
    requires forall k | k in a :: k !in b
    ensures a * b == {}
  {
    if a * b != {} {
      var k := Member(a * b);
    }
  }

  lemma TypedKeys(nodes: map<int, NodeType>, procs: set<int>, files: set<int>, sockets: set<int>)
    requires TypedUnion(nodes, procs, files, sockets)
    ensures nodes.Keys == procs + files + sockets
    ensures procs * files == {} && procs * sockets == {} && files * sockets == {}
  {
    assert forall k :: k in nodes.Keys <==> k in procs || k in files || k in sockets;
    Apart(procs, files);
    Apart(procs, sockets);
    Apart(files, sockets);
  }

  lemma DisjointCount(nodes: set<int>, procs: set<int>, files: set<int>, sockets: set<int>)
    requires nodes == procs + files + sockets
    requires procs * files == {} && procs * sockets == {} && files * sockets == {}
    ensures |nodes| == |procs| + |files| + |sockets|
  {
    assert (procs + files) * sockets == procs * sockets + files * sockets;
  }

  /** The statistics the program prints: the nodes are counted by kind. */
  lemma NodeCount(v: View)
    requires Consistent(v)
    ensures |v.nodes.Keys| == |v.procs.Keys| + |v.files.Keys| + |v.sockets.Keys|
  {
    TypedKeys(v.nodes, v.procs.Keys, v.files.Keys, v.sockets.Keys);
    DisjointCount(v.nodes.Keys, v.procs.Keys, v.files.Keys, v.sockets.Keys);
  }
}
