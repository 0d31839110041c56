/** What the calls on files, sockets and descriptors do to the tables. */
module ObjectCalls {
  import opened Basics
  import opened Records
  import opened NodeTables
  import opened SystemCalls

  // ---- Descriptors --------------------------------------------------------------------------------

  /** An entry that is there is overwritten. */
  function FdSet(v: View, pid: string, fd: nat, x: int): (w: View)
    requires PidsKnown(v) && pid in v.pids
    ensures SameNodes(v, w) && w.pids == v.pids
  {
    var id := v.pool[v.pids[pid]].id;
    if id in v.fds && fd < |v.fds[id]| then SetFds(v, id, v.fds[id][fd := x]) else v
  }

  /** Duplicating a descriptor sets the new one; when that is in range already, the entry is put at
      the end a second time. */
  function Dupped(vec: seq<int>, from: nat, to: nat): (w: seq<int>)
    ensures |w| == (if to > |vec| then to else |vec|) + 1 && to < |w|
    ensures w[to] == w[|w| - 1] == if from < |vec| then vec[from] else 0
    ensures forall i | 0 <= i < |w| - 1 && i != to :: w[i] == if i < |vec| then vec[i] else 0
  {
    var x := if from < |vec| then vec[from] else 0;
    if to < |vec| then vec[to := x] + [x] else vec + seq(to - |vec|, _ => 0) + [x]
  }

  function FdDupped(v: View, pid: string, from: nat, to: nat): View
    requires PidsKnown(v)
  {
    if pid !in v.pids then v
    else
      var id := v.pool[v.pids[pid]].id;
      if id in v.fds then SetFds(v, id, Dupped(v.fds[id], from, to)) else v
  }

  /** What the descriptor of a known process stands for. */
  function Descriptor(v: View, pid: string, fd: nat): Option<int>
    requires PidsKnown(v)
  {
    if pid !in v.pids then None
    else
      var id := v.pool[v.pids[pid]].id;
      if id in v.fds && fd < |v.fds[id]| then Some(v.fds[id][fd]) else None
  }

  // ---- Sockets and pipes --------------------------------------------------------------------------

  function SocketMade(v: View, pid: string, fd: nat, id: int, name: string): View
    requires PidsKnown(v)
  {
    if pid !in v.pids then v else FdInserted(AddSocket(v, id, name), pid, fd, id)
  }

  /** Both descriptors of a pipe stand for one file. */
  function PipeMade(v: View, pid: string, fd0: nat, fd1: nat, path: Path): View
    requires PidsKnown(v)
  {
    if pid !in v.pids then v
    else FdInserted(FdInserted(AddFile(v, path.id, path.file), pid, fd0, path.id), pid, fd1, path.id)
  }

  function ToSocket(p: nat, s: int, relation: EdgeType, mark: Mark, stamp: Stamp): Link
  {
    Link(ProcEnd(p), SocketEnd(s), relation, mark, stamp)
  }

  /** A process is connected to a socket, which is a node of its own; the descriptor of a local one
      is closed. */
  function Connected(v: View, pid: string, fd: nat, internal: bool, id: int, name: string, stamp: Stamp): View
    requires PidsKnown(v)
  {
    if pid !in v.pids then v
    else if internal then FdSet(v, pid, fd, -1)
    else Linked(FdSet(AddSocket(v, id, name), pid, fd, id), ToSocket(v.pids[pid], id, Connect, Both, stamp))
  }

  /** The same for a peer that is asked for, whose edge no interaction list has. */
  function PeerNamed(v: View, pid: string, fd: nat, id: int, name: string, stamp: Stamp): View
    requires PidsKnown(v)
  {
    if pid !in v.pids then v
    else Linked(FdSet(AddSocket(v, id, name), pid, fd, id), ToSocket(v.pids[pid], id, Getpeername, Unlisted, stamp))
  }

  // ---- Files --------------------------------------------------------------------------------------

  /** Making or removing a directory makes its node whether or not the process is known. */
  function DirectoryUsed(v: View, pid: string, path: Path, made: bool, stamp: Stamp): View
    requires PidsKnown(v)
  {
    var u := AddFile(v, path.id, path.file);
    if pid !in v.pids then u
    else Linked(u, Link(ProcEnd(v.pids[pid]), FileEnd(path.id), if made then Mkdir else Rmdir, Both, stamp))
  }

  /** One path of an unlink, rename or link: the file is created or deleted there. */
  datatype FileAct = FileAct(path: Path, created: bool)

  function ActOf(p: nat, act: FileAct, stamp: Stamp): Link
  {
    Link(ProcEnd(p), FileEnd(act.path.id), if act.created then Create else Delete, Both, stamp)
  }

  /** Each file gets a node and an edge. */
  function ActedOn(v: View, p: nat, acts: seq<FileAct>, stamp: Stamp): (w: View)
    requires p < |v.pool|
    ensures w.pool == v.pool
  {
    if acts == [] then v
    else
      var k := |acts| - 1;
      Linked(AddFile(ActedOn(v, p, acts[..k], stamp), acts[k].path.id, acts[k].path.file), ActOf(p, acts[k], stamp))
  }

  function FilesUsed(v: View, pid: string, acts: seq<FileAct>, stamp: Stamp): View
    requires PidsKnown(v)
  {
    if pid in v.pids then ActedOn(v, v.pids[pid], acts, stamp) else v
  }

  // ---- Reading and writing --------------------------------------------------------------------------

  /** Calls on sockets only, with the address a message may carry, and calls on either. */
  datatype Transfer = Reading | Writing | Receiving(address: Option<string>) | Sending(address: Option<string>)
  {
    predicate Inward() { Reading? || Receiving? }

    /** The descriptors for which zero does not mean closed. */
    predicate Standard(fd: nat)
    {
      if Inward() then fd == 0 else if Writing? then fd == 1 || fd == 2 else fd == 1
    }
  }

  function TransferOf(how: Transfer, p: nat, e: End, stamp: Stamp): Link
    requires IsObject(e)
  {
    if how.Inward() then Link(e, ProcEnd(p), if e.FileEnd? then Read else Recv, Both, stamp)
    else Link(ProcEnd(p), e, if e.FileEnd? then Write else Send, Both, stamp)
  }

  /** The first message over a local socket tells its address. */
  function Named(v: View, how: Transfer, s: int): (w: View)
    requires s in v.sockets
    ensures w.pool == v.pool
  {
    if (how.Receiving? || how.Sending?) && how.address.Some? && Contains(v.sockets[s].name, "socket") then
      v.(sockets := v.sockets[s := SocketInfo(how.address.value)])
    else v
  }

  /** An edge between the process and what its descriptor stands for. */
  function Transferred(v: View, pid: string, fd: nat, how: Transfer, stamp: Stamp): View
    requires PidsKnown(v)
  {
    match Descriptor(v, pid, fd)
    case None => v
    case Some(x) =>
      if x == 0 && !how.Standard(fd) then v
      else if x in v.files && (how.Reading? || how.Writing?) then
        Linked(v, TransferOf(how, v.pids[pid], FileEnd(x), stamp))
      else if x in v.sockets then
        Linked(Named(v, how, x), TransferOf(how, v.pids[pid], SocketEnd(x), stamp))
      else v
  }

  function Killed(v: View, pid: string, victim: string, stamp: Stamp): View
    requires PidsKnown(v)
  {
    if pid in v.pids && victim in v.pids then Linked(v, Between(v.pids[pid], v.pids[victim], Kill, stamp)) else v
  }

  // ---- Descriptors found at the start ---------------------------------------------------------------

  datatype FdNode = FdFile(path: Path) | FdSocket(id: int, name: string)

  datatype FdEntry = FdEntry(fd: nat, node: FdNode)

  function NodeId(n: FdNode): int
  {
    match n
    case FdFile(path) => path.id
    case FdSocket(id, _) => id
  }

  function NodeAdded(v: View, n: FdNode): (w: View)
    ensures w.pool == v.pool && w.procs == v.procs && w.pids == v.pids
  {
    match n
    case FdFile(path) => AddFile(v, path.id, path.file)
    case FdSocket(id, name) => AddSocket(v, id, name)
  }

  predicate NodeRoom(v: View, n: FdNode)
  {
    Room(v, NodeId(n), if n.FdFile? then File else Socket)
  }

  function NodesAdded(v: View, entries: seq<FdEntry>): (w: View)
    ensures w.pool == v.pool && w.procs == v.procs && w.pids == v.pids
  {
    if entries == [] then v
    else NodeAdded(NodesAdded(v, entries[..|entries| - 1]), entries[|entries| - 1].node)
  }

  /** The vector has room for as many descriptors as there are entries, and grows as needed. */
  function FdVector(entries: seq<FdEntry>, n: nat): seq<int>
    requires n <= |entries|
  {
    if n == 0 then seq(|entries|, _ => 0)
    else WithFd(FdVector(entries, n - 1), entries[n - 1].fd, NodeId(entries[n - 1].node))
  }

  function FdsLoaded(v: View, pid: string, entries: seq<FdEntry>): View
    requires PidsKnown(v)
  {
    if pid !in v.pids then v
    else SetFds(NodesAdded(v, entries), v.pool[v.pids[pid]].id, FdVector(entries, |entries|))
  }

  /** Each node finds its identifier free, or taken by a node of its kind. */
  predicate EntriesFit(v: View, entries: seq<FdEntry>)
  {
    entries == [] ||
    var k := |entries| - 1;
    EntriesFit(v, entries[..k]) && NodeRoom(NodesAdded(v, entries[..k]), entries[k].node)
  }

  // ---- What the calls keep, and when they break -------------------------------------------------------

  lemma FdSetKeeps(v: View, pid: string, fd: nat, x: int)
    requires Consistent(v) && pid in v.pids
    ensures Consistent(FdSet(v, pid, fd, x))
  {
    var id := v.pool[v.pids[pid]].id;
    if id in v.fds && fd < |v.fds[id]| {
      SetFdsKeeps(v, id, v.fds[id][fd := x]);
    }
  }

  lemma FdDuppedKeeps(v: View, pid: string, from: nat, to: nat)
    requires Consistent(v)
    ensures Consistent(FdDupped(v, pid, from, to))
  {
    if pid in v.pids && v.pool[v.pids[pid]].id in v.fds {
      SetFdsKeeps(v, v.pool[v.pids[pid]].id, Dupped(v.fds[v.pool[v.pids[pid]].id], from, to));
    }
  }

  lemma SocketMadeExact(v: View, pid: string, fd: nat, id: int, name: string)
    requires Consistent(v)
    ensures Consistent(SocketMade(v, pid, fd, id, name)) <==> (pid in v.pids ==> Room(v, id, Socket))
  {
    if pid in v.pids {
      var u := AddSocket(v, id, name);
      AddSocketKeeps(v, id, name);
      if Room(v, id, Socket) {
        FdInsertedKeeps(u, pid, fd, id);
      } else {
        AddSocketBreaks(v, id, name);
        BrokenSame(u, FdInserted(u, pid, fd, id));
      }
    }
  }

  lemma TwoFdsKeep(v: View, pid: string, fd0: nat, fd1: nat, x: int)
    requires Consistent(v) && pid in v.pids
    ensures Consistent(FdInserted(FdInserted(v, pid, fd0, x), pid, fd1, x))
  {
    FdInsertedKeeps(v, pid, fd0, x);
    FdInsertedKeeps(FdInserted(v, pid, fd0, x), pid, fd1, x);
  }

  lemma PipeMadeExact(v: View, pid: string, fd0: nat, fd1: nat, path: Path)
    requires Consistent(v)
    ensures Consistent(PipeMade(v, pid, fd0, fd1, path)) <==> (pid in v.pids ==> Room(v, path.id, File))
  {
    if pid in v.pids {
      var u := AddFile(v, path.id, path.file);
      AddFileKeeps(v, path.id, path.file);
      if Room(v, path.id, File) {
        TwoFdsKeep(u, pid, fd0, fd1, path.id);
      } else {
        AddFileBreaks(v, path.id, path.file);
        BrokenSame(u, PipeMade(v, pid, fd0, fd1, path));
      }
    }
  }

  lemma FdAndLink(u: View, pid: string, fd: nat, x: int, e: Link)
    requires Consistent(u) && pid in u.pids && Shaped(e) && LinkKept(u, e)
    ensures Consistent(Linked(FdSet(u, pid, fd, x), e))
  {
    FdSetKeeps(u, pid, fd, x);
    LinkedKeeps(FdSet(u, pid, fd, x), e);
  }

  /** A process and a new socket are joined. */
  lemma SocketJoined(v: View, pid: string, fd: nat, id: int, name: string, e: Link)
    requires Consistent(v) && pid in v.pids && e == ToSocket(v.pids[pid], id, e.relation, e.mark, e.stamp) && Shaped(e)
    ensures Consistent(Linked(FdSet(AddSocket(v, id, name), pid, fd, id), e)) <==> Room(v, id, Socket)
  {
    var u := AddSocket(v, id, name);
    AddSocketKeeps(v, id, name);
    if Room(v, id, Socket) {
      FdAndLink(u, pid, fd, id, e);
    } else {
      AddSocketBreaks(v, id, name);
      BrokenSame(u, Linked(FdSet(u, pid, fd, id), e));
    }
  }

  lemma ConnectedExact(v: View, pid: string, fd: nat, internal: bool, id: int, name: string, stamp: Stamp)
    requires Consistent(v)
    ensures Consistent(Connected(v, pid, fd, internal, id, name, stamp)) <==>
            (pid in v.pids && !internal ==> Room(v, id, Socket))
  {
    if pid in v.pids {
      if internal {
        FdSetKeeps(v, pid, fd, -1);
      } else {
        SocketJoined(v, pid, fd, id, name, ToSocket(v.pids[pid], id, Connect, Both, stamp));
      }
    }
  }

  lemma PeerNamedExact(v: View, pid: string, fd: nat, id: int, name: string, stamp: Stamp)
    requires Consistent(v)
    ensures Consistent(PeerNamed(v, pid, fd, id, name, stamp)) <==> (pid in v.pids ==> Room(v, id, Socket))
  {
    if pid in v.pids {
      SocketJoined(v, pid, fd, id, name, ToSocket(v.pids[pid], id, Getpeername, Unlisted, stamp));
    }
  }

  /** A new file is used by a process. */
  lemma FileJoined(v: View, path: Path, e: Link)
    requires Consistent(v) && Shaped(e) && e.from.ProcEnd? && e.from.p < |v.pool| && e.to == FileEnd(path.id)
    ensures Consistent(Linked(AddFile(v, path.id, path.file), e)) <==> Room(v, path.id, File)
  {
    var u := AddFile(v, path.id, path.file);
    AddFileKeeps(v, path.id, path.file);
    if Room(v, path.id, File) {
      LinkedKeeps(u, e);
    } else {
      AddFileBreaks(v, path.id, path.file);
      BrokenSame(u, Linked(u, e));
    }
  }

  lemma DirectoryUsedExact(v: View, pid: string, path: Path, made: bool, stamp: Stamp)
    requires Consistent(v)
    ensures Consistent(DirectoryUsed(v, pid, path, made, stamp)) <==> Room(v, path.id, File)
  {
    if pid in v.pids {
      FileJoined(v, path, Link(ProcEnd(v.pids[pid]), FileEnd(path.id), if made then Mkdir else Rmdir, Both, stamp));
    } else {
      AddFileKeeps(v, path.id, path.file);
    }
  }

  predicate ActsFit(v: View, acts: seq<FileAct>)
  {
    forall i | 0 <= i < |acts| :: Room(v, acts[i].path.id, File)
  }

  lemma {:induction false} ActedOnFrame(v: View, p: nat, acts: seq<FileAct>, stamp: Stamp)
    requires p < |v.pool|
    ensures ActedOn(v, p, acts, stamp).procs == v.procs && ActedOn(v, p, acts, stamp).sockets == v.sockets
    decreases |acts|
  {
    if acts != [] {
      ActedOnFrame(v, p, acts[..|acts| - 1], stamp);
    }
  }

  lemma {:induction false} ActedFiles(v: View, p: nat, acts: seq<FileAct>, stamp: Stamp, i: nat)
    requires p < |v.pool| && i < |acts|
    ensures acts[i].path.id in ActedOn(v, p, acts, stamp).files
    decreases |acts|
  {
    var k := |acts| - 1;
    if i < k {
      ActedFiles(v, p, acts[..k], stamp, i);
    }
  }

  lemma {:induction false} ActsAddFiles(v: View, p: nat, acts: seq<FileAct>, stamp: Stamp)
    requires p < |v.pool|
    ensures OnlyFilesAdded(v.nodes, ActedOn(v, p, acts, stamp).nodes)
    decreases |acts|
  {
    if acts != [] {
      ActsAddFiles(v, p, acts[..|acts| - 1], stamp);
    }
  }

  lemma {:induction false} ActedOnKeeps(v: View, p: nat, acts: seq<FileAct>, stamp: Stamp)
    requires Consistent(v) && p < |v.pool| && ActsFit(v, acts)
    ensures Consistent(ActedOn(v, p, acts, stamp))
    decreases |acts|
  {
    if acts != [] {
      var k := |acts| - 1;
      ActedOnKeeps(v, p, acts[..k], stamp);
      ActsAddFiles(v, p, acts[..k], stamp);
      assert Room(v, acts[k].path.id, File);
      FileJoined(ActedOn(v, p, acts[..k], stamp), acts[k].path, ActOf(p, acts[k], stamp));
    }
  }

  lemma ActedOnBreaks(v: View, p: nat, acts: seq<FileAct>, stamp: Stamp)
    requires Typed(v) && p < |v.pool| && !ActsFit(v, acts)
    ensures Broken(ActedOn(v, p, acts, stamp))
  {
    var i: nat :| i < |acts| && !Room(v, acts[i].path.id, File);
    ActedOnFrame(v, p, acts, stamp);
    ActedFiles(v, p, acts, stamp, i);
    var w := ActedOn(v, p, acts, stamp);
    assert Shared(acts[i].path.id, w.procs.Keys, w.files.Keys, w.sockets.Keys);
  }

  lemma FilesUsedExact(v: View, pid: string, acts: seq<FileAct>, stamp: Stamp)
    requires Consistent(v)
    ensures Consistent(FilesUsed(v, pid, acts, stamp)) <==> (pid in v.pids ==> ActsFit(v, acts))
  {
    if pid in v.pids {
      if ActsFit(v, acts) {
        ActedOnKeeps(v, v.pids[pid], acts, stamp);
      } else {
        ActedOnBreaks(v, v.pids[pid], acts, stamp);
        BrokenInconsistent(ActedOn(v, v.pids[pid], acts, stamp));
      }
    }
  }

  lemma SocketTransferKeeps(v: View, how: Transfer, p: nat, s: int, stamp: Stamp)
    requires Consistent(v) && p < |v.pool| && s in v.sockets
    ensures Consistent(Linked(Named(v, how, s), TransferOf(how, p, SocketEnd(s), stamp)))
  {
    NamedKeeps(v, how, s);
    LinkedKeeps(Named(v, how, s), TransferOf(how, p, SocketEnd(s), stamp));
  }

  lemma TransferredKeeps(v: View, pid: string, fd: nat, how: Transfer, stamp: Stamp)
    requires Consistent(v)
    ensures Consistent(Transferred(v, pid, fd, how, stamp))
  {
    match Descriptor(v, pid, fd)
    case None =>
    case Some(x) =>
      if x in v.files {
        LinkedKeeps(v, TransferOf(how, v.pids[pid], FileEnd(x), stamp));
      }
      if x in v.sockets {
        SocketTransferKeeps(v, how, v.pids[pid], x, stamp);
      }
  }

  lemma NamedKeeps(v: View, how: Transfer, s: int)
    requires Consistent(v) && s in v.sockets
    ensures Consistent(Named(v, how, s)) && s in Named(v, how, s).sockets
  {
    if how.Receiving? || how.Sending? {
      if how.address.Some? {
        RenamedInPlace(v, s, how.address.value);
      }
    }
  }

  lemma KilledKeeps(v: View, pid: string, victim: string, stamp: Stamp)
    requires Consistent(v)
    ensures Consistent(Killed(v, pid, victim, stamp))
  {
    if pid in v.pids && victim in v.pids {
      LinkedKeeps(v, Between(v.pids[pid], v.pids[victim], Kill, stamp));
    }
  }

  lemma NodeAddedExact(v: View, n: FdNode)
    requires Consistent(v)
    ensures if NodeRoom(v, n) then Consistent(NodeAdded(v, n)) else Broken(NodeAdded(v, n))
  {
    match n
    case FdFile(path) =>
      AddFileKeeps(v, path.id, path.file);
      if !NodeRoom(v, n) { AddFileBreaks(v, path.id, path.file); }
    case FdSocket(id, name) =>
      AddSocketKeeps(v, id, name);
      if !NodeRoom(v, n) { AddSocketBreaks(v, id, name); }
  }

  lemma NodeStaysBroken(v: View, n: FdNode)
    requires Broken(v)
    ensures Broken(NodeAdded(v, n))
  {
    var w := NodeAdded(v, n);
    assert v.files.Keys <= w.files.Keys && v.sockets.Keys <= w.sockets.Keys;
    BrokenStays(v, w);
  }

  lemma {:induction false} NodesAddedExact(v: View, entries: seq<FdEntry>)
    requires Consistent(v)
    ensures if EntriesFit(v, entries) then Consistent(NodesAdded(v, entries)) else Broken(NodesAdded(v, entries))
    decreases |entries|
  {
    if entries != [] {
      var k := |entries| - 1;
      NodesAddedExact(v, entries[..k]);
      if EntriesFit(v, entries[..k]) {
        NodeAddedExact(NodesAdded(v, entries[..k]), entries[k].node);
      } else {
        NodeStaysBroken(NodesAdded(v, entries[..k]), entries[k].node);
      }
    }
  }

  lemma FdsLoadedExact(v: View, pid: string, entries: seq<FdEntry>)
    requires Consistent(v)
    ensures Consistent(FdsLoaded(v, pid, entries)) <==> (pid in v.pids ==> EntriesFit(v, entries))
  {
    if pid in v.pids {
      var u := NodesAdded(v, entries);
      NodesAddedExact(v, entries);
      if EntriesFit(v, entries) {
        SetFdsKeeps(u, v.pool[v.pids[pid]].id, FdVector(entries, |entries|));
      } else {
        BrokenSame(u, FdsLoaded(v, pid, entries));
      }
    }
  }
}
