/** What the system calls, logins and the loading of sockets do to the tables. */
module SystemCalls {
  import opened Records
  import opened Rekeying
  import opened NodeTables
  import opened Iteration

  // ---- Specification --------------------------------------------------------------------------

  /** The process is inserted and found under its pid. */
  function Registered(v: View, pid: string, r: Process): (u: View)
    ensures |v.pool| <= |u.pool| && pid in u.pids
    ensures Keyed(v) ==> u.pids[pid] < |u.pool|
  {
    var u := AddProc(v, r);
    SetPid(u, pid, u.procs[r.id])
  }

  function Inherited(fds: map<int, seq<int>>, from: int, to: int): seq<int>
  {
    if from in fds && from != to then fds[from] else []
  }

  /** The child starts with a copy of its parent's descriptors; a process that is its own parent
      loses them. */
  function CopiedFds(v: View, from: int, to: int): View
  {
    SetFds(v, to, Inherited(v.fds, from, to))
  }

  /** An edge between processes, which no interaction list has. */
  function Between(p: nat, q: nat, relation: EdgeType, stamp: Stamp): Link
  {
    Link(ProcEnd(p), ProcEnd(q), relation, Unlisted, stamp)
  }

  /** A clone whose parent is not known gets no edge and no descriptors. */
  function Cloned(v: View, pid: string, r: Process, stamp: Stamp): View
    requires Keyed(v) && PidsKnown(v)
  {
    var u := Registered(v, pid, r);
    if r.ppid in u.pids then
      var parent, child := u.pids[r.ppid], u.pids[pid];
      Linked(CopiedFds(u, u.pool[parent].id, r.id), Between(parent, child, Clone, stamp))
    else
      SetFds(u, r.id, [])
  }

  /** Nothing happens without the parent; a vforked process that has been seen gets its edge only. */
  function Vforked(v: View, pid: string, r: Process, stamp: Stamp): View
    requires Keyed(v) && PidsKnown(v)
  {
    if r.ppid !in v.pids then v
    else
      var parent := v.pids[r.ppid];
      if pid in v.pids then Linked(v, Between(parent, v.pids[pid], Vfork, stamp))
      else
        var u := Registered(v, pid, r);
        Linked(CopiedFds(u, u.pool[parent].id, r.id), Between(parent, u.pids[pid], Vfork, stamp))
  }

  predicate VforkFits(v: View, pid: string, r: Process)
  {
    r.ppid in v.pids && pid !in v.pids ==> Room(v, r.id, Proc)
  }

  /** The ends of the edge an execution leads to, unless the parent is not known. */
  datatype Ends = NoEnds | Ends(parent: nat, child: nat)

  /** Executing an unknown process makes a node if the parent is known; a process that was created
      and never executed is re-keyed; an executed one gets a successor. */
  function Executed(v: View, pid: string, r: Process, rekeyed: int): (e: (View, Ends))
    requires Keyed(v) && PidsKnown(v)
    ensures e.1.Ends? ==> e.1.parent < |e.0.pool| && e.1.child < |e.0.pool|
  {
    if pid !in v.pids then
      if r.ppid !in v.pids then (v, NoEnds)
      else
        var u := Registered(v, pid, r);
        (CopiedFds(u, u.pool[v.pids[r.ppid]].id, r.id), Ends(v.pids[r.ppid], u.pids[pid]))
    else
      var p := v.pids[pid];
      if v.pool[p].args == " " then
        (Rekey(v, p, r.exe, r.args, rekeyed), if r.ppid in v.pids then Ends(v.pids[r.ppid], p) else NoEnds)
      else
        var u := Registered(v, pid, r);
        (CopiedFds(u, u.pool[p].id, r.id), Ends(p, u.pids[pid]))
  }

  /** No other node has the identifier that the execution makes. */
  predicate ExecFits(v: View, pid: string, r: Process, rekeyed: int)
    requires PidsKnown(v)
  {
    if pid in v.pids && v.pool[v.pids[pid]].args == " " then
      rekeyed == v.pool[v.pids[pid]].id || rekeyed !in v.nodes
    else (pid in v.pids || r.ppid in v.pids) ==> Room(v, r.id, Proc)
  }

  /** The files on the command line of an execution. */
  datatype Path = Path(id: int, file: FileInfo)

  function FilesAdded(v: View, paths: seq<Path>): (w: View)
    ensures w.pool == v.pool
  {
    if paths == [] then v
    else
      var k := |paths| - 1;
      AddFile(FilesAdded(v, paths[..k]), paths[k].id, paths[k].file)
  }

  function LoadOf(f: int, p: nat, stamp: Stamp): Link
  {
    Link(FileEnd(f), ProcEnd(p), Load, Both, stamp)
  }

  /** The process loads each file: an edge, noted for both. */
  function LoadsAdded(v: View, paths: seq<Path>, p: nat, stamp: Stamp): (w: View)
    requires p < |v.pool|
    ensures w.pool == v.pool
  {
    if paths == [] then v
    else
      var k := |paths| - 1;
      var u := LoadsAdded(v, paths[..k], p, stamp);
      Linked(u, LoadOf(paths[k].id, p, stamp))
  }

  function Execved(v: View, pid: string, r: Process, rekeyed: int, paths: seq<Path>, stamp: Stamp): View
    requires Keyed(v) && PidsKnown(v)
  {
    var (u, ends) := Executed(v, pid, r, rekeyed);
    if ends.NoEnds? then u
    else
      Linked(LoadsAdded(FilesAdded(u, paths), paths, ends.child, stamp),
        Between(ends.parent, ends.child, Execve, stamp))
  }

  /** A login of an unknown process, whose parent may be known by now. */
  function LoginAdded(v: View, pid: string, r: Process, ppid: string): View
    requires Keyed(v) && PidsKnown(v)
  {
    var u := Registered(v, pid, r);
    if ppid in u.pids then
      CopiedFds(SetPpid(u, u.pids[pid], ppid), u.pool[u.pids[ppid]].id, r.id)
    else SetFds(u, r.id, [])
  }

  /** A login names the executable of a process that has none, or makes a node. */
  function LoggedIn(v: View, pid: string, r: Process, rekeyed: int, ppid: string): View
    requires Keyed(v) && PidsKnown(v)
  {
    if pid in v.pids then
      var p := v.pids[pid];
      if v.pool[p].exe != " " then v else Rekey(v, p, r.exe, " ", rekeyed)
    else LoginAdded(v, pid, r, ppid)
  }

  /** No other node has the identifier that the login makes. */
  predicate LoginFits(v: View, pid: string, r: Process, rekeyed: int)
    requires PidsKnown(v)
  {
    if pid in v.pids then
      v.pool[v.pids[pid]].exe == " " ==> rekeyed == v.pool[v.pids[pid]].id || rekeyed !in v.nodes
    else Room(v, r.id, Proc)
  }

  function FirstAt(vec: seq<int>, x: int): (i: nat)
    ensures i <= |vec| && (i < |vec| ==> vec[i] == x) && forall j :: 0 <= j < i ==> vec[j] != x
  {
    if vec == [] || vec[0] == x then 0 else FirstAt(vec[1..], x) + 1
  }

  /** The first descriptor for `from` is now for `to`. */
  function Repointed(vec: seq<int>, from: int, to: int): seq<int>
  {
    var i := FirstAt(vec, from);
    if i < |vec| then vec[i := to] else vec
  }

  /** A socket is taken out and entered again under its new name. */
  function SocketRenamed(v: View, from: int, to: int, name: string): View
  {
    FdsRepointed(AddSocket(DropSockets(v, {from}), to, name), from, to)
  }

  function AllRepointed(fds: map<int, seq<int>>, from: int, to: int): (r: map<int, seq<int>>)
    ensures r.Keys == fds.Keys && forall k | k in fds :: r[k] == Repointed(fds[k], from, to)
  {
    map k | k in fds :: Repointed(fds[k], from, to)
  }

  function FdsRepointed(v: View, from: int, to: int): View
  {
    v.(fds := AllRepointed(v.fds, from, to))
  }

  lemma SameMap<K, V>(a: map<K, V>, b: map<K, V>)
    requires a.Keys == b.Keys && forall k | k in a :: a[k] == b[k]
    ensures a == b
  {
  }

  /** A descriptor beyond the end makes room for itself. */
  function WithFd(vec: seq<int>, fd: nat, file: int): (w: seq<int>)
    ensures fd < |w| && w[fd] == file
    ensures forall i | 0 <= i < |w| && i != fd :: w[i] == if i < |vec| then vec[i] else 0
  {
    if fd < |vec| then vec[fd := file] else vec + seq(fd - |vec|, _ => 0) + [file]
  }

  /** A process gets a descriptor, unless the table has none for it. */
  function FdInserted(v: View, pid: string, fd: nat, x: int): (w: View)
    requires PidsKnown(v) && pid in v.pids
    ensures SameNodes(v, w) && w.pids == v.pids
  {
    var id := v.pool[v.pids[pid]].id;
    if id in v.fds then SetFds(v, id, WithFd(v.fds[id], fd, x)) else v
  }

  /** The edge of a file that opening creates is noted for the file alone. */
  function CreateOf(p: nat, f: int, stamp: Stamp): Link
  {
    Link(ProcEnd(p), FileEnd(f), Create, FileOnly, stamp)
  }

  /** Opening a file makes its node, a descriptor for it, and an edge if the file is created. */
  function Opened(v: View, pid: string, fd: nat, path: Path, create: bool, stamp: Stamp): View
    requires PidsKnown(v)
  {
    if pid !in v.pids then v
    else
      var w := FdInserted(AddFile(v, path.id, path.file), pid, fd, path.id);
      if create then Linked(w, CreateOf(w.pids[pid], path.id, stamp)) else w
  }

  // ---- What the calls keep ------------------------------------------------------------------------

  lemma RegisteredKeeps(v: View, pid: string, r: Process)
    requires Consistent(v) && Room(v, r.id, Proc)
    ensures Consistent(Registered(v, pid, r))
  {
    AddProcKeeps(v, r);
    SetPidKeeps(AddProc(v, r), pid, AddProc(v, r).procs[r.id]);
  }

  lemma ClonedKeeps(v: View, pid: string, r: Process, stamp: Stamp)
    requires Consistent(v) && Room(v, r.id, Proc)
    ensures Consistent(Cloned(v, pid, r, stamp))
  {
    var u := Registered(v, pid, r);
    RegisteredKeeps(v, pid, r);
    if r.ppid in u.pids {
      var parent, child := u.pids[r.ppid], u.pids[pid];
      SetFdsKeeps(u, r.id, Inherited(u.fds, u.pool[parent].id, r.id));
      LinkedKeeps(CopiedFds(u, u.pool[parent].id, r.id), Between(parent, child, Clone, stamp));
    } else {
      SetFdsKeeps(u, r.id, []);
    }
  }

  lemma VforkedKeeps(v: View, pid: string, r: Process, stamp: Stamp)
    requires Consistent(v) && VforkFits(v, pid, r)
    ensures Consistent(Vforked(v, pid, r, stamp))
  {
    if r.ppid in v.pids {
      var parent := v.pids[r.ppid];
      if pid in v.pids {
        LinkedKeeps(v, Between(parent, v.pids[pid], Vfork, stamp));
      } else {
        var u := Registered(v, pid, r);
        RegisteredKeeps(v, pid, r);
        SetFdsKeeps(u, r.id, Inherited(u.fds, u.pool[parent].id, r.id));
        LinkedKeeps(CopiedFds(u, u.pool[parent].id, r.id), Between(parent, u.pids[pid], Vfork, stamp));
      }
    }
  }

  lemma ExecutedKeeps(v: View, pid: string, r: Process, rekeyed: int)
    requires Consistent(v) && ExecFits(v, pid, r, rekeyed)
    ensures Consistent(Executed(v, pid, r, rekeyed).0)
  {
    if pid in v.pids && v.pool[v.pids[pid]].args == " " {
      RekeyExact(v, v.pids[pid], r.exe, r.args, rekeyed);
    } else if pid in v.pids || r.ppid in v.pids {
      var u := Registered(v, pid, r);
      var parent := if pid in v.pids then v.pids[pid] else v.pids[r.ppid];
      RegisteredKeeps(v, pid, r);
      SetFdsKeeps(u, r.id, Inherited(u.fds, u.pool[parent].id, r.id));
    }
  }

  predicate OnlyFilesAdded(nodes: map<int, NodeType>, after: map<int, NodeType>)
  {
    forall k | k in after :: after[k] == File || (k in nodes && after[k] == nodes[k])
  }

  lemma {:induction false} FilesAddedFrame(v: View, paths: seq<Path>)
    ensures FilesAdded(v, paths).procs == v.procs && FilesAdded(v, paths).sockets == v.sockets
    ensures v.files.Keys <= FilesAdded(v, paths).files.Keys
    ensures forall i | 0 <= i < |paths| :: paths[i].id in FilesAdded(v, paths).files
    ensures OnlyFilesAdded(v.nodes, FilesAdded(v, paths).nodes)
    decreases |paths|
  {
    if paths != [] {
      FilesAddedFrame(v, paths[..|paths| - 1]);
    }
  }

  lemma {:induction false} FilesAddedKeeps(v: View, paths: seq<Path>)
    requires Consistent(v) && AllRoom(v, paths)
    ensures Consistent(FilesAdded(v, paths))
    decreases |paths|
  {
    if paths != [] {
      var k := |paths| - 1;
      FilesAddedKeeps(v, paths[..k]);
      FilesAddedFrame(v, paths[..k]);
      assert Room(v, paths[k].id, File);
      AddFileKeeps(FilesAdded(v, paths[..k]), paths[k].id, paths[k].file);
    }
  }

  lemma {:induction false} LoadsAddedKeeps(v: View, paths: seq<Path>, p: nat, stamp: Stamp)
    requires Consistent(v) && p < |v.pool| && forall i | 0 <= i < |paths| :: paths[i].id in v.files
    ensures Consistent(LoadsAdded(v, paths, p, stamp)) && LoadsAdded(v, paths, p, stamp).files == v.files
    decreases |paths|
  {
    if paths != [] {
      var k := |paths| - 1;
      LoadsAddedKeeps(v, paths[..k], p, stamp);
      var u := LoadsAdded(v, paths[..k], p, stamp);
      LinkedKeeps(u, LoadOf(paths[k].id, p, stamp));
    }
  }

  predicate ExecveFits(v: View, pid: string, r: Process, rekeyed: int, paths: seq<Path>)
    requires Keyed(v) && PidsKnown(v)
  {
    && ExecFits(v, pid, r, rekeyed)
    && (Executed(v, pid, r, rekeyed).1.Ends? ==> AllRoom(Executed(v, pid, r, rekeyed).0, paths))
  }

  /** No process or socket has the identifier of one of the files. */
  predicate AllRoom(v: View, paths: seq<Path>)
  {
    forall i | 0 <= i < |paths| :: Room(v, paths[i].id, File)
  }

  lemma ExecvedKeeps(v: View, pid: string, r: Process, rekeyed: int, paths: seq<Path>, stamp: Stamp)
    requires Consistent(v) && ExecveFits(v, pid, r, rekeyed, paths)
    ensures Consistent(Execved(v, pid, r, rekeyed, paths, stamp))
  {
    var (u, ends) := Executed(v, pid, r, rekeyed);
    ExecutedKeeps(v, pid, r, rekeyed);
    if ends.Ends? {
      FilesAddedKeeps(u, paths);
      FilesAddedFrame(u, paths);
      LoadsAddedKeeps(FilesAdded(u, paths), paths, ends.child, stamp);
      LinkedKeeps(LoadsAdded(FilesAdded(u, paths), paths, ends.child, stamp),
                  Between(ends.parent, ends.child, Execve, stamp));
    }
  }

  lemma LoggedInKeeps(v: View, pid: string, r: Process, rekeyed: int, ppid: string)
    requires Consistent(v) && LoginFits(v, pid, r, rekeyed)
    ensures Consistent(LoggedIn(v, pid, r, rekeyed, ppid))
  {
    if pid in v.pids {
      RekeyExact(v, v.pids[pid], r.exe, " ", rekeyed);
    } else {
      var u := Registered(v, pid, r);
      RegisteredKeeps(v, pid, r);
      if ppid in u.pids {
        SetPpidKeeps(u, u.pids[pid], ppid);
        SetFdsKeeps(SetPpid(u, u.pids[pid], ppid), r.id, Inherited(u.fds, u.pool[u.pids[ppid]].id, r.id));
      } else {
        SetFdsKeeps(u, r.id, []);
      }
    }
  }

  lemma FdInsertedKeeps(v: View, pid: string, fd: nat, x: int)
    requires Consistent(v) && pid in v.pids
    ensures Consistent(FdInserted(v, pid, fd, x))
  {
    var id := v.pool[v.pids[pid]].id;
    if id in v.fds {
      SetFdsKeeps(v, id, WithFd(v.fds[id], fd, x));
    }
  }

  lemma OpenedKeeps(v: View, pid: string, fd: nat, path: Path, create: bool, stamp: Stamp)
    requires Consistent(v) && (pid in v.pids ==> Room(v, path.id, File))
    ensures Consistent(Opened(v, pid, fd, path, create, stamp))
  {
    if pid in v.pids {
      var u := AddFile(v, path.id, path.file);
      var w := FdInserted(u, pid, fd, path.id);
      AddFileKeeps(v, path.id, path.file);
      FdInsertedKeeps(u, pid, fd, path.id);
      LinkedKeeps(w, CreateOf(w.pids[pid], path.id, stamp));
    }
  }

  // ---- When they break ------------------------------------------------------------------------------

  lemma ClonedBreaks(v: View, pid: string, r: Process, stamp: Stamp)
    requires Keyed(v) && PidsKnown(v) && Typed(v) && !Room(v, r.id, Proc)
    ensures Broken(Cloned(v, pid, r, stamp))
  {
    AddProcBreaks(v, r);
    BrokenSame(AddProc(v, r), Cloned(v, pid, r, stamp));
  }

  lemma VforkedBreaks(v: View, pid: string, r: Process, stamp: Stamp)
    requires Keyed(v) && PidsKnown(v) && Typed(v) && !VforkFits(v, pid, r)
    ensures Broken(Vforked(v, pid, r, stamp))
  {
    AddProcBreaks(v, r);
    BrokenSame(AddProc(v, r), Vforked(v, pid, r, stamp));
  }

  lemma ExecutedBreaks(v: View, pid: string, r: Process, rekeyed: int)
    requires Keyed(v) && PidsKnown(v) && Typed(v) && !ExecFits(v, pid, r, rekeyed)
    ensures Broken(Executed(v, pid, r, rekeyed).0)
  {
    if pid in v.pids && v.pool[v.pids[pid]].args == " " {
      RekeyBroken(v, v.pids[pid], r.exe, r.args, rekeyed);
    } else {
      AddProcBreaks(v, r);
      BrokenAlike(AddProc(v, r), Executed(v, pid, r, rekeyed).0);
    }
  }

  lemma {:induction false} LoadsAddedFrame(v: View, paths: seq<Path>, p: nat, stamp: Stamp)
    requires p < |v.pool|
    ensures LoadsAdded(v, paths, p, stamp).procs == v.procs && LoadsAdded(v, paths, p, stamp).sockets == v.sockets
    ensures LoadsAdded(v, paths, p, stamp).files == v.files
    decreases |paths|
  {
    if paths != [] {
      LoadsAddedFrame(v, paths[..|paths| - 1], p, stamp);
    }
  }

  lemma FilesAddedBreaks(v: View, paths: seq<Path>)
    requires Keyed(v) && PidsKnown(v) && Typed(v) && !AllRoom(v, paths)
    ensures Broken(FilesAdded(v, paths))
  {
    var i :| 0 <= i < |paths| && !Room(v, paths[i].id, File);
    FilesAddedFrame(v, paths);
    var w := FilesAdded(v, paths);
    assert Shared(paths[i].id, w.procs.Keys, w.files.Keys, w.sockets.Keys);
  }

  lemma ExecvedBreaks(v: View, pid: string, r: Process, rekeyed: int, paths: seq<Path>, stamp: Stamp)
    requires Consistent(v) && !ExecveFits(v, pid, r, rekeyed, paths)
    ensures Broken(Execved(v, pid, r, rekeyed, paths, stamp))
  {
    var (u, ends) := Executed(v, pid, r, rekeyed);
    if !ExecFits(v, pid, r, rekeyed) {
      ExecutedBreaks(v, pid, r, rekeyed);
    } else {
      ExecutedKeeps(v, pid, r, rekeyed);
      FilesAddedBreaks(u, paths);
    }
    if ends.Ends? {
      FilesAddedFrame(u, paths);
      if !ExecFits(v, pid, r, rekeyed) {
        BrokenStays(u, FilesAdded(u, paths));
      }
      LoadsAddedFrame(FilesAdded(u, paths), paths, ends.child, stamp);
      BrokenStays(FilesAdded(u, paths), Execved(v, pid, r, rekeyed, paths, stamp));
    }
  }

  lemma LoggedInBreaks(v: View, pid: string, r: Process, rekeyed: int, ppid: string)
    requires Keyed(v) && PidsKnown(v) && Typed(v) && !LoginFits(v, pid, r, rekeyed)
    ensures Broken(LoggedIn(v, pid, r, rekeyed, ppid))
  {
    if pid in v.pids {
      RekeyBroken(v, v.pids[pid], r.exe, " ", rekeyed);
    } else {
      LoginAddedBreaks(v, pid, r, ppid);
    }
  }

  lemma LoginAddedBreaks(v: View, pid: string, r: Process, ppid: string)
    requires Keyed(v) && PidsKnown(v) && Typed(v) && !Room(v, r.id, Proc)
    ensures Broken(LoginAdded(v, pid, r, ppid))
  {
    AddProcBreaks(v, r);
    var u, w := Registered(v, pid, r), LoginAdded(v, pid, r, ppid);
    BrokenSame(AddProc(v, r), u);
    if ppid in u.pids {
      SetPpidStaysBroken(u, u.pids[pid], ppid);
      BrokenSame(SetPpid(u, u.pids[pid], ppid), w);
    } else {
      BrokenSame(u, w);
    }
  }

  lemma OpenedBreaks(v: View, pid: string, fd: nat, path: Path, create: bool, stamp: Stamp)
    requires Keyed(v) && PidsKnown(v) && Typed(v) && pid in v.pids && !Room(v, path.id, File)
    ensures Broken(Opened(v, pid, fd, path, create, stamp))
  {
    AddFileBreaks(v, path.id, path.file);
    BrokenSame(AddFile(v, path.id, path.file), Opened(v, pid, fd, path, create, stamp));
  }

  // ---- Each call keeps the tables consistent exactly when the identifiers it makes are not taken ----

  lemma RegisteredExact(v: View, pid: string, r: Process)
    requires Consistent(v)
    ensures Consistent(Registered(v, pid, r)) <==> Room(v, r.id, Proc)
  {
    if Room(v, r.id, Proc) {
      RegisteredKeeps(v, pid, r);
    } else {
      AddProcBreaks(v, r);
      BrokenStays(AddProc(v, r), Registered(v, pid, r));
      BrokenInconsistent(Registered(v, pid, r));
    }
  }

  lemma ClonedExact(v: View, pid: string, r: Process, stamp: Stamp)
    requires Consistent(v)
    ensures Consistent(Cloned(v, pid, r, stamp)) <==> Room(v, r.id, Proc)
  {
    if Room(v, r.id, Proc) {
      ClonedKeeps(v, pid, r, stamp);
    } else {
      ClonedBreaks(v, pid, r, stamp);
      BrokenInconsistent(Cloned(v, pid, r, stamp));
    }
  }

  lemma VforkedExact(v: View, pid: string, r: Process, stamp: Stamp)
    requires Consistent(v)
    ensures Consistent(Vforked(v, pid, r, stamp)) <==> VforkFits(v, pid, r)
  {
    if VforkFits(v, pid, r) {
      VforkedKeeps(v, pid, r, stamp);
    } else {
      VforkedBreaks(v, pid, r, stamp);
      BrokenInconsistent(Vforked(v, pid, r, stamp));
    }
  }

  lemma ExecvedExact(v: View, pid: string, r: Process, rekeyed: int, paths: seq<Path>, stamp: Stamp)
    requires Consistent(v)
    ensures Consistent(Execved(v, pid, r, rekeyed, paths, stamp)) <==> ExecveFits(v, pid, r, rekeyed, paths)
  {
    if ExecveFits(v, pid, r, rekeyed, paths) {
      ExecvedKeeps(v, pid, r, rekeyed, paths, stamp);
    } else {
      ExecvedBreaks(v, pid, r, rekeyed, paths, stamp);
      BrokenInconsistent(Execved(v, pid, r, rekeyed, paths, stamp));
    }
  }

  lemma LoggedInExact(v: View, pid: string, r: Process, rekeyed: int, ppid: string)
    requires Consistent(v)
    ensures Consistent(LoggedIn(v, pid, r, rekeyed, ppid)) <==> LoginFits(v, pid, r, rekeyed)
  {
    if LoginFits(v, pid, r, rekeyed) {
      LoggedInKeeps(v, pid, r, rekeyed, ppid);
    } else {
      LoggedInBreaks(v, pid, r, rekeyed, ppid);
      BrokenInconsistent(LoggedIn(v, pid, r, rekeyed, ppid));
    }
  }

  lemma OpenedExact(v: View, pid: string, fd: nat, path: Path, create: bool, stamp: Stamp)
    requires Consistent(v)
    ensures Consistent(Opened(v, pid, fd, path, create, stamp)) <==> (pid in v.pids ==> Room(v, path.id, File))
  {
    if (pid in v.pids ==> Room(v, path.id, File)) {
      OpenedKeeps(v, pid, fd, path, create, stamp);
    } else {
      OpenedBreaks(v, pid, fd, path, create, stamp);
      BrokenInconsistent(Opened(v, pid, fd, path, create, stamp));
    }
  }

  /** No file or process has the new identifier, and no listed edge ends in the socket under the old. */
  predicate RenameFits(v: View, from: int, to: int)
  {
    Room(v, to, Socket) && (to == from || NoneListedAt(v, {SocketEnd(from)}))
  }

  lemma SocketEndsOne(s: int)
    ensures SocketEnds({s}) == {SocketEnd(s)}
  {
  }

  lemma PutBack<V>(m: map<int, V>, k: int, x: V)
    requires k in m
    ensures (m - {k})[k := x] == m[k := x] && (m[k] == x ==> m[k := x] == m)
  {
  }

  lemma SameSocketRenamed(v: View, from: int, name: string)
    requires Consistent(v) && from in v.sockets
    ensures Consistent(AddSocket(DropSockets(v, {from}), from, name))
  {
    var w := AddSocket(DropSockets(v, {from}), from, name);
    assert v.nodes[from] == Socket;
    PutBack(v.nodes, from, Socket);
    PutBack(v.sockets, from, SocketInfo(name));
    assert w == v.(sockets := v.sockets[from := SocketInfo(name)]);
    RenamedInPlace(v, from, name);
  }

  lemma OtherSocketRenamed(v: View, from: int, to: int, name: string)
    requires Consistent(v) && from in v.sockets && to != from
    ensures Consistent(AddSocket(DropSockets(v, {from}), to, name)) <==> RenameFits(v, from, to)
  {
    var d := DropSockets(v, {from});
    var u := AddSocket(d, to, name);
    DropSocketsExact(v, {from});
    SocketEndsOne(from);
    if NoneListedAt(v, {SocketEnd(from)}) {
      AddSocketKeeps(d, to, name);
    } else {
      LostEnd(v, from, u);
    }
  }

  lemma LostEnd(v: View, from: int, u: View)
    requires !NoneListedAt(v, {SocketEnd(from)}) && u.links == v.links && u.listed == v.listed && from !in u.sockets
    ensures !Reachable(u)
  {
    var i :| v.listed <= i < |v.links| && (v.links[i].from == SocketEnd(from) || v.links[i].to == SocketEnd(from));
    assert !LinkKept(u, u.links[i]);
  }

  /** The tables stay consistent exactly when the renaming fits. */
  lemma SocketRenamedKeeps(v: View, from: int, to: int, name: string)
    requires Consistent(v) && from in v.sockets
    ensures Consistent(SocketRenamed(v, from, to, name)) <==> RenameFits(v, from, to)
  {
    var u, w := AddSocket(DropSockets(v, {from}), to, name), SocketRenamed(v, from, to, name);
    assert w == u.(fds := w.fds) && u == w.(fds := u.fds) && w.fds.Keys == u.fds.Keys;
    if to == from {
      SameSocketRenamed(v, from, name);
      assert Room(v, to, Socket);
    } else {
      OtherSocketRenamed(v, from, to, name);
    }
    if Consistent(u) { FdsOnly(u, w); }
    if Consistent(w) { FdsOnly(w, u); }
  }

  lemma FdsOnly(v: View, w: View)
    requires Consistent(v) && w == v.(fds := w.fds) && w.fds.Keys == v.fds.Keys
    ensures Consistent(w)
  {
    EndsStay(v, w);
    assert forall k :: k in w.fds <==> k in v.fds;
  }
}
