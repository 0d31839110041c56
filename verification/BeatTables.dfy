/** The tables as an object, and the calls as its methods. */
module BeatTables {
  import opened Basics
  import opened Records
  import opened Rekeying
  import opened NodeTables
  import opened SystemCalls
  import opened ObjectCalls
  import opened Iteration

  class Tables {
    const hasher: Hasher
    var pool: seq<Process>
    var procs: map<int, nat>
    var files: map<int, FileInfo>
    var sockets: map<int, SocketInfo>
    var nodes: map<int, NodeType>
    var pids: map<string, nat>
    var fds: map<int, seq<int>>
    var procInter: map<int, seq<nat>>
    var fileInter: map<int, seq<nat>>
    var links: seq<Link>
    var listed: nat

    function Look(): View
      reads this
    {
      View(pool, procs, files, sockets, nodes, pids, fds, procInter, fileInter, links, listed)
    }

    ghost predicate Valid()
      reads this
    {
      Consistent(Look())
    }

    function NewProc(pid: string, exe: string, args: string, ppid: string): Process
    {
      NewProcess(hasher, pid, exe, args, ppid)
    }

    /** The identifier a process would have with this executable and these arguments. */
    function NewId(p: nat, exe: string, args: string): int
      requires p < |pool|
      reads this`pool
    {
      hasher(pool[p].pid + exe + args)
    }

    constructor (hasher: Hasher)
      ensures Valid() && this.hasher == hasher && Look() == EMPTY_VIEW
    {
      this.hasher := hasher;
      pool, procs, files, sockets, nodes, pids := [], map[], map[], map[], map[], map[];
      fds, procInter, fileInter, links, listed := map[], map[], map[], [], 0;
    }

    method InsertProc(r: Process) returns (p: nat)
      modifies this`pool, this`procs, this`nodes
      ensures Look() == AddProc(old(Look()), r)
      ensures r.id in procs && p == procs[r.id]
      ensures old(Valid()) ==> (Valid() <==> old(Room(Look(), r.id, Proc)))
    {
      if old(Valid()) { AddProcKeeps(old(Look()), r); }
      if r.id in procs {
        p := procs[r.id];
        return;
      }
      p := |pool|;
      pool, procs, nodes := pool + [r], procs[r.id := p], nodes[r.id := Proc];
    }

    method InsertPid(pid: string, p: nat)
      modifies this`pids
      ensures Look() == SetPid(old(Look()), pid, p)
    {
      pids := pids[pid := p];
    }

    method InsertFile(id: int, f: FileInfo)
      modifies this`files, this`nodes
      ensures Look() == AddFile(old(Look()), id, f)
      ensures old(Valid()) ==> (Valid() <==> old(Room(Look(), id, File)))
    {
      if old(Valid()) { AddFileKeeps(old(Look()), id, f); }
      if id in files {
        return;
      }
      files, nodes := files[id := f], nodes[id := File];
    }

    method InsertSocket(id: int, name: string)
      modifies this`sockets, this`nodes
      ensures Look() == AddSocket(old(Look()), id, name)
      ensures old(Valid()) ==> (Valid() <==> old(Room(Look(), id, Socket)))
    {
      if old(Valid()) { AddSocketKeeps(old(Look()), id, name); }
      if id in sockets {
        return;
      }
      sockets, nodes := sockets[id := SocketInfo(name)], nodes[id := Socket];
    }

    method InsertEdge(e: Link)
      modifies this`links
      ensures links == old(links) + [e]
    {
      links := links + [e];
    }

    /** Appends a position to the list under a key, which may have none yet. */
    static method Note(m: map<int, seq<nat>>, k: int, i: nat) returns (r: map<int, seq<nat>>)
      ensures r == Noting(m, k, i)
    {
      if k in m {
        r := m[k := m[k] + [i]];
      } else {
        r := m[k := [i]];
      }
    }

    /** A new edge, and its entries in the interaction lists its mark names. */
    method AddEdge(e: Link)
      requires LinkFits(e, |pool|)
      modifies this`links, this`fileInter, this`procInter
      ensures Look() == Linked(old(Look()), e)
    {
      InsertEdge(e);
      if e.mark != Unlisted {
        fileInter := Note(fileInter, ObjectOf(e), |links| - 1);
      }
      if e.mark == Both {
        procInter := Note(procInter, pool[ProcOf(e)].id, |links| - 1);
      }
    }

    method CopyFd(from: int, to: int)
      modifies this`fds
      ensures Look() == CopiedFds(old(Look()), from, to)
    {
      fds := fds[to := []];
      if from in fds {
        fds := fds[to := fds[from]];
      }
      assert fds == old(fds)[to := Inherited(old(fds), from, to)];
    }

    method InsertEmptyFd(k: int)
      modifies this`fds
      ensures Look() == SetFds(old(Look()), k, [])
    {
      fds := fds[k := []];
    }

    /** The key of an entry in each of the four tables is exchanged. */
    method ExchangeKeys(from: int, to: int)
      modifies this`procs, this`nodes, this`fds, this`procInter
      ensures Look() == MoveKeys(old(Look()), from, to)
    {
      procs := ExchangeMapKey(procs, from, to);
      nodes := ExchangeMapKey(nodes, from, to);
      fds := ExchangeMapKey(fds, from, to);
      procInter := ExchangeMapKey(procInter, from, to);
    }

    method SetProc(p: nat, exe: string, args: string)
      requires p < |pool|
      modifies this`pool
      ensures Look() == SetNames(old(Look()), p, exe, args, old(NewId(p, exe, args)))
    {
      pool := pool[p := pool[p].(exe := exe, args := args, id := NewId(p, exe, args))];
    }

    /** A new executable and new arguments, hence a new identifier; the entries in four tables follow. */
    method UpdateID(p: nat, exe: string, args: string)
      requires p < |pool|
      modifies this`pool, this`procs, this`nodes, this`fds, this`procInter
      ensures Look() == Rekey(old(Look()), p, exe, args, old(NewId(p, exe, args)))
      ensures old(Valid()) ==> (Valid() <==> old(NewId(p, exe, args) == pool[p].id || NewId(p, exe, args) !in nodes))
    {
      ghost var v := Look();
      var from := pool[p].id;
      SetProc(p, exe, args);
      ExchangeKeys(from, pool[p].id);
      if Consistent(v) { RekeyExact(v, p, exe, args, pool[p].id); }
    }

    method Register(pid: string, r: Process) returns (p: nat)
      modifies this`pool, this`procs, this`nodes, this`pids
      ensures Look() == Registered(old(Look()), pid, r)
      ensures pid in pids && p == pids[pid] && r.id in procs && procs[r.id] == p
    {
      p := InsertProc(r);
      InsertPid(pid, p);
    }

    method AddClone(pid: string, r: Process, stamp: Stamp)
      requires Keyed(Look()) && PidsKnown(Look())
      modifies this`pool, this`procs, this`nodes, this`pids, this`fds, this`links
      ensures Look() == Cloned(old(Look()), pid, r, stamp)
    {
      var p := Register(pid, r);
      if r.ppid in pids {
        CopyFd(pool[pids[r.ppid]].id, pool[p].id);
        InsertEdge(Between(pids[r.ppid], p, Clone, stamp));
      } else {
        InsertEmptyFd(pool[p].id);
      }
    }

    method SyscallClone(pid: string, ppid: string, stamp: Stamp)
      requires Valid()
      modifies this`pool, this`procs, this`nodes, this`pids, this`fds, this`links
      ensures Look() == Cloned(old(Look()), pid, NewProc(pid, " ", " ", ppid), stamp)
      ensures Valid() <==> Room(old(Look()), NewProc(pid, " ", " ", ppid).id, Proc)
    {
      var r := NewProc(pid, " ", " ", " ").(ppid := ppid);
      ClonedExact(Look(), pid, r, stamp);
      AddClone(pid, r, stamp);
    }

    method AddVfork(pid: string, r: Process, stamp: Stamp)
      requires Keyed(Look()) && PidsKnown(Look())
      modifies this`pool, this`procs, this`nodes, this`pids, this`fds, this`links
      ensures Look() == Vforked(old(Look()), pid, r, stamp)
    {
      if r.ppid !in pids {
        return;
      }
      var parent := pids[r.ppid];
      if pid in pids {
        InsertEdge(Between(parent, pids[pid], Vfork, stamp));
      } else {
        var p := AddChild(pid, r, parent);
        InsertEdge(Between(parent, p, Vfork, stamp));
      }
    }

    method SyscallVfork(pid: string, ppid: string, stamp: Stamp)
      requires Valid()
      modifies this`pool, this`procs, this`nodes, this`pids, this`fds, this`links
      ensures Look() == Vforked(old(Look()), pid, NewProc(pid, " ", " ", ppid), stamp)
      ensures Valid() <==> VforkFits(old(Look()), pid, NewProc(pid, " ", " ", ppid))
    {
      var r := NewProc(pid, " ", " ", " ").(ppid := ppid);
      VforkedExact(Look(), pid, r, stamp);
      AddVfork(pid, r, stamp);
    }

    /** A new process with a copy of its parent's descriptors. */
    method AddChild(pid: string, r: Process, parent: nat) returns (p: nat)
      requires Keyed(Look()) && parent < |pool|
      modifies this`pool, this`procs, this`nodes, this`pids, this`fds
      ensures var u := Registered(old(Look()), pid, r);
              Look() == CopiedFds(u, u.pool[parent].id, r.id) && p == u.pids[pid]
    {
      p := Register(pid, r);
      CopyFd(pool[parent].id, pool[p].id);
    }

    /** The three cases of an execution. */
    method ExecProcess(pid: string, r: Process) returns (ends: Ends)
      requires Keyed(Look()) && PidsKnown(Look()) && r == NewProc(pid, r.exe, r.args, r.ppid)
      modifies this`pool, this`procs, this`nodes, this`pids, this`fds, this`procInter
      ensures (Look(), ends) == Executed(old(Look()), pid, r, old(RekeyedId(pid, r)))
    {
      if pid !in pids {
        if r.ppid !in pids {
          return NoEnds;
        }
        var parent := pids[r.ppid];
        var p := AddChild(pid, r, parent);
        ends := Ends(parent, p);
      } else if pool[pids[pid]].args == " " {
        var p := pids[pid];
        UpdateID(p, r.exe, r.args);
        ends := if r.ppid in pids then Ends(pids[r.ppid], p) else NoEnds;
      } else {
        var parent := pids[pid];
        var p := AddChild(pid, r, parent);
        ends := Ends(parent, p);
      }
    }

    function RekeyedId(pid: string, r: Process): int
      reads this`pids, this`pool
    {
      if pid in pids && pids[pid] < |pool| then NewId(pids[pid], r.exe, r.args) else 0
    }

    method InsertFiles(paths: seq<Path>)
      modifies this`files, this`nodes
      ensures Look() == FilesAdded(old(Look()), paths)
    {
      assert paths[..0] == [];
      for k := 0 to |paths|
        invariant Look() == FilesAdded(old(Look()), paths[..k])
      {
        InsertFile(paths[k].id, paths[k].file);
        assert paths[..k + 1][..k] == paths[..k];
      }
      assert paths[..|paths|] == paths;
    }

    static lemma LoadsOneMore(v: View, paths: seq<Path>, k: nat, p: nat, stamp: Stamp)
      requires k < |paths| && p < |v.pool|
      ensures LoadsAdded(v, paths[..k + 1], p, stamp) ==
              Linked(LoadsAdded(v, paths[..k], p, stamp), LoadOf(paths[k].id, p, stamp))
    {
      assert paths[..k + 1][..k] == paths[..k];
    }

    method LoadFiles(paths: seq<Path>, p: nat, stamp: Stamp)
      requires p < |pool|
      modifies this`links, this`fileInter, this`procInter
      ensures Look() == LoadsAdded(old(Look()), paths, p, stamp)
    {
      assert paths[..0] == [];
      for k := 0 to |paths|
        invariant Look() == LoadsAdded(old(Look()), paths[..k], p, stamp)
      {
        LoadsOneMore(old(Look()), paths, k, p, stamp);
        AddEdge(LoadOf(paths[k].id, p, stamp));
      }
      assert paths[..|paths|] == paths;
    }

    method AddExecve(pid: string, r: Process, paths: seq<Path>, stamp: Stamp)
      requires Keyed(Look()) && PidsKnown(Look()) && r == NewProc(pid, r.exe, r.args, r.ppid)
      modifies this`pool, this`procs, this`nodes, this`pids, this`fds, this`procInter
      modifies this`files, this`links, this`fileInter
      ensures Look() == Execved(old(Look()), pid, r, old(RekeyedId(pid, r)), paths, stamp)
    {
      var ends := ExecProcess(pid, r);
      if ends.NoEnds? {
        return;
      }
      InsertFiles(paths);
      LoadFiles(paths, ends.child, stamp);
      InsertEdge(Between(ends.parent, ends.child, Execve, stamp));
    }

    method SyscallExecve(pid: string, r: Process, paths: seq<Path>, stamp: Stamp)
      requires Valid() && r == NewProc(pid, r.exe, r.args, r.ppid)
      modifies this`pool, this`procs, this`nodes, this`pids, this`fds, this`procInter
      modifies this`files, this`links, this`fileInter
      ensures Look() == Execved(old(Look()), pid, r, old(RekeyedId(pid, r)), paths, stamp)
      ensures Valid() <==> old(ExecveFits(Look(), pid, r, RekeyedId(pid, r), paths))
    {
      ExecvedExact(Look(), pid, r, RekeyedId(pid, r), paths, stamp);
      AddExecve(pid, r, paths, stamp);
    }

    method LoginNew(pid: string, r: Process, ppid: string)
      requires Keyed(Look()) && PidsKnown(Look()) && pid !in pids
      modifies this`pool, this`procs, this`nodes, this`pids, this`fds
      ensures Look() == LoginAdded(old(Look()), pid, r, ppid)
    {
      var p := Register(pid, r);
      if ppid in pids {
        pool := pool[p := pool[p].(ppid := ppid)];
        CopyFd(pool[pids[ppid]].id, pool[p].id);
      } else {
        InsertEmptyFd(pool[p].id);
      }
    }

    /** `ppid` is the parent that a later event of the process names, or "-1". */
    method InsertLoginProc(pid: string, exe: string, ppid: string) returns (ok: bool)
      requires Valid()
      modifies this`pool, this`procs, this`nodes, this`pids, this`fds, this`procInter
      ensures Look() == LoggedIn(old(Look()), pid, NewProc(pid, exe, " ", " "), old(LoginId(pid, exe)), ppid)
      ensures Valid() <==> old(LoginFits(Look(), pid, NewProc(pid, exe, " ", " "), LoginId(pid, exe)))
    {
      var r := NewProc(pid, exe, " ", " ");
      LoggedInExact(Look(), pid, r, LoginId(pid, exe), ppid);
      if pid in pids {
        if pool[pids[pid]].exe != " " {
          return false;
        }
        UpdateID(pids[pid], exe, " ");
      } else {
        LoginNew(pid, r, ppid);
      }
      ok := true;
    }

    function LoginId(pid: string, exe: string): int
      reads this`pids, this`pool
    {
      if pid in pids && pids[pid] < |pool| then NewId(pids[pid], exe, " ") else 0
    }

    method InsertFd(k: int, fd: nat, file: int)
      modifies this`fds
      ensures Look() == if k in old(fds) then SetFds(old(Look()), k, WithFd(old(fds)[k], fd, file)) else old(Look())
    {
      if k !in fds {
        return;
      }
      var vec := fds[k];
      if fd < |vec| {
        vec := vec[fd := file];
      } else {
        while |vec| < fd
          invariant |fds[k]| <= |vec| <= fd && vec == fds[k] + seq(|vec| - |fds[k]|, _ => 0)
        {
          vec := vec + [0];
        }
        vec := vec + [file];
      }
      fds := fds[k := vec];
    }

    method OpenFile(pid: string, fd: nat, path: Path, create: bool, stamp: Stamp)
      requires PidsKnown(Look())
      modifies this`files, this`nodes, this`fds, this`links, this`fileInter, this`procInter
      ensures Look() == Opened(old(Look()), pid, fd, path, create, stamp)
    {
      if pid !in pids {
        return;
      }
      InsertFile(path.id, path.file);
      InsertFd(pool[pids[pid]].id, fd, path.id);
      if create {
        AddEdge(CreateOf(pids[pid], path.id, stamp));
      }
    }

    method SyscallOpen(pid: string, fd: nat, path: Path, create: bool, stamp: Stamp)
      requires Valid()
      modifies this`files, this`nodes, this`fds, this`links, this`fileInter, this`procInter
      ensures Look() == Opened(old(Look()), pid, fd, path, create, stamp)
      ensures Valid() <==> old(pid in pids ==> Room(Look(), path.id, File))
    {
      OpenedExact(Look(), pid, fd, path, create, stamp);
      OpenFile(pid, fd, path, create, stamp);
    }

    static method Repoint(vec: seq<int>, from: int, to: int) returns (w: seq<int>)
      ensures w == Repointed(vec, from, to)
    {
      var i := 0;
      while i < |vec| && vec[i] != from
        invariant 0 <= i <= |vec| && forall j :: 0 <= j < i ==> vec[j] != from
      {
        i := i + 1;
      }
      assert i == FirstAt(vec, from);
      w := if i < |vec| then vec[i := to] else vec;
    }

    method RepointFds(from: int, to: int)
      modifies this`fds
      ensures Look() == FdsRepointed(old(Look()), from, to)
    {
      var before, todo := fds, fds.Keys;
      while todo != {}
        invariant todo <= before.Keys && fds.Keys == before.Keys
        invariant forall k | k in before :: fds[k] == if k in todo then before[k] else Repointed(before[k], from, to)
        decreases todo
      {
        var k := Pick(todo);
        var vec := Repoint(fds[k], from, to);
        fds, todo := fds[k := vec], todo - {k};
      }
      ghost var want := AllRepointed(before, from, to);
      forall k | k in fds ensures fds[k] == want[k] {
        assert k in before && k !in todo;
      }
      SameMap(fds, want);
    }

    /** One entry of the socket list: the socket found under `from` is entered again under the name
        the list gives, and descriptors follow. */
    method RenameSocket(from: int, to: int, name: string)
      requires Valid() && from in sockets
      modifies this`nodes, this`sockets, this`fds
      ensures Look() == SocketRenamed(old(Look()), from, to, name)
      ensures Valid() <==> old(RenameFits(Look(), from, to))
    {
      SocketRenamedKeeps(Look(), from, to, name);
      nodes, sockets := nodes - {from}, sockets - {from};
      InsertSocket(to, name);
      RepointFds(from, to);
    }

    // ---- Calls on files, sockets and descriptors ------------------------------------------------

    /** The vector of a process overwritten at an index that is in range. */
    method OverwriteFd(pid: string, fd: nat, x: int)
      requires PidsKnown(Look()) && pid in pids
      modifies this`fds
      ensures Look() == FdSet(old(Look()), pid, fd, x)
    {
      var id := pool[pids[pid]].id;
      if id in fds && fd < |fds[id]| {
        fds := fds[id := fds[id][fd := x]];
      }
    }

    static method DupEntry(vec: seq<int>, from: nat, to: nat) returns (w: seq<int>)
      ensures w == Dupped(vec, from, to)
    {
      var x := if from < |vec| then vec[from] else 0;
      w := if to < |vec| then vec[to := x] else vec;
      var gap := 0;
      while gap < to - |vec|
        invariant 0 <= gap && (to < |vec| ==> gap == 0) && (to >= |vec| ==> gap <= to - |vec|)
        invariant w == (if to < |vec| then vec[to := x] else vec) + seq(gap, _ => 0)
      {
        w, gap := w + [0], gap + 1;
      }
      w := w + [x];
    }

    method SyscallDup(pid: string, from: nat, to: nat)
      requires Valid()
      modifies this`fds
      ensures Look() == FdDupped(old(Look()), pid, from, to) && Valid()
    {
      FdDuppedKeeps(Look(), pid, from, to);
      if pid in pids && pool[pids[pid]].id in fds {
        var id := pool[pids[pid]].id;
        var vec := DupEntry(fds[id], from, to);
        fds := fds[id := vec];
      }
    }

    method SyscallSocket(pid: string, fd: nat, id: int, name: string)
      requires Valid()
      modifies this`sockets, this`nodes, this`fds
      ensures Look() == SocketMade(old(Look()), pid, fd, id, name)
      ensures Valid() <==> old(pid in pids ==> Room(Look(), id, Socket))
    {
      SocketMadeExact(Look(), pid, fd, id, name);
      if pid in pids {
        InsertSocket(id, name);
        InsertFd(pool[pids[pid]].id, fd, id);
      }
    }

    method MakePipe(pid: string, fd0: nat, fd1: nat, path: Path)
      requires PidsKnown(Look())
      modifies this`files, this`nodes, this`fds
      ensures Look() == PipeMade(old(Look()), pid, fd0, fd1, path)
    {
      if pid in pids {
        InsertFile(path.id, path.file);
        InsertFd(pool[pids[pid]].id, fd0, path.id);
        InsertFd(pool[pids[pid]].id, fd1, path.id);
      }
    }

    method SyscallPipe(pid: string, fd0: nat, fd1: nat, path: Path)
      requires Valid()
      modifies this`files, this`nodes, this`fds
      ensures Look() == PipeMade(old(Look()), pid, fd0, fd1, path)
      ensures Valid() <==> old(pid in pids ==> Room(Look(), path.id, File))
    {
      PipeMadeExact(Look(), pid, fd0, fd1, path);
      MakePipe(pid, fd0, fd1, path);
    }

    method SyscallConnect(pid: string, fd: nat, internal: bool, id: int, name: string, stamp: Stamp)
      requires Valid()
      modifies this`sockets, this`nodes, this`fds, this`links, this`fileInter, this`procInter
      ensures Look() == Connected(old(Look()), pid, fd, internal, id, name, stamp)
      ensures Valid() <==> old(pid in pids && !internal ==> Room(Look(), id, Socket))
    {
      ConnectedExact(Look(), pid, fd, internal, id, name, stamp);
      if pid !in pids {
        return;
      }
      if internal {
        OverwriteFd(pid, fd, -1);
        return;
      }
      InsertSocket(id, name);
      OverwriteFd(pid, fd, id);
      AddEdge(ToSocket(pids[pid], id, Connect, Both, stamp));
    }

    method SyscallGetpeername(pid: string, fd: nat, id: int, name: string, stamp: Stamp)
      requires Valid()
      modifies this`sockets, this`nodes, this`fds, this`links, this`fileInter, this`procInter
      ensures Look() == PeerNamed(old(Look()), pid, fd, id, name, stamp)
      ensures Valid() <==> old(pid in pids ==> Room(Look(), id, Socket))
    {
      PeerNamedExact(Look(), pid, fd, id, name, stamp);
      if pid !in pids {
        return;
      }
      InsertSocket(id, name);
      OverwriteFd(pid, fd, id);
      AddEdge(ToSocket(pids[pid], id, Getpeername, Unlisted, stamp));
    }

    /** Making and removing a directory: the node comes before the process is looked for. */
    method SyscallDirectory(pid: string, path: Path, made: bool, stamp: Stamp)
      requires Valid()
      modifies this`files, this`nodes, this`links, this`fileInter, this`procInter
      ensures Look() == DirectoryUsed(old(Look()), pid, path, made, stamp)
      ensures Valid() <==> old(Room(Look(), path.id, File))
    {
      DirectoryUsedExact(Look(), pid, path, made, stamp);
      InsertFile(path.id, path.file);
      if pid in pids {
        AddEdge(Link(ProcEnd(pids[pid]), FileEnd(path.id), if made then Mkdir else Rmdir, Both, stamp));
      }
    }

    static lemma ActsOneMore(v: View, acts: seq<FileAct>, k: nat, p: nat, stamp: Stamp)
      requires k < |acts| && p < |v.pool|
      ensures ActedOn(v, p, acts[..k + 1], stamp) ==
              Linked(AddFile(ActedOn(v, p, acts[..k], stamp), acts[k].path.id, acts[k].path.file),
                ActOf(p, acts[k], stamp))
    {
      assert acts[..k + 1][..k] == acts[..k];
    }

    method UseFile(p: nat, act: FileAct, stamp: Stamp)
      requires p < |pool|
      modifies this`files, this`nodes, this`links, this`fileInter, this`procInter
      ensures Look() == Linked(AddFile(old(Look()), act.path.id, act.path.file), ActOf(p, act, stamp))
    {
      InsertFile(act.path.id, act.path.file);
      AddEdge(ActOf(p, act, stamp));
    }

    method UseFiles(p: nat, acts: seq<FileAct>, stamp: Stamp)
      requires p < |pool|
      modifies this`files, this`nodes, this`links, this`fileInter, this`procInter
      ensures Look() == ActedOn(old(Look()), p, acts, stamp)
    {
      assert acts[..0] == [];
      for k := 0 to |acts|
        invariant Look() == ActedOn(old(Look()), p, acts[..k], stamp)
      {
        ActsOneMore(old(Look()), acts, k, p, stamp);
        UseFile(p, acts[k], stamp);
      }
      assert acts[..|acts|] == acts;
    }

    /** Unlinking, renaming and linking, path by path. */
    method SyscallFiles(pid: string, acts: seq<FileAct>, stamp: Stamp)
      requires Valid()
      modifies this`files, this`nodes, this`links, this`fileInter, this`procInter
      ensures Look() == FilesUsed(old(Look()), pid, acts, stamp)
      ensures Valid() <==> old(pid in pids ==> ActsFit(Look(), acts))
    {
      FilesUsedExact(Look(), pid, acts, stamp);
      if pid in pids {
        UseFiles(pids[pid], acts, stamp);
      }
    }

    /** The socket has been found under a descriptor; a message may tell its address. */
    method NameSocket(how: Transfer, s: int)
      requires s in sockets
      modifies this`sockets
      ensures Look() == Named(old(Look()), how, s)
    {
      if how.Receiving? || how.Sending? {
        if how.address.Some? && Contains(sockets[s].name, "socket") {
          sockets := sockets[s := SocketInfo(how.address.value)];
        }
      }
    }

    method UseSocket(how: Transfer, p: nat, s: int, stamp: Stamp)
      requires s in sockets && p < |pool|
      modifies this`sockets, this`links, this`fileInter, this`procInter
      ensures Look() == Linked(Named(old(Look()), how, s), TransferOf(how, p, SocketEnd(s), stamp))
    {
      NameSocket(how, s);
      AddEdge(TransferOf(how, p, SocketEnd(s), stamp));
    }

    method TransferData(pid: string, fd: nat, how: Transfer, stamp: Stamp)
      requires PidsKnown(Look())
      modifies this`sockets, this`links, this`fileInter, this`procInter
      ensures Look() == Transferred(old(Look()), pid, fd, how, stamp)
    {
      if pid !in pids {
        return;
      }
      var id := pool[pids[pid]].id;
      if id !in fds || fd >= |fds[id]| {
        return;
      }
      var x := fds[id][fd];
      if x == 0 && !how.Standard(fd) {
        return;
      }
      if x in files && (how.Reading? || how.Writing?) {
        AddEdge(TransferOf(how, pids[pid], FileEnd(x), stamp));
      } else if x in sockets {
        UseSocket(how, pids[pid], x, stamp);
      }
    }

    /** Reading, writing, receiving and sending. */
    method SyscallTransfer(pid: string, fd: nat, how: Transfer, stamp: Stamp)
      requires Valid()
      modifies this`sockets, this`links, this`fileInter, this`procInter
      ensures Look() == Transferred(old(Look()), pid, fd, how, stamp) && Valid()
    {
      TransferredKeeps(Look(), pid, fd, how, stamp);
      TransferData(pid, fd, how, stamp);
    }

    method SyscallKill(pid: string, victim: string, stamp: Stamp)
      requires Valid()
      modifies this`links, this`fileInter, this`procInter
      ensures Look() == Killed(old(Look()), pid, victim, stamp) && Valid()
    {
      KilledKeeps(Look(), pid, victim, stamp);
      if pid in pids && victim in pids {
        InsertEdge(Between(pids[pid], pids[victim], Kill, stamp));
      }
    }

    method InsertFdNode(n: FdNode)
      modifies this`files, this`sockets, this`nodes
      ensures Look() == NodeAdded(old(Look()), n)
    {
      match n
      case FdFile(path) => InsertFile(path.id, path.file);
      case FdSocket(id, name) => InsertSocket(id, name);
    }

    method InsertFdNodes(entries: seq<FdEntry>) returns (vec: seq<int>)
      modifies this`files, this`sockets, this`nodes
      ensures Look() == NodesAdded(old(Look()), entries) && vec == FdVector(entries, |entries|)
    {
      vec := seq(|entries|, _ => 0);
      assert entries[..0] == [];
      for k := 0 to |entries|
        invariant Look() == NodesAdded(old(Look()), entries[..k]) && vec == FdVector(entries, k)
      {
        InsertFdNode(entries[k].node);
        vec := WithFd(vec, entries[k].fd, NodeId(entries[k].node));
        assert entries[..k + 1][..k] == entries[..k];
      }
      assert entries[..|entries|] == entries;
    }

    /** The descriptors of one process that was found running. */
    method LoadFd(pid: string, entries: seq<FdEntry>)
      requires Valid()
      modifies this`files, this`sockets, this`nodes, this`fds
      ensures Look() == FdsLoaded(old(Look()), pid, entries)
      ensures Valid() <==> old(pid in pids ==> EntriesFit(Look(), entries))
    {
      FdsLoadedExact(Look(), pid, entries);
      if pid in pids {
        var vec := InsertFdNodes(entries);
        fds := fds[pool[pids[pid]].id := vec];
      }
    }
  }
}
