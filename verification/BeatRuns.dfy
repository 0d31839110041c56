/** Whole runs of the Auditbeat front end: the loading of what was found running, the calls of logs,
    the recovery of process information, and the clean-up at the end of each log. */
module BeatRuns {
  import opened Records
  import opened Rekeying
  import opened NodeTables
  import opened SystemCalls
  import opened ObjectCalls
  import opened BeatTables
  import opened Recovery

  /** The identifier of the known process under this pid once it has these names. */
  function Renamed(hasher: Hasher, v: View, pid: string, exe: string, args: string): int
    requires PidsKnown(v)
  {
    if pid in v.pids then hasher(v.pool[v.pids[pid]].pid + exe + args) else 0
  }

  // ---- Calls that make processes ----------------------------------------------------------------

  datatype ProcCall =
    | CloneCall(pid: string, ppid: string, stamp: Stamp)
    | VforkCall(pid: string, ppid: string, stamp: Stamp)
    | ExecveCall(pid: string, exe: string, args: string, ppid: string, paths: seq<Path>, stamp: Stamp)
    | LoginCall(pid: string, exe: string, ppid: string)
    | LoadProcCall(pid: string, exe: string, args: string, ppid: string)

  function AfterProcCall(hasher: Hasher, v: View, c: ProcCall): View
    requires Keyed(v) && PidsKnown(v)
  {
    match c
    case CloneCall(pid, ppid, stamp) => Cloned(v, pid, NewProcess(hasher, pid, " ", " ", ppid), stamp)
    case VforkCall(pid, ppid, stamp) => Vforked(v, pid, NewProcess(hasher, pid, " ", " ", ppid), stamp)
    case ExecveCall(pid, exe, args, ppid, paths, stamp) =>
      Execved(v, pid, NewProcess(hasher, pid, exe, args, ppid), Renamed(hasher, v, pid, exe, args), paths, stamp)
    case LoginCall(pid, exe, ppid) =>
      LoggedIn(v, pid, NewProcess(hasher, pid, exe, " ", " "), Renamed(hasher, v, pid, exe, " "), ppid)
    case LoadProcCall(pid, exe, args, ppid) => Registered(v, pid, NewProcess(hasher, pid, exe, args, ppid))
  }

  /** The identifiers that a call makes are not taken by other nodes: those of new nodes not by nodes
      of another kind, those of re-keyed processes not by any. */
  predicate ProcCallFits(hasher: Hasher, v: View, c: ProcCall)
    requires Keyed(v) && PidsKnown(v)
  {
    match c
    case CloneCall(pid, ppid, stamp) => Room(v, NewProcess(hasher, pid, " ", " ", ppid).id, Proc)
    case VforkCall(pid, ppid, stamp) => VforkFits(v, pid, NewProcess(hasher, pid, " ", " ", ppid))
    case ExecveCall(pid, exe, args, ppid, paths, stamp) =>
      ExecveFits(v, pid, NewProcess(hasher, pid, exe, args, ppid), Renamed(hasher, v, pid, exe, args), paths)
    case LoginCall(pid, exe, ppid) =>
      LoginFits(v, pid, NewProcess(hasher, pid, exe, " ", " "), Renamed(hasher, v, pid, exe, " "))
    case LoadProcCall(pid, exe, args, ppid) => Room(v, NewProcess(hasher, pid, exe, args, ppid).id, Proc)
  }

  lemma ProcCallExact(hasher: Hasher, v: View, c: ProcCall)
    requires Consistent(v)
    ensures Consistent(AfterProcCall(hasher, v, c)) <==> ProcCallFits(hasher, v, c)
  {
    match c
    case CloneCall(pid, ppid, stamp) => ClonedExact(v, pid, NewProcess(hasher, pid, " ", " ", ppid), stamp);
    case VforkCall(pid, ppid, stamp) => VforkedExact(v, pid, NewProcess(hasher, pid, " ", " ", ppid), stamp);
    case ExecveCall(pid, exe, args, ppid, paths, stamp) =>
      ExecvedExact(v, pid, NewProcess(hasher, pid, exe, args, ppid), Renamed(hasher, v, pid, exe, args), paths, stamp);
    case LoginCall(pid, exe, ppid) =>
      LoggedInExact(v, pid, NewProcess(hasher, pid, exe, " ", " "), Renamed(hasher, v, pid, exe, " "), ppid);
    case LoadProcCall(pid, exe, args, ppid) => RegisteredExact(v, pid, NewProcess(hasher, pid, exe, args, ppid));
  }

  // ---- Calls that make files --------------------------------------------------------------------

  datatype FileCall =
    | OpenCall(pid: string, fd: nat, path: Path, create: bool, stamp: Stamp)
    | PipeCall(pid: string, fd0: nat, fd1: nat, path: Path)
    | DirectoryCall(pid: string, path: Path, made: bool, stamp: Stamp)
    | FilesCall(pid: string, acts: seq<FileAct>, stamp: Stamp)
    | LoadFdCall(pid: string, entries: seq<FdEntry>)

  function AfterFileCall(v: View, c: FileCall): View
    requires PidsKnown(v)
  {
    match c
    case OpenCall(pid, fd, path, create, stamp) => Opened(v, pid, fd, path, create, stamp)
    case PipeCall(pid, fd0, fd1, path) => PipeMade(v, pid, fd0, fd1, path)
    case DirectoryCall(pid, path, made, stamp) => DirectoryUsed(v, pid, path, made, stamp)
    case FilesCall(pid, acts, stamp) => FilesUsed(v, pid, acts, stamp)
    case LoadFdCall(pid, entries) => FdsLoaded(v, pid, entries)
  }

  predicate FileCallFits(v: View, c: FileCall)
  {
    match c
    case OpenCall(pid, fd, path, create, stamp) => pid in v.pids ==> Room(v, path.id, File)
    case PipeCall(pid, fd0, fd1, path) => pid in v.pids ==> Room(v, path.id, File)
    case DirectoryCall(pid, path, made, stamp) => Room(v, path.id, File)
    case FilesCall(pid, acts, stamp) => pid in v.pids ==> ActsFit(v, acts)
    case LoadFdCall(pid, entries) => pid in v.pids ==> EntriesFit(v, entries)
  }

  lemma FileCallExact(v: View, c: FileCall)
    requires Consistent(v)
    ensures Consistent(AfterFileCall(v, c)) <==> FileCallFits(v, c)
  {
    match c
    case OpenCall(pid, fd, path, create, stamp) => OpenedExact(v, pid, fd, path, create, stamp);
    case PipeCall(pid, fd0, fd1, path) => PipeMadeExact(v, pid, fd0, fd1, path);
    case DirectoryCall(pid, path, made, stamp) => DirectoryUsedExact(v, pid, path, made, stamp);
    case FilesCall(pid, acts, stamp) => FilesUsedExact(v, pid, acts, stamp);
    case LoadFdCall(pid, entries) => FdsLoadedExact(v, pid, entries);
  }

  // ---- Calls that make sockets ------------------------------------------------------------------

  datatype SocketCall =
    | MakeSocketCall(pid: string, fd: nat, id: int, name: string)
    | ConnectCall(pid: string, fd: nat, internal: bool, id: int, name: string, stamp: Stamp)
    | GetpeernameCall(pid: string, fd: nat, id: int, name: string, stamp: Stamp)
    | LoadSocketCall(was: int, id: int, name: string)

  function AfterSocketCall(v: View, c: SocketCall): View
    requires PidsKnown(v)
  {
    match c
    case MakeSocketCall(pid, fd, id, name) => SocketMade(v, pid, fd, id, name)
    case ConnectCall(pid, fd, internal, id, name, stamp) => Connected(v, pid, fd, internal, id, name, stamp)
    case GetpeernameCall(pid, fd, id, name, stamp) => PeerNamed(v, pid, fd, id, name, stamp)
    case LoadSocketCall(was, id, name) => if was in v.sockets then SocketRenamed(v, was, id, name) else v
  }

  predicate SocketCallFits(v: View, c: SocketCall)
  {
    match c
    case MakeSocketCall(pid, fd, id, name) => pid in v.pids ==> Room(v, id, Socket)
    case ConnectCall(pid, fd, internal, id, name, stamp) => pid in v.pids && !internal ==> Room(v, id, Socket)
    case GetpeernameCall(pid, fd, id, name, stamp) => pid in v.pids ==> Room(v, id, Socket)
    case LoadSocketCall(was, id, name) => was in v.sockets ==> RenameFits(v, was, id)
  }

  lemma SocketLoadedExact(v: View, was: int, id: int, name: string)
    requires Consistent(v)
    ensures Consistent(AfterSocketCall(v, LoadSocketCall(was, id, name))) <==>
            SocketCallFits(v, LoadSocketCall(was, id, name))
  {
    if was in v.sockets {
      SocketRenamedKeeps(v, was, id, name);
    }
  }

  lemma SocketCallExact(v: View, c: SocketCall)
    requires Consistent(v)
    ensures Consistent(AfterSocketCall(v, c)) <==> SocketCallFits(v, c)
  {
    match c
    case MakeSocketCall(pid, fd, id, name) => SocketMadeExact(v, pid, fd, id, name);
    case ConnectCall(pid, fd, internal, id, name, stamp) => ConnectedExact(v, pid, fd, internal, id, name, stamp);
    case GetpeernameCall(pid, fd, id, name, stamp) => PeerNamedExact(v, pid, fd, id, name, stamp);
    case LoadSocketCall(was, id, name) => SocketLoadedExact(v, was, id, name);
  }

  // ---- Calls on known nodes ---------------------------------------------------------------------

  datatype EdgeCall =
    | TransferCall(pid: string, fd: nat, how: Transfer, stamp: Stamp)
    | DupCall(pid: string, from: nat, to: nat)
    | KillCall(pid: string, victim: string, stamp: Stamp)

  function AfterEdgeCall(v: View, c: EdgeCall): View
    requires PidsKnown(v)
  {
    match c
    case TransferCall(pid, fd, how, stamp) => Transferred(v, pid, fd, how, stamp)
    case DupCall(pid, from, to) => FdDupped(v, pid, from, to)
    case KillCall(pid, victim, stamp) => Killed(v, pid, victim, stamp)
  }

  /** These make no identifier and always fit. */
  lemma EdgeCallKeeps(v: View, c: EdgeCall)
    requires Consistent(v)
    ensures Consistent(AfterEdgeCall(v, c))
  {
    match c
    case TransferCall(pid, fd, how, stamp) => TransferredKeeps(v, pid, fd, how, stamp);
    case DupCall(pid, from, to) => FdDuppedKeeps(v, pid, from, to);
    case KillCall(pid, victim, stamp) => KilledKeeps(v, pid, victim, stamp);
  }

  // ---- Calls ------------------------------------------------------------------------------------

  datatype Call = OnProc(p: ProcCall) | OnFile(f: FileCall) | OnSocket(s: SocketCall) | OnKnown(e: EdgeCall)

  function AfterCall(hasher: Hasher, v: View, c: Call): View
    requires Keyed(v) && PidsKnown(v)
  {
    match c
    case OnProc(p) => AfterProcCall(hasher, v, p)
    case OnFile(f) => AfterFileCall(v, f)
    case OnSocket(s) => AfterSocketCall(v, s)
    case OnKnown(e) => AfterEdgeCall(v, e)
  }

  predicate CallFits(hasher: Hasher, v: View, c: Call)
    requires Keyed(v) && PidsKnown(v)
  {
    match c
    case OnProc(p) => ProcCallFits(hasher, v, p)
    case OnFile(f) => FileCallFits(v, f)
    case OnSocket(s) => SocketCallFits(v, s)
    case OnKnown(e) => true
  }

  /** Starting from consistent tables, a call leaves them consistent exactly when it fits. */
  lemma CallExact(hasher: Hasher, v: View, c: Call)
    requires Consistent(v)
    ensures Consistent(AfterCall(hasher, v, c)) <==> CallFits(hasher, v, c)
  {
    match c
    case OnProc(p) => ProcCallExact(hasher, v, p);
    case OnFile(f) => FileCallExact(v, f);
    case OnSocket(s) => SocketCallExact(v, s);
    case OnKnown(e) => EdgeCallKeeps(v, e);
  }

  /** Every call of the list fits the tables it finds. */
  ghost predicate CallsFit(hasher: Hasher, v: View, calls: seq<Call>)
    requires Consistent(v)
    decreases |calls|
  {
    if calls == [] then true
    else if CallFits(hasher, v, calls[0]) then
      CallExact(hasher, v, calls[0]);
      CallsFit(hasher, AfterCall(hasher, v, calls[0]), calls[1..])
    else false
  }

  ghost function AfterCalls(hasher: Hasher, v: View, calls: seq<Call>): (w: View)
    requires Consistent(v) && CallsFit(hasher, v, calls)
    ensures Consistent(w)
    decreases |calls|
  {
    if calls == [] then v
    else
      CallExact(hasher, v, calls[0]);
      AfterCalls(hasher, AfterCall(hasher, v, calls[0]), calls[1..])
  }

  // ---- Runs -------------------------------------------------------------------------------------

  /** What happens to the tables: a call, and at the end of each log the recovery of names, the making
      of the edge table, and the removal of pipes and of local sockets. */
  datatype Step = Called(c: Call) | Recovering | TableMade | PipesDropped | SocketsDropped

  /** The recovered processes and their new identifiers. */
  ghost predicate RecoversTo(hasher: Hasher, v: View, pool: seq<Process>, ren: Renaming)
  {
    Recovered(hasher, v.pool, v.pids, pool) && Collected(v.procs, v.pool, pool, ren)
  }

  ghost predicate MovesTo(hasher: Hasher, v: View, pool: seq<Process>, ren: Renaming, order: seq<int>, w: View)
  {
    RecoversTo(hasher, v, pool, ren) && IsOrder(ren, order) && w == MovedAll(v.(pool := pool), ren, order)
  }

  /** The tables `v` may become `w` by this step; the recovery exchanges keys in any order. */
  ghost predicate StepTo(hasher: Hasher, v: View, s: Step, w: View)
  {
    match s
    case Called(c) => Keyed(v) && PidsKnown(v) && w == AfterCall(hasher, v, c)
    case Recovering => exists pool, ren, order :: MovesTo(hasher, v, pool, ren, order, w)
    case TableMade => w == v.(listed := |v.links|)
    case PipesDropped => w == DropFiles(v, Pipes(v.files))
    case SocketsDropped => w == DropSockets(v, LocalSockets(v.sockets))
  }

  /** A call makes no identifier that is taken; the recovered identifiers are fresh; and no edge that
      is still to be put into the edge table ends in a node that is dropped. */
  ghost predicate Fits(hasher: Hasher, v: View, s: Step)
    requires Keyed(v) && PidsKnown(v)
  {
    match s
    case Called(c) => CallFits(hasher, v, c)
    case Recovering => forall pool, ren | RecoversTo(hasher, v, pool, ren) :: Fresh(v.nodes.Keys, ren)
    case TableMade => true
    case PipesDropped => NoneListedAt(v, FileEnds(Pipes(v.files)))
    case SocketsDropped => NoneListedAt(v, SocketEnds(LocalSockets(v.sockets)))
  }

  lemma RecoveryExact(hasher: Hasher, v: View)
    requires Consistent(v)
    ensures Fits(hasher, v, Recovering) <==> forall w | StepTo(hasher, v, Recovering, w) :: Consistent(w)
  {
    if Fits(hasher, v, Recovering) {
      forall w | StepTo(hasher, v, Recovering, w)
        ensures Consistent(w)
      {
        var pool, ren, order :| MovesTo(hasher, v, pool, ren, order, w);
        RecoveredIds(hasher, v, pool, ren);
        MovedConsistent(v, ren, order, pool);
      }
    } else {
      var pool, ren :| RecoversTo(hasher, v, pool, ren) && !Fresh(v.nodes.Keys, ren);
      RecoveredIds(hasher, v, pool, ren);
      Within(v.procs.Keys, v.nodes.Keys);
      var order := SomeOrderBreaks(v, ren, pool);
      assert MovesTo(hasher, v, pool, ren, order, MovedAll(v.(pool := pool), ren, order));
    }
  }

  /** From consistent tables, a step leaves them consistent, however it is carried out, exactly when
      it fits. */
  lemma StepExact(hasher: Hasher, v: View, s: Step)
    requires Consistent(v)
    ensures Fits(hasher, v, s) <==> forall w | StepTo(hasher, v, s, w) :: Consistent(w)
  {
    match s
    case Called(c) =>
      CallExact(hasher, v, c);
      assert StepTo(hasher, v, s, AfterCall(hasher, v, c));
    case Recovering => RecoveryExact(hasher, v);
    case TableMade => UnlistedKeeps(v);
    case PipesDropped =>
      DropFilesExact(v, Pipes(v.files));
      assert StepTo(hasher, v, s, DropFiles(v, Pipes(v.files)));
    case SocketsDropped =>
      DropSocketsExact(v, LocalSockets(v.sockets));
      assert StepTo(hasher, v, s, DropSockets(v, LocalSockets(v.sockets)));
  }

  /** When the edge table has been made, the clean-up steps fit. */
  lemma CleanupFits(hasher: Hasher, v: View)
    requires Keyed(v) && PidsKnown(v) && v.listed == |v.links|
    ensures Fits(hasher, v, PipesDropped) && Fits(hasher, v, SocketsDropped)
    ensures DropFiles(v, Pipes(v.files)).listed == |DropFiles(v, Pipes(v.files)).links|
  {
    assert NoneListedAt(v, FileEnds(Pipes(v.files))) && NoneListedAt(v, SocketEnds(LocalSockets(v.sockets)));
  }

  /** A run of the front end: any steps in any order, from empty tables. */
  ghost predicate IsRun(hasher: Hasher, states: seq<View>, steps: seq<Step>)
  {
    && |states| == |steps| + 1 && states[0] == EMPTY_VIEW
    && forall i | 0 <= i < |steps| :: StepTo(hasher, states[i], steps[i], states[i + 1])
  }

  /** Every step up to this state fits. */
  ghost predicate AllFit(hasher: Hasher, states: seq<View>, steps: seq<Step>, n: nat)
    requires n <= |steps| < |states|
  {
    forall i | 0 <= i < n :: Keyed(states[i]) && PidsKnown(states[i]) && Fits(hasher, states[i], steps[i])
  }

  lemma {:induction false} RunConsistent(hasher: Hasher, states: seq<View>, steps: seq<Step>, n: nat)
    requires IsRun(hasher, states, steps) && n <= |steps| && AllFit(hasher, states, steps, n)
    ensures Consistent(states[n])
  {
    if n > 0 {
      RunConsistent(hasher, states, steps, n - 1);
      StepExact(hasher, states[n - 1], steps[n - 1]);
      assert StepTo(hasher, states[n - 1], steps[n - 1], states[n]);
    }
  }

  /** In every run whose steps fit, every process is found under its current identifier, every node
      is of the kind its table says, and the nodes are counted by kind. */
  lemma RunCounts(hasher: Hasher, states: seq<View>, steps: seq<Step>, n: nat)
    requires IsRun(hasher, states, steps) && n <= |steps| && AllFit(hasher, states, steps, n)
    ensures var v := states[n];
            Keyed(v) && Typed(v) && |v.nodes.Keys| == |v.procs.Keys| + |v.files.Keys| + |v.sockets.Keys|
            && |v.procs.Keys| == |v.pool|
  {
    RunConsistent(hasher, states, steps, n);
    NodeCount(states[n]);
    PoolCount(states[n]);
  }

  // ---- On the object ------------------------------------------------------------------------------

  /** Calls that give a process its names. */
  method NameStep(t: Tables, c: ProcCall)
    requires t.Valid() && (c.ExecveCall? || c.LoginCall?)
    modifies t`pool, t`procs, t`nodes, t`pids, t`fds, t`procInter
    modifies t`files, t`links, t`fileInter
    ensures t.Look() == AfterProcCall(t.hasher, old(t.Look()), c)
  {
    if c.ExecveCall? {
      t.SyscallExecve(c.pid, t.NewProc(c.pid, c.exe, c.args, c.ppid), c.paths, c.stamp);
    } else {
      var ok := t.InsertLoginProc(c.pid, c.exe, c.ppid);
    }
  }

  method ProcStep(t: Tables, c: ProcCall)
    requires t.Valid()
    modifies t`pool, t`procs, t`nodes, t`pids, t`fds, t`procInter
    modifies t`files, t`links, t`fileInter
    ensures t.Look() == AfterProcCall(t.hasher, old(t.Look()), c)
  {
    match c
    case CloneCall(pid, ppid, stamp) => t.SyscallClone(pid, ppid, stamp);
    case VforkCall(pid, ppid, stamp) => t.SyscallVfork(pid, ppid, stamp);
    case ExecveCall(_, _, _, _, _, _) => NameStep(t, c);
    case LoginCall(_, _, _) => NameStep(t, c);
    case LoadProcCall(pid, exe, args, ppid) => var p := t.Register(pid, t.NewProc(pid, exe, args, ppid));
  }

  method FileStep(t: Tables, c: FileCall)
    requires t.Valid()
    modifies t`files, t`sockets, t`nodes, t`fds, t`links, t`fileInter, t`procInter
    ensures t.Look() == AfterFileCall(old(t.Look()), c)
  {
    match c
    case OpenCall(pid, fd, path, create, stamp) => t.SyscallOpen(pid, fd, path, create, stamp);
    case PipeCall(pid, fd0, fd1, path) => t.SyscallPipe(pid, fd0, fd1, path);
    case DirectoryCall(pid, path, made, stamp) => t.SyscallDirectory(pid, path, made, stamp);
    case FilesCall(pid, acts, stamp) => t.SyscallFiles(pid, acts, stamp);
    case LoadFdCall(pid, entries) => t.LoadFd(pid, entries);
  }

  method SocketStep(t: Tables, c: SocketCall)
    requires t.Valid()
    modifies t`sockets, t`nodes, t`fds, t`links, t`fileInter, t`procInter
    ensures t.Look() == AfterSocketCall(old(t.Look()), c)
  {
    match c
    case MakeSocketCall(pid, fd, id, name) => t.SyscallSocket(pid, fd, id, name);
    case ConnectCall(pid, fd, internal, id, name, stamp) => t.SyscallConnect(pid, fd, internal, id, name, stamp);
    case GetpeernameCall(pid, fd, id, name, stamp) => t.SyscallGetpeername(pid, fd, id, name, stamp);
    case LoadSocketCall(was, id, name) =>
      if was in t.sockets {
        t.RenameSocket(was, id, name);
      }
  }

  method EdgeStep(t: Tables, c: EdgeCall)
    requires t.Valid()
    modifies t`sockets, t`fds, t`links, t`fileInter, t`procInter
    ensures t.Look() == AfterEdgeCall(old(t.Look()), c)
  {
    match c
    case TransferCall(pid, fd, how, stamp) => t.SyscallTransfer(pid, fd, how, stamp);
    case DupCall(pid, from, to) => t.SyscallDup(pid, from, to);
    case KillCall(pid, victim, stamp) => t.SyscallKill(pid, victim, stamp);
  }

  /** One call of the log. */
  method CallStep(t: Tables, c: Call)
    requires t.Valid()
    modifies t`pool, t`procs, t`files, t`sockets, t`nodes, t`pids
    modifies t`fds, t`procInter, t`fileInter, t`links
    ensures t.Look() == AfterCall(t.hasher, old(t.Look()), c)
    ensures t.Valid() <==> CallFits(t.hasher, old(t.Look()), c)
  {
    CallExact(t.hasher, t.Look(), c);
    match c
    case OnProc(p) => ProcStep(t, p);
    case OnFile(f) => FileStep(t, f);
    case OnSocket(s) => SocketStep(t, s);
    case OnKnown(e) => EdgeStep(t, e);
  }

  /** The calls of a log, one after the other. */
  method RunCalls(t: Tables, calls: seq<Call>)
    requires t.Valid() && CallsFit(t.hasher, t.Look(), calls)
    modifies t`pool, t`procs, t`files, t`sockets, t`nodes, t`pids
    modifies t`fds, t`procInter, t`fileInter, t`links
    ensures t.Look() == AfterCalls(t.hasher, old(t.Look()), calls) && t.Valid()
  {
    var i := 0;
    while i < |calls|
      invariant 0 <= i <= |calls| && t.Valid() && CallsFit(t.hasher, t.Look(), calls[i..])
      invariant AfterCalls(t.hasher, t.Look(), calls[i..]) == AfterCalls(t.hasher, old(t.Look()), calls)
    {
      assert calls[i..][0] == calls[i] && calls[i..][1..] == calls[i + 1..];
      CallStep(t, calls[i]);
      i := i + 1;
    }
  }
}
