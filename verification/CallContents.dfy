/** What the calls of an Auditbeat log add to the tables, said of the edges, nodes and descriptors
    before and after alone. */
module CallContents {
  import opened Basics
  import opened Records
  import opened NodeTables
  import opened SystemCalls
  import opened ObjectCalls
  import opened Recovery
  import opened BeatRuns

  predicate Adds(v: View, w: View, es: seq<Link>)
  {
    w.links == v.links + es
  }

  /** The process behind a known pid. */
  function ProcEndOf(v: View, pid: string): End
    requires pid in v.pids
  {
    ProcEnd(v.pids[pid])
  }

  // ---- Calls that make processes ----------------------------------------------------------------

  /** The pid now leads to the process with the identifier of `r`, which is `r` itself unless that
      identifier was taken. */
  predicate Leads(v: View, w: View, pid: string, r: Process)
  {
    && pid in w.pids && w.pids == v.pids[pid := w.pids[pid]] && r.id in w.procs && w.pids[pid] == w.procs[r.id]
    && w.procs.Keys == v.procs.Keys + {r.id} && w.procs[r.id] < |w.pool|
    && (if r.id in v.procs then w.procs == v.procs && w.pool == v.pool && w.nodes == v.nodes
        else w.pool == v.pool + [r] && w.nodes == v.nodes[r.id := Proc])
  }

  /** The descriptors of one process, in a list of their own. */
  predicate FdsCopied(v: View, w: View, from: int, to: int)
  {
    w.fds == v.fds[to := if from in v.fds && from != to then v.fds[from] else []]
  }

  predicate CloneAdds(v: View, w: View, pid: string, r: Process, stamp: Stamp)
  {
    && Leads(v, w, pid, r)
    && if r.ppid in w.pids && w.pids[r.ppid] < |w.pool| then
         && Adds(v, w, [Link(ProcEndOf(w, r.ppid), ProcEndOf(w, pid), Clone, Unlisted, stamp)])
         && FdsCopied(v, w, w.pool[w.pids[r.ppid]].id, r.id)
       else Adds(v, w, []) && w.fds == v.fds[r.id := []]
  }

  predicate VforkAdds(v: View, w: View, pid: string, r: Process, stamp: Stamp)
    requires PidsKnown(v)
  {
    if r.ppid !in v.pids then w == v
    else
      && pid in w.pids
      && Adds(v, w, [Link(ProcEndOf(v, r.ppid), ProcEndOf(w, pid), Vfork, Unlisted, stamp)])
      && if pid in v.pids then w.fds == v.fds && w.pids == v.pids && w.pool == v.pool
         else Leads(v, w, pid, r) && FdsCopied(v, w, v.pool[v.pids[r.ppid]].id, r.id)
  }

  /** The files on a command line, each loaded by the process. */
  predicate LoadsThen(v: View, w: View, paths: seq<Path>, child: End, stamp: Stamp, last: Link)
  {
    && |w.links| == |v.links| + |paths| + 1 && v.links <= w.links && w.links[|w.links| - 1] == last
    && forall i :: 0 <= i < |paths| ==>
         w.links[|v.links| + i] == Link(FileEnd(paths[i].id), child, Load, Both, stamp) && paths[i].id in w.files
  }

  /** An execution leads from the parent of an unknown process, from the parent of one that was only
      created, and from a process that was executed before to its successor. */
  predicate ExecveAdds(v: View, w: View, pid: string, ppid: string, paths: seq<Path>, stamp: Stamp)
    requires PidsKnown(v)
  {
    if pid in v.pids && v.pool[v.pids[pid]].args != " " then
      pid in w.pids && LoadsThen(v, w, paths, ProcEndOf(w, pid), stamp,
                                 Link(ProcEndOf(v, pid), ProcEndOf(w, pid), Execve, Unlisted, stamp))
    else if ppid in v.pids then
      pid in w.pids && LoadsThen(v, w, paths, ProcEndOf(w, pid), stamp,
                                 Link(ProcEndOf(v, ppid), ProcEndOf(w, pid), Execve, Unlisted, stamp))
    else w.links == v.links && w.files == v.files
  }

  /** The process that the pid leads to is `r`, or the one that was created under the pid, with the new
      names and identifier. */
  predicate ExecveNames(v: View, w: View, pid: string, r: Process, renamed: int)
    requires PidsKnown(v)
  {
    if pid in v.pids && v.pool[v.pids[pid]].args == " " then
      var q := v.pool[v.pids[pid]];
      && w.pids == v.pids
      && w.pool == v.pool[v.pids[pid] := Process(q.pid, r.exe, r.args, q.ppid, renamed)]
    else if pid in v.pids || r.ppid in v.pids then
      && pid in w.pids && w.pids == v.pids[pid := w.pids[pid]] && w.pids[pid] < |w.pool|
      && w.pool[w.pids[pid]].id == r.id && (r.id !in v.procs ==> w.pool == v.pool + [r])
      && FdsCopied(v, w, v.pool[v.pids[if pid in v.pids then pid else r.ppid]].id, r.id)
    else w == v
  }

  /** What a login of an unknown process leaves. */
  predicate LoginMade(v: View, w: View, pid: string, r: Process, ppid: string)
  {
    && w.links == v.links && pid in w.pids && w.pids == v.pids[pid := w.pids[pid]] && w.pids[pid] < |w.pool|
    && w.pool[w.pids[pid]].id == r.id
    && (r.id !in v.procs ==> w.pool == v.pool + [if ppid in w.pids then r.(ppid := ppid) else r])
  }

  /** A login names a process without an executable, or makes a process. */
  predicate LoginAdds(v: View, w: View, pid: string, r: Process, renamed: int, ppid: string)
    requires PidsKnown(v)
  {
    && w.links == v.links
    && if pid in v.pids then
         var q := v.pool[v.pids[pid]];
         if q.exe != " " then w == v
         else w.pids == v.pids && w.pool == v.pool[v.pids[pid] := Process(q.pid, r.exe, " ", q.ppid, renamed)]
       else LoginMade(v, w, pid, r, ppid)
  }

  /** The identifier of a process that is known already once it has other names. */
  function NewId(hasher: Hasher, v: View, pid: string, exe: string, args: string): int
    requires PidsKnown(v)
  {
    if pid in v.pids then hasher(v.pool[v.pids[pid]].pid + exe + args) else 0
  }

  predicate ProcCallAdds(hasher: Hasher, v: View, w: View, c: ProcCall)
    requires PidsKnown(v)
  {
    match c
    case CloneCall(pid, ppid, stamp) =>
      CloneAdds(v, w, pid, Process(pid, " ", " ", ppid, hasher(pid + " " + " ")), stamp)
    case VforkCall(pid, ppid, stamp) =>
      VforkAdds(v, w, pid, Process(pid, " ", " ", ppid, hasher(pid + " " + " ")), stamp)
    case ExecveCall(pid, exe, args, ppid, paths, stamp) =>
      && ExecveAdds(v, w, pid, ppid, paths, stamp)
      && ExecveNames(v, w, pid, Process(pid, exe, args, ppid, hasher(pid + exe + args)),
                     NewId(hasher, v, pid, exe, args))
    case LoginCall(pid, exe, ppid) =>
      LoginAdds(v, w, pid, Process(pid, exe, " ", " ", hasher(pid + exe + " ")), NewId(hasher, v, pid, exe, " "), ppid)
    case LoadProcCall(pid, exe, args, ppid) =>
      Adds(v, w, []) && Leads(v, w, pid, Process(pid, exe, args, ppid, hasher(pid + exe + args)))
  }

  // ---- Calls that make files --------------------------------------------------------------------

  /** A file that is in the table keeps its entry; a new one gets a node. */
  predicate FileEntered(v: View, w: View, path: Path)
  {
    if path.id in v.files then w.files == v.files && w.nodes == v.nodes
    else w.files == v.files[path.id := path.file] && w.nodes == v.nodes[path.id := File]
  }

  predicate SocketEntered(v: View, w: View, id: int, name: string)
  {
    if id in v.sockets then w.sockets == v.sockets && w.nodes == v.nodes
    else w.sockets == v.sockets[id := SocketInfo(name)] && w.nodes == v.nodes[id := Socket]
  }

  /** The descriptors of a known process, if it has any. */
  function Vector(v: View, pid: string): Option<seq<int>>
    requires PidsKnown(v)
  {
    if pid !in v.pids then None
    else
      var id := v.pool[v.pids[pid]].id;
      if id in v.fds then Some(v.fds[id]) else None
  }

  /** Only this process may have other descriptors than before, and only if it had some. */
  predicate OthersKept(v: View, w: View, pid: string)
    requires PidsKnown(v) && pid in v.pids
  {
    w.fds.Keys == v.fds.Keys && forall k | k in v.fds && k != v.pool[v.pids[pid]].id :: w.fds[k] == v.fds[k]
  }

  /** These descriptors stand for `x`, and those between the old end and them for nothing. */
  predicate Put(a: seq<int>, b: seq<int>, fds: set<int>, x: int)
  {
    && |b| >= |a| && (forall fd | fd in fds :: 0 <= fd < |b| && b[fd] == x)
    && (|b| > |a| ==> |b| - 1 in fds)
    && forall i :: 0 <= i < |b| && i !in fds ==> b[i] == if i < |a| then a[i] else 0
  }

  predicate FdsPut(v: View, w: View, pid: string, fds: set<int>, x: int)
    requires PidsKnown(v) && PidsKnown(w) && pid in v.pids
  {
    && OthersKept(v, w, pid)
    && match (Vector(v, pid), Vector(w, pid))
       case (Some(a), Some(b)) => Put(a, b, fds, x)
       case (None, None) => true
       case _ => false
  }

  predicate OpenAdds(v: View, w: View, pid: string, fd: nat, path: Path, create: bool, stamp: Stamp)
    requires PidsKnown(v) && PidsKnown(w)
  {
    if pid !in v.pids then w == v
    else
      && FileEntered(v, w, path) && FdsPut(v, w, pid, {fd}, path.id)
      && Adds(v, w, if create then [Link(ProcEndOf(v, pid), FileEnd(path.id), Create, FileOnly, stamp)] else [])
  }

  predicate PipeAdds(v: View, w: View, pid: string, fd0: nat, fd1: nat, path: Path)
    requires PidsKnown(v) && PidsKnown(w)
  {
    if pid !in v.pids then w == v
    else FileEntered(v, w, path) && FdsPut(v, w, pid, {fd0, fd1}, path.id) && Adds(v, w, [])
  }

  /** A directory gets its node even from an unknown process. */
  predicate DirectoryAdds(v: View, w: View, pid: string, path: Path, made: bool, stamp: Stamp)
  {
    && FileEntered(v, w, path) && w.fds == v.fds
    && Adds(v, w, if pid !in v.pids then []
                  else if made then [Link(ProcEndOf(v, pid), FileEnd(path.id), Mkdir, Both, stamp)]
                  else [Link(ProcEndOf(v, pid), FileEnd(path.id), Rmdir, Both, stamp)])
  }

  /** Each file is created or deleted by the process. */
  predicate FilesAdd(v: View, w: View, pid: string, acts: seq<FileAct>, stamp: Stamp)
  {
    if pid !in v.pids then w == v
    else
      && |w.links| == |v.links| + |acts| && v.links <= w.links && w.fds == v.fds
      && forall i :: 0 <= i < |acts| ==>
           && acts[i].path.id in w.files
           && (acts[i].created ==>
                 w.links[|v.links| + i] == Link(ProcEndOf(v, pid), FileEnd(acts[i].path.id), Create, Both, stamp))
           && (!acts[i].created ==>
                 w.links[|v.links| + i] == Link(ProcEndOf(v, pid), FileEnd(acts[i].path.id), Delete, Both, stamp))
  }

  predicate EntryMade(w: View, n: FdNode)
  {
    match n
    case FdFile(path) => path.id in w.files
    case FdSocket(id, _) => id in w.sockets
  }

  /** The process has the descriptors of the entries and no others. */
  predicate LoadFdAdds(v: View, w: View, pid: string, entries: seq<FdEntry>)
    requires PidsKnown(v)
  {
    if pid !in v.pids then w == v
    else
      var id := v.pool[v.pids[pid]].id;
      && Adds(v, w, []) && w.fds.Keys == v.fds.Keys + {id} && (forall k | k in v.fds && k != id :: w.fds[k] == v.fds[k])
      && (forall i :: 0 <= i < |entries| ==> EntryMade(w, entries[i].node))
      && VectorOf(w.fds[id], entries, |entries|, |entries|)
  }

  /** What the last of the first `n` entries for a descriptor says. */
  function StandsFor(entries: seq<FdEntry>, n: nat, fd: nat): int
    requires n <= |entries|
  {
    if n == 0 then 0
    else if entries[n - 1].fd != fd then StandsFor(entries, n - 1, fd)
    else
      match entries[n - 1].node
      case FdFile(path) => path.id
      case FdSocket(id, _) => id
  }

  /** The first `n` entries, in a vector that started with room for `size` descriptors. */
  predicate VectorOf(vec: seq<int>, entries: seq<FdEntry>, n: nat, size: nat)
    requires n <= |entries|
  {
    && |vec| >= size && (forall i :: 0 <= i < n ==> entries[i].fd < |vec|)
    && forall fd :: 0 <= fd < |vec| ==> vec[fd] == StandsFor(entries, n, fd)
  }

  predicate FileCallAdds(v: View, w: View, c: FileCall)
    requires PidsKnown(v) && PidsKnown(w)
  {
    match c
    case OpenCall(pid, fd, path, create, stamp) => OpenAdds(v, w, pid, fd, path, create, stamp)
    case PipeCall(pid, fd0, fd1, path) => PipeAdds(v, w, pid, fd0, fd1, path)
    case DirectoryCall(pid, path, made, stamp) => DirectoryAdds(v, w, pid, path, made, stamp)
    case FilesCall(pid, acts, stamp) => FilesAdd(v, w, pid, acts, stamp)
    case LoadFdCall(pid, entries) => LoadFdAdds(v, w, pid, entries)
  }

  // ---- Calls that make sockets ------------------------------------------------------------------

  /** The descriptor, if there is one, stands for `x`. */
  predicate FdReplaced(v: View, w: View, pid: string, fd: nat, x: int)
    requires PidsKnown(v) && PidsKnown(w) && pid in v.pids
  {
    && OthersKept(v, w, pid)
    && match (Vector(v, pid), Vector(w, pid))
       case (Some(a), Some(b)) => if fd < |a| then b == a[fd := x] else b == a
       case (None, None) => true
       case _ => false
  }

  predicate SocketCallAdds(v: View, w: View, c: SocketCall)
    requires PidsKnown(v) && PidsKnown(w)
  {
    match c
    case MakeSocketCall(pid, fd, id, name) =>
      if pid !in v.pids then w == v
      else SocketEntered(v, w, id, name) && FdsPut(v, w, pid, {fd}, id) && Adds(v, w, [])
    case ConnectCall(pid, fd, internal, id, name, stamp) =>
      if pid !in v.pids then w == v
      else if internal then
        FdReplaced(v, w, pid, fd, -1) && w.sockets == v.sockets && w.nodes == v.nodes && Adds(v, w, [])
      else
        && SocketEntered(v, w, id, name) && FdReplaced(v, w, pid, fd, id)
        && Adds(v, w, [Link(ProcEndOf(v, pid), SocketEnd(id), Connect, Both, stamp)])
    case GetpeernameCall(pid, fd, id, name, stamp) =>
      if pid !in v.pids then w == v
      else
        && SocketEntered(v, w, id, name) && FdReplaced(v, w, pid, fd, id)
        && Adds(v, w, [Link(ProcEndOf(v, pid), SocketEnd(id), Getpeername, Unlisted, stamp)])
    case LoadSocketCall(was, id, name) =>
      && Adds(v, w, []) && (was !in v.sockets ==> w == v)
      && (was in v.sockets ==> w.sockets.Keys == v.sockets.Keys - {was} + {id})
      && (was in v.sockets && (id == was || id !in v.sockets) ==> w.sockets[id] == SocketInfo(name))
  }

  // ---- Calls on known nodes ---------------------------------------------------------------------

  /** What the descriptor stands for, unless it is closed. Only on the standard descriptors of the
      direction does zero not mean closed. */
  predicate Open(v: View, pid: string, fd: nat, how: Transfer)
    requires PidsKnown(v)
  {
    match Vector(v, pid)
    case None => false
    case Some(vec) =>
      fd < |vec| &&
      (vec[fd] == 0 ==>
         match how
         case Reading => fd == 0
         case Receiving(_) => fd == 0
         case Writing => fd == 1 || fd == 2
         case Sending(_) => fd == 1)
  }

  /** Data flows from what is read or received from, and to what is written or sent to. */
  predicate TransferAdds(v: View, w: View, pid: string, fd: nat, how: Transfer, stamp: Stamp)
    requires PidsKnown(v)
  {
    if !Open(v, pid, fd, how) then w == v
    else
      var (p, x) := (ProcEndOf(v, pid), Vector(v, pid).value[fd]);
      && w.pool == v.pool && w.pids == v.pids && w.fds == v.fds && w.nodes == v.nodes
      && match how
         case Reading =>
           if x in v.files then Adds(v, w, [Link(FileEnd(x), p, Read, Both, stamp)])
           else if x in v.sockets then Adds(v, w, [Link(SocketEnd(x), p, Recv, Both, stamp)])
           else w == v
         case Writing =>
           if x in v.files then Adds(v, w, [Link(p, FileEnd(x), Write, Both, stamp)])
           else if x in v.sockets then Adds(v, w, [Link(p, SocketEnd(x), Send, Both, stamp)])
           else w == v
         case Receiving(address) =>
           if x in v.sockets then
             Adds(v, w, [Link(SocketEnd(x), p, Recv, Both, stamp)]) && AddressTold(v, w, x, address)
           else w == v
         case Sending(address) =>
           if x in v.sockets then
             Adds(v, w, [Link(p, SocketEnd(x), Send, Both, stamp)]) && AddressTold(v, w, x, address)
           else w == v
  }

  /** A socket that is named after its descriptor gets the address as its name. */
  predicate AddressTold(v: View, w: View, x: int, address: Option<string>)
    requires x in v.sockets
  {
    if address.Some? && Contains(v.sockets[x].name, "socket") then
      w.sockets == v.sockets[x := SocketInfo(address.value)]
    else w.sockets == v.sockets
  }

  /** The new descriptor is a copy of the old, and so is a last one after it. */
  predicate Doubled(a: seq<int>, b: seq<int>, from: nat, to: nat)
  {
    && |b| == (if to > |a| then to else |a|) + 1 && b[to] == b[|b| - 1] == (if from < |a| then a[from] else 0)
    && forall i :: 0 <= i < |b| - 1 && i != to ==> b[i] == if i < |a| then a[i] else 0
  }

  predicate DupAdds(v: View, w: View, pid: string, from: nat, to: nat)
    requires PidsKnown(v) && PidsKnown(w)
  {
    if pid !in v.pids then w == v
    else
      && OthersKept(v, w, pid) && Adds(v, w, [])
      && match (Vector(v, pid), Vector(w, pid))
         case (Some(a), Some(b)) => Doubled(a, b, from, to)
         case (None, None) => true
         case _ => false
  }

  predicate EdgeCallAdds(v: View, w: View, c: EdgeCall)
    requires PidsKnown(v) && PidsKnown(w)
  {
    match c
    case TransferCall(pid, fd, how, stamp) => TransferAdds(v, w, pid, fd, how, stamp)
    case DupCall(pid, from, to) => DupAdds(v, w, pid, from, to)
    case KillCall(pid, victim, stamp) =>
      if pid in v.pids && victim in v.pids then
        Adds(v, w, [Link(ProcEndOf(v, pid), ProcEndOf(v, victim), Kill, Unlisted, stamp)])
      else w == v
  }

  // ---- The calls do so --------------------------------------------------------------------------

  /** All but the edges and the two tables that note them. */
  predicate SameBut(v: View, w: View)
  {
    && w.pool == v.pool && w.procs == v.procs && w.pids == v.pids && w.fds == v.fds
    && w.nodes == v.nodes && w.files == v.files && w.sockets == v.sockets
  }

  lemma LinkedAdds(v: View, e: Link)
    requires LinkFits(e, |v.pool|)
    ensures Adds(v, Linked(v, e), [e]) && SameBut(v, Linked(v, e))
  {
  }

  lemma RegisteredLeads(v: View, pid: string, r: Process)
    requires Keyed(v) && PidsKnown(v)
    ensures var u := Registered(v, pid, r);
            && Leads(v, u, pid, r) && PidsKnown(u) && v.pool <= u.pool
            && u.links == v.links && u.fds == v.fds && u.files == v.files && u.sockets == v.sockets
            && u.pool[u.pids[pid]].id == r.id && (r.id !in v.procs ==> u.pids[pid] == |v.pool|)
  {
  }

  predicate SameProcs(v: View, w: View)
  {
    w.pool == v.pool && w.procs == v.procs && w.pids == v.pids && w.nodes == v.nodes
  }

  lemma LeadsStill(v: View, u: View, w: View, pid: string, r: Process)
    requires Leads(v, u, pid, r) && SameProcs(u, w)
    ensures Leads(v, w, pid, r)
  {
  }

  /** A child of a known parent. */
  lemma ChildAdds(u: View, parent: nat, child: nat, id: int, relation: EdgeType, stamp: Stamp)
    requires parent < |u.pool| && child < |u.pool| && (relation == Clone || relation == Vfork)
    ensures var w := Linked(CopiedFds(u, u.pool[parent].id, id), SystemCalls.Between(parent, child, relation, stamp));
            && SameProcs(u, w) && Adds(u, w, [Link(ProcEnd(parent), ProcEnd(child), relation, Unlisted, stamp)])
            && FdsCopied(u, w, u.pool[parent].id, id)
  {
  }

  lemma ClonedAdds(v: View, pid: string, r: Process, stamp: Stamp)
    requires Keyed(v) && PidsKnown(v)
    ensures CloneAdds(v, Cloned(v, pid, r, stamp), pid, r, stamp)
  {
    var u, w := Registered(v, pid, r), Cloned(v, pid, r, stamp);
    RegisteredLeads(v, pid, r);
    if r.ppid in u.pids {
      ChildAdds(u, u.pids[r.ppid], u.pids[pid], r.id, Clone, stamp);
    } else {
      assert SameProcs(u, w) && v.links + [] == v.links;
    }
    LeadsStill(v, u, w, pid, r);
  }

  lemma VforkMakes(v: View, pid: string, r: Process, stamp: Stamp)
    requires Keyed(v) && PidsKnown(v) && r.ppid in v.pids && pid !in v.pids
    ensures VforkAdds(v, Vforked(v, pid, r, stamp), pid, r, stamp)
  {
    var u := Registered(v, pid, r);
    RegisteredLeads(v, pid, r);
    ChildAdds(u, v.pids[r.ppid], u.pids[pid], r.id, Vfork, stamp);
    LeadsStill(v, u, Vforked(v, pid, r, stamp), pid, r);
  }

  lemma VforkedAdds(v: View, pid: string, r: Process, stamp: Stamp)
    requires Keyed(v) && PidsKnown(v)
    ensures VforkAdds(v, Vforked(v, pid, r, stamp), pid, r, stamp)
  {
    if r.ppid in v.pids {
      if pid in v.pids {
        LinkedAdds(v, SystemCalls.Between(v.pids[r.ppid], v.pids[pid], Vfork, stamp));
      } else {
        VforkMakes(v, pid, r, stamp);
      }
    }
  }

  lemma {:induction false} FilesEntered(v: View, paths: seq<Path>)
    ensures FilesAdded(v, paths).links == v.links && FilesAdded(v, paths).pids == v.pids
    ensures FilesAdded(v, paths).fds == v.fds
    ensures forall i | 0 <= i < |paths| :: paths[i].id in FilesAdded(v, paths).files
    decreases |paths|
  {
    if paths != [] {
      FilesEntered(v, paths[..|paths| - 1]);
    }
  }

  predicate LoadsLinked(w: View, paths: seq<Path>, child: End, stamp: Stamp, n: nat)
  {
    && |w.links| == n + |paths|
    && forall i | 0 <= i < |paths| :: w.links[n + i] == Link(FileEnd(paths[i].id), child, Load, Both, stamp)
  }

  lemma LoadLinked(u: View, w: View, paths: seq<Path>, child: End, stamp: Stamp, n: nat)
    requires paths != [] && LoadsLinked(u, paths[..|paths| - 1], child, stamp, n)
    requires Adds(u, w, [Link(FileEnd(paths[|paths| - 1].id), child, Load, Both, stamp)])
    ensures LoadsLinked(w, paths, child, stamp, n)
  {
    forall i | 0 <= i < |paths|
      ensures w.links[n + i] == Link(FileEnd(paths[i].id), child, Load, Both, stamp)
    {
      assert i < |paths| - 1 ==> paths[..|paths| - 1][i] == paths[i];
    }
  }

  lemma {:induction false} LoadsAppended(v: View, paths: seq<Path>, p: nat, stamp: Stamp)
    requires p < |v.pool|
    ensures var w := LoadsAdded(v, paths, p, stamp);
            SameBut(v, w) && v.links <= w.links && LoadsLinked(w, paths, ProcEnd(p), stamp, |v.links|)
    decreases |paths|
  {
    if paths != [] {
      var k := |paths| - 1;
      var u := LoadsAdded(v, paths[..k], p, stamp);
      LoadsAppended(v, paths[..k], p, stamp);
      LinkedAdds(u, LoadOf(paths[k].id, p, stamp));
      LoadLinked(u, LoadsAdded(v, paths, p, stamp), paths, ProcEnd(p), stamp, |v.links|);
    }
  }

  /** A process known before gets new names; without a known parent nothing else happens. */
  lemma RekeyedNames(v: View, pid: string, r: Process, renamed: int)
    requires Keyed(v) && PidsKnown(v) && pid in v.pids && v.pool[v.pids[pid]].args == " "
    ensures var u := Executed(v, pid, r, renamed).0;
            ExecveNames(v, u, pid, r, renamed) && u.links == v.links && u.files == v.files && u.pids == v.pids
  {
  }

  /** A process that is unknown or was executed before is followed by a new one. */
  lemma SucceededNames(v: View, pid: string, r: Process, renamed: int)
    requires Keyed(v) && PidsKnown(v) && !(pid in v.pids && v.pool[v.pids[pid]].args == " ")
    requires pid in v.pids || r.ppid in v.pids
    ensures var u := Executed(v, pid, r, renamed).0;
            ExecveNames(v, u, pid, r, renamed) && u.links == v.links && u.files == v.files && pid in u.pids
  {
    RegisteredLeads(v, pid, r);
  }

  lemma ExecutedEnds(v: View, pid: string, r: Process, renamed: int)
    requires Keyed(v) && PidsKnown(v)
    ensures var (u, ends) := Executed(v, pid, r, renamed);
            && (ends.NoEnds? <==> (pid !in v.pids || v.pool[v.pids[pid]].args == " ") && r.ppid !in v.pids)
            && (ends.Ends? ==>
                  && pid in u.pids && ends.child == u.pids[pid]
                  && if pid in v.pids && v.pool[v.pids[pid]].args != " " then ends.parent == v.pids[pid]
                     else r.ppid in v.pids && ends.parent == v.pids[r.ppid])
  {
  }

  /** The state that an execution finds its files in. */
  lemma ExecutedNames(v: View, pid: string, r: Process, renamed: int)
    requires Keyed(v) && PidsKnown(v)
    ensures var u := Executed(v, pid, r, renamed).0;
            ExecveNames(v, u, pid, r, renamed) && u.links == v.links && u.files == v.files
  {
    if pid in v.pids && v.pool[v.pids[pid]].args == " " {
      RekeyedNames(v, pid, r, renamed);
    } else if pid in v.pids || r.ppid in v.pids {
      SucceededNames(v, pid, r, renamed);
    }
  }

  lemma NamesStill(v: View, u: View, w: View, pid: string, r: Process, renamed: int)
    requires PidsKnown(v) && ExecveNames(v, u, pid, r, renamed) && (pid in v.pids || r.ppid in v.pids)
    requires w.pool == u.pool && w.pids == u.pids && w.fds == u.fds
    ensures ExecveNames(v, w, pid, r, renamed)
  {
  }

  /** The files are entered and loaded, and the edge of the execution comes last. */
  lemma LoadsThenLast(u: View, f: View, l: View, w: View, paths: seq<Path>, child: End, stamp: Stamp, last: Link)
    requires f.links == u.links && SameBut(f, l) && f.links <= l.links && Adds(l, w, [last]) && SameBut(l, w)
    requires LoadsLinked(l, paths, child, stamp, |f.links|) && forall i | 0 <= i < |paths| :: paths[i].id in f.files
    ensures LoadsThen(u, w, paths, child, stamp, last)
  {
  }

  /** The files are entered and loaded, and the edge of the execution comes last. */
  lemma FilesLoaded(u: View, paths: seq<Path>, parent: nat, child: nat, stamp: Stamp)
    requires parent < |u.pool| && child < |u.pool|
    ensures var w := Linked(LoadsAdded(FilesAdded(u, paths), paths, child, stamp),
                            SystemCalls.Between(parent, child, Execve, stamp));
            && LoadsThen(u, w, paths, ProcEnd(child), stamp,
                         Link(ProcEnd(parent), ProcEnd(child), Execve, Unlisted, stamp))
            && w.pool == u.pool && w.pids == u.pids && w.fds == u.fds
  {
    var f := FilesAdded(u, paths);
    var l := LoadsAdded(f, paths, child, stamp);
    var last := SystemCalls.Between(parent, child, Execve, stamp);
    FilesEntered(u, paths);
    LoadsAppended(f, paths, child, stamp);
    LinkedAdds(l, last);
    LoadsThenLast(u, f, l, Linked(l, last), paths, ProcEnd(child), stamp, last);
  }

  lemma ExecvedAdds(v: View, pid: string, r: Process, renamed: int, paths: seq<Path>, stamp: Stamp)
    requires Keyed(v) && PidsKnown(v)
    ensures ExecveAdds(v, Execved(v, pid, r, renamed, paths, stamp), pid, r.ppid, paths, stamp)
    ensures ExecveNames(v, Execved(v, pid, r, renamed, paths, stamp), pid, r, renamed)
  {
    var (u, ends) := Executed(v, pid, r, renamed);
    ExecutedNames(v, pid, r, renamed);
    ExecutedEnds(v, pid, r, renamed);
    if ends.Ends? {
      var w := Execved(v, pid, r, renamed, paths, stamp);
      FilesLoaded(u, paths, ends.parent, ends.child, stamp);
      NamesStill(v, u, w, pid, r, renamed);
      LoadsSince(v, u, w, paths, ProcEnd(ends.child), stamp,
                 Link(ProcEnd(ends.parent), ProcEnd(ends.child), Execve, Unlisted, stamp));
    }
  }

  lemma LoadsSince(v: View, u: View, w: View, paths: seq<Path>, child: End, stamp: Stamp, last: Link)
    requires u.links == v.links && LoadsThen(u, w, paths, child, stamp, last)
    ensures LoadsThen(v, w, paths, child, stamp, last)
  {
  }

  lemma ParentSet(v: View, u: View, pid: string, r: Process, ppid: string)
    requires Leads(v, u, pid, r) && PidsKnown(u) && u.pool[u.pids[pid]].id == r.id && u.links == v.links
    requires ppid in u.pids && (r.id !in v.procs ==> u.pids[pid] == |v.pool|)
    ensures LoginMade(v, SetPpid(u, u.pids[pid], ppid), pid, r, ppid)
  {
  }

  lemma MadeStill(v: View, u: View, w: View, pid: string, r: Process, ppid: string)
    requires LoginMade(v, u, pid, r, ppid) && w.links == u.links && w.pids == u.pids && w.pool == u.pool
    ensures LoginMade(v, w, pid, r, ppid)
  {
  }

  lemma ChildLoggedIn(v: View, pid: string, r: Process, ppid: string)
    requires Keyed(v) && PidsKnown(v) && pid !in v.pids && ppid in Registered(v, pid, r).pids
    ensures LoginMade(v, LoginAdded(v, pid, r, ppid), pid, r, ppid)
  {
    var u := Registered(v, pid, r);
    RegisteredLeads(v, pid, r);
    ParentSet(v, u, pid, r, ppid);
    MadeStill(v, SetPpid(u, u.pids[pid], ppid), LoginAdded(v, pid, r, ppid), pid, r, ppid);
  }

  lemma OrphanLoggedIn(v: View, pid: string, r: Process, ppid: string)
    requires Keyed(v) && PidsKnown(v) && pid !in v.pids && ppid !in Registered(v, pid, r).pids
    ensures LoginMade(v, LoginAdded(v, pid, r, ppid), pid, r, ppid)
  {
    RegisteredLeads(v, pid, r);
    MadeStill(v, Registered(v, pid, r), LoginAdded(v, pid, r, ppid), pid, r, ppid);
  }

  lemma LoggedInAdds(v: View, pid: string, r: Process, renamed: int, ppid: string)
    requires Keyed(v) && PidsKnown(v)
    ensures LoginAdds(v, LoggedIn(v, pid, r, renamed, ppid), pid, r, renamed, ppid)
  {
    if pid !in v.pids {
      if ppid in Registered(v, pid, r).pids {
        ChildLoggedIn(v, pid, r, ppid);
      } else {
        OrphanLoggedIn(v, pid, r, ppid);
      }
    }
  }

  // ---- Files and descriptors

  lemma WithFdPuts(vec: seq<int>, fd: nat, x: int)
    ensures Put(vec, WithFd(vec, fd, x), {fd}, x)
  {
  }

  lemma FdInsertedPuts(v: View, pid: string, fd: nat, x: int)
    requires PidsKnown(v) && pid in v.pids
    ensures var w := FdInserted(v, pid, fd, x);
            && FdsPut(v, w, pid, {fd}, x) && w.links == v.links && w.pids == v.pids && w.pool == v.pool
            && w.nodes == v.nodes && w.files == v.files && w.sockets == v.sockets
  {
    var id := v.pool[v.pids[pid]].id;
    if id in v.fds {
      WithFdPuts(v.fds[id], fd, x);
    }
  }

  predicate SameFds(v: View, w: View)
  {
    w.pool == v.pool && w.pids == v.pids && w.fds == v.fds
  }

  lemma PutSame(v: View, u: View, w: View, x: View, pid: string, fds: set<int>, f: int)
    requires PidsKnown(v) && PidsKnown(u) && PidsKnown(w) && PidsKnown(x) && pid in u.pids
    requires SameFds(v, u) && FdsPut(u, w, pid, fds, f) && SameFds(w, x)
    ensures FdsPut(v, x, pid, fds, f)
  {
  }

  lemma FileAdded(v: View, path: Path)
    ensures var u := AddFile(v, path.id, path.file);
            FileEntered(v, u, path) && SameFds(v, u) && u.links == v.links && u.sockets == v.sockets
  {
  }

  lemma SocketAdded(v: View, id: int, name: string)
    ensures var u := AddSocket(v, id, name);
            SocketEntered(v, u, id, name) && SameFds(v, u) && u.links == v.links && u.files == v.files
  {
  }

  lemma OpenedFrom(v: View, u: View, w: View, x: View, pid: string, fd: nat, path: Path, create: bool, stamp: Stamp)
    requires PidsKnown(v) && PidsKnown(u) && PidsKnown(w) && PidsKnown(x) && pid in v.pids
    requires FileEntered(v, u, path) && SameFds(v, u) && u.links == v.links
    requires FdsPut(u, w, pid, {fd}, path.id) && w.links == u.links && w.files == u.files && w.nodes == u.nodes
    requires SameBut(w, x) && w.pids == u.pids
    requires x.links == w.links + if create then [Link(ProcEndOf(w, pid), FileEnd(path.id), Create, FileOnly, stamp)]
                                  else []
    ensures OpenAdds(v, x, pid, fd, path, create, stamp)
  {
    PutSame(v, u, w, x, pid, {fd}, path.id);
  }

  lemma OpenedAdds(v: View, pid: string, fd: nat, path: Path, create: bool, stamp: Stamp)
    requires PidsKnown(v)
    ensures OpenAdds(v, Opened(v, pid, fd, path, create, stamp), pid, fd, path, create, stamp)
  {
    if pid in v.pids {
      var u := AddFile(v, path.id, path.file);
      var w := FdInserted(u, pid, fd, path.id);
      FileAdded(v, path);
      FdInsertedPuts(u, pid, fd, path.id);
      LinkedAdds(w, CreateOf(w.pids[pid], path.id, stamp));
      var x := if create then Linked(w, CreateOf(w.pids[pid], path.id, stamp)) else w;
      assert w.links + [] == w.links;
      OpenedFrom(v, u, w, x, pid, fd, path, create, stamp);
    }
  }

  lemma PutTwice(v: View, u: View, w: View, pid: string, a: int, b: int, x: int)
    requires PidsKnown(v) && PidsKnown(u) && PidsKnown(w) && pid in v.pids && u.pids == v.pids && u.pool == v.pool
    requires FdsPut(v, u, pid, {a}, x) && FdsPut(u, w, pid, {b}, x)
    ensures FdsPut(v, w, pid, {a, b}, x)
  {
  }

  lemma PipeMadeAdds(v: View, pid: string, fd0: nat, fd1: nat, path: Path)
    requires PidsKnown(v)
    ensures PipeAdds(v, PipeMade(v, pid, fd0, fd1, path), pid, fd0, fd1, path)
  {
    if pid in v.pids {
      var u := AddFile(v, path.id, path.file);
      var w := FdInserted(u, pid, fd0, path.id);
      var x := FdInserted(w, pid, fd1, path.id);
      FileAdded(v, path);
      FdInsertedPuts(u, pid, fd0, path.id);
      FdInsertedPuts(w, pid, fd1, path.id);
      PutTwice(u, w, x, pid, fd0, fd1, path.id);
      PutSame(v, u, x, x, pid, {fd0, fd1}, path.id);
      assert v.links + [] == v.links;
    }
  }

  lemma DirectoryUsedAdds(v: View, pid: string, path: Path, made: bool, stamp: Stamp)
    requires PidsKnown(v)
    ensures DirectoryAdds(v, DirectoryUsed(v, pid, path, made, stamp), pid, path, made, stamp)
  {
    assert v.links + [] == v.links;
  }

  lemma {:induction false} ActedOnAdds(v: View, p: nat, acts: seq<FileAct>, stamp: Stamp)
    requires p < |v.pool|
    ensures var w := ActedOn(v, p, acts, stamp);
            && |w.links| == |v.links| + |acts| && v.links <= w.links && w.fds == v.fds
            && ActsLinked(w, p, acts, stamp, |v.links|)
    decreases |acts|
  {
    if acts != [] {
      var k := |acts| - 1;
      var u := ActedOn(v, p, acts[..k], stamp);
      ActedOnAdds(v, p, acts[..k], stamp);
      FileAdded(u, acts[k].path);
      LinkedAdds(AddFile(u, acts[k].path.id, acts[k].path.file), ActOf(p, acts[k], stamp));
      ActLinked(u, ActedOn(v, p, acts, stamp), p, acts, stamp, |v.links|);
    }
  }

  predicate ActsLinked(w: View, p: nat, acts: seq<FileAct>, stamp: Stamp, n: nat)
  {
    && |w.links| == n + |acts|
    && forall i | 0 <= i < |acts| ::
         && acts[i].path.id in w.files
         && w.links[n + i] == Link(ProcEnd(p), FileEnd(acts[i].path.id),
                                   if acts[i].created then Create else Delete, Both, stamp)
  }

  lemma ActLinked(u: View, w: View, p: nat, acts: seq<FileAct>, stamp: Stamp, n: nat)
    requires acts != [] && ActsLinked(u, p, acts[..|acts| - 1], stamp, n)
    requires var act := acts[|acts| - 1];
             Adds(u, w, [ActOf(p, act, stamp)]) && u.files.Keys <= w.files.Keys && act.path.id in w.files
    ensures ActsLinked(w, p, acts, stamp, n)
  {
    forall i | 0 <= i < |acts|
      ensures acts[i].path.id in w.files
      ensures w.links[n + i] == Link(ProcEnd(p), FileEnd(acts[i].path.id),
                                     if acts[i].created then Create else Delete, Both, stamp)
    {
      if i < |acts| - 1 {
        assert acts[..|acts| - 1][i] == acts[i];
      }
    }
  }

  lemma FilesUsedAdds(v: View, pid: string, acts: seq<FileAct>, stamp: Stamp)
    requires PidsKnown(v)
    ensures FilesAdd(v, FilesUsed(v, pid, acts, stamp), pid, acts, stamp)
  {
    if pid in v.pids {
      ActedOnAdds(v, v.pids[pid], acts, stamp);
    }
  }

  lemma NodeMade(v: View, n: FdNode)
    ensures var w := NodeAdded(v, n);
            && w.links == v.links && w.fds == v.fds && EntryMade(w, n)
            && v.files.Keys <= w.files.Keys && v.sockets.Keys <= w.sockets.Keys
  {
    match n
    case FdFile(path) => FileAdded(v, path);
    case FdSocket(id, name) => SocketAdded(v, id, name);
  }

  lemma {:induction false} NodesMade(v: View, entries: seq<FdEntry>)
    ensures var w := NodesAdded(v, entries);
            && w.links == v.links && w.fds == v.fds
            && forall i | 0 <= i < |entries| :: EntryMade(w, entries[i].node)
    decreases |entries|
  {
    if entries != [] {
      var k := |entries| - 1;
      var u, w := NodesAdded(v, entries[..k]), NodesAdded(v, entries);
      NodesMade(v, entries[..k]);
      NodeMade(u, entries[k].node);
      forall i | 0 <= i < |entries|
        ensures EntryMade(w, entries[i].node)
      {
        assert i < k ==> EntryMade(u, entries[..k][i].node);
      }
    }
  }

  lemma {:induction false} StandsForNothing(entries: seq<FdEntry>, n: nat, fd: nat)
    requires n <= |entries| && forall i | 0 <= i < n :: entries[i].fd < fd
    ensures StandsFor(entries, n, fd) == 0
  {
    if n > 0 {
      StandsForNothing(entries, n - 1, fd);
    }
  }

  /** One more entry. */
  lemma VectorNext(a: seq<int>, b: seq<int>, entries: seq<FdEntry>, n: nat, size: nat)
    requires n < |entries| && VectorOf(a, entries, n, size)
    requires Put(a, b, {entries[n].fd}, NodeId(entries[n].node))
    ensures VectorOf(b, entries, n + 1, size)
  {
    forall fd | 0 <= fd < |b|
      ensures b[fd] == StandsFor(entries, n + 1, fd)
    {
      if fd != entries[n].fd && fd >= |a| {
        StandsForNothing(entries, n, fd);
      }
    }
  }

  lemma {:induction false} FdVectorOf(entries: seq<FdEntry>, n: nat)
    requires n <= |entries|
    ensures VectorOf(FdVector(entries, n), entries, n, |entries|)
  {
    if n > 0 {
      FdVectorOf(entries, n - 1);
      WithFdPuts(FdVector(entries, n - 1), entries[n - 1].fd, NodeId(entries[n - 1].node));
      VectorNext(FdVector(entries, n - 1), FdVector(entries, n), entries, n - 1, |entries|);
    }
  }

  lemma FdsLoadedAdds(v: View, pid: string, entries: seq<FdEntry>)
    requires PidsKnown(v)
    ensures LoadFdAdds(v, FdsLoaded(v, pid, entries), pid, entries)
  {
    if pid in v.pids {
      NodesMade(v, entries);
      FdVectorOf(entries, |entries|);
      assert v.links + [] == v.links;
    }
  }

  lemma FileCallsAdd(v: View, c: FileCall)
    requires PidsKnown(v) && PidsKnown(AfterFileCall(v, c))
    ensures FileCallAdds(v, AfterFileCall(v, c), c)
  {
    match c
    case OpenCall(pid, fd, path, create, stamp) => OpenedAdds(v, pid, fd, path, create, stamp);
    case PipeCall(pid, fd0, fd1, path) => PipeMadeAdds(v, pid, fd0, fd1, path);
    case DirectoryCall(pid, path, made, stamp) => DirectoryUsedAdds(v, pid, path, made, stamp);
    case FilesCall(pid, acts, stamp) => FilesUsedAdds(v, pid, acts, stamp);
    case LoadFdCall(pid, entries) => FdsLoadedAdds(v, pid, entries);
  }

  // ---- Sockets

  lemma FdSetReplaces(v: View, pid: string, fd: nat, x: int)
    requires PidsKnown(v) && pid in v.pids
    ensures var w := FdSet(v, pid, fd, x);
            && FdReplaced(v, w, pid, fd, x) && w.links == v.links && w.pids == v.pids && w.pool == v.pool
            && w.nodes == v.nodes && w.files == v.files && w.sockets == v.sockets
  {
  }

  lemma ReplacedSame(v: View, u: View, w: View, x: View, pid: string, fd: nat, f: int)
    requires PidsKnown(v) && PidsKnown(u) && PidsKnown(w) && PidsKnown(x) && pid in u.pids
    requires SameFds(v, u) && FdReplaced(u, w, pid, fd, f) && SameFds(w, x)
    ensures FdReplaced(v, x, pid, fd, f)
  {
  }

  /** A connection, or a peer asked for. */
  lemma JoinedAdds(v: View, pid: string, fd: nat, id: int, name: string, relation: EdgeType, mark: Mark, stamp: Stamp)
    requires PidsKnown(v) && pid in v.pids && Shaped(ToSocket(v.pids[pid], id, relation, mark, stamp))
    ensures var w := Linked(FdSet(AddSocket(v, id, name), pid, fd, id),
                            ToSocket(v.pids[pid], id, relation, mark, stamp));
            && PidsKnown(w) && SocketEntered(v, w, id, name) && FdReplaced(v, w, pid, fd, id)
            && Adds(v, w, [Link(ProcEndOf(v, pid), SocketEnd(id), relation, mark, stamp)])
  {
    var u := AddSocket(v, id, name);
    var f := FdSet(u, pid, fd, id);
    SocketAdded(v, id, name);
    FdSetReplaces(u, pid, fd, id);
    LinkedAdds(f, ToSocket(v.pids[pid], id, relation, mark, stamp));
    ReplacedSame(v, u, f, Linked(f, ToSocket(v.pids[pid], id, relation, mark, stamp)), pid, fd, id);
  }

  lemma SocketMadeAdds(v: View, pid: string, fd: nat, id: int, name: string)
    requires PidsKnown(v) && pid in v.pids
    ensures var w := SocketMade(v, pid, fd, id, name);
            PidsKnown(w) && SocketEntered(v, w, id, name) && FdsPut(v, w, pid, {fd}, id) && Adds(v, w, [])
  {
    var u, w := AddSocket(v, id, name), SocketMade(v, pid, fd, id, name);
    SocketAdded(v, id, name);
    FdInsertedPuts(u, pid, fd, id);
    PutSame(v, u, w, w, pid, {fd}, id);
    assert v.links + [] == v.links;
  }

  lemma SocketLoadedAdds(v: View, was: int, id: int, name: string)
    requires was in v.sockets
    ensures var w := SocketRenamed(v, was, id, name);
            && Adds(v, w, []) && w.sockets.Keys == v.sockets.Keys - {was} + {id}
            && (id == was || id !in v.sockets ==> w.sockets[id] == SocketInfo(name))
  {
    assert v.links + [] == v.links;
  }

  lemma SocketCallsAdd(v: View, c: SocketCall)
    requires PidsKnown(v) && PidsKnown(AfterSocketCall(v, c))
    ensures SocketCallAdds(v, AfterSocketCall(v, c), c)
  {
    assert v.links + [] == v.links;
    match c
    case MakeSocketCall(pid, fd, id, name) =>
      if pid in v.pids { SocketMadeAdds(v, pid, fd, id, name); }
    case ConnectCall(pid, fd, internal, id, name, stamp) =>
      if pid in v.pids {
        FdSetReplaces(v, pid, fd, -1);
        JoinedAdds(v, pid, fd, id, name, Connect, Both, stamp);
      }
    case GetpeernameCall(pid, fd, id, name, stamp) =>
      if pid in v.pids { JoinedAdds(v, pid, fd, id, name, Getpeername, Unlisted, stamp); }
    case LoadSocketCall(was, id, name) =>
      if was in v.sockets { SocketLoadedAdds(v, was, id, name); }
  }

  // ---- Accesses

  lemma OpenIff(v: View, pid: string, fd: nat, how: Transfer)
    requires PidsKnown(v)
    ensures Open(v, pid, fd, how) <==>
            Descriptor(v, pid, fd).Some? && (Descriptor(v, pid, fd).value == 0 ==> how.Standard(fd))
    ensures Open(v, pid, fd, how) ==> Descriptor(v, pid, fd).value == Vector(v, pid).value[fd]
  {
  }

  lemma AccessAdds(v: View, p: nat, e: End, how: Transfer, stamp: Stamp)
    requires p < |v.pool| && IsObject(e)
    ensures var w := Linked(v, TransferOf(how, p, e, stamp));
            && SameBut(v, w)
            && (how.Reading? || how.Receiving? ==>
                  Adds(v, w, [Link(e, ProcEnd(p), if e.FileEnd? then Read else Recv, Both, stamp)]))
            && (how.Writing? || how.Sending? ==>
                  Adds(v, w, [Link(ProcEnd(p), e, if e.FileEnd? then Write else Send, Both, stamp)]))
  {
  }

  lemma FileTransferred(v: View, pid: string, fd: nat, how: Transfer, stamp: Stamp)
    requires PidsKnown(v) && Open(v, pid, fd, how) && Vector(v, pid).value[fd] in v.files
    requires how.Reading? || how.Writing?
    ensures TransferAdds(v, Transferred(v, pid, fd, how, stamp), pid, fd, how, stamp)
  {
    OpenIff(v, pid, fd, how);
    AccessAdds(v, v.pids[pid], FileEnd(Vector(v, pid).value[fd]), how, stamp);
  }

  lemma SocketTransferred(v: View, pid: string, fd: nat, how: Transfer, stamp: Stamp)
    requires PidsKnown(v) && Open(v, pid, fd, how) && Vector(v, pid).value[fd] in v.sockets
    requires Vector(v, pid).value[fd] in v.files ==> !how.Reading? && !how.Writing?
    ensures TransferAdds(v, Transferred(v, pid, fd, how, stamp), pid, fd, how, stamp)
  {
    var x := Vector(v, pid).value[fd];
    OpenIff(v, pid, fd, how);
    AccessAdds(Named(v, how, x), v.pids[pid], SocketEnd(x), how, stamp);
  }

  lemma TransferredAdds(v: View, pid: string, fd: nat, how: Transfer, stamp: Stamp)
    requires PidsKnown(v)
    ensures TransferAdds(v, Transferred(v, pid, fd, how, stamp), pid, fd, how, stamp)
  {
    OpenIff(v, pid, fd, how);
    if Open(v, pid, fd, how) {
      var x := Vector(v, pid).value[fd];
      if x in v.files && (how.Reading? || how.Writing?) {
        FileTransferred(v, pid, fd, how, stamp);
      } else if x in v.sockets {
        SocketTransferred(v, pid, fd, how, stamp);
      }
    }
  }

  lemma DuppedIs(a: seq<int>, from: nat, to: nat)
    ensures Doubled(a, Dupped(a, from, to), from, to)
  {
  }

  lemma DuppedAdds(v: View, pid: string, from: nat, to: nat)
    requires PidsKnown(v)
    ensures DupAdds(v, FdDupped(v, pid, from, to), pid, from, to)
  {
    if pid in v.pids {
      var id, w := v.pool[v.pids[pid]].id, FdDupped(v, pid, from, to);
      assert v.links + [] == v.links;
      if id in v.fds {
        DuppedIs(v.fds[id], from, to);
        assert w.fds == v.fds[id := Dupped(v.fds[id], from, to)] && w.pids == v.pids && w.pool == v.pool;
      } else {
        assert w == v;
      }
    }
  }

  lemma EdgeCallsAdd(v: View, c: EdgeCall)
    requires PidsKnown(v) && PidsKnown(AfterEdgeCall(v, c))
    ensures EdgeCallAdds(v, AfterEdgeCall(v, c), c)
  {
    match c
    case TransferCall(pid, fd, how, stamp) => TransferredAdds(v, pid, fd, how, stamp);
    case DupCall(pid, from, to) => DuppedAdds(v, pid, from, to);
    case KillCall(pid, victim, stamp) =>
  }

  lemma ProcCallsAdd(hasher: Hasher, v: View, c: ProcCall)
    requires Keyed(v) && PidsKnown(v)
    ensures ProcCallAdds(hasher, v, AfterProcCall(hasher, v, c), c)
  {
    match c
    case CloneCall(pid, ppid, stamp) => ClonedAdds(v, pid, NewProcess(hasher, pid, " ", " ", ppid), stamp);
    case VforkCall(pid, ppid, stamp) => VforkedAdds(v, pid, NewProcess(hasher, pid, " ", " ", ppid), stamp);
    case ExecveCall(pid, exe, args, ppid, paths, stamp) =>
      ExecvedAdds(v, pid, NewProcess(hasher, pid, exe, args, ppid), Renamed(hasher, v, pid, exe, args), paths, stamp);
    case LoginCall(pid, exe, ppid) =>
      LoggedInAdds(v, pid, NewProcess(hasher, pid, exe, " ", " "), Renamed(hasher, v, pid, exe, " "), ppid);
    case LoadProcCall(pid, exe, args, ppid) =>
      RegisteredLeads(v, pid, NewProcess(hasher, pid, exe, args, ppid));
  }

  // ---- Any call, and whole logs -----------------------------------------------------------------

  predicate CallAdds(hasher: Hasher, v: View, w: View, c: Call)
    requires PidsKnown(v) && PidsKnown(w)
  {
    match c
    case OnProc(p) => ProcCallAdds(hasher, v, w, p)
    case OnFile(f) => FileCallAdds(v, w, f)
    case OnSocket(s) => SocketCallAdds(v, w, s)
    case OnKnown(e) => EdgeCallAdds(v, w, e)
  }

  /** What each call adds: the edges with their ends, relations and marks, the nodes, and the
      descriptors. */
  lemma CallsAdd(hasher: Hasher, v: View, c: Call)
    requires Consistent(v) && CallFits(hasher, v, c)
    ensures Consistent(AfterCall(hasher, v, c)) && CallAdds(hasher, v, AfterCall(hasher, v, c), c)
  {
    CallExact(hasher, v, c);
    match c
    case OnProc(p) => ProcCallsAdd(hasher, v, p);
    case OnFile(f) => FileCallsAdd(v, f);
    case OnSocket(s) => SocketCallsAdd(v, s);
    case OnKnown(e) => EdgeCallsAdd(v, e);
  }

  /** From `v` to `w` call by call: each adds its own to what it finds. */
  ghost predicate LogAdds(hasher: Hasher, v: View, calls: seq<Call>, w: View)
    requires Consistent(v)
    decreases |calls|
  {
    if calls == [] then w == v
    else exists u :: Consistent(u) && CallAdds(hasher, v, u, calls[0]) && LogAdds(hasher, u, calls[1..], w)
  }

  lemma FirstCall(hasher: Hasher, v: View, calls: seq<Call>) returns (u: View)
    requires calls != [] && Consistent(v) && CallsFit(hasher, v, calls)
    ensures Consistent(u) && CallAdds(hasher, v, u, calls[0]) && CallsFit(hasher, u, calls[1..])
    ensures AfterCalls(hasher, u, calls[1..]) == AfterCalls(hasher, v, calls)
  {
    u := AfterCall(hasher, v, calls[0]);
    CallsAdd(hasher, v, calls[0]);
  }

  /** So does the run of a whole log. */
  lemma {:induction false} RunAdds(hasher: Hasher, v: View, calls: seq<Call>)
    requires Consistent(v) && CallsFit(hasher, v, calls)
    ensures LogAdds(hasher, v, calls, AfterCalls(hasher, v, calls))
    decreases |calls|
  {
    if calls != [] {
      var u := FirstCall(hasher, v, calls);
      RunAdds(hasher, u, calls[1..]);
    }
  }

  /** The recovery of names changes no edge, file or socket, and no process for another. */
  predicate EdgesKept(v: View, w: View)
  {
    && w.links == v.links && w.listed == v.listed && w.pids == v.pids && w.fileInter == v.fileInter
    && w.files == v.files && w.sockets == v.sockets && |w.pool| == |v.pool|
  }

  lemma RecoveryKeeps(hasher: Hasher, v: View, w: View)
    requires StepTo(hasher, v, Recovering, w)
    ensures EdgesKept(v, w)
  {
    var pool, ren, order :| MovesTo(hasher, v, pool, ren, order, w);
    assert Recovered(hasher, v.pool, v.pids, pool);
  }
}
