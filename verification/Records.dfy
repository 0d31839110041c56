/** The vocabulary shared by the graph builder: node and edge kinds, and audit records as they
    arrive from the log. `std::hash` is not modelled: a record carries the hash of each of its
    identifier strings, so every property holds for every hash function. */
module Records {

  datatype NodeType = NoNode | Proc | File | Socket | Attr

  datatype ProcInfo = ProcInfo(pid: string, exe: string, args: string, ppid: string)
  datatype FileInfo = FileInfo(name: string, version: string)
  datatype SocketInfo = SocketInfo(name: string)

  predicate Contains(name: string, part: string)
  {
    exists i :: 0 <= i <= |name| - |part| && name[i..][..|part|] == part
  }

  /** Files made for a pipe are named after it. */
  function Pipes(files: map<int, FileInfo>): set<int>
  {
    set f | f in files && Contains(files[f].name, "pipe")
  }

  /** Sockets that never got an address are named after the descriptor. */
  function LocalSockets(sockets: map<int, SocketInfo>): set<int>
  {
    set s | s in sockets && Contains(sockets[s].name, "socket")
  }

  datatype EdgeType =
    | NotDefined | Vfork | Clone | Execve | Kill | Pipe | Delete | Create | Recv | Send
    | Mkdir | Rmdir | Open | Load | Read | Write | Connect | Getpeername | Filepath | Mode
    | Mtime | Linknum | Uid | Count | Nametype | Version | Dev | SizeByte | NrItems

  /** The enumerators in declaration order: the position of each is its number. */
  const EDGE_TYPES := [
    NotDefined, Vfork, Clone, Execve, Kill, Pipe, Delete, Create, Recv, Send,
    Mkdir, Rmdir, Open, Load, Read, Write, Connect, Getpeername, Filepath, Mode,
    Mtime, Linknum, Uid, Count, Nametype, Version, Dev, SizeByte, NrItems]

  /** The number a relation is printed and compared by. */
  function EdgeEnum2Int(rel: EdgeType): (n: nat)
    ensures n < |EDGE_TYPES| && EDGE_TYPES[n] == rel
  {
    match rel
    case NotDefined => 0
    case Vfork => 1
    case Clone => 2
    case Execve => 3
    case Kill => 4
    case Pipe => 5
    case Delete => 6
    case Create => 7
    case Recv => 8
    case Send => 9
    case Mkdir => 10
    case Rmdir => 11
    case Open => 12
    case Load => 13
    case Read => 14
    case Write => 15
    case Connect => 16
    case Getpeername => 17
    case Filepath => 18
    case Mode => 19
    case Mtime => 20
    case Linknum => 21
    case Uid => 22
    case Count => 23
    case Nametype => 24
    case Version => 25
    case Dev => 26
    case SizeByte => 27
    case NrItems => 28
  }

  /** The event types the DARPA front end knows; `Skipped` returns before the switch and
      `Unknown` reaches its default branch. */
  datatype EventKind =
    | EvExecute | EvClone | EvFork | EvOpen | EvClose | EvConnect | EvUnlink | EvRead | EvWrite
    | EvRecvfrom | EvSendto | EvRecvmsg | EvSendmsg | EvRename | EvReadSocket | EvWriteSocket
    | EvLoad | EvCreate | EvUpdate | EvSkipped | EvUnknown

  datatype Record =
    | Event(kind: EventKind, sub: int, obj: int, obj2: int,
            eId: int, e1Id: int, e2Id: int, // hashes of uuid, "0" + obj and "0" + obj2
            seqNum: nat, timestamp: string, uuid: string)
    | Subject(id: int, pid: string, name: string, cmdLine: string, path: string, ppid: string, uuid: string)
    | FileObject(id: int, path: string, filename: string, uuid: string)
    | NetFlow(id: int, address: string, uuid: string)
    | OtherRecord
}
