/**
 What a completed operation hands back to its fiber: the `CreateResultValue`
 overrides of primitives.h, fiber.cpp and primitives_{tcp,udp,fs,dns}.cpp.
 */
module Results {
  import opened Prelude
  import Own = Ownership

  type Byte = x: int | 0 <= x < 256

  /** libuv's end-of-stream code. */
  const UV_EOF := -4095

  datatype OpKind =
    | Sleep
    | FsOpen | FsScandir | FsUnlink | FsMkdir | FsRmdir                // no handle yet
    | FsRead | FsWrite | FsStat | FsSync | FsDataSync | FsClose        // on a FileHandle
    | TcpConnect
    | TcpAccept | TcpRead | TcpWrite(len: nat) | TcpPoll               // on a NetHandle
    | UdpRecv | UdpSend                                                // on a UDPHandle
    | DnsResolve

  /** The type HandleStore::Get is asked for, when the primitive looks a handle up. */
  function Target(k: OpKind): Option<Own.Kind> {
    match k
    case FsRead | FsWrite | FsStat | FsSync | FsDataSync | FsClose => Some(Own.FileK)
    case TcpAccept | TcpRead | TcpWrite(_) | TcpPoll => Some(Own.NetK)
    case UdpRecv | UdpSend => Some(Own.UdpK)
    case _ => None
  }

  /** Primitives that park their context in `pending_read`. */
  predicate IsRead(k: OpKind) {
    k == TcpRead || k == UdpRecv
  }

  /** What libuv reports: a status or count, the bytes put in the buffer, the peer. */
  datatype Raw = Raw(code: int, bytes: seq<Byte>, host: string)

  const NO_RESULT := Raw(0, [], "")

  datatype Value =
    | Undefined
    | Null
    | BigInt(n: int)
    | Stat
    | Addresses
    | Datagram(size: int, host: string)
    | Error(syscall: string, code: int)

  /** A finished value, or a new handle whose store id becomes the value. */
  datatype Built = Ready(v: Value) | NewHandle(kind: Own.Kind)

  function Syscall(k: OpKind): string {
    match k
    case Sleep => ""
    case FsOpen => "open" case FsScandir => "scandir"
    case FsUnlink => "unlink" case FsMkdir => "mkdir" case FsRmdir => "rmdir"
    case FsRead => "read" case FsWrite => "write" case FsStat => "fstat"
    case FsSync => "fsync" case FsDataSync => "fdatasync" case FsClose => "close"
    case TcpConnect => "connect" case TcpAccept => "accept"
    case TcpRead => "read" case TcpWrite(_) => "write" case TcpPoll => "poll"
    case UdpRecv => "read" case UdpSend => "write"
    case DnsResolve => "getaddrinfo"
  }

  /** CreateResultValue; `accepted` is the outcome of the uv_accept call it makes. */
  function CreateResultValue(k: OpKind, raw: Raw, accepted: bool): Built {
    if k == Sleep then Ready(Undefined)
    else if raw.code < 0 then
      if k == TcpRead && raw.code == UV_EOF then Ready(BigInt(-1))
      else Ready(Error(Syscall(k), raw.code))
    else match k
      case FsOpen => NewHandle(Own.FileK)
      case FsScandir => NewHandle(Own.DirectoryK)
      case FsRead => Ready(BigInt(if raw.code == 0 then -1 else raw.code))
      case FsWrite => Ready(BigInt(raw.code))
      case FsStat => Ready(Stat)
      case TcpConnect => NewHandle(Own.NetK)
      case TcpAccept => if accepted then NewHandle(Own.NetK) else Ready(Error("accept (internal)", -1))
      case TcpRead => Ready(BigInt(raw.code))
      case TcpWrite(len) => Ready(BigInt(len))
      case TcpPoll => Ready(BigInt(raw.code))
      case UdpRecv => Ready(if raw.code == 0 && raw.host == "" then Null else Datagram(raw.code, raw.host))
      case DnsResolve => Ready(Addresses)
      case _ => Ready(Undefined)
  }

  /** The type of handle that a success of this kind puts into the store. */
  function Makes(k: OpKind): Option<Own.Kind> {
    match k
    case FsOpen => Some(Own.FileK)
    case FsScandir => Some(Own.DirectoryK)
    case TcpConnect | TcpAccept => Some(Own.NetK)
    case _ => None
  }

  /** Operations whose value on success is the number libuv reported. */
  predicate Counts(k: OpKind) {
    k == FsRead || k == FsWrite || k == TcpRead || k == TcpPoll
  }

  /**
   How much of libuv's answer a script can tell from the value: everything for operations
   that count, the code and the peer for datagrams, and otherwise which error it was or that
   it was none.  A timer tells nothing.
   */
  lemma ValueTellsOutcomeIff(k: OpKind, raw: Raw, raw': Raw, accepted: bool, accepted': bool)
    ensures CreateResultValue(k, raw, accepted) == CreateResultValue(k, raw', accepted') <==>
              || k == Sleep
              || (raw.code == raw'.code
                  && (k == UdpRecv && raw.code >= 0 ==> raw.host == raw'.host)
                  && (k == TcpAccept && raw.code >= 0 ==> accepted == accepted'))
              || (raw.code >= 0 && raw'.code >= 0 && !Counts(k) && k != UdpRecv
                  && (k == TcpAccept ==> accepted == accepted'))
  {
  }

  lemma OnlyMakersMake(k: OpKind, raw: Raw, accepted: bool)
    ensures var b := CreateResultValue(k, raw, accepted); b.NewHandle? ==> Makes(k) == Some(b.kind)
  {
  }
}
