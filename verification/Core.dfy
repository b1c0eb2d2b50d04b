/** Vocabulary shared by every model: bytes, addresses, datagrams and the error type. */
module Core {

  type Byte = b: int | 0 <= b < 256

  datatype Option<+T> = None | Some(value: T)

  datatype Addr = Addr(ip: nat, port: nat)

  /** The address reported when a sender's address cannot be resolved (0.0.0.0:0). */
  const UNSPECIFIED := Addr(0, 0)

  datatype Datagram = Datagram(bytes: seq<Byte>, peer: Addr)

  datatype IoKind = UnexpectedEof | WriteZero | TimedOut | Other(code: int)

  datatype TransportError = Io(kind: IoKind) | PoolExhausted(inUse: nat, capacity: nat)

  datatype Result<+T> = Ok(value: T) | Err(error: TransportError)

  function Min(a: nat, b: nat): nat {
    if a <= b then a else b
  }

  /** What is left of a datagram that lands in `n` bytes: the kernel truncates the rest. */
  function Cut(bytes: seq<Byte>, n: nat): seq<Byte> {
    bytes[..Min(|bytes|, n)]
  }

  function CutDatagram(d: Datagram, n: nat): Datagram {
    Datagram(Cut(d.bytes, n), d.peer)
  }

  function CutAll(ds: seq<Datagram>, n: nat): seq<Datagram> {
    seq(|ds|, i requires 0 <= i < |ds| => CutDatagram(ds[i], n))
  }

  predicate NoDuplicates<T(==)>(s: seq<T>) {
    forall i, j | 0 <= i < j < |s| :: s[i] != s[j]
  }
}
