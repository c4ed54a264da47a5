/** The asynchronous streams as values: what the five stream operations do to a stream, and
    what the operating system may do to its outstanding operations. */
module Transport {
  import opened Basics

  datatype Kind = TcpServer | TlsServer | TcpClient

  /** The error values that the proxy tells apart; Success is the absence of an error. */
  datatype ErrorCode =
    | Success
    | NetworkUnreachable | HostUnreachable | HostNotFound | NoData
    | ConnectionRefused | ConnectionAborted | ConnectionReset | TimedOut
    | Other

  /** An outstanding asynchronous operation.  A read is Read until the kernel has put n bytes
      into the read buffer; a write of the first len bytes of the write buffer has handed the
      first sent of them to the kernel. */
  datatype Op =
    | Handshake
    | Read
    | Filled(n: nat)
    | Write(len: nat, sent: nat)
    | Resolve
    | Connecting
    | Shutdown
    | NullWrite

  /** How the connection attempt of a client stream came out. */
  datatype Link = Unconnected | Connected | Failed(ec: ErrorCode)

  /** A stream: its two fixed buffers, its outstanding operations, whether its socket is open and
      whether it has been shut down in both directions, and the bytes the kernel has put in and
      taken out over its whole life. */
  datatype Stream = Stream(
    kind: Kind,
    readBuffer: seq<byte>,
    writeBuffer: seq<byte>,
    pending: multiset<Op>,
    open: bool,
    shut: bool,
    link: Link,
    host: HostText,
    service: string,
    received: seq<byte>,
    sent: seq<byte>)

  predicate OpOk(op: Op) {
    && (op.Filled? ==> op.n <= MAX_BUFFER_SIZE)
    && (op.Write? ==> op.sent <= op.len <= MAX_BUFFER_SIZE)
  }

  predicate StreamOk(s: Stream) {
    && |s.readBuffer| == MAX_BUFFER_SIZE
    && |s.writeBuffer| == MAX_BUFFER_SIZE
    && forall op <- s.pending :: OpOk(op)
  }

  function NewStream(kind: Kind): (s: Stream)
    ensures StreamOk(s)
  {
    var zeros := seq(MAX_BUFFER_SIZE, _ => 0 as byte);
    Stream(kind, zeros, zeros, multiset{}, true, false, Unconnected, Name(""), "", [], [])
  }

  function Start(s: Stream, op: Op): (r: Stream)
    requires StreamOk(s) && OpOk(op)
    ensures StreamOk(r)
  {
    s.(pending := s.pending + multiset{op})
  }

  function DoRead(s: Stream): (r: Stream)
    requires StreamOk(s)
    ensures StreamOk(r)
  {
    Start(s, Read)
  }

  function DoWrite(s: Stream, event: seq<byte>): (r: Stream)
    requires StreamOk(s) && |event| <= MAX_BUFFER_SIZE
    ensures StreamOk(r)
  {
    Start(s.(writeBuffer := Overwrite(s.writeBuffer, event)), Write(|event|, 0))
  }

  function DoStart(s: Stream): (r: Stream)
    requires StreamOk(s)
    ensures StreamOk(r)
  {
    match s.kind
    case TcpServer => DoRead(s)
    case TlsServer => Start(s, Handshake)
    case TcpClient => Start(s, Resolve)
  }

  /** Stopping a TCP stream shuts its socket down; stopping a TLS stream also starts two more
      operations, whose completions arrive later. */
  function DoStop(s: Stream): (r: Stream)
    requires StreamOk(s)
    ensures StreamOk(r)
  {
    if s.kind != TlsServer then s.(shut := true)
    else if s.open then Start(Start(s, Shutdown), NullWrite)
    else s
  }

  // ---------- what the kernel does ----------

  /** Bytes arrive for an outstanding read. */
  function Fill(s: Stream, bytes: seq<byte>): (r: Stream)
    requires StreamOk(s) && Read in s.pending && |bytes| <= MAX_BUFFER_SIZE
    ensures StreamOk(r)
  {
    s.(readBuffer := Overwrite(s.readBuffer, bytes),
       received := s.received + bytes,
       pending := s.pending - multiset{Read} + multiset{Filled(|bytes|)})
  }

  /** The next k bytes of an outstanding write are taken, from the buffer as it is now. */
  function Drain(s: Stream, op: Op, k: nat): (r: Stream)
    requires StreamOk(s) && op in s.pending && op.Write? && op.sent + k <= op.len
    ensures StreamOk(r)
  {
    s.(sent := s.sent + s.writeBuffer[op.sent..op.sent + k],
       pending := s.pending - multiset{op} + multiset{Write(op.len, op.sent + k)})
  }

  /** An operation is over. */
  function Finish(s: Stream, op: Op): (r: Stream)
    requires StreamOk(s)
    ensures StreamOk(r)
  {
    s.(pending := s.pending - multiset{op})
  }
}
