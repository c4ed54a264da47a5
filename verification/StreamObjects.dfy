/** The stream objects with their two buffers in place, proved against the streams as values. */
module StreamObjects {
  import opened Basics
  import opened Transport

  /** A server or client stream.  The members of pending are the operations that the
      executor holds for it. */
  class AsyncStream {
    const id: nat
    const kind: Kind
    const readBuffer: array<byte>
    const writeBuffer: array<byte>
    var pending: multiset<Op>
    var open: bool
    var shut: bool
    var link: Link
    var host: HostText
    var service: string
    ghost var received: seq<byte>
    ghost var sent: seq<byte>

    constructor (kind: Kind, id: nat)
      ensures this.id == id && this.kind == kind
      ensures fresh(Footprint()) && Separate()
      ensures View() == NewStream(kind)
      ensures readBuffer.Length == writeBuffer.Length == 0x4000
    {
      this.id, this.kind := id, kind;
      readBuffer := new byte[MAX_BUFFER_SIZE](_ => 0);
      writeBuffer := new byte[MAX_BUFFER_SIZE](_ => 0);
      pending, open, shut, link, host, service := multiset{}, true, false, Unconnected, Name(""), "";
      received, sent := [], [];
      new;
      assert readBuffer[..] == NewStream(kind).readBuffer;
      assert writeBuffer[..] == NewStream(kind).writeBuffer;
    }

    ghost function Footprint(): set<object> { {this, readBuffer, writeBuffer} }

    ghost predicate Separate() { readBuffer != writeBuffer }

    ghost function View(): Stream
      reads Footprint()
    {
      Stream(kind, readBuffer[..], writeBuffer[..], pending, open, shut, link, host, service, received, sent)
    }

    /** The executor is given one more operation. */
    method Begin(op: Op)
      requires StreamOk(View()) && OpOk(op)
      modifies this`pending
      ensures View() == Start(old(View()), op)
    {
      pending := pending + multiset{op};
    }

    method DoRead()
      requires StreamOk(View())
      modifies this`pending
      ensures View() == Transport.DoRead(old(View()))
    {
      Begin(Read);
    }

    method DoWrite(event: seq<byte>)
      requires Separate() && StreamOk(View()) && |event| <= MAX_BUFFER_SIZE
      modifies this`pending, writeBuffer
      ensures View() == Transport.DoWrite(old(View()), event)
    {
      CopyToFront(event, writeBuffer);
      Begin(Write(|event|, 0));
    }

    method DoStart()
      requires StreamOk(View())
      modifies this`pending
      ensures View() == Transport.DoStart(old(View()))
    {
      match kind
      case TcpServer => DoRead();
      case TlsServer => Begin(Handshake);
      case TcpClient => Begin(Resolve);
    }

    method DoStop()
      requires StreamOk(View())
      modifies this`pending, this`shut
      ensures View() == Transport.DoStop(old(View()))
      ensures kind != TlsServer ==> shut && pending == old(pending)
      ensures kind == TlsServer && open ==> pending == old(pending) + multiset{Shutdown, NullWrite}
    {
      if kind != TlsServer {
        shut := true;
      } else if open {
        Begin(Shutdown);
        Begin(NullWrite);
      }
    }

    method SetEndpoint(host: HostText, service: string)
      modifies this`host, this`service
      ensures View() == old(View()).(host := host, service := service)
    {
      this.host, this.service := host, service;
    }

    /** An outstanding operation makes progress. */
    method Exchange(op: Op, next: Op)
      modifies this`pending
      ensures View() == old(View()).(pending := old(pending) - multiset{op} + multiset{next})
    {
      pending := pending - multiset{op} + multiset{next};
    }

    /** The executor lets go of an operation, to run its handler. */
    method End(op: Op)
      requires StreamOk(View())
      modifies this`pending
      ensures View() == Finish(old(View()), op)
    {
      pending := pending - multiset{op};
    }

    method SetLink(link: Link)
      modifies this`link
      ensures View() == old(View()).(link := link)
    {
      this.link := link;
    }

    method Close()
      modifies this`open
      ensures View() == old(View()).(open := false)
    {
      open := false;
    }

    /** The chunk that a completed read hands to the manager: a copy of the front of the
        read buffer. */
    method Chunk(n: nat) returns (event: seq<byte>)
      requires n <= readBuffer.Length
      ensures event == View().readBuffer[..n]
    {
      event := readBuffer[..n];
    }

    // ---------- what the operating system does to the buffers ----------

    method Arrive(bytes: seq<byte>)
      requires Separate() && StreamOk(View()) && Read in pending && |bytes| <= MAX_BUFFER_SIZE
      modifies this`pending, this`received, readBuffer
      ensures View() == Fill(old(View()), bytes)
    {
      CopyToFront(bytes, readBuffer);
      received := received + bytes;
      Exchange(Read, Filled(|bytes|));
    }

    method Piece(from: nat, to: nat) returns (bytes: seq<byte>)
      requires from <= to <= writeBuffer.Length
      ensures bytes == View().writeBuffer[from..to]
    {
      bytes := writeBuffer[from..to];
    }

    method Leave(op: Op, k: nat) returns (bytes: seq<byte>)
      requires Separate() && StreamOk(View()) && op in pending && op.Write? && op.sent + k <= op.len
      modifies this`pending, this`sent
      ensures View() == Drain(old(View()), op, k)
      ensures View().sent == old(View().sent) + bytes
    {
      bytes := Piece(op.sent, op.sent + k);
      sent := sent + bytes;
      Exchange(op, Write(op.len, op.sent + k));
    }
  }
}
