/** The handlers that are alike in both protocols. */
module TransferHandlers {
  import opened Basics
  import opened Sessions
  import opened StreamManagers

  method DataTransferServerRead(m: StreamManager, session: ProxySession, buffer: seq<byte>)
    requires m.Holds(session) && |buffer| <= MAX_BUFFER_SIZE
    modifies m.pairs[session.id].Footprint()
    ensures m.Ready(session.id)
    ensures m.CellOf(session.id) == WriteClient(CountToRemote(old(m.CellOf(session.id)), |buffer|), buffer)
  {
    session.UpdateBytesSentToRemote(|buffer|);
    m.WriteClient(session.id, buffer);
  }

  method DataTransferClientRead(m: StreamManager, session: ProxySession, buffer: seq<byte>)
    requires m.Holds(session) && |buffer| <= MAX_BUFFER_SIZE
    modifies m.pairs[session.id].Footprint()
    ensures m.Ready(session.id)
    ensures m.CellOf(session.id) == WriteServer(CountToLocal(old(m.CellOf(session.id)), |buffer|), buffer)
  {
    session.UpdateBytesSentToLocal(|buffer|);
    m.WriteServer(session.id, buffer);
  }

  /** After a reply to the local side has been written, both sides are read. */
  method StartTransfer(m: StreamManager, session: ProxySession, mode: Phase)
    requires m.Holds(session) && mode != ConnectionEstablished
    modifies m.pairs[session.id].Footprint()
    ensures m.Ready(session.id)
    ensures m.CellOf(session.id) == ChangeState(ReadClient(ReadServer(old(m.CellOf(session.id)))), mode)
  {
    m.ReadServer(session.id);
    m.ReadClient(session.id);
    session.ChangeState(mode);
  }
}
