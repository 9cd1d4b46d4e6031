/**
 * Runs of the context model that exercise several operations in a row,
 * each stated as what a caller can conclude from the operations' contracts
 * alone: the handshake, an ERROR during SET_NAME, a repeated disconnect, an
 * acknowledged simple command, and a drain that waits for its reply.
 */
module Scenarios {
  import opened Protocol
  import opened Context

  /** A second disconnect does nothing: teardown and the observer call happen once. */
  method DisconnectTwice(c: Context)
    requires c.Valid()
    modifies c
    ensures c.Valid() && c.state == Terminated
    ensures c.client.None? && c.pstream.None? && c.pdispatch.None?
    ensures old(c.state) == Terminated ==> c.trace == old(c.trace)
    ensures old(c.state) != Terminated ==>
      c.trace == old(c.trace) + EndStreams(old(c.streams), StreamTerminated) +
        Releases(old(c.pdispatch).Some?, old(c.pstream).Some?, old(c.client).Some?) +
        c.Observation()
  {
    ghost var before := c.trace;
    c.Disconnect();
    AppendAssoc(before, EndStreams(old(c.streams), StreamTerminated),
      Releases(old(c.pdispatch).Some?, old(c.pstream).Some?, old(c.client).Some?), c.Observation());
    c.Disconnect();
  }

  /** A connected channel and two plain REPLYs take the context to READY with tags t and t+1. */
  method Handshake(c: Context)
    requires c.Valid() && c.LogsConsistent() && c.state == Connecting
    modifies c
    ensures c.Valid() && c.LogsConsistent() && c.state == Ready && c.error == old(c.error)
    ensures c.sent == old(c.sent) + [
      Message(CmdAuth, old(c.ctag), Cookie(c.cookie)),
      Message(CmdSetName, NextTag(old(c.ctag)), Name(c.name))]
    ensures c.registered == old(c.registered) + [old(c.ctag), NextTag(old(c.ctag))]
    ensures c.ctag == NextTag(NextTag(old(c.ctag)))
  {
    c.OnConnection(true);
    c.SetupComplete(CmdReply, []);
    c.SetupComplete(CmdReply, []);
  }

  /** A well-formed ERROR answering SET_NAME records the server's code and stays in SETTING_NAME. */
  method SetNameRefused(c: Context, code: U32)
    requires c.Valid() && c.LogsConsistent() && c.state == SettingName
    modifies c
    ensures c.Valid() && c.state == SettingName && c.error == ErrRemote(code)
    ensures c.trace == old(c.trace) && c.sent == old(c.sent)
  {
    ErrorPayloadRoundTrip(code, []);
    assert ErrorPayload(code) + [] == ErrorPayload(code);
    c.SetupComplete(CmdError, ErrorPayload(code));
  }

  /** A simple command answered by a bare REPLY calls back once with success and is done. */
  method CommandAcknowledged(c: Context, command: Command) returns (op: nat)
    requires c.Valid() && c.LogsConsistent() && c.state == Ready
    modifies c
    ensures c.Valid() && c.state == Ready && c.error == old(c.error)
    ensures c.operations == old(c.operations)
    ensures c.sent == old(c.sent) + [Message(command, old(c.ctag), NoBody)]
    ensures c.trace == old(c.trace) + [AckCalled(op, true), OperationEnded(op, Done)]
  {
    op := c.SendSimpleCommand(command);
    c.SimpleAck(|c.operations| - 1, CmdReply, []);
  }

  /**
   * A drain issued behind the only unanswered command: the transport flush
   * alone does not complete it, and the dispatcher cannot report drained
   * while the command's operation is linked, so the drain fires after the
   * command's callback.
   */
  method DrainBehindCommand(c: Context, command: Command) returns (cmd: nat, drain: nat)
    requires c.Valid() && c.LogsConsistent() && c.state == Ready
    requires forall k :: 0 <= k < |c.operations| ==> c.operations[k].kind != AckKind
    modifies c
    ensures c.Valid() && c.operations == old(c.operations)
    ensures c.trace == old(c.trace) + [
      AckCalled(cmd, true), OperationEnded(cmd, Done),
      DrainCalled(drain), OperationEnded(drain, Done)]
  {
    var n := |c.operations|;
    cmd := c.SendSimpleCommand(command);
    var d := c.Drain(true);
    drain := d.value;
    c.TransportDrained(n + 1);
    c.SimpleAck(n, CmdReply, []);
    c.DispatcherDrained(n);
  }
}
