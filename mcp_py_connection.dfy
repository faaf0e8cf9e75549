/**
  The display connection of the Python MCP server for LM Studio: it reconnects on demand
  before a send, and a closed socket marks it disconnected.
*/
module McpPyConnection {
  import opened Values
  import opened McpCommon

  /** What happens to one command on an open socket. */
  datatype SendOutcome =
    | Replied
    | ClosedOnSend
    | ClosedBeforeReply
    | Failed(sent: bool, message: string)

  /** The link one send meets: the reconnect outcome, if one is needed, and the send outcome. */
  datatype Link = Link(connect: Handshake, send: SendOutcome)

  /**
    The exceptions a call can end with: a missing argument (`KeyError`), one the interpreter
    raises on an argument of the wrong type, and the two `send_command` raises.
  */
  datatype Exc = KeyErr(key: string) | Interp | ConnErr(message: string) | CommandFailed(message: string)

  /** The reply text; for an interpreter exception the message is Python's own. */
  datatype Reply = Reply(text: string) | InterpreterError(tool: string)

  /**
    `send_command`: a disconnected connection reconnects first and raises
    `ConnectionError("Not connected to Hime Display")` when that fails; a closed socket
    raises `ConnectionError("Connection lost")` and marks the connection disconnected; any
    other failure is `Command failed: ...`.
  */
  function SendStep(connected: bool, c: Command, link: Link): (t: Step<bool, Exc>)
    ensures !connected && link.connect != Welcomed ==>
      !t.delivered && t.failure == Some(ConnErr("Not connected to Hime Display"))
    ensures t.failure == Some(ConnErr("Connection lost")) ==> !t.state
    ensures t.failure.None? <==> (connected || link.connect == Welcomed) && link.send == Replied
    ensures t.failure.None? ==> t.delivered && t.state
  {
    if !connected && link.connect != Welcomed then
      Step(false, link.connect == WelcomeLost, Some(ConnErr("Not connected to Hime Display")))
    else
      match link.send
      case Replied => Step(true, true, None)
      case ClosedOnSend => Step(false, false, Some(ConnErr("Connection lost")))
      case ClosedBeforeReply => Step(true, false, Some(ConnErr("Connection lost")))
      case Failed(sent, m) => Step(sent, true, Some(CommandFailed("Command failed: " + m)))
  }

  class HimeDisplayConnection {
    var connected: bool
    /** The commands written to the socket, in order. */
    var sent: seq<Command>

    constructor ()
      ensures !connected && sent == []
    {
      connected := false;
      sent := [];
    }

    /** `connect`: the flag is set once the socket opens, even when the welcome message is then lost. */
    method Connect(outcome: Handshake) returns (ok: bool)
      modifies this`connected
      ensures ok <==> outcome == Welcomed
      ensures connected == (old(connected) || outcome != Refused)
    {
      if outcome == Refused {
        return false;
      }
      connected := true;
      return outcome == Welcomed;
    }

    /** `send_command` over `link`. */
    method SendCommand(c: Command, link: Link) returns (failure: Option<Exc>)
      modifies this
      ensures var t := SendStep(old(connected), c, link);
        failure == t.failure && connected == t.state && sent == old(sent) + (if t.delivered then [c] else [])
    {
      if !connected {
        var ok := Connect(link.connect);
        if !ok {
          return Some(ConnErr("Not connected to Hime Display"));
        }
      }
      match link.send {
        case Replied =>
          sent := sent + [c];
          return None;
        case ClosedOnSend =>
          connected := false;
          return Some(ConnErr("Connection lost"));
        case ClosedBeforeReply =>
          sent := sent + [c];
          connected := false;
          return Some(ConnErr("Connection lost"));
        case Failed(delivered, m) =>
          if delivered {
            sent := sent + [c];
          }
          return Some(CommandFailed("Command failed: " + m));
      }
    }

    /** `close`: with a socket the flag goes down; without one it was already down. */
    method Close()
      modifies this`connected
      ensures !connected
    {
      connected := false;
    }

    /**
      The awaits of a handler: `cmds` in order, the `j`-th of them meeting `net(k + j)`,
      the first failure ending them.
    */
    method SendAll(cmds: seq<Command>, net: nat -> Link, k: nat) returns (failure: Option<Exc>)
      modifies this
      ensures var run := RunSends(SendStep, old(connected), cmds, net, k);
        sent == old(sent) + run.delivered && connected == run.state && failure == run.failure
      decreases |cmds|
    {
      if cmds == [] {
        return None;
      }
      failure := SendCommand(cmds[0], net(k));
      if failure.None? {
        failure := SendAll(cmds[1..], net, k + 1);
      }
    }
  }
}
