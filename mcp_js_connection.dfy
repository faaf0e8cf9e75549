/**
  The display connection of the Node.js MCP server for LM Studio: `sendCommand`
  reconnects first when the flag is down, then writes the command and waits for one
  reply message; every failure is an `Error` whose message the caller reports.
*/
module McpJsConnection {
  import opened Values
  import opened McpCommon

  /** How `connect` settles: the socket opens, it reports an error, or the 5-second timer fires first. */
  datatype ConnectOutcome = Opened | Errored | Hangs

  /**
    What happens to one command on an open socket: a reply that parses, no reply before
    the timer, a reply `JSON.parse` rejects with the given message, or a socket that
    closed before the command went out (the timer then fires).
  */
  datatype SendOutcome = Responded | TimedOut | Unparsable(message: string) | Dropped

  /** The link one send meets: the reconnect outcome, if one is needed, and the send outcome. */
  datatype Link = Link(connect: ConnectOutcome, send: SendOutcome)

  /**
    `sendCommand`: without a connection it reconnects and throws `Not connected to Hime
    Display` when that resolves `false`, `Connection timeout` when it rejects, in both
    cases before anything is written. Once written, the command fails with `Command
    timeout` or the parse error; a socket found closed clears the flag.
  */
  function SendStep(connected: bool, c: Command, link: Link): (t: Step<bool, string>)
    ensures !connected && link.connect == Errored ==> t == Step(false, false, Some("Not connected to Hime Display"))
    ensures !connected && link.connect == Hangs ==> t == Step(false, false, Some("Connection timeout"))
    ensures t.failure.None? <==> (connected || link.connect == Opened) && link.send == Responded
    ensures t.failure.None? ==> t.delivered && t.state
    ensures t.delivered ==> t.state
  {
    if !connected && link.connect != Opened then
      Step(false, false, Some(if link.connect == Errored then "Not connected to Hime Display" else "Connection timeout"))
    else
      match link.send
      case Responded => Step(true, true, None)
      case TimedOut => Step(true, true, Some("Command timeout"))
      case Unparsable(m) => Step(true, true, Some(m))
      case Dropped => Step(false, false, Some("Command timeout"))
  }

  class HimeDisplayConnection {
    var connected: bool
    /** The commands written to the socket, in order. */
    var sent: seq<Command>

    constructor ()
      ensures !connected && sent == []
    {
      connected := false;
      sent := [];
    }

    /**
      `connect`: resolves `true` once the socket opens, `false` on a socket error, and
      rejects with `Connection timeout` when neither happens in time.
    */
    method Connect(outcome: ConnectOutcome) returns (ok: bool, rejected: Option<string>)
      modifies this`connected
      ensures ok <==> outcome == Opened
      ensures rejected == (if outcome == Hangs then Some("Connection timeout") else None)
      ensures connected == (old(connected) || outcome == Opened)
    {
      match outcome {
        case Opened =>
          connected := true;
          return true, None;
        case Errored =>
          return false, None;
        case Hangs =>
          return false, Some("Connection timeout");
      }
    }

    /** `sendCommand` over `link`: the message of the error it throws, if any. */
    method SendCommand(c: Command, link: Link) returns (failure: Option<string>)
      modifies this
      ensures var t := SendStep(old(connected), c, link);
        failure == t.failure && connected == t.state && sent == old(sent) + (if t.delivered then [c] else [])
    {
      if !connected {
        var ok, rejected := Connect(link.connect);
        if rejected.Some? {
          return rejected;
        }
        if !ok {
          return Some("Not connected to Hime Display");
        }
      }
      match link.send {
        case Responded =>
          sent := sent + [c];
          return None;
        case TimedOut =>
          sent := sent + [c];
          return Some("Command timeout");
        case Unparsable(m) =>
          sent := sent + [c];
          return Some(m);
        case Dropped =>
          connected := false;
          return Some("Command timeout");
      }
    }

    /** `close`: with a socket the flag goes down; without one it was never up. */
    method Close()
      modifies this`connected
      ensures !connected
    {
      connected := false;
    }

    /**
      The awaits of a handler: `cmds` in order, the `j`-th of them meeting `net(k + j)`,
      the first thrown error ending them.
    */
    method SendAll(cmds: seq<Command>, net: nat -> Link, k: nat) returns (failure: Option<string>)
      modifies this
      ensures var run := RunSends(SendStep, old(connected), cmds, net, k);
        sent == old(sent) + run.delivered && connected == run.state && failure == run.failure
      decreases |cmds|
    {
      if cmds == [] {
        return None;
      }
      failure := SendCommand(cmds[0], net(k));
      if failure.None? {
        failure := SendAll(cmds[1..], net, k + 1);
      }
    }
  }
}
