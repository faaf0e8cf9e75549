/**
  The display connection of the example MCP server: `send_command` calls `connect` when
  the flag is down but ignores whether it worked, then writes to whatever socket it has.
  No failure clears the flag, so a connection that once opened is never re-established.
*/
module ExampleMcpConnection {
  import opened Values
  import opened McpCommon

  /**
    What happens to one command on the socket: a reply that parses, a reply
    `json.loads` rejects, a `send` that raises, or a `recv` that raises after the
    command went out. The strings are the messages of those exceptions.
  */
  datatype SendOutcome = Answered | Unparsable(message: string) | SendRaises(message: string) | RecvRaises(message: string)

  /** The link one send meets: the reconnect outcome, if one is needed, and the send outcome. */
  datatype Link = Link(connect: Handshake, send: SendOutcome)

  /** The connection flag, and whether `ws` holds a socket (is not `None`). */
  datatype Conn = Conn(connected: bool, hasSocket: bool)

  /**
    The exceptions a call can end with: a `KeyError` (with its `str`, the `repr` of the
    key), one the interpreter raises on an argument of the wrong type, and any other
    exception with its message.
  */
  datatype Exc = KeyErr(shown: string) | Interp | Raised(message: string)

  const NoSocket := "'NoneType' object has no attribute 'send'"

  /** The connection after the `connect` that `send_command` makes when the flag is down. */
  function Reconnected(s: Conn, outcome: Handshake): (r: Conn)
    ensures r.connected == (s.connected || outcome != Refused)
    ensures r.hasSocket == (s.hasSocket || (!s.connected && outcome != Refused))
  {
    if s.connected || outcome == Refused then s else Conn(true, true)
  }

  /** `send_command` over `link`. Without a socket, `self.ws.send` raises an `AttributeError`. */
  function SendStep(s: Conn, c: Command, link: Link): (t: Step<Conn, Exc>)
    ensures t.state == Reconnected(s, link.connect)
    ensures !t.state.hasSocket ==> t == Step(false, t.state, Some(Raised(NoSocket)))
    ensures t.failure.None? <==> t.state.hasSocket && link.send == Answered
  {
    var r := Reconnected(s, link.connect);
    if !r.hasSocket then Step(false, r, Some(Raised(NoSocket)))
    else
      match link.send
      case Answered => Step(true, r, None)
      case Unparsable(m) => Step(true, r, Some(Raised(m)))
      case SendRaises(m) => Step(false, r, Some(Raised(m)))
      case RecvRaises(m) => Step(true, r, Some(Raised(m)))
  }

  /** A connection that is up stays up through any sends, whatever fails. */
  lemma {:induction false} StaysConnected(s: Conn, cmds: seq<Command>, net: nat -> Link, k: nat)
    requires s.connected
    ensures RunSends(SendStep, s, cmds, net, k).state == s
    decreases |cmds|
  {
    if cmds != [] {
      StaysConnected(s, cmds[1..], net, k + 1);
    }
  }

  class HimeDisplayConnection {
    var connected: bool
    var hasSocket: bool
    /** The commands written to the socket, in order. */
    var sent: seq<Command>

    constructor ()
      ensures !connected && !hasSocket && sent == []
    {
      connected := false;
      hasSocket := false;
      sent := [];
    }

    /** `connect`: the flag is set once the socket opens, even when the welcome message is then lost. */
    method Connect(outcome: Handshake) returns (ok: bool)
      modifies this`connected, this`hasSocket
      ensures ok <==> outcome == Welcomed
      ensures Conn(connected, hasSocket) == (if outcome == Refused then old(Conn(connected, hasSocket)) else Conn(true, true))
    {
      if outcome == Refused {
        return false;
      }
      hasSocket := true;
      connected := true;
      return outcome == Welcomed;
    }

    /** `send_command` over `link`. */
    method SendCommand(c: Command, link: Link) returns (failure: Option<Exc>)
      modifies this
      ensures var t := SendStep(old(Conn(connected, hasSocket)), c, link);
        failure == t.failure && Conn(connected, hasSocket) == t.state && sent == old(sent) + (if t.delivered then [c] else [])
    {
      if !connected {
        var _ := Connect(link.connect);
      }
      if !hasSocket {
        return Some(Raised(NoSocket));
      }
      match link.send {
        case Answered =>
          sent := sent + [c];
          return None;
        case Unparsable(m) =>
          sent := sent + [c];
          return Some(Raised(m));
        case SendRaises(m) =>
          return Some(Raised(m));
        case RecvRaises(m) =>
          sent := sent + [c];
          return Some(Raised(m));
      }
    }

    /**
      The awaits of a handler: `cmds` in order, the `j`-th of them meeting `net(k + j)`,
      the first exception ending them.
    */
    method SendAll(cmds: seq<Command>, net: nat -> Link, k: nat) returns (failure: Option<Exc>)
      modifies this
      ensures var run := RunSends(SendStep, old(Conn(connected, hasSocket)), cmds, net, k);
        sent == old(sent) + run.delivered && Conn(connected, hasSocket) == run.state && failure == run.failure
      decreases |cmds|
    {
      if cmds == [] {
        return None;
      }
      failure := SendCommand(cmds[0], net(k));
      if failure.None? {
        failure := SendAll(cmds[1..], net, k + 1);
      }
    }

    /** `close`: with a socket, the flag goes down; the next send then reconnects. */
    method Close()
      modifies this`connected
      ensures connected == (old(connected) && !hasSocket)
    {
      if hasSocket {
        connected := false;
      }
    }
  }
}
