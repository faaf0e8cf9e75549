/**
  The API gateway of the main process: its configuration defaults, the registry of
  WebSocket clients, the validation of incoming envelopes (an `api-command` event and an
  acknowledgement, or an error frame), broadcasting to open clients, and the decision an
  HTTP request gets. Sockets are numbered; what the gateway sends is appended to a log of
  `(client, frame)` pairs, and the `api-command` events to a log of messages. JSON
  parsing is an input: a frame or body either parsed to a value or failed with a reason.
*/
module ApiGateway {
  import opened Values

  type ClientId = nat

  const DefaultWsPort: real := 8765.0
  const DefaultHttpPort: real := 8766.0
  /** `WebSocket.OPEN`. */
  const Open: int := 1

  const ActionRequired := "Message must contain an 'action' field"
  const InvalidJson := "Invalid JSON format"
  /** The TypeError reading `.action` of `null`; its exact text is the JavaScript engine's. */
  const NullMessageError := "Cannot read properties of null (reading 'action')"

  /** The result of `JSON.parse` on a frame or a request body. */
  datatype ParseResult = Parsed(value: Value) | Malformed(reason: string)

  /** The frames the gateway sends on a socket (timestamps are not modelled). */
  datatype Frame =
    | Welcome                                   // {type: "connection", status: "connected", ...}
    | ErrorFrame(message: string, error: Option<string>) // {type: "error", message, error?}
    | Ack(action: Value)                        // {type: "ack", action}
    | Broadcast(payload: Value)                 // JSON.stringify(message) of `broadcast`

  /**
    The configuration object: `wsPort`, `httpPort` and `enabled` get defaults, and the
    spread of the caller's configuration comes last, so every key the caller gave keeps
    the caller's value, falsy or not.
  */
  function EffectiveConfig(cfg: map<string, Value>): (r: map<string, Value>)
    ensures r.Keys == cfg.Keys + {"wsPort", "httpPort", "enabled"}
    ensures forall k :: k in cfg ==> r[k] == cfg[k]
    ensures "wsPort" !in cfg ==> r["wsPort"] == Num(DefaultWsPort)
    ensures "httpPort" !in cfg ==> r["httpPort"] == Num(DefaultHttpPort)
    ensures "enabled" !in cfg ==> r["enabled"] == Bool(true)
  {
    var wsPort := if "wsPort" in cfg && Truthy(cfg["wsPort"]) then cfg["wsPort"] else Num(DefaultWsPort);
    var httpPort := if "httpPort" in cfg && Truthy(cfg["httpPort"]) then cfg["httpPort"] else Num(DefaultHttpPort);
    var enabled := Bool(!("enabled" in cfg && cfg["enabled"] == Bool(false)));
    map["wsPort" := wsPort, "httpPort" := httpPort, "enabled" := enabled] + cfg
  }

  /** `start` goes on only when the effective `enabled` is truthy. */
  predicate Enabled(config: map<string, Value>): (r: bool)
    ensures r <==> "enabled" in config && config["enabled"] !in {Undefined, Null, Bool(false), Num(0.0), Str("")}
  {
    "enabled" in config && Truthy(config["enabled"])
  }

  /**
    The servers start unless the caller's `enabled` is present and falsy: `false`, but
    also `0`, `""` or `null`, which the spread copies over the computed default.
  */
  lemma EnabledUnlessFalsy(cfg: map<string, Value>)
    ensures Enabled(EffectiveConfig(cfg)) <==> ("enabled" !in cfg || Truthy(cfg["enabled"]))
  {
  }

  /** With no configuration the ports are the defaults and the gateway is enabled. */
  lemma DefaultConfig()
    ensures EffectiveConfig(map[]) == map["wsPort" := Num(DefaultWsPort), "httpPort" := Num(DefaultHttpPort), "enabled" := Bool(true)]
  {
  }

  /** What `handleMessage(message, ws)` does: whether it throws, the frames sent back to `ws`, the events emitted. */
  datatype Effect = Effect(threw: bool, replies: seq<Frame>, emitted: seq<Value>)

  function MessageEffect(message: Value, fromSocket: bool): (e: Effect)
    ensures e.threw <==> Nullish(message)
    ensures |e.emitted| <= 1 && |e.replies| <= 1
    ensures e.emitted != [] <==> !Nullish(message) && Truthy(Prop(message, "action"))
    ensures e.emitted != [] ==> e.emitted == [message]
    ensures !fromSocket ==> e.replies == []
  {
    if Nullish(message) then Effect(true, [], [])
    else
      var action := Prop(message, "action");
      if !Truthy(action) then Effect(false, if fromSocket then [ErrorFrame(ActionRequired, None)] else [], [])
      else Effect(false, if fromSocket then [Ack(action)] else [], [message])
  }

  /** An envelope without a truthy `action` gets an error frame and emits nothing, in particular no ack. */
  lemma MissingActionRejected(message: Value)
    requires !Nullish(message) && !Truthy(Prop(message, "action"))
    ensures MessageEffect(message, true) == Effect(false, [ErrorFrame(ActionRequired, None)], [])
    ensures MessageEffect(message, false) == Effect(false, [], [])
  {
  }

  /** An envelope with an action is emitted once and acknowledged with that same action. */
  lemma ActionEmittedAndAcked(message: Value)
    requires !Nullish(message) && Truthy(Prop(message, "action"))
    ensures MessageEffect(message, true) == Effect(false, [Ack(message.fields["action"])], [message])
  {
  }

  /** The reply an HTTP request gets (CORS headers and timestamps are not modelled). */
  datatype HttpReply =
    | Preflight                  // 200, empty body
    | CommandReceived            // 200 {status: "success", message: "Command received"}
    | BadRequest(message: string) // 400 {status: "error", message}
    | Health                     // 200 {status: "ok"}
    | EndpointNotFound           // 404 {status: "error", message: "Endpoint not found"}

  function Status(reply: HttpReply): (r: int)
    ensures r == 200 <==> reply.Preflight? || reply.CommandReceived? || reply.Health?
    ensures r == 400 <==> reply.BadRequest?
    ensures r == 404 <==> reply.EndpointNotFound?
  {
    match reply
    case Preflight => 200
    case CommandReceived => 200
    case BadRequest(_) => 400
    case Health => 200
    case EndpointNotFound => 404
  }

  /**
    The request handler's decision. A POST on any path parses its body and hands it to
    `handleMessage`; only a body that fails to parse, or parses to `null`, makes it throw.
  */
  function Route(verb: string, url: string, body: ParseResult): (r: HttpReply)
    ensures r.Preflight? <==> verb == "OPTIONS"
    ensures r.CommandReceived? <==> verb == "POST" && body.Parsed? && !Nullish(body.value)
    ensures r.BadRequest? <==> verb == "POST" && (body.Malformed? || Nullish(body.value))
    ensures r.BadRequest? ==> r.message == (if body.Malformed? then body.reason else NullMessageError)
    ensures r.Health? <==> verb == "GET" && url == "/health"
    ensures r.EndpointNotFound? <==> verb != "OPTIONS" && verb != "POST" && !(verb == "GET" && url == "/health")
  {
    if verb == "OPTIONS" then Preflight
    else if verb == "POST" then
      match body
      case Malformed(reason) => BadRequest(reason)
      case Parsed(v) => if MessageEffect(v, false).threw then BadRequest(NullMessageError) else CommandReceived
    else if verb == "GET" && url == "/health" then Health
    else EndpointNotFound
  }

  /**
    The routing table: 200 for a preflight, for a POST whose body parses to something
    other than `null` (with or without an action) and for `GET /health`; 400 for any
    other POST; 404 for everything else.
  */
  lemma RouteTable(verb: string, url: string, body: ParseResult)
    ensures Status(Route(verb, url, body)) == 200 <==>
      verb == "OPTIONS"
      || (verb == "POST" && body.Parsed? && !Nullish(body.value))
      || (verb == "GET" && url == "/health")
    ensures Status(Route(verb, url, body)) == 400 <==>
      verb == "POST" && (body.Malformed? || Nullish(body.value))
    ensures Status(Route(verb, url, body)) == 404 <==>
      verb != "OPTIONS" && verb != "POST" && !(verb == "GET" && url == "/health")
  {
  }

  /** A POST body without an action is still "Command received", and emits nothing. */
  lemma PostWithoutActionAccepted(url: string, v: Value)
    requires !Nullish(v) && !Truthy(Prop(v, "action"))
    ensures Route("POST", url, Parsed(v)) == CommandReceived
    ensures MessageEffect(v, false).emitted == []
  {
  }

  /** The recipients of the frames logged from position `from` on. */
  function Recipients(log: seq<(ClientId, Frame)>, from: nat): (r: set<ClientId>)
    ensures from >= |log| ==> r == {}
    ensures forall j :: from <= j < |log| ==> log[j].0 in r
    ensures forall c :: c in r ==> exists j :: from <= j < |log| && log[j].0 == c
  {
    set j | from <= j < |log| :: log[j].0
  }

  lemma RecipientsAppend(log: seq<(ClientId, Frame)>, from: nat, entry: (ClientId, Frame))
    requires from <= |log|
    ensures Recipients(log + [entry], from) == Recipients(log, from) + {entry.0}
  {
    var after := log + [entry];
    assert after[|log|].0 == entry.0;
    forall x | x in Recipients(log, from)
      ensures x in Recipients(after, from)
    {
      var j :| from <= j < |log| && log[j].0 == x;
      assert after[j] == log[j];
    }
  }

  class ApiServer {
    const config: map<string, Value>
    /** Whether the WebSocket and HTTP servers were started. */
    var running: bool
    /** The registry of connected sockets. */
    var clients: set<ClientId>
    /** Each socket's `readyState`, as the transport reports it. */
    var readyState: map<ClientId, int>
    /** Every frame sent, with its recipient, oldest first. */
    var sent: seq<(ClientId, Frame)>
    /** The `api-command` events, oldest first. */
    var emitted: seq<Value>

    constructor (cfg: map<string, Value>)
      ensures config == EffectiveConfig(cfg)
      ensures !running && clients == {} && readyState == map[] && sent == [] && emitted == []
    {
      config := EffectiveConfig(cfg);
      running := false;
      clients := {};
      readyState := map[];
      sent := [];
      emitted := [];
    }

    /** The registered clients whose socket is open. */
    function OpenClients(): (r: set<ClientId>)
      reads this
      ensures r <= clients
      ensures forall c :: c in r <==> c in clients && c in readyState && readyState[c] == Open
    {
      set c | c in clients && c in readyState && readyState[c] == Open
    }

    /** `start`: a disabled gateway logs and returns; otherwise both servers start. */
    method Start()
      modifies this`running
      ensures running == (old(running) || Enabled(config))
    {
      if !Enabled(config) {
        return;
      }
      running := true;
    }

    /** A socket connects: it is registered, open, and sent the welcome frame. */
    method OnConnection(c: ClientId)
      modifies this`clients, this`readyState, this`sent
      ensures clients == old(clients) + {c}
      ensures readyState == old(readyState)[c := Open]
      ensures sent == old(sent) + [(c, Welcome)]
    {
      clients := clients + {c};
      readyState := readyState[c := Open];
      sent := sent + [(c, Welcome)];
    }

    /** The transport changing a socket's ready state (closing, closed). */
    method SetReadyState(c: ClientId, state: int)
      modifies this`readyState
      ensures readyState == old(readyState)[c := state]
    {
      readyState := readyState[c := state];
    }

    /** `handleMessage(message, ws)`; `threw` is the exception it lets escape. */
    method HandleMessage(message: Value, ws: Option<ClientId>) returns (threw: bool)
      modifies this`sent, this`emitted
      ensures var e := MessageEffect(message, ws.Some?);
        && threw == e.threw
        && emitted == old(emitted) + e.emitted
        && sent == old(sent) + (if ws.Some? then seq(|e.replies|, i requires 0 <= i < |e.replies| => (ws.value, e.replies[i])) else [])
    {
      if Nullish(message) {
        return true;
      }
      threw := false;
      var action := Prop(message, "action");
      if !Truthy(action) {
        if ws.Some? {
          sent := sent + [(ws.value, ErrorFrame(ActionRequired, None))];
        }
        return;
      }
      emitted := emitted + [message];
      if ws.Some? {
        sent := sent + [(ws.value, Ack(action))];
      }
    }

    /**
      A frame from socket `c`: a parse failure, or an exception from `handleMessage`,
      answers with an "Invalid JSON format" error; the registry never changes.
    */
    method OnFrame(c: ClientId, frame: ParseResult)
      modifies this`sent, this`emitted
      ensures frame.Malformed? ==> emitted == old(emitted) && sent == old(sent) + [(c, ErrorFrame(InvalidJson, Some(frame.reason)))]
      ensures frame.Parsed? && Nullish(frame.value) ==>
        emitted == old(emitted) && sent == old(sent) + [(c, ErrorFrame(InvalidJson, Some(NullMessageError)))]
      ensures frame.Parsed? && !Nullish(frame.value) ==>
        var e := MessageEffect(frame.value, true);
        emitted == old(emitted) + e.emitted && sent == old(sent) + [(c, e.replies[0])]
    {
      match frame
      case Malformed(reason) =>
        sent := sent + [(c, ErrorFrame(InvalidJson, Some(reason)))];
      case Parsed(v) =>
        var threw := HandleMessage(v, Some(c));
        if threw {
          sent := sent + [(c, ErrorFrame(InvalidJson, Some(NullMessageError)))];
        }
    }

    /** A socket closes: exactly that client leaves the registry. */
    method OnClose(c: ClientId)
      modifies this`clients
      ensures clients == old(clients) - {c}
    {
      clients := clients - {c};
    }

    /** An HTTP request: the reply of `Route`, and the body's command emitted when it has an action. */
    method OnHttpRequest(verb: string, url: string, body: ParseResult) returns (reply: HttpReply)
      modifies this`sent, this`emitted
      ensures reply == Route(verb, url, body)
      ensures sent == old(sent)
      ensures emitted == old(emitted) +
        (if verb != "OPTIONS" && verb == "POST" && body.Parsed? then MessageEffect(body.value, false).emitted else [])
    {
      if verb == "OPTIONS" {
        return Preflight;
      }
      if verb == "POST" {
        match body
        case Malformed(reason) =>
          return BadRequest(reason);
        case Parsed(v) =>
          var threw := HandleMessage(v, None);
          if threw {
            return BadRequest(NullMessageError);
          }
          return CommandReceived;
      }
      if verb == "GET" && url == "/health" {
        return Health;
      }
      return EndpointNotFound;
    }

    /**
      `broadcast(message)`: one frame to every registered client whose socket is open,
      none to any other, and the registry is left as it was.
    */
    method BroadcastMessage(payload: Value)
      modifies this`sent
      ensures |sent| == |old(sent)| + |OpenClients()|
      ensures sent[..|old(sent)|] == old(sent)
      ensures forall j :: |old(sent)| <= j < |sent| ==> sent[j].1 == Broadcast(payload)
      ensures Recipients(sent, |old(sent)|) == OpenClients()
    {
      var remaining := clients;
      ghost var delivered: set<ClientId> := {};
      ghost var start := |sent|;
      while remaining != {}
        invariant remaining <= clients && delivered == (set c | c in clients - remaining && c in readyState && readyState[c] == Open)
        invariant |sent| == start + |delivered|
        invariant sent[..start] == old(sent)
        invariant forall j :: start <= j < |sent| ==> sent[j].1 == Broadcast(payload)
        invariant Recipients(sent, start) == delivered
        decreases remaining
      {
        var c :| c in remaining;
        assert c !in delivered;
        var open := Offer(c, payload, start);
        if open {
          delivered := delivered + {c};
        }
        remaining := remaining - {c};
      }
      assert delivered == OpenClients();
    }

    /** One client of the broadcast: a frame for it when its socket is open, nothing otherwise. */
    method Offer(c: ClientId, payload: Value, ghost start: nat) returns (open: bool)
      requires start <= |sent|
      modifies this`sent
      ensures open <==> c in readyState && readyState[c] == Open
      ensures sent == old(sent) + (if open then [(c, Broadcast(payload))] else [])
      ensures sent[..start] == old(sent)[..start]
      ensures Recipients(sent, start) == Recipients(old(sent), start) + (if open then {c} else {})
    {
      open := c in readyState && readyState[c] == Open;
      if open {
        RecipientsAppend(sent, start, (c, Broadcast(payload)));
        sent := sent + [(c, Broadcast(payload))];
      }
    }

    /** `stop`: the servers close and the registry is cleared. */
    method Stop()
      modifies this`running, this`clients
      ensures !running && clients == {}
    {
      running := false;
      clients := {};
    }
  }
}
