/**
  The command router of the main process: `handle` looks the envelope's `action` up in a
  fixed table, the handler checks its required fields and translates the command into
  control messages for the display window's model manager, and every failure comes back
  as `{success: false, error}`. The display window is a flag and the IPC channel to it an
  outbox; window-manager calls are recorded as requests.
*/
module CommandRouter {
  import opened Values

  const UnknownAction := "Unknown action"
  const DisplayNotOpen := "Display window is not open"
  /**
    The TypeError a handler throws when it destructures `undefined` or `null`; its
    exact text is the JavaScript engine's.
  */
  const DestructureError := "Cannot destructure property of undefined or null"

  /** `{channel, data}` as sent on `control2display:send-to-model-manager`. */
  datatype ControlMessage = ControlMessage(channel: string, data: map<string, Value>)

  /** `{success: true, action, ...echo}` or `{success: false, error}`. */
  datatype CommandResult = Succeeded(action: string, echo: map<string, Value>) | Failed(error: string)

  /** Calls the router makes on the window manager instead of the display window. */
  datatype WindowRequest =
    | LoadModelRequest(model: Value)   // `sendMessageToWindow("control", "api:load-model", data)`
    | ShowDisplayWindow                // `windows.display.show()`
    | OpenDisplayWindow                // `openWindow(display-mode)` when there is no display window
    | HideDisplayWindow                // `windows.display.hide()`

  /**
    What a handler does when every send succeeds: the control messages it sends, in
    order, the window-manager requests it makes, and the result it returns afterwards.
  */
  datatype Plan = Plan(messages: seq<ControlMessage>, requests: seq<WindowRequest>, outcome: CommandResult)

  /** The actions of the dispatch table. */
  const KnownActions: set<string> := {
    "setParameter", "setParameters", "playMotion", "playRandomMotion", "stopMotion",
    "setExpression", "setPart", "setParts", "setAutoBreath", "setAutoEyeBlink",
    "setTrackMouse", "setFocus", "loadModel", "showDisplay", "hideDisplay", "getModelInfo",
    "playSequence", "stopSequence", "setBodyGroup", "setSkin", "setSequenceSpeed",
    "setSequenceLoop"
  }

  /** The channel of the instant-configuration control message. */
  const InstantConfigChannel := "control:change-instant-config"

  function Reject(error: string): Plan {
    Plan([], [], Failed(error))
  }

  function Single(channel: string, data: map<string, Value>, action: string, echo: map<string, Value>): Plan {
    Plan([ControlMessage(channel, data)], [], Succeeded(action, echo))
  }

  /** `setParameter` / `setPart`: `idKey` must be truthy and `value` defined. */
  function KeyedValuePlan(data: Value, idKey: string, channel: string, action: string, error: string): (r: Plan)
    ensures r.requests == [] && (r.outcome.Failed? ==> r.messages == [])
    ensures Nullish(data) ==> r.outcome == Failed(DestructureError)
    ensures !Nullish(data) && !(Truthy(Prop(data, idKey)) && Prop(data, "value") != Undefined) ==> r.outcome == Failed(error)
    ensures r.outcome.Succeeded? <==> !Nullish(data) && Truthy(Prop(data, idKey)) && Prop(data, "value") != Undefined
    ensures r.outcome.Succeeded? ==>
      r.messages == [ControlMessage(channel, map[idKey := Prop(data, idKey), "value" := Prop(data, "value")])]
      && r.outcome == Succeeded(action, r.messages[0].data)
  {
    if Nullish(data) then Reject(DestructureError)
    else
      var id := Prop(data, idKey);
      var v := Prop(data, "value");
      if !Truthy(id) || v == Undefined then Reject(error)
      else Single(channel, map[idKey := id, "value" := v], action, map[idKey := id, "value" := v])
  }

  /** The message one entry of a `parameters` / `parts` array turns into. */
  function EntryMessage(channel: string, idKey: string, entry: Value): ControlMessage {
    ControlMessage(channel, map[idKey := Prop(entry, idKey), "value" := Prop(entry, "value")])
  }

  /**
    The `forEach` over a batch: one message per entry, in order, until an entry that
    cannot be destructured; the flag says whether such an entry stopped the loop.
  */
  function Batch(channel: string, idKey: string, entries: seq<Value>): (r: (seq<ControlMessage>, bool))
    ensures r.1 <==> exists i :: 0 <= i < |entries| && Nullish(entries[i])
    ensures !r.1 ==> |r.0| == |entries|
    ensures |r.0| <= |entries|
    ensures forall i :: 0 <= i < |r.0| ==> !Nullish(entries[i]) && r.0[i] == EntryMessage(channel, idKey, entries[i])
    ensures r.1 ==> Nullish(entries[|r.0|])
  {
    if entries == [] then ([], false)
    else if Nullish(entries[0]) then ([], true)
    else
      var rest := Batch(channel, idKey, entries[1..]);
      assert forall i :: 1 <= i < |entries| ==> entries[i] == entries[1..][i - 1];
      ([EntryMessage(channel, idKey, entries[0])] + rest.0, rest.1)
  }

  /** `setParameters` / `setParts`: the array is required; its entries are not validated. */
  function BatchPlan(data: Value, listKey: string, idKey: string, channel: string, action: string, error: string): (r: Plan)
    ensures r.requests == []
    ensures Nullish(data) ==> r == Reject(DestructureError)
    ensures !Nullish(data) && !Prop(data, listKey).Arr? ==> r == Reject(error)
    ensures !Nullish(data) && Prop(data, listKey).Arr? ==>
      var entries := Prop(data, listKey).items;
      && |r.messages| <= |entries|
      && (forall i :: 0 <= i < |r.messages| ==> r.messages[i] == EntryMessage(channel, idKey, entries[i]))
      && (r.outcome.Succeeded? <==> forall i :: 0 <= i < |entries| ==> !Nullish(entries[i]))
      && (r.outcome.Succeeded? ==> |r.messages| == |entries| && r.outcome == Succeeded(action, map["count" := Num(|entries| as real)]))
      && (r.outcome.Failed? ==> r.outcome.error == DestructureError && |r.messages| < |entries| && Nullish(entries[|r.messages|]))
  {
    if Nullish(data) then Reject(DestructureError)
    else
      var list := Prop(data, listKey);
      if !list.Arr? then Reject(error)
      else
        var b := Batch(channel, idKey, list.items);
        if b.1 then Plan(b.0, [], Failed(DestructureError))
        else Plan(b.0, [], Succeeded(action, map["count" := Num(|list.items| as real)]))
  }

  /** Instant-configuration commands: the field must be defined; it is sent under `configName`. */
  function InstantConfigPlan(data: Value, field: string, configName: string, action: string, error: string): (r: Plan)
    ensures r.requests == [] && (r.outcome.Failed? ==> r.messages == [])
    ensures r.outcome.Succeeded? <==> !Nullish(data) && Prop(data, field) != Undefined
    ensures !Nullish(data) && Prop(data, field) == Undefined ==> r.outcome == Failed(error)
    ensures r.outcome.Succeeded? ==>
      r.messages == [ControlMessage(InstantConfigChannel, map["name" := Str(configName), "value" := Prop(data, field)])]
      && r.outcome == Succeeded(action, map[field := Prop(data, field)])
  {
    if Nullish(data) then Reject(DestructureError)
    else
      var v := Prop(data, field);
      if v == Undefined then Reject(error)
      else Single(InstantConfigChannel, map["name" := Str(configName), "value" := v], action, map[field := v])
  }

  /** The `{group, index?, file?, File?}` motion description of `playMotion`. */
  function MotionInfo(data: Value): (m: map<string, Value>)
    ensures m.Keys <= {"group", "index", "file", "File"}
    ensures "group" in m && m["group"] == Prop(data, "group")
    ensures ("index" in m <==> Prop(data, "index") != Undefined) && ("index" in m ==> m["index"] == Prop(data, "index"))
    ensures ("file" in m <==> Truthy(Prop(data, "file"))) && ("file" in m ==> m["file"] == Prop(data, "file"))
    ensures ("File" in m <==> Truthy(Prop(data, "File"))) && ("File" in m ==> m["File"] == Prop(data, "File"))
  {
    var group := Prop(data, "group");
    var index := Prop(data, "index");
    var file := Prop(data, "file");
    var bigFile := Prop(data, "File");
    map["group" := group]
      + (if index != Undefined then map["index" := index] else map[])
      + (if Truthy(file) then map["file" := file] else map[])
      + (if Truthy(bigFile) then map["File" := bigFile] else map[])
  }

  function PlayMotionPlan(data: Value): (r: Plan)
    ensures r.requests == [] && (r.outcome.Failed? ==> r.messages == [])
    ensures r.outcome.Succeeded? <==> !Nullish(data) && Truthy(Prop(data, "group"))
    ensures !Nullish(data) && !Truthy(Prop(data, "group")) ==> r.outcome == Failed("group is required")
    ensures r.outcome.Succeeded? ==>
      r.messages == [ControlMessage("control:play-motion", map["motion" := Obj(MotionInfo(data))])]
      && r.outcome == Succeeded("playMotion", r.messages[0].data)
  {
    if Nullish(data) then Reject(DestructureError)
    else if !Truthy(Prop(data, "group")) then Reject("group is required")
    else
      var info := Obj(MotionInfo(data));
      Single("control:play-motion", map["motion" := info], "playMotion", map["motion" := info])
  }

  /** `playRandomMotion(data = {})`: a missing `data` is the empty object, `null` still throws. */
  function PlayRandomMotionPlan(data: Value): (r: Plan)
    ensures r.requests == [] && (r.outcome.Failed? ==> r.messages == [])
    ensures r.outcome.Failed? <==> data.Null?
    ensures r.outcome.Succeeded? ==>
      var g := Prop(data, "group");
      |r.messages| == 1 && r.messages[0].channel == "control:play-motion"
      && r.messages[0].data == map["motion" := Obj(map["group" := (if Truthy(g) then g else Null), "random" := Bool(true)])]
      && r.outcome == Succeeded("playRandomMotion", map["group" := if Truthy(g) then g else Str("any")])
  {
    if data.Null? then Reject(DestructureError)
    else
      var group := Prop(data, "group");
      var sent := if Truthy(group) then group else Null;
      var reported := if Truthy(group) then group else Str("any");
      Single("control:play-motion", map["motion" := Obj(map["group" := sent, "random" := Bool(true)])],
             "playRandomMotion", map["group" := reported])
  }

  function SetExpressionPlan(data: Value): (r: Plan)
    ensures r.requests == [] && (r.outcome.Failed? ==> r.messages == [])
    ensures r.outcome.Succeeded? <==> !Nullish(data) && Truthy(Prop(data, "expression"))
    ensures !Nullish(data) && !Truthy(Prop(data, "expression")) ==> r.outcome == Failed("expression is required")
    ensures r.outcome.Succeeded? ==>
      r.messages == [ControlMessage("control:set-expression", map["expression" := Prop(data, "expression")])]
      && r.outcome == Succeeded("setExpression", r.messages[0].data)
  {
    if Nullish(data) then Reject(DestructureError)
    else
      var e := Prop(data, "expression");
      if !Truthy(e) then Reject("expression is required")
      else Single("control:set-expression", map["expression" := e], "setExpression", map["expression" := e])
  }

  function SetFocusPlan(data: Value): (r: Plan)
    ensures r.requests == [] && (r.outcome.Failed? ==> r.messages == [])
    ensures r.outcome.Succeeded? <==> !Nullish(data) && Prop(data, "x") != Undefined && Prop(data, "y") != Undefined
    ensures !Nullish(data) && (Prop(data, "x") == Undefined || Prop(data, "y") == Undefined) ==> r.outcome == Failed("x and y are required")
    ensures r.outcome.Succeeded? ==>
      r.messages == [ControlMessage("control:set-focus", map["x" := Prop(data, "x"), "y" := Prop(data, "y")])]
      && r.outcome == Succeeded("setFocus", r.messages[0].data)
  {
    if Nullish(data) then Reject(DestructureError)
    else
      var x := Prop(data, "x");
      var y := Prop(data, "y");
      if x == Undefined || y == Undefined then Reject("x and y are required")
      else Single("control:set-focus", map["x" := x, "y" := y], "setFocus", map["x" := x, "y" := y])
  }

  function PlaySequencePlan(data: Value): (r: Plan)
    ensures r.requests == [] && (r.outcome.Failed? ==> r.messages == [])
    ensures r.outcome.Succeeded? <==> !Nullish(data) && (Prop(data, "sequenceIndex") != Undefined || Truthy(Prop(data, "sequenceName")))
    ensures !Nullish(data) && Prop(data, "sequenceIndex") == Undefined && !Truthy(Prop(data, "sequenceName")) ==>
      r.outcome == Failed("sequenceIndex or sequenceName is required")
    ensures r.outcome.Succeeded? ==>
      r.messages == [ControlMessage("control:play-sequence",
                      map["sequenceIndex" := Prop(data, "sequenceIndex"), "sequenceName" := Prop(data, "sequenceName")])]
      && r.outcome == Succeeded("playSequence", r.messages[0].data)
  {
    if Nullish(data) then Reject(DestructureError)
    else
      var index := Prop(data, "sequenceIndex");
      var name := Prop(data, "sequenceName");
      if index == Undefined && !Truthy(name) then Reject("sequenceIndex or sequenceName is required")
      else
        var fields := map["sequenceIndex" := index, "sequenceName" := name];
        Single("control:play-sequence", fields, "playSequence", fields)
  }

  function SetBodyGroupPlan(data: Value): (r: Plan)
    ensures r.requests == [] && (r.outcome.Failed? ==> r.messages == [])
    ensures r.outcome.Succeeded? <==> !Nullish(data) && Prop(data, "bodyGroupIndex") != Undefined && Prop(data, "value") != Undefined
    ensures !Nullish(data) && (Prop(data, "bodyGroupIndex") == Undefined || Prop(data, "value") == Undefined) ==>
      r.outcome == Failed("bodyGroupIndex and value are required")
    ensures r.outcome.Succeeded? ==>
      r.messages == [ControlMessage("control:set-bodygroup",
                      map["bodyGroupIndex" := Prop(data, "bodyGroupIndex"), "value" := Prop(data, "value")])]
      && r.outcome == Succeeded("setBodyGroup", r.messages[0].data)
  {
    if Nullish(data) then Reject(DestructureError)
    else
      var index := Prop(data, "bodyGroupIndex");
      var v := Prop(data, "value");
      if index == Undefined || v == Undefined then Reject("bodyGroupIndex and value are required")
      else
        var fields := map["bodyGroupIndex" := index, "value" := v];
        Single("control:set-bodygroup", fields, "setBodyGroup", fields)
  }

  function SetSkinPlan(data: Value): (r: Plan)
    ensures r.requests == [] && (r.outcome.Failed? ==> r.messages == [])
    ensures r.outcome.Succeeded? <==> !Nullish(data) && Prop(data, "skinIndex") != Undefined
    ensures !Nullish(data) && Prop(data, "skinIndex") == Undefined ==> r.outcome == Failed("skinIndex is required")
    ensures r.outcome.Succeeded? ==>
      r.messages == [ControlMessage("control:set-skin", map["skinIndex" := Prop(data, "skinIndex")])]
      && r.outcome == Succeeded("setSkin", r.messages[0].data)
  {
    if Nullish(data) then Reject(DestructureError)
    else
      var index := Prop(data, "skinIndex");
      if index == Undefined then Reject("skinIndex is required")
      else Single("control:set-skin", map["skinIndex" := index], "setSkin", map["skinIndex" := index])
  }

  /** The switch of `handle`: the handler's plan, given whether a display window exists. */
  function Translate(action: Value, data: Value, displayOpen: bool): (r: Plan)
    ensures !(action.Str? && action.s in KnownActions) ==> r == Reject(UnknownAction)
    ensures r.outcome.Succeeded? ==> action.Str? && r.outcome.action == action.s
    ensures r.requests != [] ==> action.Str? && action.s in {"loadModel", "showDisplay", "hideDisplay"}
    ensures !(action == Str("setParameters") || action == Str("setParts")) ==>
      |r.messages| <= 1 && (r.outcome.Failed? ==> r.messages == [])
  {
    if !action.Str? then Reject(UnknownAction)
    else
      match action.s
      case "setParameter" =>
        KeyedValuePlan(data, "parameterId", "control:set-parameter", "setParameter", "parameterId and value are required")
      case "setParameters" =>
        BatchPlan(data, "parameters", "parameterId", "control:set-parameter", "setParameters", "parameters must be an array")
      case "playMotion" => PlayMotionPlan(data)
      case "playRandomMotion" => PlayRandomMotionPlan(data)
      case "stopMotion" =>
        Single("control:play-motion", map["motion" := Obj(map["group" := Str("none")])], "stopMotion", map[])
      case "setExpression" => SetExpressionPlan(data)
      case "setPart" =>
        KeyedValuePlan(data, "partId", "control:set-part", "setPart", "partId and value are required")
      case "setParts" =>
        BatchPlan(data, "parts", "partId", "control:set-part", "setParts", "parts must be an array")
      case "setAutoBreath" => InstantConfigPlan(data, "enabled", "autoBreath", "setAutoBreath", "enabled is required")
      case "setAutoEyeBlink" => InstantConfigPlan(data, "enabled", "autoEyeBlink", "setAutoEyeBlink", "enabled is required")
      case "setTrackMouse" => InstantConfigPlan(data, "enabled", "trackMouse", "setTrackMouse", "enabled is required")
      case "setFocus" => SetFocusPlan(data)
      case "loadModel" => Plan([], [LoadModelRequest(data)], Succeeded("loadModel", map["model" := data]))
      case "showDisplay" =>
        Plan([], [if displayOpen then ShowDisplayWindow else OpenDisplayWindow], Succeeded("showDisplay", map[]))
      case "hideDisplay" =>
        Plan([], if displayOpen then [HideDisplayWindow] else [], Succeeded("hideDisplay", map[]))
      case "getModelInfo" =>
        Plan([], [], Succeeded("getModelInfo", map["message" := Str("Query sent to display window")]))
      case "playSequence" => PlaySequencePlan(data)
      case "stopSequence" => Single("control:stop-sequence", map[], "stopSequence", map[])
      case "setBodyGroup" => SetBodyGroupPlan(data)
      case "setSkin" => SetSkinPlan(data)
      case "setSequenceSpeed" =>
        InstantConfigPlan(data, "speed", "animationSpeed", "setSequenceSpeed", "speed is required")
      case "setSequenceLoop" =>
        InstantConfigPlan(data, "loop", "loopAnimation", "setSequenceLoop", "loop is required")
      case _ => Reject(UnknownAction)
  }

  /** What `handle` returns, sends and requests, `sendToDisplay` failing when there is no display window. */
  datatype Outcome = Outcome(result: CommandResult, sent: seq<ControlMessage>, requests: seq<WindowRequest>)

  function HandleOutcome(action: Value, data: Value, displayOpen: bool): (o: Outcome)
    ensures !displayOpen ==> o.sent == []
    ensures o.sent == [] || o.sent == Translate(action, data, displayOpen).messages
    ensures o.result.Succeeded? ==> o.sent == Translate(action, data, displayOpen).messages
  {
    var p := Translate(action, data, displayOpen);
    if !displayOpen && |p.messages| > 0 then Outcome(Failed(DisplayNotOpen), [], p.requests)
    else Outcome(p.outcome, p.messages, p.requests)
  }

  class CommandHandler {
    /** Whether `windowManager.windows.display` exists. */
    var displayOpen: bool
    /** The control messages delivered to the display window, oldest first. */
    var outbox: seq<ControlMessage>
    /** The window-manager calls made, oldest first. */
    var requests: seq<WindowRequest>

    constructor (displayOpen: bool)
      ensures this.displayOpen == displayOpen && outbox == [] && requests == []
    {
      this.displayOpen := displayOpen;
      outbox := [];
      requests := [];
    }

    /** The window manager opening or closing the display window. */
    method SetDisplayWindow(open: bool)
      modifies this`displayOpen
      ensures displayOpen == open
    {
      displayOpen := open;
    }

    /** `sendToDisplay`: throws without a display window, else delivers one message. */
    method SendToDisplay(channel: string, data: map<string, Value>) returns (error: Option<string>)
      modifies this`outbox
      ensures displayOpen ==> error == None && outbox == old(outbox) + [ControlMessage(channel, data)]
      ensures !displayOpen ==> error == Some(DisplayNotOpen) && outbox == old(outbox)
    {
      if !displayOpen {
        return Some(DisplayNotOpen);
      }
      outbox := outbox + [ControlMessage(channel, data)];
      error := None;
    }

    /**
      `handle(command)`: the destructuring of `command` comes before the `try`, so a
      nullish command throws (`None`) and nothing happens; past it nothing throws. The
      handler's messages go out one at a time, so a missing display window stops the
      first of them and nothing is delivered.
    */
    method Handle(command: Value) returns (r: Option<CommandResult>)
      modifies this`outbox, this`requests
      ensures Nullish(command) ==> r == None && outbox == old(outbox) && requests == old(requests)
      ensures !Nullish(command) ==>
        var o := HandleOutcome(Prop(command, "action"), Prop(command, "data"), old(displayOpen));
        r == Some(o.result) && outbox == old(outbox) + o.sent && requests == old(requests) + o.requests
    {
      if Nullish(command) {
        return None;
      }
      var plan := Translate(Prop(command, "action"), Prop(command, "data"), displayOpen);
      requests := requests + plan.requests;
      var error := Deliver(plan.messages);
      r := Some(if error.Some? then Failed(error.value) else plan.outcome);
    }

    /** The handler's `sendToDisplay` calls, in order; the first failure stops them. */
    method Deliver(messages: seq<ControlMessage>) returns (error: Option<string>)
      modifies this`outbox
      ensures displayOpen ==> error == None && outbox == old(outbox) + messages
      ensures !displayOpen ==> outbox == old(outbox) && error == if messages == [] then None else Some(DisplayNotOpen)
    {
      var i := 0;
      while i < |messages|
        invariant 0 <= i <= |messages|
        invariant !displayOpen ==> i == 0
        invariant outbox == old(outbox) + messages[..i]
      {
        error := SendToDisplay(messages[i].channel, messages[i].data);
        if error.Some? {
          return;
        }
        i := i + 1;
      }
      assert messages[..i] == messages;
      return None;
    }
  }

  // ---------------------------------------------------------------------------
  // Properties of the router

  /** An action missing from the table is rejected and produces nothing. */
  lemma UnknownActionRejected(action: Value, data: Value, displayOpen: bool)
    requires !(action.Str? && action.s in KnownActions)
    ensures HandleOutcome(action, data, displayOpen) == Outcome(Failed(UnknownAction), [], [])
  {
  }

  /** `setParameter` without a truthy id or with an undefined value fails and sends nothing. */
  lemma SetParameterNeedsFields(data: Value, displayOpen: bool)
    requires !Nullish(data)
    requires !Truthy(Prop(data, "parameterId")) || Prop(data, "value") == Undefined
    ensures HandleOutcome(Str("setParameter"), data, displayOpen)
      == Outcome(Failed("parameterId and value are required"), [], [])
  {
  }

  /**
    The array field, entry key, channel and error text of the two batch commands,
    `setParameters` and `setParts`.
  */
  function BatchAction(action: string): (r: Option<(string, string, string, string)>)
    ensures r.Some? <==> action in {"setParameters", "setParts"}
  {
    match action
    case "setParameters" => Some(("parameters", "parameterId", "control:set-parameter", "parameters must be an array"))
    case "setParts" => Some(("parts", "partId", "control:set-part", "parts must be an array"))
    case _ => None
  }

  /**
    A batch command on an array of entries none of which is nullish sends one message
    per entry, in array order, carrying the entry's id and value, and reports their number.
  */
  lemma BatchOnePerEntry(action: string, entries: seq<Value>)
    requires BatchAction(action).Some?
    requires forall i :: 0 <= i < |entries| ==> !Nullish(entries[i])
    ensures var (listKey, idKey, channel, _) := BatchAction(action).value;
      var o := HandleOutcome(Str(action), Obj(map[listKey := Arr(entries)]), true);
      && o.result == Succeeded(action, map["count" := Num(|entries| as real)])
      && |o.sent| == |entries|
      && forall i :: 0 <= i < |entries| ==>
           o.sent[i] == ControlMessage(channel, map[idKey := Prop(entries[i], idKey), "value" := Prop(entries[i], "value")])
  {
  }

  /** A batch field that is not an array fails before anything is sent. */
  lemma BatchNeedsArray(action: string, data: Value, displayOpen: bool)
    requires BatchAction(action).Some?
    requires !Nullish(data) && !Prop(data, BatchAction(action).value.0).Arr?
    ensures HandleOutcome(Str(action), data, displayOpen) == Outcome(Failed(BatchAction(action).value.3), [], [])
  {
  }

  /**
    The entries are not validated up front: a nullish entry at position k throws after
    the k entries before it were delivered.
  */
  lemma BatchStopsAtNullishEntry(action: string, entries: seq<Value>, k: nat)
    requires BatchAction(action).Some?
    requires k < |entries| && Nullish(entries[k])
    requires forall i :: 0 <= i < k ==> !Nullish(entries[i])
    ensures var o := HandleOutcome(Str(action), Obj(map[BatchAction(action).value.0 := Arr(entries)]), true);
      o.result == Failed(DestructureError) && |o.sent| == k
  {
  }

  /**
    Without a display window every command that would send a message fails with
    "Display window is not open" and sends nothing; one that sends nothing (such as
    `setParameters` with an empty array) keeps its own result.
  */
  lemma NoDisplayWindow(action: Value, data: Value)
    ensures var p := Translate(action, data, false);
      var o := HandleOutcome(action, data, false);
      && o.sent == []
      && (|p.messages| > 0 ==> o.result == Failed(DisplayNotOpen))
      && (|p.messages| == 0 ==> o.result == p.outcome)
  {
  }

  /** An empty `parameters` array succeeds with count 0 even without a display window. */
  lemma EmptyBatchWithoutDisplay()
    ensures HandleOutcome(Str("setParameters"), Obj(map["parameters" := Arr([])]), false)
      == Outcome(Succeeded("setParameters", map["count" := Num(0.0)]), [], [])
  {
  }

  /** Every command other than the two batch commands sends at most one control message. */
  lemma AtMostOneMessage(action: Value, data: Value, displayOpen: bool)
    requires !(action == Str("setParameters") || action == Str("setParts"))
    ensures |HandleOutcome(action, data, displayOpen).sent| <= 1
  {
  }

  /** `stopMotion` sends the sentinel group "none". */
  lemma StopMotionSendsNone(data: Value)
    ensures HandleOutcome(Str("stopMotion"), data, true) == Outcome(
      Succeeded("stopMotion", map[]),
      [ControlMessage("control:play-motion", map["motion" := Obj(map["group" := Str("none")])])], [])
  {
  }

  /** `playRandomMotion` without a group sends group `null` and reports "any". */
  lemma RandomMotionWithoutGroup(data: Value)
    requires !data.Null? && !Truthy(Prop(data, "group"))
    ensures HandleOutcome(Str("playRandomMotion"), data, true) == Outcome(
      Succeeded("playRandomMotion", map["group" := Str("any")]),
      [ControlMessage("control:play-motion", map["motion" := Obj(map["group" := Null, "random" := Bool(true)])])], [])
  {
  }

  /** The configuration name each instant-configuration command sends, and the field it requires. */
  function InstantConfigName(action: string): (r: Option<(string, string)>)
    ensures r.Some? <==> action in {"setAutoBreath", "setAutoEyeBlink", "setTrackMouse", "setSequenceSpeed", "setSequenceLoop"}
  {
    match action
    case "setAutoBreath" => Some(("enabled", "autoBreath"))
    case "setAutoEyeBlink" => Some(("enabled", "autoEyeBlink"))
    case "setTrackMouse" => Some(("enabled", "trackMouse"))
    case "setSequenceSpeed" => Some(("speed", "animationSpeed"))
    case "setSequenceLoop" => Some(("loop", "loopAnimation"))
    case _ => None
  }

  /**
    An instant-configuration command with its field defined sends exactly one
    `control:change-instant-config` carrying the configuration name and the field's
    value unchanged (the speed is not clamped) and echoes that value; with the field
    undefined it fails and sends nothing.
  */
  lemma InstantConfigCommands(action: string, data: Value)
    requires InstantConfigName(action).Some? && !Nullish(data)
    ensures var (field, name) := InstantConfigName(action).value;
      var v := Prop(data, field);
      var o := HandleOutcome(Str(action), data, true);
      && (v != Undefined ==> o == Outcome(Succeeded(action, map[field := v]),
            [ControlMessage(InstantConfigChannel, map["name" := Str(name), "value" := v])], []))
      && (v == Undefined ==> o.result.Failed? && o.sent == [])
  {
  }

  /** `playSequence` needs a defined index or a truthy name, and echoes both. */
  lemma PlaySequenceValidation(data: Value)
    requires !Nullish(data)
    ensures var index := Prop(data, "sequenceIndex");
      var name := Prop(data, "sequenceName");
      var o := HandleOutcome(Str("playSequence"), data, true);
      && (index == Undefined && !Truthy(name) ==>
            o == Outcome(Failed("sequenceIndex or sequenceName is required"), [], []))
      && (index != Undefined || Truthy(name) ==>
            o.result == Succeeded("playSequence", map["sequenceIndex" := index, "sequenceName" := name])
            && o.sent == [ControlMessage("control:play-sequence", map["sequenceIndex" := index, "sequenceName" := name])])
  {
  }

  /** The id key, channel and error text of `setParameter` and `setPart`. */
  function KeyedAction(action: string): (r: Option<(string, string, string)>)
    ensures r.Some? <==> action in {"setParameter", "setPart"}
  {
    match action
    case "setParameter" => Some(("parameterId", "control:set-parameter", "parameterId and value are required"))
    case "setPart" => Some(("partId", "control:set-part", "partId and value are required"))
    case _ => None
  }

  /**
    `setParameter` / `setPart` with a truthy id and a defined value sends exactly one
    message with both and echoes them; otherwise it fails with its own text and sends nothing.
  */
  lemma KeyedCommands(action: string, data: Value)
    requires KeyedAction(action).Some? && !Nullish(data)
    ensures var (idKey, channel, error) := KeyedAction(action).value;
      var id := Prop(data, idKey);
      var v := Prop(data, "value");
      var o := HandleOutcome(Str(action), data, true);
      && (Truthy(id) && v != Undefined ==>
            o == Outcome(Succeeded(action, map[idKey := id, "value" := v]), [ControlMessage(channel, map[idKey := id, "value" := v])], []))
      && (!(Truthy(id) && v != Undefined) ==> o == Outcome(Failed(error), [], []))
  {
  }

  /** `playMotion` needs a truthy group; it sends the motion description and echoes it. */
  lemma PlayMotionCommand(data: Value)
    requires !Nullish(data)
    ensures var o := HandleOutcome(Str("playMotion"), data, true);
      var info := Obj(MotionInfo(data));
      && (!Truthy(Prop(data, "group")) ==> o == Outcome(Failed("group is required"), [], []))
      && (Truthy(Prop(data, "group")) ==>
            o == Outcome(Succeeded("playMotion", map["motion" := info]), [ControlMessage("control:play-motion", map["motion" := info])], []))
  {
  }

  /** `setExpression` needs a truthy expression; it sends it and echoes it. */
  lemma SetExpressionCommand(data: Value)
    requires !Nullish(data)
    ensures var e := Prop(data, "expression");
      var o := HandleOutcome(Str("setExpression"), data, true);
      && (!Truthy(e) ==> o == Outcome(Failed("expression is required"), [], []))
      && (Truthy(e) ==>
            o == Outcome(Succeeded("setExpression", map["expression" := e]), [ControlMessage("control:set-expression", map["expression" := e])], []))
  {
  }

  /** `setFocus` needs both coordinates defined; it sends them and echoes them. */
  lemma SetFocusCommand(data: Value)
    requires !Nullish(data)
    ensures var x := Prop(data, "x");
      var y := Prop(data, "y");
      var o := HandleOutcome(Str("setFocus"), data, true);
      && (x == Undefined || y == Undefined ==> o == Outcome(Failed("x and y are required"), [], []))
      && (x != Undefined && y != Undefined ==>
            o == Outcome(Succeeded("setFocus", map["x" := x, "y" := y]), [ControlMessage("control:set-focus", map["x" := x, "y" := y])], []))
  {
  }

  /** `setBodyGroup` needs the index and the value defined; it sends both and echoes them. */
  lemma SetBodyGroupCommand(data: Value)
    requires !Nullish(data)
    ensures var i := Prop(data, "bodyGroupIndex");
      var v := Prop(data, "value");
      var o := HandleOutcome(Str("setBodyGroup"), data, true);
      && (i == Undefined || v == Undefined ==> o == Outcome(Failed("bodyGroupIndex and value are required"), [], []))
      && (i != Undefined && v != Undefined ==>
            o == Outcome(Succeeded("setBodyGroup", map["bodyGroupIndex" := i, "value" := v]),
                         [ControlMessage("control:set-bodygroup", map["bodyGroupIndex" := i, "value" := v])], []))
  {
  }

  /** `setSkin` needs the index defined; it sends it and echoes it. */
  lemma SetSkinCommand(data: Value)
    requires !Nullish(data)
    ensures var i := Prop(data, "skinIndex");
      var o := HandleOutcome(Str("setSkin"), data, true);
      && (i == Undefined ==> o == Outcome(Failed("skinIndex is required"), [], []))
      && (i != Undefined ==>
            o == Outcome(Succeeded("setSkin", map["skinIndex" := i]), [ControlMessage("control:set-skin", map["skinIndex" := i])], []))
  {
  }

  /** `stopSequence` reads no data and sends one empty `control:stop-sequence`. */
  lemma StopSequenceCommand(data: Value)
    ensures HandleOutcome(Str("stopSequence"), data, true)
      == Outcome(Succeeded("stopSequence", map[]), [ControlMessage("control:stop-sequence", map[])], [])
  {
  }

  /**
    Outside the two batch commands a failed command sends nothing: every check comes
    before the one `sendToDisplay`, and a failing `sendToDisplay` delivers nothing.
  */
  lemma FailureSendsNothing(action: Value, data: Value, displayOpen: bool)
    requires !(action == Str("setParameters") || action == Str("setParts"))
    ensures var o := HandleOutcome(action, data, displayOpen);
      o.result.Failed? ==> o.sent == []
  {
  }

  /** A command whose `data` is missing fails (the destructuring throws), unless its handler never reads it. */
  lemma MissingData(action: string, displayOpen: bool)
    requires action in KnownActions
    requires action !in {"stopMotion", "playRandomMotion", "loadModel", "showDisplay", "hideDisplay", "getModelInfo", "stopSequence"}
    ensures HandleOutcome(Str(action), Undefined, displayOpen) == Outcome(Failed(DestructureError), [], [])
  {
  }
}
