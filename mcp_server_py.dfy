/**
  The Python MCP server for LM Studio: each tool call becomes the commands it awaits over
  the display connection, and every failure becomes a reply text. The connection
  reconnects on demand; a closed socket marks it disconnected.
*/
module McpServerPy {
  import opened Values
  import opened Text
  import opened Speech
  import opened McpCommon
  import opened McpPyConnection

  /** How a handler ends once its commands are sent. */
  datatype Ending = Done(text: string) | Raises(e: Exc)

  /** A handler: the commands it awaits, in order, and its ending. */
  datatype Plan = Plan(commands: seq<Command>, ending: Ending)

  /** `set_emotion`: one `setParameters` with the preset, the neutral one for an unknown name. */
  function EmotionPlan(args: Args, show: Value -> string): (p: Plan)
    ensures "emotion" !in args ==> p == Plan([], Raises(KeyErr("emotion")))
    ensures "emotion" in args && args["emotion"].Str? ==>
      var e := args["emotion"].s;
      p.commands == [SetParametersCommand(if Preset(e).Some? then Preset(e).value else Neutral)]
      && p.ending == Done(Tick + " Set character emotion to '" + e + "'")
  {
    if "emotion" !in args then Plan([], Raises(KeyErr("emotion")))
    else
      var emotion := args["emotion"];
      if emotion.Arr? || emotion.Obj? then Plan([], Raises(Interp))  // unhashable dictionary key
      else
        var preset := if emotion.Str? && Preset(emotion.s).Some? then Preset(emotion.s).value else Neutral;
        Plan([SetParametersCommand(preset)], Done(Tick + " Set character emotion to '" + Shown(emotion, show) + "'"))
  }

  /** `play_animation`: a random motion of the group unless `random` is falsy, then motion 0. */
  function AnimationPlan(args: Args, show: Value -> string): (p: Plan)
    ensures "group" !in args ==> p == Plan([], Raises(KeyErr("group")))
    ensures "group" in args ==> |p.commands| == 1 && p.ending.Done?
    ensures "group" in args && PyTruthy(Get(args, "random", Bool(true))) ==>
      p.commands == [FlagCommand("playRandomMotion", "group", args["group"])]
    ensures "group" in args && !PyTruthy(Get(args, "random", Bool(true))) ==>
      p.commands == [Command("playMotion", Obj(map["group" := args["group"], "index" := Num(0.0)]))]
  {
    if "group" !in args then Plan([], Raises(KeyErr("group")))
    else
      var group := args["group"];
      if PyTruthy(Get(args, "random", Bool(true))) then
        Plan([FlagCommand("playRandomMotion", "group", group)], Done(Tick + " Playing random animation from '" + Shown(group, show) + "' group"))
      else
        Plan([Command("playMotion", Obj(map["group" := group, "index" := Num(0.0)]))], Done(Tick + " Playing animation from '" + Shown(group, show) + "' group"))
  }

  /** `set_parameter`: the id and value are passed on as given. */
  function ParameterPlan(args: Args, show: Value -> string): (p: Plan)
    ensures "parameter_id" !in args ==> p == Plan([], Raises(KeyErr("parameter_id")))
    ensures "parameter_id" in args && "value" !in args ==> p == Plan([], Raises(KeyErr("value")))
    ensures "parameter_id" in args && "value" in args ==>
      p.commands == [SetValueCommand(args["parameter_id"], args["value"])] && p.ending.Done?
  {
    if "parameter_id" !in args then Plan([], Raises(KeyErr("parameter_id")))
    else if "value" !in args then Plan([], Raises(KeyErr("value")))
    else
      var id := args["parameter_id"];
      var value := args["value"];
      Plan([SetValueCommand(id, value)], Done(Tick + " Set parameter '" + Shown(id, show) + "' to " + Shown(value, show)))
  }

  /**
    `speak`: breathing off, `int(duration * 10)` triangle-wave frames, the mouth closed,
    breathing on. A duration that is not a number raises once breathing is off; so does an
    intensity that is not a number, at the first frame.
  */
  function SpeakPlan(args: Args, show: Value -> string): (p: Plan)
    ensures |p.commands| >= 1 && p.commands[0] == BreathOff
    ensures var d := PyNumber(Get(args, "duration", Num(1.0)));
      var i := PyNumber(Get(args, "intensity", Num(0.7)));
      d.Some? && i.Some? ==> p.commands == Spoken(TriangleFrames(d.value, i.value)) && p.ending.Done?
  {
    var duration := Get(args, "duration", Num(1.0));
    var intensity := Get(args, "intensity", Num(0.7));
    var done := Done(Tick + " Animated speaking for " + Shown(duration, show) + " seconds");
    match PyNumber(duration)
    case None => Plan([BreathOff], Raises(Interp))
    case Some(d) =>
      (match PyNumber(intensity)
       case Some(i) => Plan(Spoken(TriangleFrames(d, i)), done)
       case None => if FrameCount(d) > 0 then Plan([BreathOff], Raises(Interp)) else Plan(Spoken([]), done))
  }

  /**
    `look_at`: eyes at `(x, y)`, head at `15x, 10y`, body at `5x`, then the direction label.
    `abs` of a value that is not a number raises after the command went out.
  */
  function LookPlan(args: Args, show: Value -> string): (p: Plan)
    ensures "x" !in args ==> p == Plan([], Raises(KeyErr("x")))
    ensures "x" in args && "y" !in args ==> p == Plan([], Raises(KeyErr("y")))
  {
    if "x" !in args then Plan([], Raises(KeyErr("x")))
    else if "y" !in args then Plan([], Raises(KeyErr("y")))
    else
      var x := args["x"];
      var y := args["y"];
      match (PyTimes(x, 15), PyTimes(y, 10), PyTimes(x, 5))
      case (Some(ax), Some(ay), Some(bx)) =>
        var command := SetValuesCommand(LookEntries(x, y, ax, ay, bx));
        (match (PyNumber(x), PyNumber(y))
         case (Some(nx), Some(ny)) =>
           Plan([command], Done(Tick + " Character looking " + Direction(nx, ny) + " (x=" + Shown(x, show) + ", y=" + Shown(y, show) + ")"))
         case _ => Plan([command], Raises(Interp)))
      case _ => Plan([], Raises(Interp))
  }

  /** With numbers, `look_at` sends the scaled parameters and reports the direction. */
  lemma LookNumbers(args: Args, show: Value -> string, x: real, y: real)
    requires "x" in args && args["x"] == Num(x) && "y" in args && args["y"] == Num(y)
    ensures LookPlan(args, show) == Plan(
      [SetParametersCommand([("ParamEyeBallX", x), ("ParamEyeBallY", y), ("ParamAngleX", x * 15.0), ("ParamAngleY", y * 10.0), ("ParamBodyAngleX", x * 5.0)])],
      Done(Tick + " Character looking " + Direction(x, y) + " (x=" + show(Num(x)) + ", y=" + show(Num(y)) + ")"))
  {
    var ps := [("ParamEyeBallX", x), ("ParamEyeBallY", y), ("ParamAngleX", x * 15.0), ("ParamAngleY", y * 10.0), ("ParamBodyAngleX", x * 5.0)];
    var entries := LookEntries(Num(x), Num(y), Num(x * 15.0), Num(y * 10.0), Num(x * 5.0));
    assert PyTimes(Num(x), 15) == Some(Num(x * 15.0)) && PyTimes(Num(y), 10) == Some(Num(y * 10.0)) && PyTimes(Num(x), 5) == Some(Num(x * 5.0));
    var text := Tick + " Character looking " + Direction(x, y) + " (x=" + show(Num(x)) + ", y=" + show(Num(y)) + ")";
    assert LookPlan(args, show) == Plan([SetValuesCommand(entries)], Done(text));
    assert entries == [("ParamEyeBallX", Num(x)), ("ParamEyeBallY", Num(y)), ("ParamAngleX", Num(x * 15.0)), ("ParamAngleY", Num(y * 10.0)), ("ParamBodyAngleX", Num(x * 5.0))];
    SetValuesOfNumbers(ps, entries);
  }

  function FeatureNote(args: Args, key: string, name: string): seq<string> {
    if key in args then [name + ": " + (if PyTruthy(args[key]) then "on" else "off")] else []
  }

  /** `control_auto_features`: one command per key present, breath, then eye blink, then mouse tracking. */
  function FeaturesPlan(args: Args): (p: Plan)
    ensures p.commands == Feature(args, "breath", "setAutoBreath") + Feature(args, "eye_blink", "setAutoEyeBlink") + Feature(args, "track_mouse", "setTrackMouse")
    ensures |p.commands| <= 3 && (p.commands == [] <==> "breath" !in args && "eye_blink" !in args && "track_mouse" !in args)
    ensures p.ending.Done?
  {
    var notes := FeatureNote(args, "breath", "breathing") + FeatureNote(args, "eye_blink", "blinking") + FeatureNote(args, "track_mouse", "mouse tracking");
    Plan(Feature(args, "breath", "setAutoBreath") + Feature(args, "eye_blink", "setAutoEyeBlink") + Feature(args, "track_mouse", "setTrackMouse"),
      Done(Tick + " Updated auto features - " + Join(notes, ", ")))
  }

  /** `window_control`: `show` shows the window; any other action hides it. */
  function WindowPlan(args: Args): (p: Plan)
    ensures "action" !in args ==> p == Plan([], Raises(KeyErr("action")))
    ensures "action" in args && args["action"] == Str("show") ==> p == Plan([Command("showDisplay", Obj(map[]))], Done(Tick + " Display window shown"))
    ensures "action" in args && args["action"] != Str("show") ==> p == Plan([Command("hideDisplay", Obj(map[]))], Done(Tick + " Display window hidden"))
  {
    if "action" !in args then Plan([], Raises(KeyErr("action")))
    else if args["action"] == Str("show") then Plan([Command("showDisplay", Obj(map[]))], Done(Tick + " Display window shown"))
    else Plan([Command("hideDisplay", Obj(map[]))], Done(Tick + " Display window hidden"))
  }

  /** `call_tool`'s dispatch; an unknown tool answers without a command. */
  function ToolPlan(name: string, args: Args, show: Value -> string): (p: Plan)
    ensures name !in Tools ==> p == Plan([], Done(Cross + " Unknown tool: " + name))
  {
    match name
    case "set_emotion" => EmotionPlan(args, show)
    case "play_animation" => AnimationPlan(args, show)
    case "set_parameter" => ParameterPlan(args, show)
    case "speak" => SpeakPlan(args, show)
    case "look_at" => LookPlan(args, show)
    case "control_auto_features" => FeaturesPlan(args)
    case "window_control" => WindowPlan(args)
    case _ => Plan([], Done(Cross + " Unknown tool: " + name))
  }

  /** The texts of the two `except` clauses of `call_tool`. */
  function ErrorReply(name: string, e: Exc): (r: Reply)
    ensures e.ConnErr? ==> r == Reply(Cross + " Connection error: " + e.message + ". Make sure Hime Display is running with API enabled.")
    ensures e.Interp? <==> r.InterpreterError?
  {
    match e
    case ConnErr(m) => Reply(Cross + " Connection error: " + m + ". Make sure Hime Display is running with API enabled.")
    case KeyErr(k) => Reply(Cross + " Error executing " + name + ": '" + k + "'")
    case CommandFailed(m) => Reply(Cross + " Error executing " + name + ": " + m)
    case Interp => InterpreterError(name)
  }

  /** The reply of a call: the failed send's error, or else the handler's own ending. */
  function CallReply(name: string, plan: Plan, run: Run<bool, Exc>): Reply {
    if run.failure.Some? then ErrorReply(name, run.failure.value)
    else
      match plan.ending
      case Done(t) => Reply(t)
      case Raises(e) => ErrorReply(name, e)
  }

  /** An unknown tool sends nothing and keeps the connection as it was, whatever the link. */
  lemma UnknownToolIsQuiet(name: string, args: Args, show: Value -> string, connected: bool, net: nat -> Link)
    requires name !in Tools
    ensures var run := RunSends(SendStep, connected, ToolPlan(name, args, show).commands, net, 0);
      run == Run([], connected, None) && CallReply(name, ToolPlan(name, args, show), run) == Reply(Cross + " Unknown tool: " + name)
  {
  }

  /** A disconnected server whose reconnect fails answers a command-sending handler with a connection error and sends nothing. */
  lemma FailedReconnectSendsNothing(name: string, plan: Plan, net: nat -> Link)
    requires net(0).connect != Welcomed && plan.commands != []
    ensures var run := RunSends(SendStep, false, plan.commands, net, 0);
      run.delivered == [] && run.state == (net(0).connect == WelcomeLost)
      && CallReply(name, plan, run) == ErrorReply(name, ConnErr("Not connected to Hime Display"))
  {
  }

  /** A handler run to its end on `conn`: the failed send's error, or else its own ending. */
  method Execute(conn: HimeDisplayConnection, name: string, plan: Plan, net: nat -> Link) returns (reply: Reply)
    modifies conn
    ensures var run := RunSends(SendStep, old(conn.connected), plan.commands, net, 0);
      conn.sent == old(conn.sent) + run.delivered && conn.connected == run.state && reply == CallReply(name, plan, run)
  {
    var failure := conn.SendAll(plan.commands, net, 0);
    if failure.Some? {
      return ErrorReply(name, failure.value);
    }
    match plan.ending {
      case Done(t) => reply := Reply(t);
      case Raises(e) => reply := ErrorReply(name, e);
    }
  }

  /**
    `call_tool` on the server's connection, with the `k`-th send of the call meeting
    `net(k)` and `show` as Python's `str` of non-string values.
  */
  method CallTool(conn: HimeDisplayConnection, name: string, args: Args, show: Value -> string, net: nat -> Link) returns (reply: Reply)
    modifies conn
    ensures var plan := ToolPlan(name, args, show);
      var run := RunSends(SendStep, old(conn.connected), plan.commands, net, 0);
      conn.sent == old(conn.sent) + run.delivered && conn.connected == run.state && reply == CallReply(name, plan, run)
  {
    reply := Execute(conn, name, ToolPlan(name, args, show), net);
  }
}
