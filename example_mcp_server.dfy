/**
  The example MCP server: each tool call becomes the commands it awaits over the display
  connection, and every exception becomes an `Error executing` text. Its presets, parameter
  lists and texts are the example's own: six emotions, four gaze parameters, no marks.
*/
module ExampleMcpServer {
  import opened Values
  import opened Text
  import opened Speech
  import opened McpCommon
  import opened ExampleMcpConnection

  /** How a handler ends once its commands are sent. */
  datatype Ending = Finished(text: string) | Throws(e: Exc)

  /** A handler: the commands it awaits, in order, and its ending. */
  datatype Handler = Handler(commands: seq<Command>, ending: Ending)

  /** The reply text; for an interpreter exception the message is Python's own. */
  datatype Answer = Text(text: string) | InterpreterFailure(tool: string)

  /** The six presets of `set_emotion`. */
  function EmotionPreset(emotion: string): (r: Option<seq<(string, real)>>)
    ensures r.Some? <==> emotion in {"happy", "sad", "surprised", "angry", "confused", "neutral"}
    ensures r.Some? ==> 2 <= |r.value| <= 3
    ensures r.Some? ==> DistinctNames(r.value)
  {
    match emotion
    case "happy" => Some([("ParamMouthForm", 1.0), ("ParamEyeLOpen", 0.9), ("ParamEyeROpen", 0.9)])
    case "sad" => Some([("ParamMouthForm", -1.0), ("ParamEyeLOpen", 0.6), ("ParamEyeROpen", 0.6)])
    case "surprised" => Some([("ParamMouthOpenY", 0.8), ("ParamEyeLOpen", 1.0), ("ParamEyeROpen", 1.0)])
    case "angry" => Some([("ParamMouthForm", -0.5), ("ParamEyeLOpen", 0.7), ("ParamEyeROpen", 0.7)])
    case "confused" => Some([("ParamMouthForm", 0.2), ("ParamAngleX", 10.0)])
    case "neutral" => Some([("ParamMouthForm", 0.0), ("ParamEyeLOpen", 1.0), ("ParamEyeROpen", 1.0)])
    case _ => None
  }

  /** `arguments[key]` raises `KeyError(key)`, whose `str` is the quoted key. */
  function Missing(key: string): Handler {
    Handler([], Throws(KeyErr("'" + key + "'")))
  }

  /**
    `set_emotion`: `emotions[emotion]` raises for a name outside the presets before the
    command is built; a number, a boolean or `None` raises a `KeyError` shown as `str` shows it.
  */
  function EmotionHandler(args: Args, show: Value -> string): (h: Handler)
    ensures "emotion" !in args ==> h == Missing("emotion")
    ensures "emotion" in args && args["emotion"].Str? ==>
      var e := args["emotion"].s;
      (EmotionPreset(e).Some? ==> h == Handler([SetParametersCommand(EmotionPreset(e).value)], Finished("Set emotion to " + e)))
      && (EmotionPreset(e).None? ==> h == Handler([], Throws(KeyErr(PyRepr(e)))))
  {
    if "emotion" !in args then Missing("emotion")
    else
      var emotion := args["emotion"];
      match emotion
      case Str(e) =>
        (match EmotionPreset(e)
         case Some(ps) => Handler([SetParametersCommand(ps)], Finished("Set emotion to " + e))
         case None => Handler([], Throws(KeyErr(PyRepr(e)))))
      case Arr(_) => Handler([], Throws(Interp))  // unhashable dictionary key
      case Obj(_) => Handler([], Throws(Interp))
      case _ => Handler([], Throws(KeyErr(show(emotion))))
  }

  /** `play_animation`: a random motion of the group unless `random` is falsy, then motion 0. */
  function AnimationHandler(args: Args, show: Value -> string): (h: Handler)
    ensures "group" !in args ==> h == Missing("group")
    ensures "group" in args ==> |h.commands| == 1 && h.ending.Finished?
    ensures "group" in args && PyTruthy(Get(args, "random", Bool(true))) ==>
      h.commands == [FlagCommand("playRandomMotion", "group", args["group"])]
    ensures "group" in args && !PyTruthy(Get(args, "random", Bool(true))) ==>
      h.commands == [Command("playMotion", Obj(map["group" := args["group"], "index" := Num(0.0)]))]
  {
    if "group" !in args then Missing("group")
    else
      var group := args["group"];
      if PyTruthy(Get(args, "random", Bool(true))) then
        Handler([FlagCommand("playRandomMotion", "group", group)], Finished("Playing random animation from group '" + Shown(group, show) + "'"))
      else
        Handler([Command("playMotion", Obj(map["group" := group, "index" := Num(0.0)]))], Finished("Playing animation from group '" + Shown(group, show) + "'"))
  }

  /** `set_parameter`: the id and value are passed on as given. */
  function ParameterHandler(args: Args, show: Value -> string): (h: Handler)
    ensures "parameter_id" !in args ==> h == Missing("parameter_id")
    ensures "parameter_id" in args && "value" !in args ==> h == Missing("value")
    ensures "parameter_id" in args && "value" in args ==>
      h == Handler([SetValueCommand(args["parameter_id"], args["value"])], Finished("Set " + Shown(args["parameter_id"], show) + " to " + Shown(args["value"], show)))
  {
    if "parameter_id" !in args then Missing("parameter_id")
    else if "value" !in args then Missing("value")
    else
      var id := args["parameter_id"];
      var value := args["value"];
      Handler([SetValueCommand(id, value)], Finished("Set " + Shown(id, show) + " to " + Shown(value, show)))
  }

  /**
    `speak`: breathing off, `int(duration * 10)` triangle-wave frames, the mouth closed,
    breathing on. A duration that is not a number raises once breathing is off; so does an
    intensity that is not a number, at the first frame.
  */
  function SpeakHandler(args: Args, show: Value -> string): (h: Handler)
    ensures |h.commands| >= 1 && h.commands[0] == BreathOff
    ensures var d := PyNumber(Get(args, "duration", Num(1.0)));
      var i := PyNumber(Get(args, "intensity", Num(0.7)));
      d.Some? && i.Some? ==> h.commands == Spoken(TriangleFrames(d.value, i.value)) && h.ending.Finished?
  {
    var duration := Get(args, "duration", Num(1.0));
    var intensity := Get(args, "intensity", Num(0.7));
    var done := Finished("Played speaking animation for " + Shown(duration, show) + " seconds");
    match PyNumber(duration)
    case None => Handler([BreathOff], Throws(Interp))
    case Some(d) =>
      (match PyNumber(intensity)
       case Some(i) => Handler(Spoken(TriangleFrames(d, i)), done)
       case None => if FrameCount(d) > 0 then Handler([BreathOff], Throws(Interp)) else Handler(Spoken([]), done))
  }

  /** The four gaze parameters of `look_at`: the example moves eyes and head, not the body. */
  function GazeEntries(x: Value, y: Value, ax: Value, ay: Value): seq<(string, Value)> {
    [("ParamEyeBallX", x), ("ParamEyeBallY", y), ("ParamAngleX", ax), ("ParamAngleY", ay)]
  }

  /** `look_at`: eyes at `(x, y)`, head at `15x, 10y`; `x * 15` of a value that cannot be multiplied raises first. */
  function LookHandler(args: Args, show: Value -> string): (h: Handler)
    ensures "x" !in args ==> h == Missing("x")
    ensures "x" in args && "y" !in args ==> h == Missing("y")
    ensures |h.commands| <= 1
  {
    if "x" !in args then Missing("x")
    else if "y" !in args then Missing("y")
    else
      var x := args["x"];
      var y := args["y"];
      match (PyTimes(x, 15), PyTimes(y, 10))
      case (Some(ax), Some(ay)) =>
        Handler([SetValuesCommand(GazeEntries(x, y, ax, ay))], Finished("Looking at direction (" + Shown(x, show) + ", " + Shown(y, show) + ")"))
      case _ => Handler([], Throws(Interp))
  }

  /** With numbers, `look_at` sends exactly four parameters: `x`, `y`, `15x` and `10y`. */
  lemma LookNumbers(args: Args, show: Value -> string, x: real, y: real)
    requires "x" in args && args["x"] == Num(x) && "y" in args && args["y"] == Num(y)
    ensures LookHandler(args, show) == Handler(
      [SetParametersCommand([("ParamEyeBallX", x), ("ParamEyeBallY", y), ("ParamAngleX", x * 15.0), ("ParamAngleY", y * 10.0)])],
      Finished("Looking at direction (" + show(Num(x)) + ", " + show(Num(y)) + ")"))
  {
    var ps := [("ParamEyeBallX", x), ("ParamEyeBallY", y), ("ParamAngleX", x * 15.0), ("ParamAngleY", y * 10.0)];
    SetValuesOfNumbers(ps, GazeEntries(Num(x), Num(y), Num(x * 15.0), Num(y * 10.0)));
  }

  function FeatureText(args: Args, key: string, name: string, show: Value -> string): seq<string> {
    if key in args then [name + ": " + Shown(args[key], show)] else []
  }

  /** `control_auto_features`: one command per key present, breath, then eye blink, then mouse tracking. */
  function FeaturesHandler(args: Args, show: Value -> string): (h: Handler)
    ensures h.commands == Feature(args, "breath", "setAutoBreath") + Feature(args, "eye_blink", "setAutoEyeBlink") + Feature(args, "track_mouse", "setTrackMouse")
    ensures |h.commands| <= 3 && (h.commands == [] <==> "breath" !in args && "eye_blink" !in args && "track_mouse" !in args)
    ensures h.ending.Finished?
  {
    var notes := FeatureText(args, "breath", "Auto breath", show) + FeatureText(args, "eye_blink", "Auto eye blink", show) + FeatureText(args, "track_mouse", "Track mouse", show);
    Handler(Feature(args, "breath", "setAutoBreath") + Feature(args, "eye_blink", "setAutoEyeBlink") + Feature(args, "track_mouse", "setTrackMouse"),
      Finished("Updated auto features: " + Join(notes, ", ")))
  }

  /** `window_control`: `show` shows the window; any other action hides it. */
  function WindowHandler(args: Args): (h: Handler)
    ensures "action" !in args ==> h == Missing("action")
    ensures "action" in args && args["action"] == Str("show") ==> h == Handler([Command("showDisplay", Obj(map[]))], Finished("Display window shown"))
    ensures "action" in args && args["action"] != Str("show") ==> h == Handler([Command("hideDisplay", Obj(map[]))], Finished("Display window hidden"))
  {
    if "action" !in args then Missing("action")
    else if args["action"] == Str("show") then Handler([Command("showDisplay", Obj(map[]))], Finished("Display window shown"))
    else Handler([Command("hideDisplay", Obj(map[]))], Finished("Display window hidden"))
  }

  /** `call_tool`'s dispatch; an unknown tool answers without a command. */
  function ToolHandler(name: string, args: Args, show: Value -> string): (h: Handler)
    ensures name !in Tools ==> h == Handler([], Finished("Unknown tool: " + name))
  {
    match name
    case "set_emotion" => EmotionHandler(args, show)
    case "play_animation" => AnimationHandler(args, show)
    case "set_parameter" => ParameterHandler(args, show)
    case "speak" => SpeakHandler(args, show)
    case "look_at" => LookHandler(args, show)
    case "control_auto_features" => FeaturesHandler(args, show)
    case "window_control" => WindowHandler(args)
    case _ => Handler([], Finished("Unknown tool: " + name))
  }

  /** The text of the one `except` clause: every exception is reported the same way. */
  function Failure(name: string, e: Exc): (r: Answer)
    ensures e.KeyErr? ==> r == Text("Error executing " + name + ": " + e.shown)
    ensures e.Raised? ==> r == Text("Error executing " + name + ": " + e.message)
    ensures e.Interp? <==> r.InterpreterFailure?
  {
    match e
    case KeyErr(k) => Text("Error executing " + name + ": " + k)
    case Raised(m) => Text("Error executing " + name + ": " + m)
    case Interp => InterpreterFailure(name)
  }

  /** The reply of a call: the failed send's exception, or else the handler's own ending. */
  function Answered(name: string, h: Handler, run: Run<Conn, Exc>): (a: Answer)
    ensures run.failure.None? && h.ending.Finished? ==> a == Text(h.ending.text)
    ensures run.failure.Some? ==> a == Failure(name, run.failure.value)
    ensures a.InterpreterFailure? <==>
      (run.failure.Some? && run.failure.value.Interp?) || (run.failure.None? && h.ending.Throws? && h.ending.e.Interp?)
  {
    if run.failure.Some? then Failure(name, run.failure.value)
    else
      match h.ending
      case Finished(t) => Text(t)
      case Throws(e) => Failure(name, e)
  }

  /** An emotion outside the six presets sends nothing and is answered with the `KeyError`, on any connection. */
  lemma UnknownEmotionRaises(args: Args, show: Value -> string, e: string, s: Conn, net: nat -> Link)
    requires "emotion" in args && args["emotion"] == Str(e) && EmotionPreset(e).None?
    ensures var h := ToolHandler("set_emotion", args, show);
      var run := RunSends(SendStep, s, h.commands, net, 0);
      run == Run([], s, None) && Answered("set_emotion", h, run) == Text("Error executing set_emotion: " + PyRepr(e))
  {
    var h := EmotionHandler(args, show);
    assert h == Handler([], Throws(KeyErr(PyRepr(e))));
    assert ToolHandler("set_emotion", args, show) == h;
  }

  /** An unknown tool sends nothing and keeps the connection as it was. */
  lemma UnknownToolIsQuiet(name: string, args: Args, show: Value -> string, s: Conn, net: nat -> Link)
    requires name !in Tools
    ensures var run := RunSends(SendStep, s, ToolHandler(name, args, show).commands, net, 0);
      run == Run([], s, None) && Answered(name, ToolHandler(name, args, show), run) == Text("Unknown tool: " + name)
  {
  }

  /** A server that never connected and is refused again fails its first send with the `AttributeError`. */
  lemma RefusedWithoutSocket(name: string, h: Handler, net: nat -> Link)
    requires net(0).connect == Refused && h.commands != []
    ensures var run := RunSends(SendStep, Conn(false, false), h.commands, net, 0);
      run == Run([], Conn(false, false), Some(Raised(NoSocket)))
      && Answered(name, h, run) == Text("Error executing " + name + ": " + NoSocket)
  {
  }

  /** A handler run to its end on `conn`: the failed send's exception, or else its own ending. */
  method Execute(conn: HimeDisplayConnection, name: string, h: Handler, net: nat -> Link) returns (answer: Answer)
    modifies conn
    ensures var run := RunSends(SendStep, old(Conn(conn.connected, conn.hasSocket)), h.commands, net, 0);
      conn.sent == old(conn.sent) + run.delivered && Conn(conn.connected, conn.hasSocket) == run.state && answer == Answered(name, h, run)
  {
    var failure := conn.SendAll(h.commands, net, 0);
    if failure.Some? {
      return Failure(name, failure.value);
    }
    match h.ending {
      case Finished(t) => answer := Text(t);
      case Throws(e) => answer := Failure(name, e);
    }
  }

  /**
    `call_tool` on the server's connection, with the `k`-th send of the call meeting
    `net(k)` and `show` as Python's `str` of non-string values.
  */
  method CallTool(conn: HimeDisplayConnection, name: string, args: Args, show: Value -> string, net: nat -> Link) returns (answer: Answer)
    modifies conn
    ensures var h := ToolHandler(name, args, show);
      var run := RunSends(SendStep, old(Conn(conn.connected, conn.hasSocket)), h.commands, net, 0);
      conn.sent == old(conn.sent) + run.delivered && Conn(conn.connected, conn.hasSocket) == run.state && answer == Answered(name, h, run)
  {
    answer := Execute(conn, name, ToolHandler(name, args, show), net);
  }
}
