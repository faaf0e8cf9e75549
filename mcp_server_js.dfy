/**
  The Node.js MCP server for LM Studio: each tool handler becomes the commands it awaits
  over the display connection and the text it returns. Arguments are read as JavaScript
  reads them: a missing key is `undefined`, destructuring defaults replace `undefined`
  only, arithmetic converts with `ToNumber`, and a `NaN` result goes on the wire as `null`.
*/
module McpServerJs {
  import opened Values
  import opened Text
  import opened Speech
  import opened McpCommon
  import opened McpJsConnection

  /**
    A handler: the commands it awaits, in order, and the text it returns. With the
    arguments an object, no handler throws by itself: only its sends do.
  */
  datatype Plan = Plan(commands: seq<Command>, text: string)

  /** The content of a tool reply and whether it is flagged `isError`. */
  datatype Reply = Reply(text: string, isError: bool)

  /** `args.key`: `undefined` for a missing key. */
  function Arg(args: Args, key: string): (r: Value)
    ensures key !in args ==> r == Undefined
  {
    Get(args, key, Undefined)
  }

  /** `const { key = default } = args`: the default replaces a missing key or an `undefined` value. */
  function ArgOr(args: Args, key: string, default: Value): (r: Value)
    ensures key !in args ==> r == default
    ensures key in args && args[key] != Undefined ==> r == args[key]
  {
    var v := Arg(args, key);
    if v.Undefined? then default else v
  }

  /** A number as JSON writes it: `NaN` becomes `null`. */
  function Wire(n: Option<real>): (v: Value)
    ensures (v == Null) <==> n.None?
  {
    if n.Some? then Num(n.value) else Null
  }

  /** `v * k` in JavaScript. */
  function Times(v: Value, k: real): (r: Option<real>)
    ensures r.Some? <==> ToNumber(v).Some?
    ensures v.Num? ==> r == Some(v.n * k)
  {
    var n := ToNumber(v);
    if n.Some? then
      var m := n.value * k;
      assert v.Num? ==> m == v.n * k;
      Some(m)
    else None
  }

  /** `set_emotion`: one `setParameters` with the preset of a known name, the neutral one otherwise. */
  function EmotionPlan(args: Args, show: Value -> string): (p: Plan)
    ensures var e := Arg(args, "emotion");
      p.commands == [SetParametersCommand(if e.Str? && Preset(e.s).Some? then Preset(e.s).value else Neutral)]
    ensures "emotion" !in args ==> p.commands == [SetParametersCommand(Neutral)]
  {
    var emotion := Arg(args, "emotion");
    var params := if emotion.Str? && Preset(emotion.s).Some? then Preset(emotion.s).value else Neutral;
    Plan([SetParametersCommand(params)], Tick + " Set character emotion to '" + Shown(emotion, show) + "'")
  }

  /** `play_animation`: a random motion of the group unless `random` is falsy, then motion 0. */
  function AnimationPlan(args: Args, show: Value -> string): (p: Plan)
    ensures |p.commands| == 1
    ensures Truthy(ArgOr(args, "random", Bool(true))) ==>
      p.commands == [FlagCommand("playRandomMotion", "group", Arg(args, "group"))]
    ensures !Truthy(ArgOr(args, "random", Bool(true))) ==>
      p.commands == [Command("playMotion", Obj(map["group" := Arg(args, "group"), "index" := Num(0.0)]))]
    ensures "random" !in args ==> p.commands[0].action == "playRandomMotion"
  {
    var group := Arg(args, "group");
    if Truthy(ArgOr(args, "random", Bool(true))) then
      Plan([FlagCommand("playRandomMotion", "group", group)], Tick + " Playing random animation from '" + Shown(group, show) + "' group")
    else
      Plan([Command("playMotion", Obj(map["group" := group, "index" := Num(0.0)]))], Tick + " Playing animation from '" + Shown(group, show) + "' group")
  }

  /** `set_parameter`: the id and value are passed on as given, missing ones as `undefined`. */
  function ParameterPlan(args: Args, show: Value -> string): (p: Plan)
    ensures p.commands == [SetValueCommand(Arg(args, "parameter_id"), Arg(args, "value"))]
  {
    var id := Arg(args, "parameter_id");
    var value := Arg(args, "value");
    Plan([SetValueCommand(id, value)], Tick + " Set parameter '" + Shown(id, show) + "' to " + Shown(value, show))
  }

  /** `Math.floor(duration * 10)` as the bound of the frame loop: a `NaN` bound runs no frame. */
  function Frames(duration: Value): (n: nat)
    ensures duration.Num? ==> n == FrameCount(duration.n)
    ensures ToNumber(duration).None? ==> n == 0
  {
    match ToNumber(duration)
    case Some(d) => FrameCount(d)
    case None => 0
  }

  /** The frames of the loop: `intensity * |i % 4 - 2| / 2` for the mouth, `null` when that is `NaN`. */
  function MouthFrames(n: nat, intensity: Value): (r: seq<Command>)
    ensures |r| == n
    ensures forall i :: 0 <= i < n ==> r[i] == SetValueCommand(Str(MouthOpen), Wire(Times(intensity, Triangle(i))))
  {
    seq(n, i requires 0 <= i < n => SetValueCommand(Str(MouthOpen), Wire(Times(intensity, Triangle(i)))))
  }

  /** With a number for the intensity, the frames are the triangle wave of the Python servers. */
  lemma MouthFramesOfNumber(duration: real, intensity: real)
    ensures MouthFrames(FrameCount(duration), Num(intensity)) == TriangleFrames(duration, intensity)
  {
    var a := MouthFrames(FrameCount(duration), Num(intensity));
    var b := TriangleFrames(duration, intensity);
    forall i | 0 <= i < |a|
      ensures a[i] == b[i]
    {
      var t := Triangle(i);
      var v := Num(intensity);
      assert v.Num?;
      assert ToNumber(v) == Some(intensity);
      assert Times(v, t).Some?;
      assert Times(v, t).value == intensity * t;
      assert TriangleValue(intensity, i) == v.n * t;
    }
  }

  /** `speak`: breathing off, `Math.floor(duration * 10)` frames, the mouth closed, breathing on. */
  function SpeakPlan(args: Args, show: Value -> string): (p: Plan)
    ensures var d := ArgOr(args, "duration", Num(1.0));
      p.commands == Spoken(MouthFrames(Frames(d), ArgOr(args, "intensity", Num(0.7))))
      && p.text == (Tick + " Animated speaking for " + Shown(d, show) + " seconds")
  {
    var duration := ArgOr(args, "duration", Num(1.0));
    var intensity := ArgOr(args, "intensity", Num(0.7));
    Plan(Spoken(MouthFrames(Frames(duration), intensity)), Tick + " Animated speaking for " + Shown(duration, show) + " seconds")
  }

  /** With numbers, `speak` is the speech of the Python servers: the same commands in the same order. */
  lemma SpeakNumbers(args: Args, show: Value -> string, d: real, i: real)
    requires ArgOr(args, "duration", Num(1.0)) == Num(d) && ArgOr(args, "intensity", Num(0.7)) == Num(i)
    ensures SpeakPlan(args, show).commands == Spoken(TriangleFrames(d, i))
    ensures |SpeakPlan(args, show).commands| == FrameCount(d) + 3
  {
    MouthFramesOfNumber(d, i);
  }

  /** A `NaN` coordinate compares false everywhere, which labels it as `0` does. */
  function Coordinate(n: Option<real>): real {
    if n.Some? then n.value else 0.0
  }

  /**
    `look_at`: eyes at `(x, y)` as given, head at `15x, 10y`, body at `5x`, then the
    direction label.
  */
  function LookPlan(args: Args, show: Value -> string): (p: Plan)
    ensures var x := Arg(args, "x");
      var y := Arg(args, "y");
      p.commands == [SetValuesCommand(LookEntries(x, y, Wire(Times(x, 15.0)), Wire(Times(y, 10.0)), Wire(Times(x, 5.0))))]
      && p.text == (Tick + " Character looking " + Direction(Coordinate(ToNumber(x)), Coordinate(ToNumber(y))) + " (x=" + Shown(x, show) + ", y=" + Shown(y, show) + ")")
  {
    var x := Arg(args, "x");
    var y := Arg(args, "y");
    var entries := LookEntries(x, y, Wire(Times(x, 15.0)), Wire(Times(y, 10.0)), Wire(Times(x, 5.0)));
    var direction := Direction(Coordinate(ToNumber(x)), Coordinate(ToNumber(y)));
    Plan([SetValuesCommand(entries)], Tick + " Character looking " + direction + " (x=" + Shown(x, show) + ", y=" + Shown(y, show) + ")")
  }

  /** With numbers, `look_at` sends the scaled parameters and reports the direction of the Python server. */
  lemma LookNumbers(args: Args, show: Value -> string, x: real, y: real)
    requires "x" in args && args["x"] == Num(x) && "y" in args && args["y"] == Num(y)
    ensures LookPlan(args, show) == Plan(
      [SetParametersCommand([("ParamEyeBallX", x), ("ParamEyeBallY", y), ("ParamAngleX", x * 15.0), ("ParamAngleY", y * 10.0), ("ParamBodyAngleX", x * 5.0)])],
      Tick + " Character looking " + Direction(x, y) + " (x=" + show(Num(x)) + ", y=" + show(Num(y)) + ")")
  {
    var vx, vy := Arg(args, "x"), Arg(args, "y");
    assert vx == Num(x) && vy == Num(y);
    var ps := [("ParamEyeBallX", x), ("ParamEyeBallY", y), ("ParamAngleX", x * 15.0), ("ParamAngleY", y * 10.0), ("ParamBodyAngleX", x * 5.0)];
    var entries := LookEntries(vx, vy, Wire(Times(vx, 15.0)), Wire(Times(vy, 10.0)), Wire(Times(vx, 5.0)));
    assert entries == [("ParamEyeBallX", Num(x)), ("ParamEyeBallY", Num(y)), ("ParamAngleX", Num(x * 15.0)), ("ParamAngleY", Num(y * 10.0)), ("ParamBodyAngleX", Num(x * 5.0))];
    SetValuesOfNumbers(ps, entries);
  }

  /** A gaze that is not a number is labelled `center` on its axis and sent as `null` where it is scaled. */
  lemma LookNaN(args: Args, show: Value -> string)
    requires ToNumber(Arg(args, "x")).None? && ToNumber(Arg(args, "y")).None?
    ensures var x := Arg(args, "x");
      var y := Arg(args, "y");
      LookPlan(args, show) == Plan([SetValuesCommand(LookEntries(x, y, Null, Null, Null))],
        Tick + " Character looking center (x=" + Shown(x, show) + ", y=" + Shown(y, show) + ")")
  {
  }

  function FeatureNote(args: Args, key: string, name: string): seq<string> {
    if key in args then [name + ": " + (if Truthy(args[key]) then "on" else "off")] else []
  }

  /** `control_auto_features`: one command per key present, breath, then eye blink, then mouse tracking. */
  function FeaturesPlan(args: Args): (p: Plan)
    ensures p.commands == Feature(args, "breath", "setAutoBreath") + Feature(args, "eye_blink", "setAutoEyeBlink") + Feature(args, "track_mouse", "setTrackMouse")
    ensures |p.commands| <= 3 && (p.commands == [] <==> "breath" !in args && "eye_blink" !in args && "track_mouse" !in args)
  {
    var notes := FeatureNote(args, "breath", "breathing") + FeatureNote(args, "eye_blink", "blinking") + FeatureNote(args, "track_mouse", "mouse tracking");
    Plan(Feature(args, "breath", "setAutoBreath") + Feature(args, "eye_blink", "setAutoEyeBlink") + Feature(args, "track_mouse", "setTrackMouse"),
      Tick + " Updated auto features - " + Join(notes, ", "))
  }

  /** `window_control`: `show`, compared strictly, shows the window; anything else, a missing action too, hides it. */
  function WindowPlan(args: Args): (p: Plan)
    ensures Arg(args, "action") == Str("show") ==> p == Plan([Command("showDisplay", Obj(map[]))], Tick + " Display window shown")
    ensures Arg(args, "action") != Str("show") ==> p == Plan([Command("hideDisplay", Obj(map[]))], Tick + " Display window hidden")
  {
    if Arg(args, "action") == Str("show") then Plan([Command("showDisplay", Obj(map[]))], Tick + " Display window shown")
    else Plan([Command("hideDisplay", Obj(map[]))], Tick + " Display window hidden")
  }

  /** The `toolHandlers` lookup; an unknown tool answers without a command. */
  function ToolPlan(name: string, args: Args, show: Value -> string): (p: Plan)
    ensures name !in Tools ==> p == Plan([], Cross + " Unknown tool: " + name)
    ensures name in Tools && name != "control_auto_features" ==> p.commands != []
  {
    match name
    case "set_emotion" => EmotionPlan(args, show)
    case "play_animation" => AnimationPlan(args, show)
    case "set_parameter" => ParameterPlan(args, show)
    case "speak" => SpeakPlan(args, show)
    case "look_at" => LookPlan(args, show)
    case "control_auto_features" => FeaturesPlan(args)
    case "window_control" => WindowPlan(args)
    case _ => Plan([], Cross + " Unknown tool: " + name)
  }

  /** The reply of the `catch` clause. */
  function ErrorReply(name: string, message: string): (r: Reply)
    ensures r.isError
  {
    Reply(Cross + " Error executing " + name + ": " + message, true)
  }

  /** The reply of a call: the thrown error's, or else the handler's own text. */
  function CallReply(name: string, plan: Plan, run: Run<bool, string>): (r: Reply)
    ensures r.isError <==> run.failure.Some?
    ensures run.failure.None? ==> r.text == plan.text
  {
    if run.failure.Some? then ErrorReply(name, run.failure.value) else Reply(plan.text, false)
  }

  /** An unknown tool sends nothing, keeps the connection as it was and is not flagged as an error. */
  lemma UnknownToolIsQuiet(name: string, args: Args, show: Value -> string, connected: bool, net: nat -> Link)
    requires name !in Tools
    ensures var run := RunSends(SendStep, connected, ToolPlan(name, args, show).commands, net, 0);
      run == Run([], connected, None) && CallReply(name, ToolPlan(name, args, show), run) == Reply(Cross + " Unknown tool: " + name, false)
  {
  }

  /** A disconnected server whose reconnect fails throws before writing anything and flags the reply as an error. */
  lemma FailedReconnectSendsNothing(name: string, plan: Plan, net: nat -> Link)
    requires net(0).connect != Opened && plan.commands != []
    ensures var run := RunSends(SendStep, false, plan.commands, net, 0);
      run.delivered == [] && !run.state
      && CallReply(name, plan, run) == ErrorReply(name, if net(0).connect == Errored then "Not connected to Hime Display" else "Connection timeout")
  {
  }

  /** A handler run to its end on `conn`: the thrown error's reply, or else its own text. */
  method Execute(conn: HimeDisplayConnection, name: string, plan: Plan, net: nat -> Link) returns (reply: Reply)
    modifies conn
    ensures var run := RunSends(SendStep, old(conn.connected), plan.commands, net, 0);
      conn.sent == old(conn.sent) + run.delivered && conn.connected == run.state && reply == CallReply(name, plan, run)
  {
    var failure := conn.SendAll(plan.commands, net, 0);
    if failure.Some? {
      return ErrorReply(name, failure.value);
    }
    reply := Reply(plan.text, false);
  }

  /**
    The `CallToolRequestSchema` handler on the server's connection, with the `k`-th send
    of the call meeting `net(k)` and `show` as JavaScript's `String` of a value.
  */
  method CallTool(conn: HimeDisplayConnection, name: string, args: Args, show: Value -> string, net: nat -> Link) returns (reply: Reply)
    modifies conn
    ensures var plan := ToolPlan(name, args, show);
      var run := RunSends(SendStep, old(conn.connected), plan.commands, net, 0);
      conn.sent == old(conn.sent) + run.delivered && conn.connected == run.state && reply == CallReply(name, plan, run)
  {
    reply := Execute(conn, name, ToolPlan(name, args, show), net);
  }
}
