/**
  What the MCP servers share: tool arguments, the gaze-direction label, and the way a
  tool handler's awaited commands go over a connection that can fail. A handler is given
  by its plan, the commands it awaits in order and how it ends once they are all sent;
  the first command that fails ends the call with that failure, as the awaits do.
*/
module McpCommon {
  import opened Values

  /** The `arguments` dictionary of a tool call. */
  type Args = map<string, Value>

  /** `arguments.get(key, default)` / a destructuring default, which here apply only to a missing key. */
  function Get(args: Args, key: string, default: Value): (r: Value)
    ensures key in args ==> r == args[key]
    ensures key !in args ==> r == default
  {
    if key in args then args[key] else default
  }

  /** Python's `str(v)`: a string is itself; other values use the given rendering. */
  function Shown(v: Value, show: Value -> string): string {
    if v.Str? then v.s else show(v)
  }

  /** The marks the servers put in front of their replies. */
  const Tick := "\U{2713}"
  const Cross := "\U{2717}"

  /** One `{"parameterId": id, "value": v}` entry, with whatever value the arguments gave. */
  function ValueEntry(id: string, v: Value): Value {
    Obj(map["parameterId" := Str(id), "value" := v])
  }

  /** `setParameters` with entries built from argument values. */
  function SetValuesCommand(ps: seq<(string, Value)>): (c: Command)
    ensures c.action == "setParameters"
  {
    Command("setParameters", Obj(map["parameters" := Arr(seq(|ps|, i requires 0 <= i < |ps| => ValueEntry(ps[i].0, ps[i].1)))]))
  }

  /** With numbers for values, the entries are the usual `setParameters` list. */
  lemma SetValuesOfNumbers(ps: seq<(string, real)>, vs: seq<(string, Value)>)
    requires |vs| == |ps| && forall i :: 0 <= i < |ps| ==> vs[i] == (ps[i].0, Num(ps[i].1))
    ensures SetValuesCommand(vs) == SetParametersCommand(ps)
  {
    var a := seq(|vs|, i requires 0 <= i < |vs| => ValueEntry(vs[i].0, vs[i].1));
    assert a == ParamList(ps).items;
  }

  /** `setParameter` with the argument values as given. */
  function SetValueCommand(id: Value, v: Value): Command {
    Command("setParameter", Obj(map["parameterId" := id, "value" := v]))
  }

  function AbsReal(x: real): (r: real)
    ensures r >= 0.0 && (r == x || r == -x)
  {
    if x < 0.0 then -x else x
  }

  /**
    The label the `look_at` tools report: `center` unless `|x| > 0.5` (`left` for negative
    `x`, `right` otherwise), with ` and up` or ` and down` added when `|y| > 0.5`.
  */
  function Direction(x: real, y: real): (d: string)
    ensures AbsReal(x) <= 0.5 && AbsReal(y) <= 0.5 ==> d == "center"
    ensures x < -0.5 && AbsReal(y) <= 0.5 ==> d == "left"
    ensures x > 0.5 && AbsReal(y) <= 0.5 ==> d == "right"
    ensures y > 0.5 ==> d == Horizontal(x) + " and up"
    ensures y < -0.5 ==> d == Horizontal(x) + " and down"
  {
    var h := Horizontal(x);
    if AbsReal(y) > 0.5 then h + " and " + (if y > 0.0 then "up" else "down") else h
  }

  function Horizontal(x: real): (r: string)
    ensures r in {"left", "right", "center"}
    ensures r == "center" <==> -0.5 <= x <= 0.5
    ensures r == "left" <==> x < -0.5
  {
    if AbsReal(x) > 0.5 then (if x < 0.0 then "left" else "right") else "center"
  }

  /** The eight emotion presets of the two LM Studio servers, in both languages the same. */
  function Preset(emotion: string): (r: Option<seq<(string, real)>>)
    ensures r.Some? <==> emotion in {"happy", "sad", "surprised", "angry", "confused", "neutral", "worried", "excited"}
    ensures r.Some? ==> 3 <= |r.value| <= 5
    ensures r.Some? ==> DistinctNames(r.value)
    ensures r.Some? && emotion != "surprised" ==> r.value[0].0 == "ParamMouthForm"
  {
    match emotion
    case "happy" => Some([("ParamMouthForm", 1.0), ("ParamEyeLOpen", 0.9), ("ParamEyeROpen", 0.9)])
    case "sad" => Some([("ParamMouthForm", -1.0), ("ParamEyeLOpen", 0.6), ("ParamEyeROpen", 0.6), ("ParamAngleY", -5.0)])
    case "surprised" => Some([("ParamMouthOpenY", 0.8), ("ParamEyeLOpen", 1.0), ("ParamEyeROpen", 1.0)])
    case "angry" => Some([("ParamMouthForm", -0.5), ("ParamEyeLOpen", 0.7), ("ParamEyeROpen", 0.7), ("ParamBrowLY", -0.5), ("ParamBrowRY", -0.5)])
    case "confused" => Some([("ParamMouthForm", 0.2), ("ParamAngleX", 10.0), ("ParamAngleY", -3.0)])
    case "neutral" => Some(Neutral)
    case "worried" => Some([("ParamMouthForm", -0.3), ("ParamEyeLOpen", 0.8), ("ParamEyeROpen", 0.8), ("ParamBrowLY", 0.3), ("ParamBrowRY", 0.3)])
    case "excited" => Some([("ParamMouthForm", 1.0), ("ParamMouthOpenY", 0.3), ("ParamEyeLOpen", 1.0), ("ParamEyeROpen", 1.0)])
    case _ => None
  }

  const Neutral: seq<(string, real)> := [("ParamMouthForm", 0.0), ("ParamEyeLOpen", 1.0), ("ParamEyeROpen", 1.0), ("ParamAngleX", 0.0), ("ParamAngleY", 0.0)]

  /** The five gaze parameters of `look_at`. */
  function LookEntries(x: Value, y: Value, ax: Value, ay: Value, bx: Value): (r: seq<(string, Value)>)
    ensures |r| == 5 && r[0].1 == x && r[1].1 == y && r[2].1 == ax && r[3].1 == ay && r[4].1 == bx
    ensures DistinctNames(r)
  {
    [("ParamEyeBallX", x), ("ParamEyeBallY", y), ("ParamAngleX", ax), ("ParamAngleY", ay), ("ParamBodyAngleX", bx)]
  }

  /** The command for one auto feature, when its key is present. */
  function Feature(args: Args, key: string, action: string): (r: seq<Command>)
    ensures r == (if key in args then [FlagCommand(action, "enabled", args[key])] else [])
  {
    if key in args then [FlagCommand(action, "enabled", args[key])] else []
  }

  /** The seven tools every MCP server offers. */
  const Tools: set<string> := {"set_emotion", "play_animation", "set_parameter", "speak", "look_at", "control_auto_features", "window_control"}

  /** Python's view of a value as a number: booleans count as 0 and 1. */
  function PyNumber(v: Value): (r: Option<real>)
    ensures v.Num? ==> r == Some(v.n)
    ensures r.Some? ==> v.Num? || v.Bool?
  {
    match v
    case Num(n) => Some(n)
    case Bool(b) => Some(if b then 1.0 else 0.0)
    case _ => None
  }

  function Repeat<T>(s: seq<T>, k: nat): (r: seq<T>)
    ensures |r| == |s| * k
  {
    if k == 0 then [] else Repeat(s, k - 1) + s
  }

  /** `v * k` for a positive integer `k`: numbers multiply, strings and lists repeat, the rest raise. */
  function PyTimes(v: Value, k: nat): (r: Option<Value>)
    ensures PyNumber(v).Some? ==> r == Some(Num(PyNumber(v).value * (k as real)))
    ensures (v.Null? || v.Obj? || v.Undefined?) ==> r.None?
  {
    match v
    case Num(n) =>
      var m := n * (k as real);
      assert m == PyNumber(v).value * (k as real);
      Some(Num(m))
    case Bool(b) => Some(Num(if b then k as real else 0.0))
    case Str(s) => Some(Str(Repeat(s, k)))
    case Arr(items) => Some(Arr(Repeat(items, k)))
    case _ => None
  }

  /**
    How a Python `connect` ends: `websockets.connect` raises, the socket opens but reading
    or decoding the welcome message raises, or both succeed.
  */
  datatype Handshake = Refused | WelcomeLost | Welcomed

  /** One send over a connection: whether the command went out, the new state, the failure if any. */
  datatype Step<S, E> = Step(delivered: bool, state: S, failure: Option<E>)

  /** The sends of a call so far: what went out, the connection state, and the failure that ended it. */
  datatype Run<S, E> = Run(delivered: seq<Command>, state: S, failure: Option<E>)

  /**
    Sending `cmds` in order from state `s`, where the `k`-th send of the call meets link
    `net(k)`: the first failed send ends the run.
  */
  function RunSends<S, L, E>(step: (S, Command, L) -> Step<S, E>, s: S, cmds: seq<Command>, net: nat -> L, k: nat): (r: Run<S, E>)
    ensures |r.delivered| <= |cmds|
    decreases |cmds|
  {
    if cmds == [] then Run([], s, None)
    else
      var t := step(s, cmds[0], net(k));
      var out := if t.delivered then [cmds[0]] else [];
      if t.failure.Some? then Run(out, t.state, t.failure)
      else
        var rest := RunSends(step, t.state, cmds[1..], net, k + 1);
        Run(out + rest.delivered, rest.state, rest.failure)
  }

  /** Running a prefix one command longer: the run so far, then, unless it failed, one more send. */
  lemma RunSnoc<S, L, E>(step: (S, Command, L) -> Step<S, E>, s: S, cmds: seq<Command>, net: nat -> L, i: nat)
    requires i < |cmds|
    ensures var r := RunSends(step, s, cmds[..i], net, 0);
      var t := step(r.state, cmds[i], net(i));
      RunSends(step, s, cmds[..i + 1], net, 0) ==
        if r.failure.Some? then r else Run(r.delivered + (if t.delivered then [cmds[i]] else []), t.state, t.failure)
  {
    assert cmds[..i + 1] == cmds[..i] + [cmds[i]];
    RunAppend(step, s, cmds[..i], [cmds[i]], net, 0);
    assert [cmds[i]][1..] == [];
  }

  /** A run whose prefix already failed is that prefix's run: nothing after the failure is sent. */
  lemma RunStopped<S, L, E>(step: (S, Command, L) -> Step<S, E>, s: S, cmds: seq<Command>, net: nat -> L, i: nat)
    requires i <= |cmds| && RunSends(step, s, cmds[..i], net, 0).failure.Some?
    ensures RunSends(step, s, cmds, net, 0) == RunSends(step, s, cmds[..i], net, 0)
  {
    assert cmds == cmds[..i] + cmds[i..];
    RunAppend(step, s, cmds[..i], cmds[i..], net, 0);
  }

  lemma ConcatTail(a: seq<Command>, b: seq<Command>)
    requires a != []
    ensures a + b != [] && (a + b)[0] == a[0] && (a + b)[1..] == a[1..] + b
  {
  }

  /** Running `a + b` is running `a`, then, unless `a` failed, running `b` from where `a` left off. */
  lemma {:induction false} RunAppend<S, L, E>(step: (S, Command, L) -> Step<S, E>, s: S, a: seq<Command>, b: seq<Command>, net: nat -> L, k: nat)
    ensures var ra := RunSends(step, s, a, net, k);
      var rb := RunSends(step, ra.state, b, net, k + |a|);
      RunSends(step, s, a + b, net, k) ==
        if ra.failure.Some? then ra else Run(ra.delivered + rb.delivered, rb.state, rb.failure)
    decreases |a|
  {
    if a == [] {
      assert a + b == b;
    } else {
      ConcatTail(a, b);
      var t := step(s, a[0], net(k));
      if t.failure.None? {
        RunAppend(step, t.state, a[1..], b, net, k + 1);
        RunAppendStep(step, s, a, b, net, k);
      }
    }
  }

  /** The inductive step of `RunAppend`, once the first command went through. */
  lemma RunAppendStep<S, L, E>(step: (S, Command, L) -> Step<S, E>, s: S, a: seq<Command>, b: seq<Command>, net: nat -> L, k: nat)
    requires a != [] && step(s, a[0], net(k)).failure.None?
    requires (a + b)[0] == a[0] && (a + b)[1..] == a[1..] + b
    requires var t := step(s, a[0], net(k));
      var ra := RunSends(step, t.state, a[1..], net, k + 1);
      var rb := RunSends(step, ra.state, b, net, k + |a|);
      RunSends(step, t.state, a[1..] + b, net, k + 1) ==
        if ra.failure.Some? then ra else Run(ra.delivered + rb.delivered, rb.state, rb.failure)
    ensures var ra := RunSends(step, s, a, net, k);
      var rb := RunSends(step, ra.state, b, net, k + |a|);
      RunSends(step, s, a + b, net, k) ==
        if ra.failure.Some? then ra else Run(ra.delivered + rb.delivered, rb.state, rb.failure)
  {
    var t := step(s, a[0], net(k));
    var out := if t.delivered then [a[0]] else [];
    var ra := RunSends(step, t.state, a[1..], net, k + 1);
    var rb := RunSends(step, ra.state, b, net, k + |a|);
    assert out + (ra.delivered + rb.delivered) == (out + ra.delivered) + rb.delivered;
  }
}
