/**
  The example Node.js client for the control API: a connection flag kept by the socket's
  `open` and `close` events, the command builders, and a registry of message handlers
  kept in a `Map`, which iterates in insertion order.
*/
module NodeClient {
  import opened Values
  import opened Speech
  import opened McpCommon

  /** A registered handler; handlers are functions, told apart here by a token. */
  type Handler = nat

  /** The `messageHandlers` map as its entries in insertion order. */
  type Registry = seq<(string, Handler)>

  function Ids(m: Registry): (r: seq<string>)
    ensures |r| == |m| && forall i :: 0 <= i < |m| ==> r[i] == m[i].0
  {
    if m == [] then [] else Ids(m[..|m| - 1]) + [m[|m| - 1].0]
  }

  /** No id appears twice, as in any `Map`. */
  predicate Distinct(m: Registry) {
    forall i, j :: 0 <= i < j < |m| ==> m[i].0 != m[j].0
  }

  /** `map.get(id)`. */
  function Find(m: Registry, id: string): (r: Option<Handler>)
    ensures r.Some? <==> id in Ids(m)
    ensures r.Some? ==> exists i :: 0 <= i < |m| && m[i] == (id, r.value)
  {
    if m == [] then None
    else if m[|m| - 1].0 == id then Some(m[|m| - 1].1)
    else Find(m[..|m| - 1], id)
  }

  /** `map.set(id, h)`: an id already present keeps its place and takes the new handler; a new id goes last. */
  function Set(m: Registry, id: string, h: Handler): (r: Registry)
    ensures id in Ids(m) ==> |r| == |m| && Ids(r) == Ids(m)
    ensures id !in Ids(m) ==> r == m + [(id, h)]
  {
    if id !in Ids(m) then m + [(id, h)]
    else seq(|m|, i requires 0 <= i < |m| => if m[i].0 == id then (id, h) else m[i])
  }

  /** `map.delete(id)`: the entry of `id` goes, the others keep their order. */
  function Delete(m: Registry, id: string): (r: Registry)
    ensures |r| <= |m|
    ensures id !in Ids(r)
    ensures forall k :: k in Ids(r) ==> k in Ids(m)
    ensures id !in Ids(m) ==> r == m
  {
    if m == [] then []
    else if m[|m| - 1].0 == id then Delete(m[..|m| - 1], id)
    else Delete(m[..|m| - 1], id) + [m[|m| - 1]]
  }

  /** `set` stores the handler under its id and leaves every other id as it was. */
  lemma {:induction false} SetFinds(m: Registry, id: string, h: Handler, other: string)
    requires Distinct(m)
    ensures Find(Set(m, id, h), id) == Some(h)
    ensures other != id ==> Find(Set(m, id, h), other) == Find(m, other)
    ensures Distinct(Set(m, id, h))
  {
    var r := Set(m, id, h);
    if id !in Ids(m) {
      assert r[..|r| - 1] == m;
      assert Ids(r) == Ids(m) + [id];
    } else {
      SetFindsInPlace(m, id, h, id);
      SetFindsInPlace(m, id, h, other);
    }
  }

  lemma {:induction false} SetFindsInPlace(m: Registry, id: string, h: Handler, k: string)
    requires Distinct(m) && id in Ids(m)
    ensures var r := seq(|m|, i requires 0 <= i < |m| => if m[i].0 == id then (id, h) else m[i]);
      Distinct(r) && Find(r, k) == (if k == id then Some(h) else Find(m, k))
    decreases |m|
  {
    var r := seq(|m|, i requires 0 <= i < |m| => if m[i].0 == id then (id, h) else m[i]);
    assert Distinct(r) by {
      forall i, j | 0 <= i < j < |r|
        ensures r[i].0 != r[j].0
      {
        assert r[i].0 == m[i].0 && r[j].0 == m[j].0;
      }
    }
    var n := |m| - 1;
    assert Distinct(m[..n]);
    if m[n].0 == id {
      assert Find(r, id) == Some(h);
      if k != id {
        assert r[..n] == m[..n];
        assert Find(r, k) == Find(r[..n], k);
        assert Find(m, k) == Find(m[..n], k);
      }
    } else {
      assert id in Ids(m[..n]) by {
        var i :| 0 <= i < |Ids(m)| && Ids(m)[i] == id;
        assert i < n;
        assert Ids(m[..n])[i] == id;
      }
      SetFindsInPlace(m[..n], id, h, k);
      var r' := seq(n, i requires 0 <= i < n => if m[..n][i].0 == id then (id, h) else m[..n][i]);
      assert r[..n] == r';
      assert r[n] == m[n];
    }
  }

  /** The last entry of a registry is looked up first. */
  lemma FindLast(m: Registry, e: (string, Handler), k: string)
    ensures Find(m + [e], k) == if e.0 == k then Some(e.1) else Find(m, k)
  {
    assert (m + [e])[..|m|] == m;
  }

  /** `delete` removes only its own id: every other handler stays registered. */
  lemma {:induction false} DeleteFinds(m: Registry, id: string, other: string)
    ensures Find(Delete(m, id), id).None?
    ensures other != id ==> Find(Delete(m, id), other) == Find(m, other)
    decreases |m|
  {
    if m != [] && other != id {
      var n := |m| - 1;
      DeleteFinds(m[..n], id, other);
      if m[n].0 != id {
        FindLast(Delete(m[..n], id), m[n], other);
      }
    }
  }

  /** `delete` keeps the ids distinct. */
  lemma {:induction false} DeleteDistinct(m: Registry, id: string)
    requires Distinct(m)
    ensures Distinct(Delete(m, id))
    decreases |m|
  {
    if m != [] {
      var n := |m| - 1;
      assert Distinct(m[..n]);
      DeleteDistinct(m[..n], id);
      var d := Delete(m[..n], id);
      if m[n].0 != id {
        assert m[n].0 !in Ids(m[..n]) by {
          assert forall i :: 0 <= i < n ==> Ids(m[..n])[i] != m[n].0;
        }
        var r := d + [m[n]];
        forall i, j | 0 <= i < j < |r|
          ensures r[i].0 != r[j].0
        {
          if j == |d| {
            assert Ids(d)[i] == r[i].0;
          }
        }
      }
    }
  }

  /** Registering under a fresh id and then unsubscribing restores the registry exactly. */
  lemma UnsubscribeUndoes(m: Registry, id: string, h: Handler)
    requires id !in Ids(m)
    ensures Delete(Set(m, id, h), id) == m
  {
    var r := m + [(id, h)];
    assert r[..|r| - 1] == m;
  }

  /** The handlers a message reaches: every registered one, in insertion order. */
  function Handlers(m: Registry): (r: seq<Handler>)
    ensures |r| == |m| && forall i :: 0 <= i < |m| ==> r[i] == m[i].1
  {
    seq(|m|, i requires 0 <= i < |m| => m[i].1)
  }

  const NotConnected := "Not connected to Hime Display"

  /**
    One `sendCommand` of a frame loop, `closed` telling whether the socket's `close` event
    has fired by then: a connection that is up and still open sends; otherwise it throws.
  */
  function NodeStep(connected: bool, c: Command, closed: bool): (t: Step<bool, string>)
    ensures t.failure.None? <==> connected && !closed
    ensures t.failure.None? ==> t == Step(true, true, None)
    ensures t.failure.Some? ==> t == Step(false, false, Some(NotConnected))
  {
    if connected && !closed then Step(true, true, None) else Step(false, false, Some(NotConnected))
  }

  /** A run that has gone well so far either throws at the next command, sending nothing more, or sends it. */
  lemma NodeRunStep(s: bool, cmds: seq<Command>, closes: nat -> bool, i: nat, up: bool)
    requires i < |cmds| && RunSends(NodeStep, s, cmds[..i], closes, 0) == Run(cmds[..i], up, None)
    ensures up && !closes(i) ==> RunSends(NodeStep, s, cmds[..i + 1], closes, 0) == Run(cmds[..i + 1], true, None)
    ensures !(up && !closes(i)) ==> RunSends(NodeStep, s, cmds, closes, 0) == Run(cmds[..i], false, Some(NotConnected))
  {
    RunSnoc(NodeStep, s, cmds, net := closes, i := i);
    assert cmds[..i + 1] == cmds[..i] + [cmds[i]];
    if !(up && !closes(i)) {
      RunStopped(NodeStep, s, cmds, closes, i + 1);
    }
  }

  /** `playMotion(group, index = null, file = null)`: `index` unless it is `null`, `file` when it is truthy. */
  function MotionCommand(group: Value, index: Value, file: Value): (c: Command)
    ensures c.action == "playMotion" && c.data.Obj?
    ensures "group" in c.data.fields && c.data.fields["group"] == group
    ensures "index" in c.data.fields <==> !Nullish(index)
    ensures "index" in c.data.fields ==> c.data.fields["index"] == index
    ensures "file" in c.data.fields <==> Truthy(file)
    ensures "file" in c.data.fields ==> c.data.fields["file"] == file
    ensures c.data.fields.Keys <= {"group", "index", "file"}
  {
    var index := if index.Undefined? then Null else index;
    var data := map["group" := group];
    var data := if index != Null then data["index" := index] else data;
    var data := if Truthy(file) then data["file" := file] else data;
    Command("playMotion", Obj(data))
  }

  /** `playRandomMotion(group = null)`: the group only when it is truthy, `{}` otherwise. */
  function RandomMotionCommand(group: Value): (c: Command)
    ensures c.action == "playRandomMotion"
    ensures Truthy(group) ==> c.data == Obj(map["group" := group])
    ensures !Truthy(group) ==> c.data == Obj(map[])
  {
    if Truthy(group) then FlagCommand("playRandomMotion", "group", group) else Command("playRandomMotion", Obj(map[]))
  }

  /** The five presets of `setEmotion`. */
  function EmotionPreset(emotion: string): (r: Option<seq<(string, real)>>)
    ensures r.Some? <==> emotion in {"happy", "sad", "surprised", "angry", "neutral"}
    ensures r.Some? ==> 3 <= |r.value| <= 3
    ensures r.Some? ==> DistinctNames(r.value)
  {
    match emotion
    case "happy" => Some([("ParamMouthForm", 1.0), ("ParamEyeLOpen", 0.9), ("ParamEyeROpen", 0.9)])
    case "sad" => Some([("ParamMouthForm", -1.0), ("ParamEyeLOpen", 0.6), ("ParamEyeROpen", 0.6)])
    case "surprised" => Some([("ParamMouthOpenY", 0.8), ("ParamEyeLOpen", 1.0), ("ParamEyeROpen", 1.0)])
    case "angry" => Some([("ParamMouthForm", -0.5), ("ParamEyeLOpen", 0.7), ("ParamEyeROpen", 0.7)])
    case "neutral" => Some([("ParamMouthForm", 0.0), ("ParamEyeLOpen", 1.0), ("ParamEyeROpen", 1.0)])
    case _ => None
  }

  /** `lookAt`: exactly four parameters, the eyes at `(x, y)` and the head at `(15x, 10y)`. */
  function LookCommand(x: real, y: real): (c: Command)
    ensures c == SetParametersCommand([("ParamEyeBallX", x), ("ParamEyeBallY", y), ("ParamAngleX", x * 15.0), ("ParamAngleY", y * 10.0)])
    ensures |c.data.fields["parameters"].items| == 4
  {
    SetParametersCommand([("ParamEyeBallX", x), ("ParamEyeBallY", y), ("ParamAngleX", x * 15.0), ("ParamAngleY", y * 10.0)])
  }

  /** `Math.floor(duration / 100)` frames for a duration in milliseconds, none for a negative one. */
  function SpeechFrames(duration: real): (n: nat)
    ensures duration >= 0.0 ==> n as real <= duration / 100.0 < n as real + 1.0
    ensures duration < 100.0 ==> n == 0
  {
    FrameCount(duration / 1000.0)
  }

  /** `speakAnimation`'s commands: the triangle-wave frames, then the mouth closed. */
  function SpeechCommands(duration: real, intensity: real): (r: seq<Command>)
    ensures |r| == SpeechFrames(duration) + 1
    ensures r[..SpeechFrames(duration)] == TriangleFrames(duration / 1000.0, intensity) && r[SpeechFrames(duration)] == Mouth(0.0)
    ensures forall i :: 0 <= i < |r| ==> r[i].action == "setParameter"
  {
    TriangleFrames(duration / 1000.0, intensity) + [Mouth(0.0)]
  }

  class HimeDisplayClient {
    var connected: bool
    /** The commands written to the socket, in order. */
    var sent: seq<Command>
    var handlers: Registry

    constructor ()
      ensures !connected && sent == [] && handlers == []
    {
      connected := false;
      sent := [];
      handlers := [];
    }

    /** The socket's `open` event. */
    method Opened()
      modifies this`connected
      ensures connected
    {
      connected := true;
    }

    /** The socket's `close` event. */
    method Closed()
      modifies this`connected
      ensures !connected
    {
      connected := false;
    }

    /**
      A `message` event: the handlers it reaches, in order, and whether it settles the
      promise of `connect` (a message of type `connection`).
    */
    method Message(message: Value) returns (reached: seq<Handler>, settles: bool)
      ensures reached == Handlers(handlers)
      ensures settles <==> Prop(message, "type") == Str("connection")
    {
      reached := Handlers(handlers);
      settles := Prop(message, "type") == Str("connection");
    }

    /** `onMessage(handler)` under the id `Math.random` drew; unsubscribing is `Unsubscribe(id)`. */
    method OnMessage(handler: Handler, id: string) returns (unsubscribe: string)
      modifies this`handlers
      ensures handlers == Set(old(handlers), id, handler) && unsubscribe == id
    {
      handlers := Set(handlers, id, handler);
      return id;
    }

    /** The function `onMessage` returns: `delete(id)`, true when the id was still registered. */
    method Unsubscribe(id: string) returns (removed: bool)
      modifies this`handlers
      ensures handlers == Delete(old(handlers), id)
      ensures removed <==> id in Ids(old(handlers))
    {
      removed := id in Ids(handlers);
      handlers := Delete(handlers, id);
    }

    /** `sendCommand`: without a connection it throws; otherwise the command goes out. */
    method SendCommand(c: Command) returns (error: Option<string>)
      modifies this`sent
      ensures error.Some? <==> !connected
      ensures error.Some? ==> error == Some(NotConnected)
      ensures sent == old(sent) + (if connected then [c] else [])
    {
      if !connected {
        return Some(NotConnected);
      }
      sent := sent + [c];
      return None;
    }

    method SetParameter(id: string, value: real) returns (error: Option<string>)
      modifies this`sent
      ensures error == (if connected then None else Some(NotConnected))
      ensures sent == old(sent) + (if connected then [SetParameterCommand(id, value)] else [])
    {
      error := SendCommand(SetParameterCommand(id, value));
    }

    method SetParameters(ps: seq<(string, real)>) returns (error: Option<string>)
      modifies this`sent
      ensures error == (if connected then None else Some(NotConnected))
      ensures sent == old(sent) + (if connected then [SetParametersCommand(ps)] else [])
    {
      error := SendCommand(SetParametersCommand(ps));
    }

    method PlayMotion(group: Value, index: Value, file: Value) returns (error: Option<string>)
      modifies this`sent
      ensures error == (if connected then None else Some(NotConnected))
      ensures sent == old(sent) + (if connected then [MotionCommand(group, index, file)] else [])
    {
      error := SendCommand(MotionCommand(group, index, file));
    }

    method PlayRandomMotion(group: Value) returns (error: Option<string>)
      modifies this`sent
      ensures error == (if connected then None else Some(NotConnected))
      ensures sent == old(sent) + (if connected then [RandomMotionCommand(group)] else [])
    {
      error := SendCommand(RandomMotionCommand(group));
    }

    /** `setAutoBreath`, `setAutoEyeBlink` and `setTrackMouse`: `{enabled}` under their actions. */
    method SetFeature(action: string, enabled: Value) returns (error: Option<string>)
      requires action in {"setAutoBreath", "setAutoEyeBlink", "setTrackMouse"}
      modifies this`sent
      ensures error == (if connected then None else Some(NotConnected))
      ensures sent == old(sent) + (if connected then [FlagCommand(action, "enabled", enabled)] else [])
    {
      error := SendCommand(FlagCommand(action, "enabled", enabled));
    }

    /** `showDisplay` and `hideDisplay`: an empty data object. */
    method SetDisplay(show: bool) returns (error: Option<string>)
      modifies this`sent
      ensures error == (if connected then None else Some(NotConnected))
      ensures sent == old(sent) + (if connected then [Command(if show then "showDisplay" else "hideDisplay", Obj(map[]))] else [])
    {
      error := SendCommand(Command(if show then "showDisplay" else "hideDisplay", Obj(map[])));
    }

    /** `setEmotion`: an unknown name throws before anything is sent. */
    method SetEmotion(emotion: string) returns (error: Option<string>)
      modifies this`sent
      ensures EmotionPreset(emotion).None? ==> error == Some("Unknown emotion: " + emotion) && sent == old(sent)
      ensures EmotionPreset(emotion).Some? ==>
        error == (if connected then None else Some(NotConnected))
        && sent == old(sent) + (if connected then [SetParametersCommand(EmotionPreset(emotion).value)] else [])
    {
      var preset := EmotionPreset(emotion);
      if preset.None? {
        return Some("Unknown emotion: " + emotion);
      }
      error := SetParameters(preset.value);
    }

    method LookAt(x: real, y: real) returns (error: Option<string>)
      modifies this`sent
      ensures error == (if connected then None else Some(NotConnected))
      ensures sent == old(sent) + (if connected then [LookCommand(x, y)] else [])
    {
      error := SetParameters([("ParamEyeBallX", x), ("ParamEyeBallY", y), ("ParamAngleX", x * 15.0), ("ParamAngleY", y * 10.0)]);
    }

    /** One frame of `speakAnimation`: a `close` event may come first, then the mouth is set. */
    method Frame(value: real, closed: bool) returns (error: Option<string>)
      modifies this`sent, this`connected
      ensures var t := NodeStep(old(connected), Mouth(value), closed);
        error == t.failure && connected == t.state && sent == old(sent) + (if t.delivered then [Mouth(value)] else [])
    {
      if closed {
        Closed();
      }
      error := SetParameter(MouthOpen, value);
    }

    /** Command `i` of a speech whose commands so far all went through. */
    method SpeakStep(ghost cmds: seq<Command>, ghost s: bool, ghost before: seq<Command>, value: real, closes: nat -> bool, i: nat)
      returns (error: Option<string>)
      requires i < |cmds| && cmds[i] == Mouth(value)
      requires RunSends(NodeStep, s, cmds[..i], closes, 0) == Run(cmds[..i], connected, None)
      requires sent == before + cmds[..i]
      modifies this`sent, this`connected
      ensures error.Some? ==>
        (var run := RunSends(NodeStep, s, cmds, closes, 0); sent == before + run.delivered && connected == run.state && error == run.failure)
      ensures error.None? ==>
        sent == before + cmds[..i + 1] && RunSends(NodeStep, s, cmds[..i + 1], closes, 0) == Run(cmds[..i + 1], connected, None)
    {
      ghost var up := connected;
      NodeRunStep(s, cmds, closes, i, up);
      error := Frame(value, closes(i));
      if up && !closes(i) {
        assert cmds[..i + 1] == cmds[..i] + [cmds[i]];
      } else {
        assert sent == before + cmds[..i] && error == Some(NotConnected) && !connected;
      }
    }

    /**
      `speakAnimation(duration, intensity)` with the duration in milliseconds. Between
      frames it waits, and `closes(i)` tells whether the `close` event has fired by the
      `i`-th command (for the first one: before the call). The first throw rejects it.
    */
    method SpeakAnimation(duration: real, intensity: real, closes: nat -> bool) returns (error: Option<string>)
      modifies this`sent, this`connected
      ensures var run := RunSends(NodeStep, old(connected), SpeechCommands(duration, intensity), closes, 0);
        sent == old(sent) + run.delivered && connected == run.state && error == run.failure
    {
      ghost var cmds := SpeechCommands(duration, intensity);
      ghost var s := connected;
      var frames := SpeechFrames(duration);
      var i := 0;
      while i <= frames
        invariant 0 <= i <= frames + 1
        invariant RunSends(NodeStep, s, cmds[..i], closes, 0) == Run(cmds[..i], connected, None)
        invariant sent == old(sent) + cmds[..i]
      {
        var value := if i < frames then TriangleValue(intensity, i) else 0.0;
        assert cmds[i] == Mouth(value);
        error := SpeakStep(cmds, s, old(sent), value, closes, i);
        if error.Some? {
          return;
        }
        i := i + 1;
      }
      assert cmds[..i] == cmds;
      return None;
    }
  }
}
