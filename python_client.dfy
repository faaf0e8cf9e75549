/**
  The example Python client for the control API: a connection flag, the command builders
  and the higher-level helpers built on them. `send_command` refuses to send while
  disconnected, and never reconnects by itself.
*/
module PythonClient {
  import opened Values
  import opened Text
  import opened Speech
  import opened McpCommon

  /** The exceptions a command can raise: the refusal to send, an unknown emotion, and any exception of the socket or of `json.loads`. */
  datatype Exc = ConnectionError(message: string) | ValueError(message: string) | Raised(message: string)

  /** What a command returns: the decoded acknowledgment, or the exception it raises. */
  datatype Outcome = Ack(response: Value) | Fails(e: Exc)

  /**
    What one command meets on the socket: an acknowledgment that decodes to `response`,
    one `json.loads` rejects, a `send` that raises, or a `recv` that raises after the
    command went out.
  */
  datatype Link = Answered(response: Value) | Unparsable(message: string) | SendRaises(message: string) | RecvRaises(message: string)

  const NotConnected := ConnectionError("Not connected to Hime Display")

  /** `send_command`'s result over `link`. */
  function Sending(connected: bool, link: Link): (o: Outcome)
    ensures !connected ==> o == Fails(NotConnected)
    ensures o.Ack? <==> connected && link.Answered?
  {
    if !connected then Fails(NotConnected)
    else
      match link
      case Answered(v) => Ack(v)
      case Unparsable(m) => Fails(Raised(m))
      case SendRaises(m) => Fails(Raised(m))
      case RecvRaises(m) => Fails(Raised(m))
  }

  /** Whether the command reached the socket. */
  predicate Delivered(connected: bool, link: Link) {
    connected && !link.SendRaises?
  }

  /** One `send_command` as a step of a run: the flag never changes. */
  function ClientStep(connected: bool, c: Command, link: Link): (t: Step<bool, Exc>)
    ensures t.state == connected
    ensures t.failure.None? ==> t.delivered
    ensures !connected ==> t == Step(false, false, Some(NotConnected))
  {
    var o := Sending(connected, link);
    Step(Delivered(connected, link), connected, if o.Fails? then Some(o.e) else None)
  }

  /** A disconnected client raises at the first command and sends nothing. */
  lemma DisconnectedSendsNothing(cmds: seq<Command>, net: nat -> Link)
    requires cmds != []
    ensures RunSends(ClientStep, false, cmds, net, 0) == Run([], false, Some(NotConnected))
  {
  }

  /** `play_motion`: `index` only when it is not `None`, `file` only when it is truthy. */
  function MotionCommand(group: string, index: Option<int>, file: Option<string>): (c: Command)
    ensures c.action == "playMotion" && c.data.Obj?
    ensures "group" in c.data.fields && c.data.fields["group"] == Str(group)
    ensures "index" in c.data.fields <==> index.Some?
    ensures index.Some? ==> c.data.fields["index"] == Num(index.value as real)
    ensures "file" in c.data.fields <==> file.Some? && file.value != ""
    ensures "file" in c.data.fields ==> c.data.fields["file"] == Str(file.value)
    ensures c.data.fields.Keys <= {"group", "index", "file"}
  {
    var data := map["group" := Str(group)];
    var data := if index.Some? then data["index" := Num(index.value as real)] else data;
    var data := if file.Some? && file.value != "" then data["file" := Str(file.value)] else data;
    Command("playMotion", Obj(data))
  }

  /** `play_random_motion`: the group only when it is truthy, `{}` otherwise. */
  function RandomMotionCommand(group: Option<string>): (c: Command)
    ensures c.action == "playRandomMotion"
    ensures group.Some? && group.value != "" ==> c.data == Obj(map["group" := Str(group.value)])
    ensures group.None? || group.value == "" ==> c.data == Obj(map[])
  {
    if group.Some? && group.value != "" then FlagCommand("playRandomMotion", "group", Str(group.value))
    else Command("playRandomMotion", Obj(map[]))
  }

  /** The six presets of `set_emotion`, in the order of the dictionary. */
  function EmotionPreset(emotion: string): (r: Option<seq<(string, real)>>)
    ensures r.Some? <==> emotion in {"happy", "sad", "angry", "surprised", "confused", "neutral"}
    ensures r.Some? ==> 3 <= |r.value| <= 6
    ensures r.Some? ==> DistinctNames(r.value)
  {
    match emotion
    case "happy" => Some([("ParamMouthForm", 1.0), ("ParamEyeLOpen", 0.9), ("ParamEyeROpen", 0.9), ("ParamEyeBallY", -0.1)])
    case "sad" => Some([("ParamMouthForm", -1.0), ("ParamEyeLOpen", 0.6), ("ParamEyeROpen", 0.6), ("ParamAngleY", -5.0)])
    case "angry" => Some([("ParamMouthForm", -0.5), ("ParamEyeLOpen", 0.7), ("ParamEyeROpen", 0.7), ("ParamBrowLY", -1.0), ("ParamBrowRY", -1.0)])
    case "surprised" => Some([("ParamMouthOpenY", 0.8), ("ParamEyeLOpen", 1.0), ("ParamEyeROpen", 1.0), ("ParamBrowLY", 1.0), ("ParamBrowRY", 1.0)])
    case "confused" => Some([("ParamMouthForm", 0.2), ("ParamAngleX", 10.0), ("ParamEyeBallX", 0.5)])
    case "neutral" => Some([("ParamMouthForm", 0.0), ("ParamMouthOpenY", 0.0), ("ParamEyeLOpen", 1.0), ("ParamEyeROpen", 1.0), ("ParamAngleX", 0.0), ("ParamAngleY", 0.0)])
    case _ => None
  }

  const EmotionNames: seq<string> := ["happy", "sad", "angry", "surprised", "confused", "neutral"]

  /** The names in the message are exactly the presets. */
  lemma EmotionNamesArePresets(e: string)
    ensures EmotionPreset(e).Some? <==> e in EmotionNames
  {
  }

  /**
    `set_emotion`'s lookup: the preset of the lower-cased name, or the `ValueError` that
    lists the six names.
  */
  function EmotionParameters(emotion: string): (r: Result)
    ensures EmotionPreset(Lower(emotion)).Some? ==> r == Found(EmotionPreset(Lower(emotion)).value)
    ensures EmotionPreset(Lower(emotion)).None? ==>
      r == Unknown(ValueError("Unknown emotion: " + emotion + ". Available: " + Join(EmotionNames, ", ")))
  {
    match EmotionPreset(Lower(emotion))
    case Some(ps) => Found(ps)
    case None => Unknown(ValueError("Unknown emotion: " + emotion + ". Available: " + Join(EmotionNames, ", ")))
  }

  datatype Result = Found(parameters: seq<(string, real)>) | Unknown(e: Exc)

  /** The lookup does not depend on the case of ASCII letters. */
  lemma EmotionIgnoresCase(emotion: string)
    requires EmotionPreset(Lower(emotion)).Some?
    ensures EmotionParameters(emotion) == EmotionParameters(Lower(emotion))
  {
    LowerIdempotent(emotion);
  }

  /** `look_at`: exactly four parameters, the eyes at `(x, y)` and the head at `(15x, 10y)`. */
  function LookCommand(x: real, y: real): (c: Command)
    ensures c == SetParametersCommand([("ParamEyeBallX", x), ("ParamEyeBallY", y), ("ParamAngleX", x * 15.0), ("ParamAngleY", y * 10.0)])
    ensures |c.data.fields["parameters"].items| == 4
  {
    SetParametersCommand([("ParamEyeBallX", x), ("ParamEyeBallY", y), ("ParamAngleX", x * 15.0), ("ParamAngleY", y * 10.0)])
  }

  /** `speak_animation`'s commands: `int(duration * 10)` triangle-wave frames, then the mouth closed. */
  function SpeechCommands(duration: real, intensity: real): (r: seq<Command>)
    ensures |r| == FrameCount(duration) + 1
    ensures r[..FrameCount(duration)] == TriangleFrames(duration, intensity) && r[FrameCount(duration)] == Mouth(0.0)
    ensures forall i :: 0 <= i < |r| ==> r[i].action == "setParameter"
  {
    TriangleFrames(duration, intensity) + [Mouth(0.0)]
  }

  /** No command changes the flag: only `connect` and `disconnect` do. */
  lemma {:induction false} RunKeepsFlag(connected: bool, cmds: seq<Command>, net: nat -> Link, k: nat)
    ensures RunSends(ClientStep, connected, cmds, net, k).state == connected
    decreases |cmds|
  {
    if cmds != [] {
      RunKeepsFlag(connected, cmds[1..], net, k + 1);
    }
  }

  /** One more command of a run that has gone well so far: it ends the run, or the run goes on. */
  lemma ClientRunStep(connected: bool, cmds: seq<Command>, net: nat -> Link, i: nat)
    requires i < |cmds| && RunSends(ClientStep, connected, cmds[..i], net, 0) == Run(cmds[..i], connected, None)
    ensures var o := Sending(connected, net(i));
      var out := cmds[..i] + (if Delivered(connected, net(i)) then [cmds[i]] else []);
      (o.Fails? ==> RunSends(ClientStep, connected, cmds, net, 0) == Run(out, connected, Some(o.e)))
      && (o.Ack? ==> out == cmds[..i + 1] && RunSends(ClientStep, connected, cmds[..i + 1], net, 0) == Run(cmds[..i + 1], connected, None))
  {
    RunSnoc(ClientStep, connected, cmds, net, i);
    assert cmds[..i + 1] == cmds[..i] + [cmds[i]];
    if Sending(connected, net(i)).Fails? {
      RunStopped(ClientStep, connected, cmds, net, i + 1);
    }
  }

  class HimeDisplayClient {
    var connected: bool
    var hasSocket: bool
    /** The commands written to the socket, in order. */
    var sent: seq<Command>

    constructor ()
      ensures !connected && !hasSocket && sent == []
    {
      connected := false;
      hasSocket := false;
      sent := [];
    }

    /** `connect`: the flag is set once the socket opens, even when the welcome message is then lost. */
    method Connect(outcome: Handshake) returns (ok: bool)
      modifies this`connected, this`hasSocket
      ensures ok <==> outcome == Welcomed
      ensures (connected, hasSocket) == (if outcome == Refused then old((connected, hasSocket)) else (true, true))
    {
      if outcome == Refused {
        return false;
      }
      hasSocket := true;
      connected := true;
      return outcome == Welcomed;
    }

    /** `disconnect`: with a socket, the flag goes down. */
    method Disconnect()
      modifies this`connected
      ensures connected == (old(connected) && !hasSocket)
    {
      if hasSocket {
        connected := false;
      }
    }

    /** `send_command` of `c` over `link`. */
    method SendCommand(c: Command, link: Link) returns (o: Outcome)
      modifies this`sent
      ensures o == Sending(connected, link)
      ensures sent == old(sent) + (if Delivered(connected, link) then [c] else [])
    {
      if !connected {
        return Fails(NotConnected);
      }
      match link {
        case Answered(v) =>
          sent := sent + [c];
          return Ack(v);
        case Unparsable(m) =>
          sent := sent + [c];
          return Fails(Raised(m));
        case SendRaises(m) =>
          return Fails(Raised(m));
        case RecvRaises(m) =>
          sent := sent + [c];
          return Fails(Raised(m));
      }
    }

    method SetParameter(id: string, value: real, link: Link) returns (o: Outcome)
      modifies this`sent
      ensures o == Sending(connected, link)
      ensures sent == old(sent) + (if Delivered(connected, link) then [SetParameterCommand(id, value)] else [])
    {
      o := SendCommand(SetParameterCommand(id, value), link);
    }

    method SetParameters(ps: seq<(string, real)>, link: Link) returns (o: Outcome)
      modifies this`sent
      ensures o == Sending(connected, link)
      ensures sent == old(sent) + (if Delivered(connected, link) then [SetParametersCommand(ps)] else [])
    {
      o := SendCommand(SetParametersCommand(ps), link);
    }

    method PlayMotion(group: string, index: Option<int>, file: Option<string>, link: Link) returns (o: Outcome)
      modifies this`sent
      ensures o == Sending(connected, link)
      ensures sent == old(sent) + (if Delivered(connected, link) then [MotionCommand(group, index, file)] else [])
    {
      o := SendCommand(MotionCommand(group, index, file), link);
    }

    method PlayRandomMotion(group: Option<string>, link: Link) returns (o: Outcome)
      modifies this`sent
      ensures o == Sending(connected, link)
      ensures sent == old(sent) + (if Delivered(connected, link) then [RandomMotionCommand(group)] else [])
    {
      o := SendCommand(RandomMotionCommand(group), link);
    }

    /** `set_auto_breath`, `set_auto_eye_blink` and `set_track_mouse`: `{"enabled": enabled}` under their actions. */
    method SetFeature(action: string, enabled: bool, link: Link) returns (o: Outcome)
      requires action in {"setAutoBreath", "setAutoEyeBlink", "setTrackMouse"}
      modifies this`sent
      ensures o == Sending(connected, link)
      ensures sent == old(sent) + (if Delivered(connected, link) then [FlagCommand(action, "enabled", Bool(enabled))] else [])
    {
      o := SendCommand(FlagCommand(action, "enabled", Bool(enabled)), link);
    }

    /** `show_display` and `hide_display`: an empty data object. */
    method SetDisplay(show: bool, link: Link) returns (o: Outcome)
      modifies this`sent
      ensures o == Sending(connected, link)
      ensures sent == old(sent) + (if Delivered(connected, link) then [Command(if show then "showDisplay" else "hideDisplay", Obj(map[]))] else [])
    {
      o := SendCommand(Command(if show then "showDisplay" else "hideDisplay", Obj(map[])), link);
    }

    /** `set_emotion`: an unknown name raises the `ValueError` before anything is sent. */
    method SetEmotion(emotion: string, link: Link) returns (o: Outcome)
      modifies this`sent
      ensures EmotionParameters(emotion).Unknown? ==> o == Fails(EmotionParameters(emotion).e) && sent == old(sent)
      ensures EmotionParameters(emotion).Found? ==>
        o == Sending(connected, link)
        && sent == old(sent) + (if Delivered(connected, link) then [SetParametersCommand(EmotionParameters(emotion).parameters)] else [])
    {
      var r := EmotionParameters(emotion);
      if r.Unknown? {
        return Fails(r.e);
      }
      o := SetParameters(r.parameters, link);
    }

    method LookAt(x: real, y: real, link: Link) returns (o: Outcome)
      modifies this`sent
      ensures o == Sending(connected, link)
      ensures sent == old(sent) + (if Delivered(connected, link) then [LookCommand(x, y)] else [])
    {
      o := SetParameters([("ParamEyeBallX", x), ("ParamEyeBallY", y), ("ParamAngleX", x * 15.0), ("ParamAngleY", y * 10.0)], link);
    }

    /** One frame of `speak_animation`: frame `i` of `frames` meets `net(i)`, the run so far having gone through. */
    method SpeakFrame(ghost frames: seq<Command>, duration: real, intensity: real, net: nat -> Link, i: nat, ghost before: seq<Command>)
      returns (failure: Option<Exc>)
      requires frames == TriangleFrames(duration, intensity) && i < |frames|
      requires RunSends(ClientStep, connected, frames[..i], net, 0) == Run(frames[..i], connected, None)
      requires sent == before + frames[..i]
      modifies this`sent
      ensures failure.Some? ==>
        (var run := RunSends(ClientStep, connected, frames, net, 0); sent == before + run.delivered && failure == run.failure)
      ensures failure.None? ==>
        sent == before + frames[..i + 1] && RunSends(ClientStep, connected, frames[..i + 1], net, 0) == Run(frames[..i + 1], connected, None)
    {
      ClientRunStep(connected, frames, net, i);
      assert frames[i] == SetParameterCommand(MouthOpen, TriangleValue(intensity, i));
      var o := SetParameter(MouthOpen, TriangleValue(intensity, i), net(i));
      if o.Fails? {
        return Some(o.e);
      }
      return None;
    }

    /** The frame loop of `speak_animation`, the `i`-th frame meeting `net(i)`; the first exception ends it. */
    method SpeakFrames(duration: real, intensity: real, net: nat -> Link) returns (failure: Option<Exc>)
      modifies this`sent
      ensures var run := RunSends(ClientStep, connected, TriangleFrames(duration, intensity), net, 0);
        sent == old(sent) + run.delivered && failure == run.failure
    {
      ghost var frames := TriangleFrames(duration, intensity);
      var n := FrameCount(duration);
      var i := 0;
      while i < n
        invariant 0 <= i <= n
        invariant RunSends(ClientStep, connected, frames[..i], net, 0) == Run(frames[..i], connected, None)
        invariant sent == old(sent) + frames[..i]
      {
        failure := SpeakFrame(frames, duration, intensity, net, i, old(sent));
        if failure.Some? {
          return;
        }
        i := i + 1;
      }
      assert frames[..n] == frames;
      return None;
    }

    /**
      `speak_animation`: the frames, then the mouth closed, the `i`-th command meeting
      `net(i)`; the first exception ends it.
    */
    method SpeakAnimation(duration: real, intensity: real, net: nat -> Link) returns (failure: Option<Exc>)
      modifies this`sent
      ensures var run := RunSends(ClientStep, connected, SpeechCommands(duration, intensity), net, 0);
        sent == old(sent) + run.delivered && failure == run.failure
    {
      ghost var frames := TriangleFrames(duration, intensity);
      RunAppend(ClientStep, connected, frames, [Mouth(0.0)], net, 0);
      RunKeepsFlag(connected, frames, net, 0);
      failure := SpeakFrames(duration, intensity, net);
      if failure.Some? {
        return;
      }
      var o := SetParameter(MouthOpen, 0.0, net(FrameCount(duration)));
      assert [Mouth(0.0)][1..] == [];
      return if o.Fails? then Some(o.e) else None;
    }
  }
}
