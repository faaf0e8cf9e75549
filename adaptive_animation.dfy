/**
  The adaptive animation bridge of the Python client: it probes which parameters and
  motion groups the loaded model accepts, records them in a capability registry, and
  from then on sends only commands that use what the model supports. The display's
  answers to the probes are given as the sets of parameters and groups it accepts; the
  clock is a parameter.
*/
module Adaptive {
  import opened Values
  import opened Text
  import opened Speech

  /** The set of the elements of a sequence. */
  function SetOf(s: seq<string>): (r: set<string>)
    ensures forall x :: x in r <==> x in s
  {
    set x | x in s
  }

  class ModelCapabilities {
    var supportedParams: set<string>
    var supportedGroups: set<string>
    var hasMotions: bool
    var tested: bool
    var warningsShown: set<string>

    constructor ()
      ensures supportedParams == {} && supportedGroups == {} && !hasMotions && !tested && warningsShown == {}
    {
      supportedParams := {};
      supportedGroups := {};
      hasMotions := false;
      tested := false;
      warningsShown := {};
    }

    method MarkParamSupported(param: string)
      modifies this`supportedParams
      ensures supportedParams == old(supportedParams) + {param}
    {
      supportedParams := supportedParams + {param};
    }

    /** Recording a group also records that the model has motions. */
    method MarkGroupSupported(group: string)
      modifies this`supportedGroups, this`hasMotions
      ensures supportedGroups == old(supportedGroups) + {group} && hasMotions
    {
      supportedGroups := supportedGroups + {group};
      hasMotions := true;
    }

    predicate SupportsParam(param: string)
      reads this
    {
      param in supportedParams
    }

    predicate SupportsGroup(group: string)
      reads this
    {
      group in supportedGroups
    }

    /** `should_warn`: true the first time a key is seen, and the key is remembered. */
    method ShouldWarn(key: string) returns (warn: bool)
      modifies this`warningsShown
      ensures warn <==> key !in old(warningsShown)
      ensures warningsShown == old(warningsShown) + {key}
    {
      if key !in warningsShown {
        warningsShown := warningsShown + {key};
        return true;
      }
      return false;
    }
  }

  /** A warning is shown at most once per key: asking twice, the second answer is no. */
  method WarnsOnce(c: ModelCapabilities, key: string) returns (first: bool, second: bool)
    modifies c
    ensures first == (key !in old(c.warningsShown)) && !second
  {
    first := c.ShouldWarn(key);
    second := c.ShouldWarn(key);
  }

  /** `BASIC_PARAMS`, category by category. */
  const BasicParams: seq<(string, seq<string>)> := [
    ("angles", ["ParamAngleX", "ParamAngleY", "ParamAngleZ"]),
    ("eyes", ["ParamEyeLOpen", "ParamEyeROpen", "ParamEyeBallX", "ParamEyeBallY"]),
    ("mouth", ["ParamMouthOpenY", "ParamMouthForm"]),
    ("body", ["ParamBodyAngleX", "ParamBodyAngleY"]),
    ("brows", ["ParamBrowLY", "ParamBrowRY", "ParamBrowLForm", "ParamBrowRForm"])
  ]

  const CommonGroups: seq<string> := ["idle", "motion", "greeting", "tap_head", "tap_body"]

  /** The parameters of the categories, in the order the probe tries them. */
  function Flatten(categories: seq<(string, seq<string>)>): (r: seq<string>)
    ensures forall i :: 0 <= i < |categories| ==> SetOf(categories[i].1) <= SetOf(r)
    decreases |categories|
  {
    if categories == [] then [] else categories[0].1 + Flatten(categories[1..])
  }

  const BasicParamList := Flatten(BasicParams)

  function PlayGroup(group: string): Command {
    FlagCommand("playRandomMotion", "group", Str(group))
  }

  /** One `setParameter` to 0 per parameter, in order. */
  function ParamTests(params: seq<string>): (r: seq<Command>)
    ensures |r| == |params|
    ensures forall i :: 0 <= i < |params| ==> r[i] == SetParameterCommand(params[i], 0.0)
  {
    if params == [] then [] else ParamTests(params[..|params| - 1]) + [SetParameterCommand(params[|params| - 1], 0.0)]
  }

  /** Growing a list by one element grows its set by that element. */
  lemma SetOfSnoc(s: seq<string>, i: nat)
    requires i < |s|
    ensures SetOf(s[..i + 1]) == SetOf(s[..i]) + {s[i]}
  {
    assert s[..i + 1] == s[..i] + [s[i]];
  }

  /** One `playRandomMotion` per group, in order. */
  function GroupTests(groups: seq<string>): (r: seq<Command>)
    ensures |r| == |groups|
    ensures forall i :: 0 <= i < |groups| ==> r[i] == PlayGroup(groups[i])
  {
    if groups == [] then [] else GroupTests(groups[..|groups| - 1]) + [PlayGroup(groups[|groups| - 1])]
  }

  /** The commands of the probe: every basic parameter set to 0, then every common group played. */
  function ProbeCommands(): (r: seq<Command>)
    ensures |r| == |BasicParamList| + |CommonGroups|
    ensures forall i :: 0 <= i < |BasicParamList| ==> r[i] == SetParameterCommand(BasicParamList[i], 0.0)
    ensures forall j :: 0 <= j < |CommonGroups| ==> r[|BasicParamList| + j] == PlayGroup(CommonGroups[j])
  {
    ParamTests(BasicParamList) + GroupTests(CommonGroups)
  }

  /** After probing, an empty parameter registry falls back to all basic parameters. */
  function Fallback(found: set<string>): (r: set<string>)
    ensures r != {}
    ensures found != {} ==> r == found
  {
    if found == {} then
      assert "ParamAngleX" in SetOf(BasicParams[0].1);
      SetOf(BasicParamList)
    else found
  }

  /** The entries of `config` whose parameter is supported, in config order. */
  function Available(config: seq<(string, real)>, supported: set<string>): (r: seq<(string, real)>)
    ensures |r| <= |config|
    ensures forall e :: e in r <==> e in config && e.0 in supported
    ensures Subsequence(r, config)
    decreases |config|
  {
    if config == [] then []
    else
      var init := config[..|config| - 1];
      var last := config[|config| - 1];
      assert config == init + [last];
      var rest := Available(init, supported);
      if last.0 in supported then
        assert (rest + [last])[..|rest|] == rest;
        rest + [last]
      else
        rest
  }

  /** `a` is `b` with some entries left out, the others in their order. */
  predicate Subsequence<T(==)>(a: seq<T>, b: seq<T>): (r: bool)
    ensures r ==> |a| <= |b|
    ensures r ==> forall i :: 0 <= i < |a| ==> a[i] in b
    decreases |b|
  {
    a == [] || (b != [] && ((a[|a| - 1] == b[|b| - 1] && Subsequence(a[..|a| - 1], b[..|b| - 1])) || Subsequence(a, b[..|b| - 1])))
  }

  lemma AvailableStep(config: seq<(string, real)>, i: nat, supported: set<string>)
    requires i < |config|
    ensures Available(config[..i + 1], supported) == Available(config[..i], supported) + (if config[i].0 in supported then [config[i]] else [])
  {
    assert config[..i + 1][..i] == config[..i];
  }

  /** `emotion_configs`, in dictionary order. */
  function EmotionConfig(emotion: string): (r: Option<seq<(string, real)>>)
    ensures r.Some? <==> emotion in {"happy", "sad", "surprised", "neutral"}
    ensures r.Some? ==> 3 <= |r.value| <= 6
    ensures r.Some? ==> DistinctNames(r.value)
  {
    match emotion
    case "happy" => Some([("ParamMouthForm", 1.0), ("ParamEyeLOpen", 0.9), ("ParamEyeROpen", 0.9)])
    case "sad" => Some([("ParamMouthForm", -1.0), ("ParamEyeLOpen", 0.6), ("ParamEyeROpen", 0.6), ("ParamAngleY", -5.0)])
    case "surprised" => Some([("ParamMouthOpenY", 0.8), ("ParamEyeLOpen", 1.0), ("ParamEyeROpen", 1.0)])
    case "neutral" => Some(NeutralConfig)
    case _ => None
  }

  const NeutralConfig: seq<(string, real)> := [("ParamMouthForm", 0.0), ("ParamMouthOpenY", 0.0), ("ParamEyeLOpen", 1.0), ("ParamEyeROpen", 1.0), ("ParamAngleX", 0.0), ("ParamAngleY", 0.0)]

  /** `emotion_configs.get(emotion, emotion_configs["neutral"])`. */
  function ConfigFor(emotion: string): (c: seq<(string, real)>)
    ensures EmotionConfig(emotion).Some? ==> c == EmotionConfig(emotion).value
    ensures EmotionConfig(emotion).None? ==> c == NeutralConfig
  {
    match EmotionConfig(emotion)
    case Some(c) => c
    case None => NeutralConfig
  }

  /** The gaze parameters `look_at_adaptive` would set, all of them supported. */
  function LookConfig(x: real, y: real): (r: seq<(string, real)>)
    ensures |r| == 4 && r[0].1 == x && r[1].1 == y
    ensures r[2].1 == 15.0 * r[0].1 && r[3].1 == 10.0 * r[1].1
    ensures DistinctNames(r)
  {
    [("ParamEyeBallX", x), ("ParamEyeBallY", y), ("ParamAngleX", x * 15.0), ("ParamAngleY", y * 10.0)]
  }

  function IfIn(e: (string, real), s: set<string>): seq<(string, real)> {
    if e.0 in s then [e] else []
  }

  /** The supported gaze parameters, one test after another. */
  lemma LookAvailable(x: real, y: real, s: set<string>)
    ensures Available(LookConfig(x, y), s) ==
      IfIn(("ParamEyeBallX", x), s) + IfIn(("ParamEyeBallY", y), s) + IfIn(("ParamAngleX", x * 15.0), s) + IfIn(("ParamAngleY", y * 10.0), s)
  {
    var look := LookConfig(x, y);
    assert look[..0] == [];
    AvailableStep(look, 0, s);
    assert Available(look[..1], s) == IfIn(look[0], s);
    AvailableStep(look, 1, s);
    assert Available(look[..2], s) == IfIn(look[0], s) + IfIn(look[1], s);
    AvailableStep(look, 2, s);
    assert Available(look[..3], s) == IfIn(look[0], s) + IfIn(look[1], s) + IfIn(look[2], s);
    AvailableStep(look, 3, s);
    assert look[..4] == look;
  }

  /** The probe covers every parameter the emotion and gaze configurations use. */
  lemma ConfigsAreProbed(emotion: string, x: real, y: real)
    ensures EmotionConfig(emotion).Some? ==> forall e :: e in EmotionConfig(emotion).value ==> e.0 in BasicParamList
    ensures forall e :: e in LookConfig(x, y) ==> e.0 in BasicParamList
  {
    assert BasicParamList == BasicParams[0].1 + BasicParams[1].1 + BasicParams[2].1 + BasicParams[3].1 + BasicParams[4].1;
  }

  /** A `setParameters` with the list, or nothing when the list is empty. */
  function SetIfAny(ps: seq<(string, real)>): (r: seq<Command>)
    ensures |r| <= 1
    ensures r == [] <==> ps == []
    ensures forall i :: 0 <= i < |r| ==> r[i].action == "setParameters"
  {
    if ps == [] then [] else [SetParametersCommand(ps)]
  }

  /** The groups `play_animation_adaptive` tries for an emotion; any other (or `None`) tries idle, then motion. */
  function PreferredGroups(emotion: string): (g: seq<string>)
    ensures g != []
  {
    match emotion
    case "happy" => ["motion", "greeting"]
    case "excited" => ["greeting", "motion"]
    case "surprised" => ["motion"]
    case _ => ["idle", "motion"]
  }

  /** The position of the first supported group. */
  function FirstSupported(groups: seq<string>, supported: set<string>): (r: Option<nat>)
    ensures r.Some? ==> r.value < |groups| && groups[r.value] in supported
    ensures r.Some? ==> forall i :: 0 <= i < r.value ==> groups[i] !in supported
    ensures r.None? <==> forall i :: 0 <= i < |groups| ==> groups[i] !in supported
    decreases |groups|
  {
    if groups == [] then None
    else if groups[0] in supported then Some(0)
    else
      match FirstSupported(groups[1..], supported)
      case None => None
      case Some(k) => Some(k + 1)
  }

  /** The group `play_animation_adaptive` plays, if any. */
  function ChosenGroup(hasMotions: bool, supported: set<string>, emotion: string): (r: Option<string>)
    ensures r.Some? ==> hasMotions && r.value in supported && r.value in PreferredGroups(emotion)
    ensures !hasMotions ==> r.None?
  {
    if !hasMotions then None
    else
      var groups := PreferredGroups(emotion);
      match FirstSupported(groups, supported)
      case None => None
      case Some(k) => Some(groups[k])
  }

  function PlayCommand(group: Option<string>): (r: seq<Command>)
    ensures |r| <= 1
    ensures forall i :: 0 <= i < |r| ==> r[i].action == "playRandomMotion"
  {
    match group
    case None => []
    case Some(g) => [PlayGroup(g)]
  }

  /** What `speak_animation_adaptive` sends: a triangle-wave speech, or nothing without a mouth. */
  function AdaptiveSpeech(supportedParams: set<string>, duration: real, intensity: real): (r: seq<Command>)
    ensures MouthOpen !in supportedParams ==> r == []
    ensures MouthOpen in supportedParams ==>
      (|r| == FrameCount(duration) + 3 && r[0] == BreathOff && r[|r| - 2] == Mouth(0.0) && r[|r| - 1] == BreathOn)
    ensures forall i :: 0 <= i < |r| ==> r[i].action in {"setParameter", "setAutoBreath"}
  {
    if MouthOpen in supportedParams then Spoken(TriangleFrames(duration, intensity)) else []
  }

  lemma Regroup(a: seq<Command>, b: seq<Command>, c: seq<Command>, d: seq<Command>)
    ensures a + b + c + d == a + (b + c + d)
  {
  }

  class AdaptiveController {
    const capabilities: ModelCapabilities
    /** The commands sent, in order. */
    var sent: seq<Command>
    var speaking: bool
    var lastAnimationTime: real

    constructor ()
      ensures fresh(capabilities) && sent == [] && !speaking && lastAnimationTime == 0.0
      ensures capabilities.supportedParams == {} && capabilities.supportedGroups == {}
      ensures !capabilities.hasMotions && !capabilities.tested
    {
      capabilities := new ModelCapabilities();
      sent := [];
      speaking := false;
      lastAnimationTime := 0.0;
    }

    /** `send_command`; the WebSocket round trip is not modelled. */
    method Send(c: Command)
      modifies this`sent
      ensures sent == old(sent) + [c]
    {
      sent := sent + [c];
    }

    /** `test_parameter`: set the parameter to 0 and record it when the display accepts it. */
    method TestParameter(param: string, accepted: bool) returns (ok: bool)
      modifies this`sent, capabilities`supportedParams
      ensures ok == accepted && sent == old(sent) + [SetParameterCommand(param, 0.0)]
      ensures capabilities.supportedParams == old(capabilities.supportedParams) + (if accepted then {param} else {})
    {
      Send(SetParameterCommand(param, 0.0));
      if accepted {
        capabilities.MarkParamSupported(param);
      }
      return accepted;
    }

    /** `test_animation_group`: play the group and record it when the display accepts it. */
    method TestAnimationGroup(group: string, accepted: bool) returns (ok: bool)
      modifies this`sent, capabilities`supportedGroups, capabilities`hasMotions
      ensures ok == accepted && sent == old(sent) + [PlayGroup(group)]
      ensures capabilities.supportedGroups == old(capabilities.supportedGroups) + (if accepted then {group} else {})
      ensures capabilities.hasMotions == (old(capabilities.hasMotions) || accepted)
    {
      Send(PlayGroup(group));
      if accepted {
        capabilities.MarkGroupSupported(group);
      }
      return accepted;
    }

    /** The parameter loop of the probe. */
    method ProbeParams(params: seq<string>, acceptedParams: set<string>)
      modifies this`sent, capabilities`supportedParams
      ensures sent == old(sent) + ParamTests(params)
      ensures capabilities.supportedParams == old(capabilities.supportedParams) + SetOf(params) * acceptedParams
    {
      for i := 0 to |params|
        invariant sent == old(sent) + ParamTests(params[..i])
        invariant capabilities.supportedParams == old(capabilities.supportedParams) + SetOf(params[..i]) * acceptedParams
      {
        SetOfSnoc(params, i);
        assert params[..i + 1][..i] == params[..i];
        var _ := TestParameter(params[i], params[i] in acceptedParams);
      }
      assert params[..|params|] == params;
    }

    /** The group loop of the probe. */
    method ProbeGroups(groups: seq<string>, acceptedGroups: set<string>)
      modifies this`sent, capabilities`supportedGroups, capabilities`hasMotions
      ensures sent == old(sent) + GroupTests(groups)
      ensures capabilities.supportedGroups == old(capabilities.supportedGroups) + SetOf(groups) * acceptedGroups
      ensures capabilities.hasMotions <==> old(capabilities.hasMotions) || SetOf(groups) * acceptedGroups != {}
    {
      for i := 0 to |groups|
        invariant sent == old(sent) + GroupTests(groups[..i])
        invariant capabilities.supportedGroups == old(capabilities.supportedGroups) + SetOf(groups[..i]) * acceptedGroups
        invariant capabilities.hasMotions <==> old(capabilities.hasMotions) || SetOf(groups[..i]) * acceptedGroups != {}
      {
        SetOfSnoc(groups, i);
        assert groups[..i + 1][..i] == groups[..i];
        var _ := TestAnimationGroup(groups[i], groups[i] in acceptedGroups);
      }
      assert groups[..|groups|] == groups;
    }

    /** The fallback of the probe: every basic parameter marked supported. */
    method AssumeBasicSupport()
      modifies capabilities`supportedParams
      ensures capabilities.supportedParams == old(capabilities.supportedParams) + SetOf(BasicParamList)
    {
      var params := BasicParamList;
      for i := 0 to |params|
        invariant capabilities.supportedParams == old(capabilities.supportedParams) + SetOf(params[..i])
      {
        SetOfSnoc(params, i);
        capabilities.MarkParamSupported(params[i]);
      }
      assert params[..|params|] == params;
    }

    /**
      `probe_model_capabilities`, with `acceptedParams` and `acceptedGroups` the probes
      the display answers with success. A second probe does nothing.
    */
    method Probe(acceptedParams: set<string>, acceptedGroups: set<string>)
      modifies this`sent, capabilities
      ensures old(capabilities.tested) ==> sent == old(sent) && unchanged(capabilities)
      ensures !old(capabilities.tested) ==>
        && sent == old(sent) + ProbeCommands()
        && capabilities.tested
        && capabilities.supportedParams == Fallback(old(capabilities.supportedParams) + SetOf(BasicParamList) * acceptedParams)
        && capabilities.supportedGroups == old(capabilities.supportedGroups) + SetOf(CommonGroups) * acceptedGroups
        && (capabilities.hasMotions <==> old(capabilities.hasMotions) || SetOf(CommonGroups) * acceptedGroups != {})
        && capabilities.warningsShown == old(capabilities.warningsShown)
    {
      if capabilities.tested {
        return;
      }
      ProbeParams(BasicParamList, acceptedParams);
      ProbeGroups(CommonGroups, acceptedGroups);
      assert sent == old(sent) + ProbeCommands();
      if capabilities.supportedParams == {} {
        AssumeBasicSupport();
      }
      capabilities.tested := true;
    }

    /** `set_emotion_adaptive`: the emotion's configuration, cut down to the supported parameters. */
    method SetEmotionAdaptive(emotion: string)
      modifies this`sent
      ensures sent == old(sent) + SetIfAny(Available(ConfigFor(emotion), capabilities.supportedParams))
    {
      var config := ConfigFor(emotion);
      var paramsToSet: seq<(string, real)> := [];
      for i := 0 to |config|
        invariant paramsToSet == Available(config[..i], capabilities.supportedParams)
        invariant sent == old(sent)
      {
        AvailableStep(config, i, capabilities.supportedParams);
        if capabilities.SupportsParam(config[i].0) {
          paramsToSet := paramsToSet + [config[i]];
        }
      }
      assert config[..|config|] == config;
      assert paramsToSet == Available(ConfigFor(emotion), capabilities.supportedParams);
      if paramsToSet != [] {
        Send(SetParametersCommand(paramsToSet));
      }
    }

    /** `look_at_adaptive`: each gaze parameter only when the model supports it. */
    method LookAtAdaptive(x: real, y: real)
      modifies this`sent
      ensures sent == old(sent) + SetIfAny(Available(LookConfig(x, y), capabilities.supportedParams))
    {
      ghost var p := capabilities.supportedParams;
      var paramsToSet: seq<(string, real)> := [];
      if capabilities.SupportsParam("ParamEyeBallX") {
        paramsToSet := paramsToSet + [("ParamEyeBallX", x)];
      }
      assert paramsToSet == IfIn(("ParamEyeBallX", x), p);
      if capabilities.SupportsParam("ParamEyeBallY") {
        paramsToSet := paramsToSet + [("ParamEyeBallY", y)];
      }
      assert paramsToSet == IfIn(("ParamEyeBallX", x), p) + IfIn(("ParamEyeBallY", y), p);
      if capabilities.SupportsParam("ParamAngleX") {
        paramsToSet := paramsToSet + [("ParamAngleX", x * 15.0)];
      }
      assert paramsToSet == IfIn(("ParamEyeBallX", x), p) + IfIn(("ParamEyeBallY", y), p) + IfIn(("ParamAngleX", x * 15.0), p);
      if capabilities.SupportsParam("ParamAngleY") {
        paramsToSet := paramsToSet + [("ParamAngleY", y * 10.0)];
      }
      LookAvailable(x, y, p);
      ghost var want := Available(LookConfig(x, y), p);
      assert paramsToSet == want;
      if paramsToSet != [] {
        Send(SetParametersCommand(paramsToSet));
      }
      assert sent == old(sent) + SetIfAny(want);
    }

    /** `play_animation_adaptive` at clock time `now`: at most one motion, the first supported preferred group. */
    method PlayAnimationAdaptive(emotion: string, now: real)
      modifies this`sent, this`lastAnimationTime
      ensures sent == old(sent) + PlayCommand(ChosenGroup(capabilities.hasMotions, capabilities.supportedGroups, emotion))
      ensures lastAnimationTime == if ChosenGroup(capabilities.hasMotions, capabilities.supportedGroups, emotion).Some? then now else old(lastAnimationTime)
    {
      if !capabilities.hasMotions {
        return;
      }
      var groups := PreferredGroups(emotion);
      for i := 0 to |groups|
        invariant forall j :: 0 <= j < i ==> groups[j] !in capabilities.supportedGroups
      {
        if capabilities.SupportsGroup(groups[i]) {
          assert FirstSupported(groups, capabilities.supportedGroups) == Some(i);
          Send(PlayGroup(groups[i]));
          lastAnimationTime := now;
          return;
        }
      }
    }

    /** `speak_animation_adaptive`: nothing at all without a mouth parameter. */
    method SpeakAnimationAdaptive(duration: real, intensity: real)
      modifies this`sent, this`speaking
      ensures sent == old(sent) + AdaptiveSpeech(capabilities.supportedParams, duration, intensity)
      ensures !speaking
    {
      speaking := true;
      if !capabilities.SupportsParam(MouthOpen) {
        speaking := false;
        return;
      }
      ghost var before := sent;
      Send(BreathOff);
      ghost var f := TriangleFrames(duration, intensity);
      ghost var start := sent;
      var frames := FrameCount(duration);
      for i := 0 to frames
        invariant sent == start + f[..i]
      {
        var value := intensity * (Abs(i % 4 - 2) as real) / 2.0;
        TriangleFormula(i);
        assert value == TriangleValue(intensity, i);
        Send(Mouth(value));
        PrefixStep(f, i);
      }
      assert f[..frames] == f;
      Send(Mouth(0.0));
      Send(BreathOn);
      SpokenInSteps(before, f);
      speaking := false;
    }
  }

  /** The emotion `on_ai_response_complete` picks, by its keyword rules in order. */
  function SimpleEmotion(response: string): (e: string)
    ensures e in {"happy", "neutral", "sad"}
  {
    var lower := Lower(response);
    if Contains(lower, "happy") || Contains(lower, "!") || Contains(lower, "great") || Contains(lower, "awesome") then "happy"
    else if '?' in response then "neutral"
    else if Contains(lower, "sad") || Contains(lower, "sorry") then "sad"
    else "neutral"
  }

  /** Any exclamation mark makes the response happy, so an animated response is always a happy one. */
  lemma ExclaimedIsHappy(response: string)
    ensures '!' in response ==> SimpleEmotion(response) == "happy"
    ensures CountChar(response, '!') >= 2 ==> SimpleEmotion(response) == "happy"
  {
    LowerKeeps(response, '!');
    ContainsChar(Lower(response), '!');
  }

  /** A question with no happy word is never sad. */
  lemma QuestionIsNeverSad(response: string)
    requires '?' in response
    ensures SimpleEmotion(response) != "sad"
  {
  }

  /** Everything `on_ai_response_complete` sends for a response, given the registry. */
  function ResponseCommands(response: string, params: set<string>, hasMotions: bool, groups: set<string>): (r: seq<Command>)
    ensures |r| <= 2 <==> !(SpeechDuration(response) > 0.3 && MouthOpen in params)
    ensures ActionsIn(r, {"setParameters", "playRandomMotion", "setParameter", "setAutoBreath"})
    ensures CountChar(response, '!') < 2 ==> ActionsIn(r, {"setParameters", "setParameter", "setAutoBreath"})
  {
    var emotion := SimpleEmotion(response);
    var pose := SetIfAny(Available(ConfigFor(emotion), params));
    var play := if CountChar(response, '!') >= 2 then PlayCommand(ChosenGroup(hasMotions, groups, emotion)) else [];
    var speech := if SpeechDuration(response) > 0.3 then AdaptiveSpeech(params, SpeechDuration(response), 0.7) else [];
    ResponseParts(pose, play, speech, CountChar(response, '!') >= 2);
    pose + play + speech
  }

  /** The pose, the motion and the speech of a response, sent one after the other: their sizes and actions. */
  lemma ResponseParts(pose: seq<Command>, play: seq<Command>, speech: seq<Command>, exclaimed: bool)
    requires |pose| <= 1 && |play| <= 1 && (speech == [] || |speech| >= 3)
    requires ActionsIn(pose, {"setParameters"}) && ActionsIn(play, {"playRandomMotion"})
    requires ActionsIn(speech, {"setParameter", "setAutoBreath"})
    requires !exclaimed ==> play == []
    ensures |pose + play + speech| <= 2 <==> speech == []
    ensures ActionsIn(pose + play + speech, {"setParameters", "playRandomMotion", "setParameter", "setAutoBreath"})
    ensures !exclaimed ==> ActionsIn(pose + play + speech, {"setParameters", "setParameter", "setAutoBreath"})
  {
    ActionsOfThree(pose, play, speech, {"setParameters", "playRandomMotion", "setParameter", "setAutoBreath"});
    ActionsOfThree(pose, play, speech, {"setParameters", "setParameter", "setAutoBreath"});
  }

  /** Every command of `cs` has one of the actions `actions`. */
  predicate ActionsIn(cs: seq<Command>, actions: set<string>) {
    forall i :: 0 <= i < |cs| ==> cs[i].action in actions
  }

  /** Three lists sent one after the other use only the actions the three use. */
  lemma ActionsOfThree(a: seq<Command>, b: seq<Command>, c: seq<Command>, actions: set<string>)
    ensures ActionsIn(a, actions) && ActionsIn(b, actions) && ActionsIn(c, actions) ==> ActionsIn(a + b + c, actions)
  {
    if ActionsIn(a, actions) && ActionsIn(b, actions) && ActionsIn(c, actions) {
      forall i | 0 <= i < |a + b + c|
        ensures (a + b + c)[i].action in actions
      {
        if i < |a| {
          assert (a + b + c)[i] == a[i];
        } else if i < |a| + |b| {
          assert (a + b + c)[i] == b[i - |a|];
        } else {
          assert (a + b + c)[i] == c[i - |a| - |b|];
        }
      }
    }
  }

  /**
    An animated response plays the happy groups, motion before greeting; speech is
    sent for three words or more, and only when the model has a mouth parameter.
  */
  lemma ResponseShape(response: string, params: set<string>, hasMotions: bool, groups: set<string>)
    ensures CountChar(response, '!') >= 2 && hasMotions && "motion" in groups ==>
      ChosenGroup(hasMotions, groups, SimpleEmotion(response)) == Some("motion")
    ensures CountChar(response, '!') >= 2 && hasMotions && "motion" !in groups && "greeting" in groups ==>
      ChosenGroup(hasMotions, groups, SimpleEmotion(response)) == Some("greeting")
    ensures MouthOpen !in params ==>
      ResponseCommands(response, params, hasMotions, groups) == SetIfAny(Available(ConfigFor(SimpleEmotion(response)), params))
        + (if CountChar(response, '!') >= 2 then PlayCommand(ChosenGroup(hasMotions, groups, SimpleEmotion(response))) else [])
    ensures WordCount(response) < 3 ==> |ResponseCommands(response, params, hasMotions, groups)| <= 2
  {
    ExclaimedIsHappy(response);
    SpeaksIffThreeWords(response);
    var happy := ["motion", "greeting"];
    assert happy[1..] == ["greeting"];
  }

  class SimpleBridge {
    const controller: AdaptiveController
    var running: bool

    constructor ()
      ensures fresh(controller) && fresh(controller.capabilities) && !running
      ensures controller.sent == [] && !controller.capabilities.tested
    {
      controller := new AdaptiveController();
      running := false;
    }

    /** `initialize`: without a connection nothing happens; otherwise probe, then breathing and blinking on. */
    method Initialize(connects: bool, acceptedParams: set<string>, acceptedGroups: set<string>) returns (ok: bool)
      modifies this`running, controller, controller.capabilities
      ensures ok == connects && running == (old(running) || connects)
      ensures !connects ==> controller.sent == old(controller.sent) && unchanged(controller.capabilities)
      ensures connects ==> controller.capabilities.tested
      ensures connects && !old(controller.capabilities.tested) ==>
        controller.sent == old(controller.sent) + ProbeCommands()
          + [FlagCommand("setAutoBreath", "enabled", Bool(true)), FlagCommand("setAutoEyeBlink", "enabled", Bool(true))]
    {
      if !connects {
        return false;
      }
      controller.Probe(acceptedParams, acceptedGroups);
      controller.Send(FlagCommand("setAutoBreath", "enabled", Bool(true)));
      controller.Send(FlagCommand("setAutoEyeBlink", "enabled", Bool(true)));
      running := true;
      return true;
    }

    /** `on_ai_response_start`, with the random gaze drawn. */
    method OnAiResponseStart(x: real, y: real)
      requires -0.3 <= x <= 0.3 && -0.1 <= y <= 0.2
      modifies controller`sent
      ensures controller.sent == old(controller.sent) + SetIfAny(Available(LookConfig(x, y), controller.capabilities.supportedParams))
    {
      controller.LookAtAdaptive(x, y);
    }

    /** The first half of `on_ai_response_complete`: the emotion's pose, then, for two or more `!`, an animation. */
    method ReactTo(response: string, now: real)
      modifies controller`sent, controller`lastAnimationTime
      ensures var emotion := SimpleEmotion(response);
        controller.sent == old(controller.sent) + SetIfAny(Available(ConfigFor(emotion), controller.capabilities.supportedParams))
          + (if CountChar(response, '!') >= 2 then PlayCommand(ChosenGroup(controller.capabilities.hasMotions, controller.capabilities.supportedGroups, emotion)) else [])
    {
      var emotion := "neutral";
      var lower := Lower(response);
      if Contains(lower, "happy") || Contains(lower, "!") || Contains(lower, "great") || Contains(lower, "awesome") {
        emotion := "happy";
      } else if '?' in response {
        emotion := "neutral";
      } else if Contains(lower, "sad") || Contains(lower, "sorry") {
        emotion := "sad";
      }
      assert emotion == SimpleEmotion(response);
      controller.SetEmotionAdaptive(emotion);
      if CountChar(response, '!') >= 2 {
        controller.PlayAnimationAdaptive(emotion, now);
      }
    }

    /** `on_ai_response_complete` at clock time `now`. */
    method OnAiResponseComplete(response: string, now: real)
      modifies controller`sent, controller`speaking, controller`lastAnimationTime
      ensures controller.sent == old(controller.sent) + ResponseCommands(response, controller.capabilities.supportedParams, controller.capabilities.hasMotions, controller.capabilities.supportedGroups)
      ensures !controller.speaking || old(controller.speaking)
    {
      var caps := controller.capabilities;
      ghost var start := controller.sent;
      ghost var emotion := SimpleEmotion(response);
      ghost var pose := SetIfAny(Available(ConfigFor(emotion), caps.supportedParams));
      ghost var play := if CountChar(response, '!') >= 2 then PlayCommand(ChosenGroup(caps.hasMotions, caps.supportedGroups, emotion)) else [];
      ghost var speech := if SpeechDuration(response) > 0.3 then AdaptiveSpeech(caps.supportedParams, SpeechDuration(response), 0.7) else [];
      ReactTo(response, now);
      var words := WordCount(response);
      var duration := if words as real * 0.15 < 8.0 then words as real * 0.15 else 8.0;
      assert duration == SpeechDuration(response);
      if duration > 0.3 {
        controller.SpeakAnimationAdaptive(duration, 0.7);
      }
      Regroup(start, pose, play, speech);
    }

    /** `on_ai_response`, the older name of the same handler. */
    method OnAiResponse(response: string, now: real)
      modifies controller`sent, controller`speaking, controller`lastAnimationTime
      ensures controller.sent == old(controller.sent) + ResponseCommands(response, controller.capabilities.supportedParams, controller.capabilities.hasMotions, controller.capabilities.supportedGroups)
    {
      OnAiResponseComplete(response, now);
    }
  }
}
