/**
  The automatic-animation bridge of the Python client: a keyword and punctuation scorer
  that picks an emotion for a piece of text, and a controller that turns that emotion,
  the text's length and its exclamation marks into command sequences for the display.
  What the controller sends is an outbox of commands; the speech pattern the source
  picks at random, and the clock, are parameters.
*/
module AutoAnimation {
  import opened Values
  import opened Text
  import opened Speech

  /** `EmotionKeywords`, in the order of the source's dictionary, which decides ties. */
  const EmotionKeywords: seq<(string, seq<string>)> := [
    ("happy", ["happy", "joy", "great", "awesome", "wonderful", "love", "excited", "yay", "!", "haha", "lol"]),
    ("sad", ["sad", "sorry", "unfortunate", "disappointed", "miss", "crying", "tear"]),
    ("surprised", ["wow", "omg", "what", "really", "?!", "surprised", "shocked", "amazing"]),
    ("angry", ["angry", "mad", "annoyed", "frustrated", "grr", "ugh", "hate"]),
    ("confused", ["confused", "hmm", "uh", "what", "huh", "understand", "??"]),
    ("worried", ["worried", "concerned", "anxious", "nervous", "hope", "careful"]),
    ("excited", ["excited", "can't wait", "amazing", "incredible", "!!!", "omg"])
  ]

  /** Positions of the emotions that punctuation adds to. */
  const Surprised := 2
  const Confused := 4
  const Excited := 6

  /** The number of `keywords` that occur in `text`, each counted once however often it occurs. */
  function KeywordHits(text: string, keywords: seq<string>): (n: nat)
    ensures n <= |keywords|
    ensures n == 0 <==> forall i :: 0 <= i < |keywords| ==> !Contains(text, keywords[i])
    decreases |keywords|
  {
    if keywords == [] then 0
    else
      var init := keywords[..|keywords| - 1];
      assert forall i :: 0 <= i < |init| ==> init[i] == keywords[i];
      KeywordHits(text, init) + (if Contains(text, keywords[|keywords| - 1]) then 1 else 0)
  }

  /** Two texts in which the same keywords occur score the same, however often each occurs. */
  lemma {:induction false} HitsDependOnlyOnOccurrence(t1: string, t2: string, keywords: seq<string>)
    requires forall i :: 0 <= i < |keywords| ==> (Contains(t1, keywords[i]) <==> Contains(t2, keywords[i]))
    ensures KeywordHits(t1, keywords) == KeywordHits(t2, keywords)
    decreases |keywords|
  {
    if keywords != [] {
      var init := keywords[..|keywords| - 1];
      assert forall i :: 0 <= i < |init| ==> init[i] == keywords[i];
      HitsDependOnlyOnOccurrence(t1, t2, init);
    }
  }

  /** The three positions name the emotions punctuation adds to. */
  lemma PunctuationPositions()
    ensures EmotionKeywords[Surprised].0 == "surprised"
    ensures EmotionKeywords[Confused].0 == "confused"
    ensures EmotionKeywords[Excited].0 == "excited"
  {
  }

  /** What punctuation adds to the score of the emotion at position `e`. */
  function Bonus(e: nat, text: string): (b: nat)
    ensures e != Surprised && e != Confused && e != Excited ==> b == 0
    ensures e == Excited ==> b == CountChar(text, '!')
    ensures e == Surprised ==> (b == 1 <==> '?' in text && '!' in text) && b <= 1
    ensures e == Confused ==> (b == 1 <==> CountChar(text, '?') >= 2) && b <= 1
  {
    if e == Excited then CountChar(text, '!')
    else if e == Surprised then (if '?' in text && '!' in text then 1 else 0)
    else if e == Confused then (if CountChar(text, '?') > 1 then 1 else 0)
    else 0
  }

  /** The scores of `detect_emotion`, in dictionary order. */
  function Scores(text: string): (s: seq<nat>)
    ensures |s| == |EmotionKeywords|
  {
    seq(|EmotionKeywords|, e requires 0 <= e < |EmotionKeywords| =>
      KeywordHits(Lower(text), EmotionKeywords[e].1) + Bonus(e, text))
  }

  /** The position Python's `max` picks: the first of the highest entries. */
  function FirstMax(s: seq<nat>): (j: nat)
    requires |s| > 0
    ensures j < |s|
    ensures forall i :: 0 <= i < |s| ==> s[i] <= s[j]
    ensures forall i :: 0 <= i < j ==> s[i] < s[j]
    decreases |s|
  {
    if |s| == 1 then 0
    else
      var j := FirstMax(s[..|s| - 1]);
      if s[|s| - 1] > s[j] then |s| - 1 else j
  }

  /** The emotion `detect_emotion` returns. */
  function DetectEmotion(text: string): (r: string)
    ensures r in {"neutral", "happy", "sad", "surprised", "angry", "confused", "worried", "excited"}
    ensures r == "neutral" <==> forall i :: 0 <= i < |EmotionKeywords| ==> Scores(text)[i] == 0
  {
    var s := Scores(text);
    var j := FirstMax(s);
    if s[j] > 0 then EmotionKeywords[j].0 else "neutral"
  }

  /** The emotions of the table are distinct, and none of them is `neutral`. */
  lemma NamesDistinct()
    ensures forall i, j :: 0 <= i < |EmotionKeywords| && 0 <= j < |EmotionKeywords| && i != j ==> EmotionKeywords[i].0 != EmotionKeywords[j].0
    ensures forall i :: 0 <= i < |EmotionKeywords| ==> EmotionKeywords[i].0 != "neutral"
  {
  }

  /**
    The result is `neutral` exactly when every score is zero; otherwise it is an emotion
    with the highest score, and no earlier emotion has that score.
  */
  lemma DetectedEmotionWins(text: string)
    ensures var s := Scores(text);
      && (DetectEmotion(text) == "neutral" <==> forall i :: 0 <= i < |s| ==> s[i] == 0)
      && forall j :: 0 <= j < |s| && DetectEmotion(text) == EmotionKeywords[j].0 ==>
           && s[j] > 0
           && (forall i :: 0 <= i < |s| ==> s[i] <= s[j])
           && (forall i :: 0 <= i < j ==> s[i] < s[j])
  {
    var s := Scores(text);
    var m := FirstMax(s);
    NamesDistinct();
    forall j | 0 <= j < |s| && DetectEmotion(text) == EmotionKeywords[j].0
      ensures j == m && s[j] > 0
    {
      assert s[m] > 0;
      assert EmotionKeywords[j].0 == EmotionKeywords[m].0;
    }
  }

  /** Every `'!'` adds one to `excited`, on top of the keywords found. */
  lemma ExclamationsExcite(text: string)
    ensures Scores(text)[Excited] == KeywordHits(Lower(text), EmotionKeywords[Excited].1) + CountChar(text, '!')
  {
  }

  /** The inner loop of `detect_emotion`: one point per keyword found. */
  method CountHits(lower: string, keywords: seq<string>) returns (n: nat)
    ensures n == KeywordHits(lower, keywords)
  {
    n := 0;
    for k := 0 to |keywords|
      invariant n == KeywordHits(lower, keywords[..k])
    {
      assert keywords[..k + 1][..k] == keywords[..k];
      if Contains(lower, keywords[k]) {
        n := n + 1;
      }
    }
    assert keywords[..|keywords|] == keywords;
  }

  /** A sequence holding every emotion's keyword points and bonus is the scores. */
  lemma SameScores(text: string, s: seq<nat>)
    requires |s| == |EmotionKeywords|
    requires forall e :: 0 <= e < |s| ==> s[e] == KeywordHits(Lower(text), EmotionKeywords[e].1) + Bonus(e, text)
    ensures s == Scores(text)
  {
  }

  /** The first loop of `detect_emotion`: every emotion's keyword points, in dictionary order. */
  method KeywordScores(lower: string) returns (scores: seq<nat>)
    ensures |scores| == |EmotionKeywords|
    ensures forall e :: 0 <= e < |scores| ==> scores[e] == KeywordHits(lower, EmotionKeywords[e].1)
  {
    scores := [];
    for e := 0 to |EmotionKeywords|
      invariant |scores| == e
      invariant forall i :: 0 <= i < e ==> scores[i] == KeywordHits(lower, EmotionKeywords[i].1)
    {
      var n := CountHits(lower, EmotionKeywords[e].1);
      scores := scores + [n];
    }
  }

  /** `max(scores.items(), key=...)`: the first entry holding the highest score. */
  method Highest(scores: seq<nat>) returns (best: nat)
    requires |scores| > 0
    ensures best == FirstMax(scores)
  {
    best := 0;
    var i := 1;
    while i < |scores|
      invariant 1 <= i <= |scores|
      invariant best == FirstMax(scores[..i])
    {
      assert scores[..i + 1][..i] == scores[..i];
      if scores[i] > scores[best] {
        best := i;
      }
      i := i + 1;
    }
    assert scores[..i] == scores;
  }

  /** The punctuation part of `detect_emotion`: the bonuses added to the keyword points. */
  method AddBonuses(hits: seq<nat>, text: string) returns (scores: seq<nat>)
    requires |hits| == |EmotionKeywords|
    ensures |scores| == |hits|
    ensures forall e :: 0 <= e < |scores| ==> scores[e] == hits[e] + Bonus(e, text)
  {
    scores := hits;
    if '!' in text {
      scores := scores[Excited := scores[Excited] + CountChar(text, '!')];
    } else {
      assert CountChar(text, '!') == 0;
    }
    if '?' in text && '!' in text {
      scores := scores[Surprised := scores[Surprised] + 1];
    }
    if CountChar(text, '?') > 1 {
      scores := scores[Confused := scores[Confused] + 1];
    }
  }

  /** `detect_emotion`: keyword points, punctuation bonuses, then the first highest score. */
  method Detect(text: string) returns (emotion: string)
    ensures emotion == DetectEmotion(text)
  {
    var hits := KeywordScores(Lower(text));
    var scores := AddBonuses(hits, text);
    SameScores(text, scores);
    var best := Highest(scores);
    emotion := if scores[best] > 0 then EmotionKeywords[best].0 else "neutral";
  }

  /** `should_be_excited`: an occurrence of `!!!` already means three exclamation marks. */
  function ShouldBeExcited(text: string): (r: bool)
    ensures r <==> CountChar(text, '!') >= 3
  {
    if Contains(text, ['!', '!', '!']) then
      TripleImpliesCount(text, '!');
      true
    else
      CountChar(text, '!') >= 3
  }

  /** The parameter presets of `set_emotion`. */
  function Preset(emotion: string): (r: Option<seq<(string, real)>>)
    ensures r.Some? <==> emotion in {"happy", "sad", "surprised", "angry", "confused", "neutral", "worried", "excited"}
    ensures r.Some? ==> 2 <= |r.value| <= 4
    ensures r.Some? ==> DistinctNames(r.value)
    ensures r.Some? ==> forall i :: 0 <= i < |r.value| ==> -5.0 <= r.value[i].1 <= 10.0
  {
    match emotion
    case "happy" => Some([("ParamMouthForm", 1.0), ("ParamEyeLOpen", 0.9), ("ParamEyeROpen", 0.9)])
    case "sad" => Some([("ParamMouthForm", -1.0), ("ParamEyeLOpen", 0.6), ("ParamEyeROpen", 0.6), ("ParamAngleY", -5.0)])
    case "surprised" => Some([("ParamMouthOpenY", 0.8), ("ParamEyeLOpen", 1.0), ("ParamEyeROpen", 1.0)])
    case "angry" => Some([("ParamMouthForm", -0.5), ("ParamEyeLOpen", 0.7), ("ParamEyeROpen", 0.7)])
    case "confused" => Some([("ParamMouthForm", 0.2), ("ParamAngleX", 10.0)])
    case "neutral" => Some(NeutralPreset)
    case "worried" => Some([("ParamMouthForm", -0.3), ("ParamBrowLY", 0.3), ("ParamBrowRY", 0.3)])
    case "excited" => Some([("ParamMouthForm", 1.0), ("ParamMouthOpenY", 0.3), ("ParamEyeLOpen", 1.0), ("ParamEyeROpen", 1.0)])
    case _ => None
  }

  const NeutralPreset: seq<(string, real)> := [("ParamMouthForm", 0.0), ("ParamEyeLOpen", 1.0), ("ParamEyeROpen", 1.0)]

  /** `emotions.get(emotion, emotions["neutral"])`: an unknown emotion takes the neutral preset. */
  function EmotionParams(emotion: string): (ps: seq<(string, real)>)
    ensures Preset(emotion).Some? ==> ps == Preset(emotion).value
    ensures Preset(emotion).None? ==> ps == NeutralPreset
    ensures |ps| >= 2
  {
    match Preset(emotion)
    case Some(p) => p
    case None => NeutralPreset
  }

  /** Every emotion of the keyword table has a preset. */
  lemma KeywordEmotionHasPreset(e: nat)
    requires e < |EmotionKeywords|
    ensures Preset(EmotionKeywords[e].0).Some?
  {
  }

  /** Every emotion the scorer can return has a preset of its own. */
  lemma DetectedEmotionHasPreset(text: string)
    ensures Preset(DetectEmotion(text)).Some?
  {
    var j := FirstMax(Scores(text));
    KeywordEmotionHasPreset(j);
  }

  /** The three mouth patterns `speak_animation` chooses from. */
  const SpeechPatterns: seq<seq<real>> := [
    [0.0, 0.5, 0.8, 0.5, 0.2, 0.6, 0.9, 0.4],
    [0.0, 0.3, 0.7, 0.9, 0.6, 0.3, 0.1, 0.5],
    [0.0, 0.6, 0.4, 0.8, 0.3, 0.7, 0.2, 0.5]
  ]

  /** The pattern drawn, by its position among the three. */
  function Pattern(p: nat): (r: seq<real>)
    requires p < |SpeechPatterns|
    ensures |r| == 8 && r[0] == 0.0
  {
    SpeechPatterns[p]
  }

  /** The frame commands of `speak_animation`: the pattern, scaled by `intensity`, repeated. */
  function MouthFrames(duration: real, intensity: real, pattern: seq<real>): (r: seq<Command>)
    requires |pattern| == 8
    ensures |r| == FrameCount(duration)
    ensures forall i :: 0 <= i < |r| ==> r[i] == SetParameterCommand(MouthOpen, FrameValue(intensity, pattern, i))
  {
    seq(FrameCount(duration), i requires 0 <= i < FrameCount(duration) => SetParameterCommand(MouthOpen, FrameValue(intensity, pattern, i)))
  }

  /** The mouth opening of frame `i`: the pattern repeats every eight frames. */
  function FrameValue(intensity: real, pattern: seq<real>, i: nat): real
    requires |pattern| == 8
  {
    intensity * pattern[i % 8]
  }

  /** Everything `speak_animation` sends, in order. */
  function SpeechCommands(duration: real, intensity: real, pattern: seq<real>): seq<Command>
    requires |pattern| == 8
  {
    Spoken(MouthFrames(duration, intensity, pattern))
  }

  /** The group `play_reaction_animation` plays for an emotion; `idle` for any other. */
  function ReactionGroup(emotion: string): (g: string)
    ensures g in {"motion", "greeting", "idle"}
    ensures emotion !in {"happy", "surprised", "excited", "confused", "sad"} ==> g == "idle"
  {
    match emotion
    case "happy" => "motion"
    case "surprised" => "motion"
    case "excited" => "greeting"
    case "confused" => "idle"
    case "sad" => "idle"
    case _ => "idle"
  }

  /** The four parameters of `look_at_direction`. */
  function LookParams(x: real, y: real): (r: seq<(string, real)>)
    ensures |r| == 4 && r[0].1 == x && r[1].1 == y
    ensures r[2].1 == 15.0 * r[0].1 && r[3].1 == 10.0 * r[1].1
    ensures DistinctNames(r)
  {
    [("ParamEyeBallX", x), ("ParamEyeBallY", y), ("ParamAngleX", x * 15.0), ("ParamAngleY", y * 10.0)]
  }

  /** A reaction animation is played for the strong emotions when the text is excited. */
  predicate Reacts(text: string): (r: bool)
    ensures r <==> DetectEmotion(text) in {"surprised", "excited", "happy"} && CountChar(text, '!') >= 3
    ensures r ==> Scores(text)[Excited] >= 3
  {
    DetectEmotion(text) in {"surprised", "excited", "happy"} && ShouldBeExcited(text)
  }

  /** Everything `process_ai_response` sends for `text`, given the speech pattern drawn. */
  function AiResponseCommands(text: string, pattern: nat): (r: seq<Command>)
    requires pattern < |SpeechPatterns|
    ensures |r| == 1 + (if Reacts(text) then 1 else 0) + (if SpeechDuration(text) > 0.3 then FrameCount(SpeechDuration(text)) + 3 else 0)
  {
    var emotion := DetectEmotion(text);
    [SetParametersCommand(EmotionParams(emotion))]
      + (if Reacts(text) then [FlagCommand("playRandomMotion", "group", Str(ReactionGroup(emotion)))] else [])
      + (if SpeechDuration(text) > 0.3 then SpeechCommands(SpeechDuration(text), 0.7, Pattern(pattern)) else [])
  }

  /**
    The response always starts with the detected emotion's preset, and a reaction
    follows only with three or more exclamation marks and a strong emotion.
  */
  lemma AiResponseStart(text: string, pattern: nat)
    requires pattern < |SpeechPatterns|
    ensures AiResponseCommands(text, pattern)[0] == SetParametersCommand(EmotionParams(DetectEmotion(text)))
    ensures Reacts(text) <==> DetectEmotion(text) in {"surprised", "excited", "happy"} && CountChar(text, '!') >= 3
  {
  }

  /**
    Speech follows only for three words or more, and then makes up the rest of the
    commands after the preset and the reaction.
  */
  lemma AiResponseSpeech(text: string, pattern: nat)
    requires pattern < |SpeechPatterns|
    ensures var c := AiResponseCommands(text, pattern);
      var head := 1 + (if Reacts(text) then 1 else 0);
      && (WordCount(text) < 3 ==> |c| == head)
      && (WordCount(text) >= 3 ==>
            |c| == head + FrameCount(SpeechDuration(text)) + 3
            && c[head..] == SpeechCommands(SpeechDuration(text), 0.7, Pattern(pattern)))
  {
    SpeaksIffThreeWords(text);
  }

  lemma Regroup(a: seq<Command>, b: seq<Command>, c: seq<Command>, d: seq<Command>)
    ensures a + b + c + d == a + (b + c + d)
  {
  }

  class AnimationController {
    /** The commands sent, in order. */
    var sent: seq<Command>
    var speaking: bool
    var lastAnimationTime: real

    constructor ()
      ensures sent == [] && !speaking && lastAnimationTime == 0.0
    {
      sent := [];
      speaking := false;
      lastAnimationTime := 0.0;
    }

    /** `send_command`; the WebSocket round trip is not modelled. */
    method Send(c: Command)
      modifies this`sent
      ensures sent == old(sent) + [c]
    {
      sent := sent + [c];
    }

    method SetEmotion(emotion: string)
      modifies this`sent
      ensures sent == old(sent) + [SetParametersCommand(EmotionParams(emotion))]
    {
      Send(SetParametersCommand(EmotionParams(emotion)));
    }

    /** `speak_animation` with the pattern `pattern` drawn. */
    method SpeakAnimation(duration: real, intensity: real, pattern: nat)
      requires pattern < |SpeechPatterns|
      modifies this`sent, this`speaking
      ensures sent == old(sent) + SpeechCommands(duration, intensity, Pattern(pattern))
      ensures !speaking
    {
      speaking := true;
      ghost var before := sent;
      Send(BreathOff);
      var frames := FrameCount(duration);
      var p := Pattern(pattern);
      ghost var f := MouthFrames(duration, intensity, p);
      ghost var start := sent;
      for i := 0 to frames
        invariant sent == start + f[..i]
      {
        var value := intensity * p[i % |p|];
        assert value == FrameValue(intensity, p, i);
        Send(SetParameterCommand(MouthOpen, value));
        PrefixStep(f, i);
      }
      assert f[..frames] == f;
      Send(Mouth(0.0));
      Send(BreathOn);
      SpokenInSteps(before, f);
      speaking := false;
    }

    /** `play_reaction_animation` at clock time `now`. */
    method PlayReactionAnimation(emotion: string, now: real)
      modifies this`sent, this`lastAnimationTime
      ensures sent == old(sent) + [FlagCommand("playRandomMotion", "group", Str(ReactionGroup(emotion)))]
      ensures lastAnimationTime == now
    {
      Send(FlagCommand("playRandomMotion", "group", Str(ReactionGroup(emotion))));
      lastAnimationTime := now;
    }

    method LookAtDirection(x: real, y: real)
      modifies this`sent
      ensures sent == old(sent) + [SetParametersCommand(LookParams(x, y))]
    {
      Send(SetParametersCommand(LookParams(x, y)));
    }

    /** The first half of `process_ai_response`: the detected emotion, then perhaps a reaction. */
    method React(text: string, now: real) returns (emotion: string)
      modifies this`sent, this`lastAnimationTime
      ensures emotion == DetectEmotion(text)
      ensures sent == old(sent) + [SetParametersCommand(EmotionParams(emotion))]
        + (if Reacts(text) then [FlagCommand("playRandomMotion", "group", Str(ReactionGroup(emotion)))] else [])
    {
      emotion := Detect(text);
      SetEmotion(emotion);
      if emotion in {"surprised", "excited", "happy"} && ShouldBeExcited(text) {
        PlayReactionAnimation(emotion, now);
      }
    }

    /** The second half of `process_ai_response`: speech, when the speaking time exceeds 0.3 seconds. */
    method SpeakResponse(text: string, pattern: nat)
      requires pattern < |SpeechPatterns|
      modifies this`sent, this`speaking
      ensures sent == old(sent) + if SpeechDuration(text) > 0.3 then SpeechCommands(SpeechDuration(text), 0.7, Pattern(pattern)) else []
      ensures !speaking || old(speaking)
    {
      var words := WordCount(text);
      var duration := if words as real * 0.15 < 8.0 then words as real * 0.15 else 8.0;
      assert duration == SpeechDuration(text);
      if duration > 0.3 {
        SpeakAnimation(duration, 0.7, pattern);
      }
    }

    /** `process_ai_response`: emotion, then perhaps a reaction, then perhaps speech. */
    method ProcessAiResponse(text: string, pattern: nat, now: real)
      requires pattern < |SpeechPatterns|
      modifies this`sent, this`speaking, this`lastAnimationTime
      ensures sent == old(sent) + AiResponseCommands(text, pattern)
      ensures !speaking || old(speaking)
    {
      ghost var start := sent;
      var emotion := React(text, now);
      ghost var first := [SetParametersCommand(EmotionParams(emotion))];
      ghost var reaction: seq<Command> := if Reacts(text) then [FlagCommand("playRandomMotion", "group", Str(ReactionGroup(emotion)))] else [];
      ghost var speech: seq<Command> := if SpeechDuration(text) > 0.3 then SpeechCommands(SpeechDuration(text), 0.7, Pattern(pattern)) else [];
      SpeakResponse(text, pattern);
      Regroup(start, first, reaction, speech);
    }

    /** `process_user_message`: a question tilts the head slightly; nothing else reacts. */
    method ProcessUserMessage(text: string)
      modifies this`sent
      ensures sent == old(sent) + (if '?' in text then [SetParametersCommand(LookParams(0.1, 0.1))] else [])
    {
      if '?' in text {
        LookAtDirection(0.1, 0.1);
      }
    }
  }
}
