/**
  The speaking rules the Python and JavaScript clients share: ten mouth frames per
  second of speech, the four-step triangle wave most of them play, the mouth-closing
  command that ends a speech, and the speaking time the bridges give a text.
*/
module Speech {
  import opened Values
  import opened Text

  const MouthOpen := "ParamMouthOpenY"

  /**
    The frame count `int(duration * 10)` (Python) or `Math.floor(duration * 10)`
    (JavaScript) as `range` and a `for` loop use it: the two agree on every
    non-negative duration, and a negative count runs no frame.
  */
  function FrameCount(duration: real): (n: nat)
    ensures duration >= 0.0 ==> n as real <= duration * 10.0 < n as real + 1.0
    ensures duration < 0.1 ==> n == 0
  {
    if duration < 0.0 then 0 else (duration * 10.0).Floor
  }

  /** The mouth opening of frame `i` of the triangle wave: full, half, closed, half. */
  function Triangle(i: nat): (v: real)
    ensures 0.0 <= v <= 1.0
  {
    [1.0, 0.5, 0.0, 0.5][i % 4]
  }

  function Abs(x: int): nat {
    if x < 0 then -x else x
  }

  /** The wave `abs((i % 4) - 2) / 2` of the Python servers is the triangle. */
  lemma TriangleFormula(i: nat)
    ensures Abs(i % 4 - 2) as real / 2.0 == Triangle(i)
  {
  }

  /** The command that sets the mouth opening. */
  function Mouth(value: real): Command {
    SetParameterCommand(MouthOpen, value)
  }

  function TriangleValue(intensity: real, i: nat): real {
    intensity * Triangle(i)
  }

  /** The triangle-wave frames of a speech of `duration` seconds. */
  function TriangleFrames(duration: real, intensity: real): (r: seq<Command>)
    ensures |r| == FrameCount(duration)
    ensures forall i :: 0 <= i < |r| ==> r[i] == Mouth(TriangleValue(intensity, i))
  {
    seq(FrameCount(duration), i requires 0 <= i < FrameCount(duration) => Mouth(TriangleValue(intensity, i)))
  }

  const BreathOff := FlagCommand("setAutoBreath", "enabled", Bool(false))
  const BreathOn := FlagCommand("setAutoBreath", "enabled", Bool(true))

  /** A speech: breathing paused, the frames, the mouth closed, breathing resumed. */
  function Spoken(frames: seq<Command>): (r: seq<Command>)
    ensures |r| == |frames| + 3
    ensures r[0] == BreathOff && r[1..|frames| + 1] == frames
    ensures r[|frames| + 1] == Mouth(0.0) && r[|frames| + 2] == BreathOn
  {
    [BreathOff] + frames + [Mouth(0.0), BreathOn]
  }

  /** The speaking time the bridges give a text: 0.15 s per word, at most 8 s. */
  function SpeechDuration(text: string): (d: real)
    ensures 0.0 <= d <= 8.0
  {
    var t := WordCount(text) as real * 0.15;
    if t < 8.0 then t else 8.0
  }

  /** Speech is animated (`duration > 0.3`) exactly for texts of three words or more. */
  lemma SpeaksIffThreeWords(text: string)
    ensures SpeechDuration(text) > 0.3 <==> WordCount(text) >= 3
  {
    var w := WordCount(text);
    if w >= 3 {
      assert w as real * 0.15 >= 0.45;
    } else {
      assert w as real * 0.15 <= 0.3;
    }
  }

  /** Sending the parts of a speech one by one after `before` sends the speech. */
  lemma SpokenInSteps(before: seq<Command>, frames: seq<Command>)
    ensures before + [BreathOff] + frames + [Mouth(0.0)] + [BreathOn] == before + Spoken(frames)
  {
  }

  /** Appending a frame to a prefix of a frame sequence extends the prefix by one. */
  lemma PrefixStep(frames: seq<Command>, i: nat)
    requires i < |frames|
    ensures frames[..i + 1] == frames[..i] + [frames[i]]
  {
  }
}
