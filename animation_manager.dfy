/**
  The sequence player of a Source-engine model: which sequence is current, the playhead
  time, the speed multiplier, whether it plays and whether it loops. The frame clock is
  replaced by the `delta` it would report on each tick.
*/
module Sequencer {
  import opened Values
  import Text

  type NonNegReal = r: real | r >= 0.0

  /** One entry of the parsed sequence table: its name (if any), frame count and frame rate. */
  datatype SequenceInfo = SequenceInfo(name: Option<string>, frameCount: nat, fps: NonNegReal)

  /** The argument of `playSequence`: a number, a string, or anything else. */
  datatype SequenceId = ByIndex(index: int) | ByName(name: string) | OtherId

  /** `seq.name && seq.name.toLowerCase() === name.toLowerCase()`. */
  predicate NameMatches(s: SequenceInfo, name: string) {
    s.name.Some? && s.name.value != "" && Text.Lower(s.name.value) == Text.Lower(name)
  }

  /** `findIndex` of the first sequence from position `from` on whose name matches. */
  function FirstMatchFrom(seqs: seq<SequenceInfo>, name: string, from: nat): (r: Option<nat>)
    requires from <= |seqs|
    ensures r.Some? ==> from <= r.value < |seqs| && NameMatches(seqs[r.value], name)
    ensures forall j :: from <= j < |seqs| && (r.None? || j < r.value) ==> !NameMatches(seqs[j], name)
    decreases |seqs| - from
  {
    if from == |seqs| then None
    else if NameMatches(seqs[from], name) then Some(from)
    else FirstMatchFrom(seqs, name, from + 1)
  }

  /** The first case-insensitive name match, if any. */
  function FirstMatch(seqs: seq<SequenceInfo>, name: string): (r: Option<nat>)
    ensures r.Some? ==> (r.value < |seqs| && NameMatches(seqs[r.value], name)
      && forall j :: 0 <= j < r.value ==> !NameMatches(seqs[j], name))
    ensures r.None? ==> forall j :: 0 <= j < |seqs| ==> !NameMatches(seqs[j], name)
  {
    FirstMatchFrom(seqs, name, 0)
  }

  /** `(frameCount || 1) / (fps || 30)`. */
  function Duration(s: SequenceInfo): (d: real)
    ensures d > 0.0
    ensures s.frameCount > 0 && s.fps > 0.0 ==> d == s.frameCount as real / s.fps
  {
    (if s.frameCount == 0 then 1.0 else s.frameCount as real) / (if s.fps == 0.0 then 30.0 else s.fps)
  }

  /** JavaScript's truncation of a number toward zero. */
  function Trunc(x: real): (r: int)
    ensures x >= 0.0 ==> 0 <= r && r as real <= x < r as real + 1.0
    ensures x < 0.0 ==> r <= 0 && r as real - 1.0 < x <= r as real
  {
    if x >= 0.0 then x.Floor else -((-x).Floor)
  }

  /** JavaScript's `a % d`: the remainder of the quotient truncated toward zero. */
  function JsRem(a: real, d: real): (r: real)
    requires d != 0.0
    ensures d > 0.0 && a >= 0.0 ==> 0.0 <= r < d
    ensures d > 0.0 && a <= 0.0 ==> -d < r <= 0.0
  {
    JsRemBounds(a, d);
    a - d * (Trunc(a / d) as real)
  }

  /**
    For a positive divisor, `a - d * trunc(a / d)` lies within one divisor of 0 on the
    side of `a`: `trunc` of the quotient counts the whole periods in `a`, toward zero.
  */
  lemma JsRemBounds(a: real, d: real)
    requires d != 0.0
    ensures var r := a - d * (Trunc(a / d) as real);
      && (d > 0.0 && a >= 0.0 ==> 0.0 <= r < d)
      && (d > 0.0 && a <= 0.0 ==> -d < r <= 0.0)
  {
    if d > 0.0 {
      var b := if a >= 0.0 then a else -a;
      var q := b / d;
      Quotient(b, d);
      var k := q.Floor;
      assert Trunc(q) == k && k >= 0;
      Scaled(q, k as real, d, b);
      if a < 0.0 {
        NegatedQuotient(a, d);
        assert Trunc(a / d) == -k;
      }
    }
  }

  lemma NegatedQuotient(a: real, d: real)
    requires d != 0.0
    ensures a / d == -((-a) / d)
  {
  }

  lemma MulMono(x: real, y: real, d: real)
    requires x <= y && d > 0.0
    ensures x * d <= y * d
  {
    assert (y - x) * d >= 0.0;
  }

  lemma MulStrict(x: real, y: real, d: real)
    requires x < y && d > 0.0
    ensures x * d < y * d
  {
    assert (y - x) * d > 0.0;
  }

  lemma MulNonNeg(x: real, y: real)
    requires x >= 0.0 && y >= 0.0
    ensures x * y >= 0.0
  {
  }

  /** The quotient of a non-negative time by a positive duration, times the duration, is the time. */
  lemma Quotient(a: real, d: real)
    requires a >= 0.0 && d > 0.0
    ensures (a / d) * d == a && a / d >= 0.0
  {
  }

  /** `k <= q < k + 1` scales by `d` to `k * d <= q * d < k * d + d`, with `q * d` the time `a`. */
  lemma Scaled(q: real, k: real, d: real, a: real)
    requires k <= q < k + 1.0 && d > 0.0 && q * d == a
    ensures k * d <= a
    ensures a < k * d + d
    ensures d * k == k * d
  {
    assert a - k * d == (q - k) * d;
    MulMono(0.0, q - k, d);
    MulStrict(q - k, 1.0, d);
    assert (q - k) * d < d;
    assert a - k * d < d;
  }

  /** For a non-negative time and a positive duration the remainder lies in `[0, d)`, a whole number of periods below `a`. */
  lemma RemInPeriod(a: real, d: real)
    requires a >= 0.0 && d > 0.0
    ensures 0.0 <= JsRem(a, d) < d
    ensures Trunc(a / d) >= 0
    ensures a >= d ==> Trunc(a / d) >= 1
  {
    var q := a / d;
    Quotient(a, d);
    var k := q.Floor;
    assert Trunc(q) == k && k >= 0;
    var kr := k as real;
    Scaled(q, kr, d, a);
    assert JsRem(a, d) == a - kr * d;
    if a >= d && q < 1.0 {
      MulStrict(q, 1.0, d);
    }
  }

  /** Overshooting the end by less than one period wraps to the overshoot. */
  lemma RemOfOvershoot(d: real, e: real)
    requires d > 0.0 && 0.0 <= e < d
    ensures JsRem(d + e, d) == e
  {
    var q := (d + e) / d;
    assert q * d == d + e;
    if q < 1.0 {
      MulStrict(q, 1.0, d);
    }
    if q >= 2.0 {
      MulMono(2.0, q, d);
    }
    assert 1.0 <= q < 2.0;
    assert q.Floor == 1;
  }

  /** The playhead after one tick: its time and whether it still plays. */
  datatype Playhead = Playhead(time: real, playing: bool)

  /**
    One tick of a playing, valid sequence of duration `d`: time grows by `delta * speed`;
    at or past the end it wraps when looping, and otherwise the clip stops, which puts
    the time back to 0.
  */
  function Tick(time: real, delta: real, speed: real, d: real, loop: bool): (r: Playhead)
    requires d > 0.0
    ensures r.playing <==> loop || time + delta * speed < d
    ensures time + delta * speed < d ==> r.time == time + delta * speed
    ensures time + delta * speed >= d && loop ==> 0.0 <= r.time < d
    ensures !r.playing ==> r.time == 0.0
  {
    var t := time + delta * speed;
    if t >= d then
      if loop then Playhead(JsRem(t, d), true)
      else Playhead(0.0, false)
    else Playhead(t, true)
  }

  /**
    A tick keeps the playhead inside `[0, d)`, keeps playing exactly when the clip loops
    or has not reached its end, and a stopped clip is rewound.
  */
  lemma TickStaysInClip(time: real, delta: real, speed: real, d: real, loop: bool)
    requires time >= 0.0 && delta >= 0.0 && speed >= 0.0 && d > 0.0
    ensures var p := Tick(time, delta, speed, d, loop);
      && 0.0 <= p.time < d
      && (p.playing <==> loop || time + delta * speed < d)
      && (!p.playing ==> p.time == 0.0)
  {
    MulNonNeg(delta, speed);
    var t := time + delta * speed;
    if t >= d && loop {
      RemInPeriod(t, d);
    }
  }

  /** A non-looping tick that reaches the end stops the clip and rewinds it. */
  lemma TickEnds(time: real, delta: real, speed: real, d: real)
    requires time >= 0.0 && delta >= 0.0 && speed >= 0.0 && d > 0.0
    requires time + delta * speed >= d
    ensures Tick(time, delta, speed, d, false) == Playhead(0.0, false)
  {
  }

  /** A looping tick that overshoots the end keeps playing, at least one whole period earlier. */
  lemma TickWraps(time: real, delta: real, speed: real, d: real)
    requires time >= 0.0 && delta >= 0.0 && speed >= 0.0 && d > 0.0
    requires time + delta * speed >= d
    ensures var t := time + delta * speed;
      var p := Tick(time, delta, speed, d, true);
      p.playing && p.time == JsRem(t, d) && Trunc(t / d) >= 1
  {
    MulNonNeg(delta, speed);
    RemInPeriod(time + delta * speed, d);
  }

  /** The three ways a tick ends, for a non-negative playhead moving forward. */
  lemma TickCases(time: real, delta: real, speed: real, d: real, loop: bool)
    requires time >= 0.0 && delta >= 0.0 && speed >= 0.0 && d > 0.0
    ensures var t := time + delta * speed;
      && t >= 0.0
      && (t >= d && loop ==> Tick(time, delta, speed, d, loop) == Playhead(JsRem(t, d), true))
      && (t >= d && !loop ==> Tick(time, delta, speed, d, loop) == Playhead(0.0, false))
      && (t < d ==> Tick(time, delta, speed, d, loop) == Playhead(t, true))
  {
    MulNonNeg(delta, speed);
  }

  /** One entry of `getSequenceList`. */
  datatype ListedSequence = ListedSequence(index: nat, name: string, frameCount: nat, fps: real)

  /** A sequence's listed name: its own when truthy, otherwise `Sequence <index>`. */
  function ListedName(s: SequenceInfo, index: nat): (r: string)
    ensures s.name.Some? && s.name.value != "" ==> r == s.name.value
    ensures !(s.name.Some? && s.name.value != "") ==> r == "Sequence " + Text.NatToString(index)
  {
    if s.name.Some? && s.name.value != "" then s.name.value else "Sequence " + Text.NatToString(index)
  }

  /** The state `getCurrentSequence` reports. */
  datatype CurrentSequence = CurrentSequence(index: int, name: Option<string>, duration: real, currentTime: real, isPlaying: bool)

  class AnimationManager {
    var sequences: seq<SequenceInfo>
    var currentSequence: Option<int>
    var currentTime: real
    var animationSpeed: real
    var isPlaying: bool
    var loop: bool

    /** `currentSequence` names an existing sequence. */
    predicate HasSequence()
      reads this
    {
      currentSequence.Some? && 0 <= currentSequence.value < |sequences|
    }

    /**
      The invariant every method keeps: the speed is never negative, the playhead lies
      within the current sequence, and with no sequence selected nothing plays and the
      time is 0.
    */
    predicate Valid()
      reads this
    {
      && animationSpeed >= 0.0
      && currentTime >= 0.0
      && (currentSequence.None? ==> !isPlaying && currentTime == 0.0)
      && (HasSequence() ==> currentTime <= Duration(sequences[currentSequence.value]))
    }

    constructor (sequences: seq<SequenceInfo>)
      ensures Valid()
      ensures this.sequences == sequences && currentSequence == None && currentTime == 0.0
      ensures animationSpeed == 1.0 && !isPlaying && loop
    {
      this.sequences := sequences;
      currentSequence := None;
      currentTime := 0.0;
      animationSpeed := 1.0;
      isPlaying := false;
      loop := true;
    }

    /**
      `playSequence(id)`. A number always becomes the current sequence, even one out of
      range; a string selects the first case-insensitive match. Only a found sequence
      rewinds and starts playing.
    */
    method PlaySequence(id: SequenceId) returns (ok: bool)
      requires Valid()
      modifies this`currentSequence, this`currentTime, this`isPlaying
      ensures Valid()
      ensures id.ByIndex? ==> currentSequence == Some(id.index) && ok == (0 <= id.index < |sequences|)
      ensures id.ByName? ==> var m := FirstMatch(sequences, id.name);
        ok == m.Some? && currentSequence == (if m.Some? then Some(m.value as int) else old(currentSequence))
      ensures id.OtherId? ==> !ok && currentSequence == old(currentSequence)
      ensures ok ==> currentTime == 0.0 && isPlaying && HasSequence()
      ensures !ok ==> currentTime == old(currentTime) && isPlaying == old(isPlaying)
    {
      var found := false;
      match id {
        case ByIndex(i) =>
          found := 0 <= i < |sequences|;
          currentSequence := Some(i);
        case ByName(name) =>
          var m := FirstMatch(sequences, name);
          if m.Some? {
            found := true;
            currentSequence := Some(m.value);
          }
        case OtherId =>
      }
      if !found {
        return false;
      }
      currentTime := 0.0;
      isPlaying := true;
      ok := true;
    }

    /** `stop`: stops and rewinds, keeping the current sequence. */
    method Stop()
      requires Valid()
      modifies this`isPlaying, this`currentTime
      ensures Valid() && !isPlaying && currentTime == 0.0
    {
      isPlaying := false;
      currentTime := 0.0;
    }

    /** `pause`: stops without rewinding. */
    method Pause()
      requires Valid()
      modifies this`isPlaying
      ensures Valid() && !isPlaying
    {
      isPlaying := false;
    }

    /** `resume`: plays again only when a sequence was selected. */
    method Resume()
      requires Valid()
      modifies this`isPlaying
      ensures Valid() && isPlaying == (old(isPlaying) || currentSequence.Some?)
    {
      if currentSequence.Some? {
        isPlaying := true;
      }
    }

    method SetLoop(loop: bool)
      requires Valid()
      modifies this`loop
      ensures Valid() && this.loop == loop
    {
      this.loop := loop;
    }

    /** `setSpeed`: a negative speed is stored as 0. */
    method SetSpeed(speed: real)
      requires Valid()
      modifies this`animationSpeed
      ensures Valid()
      ensures animationSpeed == (if speed > 0.0 then speed else 0.0)
    {
      animationSpeed := if speed > 0.0 then speed else 0.0;
    }

    /**
      `update` with the clock's `delta`: nothing happens unless a valid sequence plays;
      otherwise the playhead moves as `Tick` says.
    */
    method Update(delta: real)
      requires Valid() && delta >= 0.0
      modifies this`currentTime, this`isPlaying
      ensures Valid()
      ensures !(old(isPlaying) && HasSequence()) ==> currentTime == old(currentTime) && isPlaying == old(isPlaying)
      ensures old(isPlaying) && HasSequence() ==>
        Playhead(currentTime, isPlaying) == Tick(old(currentTime), delta, animationSpeed, Duration(sequences[currentSequence.value]), loop)
    {
      if !isPlaying || currentSequence.None? {
        return;
      }
      var i := currentSequence.value;
      if !(0 <= i < |sequences|) {
        return;
      }
      var duration := Duration(sequences[i]);
      var t := currentTime + delta * animationSpeed;
      TickCases(currentTime, delta, animationSpeed, duration, loop);
      if t >= duration {
        if loop {
          t := JsRem(t, duration);
        } else {
          currentTime := duration;
          Stop();
          return;
        }
      }
      currentTime := t;
    }

    /** `getDuration`: the current sequence's duration, 0 when there is none. */
    function GetDuration(): (d: real)
      reads this
      ensures HasSequence() ==> d == Duration(sequences[currentSequence.value])
      ensures !HasSequence() ==> d == 0.0
    {
      if HasSequence() then Duration(sequences[currentSequence.value]) else 0.0
    }

    /** `getCurrentSequence`: `null` without a selected sequence. */
    function GetCurrentSequence(): (r: Option<CurrentSequence>)
      reads this
      ensures r.None? <==> currentSequence.None?
      ensures r.Some? ==> (r.value.index == currentSequence.value && r.value.currentTime == currentTime
        && r.value.isPlaying == isPlaying && r.value.duration == GetDuration()
        && r.value.name == (if HasSequence() then sequences[currentSequence.value].name else None))
    {
      if currentSequence.None? then None
      else
        var name := if HasSequence() then sequences[currentSequence.value].name else None;
        Some(CurrentSequence(currentSequence.value, name, GetDuration(), currentTime, isPlaying))
    }

    /** `getSequenceList`: every sequence, in order, with the defaults filled in. */
    function GetSequenceList(): (r: seq<ListedSequence>)
      reads this
      ensures |r| == |sequences|
      ensures forall i :: 0 <= i < |r| ==>
        r[i].index == i && r[i].name == ListedName(sequences[i], i)
        && r[i].frameCount == sequences[i].frameCount
        && r[i].fps == (if sequences[i].fps == 0.0 then 30.0 else sequences[i].fps)
    {
      seq(|sequences|, i requires 0 <= i < |sequences| reads this =>
        ListedSequence(i, ListedName(sequences[i], i), sequences[i].frameCount,
                       if sequences[i].fps == 0.0 then 30.0 else sequences[i].fps))
    }

    /** `seek(time)`: clamps into `[0, duration]`; does nothing without a selected sequence. */
    method Seek(time: real)
      requires Valid()
      modifies this`currentTime
      ensures Valid()
      ensures currentSequence.None? ==> currentTime == old(currentTime)
      ensures currentSequence.Some? ==> 0.0 <= currentTime <= GetDuration()
      ensures currentSequence.Some? && 0.0 <= time <= GetDuration() ==> currentTime == time
      ensures currentSequence.Some? && time < 0.0 ==> currentTime == 0.0
      ensures currentSequence.Some? && time > GetDuration() ==> currentTime == GetDuration()
    {
      if currentSequence.None? {
        return;
      }
      var duration := GetDuration();
      var capped := if time < duration then time else duration;
      currentTime := if capped > 0.0 then capped else 0.0;
    }

    /** `destroy`: stops; the sequence table is dropped. */
    method Destroy()
      requires Valid()
      modifies this`isPlaying, this`currentTime, this`sequences
      ensures Valid() && !isPlaying && currentTime == 0.0 && sequences == []
    {
      Stop();
      sequences := [];
    }
  }

  /** A name that matches no sequence leaves the player exactly as it was. */
  method UnknownNameChangesNothing(m: AnimationManager, name: string) returns (ok: bool)
    requires m.Valid() && FirstMatch(m.sequences, name).None?
    modifies m
    ensures !ok
    ensures m.currentSequence == old(m.currentSequence) && m.currentTime == old(m.currentTime)
      && m.isPlaying == old(m.isPlaying) && m.animationSpeed == old(m.animationSpeed) && m.loop == old(m.loop)
  {
    ok := m.PlaySequence(ByName(name));
  }

  /** An out-of-range number is remembered as the current sequence but nothing plays from it. */
  method OutOfRangeIndexIsRemembered(m: AnimationManager, i: int, delta: real) returns (ok: bool)
    requires m.Valid() && !(0 <= i < |m.sequences|) && delta >= 0.0
    modifies m
    ensures !ok && m.currentSequence == Some(i)
    ensures m.currentTime == old(m.currentTime) && m.isPlaying == old(m.isPlaying)
  {
    ok := m.PlaySequence(ByIndex(i));
    m.Update(delta);
  }

  /** A non-looping clip that reaches its end is stopped and rewound, not left at its duration. */
  method NonLoopingEndRewinds(m: AnimationManager, delta: real)
    requires m.Valid() && m.isPlaying && m.HasSequence() && !m.loop && delta >= 0.0
    requires m.currentTime + delta * m.animationSpeed >= Duration(m.sequences[m.currentSequence.value])
    modifies m
    ensures !m.isPlaying && m.currentTime == 0.0 && m.currentSequence == old(m.currentSequence)
  {
    m.Update(delta);
  }
}
