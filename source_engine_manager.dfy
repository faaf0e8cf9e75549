/**
  The Source-engine model manager of the display window, as far as control messages
  and the per-frame update reach it: the selected sequence and its playhead, the skin,
  the body-group notifications, the instant configuration and the mouse-focus decision.
  Rendering, file loading and mesh building are not modelled; a load is given by its
  parse result. The clock's delta is an input of each frame, and the rotation the
  mouse-focus helper aims at is an input too, since that helper is not part of this model.
*/
module SourceEngine {
  import opened Values
  import opened InstantConfigs

  /** A parsed sequence: its name (if any) and its `duration`, 0 when absent. */
  datatype SourceSequence = SourceSequence(name: Option<string>, duration: real)

  /** What the MDL parser yields that the manager keeps. */
  datatype ParsedModel = ParsedModel(sequences: seq<SourceSequence>, bodyGroupCount: nat, skinCount: nat, headRotation: Rotation)

  /** A message to the model-control window. */
  datatype Notice = Notice(channel: string, data: map<string, Value>)

  /** Requests forwarded to the node-transform machinery of the 3D base manager. */
  datatype TransformRequest = BindNode(nodeId: Value) | SetNodeTransform(data: Value)

  /** The configuration `_initInstantConfig` creates. */
  const DefaultConfig := InstantConfig(Bool(true), map["animationSpeed" := Num(1.0), "loopAnimation" := Bool(true)])

  /** `i >= 0 && i < length` with JavaScript's numeric comparison. */
  predicate InRange(v: Value, length: nat) {
    var n := ToNumber(v);
    n.Some? && 0.0 <= n.value < length as real
  }

  /** `sequences[v]`: only an integral number in range finds an entry. */
  function SequenceAt(seqs: seq<SourceSequence>, v: Value): (r: Option<SourceSequence>)
    ensures r.Some? ==> v.Num? && InRange(v, |seqs|)
  {
    if v.Num? && v.n == v.n.Floor as real && 0 <= v.n.Floor < |seqs| then Some(seqs[v.n.Floor]) else None
  }

  /** `findIndex(seq => seq.name === name)` from position `from` on: the first exact match, or -1. */
  function ExactMatchFrom(seqs: seq<SourceSequence>, name: Value, from: nat): (r: int)
    requires from <= |seqs|
    ensures r == -1 || from <= r < |seqs|
    ensures r >= 0 ==> name.Str? && seqs[r].name == Some(name.s)
    ensures forall j :: from <= j < |seqs| && (r == -1 || j < r) ==> !(name.Str? && seqs[j].name == Some(name.s))
    decreases |seqs| - from
  {
    if from == |seqs| then -1
    else if name.Str? && seqs[from].name == Some(name.s) then from
    else ExactMatchFrom(seqs, name, from + 1)
  }

  /** The index `_playSequence` goes on with: a truthy name replaces the given index by its exact match. */
  function ResolveIndex(seqs: seq<SourceSequence>, index: Value, name: Value): (r: Value)
    ensures !Truthy(name) ==> r == index
    ensures Truthy(name) ==> r.Num? && (InRange(r, |seqs|) <==> exists j :: 0 <= j < |seqs| && name.Str? && seqs[j].name == Some(name.s))
  {
    if Truthy(name) then
      var i := ExactMatchFrom(seqs, name, 0);
      Num(i as real)
    else index
  }

  /** `sequenceTime += delta * speed`, with `None` for `NaN` on either side. */
  function Moved(time: Option<real>, delta: real, speed: Option<real>): (r: Option<real>)
    ensures r.Some? <==> time.Some? && speed.Some?
    ensures r.Some? ==> r.value - time.value == delta * speed.value
  {
    if time.Some? && speed.Some? then Some(time.value + delta * speed.value) else None
  }

  /**
    The playhead after one frame of an active sequence: it moves by `delta * speed`
    (`NaN` once the speed is not a number); an entry with a duration then wraps to 0 at
    or past its end when looping and otherwise stops at the duration.
  */
  function Advance(time: Option<real>, delta: real, speed: Value, entry: Option<SourceSequence>, loop: Value): (r: Option<real>)
    ensures r.Some? <==> time.Some? && ToNumber(speed).Some?
    ensures entry.Some? && entry.value.duration > 0.0 && r.Some? ==> r.value <= entry.value.duration
    ensures entry.Some? && entry.value.duration > 0.0 && r.Some? && Truthy(loop) ==> r.value < entry.value.duration
    ensures (entry.None? || entry.value.duration == 0.0) && r.Some? ==> r.value == time.value + delta * ToNumber(speed).value
  {
    var n := ToNumber(speed);
    var moved := Moved(time, delta, n);
    assert moved.Some? ==> moved.value == time.value + delta * n.value;
    if entry.Some? && entry.value.duration != 0.0 && moved.Some? && moved.value >= entry.value.duration then
      if Truthy(loop) then Some(0.0) else Some(entry.value.duration)
    else moved
  }

  /**
    Before the end the playhead advances unclamped, whatever the sign of the speed; at or
    past the end it restarts at 0 when looping (no remainder is carried) and is held at
    the duration otherwise; without a duration nothing is clamped.
  */
  lemma AdvanceCases(time: real, delta: real, speed: real, entry: Option<SourceSequence>, loop: Value)
    ensures var t := time + delta * speed;
      var r := Advance(Some(time), delta, Num(speed), entry, loop);
      && (entry.None? || entry.value.duration == 0.0 || t < entry.value.duration ==> r == Some(t))
      && (entry.Some? && entry.value.duration != 0.0 && t >= entry.value.duration ==>
            r == Some(if Truthy(loop) then 0.0 else entry.value.duration))
  {
    assert ToNumber(Num(speed)) == Some(speed);
    var t := time + delta * speed;
    var m := Moved(Some(time), delta, Some(speed));
    assert m.value == t;
    assert m == Some(m.value);
  }

  /** A speed that is not a number makes the playhead `NaN`, and it never recovers by itself. */
  lemma NaNSpeedIsSticky(time: Option<real>, delta: real, speed: Value, entry: Option<SourceSequence>, loop: Value, delta2: real, speed2: Value)
    requires ToNumber(speed).None?
    ensures Advance(time, delta, speed, entry, loop) == None
    ensures Advance(None, delta2, speed2, entry, loop) == None
  {
  }

  /** The `manager:sequence-started` notice for the sequence at `i`, naming it (or `undefined`). */
  function Started(seqs: seq<SourceSequence>, i: Value): (r: seq<Notice>)
    ensures SequenceAt(seqs, i).Some? ==>
      (|r| == 1 && r[0].channel == "manager:sequence-started"
      && r[0].data.Keys == {"sequenceIndex", "sequenceName"} && r[0].data["sequenceIndex"] == i
      && (r[0].data["sequenceName"] != Undefined <==> SequenceAt(seqs, i).value.name.Some?))
    ensures SequenceAt(seqs, i).None? ==> r == []
  {
    match SequenceAt(seqs, i)
    case None => []
    case Some(e) =>
      [Notice("manager:sequence-started", map["sequenceIndex" := i, "sequenceName" := if e.name.Some? then Str(e.name.value) else Undefined])]
  }

  class SourceEngineManager {
    var sequences: seq<SourceSequence>
    /** `currentSequence`: `null` when no sequence runs, otherwise the value it was set to. */
    var currentSequence: Value
    /** `sequenceTime`; `None` is `NaN`. */
    var sequenceTime: Option<real>
    var bodyGroupCount: nat
    var skinCount: nat
    var currentSkin: Value
    /** `instantConfig`, which exists from the first model load on. */
    var config: Option<InstantConfig>
    /** The mouse-focus helper's rotation; `None` while there is no helper. */
    var helper: Option<Rotation>
    /** Whether the sequence clock was created. */
    var clockCreated: bool
    /** Whether a model-control window listens (`_sendToModelControl` is set). */
    var modelControlBound: bool
    var notices: seq<Notice>
    var transformRequests: seq<TransformRequest>

    constructor (modelControlBound: bool)
      ensures sequences == [] && currentSequence == Null && sequenceTime == Some(0.0)
      ensures bodyGroupCount == 0 && skinCount == 0 && currentSkin == Num(0.0)
      ensures config == None && helper == None && !clockCreated
      ensures this.modelControlBound == modelControlBound && notices == [] && transformRequests == []
    {
      sequences := [];
      currentSequence := Null;
      sequenceTime := Some(0.0);
      bodyGroupCount := 0;
      skinCount := 0;
      currentSkin := Num(0.0);
      config := None;
      helper := None;
      clockCreated := false;
      this.modelControlBound := modelControlBound;
      notices := [];
      transformRequests := [];
    }

    /**
      Whatever runs a sequence has a configuration to read its speed from, and a
      sequence table comes only from a load, which creates the configuration.
    */
    predicate Valid()
      reads this
    {
      (currentSequence != Null ==> config.Some?) && (|sequences| > 0 ==> config.Some?)
    }

    /**
      `loadModel`: the instant configuration is re-created first, so even a failed load
      resets it; a successful one replaces the sequence table, body groups and skins,
      clears the selection, rewinds, selects skin 0 and creates a helper on the head bone.
    */
    method LoadModel(parsed: Option<ParsedModel>)
      modifies this
      ensures Valid()
      ensures config == Some(DefaultConfig)
      ensures parsed.None? ==> (sequences == old(sequences) && currentSequence == old(currentSequence)
        && sequenceTime == old(sequenceTime) && currentSkin == old(currentSkin) && helper == old(helper)
        && bodyGroupCount == old(bodyGroupCount) && skinCount == old(skinCount))
      ensures parsed.Some? ==> (sequences == parsed.value.sequences && currentSequence == Null
        && sequenceTime == Some(0.0) && bodyGroupCount == parsed.value.bodyGroupCount
        && skinCount == parsed.value.skinCount && currentSkin == Num(0.0) && helper == Some(parsed.value.headRotation))
      ensures clockCreated == old(clockCreated) && modelControlBound == old(modelControlBound)
      ensures notices == old(notices) && transformRequests == old(transformRequests)
    {
      config := Some(DefaultConfig);
      if parsed.None? {
        return;
      }
      var model := parsed.value;
      sequences := model.sequences;
      currentSequence := Null;
      sequenceTime := Some(0.0);
      bodyGroupCount := model.bodyGroupCount;
      skinCount := model.skinCount;
      currentSkin := Num(0.0);
      helper := Some(model.headRotation);
    }

    /**
      `_playSequence`: an index in range selects it, rewinds and announces it; the
      announcement reads the entry's name, which throws when the index is in range
      numerically but names no entry (such as 1.5). Anything else changes nothing.
    */
    method PlaySequence(index: Value, name: Value) returns (threw: bool)
      requires Valid()
      modifies this`currentSequence, this`sequenceTime, this`clockCreated, this`notices
      ensures Valid()
      ensures var i := ResolveIndex(sequences, index, name);
        && (InRange(i, |sequences|) ==>
              (currentSequence == i && sequenceTime == Some(0.0) && clockCreated
              && threw == SequenceAt(sequences, i).None?
              && notices == old(notices) + (if modelControlBound then Started(sequences, i) else [])))
        && (!InRange(i, |sequences|) ==>
              (!threw && currentSequence == old(currentSequence)
              && sequenceTime == old(sequenceTime) && clockCreated == old(clockCreated) && notices == old(notices)))
    {
      var i := ResolveIndex(sequences, index, name);
      if !InRange(i, |sequences|) {
        return false;
      }
      currentSequence := i;
      sequenceTime := Some(0.0);
      clockCreated := true;
      var entry := SequenceAt(sequences, i);
      if entry.None? {
        return true;
      }
      if modelControlBound {
        notices := notices + Started(sequences, i);
      }
      threw := false;
    }

    /** `_stopSequence`. */
    method StopSequence()
      requires Valid()
      modifies this`currentSequence, this`sequenceTime
      ensures Valid() && currentSequence == Null && sequenceTime == Some(0.0)
    {
      currentSequence := Null;
      sequenceTime := Some(0.0);
    }

    /** `_setBodyGroup`: no state; an in-range index is announced to the model-control window. */
    method SetBodyGroup(index: Value, value: Value)
      modifies this`notices
      ensures notices == old(notices) + (if InRange(index, bodyGroupCount) && modelControlBound then
        [Notice("manager:bodygroup-changed", map["bodyGroupIndex" := index, "value" := value])] else [])
    {
      if InRange(index, bodyGroupCount) && modelControlBound {
        notices := notices + [Notice("manager:bodygroup-changed", map["bodyGroupIndex" := index, "value" := value])];
      }
    }

    /** `_setSkin`: an in-range index becomes the current skin and is announced. */
    method SetSkin(index: Value)
      modifies this`currentSkin, this`notices
      ensures InRange(index, skinCount) ==> (currentSkin == index
        && notices == old(notices) + (if modelControlBound then [Notice("manager:skin-changed", map["skinIndex" := index])] else []))
      ensures !InRange(index, skinCount) ==> currentSkin == old(currentSkin) && notices == old(notices)
    {
      if InRange(index, skinCount) {
        currentSkin := index;
        if modelControlBound {
          notices := notices + [Notice("manager:skin-changed", map["skinIndex" := index])];
        }
      }
    }

    /** `instantConfig[name] = value`; throws before the first load, when there is no configuration object. */
    method ChangeInstantConfig(name: Value, value: Value) returns (threw: bool)
      requires Valid()
      modifies this`config, this`helper
      ensures Valid()
      ensures threw <==> old(config).None?
      ensures old(config).Some? && name.Str? ==>
        var w := Write(old(config).value, name.s, value, old(helper));
        config == Some(w.config) && helper == w.helper
      ensures !(old(config).Some? && name.Str?) ==> config == old(config) && helper == old(helper)
    {
      if config.None? {
        return true;
      }
      threw := false;
      if name.Str? {
        var w := Write(config.value, name.s, value, helper);
        config := Some(w.config);
        helper := w.helper;
      }
    }

    /**
      `handleMessage`: the seven control channels; the destructuring of a missing `data`
      throws, and any other channel leaves everything as it was.
    */
    method HandleMessage(channel: string, data: Value) returns (threw: bool)
      requires Valid()
      modifies this
      ensures Valid()
      ensures sequences == old(sequences) && bodyGroupCount == old(bodyGroupCount) && skinCount == old(skinCount)
      ensures modelControlBound == old(modelControlBound)
      ensures channel !in Channels ==> !threw && unchanged(this)
      ensures channel in Channels - {"control:stop-sequence", "control:set-node-transform"} && Nullish(data) ==> threw && unchanged(this)
      ensures channel == "control:set-node-transform" ==>
        !threw && transformRequests == old(transformRequests) + [SetNodeTransform(data)] && Untouched(old(Snapshot()))
      ensures channel == "control:stop-sequence" ==>
        !threw && currentSequence == Null && sequenceTime == Some(0.0) && transformRequests == old(transformRequests)
        && notices == old(notices) && currentSkin == old(currentSkin) && config == old(config) && helper == old(helper)
        && clockCreated == old(clockCreated)
      ensures channel == "control:bind-node-transform" && !Nullish(data) ==>
        !threw && transformRequests == old(transformRequests) + [BindNode(Prop(data, "nodeId"))] && Untouched(old(Snapshot()))
      ensures channel == "control:play-sequence" && !Nullish(data) ==>
        var i := ResolveIndex(sequences, Prop(data, "sequenceIndex"), Prop(data, "sequenceName"));
        && transformRequests == old(transformRequests) && currentSkin == old(currentSkin)
        && config == old(config) && helper == old(helper)
        && (InRange(i, |sequences|) ==>
              currentSequence == i && sequenceTime == Some(0.0) && clockCreated && threw == SequenceAt(sequences, i).None?
              && notices == old(notices) + (if modelControlBound then Started(sequences, i) else []))
        && (!InRange(i, |sequences|) ==> !threw && Untouched(old(Snapshot())))
      ensures channel == "control:set-bodygroup" && !Nullish(data) ==>
        var index := Prop(data, "bodyGroupIndex");
        && !threw && transformRequests == old(transformRequests)
        && currentSequence == old(currentSequence) && sequenceTime == old(sequenceTime) && currentSkin == old(currentSkin)
        && config == old(config) && helper == old(helper) && clockCreated == old(clockCreated)
        && notices == old(notices) + (if InRange(index, bodyGroupCount) && modelControlBound then
             [Notice("manager:bodygroup-changed", map["bodyGroupIndex" := index, "value" := Prop(data, "value")])] else [])
      ensures channel == "control:set-skin" && !Nullish(data) ==>
        var index := Prop(data, "skinIndex");
        && !threw && transformRequests == old(transformRequests)
        && currentSequence == old(currentSequence) && sequenceTime == old(sequenceTime)
        && config == old(config) && helper == old(helper) && clockCreated == old(clockCreated)
        && (InRange(index, skinCount) ==>
              (currentSkin == index && notices == old(notices) + (if modelControlBound then [Notice("manager:skin-changed", map["skinIndex" := index])] else [])))
        && (!InRange(index, skinCount) ==> currentSkin == old(currentSkin) && notices == old(notices))
      ensures channel == "control:change-instant-config" && !Nullish(data) ==>
        var name := Prop(data, "name");
        && transformRequests == old(transformRequests) && notices == old(notices)
        && currentSequence == old(currentSequence) && sequenceTime == old(sequenceTime) && currentSkin == old(currentSkin)
        && clockCreated == old(clockCreated)
        && (threw <==> old(config).None?)
        && (old(config).Some? && name.Str? ==>
              (var w := Write(old(config).value, name.s, Prop(data, "value"), old(helper));
              config == Some(w.config) && helper == w.helper))
        && (!(old(config).Some? && name.Str?) ==> config == old(config) && helper == old(helper))
    {
      if channel !in Channels {
        return false;
      }
      if channel == "control:stop-sequence" {
        StopSequence();
        return false;
      }
      if channel == "control:set-node-transform" {
        transformRequests := transformRequests + [SetNodeTransform(data)];
        return false;
      }
      if Nullish(data) {
        return true;
      }
      threw := false;
      if channel == "control:bind-node-transform" {
        transformRequests := transformRequests + [BindNode(Prop(data, "nodeId"))];
      } else if channel == "control:play-sequence" {
        threw := PlaySequence(Prop(data, "sequenceIndex"), Prop(data, "sequenceName"));
      } else if channel == "control:set-bodygroup" {
        SetBodyGroup(Prop(data, "bodyGroupIndex"), Prop(data, "value"));
      } else if channel == "control:set-skin" {
        SetSkin(Prop(data, "skinIndex"));
      } else {
        threw := ChangeInstantConfig(Prop(data, "name"), Prop(data, "value"));
      }
    }

    /** The state a control message can change, apart from the forwarded transform requests. */
    function Snapshot(): (Value, Option<real>, Value, Option<InstantConfig>, Option<Rotation>, bool, seq<Notice>)
      reads this
    {
      (currentSequence, sequenceTime, currentSkin, config, helper, clockCreated, notices)
    }

    predicate Untouched(before: (Value, Option<real>, Value, Option<InstantConfig>, Option<Rotation>, bool, seq<Notice>))
      reads this
    {
      Snapshot() == before
    }

    /** Instant tracking decision: tracking on, no sequence running, and a helper to turn. */
    predicate FocusRuns()
      reads this
    {
      config.Some? && Truthy(config.value.trackMouse) && currentSequence == Null && helper.Some?
    }

    /**
      The animation and mouse part of `_updateObjects`: with a selected sequence and a
      clock the playhead moves as `Advance` says; the helper turns to `aim` exactly when
      `FocusRuns`.
    */
    method UpdateObjects(delta: real, aim: Rotation) returns (focused: bool)
      requires Valid()
      modifies this`sequenceTime, this`helper
      ensures Valid()
      ensures currentSequence != Null && clockCreated ==>
        sequenceTime == Advance(old(sequenceTime), delta, Read(config.value, "animationSpeed"),
                                SequenceAt(sequences, currentSequence), Read(config.value, "loopAnimation"))
      ensures !(currentSequence != Null && clockCreated) ==> sequenceTime == old(sequenceTime)
      ensures focused == FocusRuns()
      ensures helper == if focused then Some(aim) else old(helper)
    {
      if currentSequence != Null && clockCreated {
        sequenceTime := Moved(sequenceTime, delta, ToNumber(Read(config.value, "animationSpeed")));
        var entry := SequenceAt(sequences, currentSequence);
        if entry.Some? && entry.value.duration != 0.0 {
          if sequenceTime.Some? && sequenceTime.value >= entry.value.duration {
            if Truthy(Read(config.value, "loopAnimation")) {
              sequenceTime := Some(0.0);
            } else {
              sequenceTime := Some(entry.value.duration);
            }
          }
        }
      }
      focused := FocusRuns();
      if focused {
        helper := Some(aim);
      }
    }
  }

  /** The channels `handleMessage` acts on. */
  const Channels: set<string> := {
    "control:bind-node-transform", "control:set-node-transform", "control:play-sequence",
    "control:stop-sequence", "control:set-bodygroup", "control:set-skin", "control:change-instant-config"
  }

  /** After a load the configuration holds its defaults: tracking on, speed 1, looping. */
  lemma DefaultsAfterLoad()
    ensures Read(DefaultConfig, "trackMouse") == Bool(true)
    ensures Read(DefaultConfig, "animationSpeed") == Num(1.0)
    ensures Read(DefaultConfig, "loopAnimation") == Bool(true)
  {
  }

  /** A name matching no sequence exactly (names are compared case-sensitively) leaves the selection alone. */
  lemma UnknownNameIsOutOfRange(seqs: seq<SourceSequence>, index: Value, name: string)
    requires name != ""
    requires forall j :: 0 <= j < |seqs| ==> seqs[j].name != Some(name)
    ensures !InRange(ResolveIndex(seqs, index, Str(name)), |seqs|)
  {
  }

  /**
    Switching tracking off turns the helper back to zero, and while it stays off no
    frame turns it again.
  */
  method TrackingOffStaysZero(m: SourceEngineManager, delta: real, aim: Rotation) returns (focused: bool)
    requires m.Valid() && m.config.Some? && m.helper.Some?
    modifies m
    ensures !focused && m.helper == Some(Zero)
  {
    var threw := m.ChangeInstantConfig(Str("trackMouse"), Bool(false));
    focused := m.UpdateObjects(delta, aim);
  }
}
