/**
  The change detectors of the Source-engine display: each keeps the current state and a
  snapshot of what was last reported, and `checkUpdate` answers whether the state moved
  away from the snapshot, moving the snapshot along when it did.
*/
module Monitors {
  import opened Values

  /** The time tolerance of the sequence monitor, in seconds. */
  const TimeTolerance: real := 0.05

  function Abs(x: real): real {
    if x < 0.0 then -x else x
  }

  /** The sequence monitor's condition: another index, or a time more than the tolerance away. */
  predicate SequenceChanged(index: Option<int>, time: real, lastIndex: Option<int>, lastTime: real) {
    index != lastIndex || Abs(time - lastTime) > TimeTolerance
  }

  /** The snapshot after one `update(index, t)` followed by `checkUpdate`, and whether it reported. */
  datatype Check = Check(reported: bool, lastIndex: Option<int>, lastTime: real)

  function CheckOnce(index: Option<int>, time: real, lastIndex: Option<int>, lastTime: real): (c: Check)
    ensures c.reported <==> SequenceChanged(index, time, lastIndex, lastTime)
    ensures c.reported ==> c.lastIndex == index && c.lastTime == time
    ensures !c.reported ==> c.lastIndex == lastIndex && c.lastTime == lastTime
    ensures !SequenceChanged(index, time, c.lastIndex, c.lastTime)
  {
    if SequenceChanged(index, time, lastIndex, lastTime) then Check(true, index, time)
    else Check(false, lastIndex, lastTime)
  }

  /**
    The reports of a run of `update(index, times[i])` / `checkUpdate` pairs starting from
    the snapshot `(lastIndex, lastTime)`, and the snapshot at the end.
  */
  function Replay(index: Option<int>, times: seq<real>, lastIndex: Option<int>, lastTime: real): (r: (seq<bool>, Option<int>, real))
    ensures |r.0| == |times|
    decreases |times|
  {
    if times == [] then ([], lastIndex, lastTime)
    else
      var c := CheckOnce(index, times[0], lastIndex, lastTime);
      var rest := Replay(index, times[1..], c.lastIndex, c.lastTime);
      ([c.reported] + rest.0, rest.1, rest.2)
  }

  /**
    Drift that never reports leaves the snapshot where it was, and every time of the run
    lies within the tolerance of it; so drift that accumulates past the tolerance is
    reported, at the first time that is more than the tolerance away from the snapshot.
  */
  lemma {:induction false} SilentDriftStaysWithinTolerance(index: Option<int>, times: seq<real>, lastTime: real)
    requires forall i :: 0 <= i < |times| ==> !Replay(index, times, index, lastTime).0[i]
    ensures Replay(index, times, index, lastTime).1 == index && Replay(index, times, index, lastTime).2 == lastTime
    ensures forall i :: 0 <= i < |times| ==> Abs(times[i] - lastTime) <= TimeTolerance
    decreases |times|
  {
    if times != [] {
      var r := Replay(index, times, index, lastTime);
      assert !r.0[0];
      var rest := Replay(index, times[1..], index, lastTime);
      assert r.0 == [false] + rest.0;
      assert forall i :: 0 <= i < |times[1..]| ==> !rest.0[i] by {
        forall i | 0 <= i < |times[1..]| ensures !rest.0[i] {
          assert rest.0[i] == r.0[i + 1];
        }
      }
      SilentDriftStaysWithinTolerance(index, times[1..], lastTime);
      forall i | 0 <= i < |times| ensures Abs(times[i] - lastTime) <= TimeTolerance {
        if i > 0 {
          assert times[i] == times[1..][i - 1];
        }
      }
    }
  }

  class SequenceMonitor {
    var sequenceIndex: Option<int>
    var time: real
    var lastIndex: Option<int>
    var lastTime: real

    constructor ()
      ensures sequenceIndex == None && time == 0.0 && lastIndex == None && lastTime == 0.0
    {
      sequenceIndex := None;
      time := 0.0;
      lastIndex := None;
      lastTime := 0.0;
    }

    /** `update`: records the current state, never the snapshot. */
    method Update(index: Option<int>, t: real)
      modifies this`sequenceIndex, this`time
      ensures sequenceIndex == index && time == t
    {
      sequenceIndex := index;
      time := t;
    }

    /** `checkUpdate`: reports a change and takes a new snapshot, or reports nothing and keeps it. */
    method CheckUpdate() returns (changed: bool)
      modifies this`lastIndex, this`lastTime
      ensures changed == SequenceChanged(sequenceIndex, time, old(lastIndex), old(lastTime))
      ensures changed ==> lastIndex == sequenceIndex && lastTime == time
      ensures !changed ==> lastIndex == old(lastIndex) && lastTime == old(lastTime)
      ensures !SequenceChanged(sequenceIndex, time, lastIndex, lastTime)
    {
      if sequenceIndex != lastIndex || Abs(time - lastTime) > TimeTolerance {
        lastIndex := sequenceIndex;
        lastTime := time;
        return true;
      }
      return false;
    }

    /** `getState`. */
    function GetState(): (r: (Option<int>, real))
      reads this
      ensures r == (sequenceIndex, time)
    {
      (sequenceIndex, time)
    }

    /** `reset`: the constructor's state, with nothing to report. */
    method Reset()
      modifies this
      ensures sequenceIndex == None && time == 0.0 && lastIndex == None && lastTime == 0.0
      ensures !SequenceChanged(sequenceIndex, time, lastIndex, lastTime)
    {
      sequenceIndex := None;
      time := 0.0;
      lastIndex := None;
      lastTime := 0.0;
    }
  }

  /** An immediate second check reports nothing. */
  method SequenceReportsOnce(m: SequenceMonitor) returns (first: bool, second: bool)
    modifies m
    ensures !second
  {
    first := m.CheckUpdate();
    second := m.CheckUpdate();
  }

  /** A body group whose value is not the one last reported (a group never reported differs). */
  predicate GroupDiffers(current: map<int, real>, last: map<int, real>, k: int)
    requires k in current
  {
    k !in last || last[k] != current[k]
  }

  predicate AnyGroupDiffers(current: map<int, real>, last: map<int, real>) {
    exists k :: k in current && GroupDiffers(current, last, k)
  }

  /** The snapshot after a check: every current group at its current value, the others as they were. */
  function Reported(current: map<int, real>, last: map<int, real>): (r: map<int, real>)
    ensures r.Keys == current.Keys + last.Keys
    ensures forall k :: k in current ==> r[k] == current[k]
    ensures forall k :: k in last && k !in current ==> r[k] == last[k]
    ensures !AnyGroupDiffers(current, r)
  {
    last + current
  }

  lemma SomeKey(s: set<int>) returns (k: int)
    requires s != {}
    ensures k in s
  {
    if forall x :: x !in s {
      assert false;
    }
    k :| k in s;
  }

  class BodyGroupMonitor {
    var bodyGroups: map<int, real>
    var lastUpdate: map<int, real>

    constructor ()
      ensures bodyGroups == map[] && lastUpdate == map[]
    {
      bodyGroups := map[];
      lastUpdate := map[];
    }

    method Set(index: int, value: real)
      modifies this`bodyGroups
      ensures bodyGroups == old(bodyGroups)[index := value]
    {
      bodyGroups := bodyGroups[index := value];
    }

    /** `get`: the group's value, `undefined` for a group never set. */
    function Get(index: int): (r: Option<real>)
      reads this
      ensures r.Some? <==> index in bodyGroups
      ensures r.Some? ==> r.value == bodyGroups[index]
    {
      if index in bodyGroups then Some(bodyGroups[index]) else None
    }

    /**
      `checkUpdate`: walks every group, recording each one that differs from the
      snapshot, and reports whether any did.
    */
    method CheckUpdate() returns (hasChanged: bool)
      modifies this`lastUpdate
      ensures hasChanged == AnyGroupDiffers(bodyGroups, old(lastUpdate))
      ensures lastUpdate == Reported(bodyGroups, old(lastUpdate))
    {
      hasChanged := false;
      var pending := bodyGroups.Keys;
      while pending != {}
        invariant pending <= bodyGroups.Keys
        invariant lastUpdate == old(lastUpdate) + (map k | k in bodyGroups.Keys - pending :: bodyGroups[k])
        invariant hasChanged <==> exists k :: k in bodyGroups.Keys - pending && GroupDiffers(bodyGroups, old(lastUpdate), k)
        decreases pending
      {
        ghost var some := SomeKey(pending);
        var index :| index in pending;
        var value := bodyGroups[index];
        assert index !in bodyGroups.Keys - pending;
        if index !in lastUpdate || lastUpdate[index] != value {
          lastUpdate := lastUpdate[index := value];
          hasChanged := true;
        }
        pending := pending - {index};
      }
      assert bodyGroups.Keys - pending == bodyGroups.Keys;
    }

    /** `getState`. */
    function GetState(): (r: map<int, real>)
      reads this
      ensures r == bodyGroups
    {
      bodyGroups
    }

    method Reset()
      modifies this
      ensures bodyGroups == map[] && lastUpdate == map[]
      ensures !AnyGroupDiffers(bodyGroups, lastUpdate)
    {
      bodyGroups := map[];
      lastUpdate := map[];
    }
  }

  /** Reporting a change of body groups leaves nothing to report on the next check. */
  method BodyGroupsReportOnce(m: BodyGroupMonitor) returns (first: bool, second: bool)
    modifies m
    ensures !second
  {
    first := m.CheckUpdate();
    second := m.CheckUpdate();
  }

  class SkinMonitor {
    var skinIndex: int
    var lastUpdate: int

    constructor ()
      ensures skinIndex == 0 && lastUpdate == 0
    {
      skinIndex := 0;
      lastUpdate := 0;
    }

    method Set(index: int)
      modifies this`skinIndex
      ensures skinIndex == index
    {
      skinIndex := index;
    }

    function Get(): (r: int)
      reads this
      ensures r == skinIndex
    {
      skinIndex
    }

    method CheckUpdate() returns (changed: bool)
      modifies this`lastUpdate
      ensures changed == (skinIndex != old(lastUpdate))
      ensures lastUpdate == skinIndex
    {
      if skinIndex != lastUpdate {
        lastUpdate := skinIndex;
        return true;
      }
      return false;
    }

    method Reset()
      modifies this
      ensures skinIndex == 0 && lastUpdate == 0
    {
      skinIndex := 0;
      lastUpdate := 0;
    }
  }

  /**
    A fresh skin monitor reports nothing until another skin is set, then reports that
    change exactly once.
  */
  method SkinReportsOnce(index: int) returns (before: bool, after: bool, again: bool)
    ensures !before && after == (index != 0) && !again
  {
    var m := new SkinMonitor();
    before := m.CheckUpdate();
    m.Set(index);
    after := m.CheckUpdate();
    again := m.CheckUpdate();
  }
}
