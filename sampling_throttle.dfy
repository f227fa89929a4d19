/** The rate limit around the colour sensor in robotPeriodic. The host calls
    the hook every tick; a gate lets a tick through only when enough time has
    passed since the remembered last-print time, and a tick that passes the
    gate moves that time forward to the current time. The interval is 0.5 s
    when the sensor exists and 2.0 s (for the missing-sensor warning) when
    it does not. */
module SamplingThrottle {

  /** Seconds between two samples of a present sensor. */
  const PrintInterval: real := 0.5

  /** Seconds between two warnings about a missing sensor. */
  const MissingSensorInterval: real := 2.0

  /** The interval the gate uses; positive either way. */
  function Interval(sensorPresent: bool): (i: real)
    ensures i >= PrintInterval > 0.0
    ensures sensorPresent <==> i == PrintInterval
  {
    if sensorPresent then PrintInterval else MissingSensorInterval
  }

  /** Whether a tick at time `now` passes the gate. */
  predicate GateOpen(last: real, now: real, sensorPresent: bool)
  {
    now - last >= Interval(sensorPresent)
  }

  /** The remembered time after a tick: the tick's time when it passed the
      gate, the old value otherwise. */
  function NextLast(last: real, now: real, sensorPresent: bool): real
  {
    if GateOpen(last, now, sensorPresent) then now else last
  }

  /** The times, among a run of ticks, at which the gate opens. */
  function GateTimes(last: real, sensorPresent: bool, times: seq<real>): seq<real>
    decreases times
  {
    if times == [] then []
    else if GateOpen(last, times[0], sensorPresent) then
      [times[0]] + GateTimes(times[0], sensorPresent, times[1..])
    else GateTimes(last, sensorPresent, times[1..])
  }

  /** The remembered time after a run of ticks. */
  function LastAfter(last: real, sensorPresent: bool, times: seq<real>): real
    decreases times
  {
    if times == [] then last
    else LastAfter(NextLast(last, times[0], sensorPresent), sensorPresent, times[1..])
  }

  /** Over any run of ticks, in whatever order the times come, the gate opens
      only at times of the run, each at least one interval after the initial
      last-print time, and any two openings at least one interval apart. */
  lemma {:induction false} GateTimesSpaced(last: real, sensorPresent: bool, times: seq<real>)
    ensures var s := GateTimes(last, sensorPresent, times);
      |s| <= |times| &&
      (forall i :: 0 <= i < |s| ==> s[i] in times) &&
      (forall i :: 0 <= i < |s| ==> s[i] - last >= Interval(sensorPresent)) &&
      (forall i, j :: 0 <= i < j < |s| ==> s[j] - s[i] >= Interval(sensorPresent))
    decreases times
  {
    if times != [] {
      var t, rest := times[0], times[1..];
      assert times == [t] + rest;
      if GateOpen(last, t, sensorPresent) {
        GateTimesSpaced(t, sensorPresent, rest);
        var s' := GateTimes(t, sensorPresent, rest);
        var s := [t] + s';
        assert forall i :: 0 < i < |s| ==> s[i] == s'[i - 1];
      } else {
        GateTimesSpaced(last, sensorPresent, rest);
      }
    }
  }

  /** The remembered time after a run is the last time the gate opened, or
      the initial one when it never did. */
  lemma {:induction false} LastAfterIsLastGateTime(last: real, sensorPresent: bool, times: seq<real>)
    ensures var s := GateTimes(last, sensorPresent, times);
      LastAfter(last, sensorPresent, times) == if s == [] then last else s[|s| - 1]
    decreases times
  {
    if times != [] {
      var t, rest := times[0], times[1..];
      LastAfterIsLastGateTime(NextLast(last, t, sensorPresent), sensorPresent, rest);
    }
  }

  /** Two ticks less than one interval apart pass the gate at most once. */
  lemma TwoCloseTicksOpenOnce(last: real, sensorPresent: bool, t1: real, t2: real)
    requires t2 - t1 < Interval(sensorPresent)
    ensures |GateTimes(last, sensorPresent, [t1, t2])| <= 1
  {
    var ticks := [t1, t2];
    assert ticks[1..] == [t2] && [t2][1..] == [];
    if GateOpen(last, t1, sensorPresent) {
      assert !GateOpen(t1, t2, sensorPresent);
      assert GateTimes(t1, sensorPresent, [t2]) == [];
    } else {
      assert |GateTimes(last, sensorPresent, [t2])| <= 1;
    }
  }

  /** After a tick that passed the gate, the next tick passes it exactly when
      it comes at least one interval later. */
  lemma SecondTickOpensIff(last: real, sensorPresent: bool, t1: real, t2: real)
    requires GateOpen(last, t1, sensorPresent)
    ensures (GateOpen(NextLast(last, t1, sensorPresent), t2, sensorPresent)
             <==> t2 - t1 >= Interval(sensorPresent))
  {
  }
}
