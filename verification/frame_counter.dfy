/**
 * The frame clock (Plywood.Graphics.Core/PwFrameCounter.cs).
 *
 * The source keeps one process-wide counter; here it is an explicit value
 * that its owner threads through.  Delta time and wall-clock stamps are not
 * modelled.
 */
module FrameCounter {

  datatype Clock = Clock(current: int)

  /** The counter's value when the process starts. */
  const Start := Clock(0)

  function Increment(c: Clock): (r: Clock)
    ensures r.current == c.current + 1
  {
    Clock(c.current + 1)
  }

  function Reset(c: Clock): (r: Clock)
    ensures r.current == 0
  {
    Start
  }

  /** Frames elapsed since `from`, clamped at zero. */
  function ElapsedFrames(c: Clock, from: int): (r: nat)
    ensures from <= c.current ==> from + r == c.current
    ensures c.current <= from ==> r == 0
  {
    if c.current - from >= 0 then c.current - from else 0
  }

  /** The two ways the counter changes. */
  datatype Tick = Advance | Rewind

  function Run(c: Clock, ticks: seq<Tick>): Clock
    decreases |ticks|
  {
    if ticks == [] then c
    else
      var next := if ticks[0] == Advance then Increment(c) else Reset(c);
      Run(next, ticks[1..])
  }

  /** Between resets the counter only moves forward, one per increment. */
  lemma {:induction false} RunWithoutResetAdvances(c: Clock, ticks: seq<Tick>)
    requires forall i | 0 <= i < |ticks| :: ticks[i] == Advance
    ensures Run(c, ticks).current == c.current + |ticks|
    decreases |ticks|
  {
    if ticks != [] {
      RunWithoutResetAdvances(Increment(c), ticks[1..]);
    }
  }

  /** Hence a stamp taken before such a run has age exactly the number of increments. */
  lemma {:induction false} StampAgeIsIncrementCount(c: Clock, ticks: seq<Tick>)
    requires forall i | 0 <= i < |ticks| :: ticks[i] == Advance
    ensures ElapsedFrames(Run(c, ticks), c.current) == |ticks|
  {
    RunWithoutResetAdvances(c, ticks);
  }

  /** After a reset the counter is back at its start, whatever came before. */
  lemma {:induction false} RunEndingInResetRestarts(c: Clock, ticks: seq<Tick>)
    requires ticks != [] && ticks[|ticks| - 1] == Rewind
    ensures Run(c, ticks).current == 0
    decreases |ticks|
  {
    var next := if ticks[0] == Advance then Increment(c) else Reset(c);
    if |ticks| > 1 {
      RunEndingInResetRestarts(next, ticks[1..]);
    }
  }
}
