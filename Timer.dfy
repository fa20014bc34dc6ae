/**
 * The frame clock (source/Timer.ts). `Date.now()` is the host's millisecond
 * clock, an integer passed in at each call; the timer keeps the start time and
 * the last frame time in milliseconds and exposes seconds as reals.
 */
module Timers {
  import opened Uniforms

  /** The timer's four fields. */
  datatype Clock = Clock(startTime: int, lastFrameTime: int, deltaTime: real, appTime: real)

  /** Seconds in a millisecond span. */
  function Seconds(ms: int): real { 0.001 * ms as real }

  /** `update(now)`: a new frame at `now`. */
  function Tick(c: Clock, now: int): (r: Clock)
    ensures r.startTime == c.startTime && r.lastFrameTime == now
    ensures r.deltaTime == Seconds(now - c.lastFrameTime)
    ensures r.appTime == Seconds(now - c.startTime)
  {
    Clock(c.startTime, now, 0.001 * (now - c.lastFrameTime) as real, 0.001 * (now - c.startTime) as real)
  }

  /** The clock after each of the updates `nows`, in order. */
  function Ticks(c: Clock, nows: seq<int>): (cs: seq<Clock>)
    ensures |cs| == |nows|
    decreases |nows|
  {
    if nows == [] then [] else [Tick(c, nows[0])] + Ticks(Tick(c, nows[0]), nows[1..])
  }

  /** The sum of the reported frame times over the clocks `cs`. */
  function TotalDelta(cs: seq<Clock>): real
    decreases |cs|
  {
    if cs == [] then 0.0 else cs[0].deltaTime + TotalDelta(cs[1..])
  }

  /** After any updates the start time is the original one, the last frame time
      is the latest reading, and the frame times add up to the span from the
      previous last frame time to that reading. */
  lemma {:induction false} TicksTelescope(c: Clock, nows: seq<int>)
    requires nows != []
    ensures var cs := Ticks(c, nows);
      && cs[|cs| - 1].startTime == c.startTime
      && cs[|cs| - 1].lastFrameTime == nows[|nows| - 1]
      && TotalDelta(cs) == Seconds(nows[|nows| - 1] - c.lastFrameTime)
      && cs[|cs| - 1].appTime == Seconds(nows[|nows| - 1] - c.startTime)
    decreases |nows|
  {
    var c1 := Tick(c, nows[0]);
    if |nows| > 1 {
      TicksTelescope(c1, nows[1..]);
      assert nows[1..][|nows[1..]| - 1] == nows[|nows| - 1];
      assert Ticks(c, nows)[|nows| - 1] == Ticks(c1, nows[1..])[|nows| - 2];
    }
  }

  /** The readings are non-decreasing and none precedes `from`. */
  ghost predicate Monotone(from: int, nows: seq<int>) {
    (forall i :: 0 <= i < |nows| ==> from <= nows[i])
    && (forall i, j :: 0 <= i < j < |nows| ==> nows[i] <= nows[j])
  }

  /** The clock after update i keeps the start time, holds reading i as its last
      frame time, and reports the spans since the previous reading and since the start. */
  lemma {:induction false} TicksPointwise(c: Clock, nows: seq<int>)
    ensures var cs := Ticks(c, nows);
      forall i :: 0 <= i < |nows| ==>
        && cs[i].startTime == c.startTime && cs[i].lastFrameTime == nows[i]
        && cs[i].deltaTime == Seconds(nows[i] - (if i == 0 then c.lastFrameTime else nows[i - 1]))
        && cs[i].appTime == Seconds(nows[i] - c.startTime)
    decreases |nows|
  {
    if nows != [] {
      var c1 := Tick(c, nows[0]);
      var rest := nows[1..];
      TicksPointwise(c1, rest);
      var cs := Ticks(c, nows);
      forall i {:trigger cs[i]} | 1 <= i < |nows|
        ensures cs[i] == Ticks(c1, rest)[i - 1] && rest[i - 1] == nows[i]
        ensures i >= 2 ==> rest[i - 2] == nows[i - 1]
      {}
    }
  }

  /** With a clock that never runs backwards, starting no earlier than the start
      time, every frame time and every app time is non-negative and app time never
      decreases. */
  lemma TicksMonotone(c: Clock, nows: seq<int>)
    requires c.startTime <= c.lastFrameTime && Monotone(c.lastFrameTime, nows)
    ensures var cs := Ticks(c, nows);
      && (forall i :: 0 <= i < |cs| ==> cs[i].deltaTime >= 0.0 && cs[i].appTime >= 0.0)
      && (forall i, j :: 0 <= i < j < |cs| ==> cs[i].appTime <= cs[j].appTime)
  {
    TicksPointwise(c, nows);
    var cs := Ticks(c, nows);
    forall i | 0 <= i < |cs| ensures cs[i].deltaTime >= 0.0 && cs[i].appTime >= 0.0 {
      assert c.lastFrameTime <= nows[i];
      if i > 0 {
        assert nows[i - 1] <= nows[i];
      }
    }
  }

  class Timer {
    var startTime: int
    var lastFrameTime: int
    var deltaTime: real
    var appTime: real

    function State(): Clock
      reads this
    {
      Clock(startTime, lastFrameTime, deltaTime, appTime)
    }

    /** The constructor reads the clock twice: once for the start time and once
        for the last frame time. */
    constructor (startNow: int, lastNow: int)
      ensures State() == Clock(startNow, lastNow, 0.0, 0.0)
    {
      startTime := startNow;
      lastFrameTime := lastNow;
      deltaTime := 0.0;
      appTime := 0.0;
    }

    method Update(now: int)
      modifies this
      ensures State() == Tick(old(State()), now)
    {
      deltaTime := 0.001 * (now - lastFrameTime) as real;
      appTime := 0.001 * (now - startTime) as real;
      lastFrameTime := now;
    }

    /** The `t` getter. */
    function T(): (t: real)
      reads this
      ensures t == appTime
    {
      appTime
    }

    /** The `dt` getter. */
    function Dt(): (dt: real)
      reads this
      ensures dt == deltaTime
    {
      deltaTime
    }

    /** `applyUniforms`: the app time, in seconds, as a float. */
    function Uploads(time: Location): (us: seq<Upload>)
      reads this
      ensures |us| == 1 && us[0].location == time && us[0].value == FloatValue(appTime)
    {
      [Upload(time, FloatValue(T()))]
    }
  }
}
