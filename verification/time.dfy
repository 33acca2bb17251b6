/** Frame timing (Engine/src/Core/Include/Time.h): the process-wide `Time`
    singleton holding the last frame's timestamp and the delta to it.
    Timestamps are `real`; float rounding is not modelled. */
module Time {

  datatype Time = Time(deltaTime: real, lastFrame: real)

  /** The singleton as first constructed. */
  const Initial: Time := Time(0.0, 0.0)

  /** `Update(currentTime)`: the delta is measured from the previous frame,
      which then becomes the current one. */
  function Update(t: Time, currentTime: real): (r: Time)
    ensures r.lastFrame == currentTime
    ensures t.lastFrame + r.deltaTime == currentTime
  {
    Time(currentTime - t.lastFrame, currentTime)
  }

  function SetDeltaTime(t: Time, d: real): (r: Time)
    ensures r.deltaTime == d && r.lastFrame == t.lastFrame
  {
    t.(deltaTime := d)
  }

  function SetLastFrame(t: Time, f: real): (r: Time)
    ensures r.lastFrame == f && r.deltaTime == t.deltaTime
  {
    t.(lastFrame := f)
  }

  /** The deltas observed by `Update(times[0])`, ..., `Update(times[n-1])`. */
  function Deltas(t: Time, times: seq<real>): (ds: seq<real>)
    ensures |ds| == |times|
    decreases |times|
  {
    if |times| == 0 then [] else [Update(t, times[0]).deltaTime] + Deltas(Update(t, times[0]), times[1..])
  }

  function UpdateAll(t: Time, times: seq<real>): Time
    decreases |times|
  {
    if |times| == 0 then t else UpdateAll(Update(t, times[0]), times[1..])
  }

  function Sum(xs: seq<real>): real {
    if |xs| == 0 then 0.0 else xs[0] + Sum(xs[1..])
  }

  /** Telescoping: the deltas of a run of updates add up to the distance
      from the starting frame to the last timestamp. */
  lemma {:induction false} DeltasTelescope(t: Time, times: seq<real>)
    requires |times| > 0
    ensures Sum(Deltas(t, times)) == times[|times| - 1] - t.lastFrame
    ensures UpdateAll(t, times).lastFrame == times[|times| - 1]
    decreases |times|
  {
    if |times| > 1 {
      DeltasTelescope(Update(t, times[0]), times[1..]);
    }
  }

  /** From the initial singleton the deltas add up to the last timestamp. */
  lemma DeltasFromStart(times: seq<real>)
    requires |times| > 0
    ensures Sum(Deltas(Initial, times)) == times[|times| - 1]
  {
    DeltasTelescope(Initial, times);
  }
}
