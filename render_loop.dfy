/** The frame loop of the abstract Renderer class in src/renderer.ts.

    The browser's animation-frame request is abstracted to a flag: a renderer
    is `scheduled` while it has a frame request pending. */
module RenderLoop {
  import opened ClusterGrid

  /** The concrete renderer classes. */
  datatype RenderMode = Naive | ForwardPlus | ClusteredDeferred

  /** The time step a frame at `time` reports after a frame at `prevTime`;
      a previous time of zero means no frame has run yet. */
  function FrameDelta(prevTime: real, time: real): (d: real)
    ensures prevTime == 0.0 ==> d == 0.0
    ensures prevTime != 0.0 ==> prevTime + d == time
  {
    if prevTime == 0.0 then 0.0 else time - prevTime
  }

  /** The time steps reported by frames at `times`, in order, starting after `prevTime`. */
  function FrameDeltas(prevTime: real, times: seq<real>): (ds: seq<real>)
    ensures |ds| == |times|
    ensures |times| > 0 ==> ds[0] == FrameDelta(prevTime, times[0])
    ensures forall i :: 0 < i < |times| ==> ds[i] == FrameDelta(times[i - 1], times[i])
    decreases |times|
  {
    if times == [] then [] else [FrameDelta(prevTime, times[0])] + FrameDeltas(times[0], times[1..])
  }

  function Sum(s: seq<real>): real
    decreases |s|
  {
    if s == [] then 0.0 else s[0] + Sum(s[1..])
  }

  /** With the browser's positive timestamps, the time steps of a run of frames
      add up to the time elapsed since the first frame (or, if a frame had
      already run, since that frame). */
  lemma {:induction false} FrameDeltasTelescope(prevTime: real, times: seq<real>)
    requires |times| > 0
    requires forall i :: 0 <= i < |times| ==> times[i] > 0.0
    ensures Sum(FrameDeltas(prevTime, times)) ==
      times[|times| - 1] - (if prevTime == 0.0 then times[0] else prevTime)
    decreases |times|
  {
    var ds := FrameDeltas(prevTime, times);
    assert ds[1..] == FrameDeltas(times[0], times[1..]);
    if |times| > 1 {
      FrameDeltasTelescope(times[0], times[1..]);
    }
  }

  class Renderer {
    const mode: RenderMode
    /** The grid in effect when this renderer was built, ghost record only. */
    ghost const builtWith: ClusterParams
    var prevTime: real
    var scheduled: bool

    /** Construction requests the first frame. */
    constructor (mode: RenderMode, ghost params: ClusterParams)
      ensures this.mode == mode && builtWith == params
      ensures prevTime == 0.0 && scheduled
    {
      this.mode := mode;
      builtWith := params;
      prevTime := 0.0;
      scheduled := true;
    }

    /** Cancels the pending frame request, if any. */
    method Stop()
      modifies this
      ensures !scheduled && prevTime == old(prevTime)
    {
      scheduled := false;
    }

    /** The pending frame fires at `time`: it reports the time step to the
        camera, records `time` and requests the next frame. */
    method OnFrame(time: real) returns (deltaTime: real)
      requires scheduled
      modifies this
      ensures deltaTime == FrameDelta(old(prevTime), time)
      ensures prevTime == time && scheduled
    {
      if prevTime == 0.0 {
        prevTime := time;
      }
      deltaTime := time - prevTime;
      prevTime := time;
      scheduled := true;
    }
  }
}
