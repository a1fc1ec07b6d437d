// Frame pacing of src/scripts/controller/frame.ts: the time between frames,
// a frames-per-second counter that publishes its count once per elapsed
// second, and the delay before the next frame. Timestamps (milliseconds, as
// performance.now() gives them) are parameters.

module Frames {
  import opened MathExt

  const TargetFPS: real := 60.0
  /** Milliseconds per frame at the target rate. */
  const TargetFrameTime: real := 1000.0 / TargetFPS

  /** The state of the FPS counter: the last published count, the frames counted and the seconds accumulated. */
  datatype FpsCounter = FpsCounter(fps: int, frameCount: int, frameTimer: real)

  /**
   * One frame of the FPS counter: count the frame and add its duration; once a
   * second has accumulated, publish the count, restart it and carry the excess.
   */
  function CountFrame(c: FpsCounter, deltaTime: real): FpsCounter
  {
    var counted := c.frameCount + 1;
    var timer := c.frameTimer + deltaTime;
    if timer >= 1.0 then FpsCounter(counted, 0, timer - 1.0)
    else FpsCounter(c.fps, counted, timer)
  }

  /**
   * A counter whose timer lies in [0, 1) keeps it there over a frame of at most
   * a second; the frame is either counted, or published with the count reset.
   */
  lemma CountFrameInvariant(c: FpsCounter, deltaTime: real)
    requires 0.0 <= c.frameTimer < 1.0 && 0.0 <= deltaTime <= 1.0
    ensures var d := CountFrame(c, deltaTime);
      && 0.0 <= d.frameTimer < 1.0
      && ((d.frameCount == c.frameCount + 1 && d.fps == c.fps)
          || (d.frameCount == 0 && d.fps == c.frameCount + 1))
  {
  }

  /** The counter after a run of frames with the given durations. */
  function CountFrames(c: FpsCounter, deltas: seq<real>): FpsCounter
    decreases |deltas|
  {
    if deltas == [] then c else CountFrames(CountFrame(c, deltas[0]), deltas[1..])
  }

  function Sum(s: seq<real>): real
  {
    if s == [] then 0.0 else s[0] + Sum(s[1..])
  }

  /** Frames of non-negative duration that stay within the current second are all counted, and nothing is published. */
  lemma {:induction false} CountsFramesWithinSecond(c: FpsCounter, deltas: seq<real>)
    requires forall i :: 0 <= i < |deltas| ==> deltas[i] >= 0.0
    requires c.frameTimer + Sum(deltas) < 1.0
    ensures CountFrames(c, deltas) == FpsCounter(c.fps, c.frameCount + |deltas|, c.frameTimer + Sum(deltas))
    decreases |deltas|
  {
    if deltas != [] {
      SumNonNegative(deltas[1..]);
      CountsFramesWithinSecond(CountFrame(c, deltas[0]), deltas[1..]);
    }
  }

  lemma {:induction false} SumNonNegative(s: seq<real>)
    requires forall i :: 0 <= i < |s| ==> s[i] >= 0.0
    ensures Sum(s) >= 0.0
  {
    if s != [] {
      SumNonNegative(s[1..]);
    }
  }

  class FrameController {
    /** Seconds since the previous frame. */
    var deltaTime: real
    var fps: int
    var frameCount: int
    var frameTimer: real
    var lastFrameTime: real
    var frameStartTime: real

    /** The counter fields as one value. */
    function Counter(): FpsCounter
      reads this
    {
      FpsCounter(fps, frameCount, frameTimer)
    }

    /** The constructor: an ideal first frame time, start and last frame both at now. */
    constructor (now: real)
      ensures deltaTime == TargetFrameTime / 1000.0 && deltaTime == 1.0 / 60.0
      ensures frameStartTime == now && lastFrameTime == now
      ensures Counter() == FpsCounter(0, 0, 0.0)
    {
      deltaTime := 1.0;
      fps := 0;
      frameCount := 0;
      frameTimer := 0.0;
      lastFrameTime := 0.0;
      frameStartTime := 0.0;
      deltaTime := TargetFrameTime / 1000.0;
      frameStartTime := now;
      lastFrameTime := frameStartTime;
    }

    /** FrameController.startFrame: time the frame from the end of the previous one and count it. */
    method StartFrame(now: real)
      modifies this
      ensures frameStartTime == now
      ensures deltaTime == (now - old(lastFrameTime)) / 1000.0
      ensures Counter() == CountFrame(old(Counter()), deltaTime)
      ensures lastFrameTime == old(lastFrameTime)
    {
      frameStartTime := now;
      deltaTime := (frameStartTime - lastFrameTime) / 1000.0;
      frameCount := frameCount + 1;
      frameTimer := frameTimer + deltaTime;
      if frameTimer >= 1.0 {
        fps := frameCount;
        frameCount := 0;
        frameTimer := frameTimer - 1.0;
      }
    }

    /**
     * FrameController.calculateNextTimeDelay: what is left of the frame budget,
     * rounded down; 0 once the budget is spent, never more than 16 ms.
     */
    function CalculateNextTimeDelay(): (r: int)
      reads this
      ensures 0 <= r <= 16
      ensures TargetFrameTime <= Abs(lastFrameTime - frameStartTime) ==> r == 0
      ensures Abs(lastFrameTime - frameStartTime) <= TargetFrameTime ==>
        r as real <= TargetFrameTime - Abs(lastFrameTime - frameStartTime) < r as real + 1.0
    {
      var elapsed := Abs(lastFrameTime - frameStartTime);
      Clamp(TargetFrameTime - elapsed, 0.0, TargetFrameTime).Floor
    }

    /** FrameController.endFrame: stamp the end of the frame, then return the delay before the next one. */
    method EndFrame(now: real) returns (delay: int)
      modifies this
      ensures lastFrameTime == now
      ensures frameStartTime == old(frameStartTime) && Counter() == old(Counter()) && deltaTime == old(deltaTime)
      ensures delay == CalculateNextTimeDelay()
    {
      lastFrameTime := now;
      delay := CalculateNextTimeDelay();
    }
  }

  /** Math.abs */
  function Abs(x: real): (r: real)
    ensures r >= 0.0 && (r == x || r == -x)
  {
    if x < 0.0 then -x else x
  }
}
