/** The fixed-timestep frame loop of `animate`: each animation frame adds the
    clock's delta to an accumulator, runs one scene step of exactly 1/24 s for
    every whole frame interval the accumulator holds, and then renders once. */
module Scheduler {
  import opened JsNumbers
  import opened Animation

  /** `FRAME_INTERVAL = 1 / TARGET_FPS` with a target of 24 frames per
      second, as an exact real. */
  const FrameInterval: real := 1.0 / 24.0

  /** The number of steps an accumulator holding `acc` seconds owes: the whole
      frame intervals in it, none when it is negative. */
  function TicksOwed(acc: real): (n: nat)
    ensures 0.0 <= acc ==> n as real / 24.0 <= acc < (n + 1) as real / 24.0
    ensures acc < FrameInterval ==> n == 0
  {
    if acc < 0.0 then 0 else (acc * 24.0).Floor
  }

  /** What the accumulator holds after a frame's steps, when it held `acc`
      before them: less than one interval, unless it was negative, in which
      case it is untouched. */
  function AfterSteps(acc: real): (r: real)
    ensures 0.0 <= acc ==> 0.0 <= r < FrameInterval
    ensures acc < 0.0 ==> r == acc
  {
    acc - TicksOwed(acc) as real / 24.0
  }

  /** n frame intervals last n / 24 seconds. */
  lemma Intervals(n: nat)
    ensures n as real * FrameInterval == n as real / 24.0
  {
  }

  /** What a frame does, in order: scene steps and the render. */
  datatype Event = Step(dt: real, time: real) | Render

  /** n steps of one frame interval, all reading the same clock time. */
  function Steps(n: nat, time: real): seq<Event>
  {
    seq(n, _ => Step(FrameInterval, time))
  }

  lemma StepsSnoc(n: nat, time: real)
    ensures Steps(n + 1, time) == Steps(n, time) + [Step(FrameInterval, time)]
  {
  }

  /** The loop stops after exactly the owed number of steps: subtracting one
      interval at a time from `start` while at least one interval is left. */
  lemma LoopExit(start: real, n: nat, acc: real)
    requires acc == start - n as real / 24.0 && acc < FrameInterval
    requires n > 0 ==> 0.0 <= acc
    ensures n == TicksOwed(start)
  {
    if 0.0 <= start {
      assert n as real <= start * 24.0 < n as real + 1.0;
    }
  }

  /** The loop's state: the accumulator, the clock's elapsed time and the
      scene. `trace` records the steps and renders performed so far. */
  class FrameLoop {
    var accumulator: real
    var elapsed: real
    const scene: Scene
    ghost var trace: seq<Event>

    /** The clock's elapsed time is the simulated time plus what is still
        waiting in the accumulator. */
    ghost predicate Valid()
      reads this, scene
    {
      elapsed == scene.cameraDrift + accumulator
    }

    /** `const clock = new THREE.Clock()` and `let accumulator = 0`, over a
        scene whose camera drift is still 0. */
    constructor (scene: Scene)
      requires scene.cameraDrift == 0.0
      ensures Valid() && this.scene == scene
      ensures accumulator == 0.0 && elapsed == 0.0 && trace == []
    {
      accumulator := 0.0;
      elapsed := 0.0;
      this.scene := scene;
      trace := [];
    }

    /** One `animate` call; `delta` is what `clock.getDelta()` returns and
        `now` the wall-clock reading the steps use. Exactly TicksOwed(acc +
        delta) steps of one frame interval run, each at the clock time after
        the delta, and the render follows them. A non-negative accumulator is
        left holding less than one interval. */
    method Animate(m: JsMath, delta: real, now: real)
      requires Valid()
      modifies this, scene, scene.walker, scene.rain
      ensures Valid()
      ensures elapsed == old(elapsed) + delta
      ensures accumulator == AfterSteps(old(accumulator) + delta)
      ensures scene.State()
              == TickN(m, old(scene.State()), TicksOwed(old(accumulator) + delta), FrameInterval, elapsed, now)
      ensures trace == old(trace) + Steps(TicksOwed(old(accumulator) + delta), elapsed) + [Render]
    {
      elapsed := elapsed + delta;
      accumulator := accumulator + delta;
      ghost var n := CatchUp(m, now, old(accumulator) + delta);
      TickNClocks(m, old(scene.State()), n, FrameInterval, elapsed, now);
      Intervals(n);
      trace := trace + [Render];
    }

    /** The `while` loop of `animate`: a step for each whole frame interval
        in the accumulator, each taking that interval out of it. `start` names
        the accumulator's value on entry. */
    method CatchUp(m: JsMath, now: real, ghost start: real) returns (ghost n: nat)
      requires accumulator == start
      modifies this, scene, scene.walker, scene.rain
      ensures n == TicksOwed(start)
      ensures accumulator == AfterSteps(start)
      ensures elapsed == old(elapsed)
      ensures scene.State() == TickN(m, old(scene.State()), n, FrameInterval, elapsed, now)
      ensures trace == old(trace) + Steps(n, elapsed)
    {
      ghost var before := scene.State();
      n := 0;
      while accumulator >= FrameInterval
        invariant accumulator == start - n as real / 24.0
        invariant n > 0 ==> 0.0 <= accumulator
        invariant scene.State() == TickN(m, before, n, FrameInterval, elapsed, now)
        invariant trace == old(trace) + Steps(n, elapsed)
        invariant elapsed == old(elapsed)
        decreases if accumulator < 0.0 then 0 else (accumulator * 24.0).Floor
      {
        StepOnce(m, now);
        StepsSnoc(n, elapsed);
        n := n + 1;
      }
      LoopExit(start, n, accumulator);
    }

    /** One pass of the loop body: a scene step of one frame interval at the
        current clock time, taken out of the accumulator. */
    method StepOnce(m: JsMath, now: real)
      modifies this, scene, scene.walker, scene.rain
      ensures accumulator == old(accumulator) - FrameInterval && elapsed == old(elapsed)
      ensures scene.State() == Tick(m, old(scene.State()), FrameInterval, elapsed, now)
      ensures trace == old(trace) + [Step(FrameInterval, elapsed)]
    {
      scene.UpdateScene(m, FrameInterval, elapsed, now);
      accumulator := accumulator - FrameInterval;
      trace := trace + [Step(FrameInterval, elapsed)];
    }
  }

  // ------------------------------------------------------- several frames

  /** The sum of the frame deltas. */
  function Sum(deltas: seq<real>): real
  {
    if |deltas| == 0 then 0.0 else Sum(deltas[..|deltas| - 1]) + deltas[|deltas| - 1]
  }

  /** The accumulator after the frames with the given deltas, from `acc`. */
  function AccumulatorAfter(acc: real, deltas: seq<real>): real
  {
    if |deltas| == 0 then acc
    else
      AfterSteps(AccumulatorAfter(acc, deltas[..|deltas| - 1]) + deltas[|deltas| - 1])
  }

  /** The steps run by the frames with the given deltas, from `acc`. */
  function StepsRun(acc: real, deltas: seq<real>): nat
  {
    if |deltas| == 0 then 0
    else
      var a := AccumulatorAfter(acc, deltas[..|deltas| - 1]) + deltas[|deltas| - 1];
      StepsRun(acc, deltas[..|deltas| - 1]) + TicksOwed(a)
  }

  /** No time is lost or invented across frames: the steps run plus the
      accumulator always make up the starting accumulator plus every delta. */
  lemma {:induction false} FramesConserveTime(acc: real, deltas: seq<real>)
    ensures StepsRun(acc, deltas) as real / 24.0 + AccumulatorAfter(acc, deltas) == acc + Sum(deltas)
  {
    if |deltas| > 0 {
      FramesConserveTime(acc, deltas[..|deltas| - 1]);
    }
  }

  /** With a non-negative start and non-negative deltas, the frames together
      run exactly as many steps as fit in the total time: the same as one frame
      with the summed delta. */
  lemma {:induction false} FramesRunWholeIntervals(acc: real, deltas: seq<real>)
    requires 0.0 <= acc < FrameInterval
    requires forall k :: 0 <= k < |deltas| ==> 0.0 <= deltas[k]
    ensures 0.0 <= AccumulatorAfter(acc, deltas) < FrameInterval
    ensures StepsRun(acc, deltas) == TicksOwed(acc + Sum(deltas))
  {
    if |deltas| > 0 {
      FramesRunWholeIntervals(acc, deltas[..|deltas| - 1]);
    }
    FramesConserveTime(acc, deltas);
    var total := acc + Sum(deltas);
    var n := StepsRun(acc, deltas);
    assert n as real / 24.0 <= total < (n + 1) as real / 24.0;
    assert n == (total * 24.0).Floor;
  }

  // ------------------------------------------------------------- the walker

  /** While no reset is due, n steps of one frame interval move the walker
      n * 0.85 / 24 along the street. */
  lemma {:induction false} Glide(m: JsMath, s: SceneState, n: nat, time: real, now: real)
    requires StreetEndZ <= s.walker.z - n as real / 24.0 * WalkSpeed
    ensures TickN(m, s, n, FrameInterval, time, now).walker.z == s.walker.z - n as real / 24.0 * WalkSpeed
  {
    if n > 0 {
      Glide(m, s, n - 1, time, now);
    }
  }

  /** From its start at z = 4 the walker first reappears at the reset point on
      step 1243. */
  lemma FirstLap(m: JsMath, s: SceneState, time: real, now: real)
    requires s.walker.z == WalkerStartZ
    ensures StreetEndZ <= TickN(m, s, 1242, FrameInterval, time, now).walker.z
    ensures TickN(m, s, 1243, FrameInterval, time, now).walker.z == WalkerResetZ
  {
    Glide(m, s, 1242, time, now);
  }

  /** From the reset point the walker takes 1412 steps (about 58.8 s) to come
      round again. */
  lemma Lap(m: JsMath, s: SceneState, time: real, now: real)
    requires s.walker.z == WalkerResetZ
    ensures StreetEndZ <= TickN(m, s, 1411, FrameInterval, time, now).walker.z
    ensures TickN(m, s, 1412, FrameInterval, time, now).walker.z == WalkerResetZ
  {
    Glide(m, s, 1411, time, now);
  }
}
