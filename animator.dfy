/**
 * The transition animator (`src/components/TransititionAnimator.tsx`): a
 * progress counter and an animating flag, four stored endpoint vectors,
 * an activation effect and a per-frame step that eases the camera from the
 * start pose to the target pose and reports completion once.
 *
 * The pure part (`Phase`, `Step`, `Run`, `FramePosition`) specifies the
 * class and carries the multi-frame properties: completion at most once,
 * completion within a bounded number of frames, and an interpolated point
 * (`FramePosition`) that never moves away from the target as progress grows
 * between two activations.
 */
module Animator {
  import opened Wrappers
  import opened Vectors
  import opened Config
  import opened Scene

  /** The animator's scalar state: the `animationProgress` and `isAnimating` refs. */
  datatype Phase = Phase(progress: real, animating: bool)

  /** The phase after one frame, and whether that frame fired the completion callback. */
  datatype Tick = Tick(phase: Phase, fired: bool)

  /** The phase after a run of frames, and how many of them fired the completion callback. */
  datatype RunResult = RunResult(phase: Phase, fires: nat)

  /** Activation animates only when enabled with both endpoint states present. */
  predicate Activates(enabled: bool, start: Option<CameraState>, target: Option<CameraState>)
  {
    enabled && start.Some? && target.Some?
  }

  /** The activation effect on the scalar state: restart from 0, or stop animating. */
  function ActivatePhase(ph: Phase, enabled: bool, start: Option<CameraState>, target: Option<CameraState>): Phase
  {
    if Activates(enabled, start, target) then Phase(0.0, true) else ph.(animating := false)
  }

  /** One frame on the scalar state. */
  function Step(ph: Phase, delta: real, enabled: bool): Tick
  {
    if !ph.animating || !enabled then Tick(ph, false)
    else
      var p := ph.progress + delta * CameraAnimationSpeed;
      if p < 1.0 then Tick(Phase(p, true), false) else Tick(Phase(p, false), true)
  }

  /** A run of frames with the given deltas, `enabled` held fixed throughout. */
  function Run(ph: Phase, deltas: seq<real>, enabled: bool): RunResult
    decreases |deltas|
  {
    if deltas == [] then RunResult(ph, 0)
    else
      var t := Step(ph, deltas[0], enabled);
      var rest := Run(t.phase, deltas[1..], enabled);
      RunResult(rest.phase, rest.fires + if t.fired then 1 else 0)
  }

  /**
   * Where a frame puts a point interpolated from `s` to `t` when progress
   * has reached `p`: the eased interpolation below 1, `t` itself from 1 on.
   * The same rule gives both the camera position and the look-at point.
   */
  function FramePosition(s: Vec3, t: Vec3, p: real): Vec3
  {
    if p < 1.0 then Lerp(s, t, Smoothstep(p)) else t
  }

  /** Every active frame advances progress by exactly `delta * CAMERA_ANIMATION_SPEED`, and idle frames change nothing. */
  lemma StepAdvancesProgress(ph: Phase, delta: real, enabled: bool)
    ensures ph.animating && enabled ==> Step(ph, delta, enabled).phase.progress == ph.progress + delta * CameraAnimationSpeed
    ensures ph.animating && enabled ==> (Step(ph, delta, enabled).fired <==> ph.progress + delta * CameraAnimationSpeed >= 1.0)
    ensures !(ph.animating && enabled) ==> Step(ph, delta, enabled) == Tick(ph, false)
  {
  }

  /** Once not animating, frames are inert until the next activation. */
  lemma {:induction false} IdleRunIsInert(ph: Phase, deltas: seq<real>, enabled: bool)
    requires !ph.animating
    ensures Run(ph, deltas, enabled) == RunResult(ph, 0)
    decreases |deltas|
  {
    if deltas != [] {
      IdleRunIsInert(ph, deltas[1..], enabled);
    }
  }

  /** Completion fires at most once per activation, and after it the animator is idle. */
  lemma {:induction false} CompletionAtMostOnce(ph: Phase, deltas: seq<real>, enabled: bool)
    ensures Run(ph, deltas, enabled).fires <= 1
    ensures Run(ph, deltas, enabled).fires == 1 ==> !Run(ph, deltas, enabled).phase.animating
    decreases |deltas|
  {
    if deltas != [] {
      var t := Step(ph, deltas[0], enabled);
      if t.fired {
        IdleRunIsInert(t.phase, deltas[1..], enabled);
      } else {
        CompletionAtMostOnce(t.phase, deltas[1..], enabled);
      }
    }
  }

  /**
   * With every delta at least `d > 0`, an animation whose progress plus
   * `n * d * speed` reaches 1 completes within those `n` frames, exactly once.
   */
  lemma {:induction false} CompletesWithin(ph: Phase, deltas: seq<real>, d: real)
    requires ph.animating && ph.progress < 1.0
    requires d > 0.0
    requires forall k :: 0 <= k < |deltas| ==> deltas[k] >= d
    requires ph.progress + |deltas| as real * (d * CameraAnimationSpeed) >= 1.0
    ensures Run(ph, deltas, true).fires == 1
    ensures !Run(ph, deltas, true).phase.animating
    decreases |deltas|
  {
    var c := d * CameraAnimationSpeed;
    var n := |deltas| as real;
    assert deltas != [];
    var t := Step(ph, deltas[0], true);
    MulMono(d, deltas[0], CameraAnimationSpeed);
    assert t.phase.progress >= ph.progress + c;
    if t.fired {
      IdleRunIsInert(t.phase, deltas[1..], true);
    } else {
      assert (n - 1.0) * c + c == n * c;
      assert |deltas[1..]| as real == n - 1.0;
      CompletesWithin(t.phase, deltas[1..], d);
    }
  }

  /** The least integer not below `x`. */
  function Ceil(x: real): (n: int)
    ensures n as real >= x
    ensures (n - 1) as real < x
  {
    if x.Floor as real == x then x.Floor else x.Floor + 1
  }

  /** ⌈1 / (d · CAMERA_ANIMATION_SPEED)⌉: the frame budget for deltas of at least `d`. */
  function FrameBound(d: real): (n: nat)
    requires d > 0.0
    ensures n as real * (d * CameraAnimationSpeed) >= 1.0
  {
    var c := d * CameraAnimationSpeed;
    var k := Ceil(1.0 / c);
    assert k as real >= 1.0 / c;
    MulMono(1.0 / c, k as real, c);
    assert k >= 1;
    k
  }

  /**
   * Termination: from a fresh activation, frames with deltas of at least
   * `d > 0` fire completion exactly once within the first
   * ⌈1 / (d · 2.5)⌉ frames, and never again afterwards.
   */
  lemma Termination(deltas: seq<real>, d: real)
    requires d > 0.0
    requires forall k :: 0 <= k < |deltas| ==> deltas[k] >= d
    requires |deltas| >= FrameBound(d)
    ensures Run(Phase(0.0, true), deltas[..FrameBound(d)], true).fires == 1
    ensures Run(Phase(0.0, true), deltas, true).fires == 1
  {
    var n := FrameBound(d);
    CompletesWithin(Phase(0.0, true), deltas[..n], d);
    RunSplits(Phase(0.0, true), deltas[..n], deltas[n..], true);
    assert deltas[..n] + deltas[n..] == deltas;
    var mid := Run(Phase(0.0, true), deltas[..n], true).phase;
    IdleRunIsInert(mid, deltas[n..], true);
  }

  /** A run over `a + b` is the run over `a` followed by the run over `b`. */
  lemma {:induction false} RunSplits(ph: Phase, a: seq<real>, b: seq<real>, enabled: bool)
    ensures Run(ph, a + b, enabled).phase == Run(Run(ph, a, enabled).phase, b, enabled).phase
    ensures Run(ph, a + b, enabled).fires == Run(ph, a, enabled).fires + Run(Run(ph, a, enabled).phase, b, enabled).fires
    decreases |a|
  {
    if a != [] {
      assert (a + b)[0] == a[0];
      assert (a + b)[1..] == a[1..] + b;
      RunSplits(Step(ph, a[0], enabled).phase, a[1..], b, enabled);
    } else {
      assert a + b == b;
    }
  }

  /** With non-negative deltas, an animating phase keeps progress in [0, 1). */
  lemma StepKeepsProgressInRange(ph: Phase, delta: real, enabled: bool)
    requires ph.animating ==> 0.0 <= ph.progress < 1.0
    requires delta >= 0.0
    ensures var r := Step(ph, delta, enabled).phase;
            (r.animating ==> 0.0 <= r.progress < 1.0) && r.progress >= ph.progress
  {
  }

  /** Mid-animation the interpolated point lies on the segment between the two endpoints. */
  lemma FramePositionOnSegment(s: Vec3, t: Vec3, p: real)
    ensures OnSegment(s, t, FramePosition(s, t, p))
  {
    if p < 1.0 {
      assert 0.0 <= Smoothstep(p) <= 1.0 && FramePosition(s, t, p) == Lerp(s, t, Smoothstep(p));
    } else {
      assert Lerp(s, t, 1.0) == t;
    }
  }

  /** More progress never leaves the interpolated point farther from the target. */
  lemma DistanceNonIncreasing(s: Vec3, t: Vec3, p1: real, p2: real)
    requires p1 <= p2
    ensures DistSq(FramePosition(s, t, p2), t) <= DistSq(FramePosition(s, t, p1), t)
  {
    if p2 >= 1.0 {
      DistSqNonNeg(FramePosition(s, t, p1), t);
      assert DistSq(t, t) == 0.0;
    } else {
      SmoothstepMonotone(p1, p2);
      LerpApproachesEnd(s, t, Smoothstep(p1), Smoothstep(p2));
    }
  }

  /** Across one frame with a non-negative delta and no activation in between, the interpolated point does not move away from the target. */
  lemma FrameApproachesTarget(s: Vec3, t: Vec3, ph: Phase, delta: real, enabled: bool)
    requires delta >= 0.0
    ensures var next := Step(ph, delta, enabled).phase;
            DistSq(FramePosition(s, t, next.progress), t) <= DistSq(FramePosition(s, t, ph.progress), t)
  {
    DistanceNonIncreasing(s, t, ph.progress, Step(ph, delta, enabled).phase.progress);
  }

  /** The animator component: its refs, mutated by the activation effect and by each frame. */
  class TransitionAnimator {
    var targetPos: Vec3
    var targetLookAt: Vec3
    var startPos: Vec3
    var startLookAt: Vec3
    var progress: real
    var isAnimating: bool

    function PhaseOf(): Phase
      reads this
    {
      Phase(progress, isAnimating)
    }

    constructor ()
      ensures PhaseOf() == Phase(0.0, false)
      ensures targetPos == targetLookAt == startPos == startLookAt == Zero
    {
      targetPos, targetLookAt, startPos, startLookAt := Zero, Zero, Zero, Zero;
      progress := 0.0;
      isAnimating := false;
    }

    /**
     * The activation effect. `orbit` is the default controls when they
     * are an orbit rig, and null otherwise.
     */
    method Activate(enabled: bool, startState: Option<CameraState>, targetState: Option<CameraState>,
                    camera: Camera, orbit: OrbitRig?)
      modifies this, camera, orbit
      ensures PhaseOf() == ActivatePhase(old(PhaseOf()), enabled, startState, targetState)
      ensures Activates(enabled, startState, targetState) ==>
                startPos == startState.value.position && startLookAt == startState.value.target &&
                targetPos == targetState.value.position && targetLookAt == targetState.value.target
      ensures !Activates(enabled, startState, targetState) ==>
                startPos == old(startPos) && startLookAt == old(startLookAt) &&
                targetPos == old(targetPos) && targetLookAt == old(targetLookAt)
      // the snap to the start pose happens only when not already animating
      ensures Activates(enabled, startState, targetState) && !old(isAnimating) ==>
                camera.position == startPos &&
                (orbit != null ==> orbit.target == startLookAt && camera.lookAtPoint == old(camera.lookAtPoint)) &&
                (orbit == null ==> camera.lookAtPoint == startLookAt)
      ensures !(Activates(enabled, startState, targetState) && !old(isAnimating)) ==>
                camera.position == old(camera.position) && camera.lookAtPoint == old(camera.lookAtPoint) &&
                (orbit != null ==> orbit.target == old(orbit.target))
      ensures orbit != null ==> orbit.enabled == old(orbit.enabled)
    {
      if enabled && startState.Some? && targetState.Some? {
        startPos := startState.value.position;
        startLookAt := startState.value.target;
        targetPos := targetState.value.position;
        targetLookAt := targetState.value.target;

        if !isAnimating {
          camera.position := startPos;
          if orbit != null {
            orbit.target := startLookAt;
          } else {
            camera.lookAtPoint := startLookAt;
          }
        }
        progress := 0.0;
        isAnimating := true;
      } else {
        isAnimating := false;
      }
    }

    /**
     * One rendered frame. `completed` reports a call of the completion
     * callback. The interpolated look-at goes to the orbit rig when there
     * is one (mid-animation: only if it is enabled), else to `camera.lookAt`.
     */
    method Frame(delta: real, enabled: bool, camera: Camera, orbit: OrbitRig?) returns (completed: bool)
      modifies this`progress, this`isAnimating, camera, orbit
      ensures Step(old(PhaseOf()), delta, enabled) == Tick(PhaseOf(), completed)
      ensures !(old(isAnimating) && enabled) ==>
                camera.position == old(camera.position) && camera.lookAtPoint == old(camera.lookAtPoint) &&
                (orbit != null ==> orbit.target == old(orbit.target))
      ensures old(isAnimating) && enabled ==> camera.position == FramePosition(startPos, targetPos, progress)
      ensures old(isAnimating) && enabled && orbit != null && (progress >= 1.0 || old(orbit.enabled)) ==>
                orbit.target == FramePosition(startLookAt, targetLookAt, progress) &&
                camera.lookAtPoint == old(camera.lookAtPoint)
      ensures old(isAnimating) && enabled && !(orbit != null && (progress >= 1.0 || old(orbit.enabled))) ==>
                camera.lookAtPoint == FramePosition(startLookAt, targetLookAt, progress) &&
                (orbit != null ==> orbit.target == old(orbit.target))
      ensures completed ==> camera.position == targetPos && !isAnimating
      ensures orbit != null ==> orbit.enabled == old(orbit.enabled)
    {
      completed := false;
      if !isAnimating || !enabled {
        return;
      }

      progress := progress + delta * CameraAnimationSpeed;
      var easedProgress := Smoothstep(progress);

      if progress < 1.0 {
        var currentPos := Lerp(startPos, targetPos, easedProgress);
        var currentLookAt := Lerp(startLookAt, targetLookAt, easedProgress);
        camera.position := currentPos;
        if orbit != null && orbit.enabled {
          orbit.target := currentLookAt;
        } else {
          camera.lookAtPoint := currentLookAt;
        }
      } else {
        camera.position := targetPos;
        var finalLookAt := targetLookAt;
        if orbit != null {
          orbit.target := finalLookAt;
        } else {
          camera.lookAtPoint := finalLookAt;
        }
        isAnimating := false;
        completed := true;
      }
    }
  }
}
