/**
 * The view state machine of `src/components/Experience.tsx`: the mode
 * flags (`isExploring`, `isTransitioning`, `activePoi`), pointer-lock
 * state, the targeted POI, the two transition endpoints and the remembered
 * room pose, together with the handlers that move between modes, the click
 * gate, the inlined targeting frame, and the mount conditions of the
 * scene's parts.
 *
 * `ViewState` and the `After…` functions specify the `Experience` class;
 * the lemmas about them state the machine's invariants (only four flag
 * combinations are reachable, the two control rigs are never mounted
 * together) and its round trip.
 */
module View {
  import opened Wrappers
  import opened Vectors
  import opened Config
  import opened Scene
  import opened Targeting
  import Animator

  /** The component's state and refs, as one value. */
  datatype ViewState = ViewState(
    isExploring: bool,
    isTransitioning: bool,
    activePoi: Option<PoiData>,
    isLocked: bool,
    targetedPoiId: Option<string>,
    transitionStartState: Option<CameraState>,
    transitionTargetState: Option<CameraState>,
    lastRoomCameraState: CameraState,
    poiHitboxes: seq<SceneObject>)

  const Initial: ViewState :=
    ViewState(true, false, None, false, None, None, None, InitialRoomViewState, [])

  /** The four modes the three flags encode. */
  datatype Mode = Exploring | ToPoi | Inspecting | ToRoom

  function ModeOf(s: ViewState): Mode
  {
    if s.isTransitioning then (if s.activePoi.Some? then ToPoi else ToRoom)
    else if s.isExploring then Exploring
    else Inspecting
  }

  /** The inspection framing of a POI: the camera sits at `cameraTarget + cameraPositionOffset` and looks at `cameraTarget`. */
  function InspectState(poi: PoiData): CameraState
  {
    CameraState(Add(poi.cameraTarget, poi.cameraPositionOffset), poi.cameraTarget)
  }

  // ---------------------------------------------------------------------
  // Handlers, as functions of the state

  predicate PoiClickAccepted(s: ViewState)
  {
    !s.isTransitioning && s.isExploring
  }

  /** `handlePoiClick(poi)` with the camera at `camPos` looking ahead at `lookAhead`. */
  function AfterPoiClick(s: ViewState, poi: PoiData, camPos: Vec3, lookAhead: Vec3): ViewState
  {
    if !PoiClickAccepted(s) then s
    else
      var roomPose := CameraState(camPos, lookAhead);
      s.(lastRoomCameraState := roomPose,
         transitionStartState := Some(roomPose),
         transitionTargetState := Some(InspectState(poi)),
         isExploring := false,
         activePoi := Some(poi),
         isTransitioning := true)
  }

  predicate BackClickAccepted(s: ViewState)
  {
    !s.isTransitioning && s.activePoi.Some?
  }

  /** `handleBackClick()` with the camera at `camPos`; `orbitTarget` is the orbit rig's target, if the rig exists. */
  function AfterBackClick(s: ViewState, camPos: Vec3, orbitTarget: Option<Vec3>): ViewState
  {
    if !BackClickAccepted(s) then s
    else
      s.(transitionStartState := Some(CameraState(camPos, orbitTarget.GetOr(s.activePoi.value.cameraTarget))),
         transitionTargetState := Some(s.lastRoomCameraState),
         isTransitioning := true,
         activePoi := None)
  }

  /** `handleTransitionComplete()`. */
  function AfterTransitionComplete(s: ViewState): ViewState
  {
    s.(isTransitioning := false, isExploring := s.activePoi.None?)
  }

  /** The free-roam rig's `lock` event. */
  function AfterLock(s: ViewState): ViewState
  {
    s.(isLocked := true)
  }

  /** The free-roam rig's `unlock` event: its handler's only statement is commented out. */
  function AfterUnlock(s: ViewState): ViewState
  {
    s
  }

  /** A canvas click is considered only while exploring, locked, not transitioning, with the primary button. */
  predicate ClickGate(s: ViewState, button: int)
  {
    s.isExploring && s.isLocked && !s.isTransitioning && button == 0
  }

  /**
   * `handleRaycastClick`. `fromCanvas` says the click landed on the canvas
   * or on the lock overlay; `hits` are the scene's POI hitboxes struck by
   * the centre ray, nearest first.
   */
  function AfterRaycastClick(s: ViewState, button: int, fromCanvas: bool, hits: seq<SceneObject>,
                             camPos: Vec3, lookAhead: Vec3): ViewState
  {
    if ClickGate(s, button) && fromCanvas && |hits| > 0 && hits[0].poi.Some?
    then AfterPoiClick(s, hits[0].poi.value, camPos, lookAhead)
    else s
  }

  /** `requestPointerLock` asks the rig to lock only in this state. */
  predicate LockRequestAllowed(s: ViewState)
  {
    s.isExploring && !s.isLocked && !s.isTransitioning
  }

  /** The inlined targeting frame. */
  function AfterTargetingFrame(s: ViewState, hits: seq<SceneObject>): ViewState
  {
    s.(targetedPoiId := NextTargetId(TargetingActive(s.isExploring, s.isLocked, s.isTransitioning, |s.poiHitboxes|), hits))
  }

  /** The hitbox effect: rescan while exploring outside a transition, else empty the list. */
  function AfterHitboxRefresh(s: ViewState, scene: seq<SceneObject>): ViewState
  {
    s.(poiHitboxes := if s.isExploring && !s.isTransitioning then Hitboxes(scene) else [])
  }

  // ---------------------------------------------------------------------
  // Mount and visibility conditions of the rendered scene

  /** The room group is visible while exploring or while heading back to it. */
  predicate RoomVisible(s: ViewState) { s.isExploring || (s.isTransitioning && s.activePoi.None?) }

  /** POI markers (with their hitboxes) are mounted while exploring outside a transition. */
  predicate PoiMarkersMounted(s: ViewState) { s.isExploring && !s.isTransitioning }

  /** The detail group is visible whenever a POI is active. */
  predicate DetailVisible(s: ViewState) { s.activePoi.Some? || (s.isTransitioning && s.activePoi.Some?) }

  /** The back button exists while a POI is active and no transition runs. */
  predicate BackButtonMounted(s: ViewState) { s.activePoi.Some? && !s.isTransitioning }

  predicate PointerLockMounted(s: ViewState) { s.isExploring && !s.isTransitioning && s.activePoi.None? }

  predicate OrbitMounted(s: ViewState) { !s.isExploring && !s.isTransitioning && s.activePoi.Some? }

  /** The "click to look around" overlay. */
  predicate LockOverlayMounted(s: ViewState)
  {
    s.isExploring && !s.isLocked && !s.isTransitioning && s.activePoi.None?
  }

  // ---------------------------------------------------------------------
  // Reachable states

  /**
   * The states the handlers can reach from `Initial`: exploring excludes a
   * transition and an active POI; outside exploration and transition a POI
   * is active; a transition always has both endpoints; while a POI is
   * active the endpoints are the remembered room pose and the POI's
   * inspection framing; heading back, the target is the remembered room pose.
   */
  predicate Reachable(s: ViewState)
  {
    && (s.isExploring ==> !s.isTransitioning && s.activePoi.None?)
    && (!s.isExploring && !s.isTransitioning ==> s.activePoi.Some?)
    && (s.isTransitioning ==> s.transitionStartState.Some? && s.transitionTargetState.Some?)
    && (s.activePoi.Some? ==>
          s.transitionStartState == Some(s.lastRoomCameraState) &&
          s.transitionTargetState == Some(InspectState(s.activePoi.value)))
    && (s.isTransitioning && s.activePoi.None? ==> s.transitionTargetState == Some(s.lastRoomCameraState))
  }

  /** Every event the component reacts to. */
  datatype Event =
    | PoiClicked(poi: PoiData, camPos: Vec3, lookAhead: Vec3)
    | BackClicked(camPos: Vec3, orbitTarget: Option<Vec3>)
    | TransitionCompleted
    | Locked
    | Unlocked
    | RaycastClicked(button: int, fromCanvas: bool, hits: seq<SceneObject>, camPos: Vec3, lookAhead: Vec3)
    | TargetingTick(hits: seq<SceneObject>)
    | HitboxRefresh(scene: seq<SceneObject>)

  function Apply(s: ViewState, e: Event): ViewState
  {
    match e
    case PoiClicked(poi, camPos, lookAhead) => AfterPoiClick(s, poi, camPos, lookAhead)
    case BackClicked(camPos, orbitTarget) => AfterBackClick(s, camPos, orbitTarget)
    case TransitionCompleted => AfterTransitionComplete(s)
    case Locked => AfterLock(s)
    case Unlocked => AfterUnlock(s)
    case RaycastClicked(button, fromCanvas, hits, camPos, lookAhead) =>
      AfterRaycastClick(s, button, fromCanvas, hits, camPos, lookAhead)
    case TargetingTick(hits) => AfterTargetingFrame(s, hits)
    case HitboxRefresh(scene) => AfterHitboxRefresh(s, scene)
  }

  function RunEvents(s: ViewState, events: seq<Event>): ViewState
    decreases |events|
  {
    if events == [] then s else RunEvents(Apply(s, events[0]), events[1..])
  }

  lemma InitialIsReachable()
    ensures Reachable(Initial) && ModeOf(Initial) == Exploring
    ensures !Initial.isLocked && LockOverlayMounted(Initial)
  {
  }

  /** Every handler keeps the state reachable. */
  lemma ApplyPreservesReachable(s: ViewState, e: Event)
    requires Reachable(s)
    ensures Reachable(Apply(s, e))
  {
    match e
    case RaycastClicked(button, fromCanvas, hits, camPos, lookAhead) =>
      if ClickGate(s, button) && fromCanvas && |hits| > 0 && hits[0].poi.Some? {
        assert Apply(s, e) == AfterPoiClick(s, hits[0].poi.value, camPos, lookAhead);
      }
    case _ =>
  }

  /** Whatever the event sequence, the machine stays in a reachable state. */
  lemma {:induction false} EventsPreserveReachable(s: ViewState, events: seq<Event>)
    requires Reachable(s)
    ensures Reachable(RunEvents(s, events))
    decreases |events|
  {
    if events != [] {
      ApplyPreservesReachable(s, events[0]);
      EventsPreserveReachable(Apply(s, events[0]), events[1..]);
    }
  }

  /** In a reachable state the flags encode exactly one of the four modes, and a POI is active exactly in ToPoi and Inspecting. */
  lemma ModeFlags(s: ViewState)
    requires Reachable(s)
    ensures ModeOf(s) == Exploring <==> s.isExploring
    ensures ModeOf(s) == Inspecting <==> !s.isExploring && !s.isTransitioning
    ensures ModeOf(s) == ToPoi <==> s.isTransitioning && s.activePoi.Some?
    ensures ModeOf(s) == ToRoom <==> s.isTransitioning && s.activePoi.None?
    ensures s.activePoi.Some? <==> ModeOf(s) == ToPoi || ModeOf(s) == Inspecting
  {
  }

  /**
   * The free-roam rig and the orbit rig are never mounted together; outside
   * a transition exactly one of them is, and during one neither is. Exactly
   * one of the room and the detail object is visible.
   */
  lemma RigsExclusive(s: ViewState)
    requires Reachable(s)
    ensures !(PointerLockMounted(s) && OrbitMounted(s))
    ensures s.isTransitioning ==> !PointerLockMounted(s) && !OrbitMounted(s)
    ensures !s.isTransitioning ==> PointerLockMounted(s) != OrbitMounted(s)
    ensures PointerLockMounted(s) <==> ModeOf(s) == Exploring
    ensures OrbitMounted(s) <==> ModeOf(s) == Inspecting
    ensures RoomVisible(s) != DetailVisible(s)
    ensures BackButtonMounted(s) <==> OrbitMounted(s)
    ensures PoiMarkersMounted(s) <==> PointerLockMounted(s)
  {
  }

  /** A POI click while transitioning or not exploring changes nothing. */
  lemma PoiClickIgnoredWhenBusy(s: ViewState, poi: PoiData, camPos: Vec3, lookAhead: Vec3)
    requires s.isTransitioning || !s.isExploring
    ensures AfterPoiClick(s, poi, camPos, lookAhead) == s
  {
  }

  /**
   * An accepted POI click remembers the current pose as the room pose and
   * as the transition's start, targets the POI's inspection framing, and
   * enters ToPoi; pointer-lock, targeting and hitboxes are untouched.
   */
  lemma PoiClickEffect(s: ViewState, poi: PoiData, camPos: Vec3, lookAhead: Vec3)
    requires PoiClickAccepted(s)
    ensures var r := AfterPoiClick(s, poi, camPos, lookAhead);
            r.transitionStartState == Some(CameraState(camPos, lookAhead)) &&
            r.lastRoomCameraState == CameraState(camPos, lookAhead) &&
            r.transitionTargetState == Some(CameraState(Add(poi.cameraTarget, poi.cameraPositionOffset), poi.cameraTarget)) &&
            !r.isExploring && r.isTransitioning && r.activePoi == Some(poi) &&
            r.isLocked == s.isLocked && r.targetedPoiId == s.targetedPoiId && r.poiHitboxes == s.poiHitboxes
  {
  }

  /** A back click while transitioning or with no active POI changes nothing. */
  lemma BackClickIgnoredWhenBusy(s: ViewState, camPos: Vec3, orbitTarget: Option<Vec3>)
    requires s.isTransitioning || s.activePoi.None?
    ensures AfterBackClick(s, camPos, orbitTarget) == s
  {
  }

  /**
   * An accepted back click starts from the current pose, looking at the
   * orbit target or, without a rig, at the POI's `cameraTarget`; it targets
   * the remembered room pose, clears the active POI, starts the transition
   * and leaves `isExploring` and the remembered pose as they were.
   */
  lemma BackClickEffect(s: ViewState, camPos: Vec3, orbitTarget: Option<Vec3>)
    requires BackClickAccepted(s)
    ensures var r := AfterBackClick(s, camPos, orbitTarget);
            r.transitionStartState == Some(CameraState(camPos,
              if orbitTarget.Some? then orbitTarget.value else s.activePoi.value.cameraTarget)) &&
            r.transitionTargetState == Some(s.lastRoomCameraState) &&
            r.activePoi == None && r.isTransitioning && r.isExploring == s.isExploring &&
            r.lastRoomCameraState == s.lastRoomCameraState
  {
  }

  /**
   * Completion always ends the transition and resumes exploring exactly
   * when no POI is active; from ToPoi it lands in Inspecting and from
   * ToRoom in Exploring.
   */
  lemma CompletionLandsInMode(s: ViewState)
    requires Reachable(s)
    ensures !AfterTransitionComplete(s).isTransitioning
    ensures AfterTransitionComplete(s).isExploring <==> s.activePoi.None?
    ensures ModeOf(s) == ToPoi ==> ModeOf(AfterTransitionComplete(s)) == Inspecting
    ensures ModeOf(s) == ToRoom ==> ModeOf(AfterTransitionComplete(s)) == Exploring
    ensures !s.isTransitioning ==> AfterTransitionComplete(s) == s
  {
  }

  /**
   * In a reachable state with an active POI, the completion handler's
   * orbit target `transitionTargetState?.target || [0,0,0]` is always the
   * POI's `cameraTarget`: the `[0,0,0]` fallback is never taken.
   */
  lemma CompletionOrbitTarget(s: ViewState)
    requires Reachable(s) && s.activePoi.Some?
    ensures s.transitionTargetState.Some?
    ensures s.transitionTargetState.value.target == s.activePoi.value.cameraTarget
  {
  }

  /** Whenever a transition runs, the animator receives both endpoints, so activation animates. */
  lemma TransitionFeedsAnimator(s: ViewState)
    requires Reachable(s) && s.isTransitioning
    ensures Animator.Activates(s.isTransitioning, s.transitionStartState, s.transitionTargetState)
    ensures ModeOf(s) == ToPoi ==> s.transitionTargetState == Some(InspectState(s.activePoi.value))
    ensures ModeOf(s) == ToRoom ==> s.transitionTargetState == Some(s.lastRoomCameraState)
  {
  }

  /**
   * Round trip: click a POI, let the transition complete, click back. The
   * return transition targets exactly the pose the outbound transition
   * started from, and completing it resumes exploring.
   */
  lemma RoundTrip(s: ViewState, poi: PoiData, camPos: Vec3, lookAhead: Vec3, detailPos: Vec3, orbitTarget: Option<Vec3>)
    requires Reachable(s) && ModeOf(s) == Exploring
    ensures var s1 := AfterPoiClick(s, poi, camPos, lookAhead);
            var s2 := AfterTransitionComplete(s1);
            var s3 := AfterBackClick(s2, detailPos, orbitTarget);
            ModeOf(s2) == Inspecting &&
            s3.transitionTargetState == s1.transitionStartState &&
            ModeOf(s3) == ToRoom &&
            ModeOf(AfterTransitionComplete(s3)) == Exploring
  {
  }

  /** The catalog's `detail_2` entry frames the inspection camera at [-0.1, 0.66, 6.69] looking at [-0.1, 3.66, 1.69]. */
  lemma Detail2Framing(s: ViewState, camPos: Vec3, lookAhead: Vec3)
    requires PoiClickAccepted(s)
    ensures AfterPoiClick(s, Detail2, camPos, lookAhead).transitionTargetState
            == Some(CameraState(Vec3(-0.1, 0.66, 6.69), Vec3(-0.1, 3.66, 1.69)))
  {
  }

  /**
   * The click gate: a raycast click changes the state only when exploring,
   * locked, not transitioning and with button 0; when it passes and the
   * nearest hit carries a POI, it is exactly a POI click on that POI.
   */
  lemma ClickActsOnlyWhenGated(s: ViewState, button: int, fromCanvas: bool, hits: seq<SceneObject>, camPos: Vec3, lookAhead: Vec3)
    ensures AfterRaycastClick(s, button, fromCanvas, hits, camPos, lookAhead) != s ==> ClickGate(s, button)
    ensures ClickGate(s, button) && fromCanvas && |hits| > 0 && hits[0].poi.Some? ==>
              AfterRaycastClick(s, button, fromCanvas, hits, camPos, lookAhead)
              == AfterPoiClick(s, hits[0].poi.value, camPos, lookAhead) &&
              ModeOf(AfterRaycastClick(s, button, fromCanvas, hits, camPos, lookAhead)) == ToPoi
  {
  }

  /** The lock event sets `isLocked`; the unlock event changes nothing. */
  lemma LockEvents(s: ViewState)
    ensures AfterLock(s).isLocked && AfterLock(s).(isLocked := s.isLocked) == s
    ensures AfterUnlock(s) == s
  {
  }

  /** Once set, `isLocked` stays set whatever happens next: no handler ever clears it. */
  lemma {:induction false} LockIsSticky(s: ViewState, events: seq<Event>)
    requires s.isLocked
    ensures RunEvents(s, events).isLocked
    decreases |events|
  {
    if events != [] {
      var e := events[0];
      assert Apply(s, e).isLocked by {
        match e
        case RaycastClicked(button, fromCanvas, hits, camPos, lookAhead) =>
        case _ =>
      }
      LockIsSticky(Apply(s, e), events[1..]);
    }
  }

  /** A targeting frame can leave a target only while exploring, locked and outside a transition. */
  lemma TargetOnlyWhileExploring(s: ViewState, hits: seq<SceneObject>)
    ensures AfterTargetingFrame(s, hits).targetedPoiId.Some? ==> s.isExploring && s.isLocked && !s.isTransitioning
    ensures !(s.isExploring && s.isLocked && !s.isTransitioning) ==> AfterTargetingFrame(s, hits).targetedPoiId == None
  {
  }

  /** The hitbox list is empty unless exploring outside a transition. */
  lemma HitboxesOnlyWhileExploring(s: ViewState, scene: seq<SceneObject>)
    ensures AfterHitboxRefresh(s, scene).poiHitboxes != [] ==> s.isExploring && !s.isTransitioning
  {
  }

  // ---------------------------------------------------------------------
  // The component

  class Experience {
    var isExploring: bool
    var isTransitioning: bool
    var activePoi: Option<PoiData>
    var isLocked: bool
    var targetedPoiId: Option<string>
    var transitionStartState: Option<CameraState>
    var transitionTargetState: Option<CameraState>
    var lastRoomCameraState: CameraState
    var poiHitboxes: seq<SceneObject>

    function State(): ViewState
      reads this
    {
      ViewState(isExploring, isTransitioning, activePoi, isLocked, targetedPoiId,
                transitionStartState, transitionTargetState, lastRoomCameraState, poiHitboxes)
    }

    ghost predicate Valid()
      reads this
    {
      Reachable(State())
    }

    constructor ()
      ensures State() == Initial && Valid()
    {
      isExploring := true;
      isTransitioning := false;
      activePoi := None;
      isLocked := false;
      targetedPoiId := None;
      transitionStartState := None;
      transitionTargetState := None;
      lastRoomCameraState := InitialRoomViewState;
      poiHitboxes := [];
    }

    /** The hitbox effect; the traversal is `CollectHitboxes`. */
    method RefreshHitboxes(scene: seq<SceneObject>)
      requires Valid()
      modifies this
      ensures State() == AfterHitboxRefresh(old(State()), scene) && Valid()
    {
      if isExploring && !isTransitioning {
        poiHitboxes := CollectHitboxes(scene);
      } else {
        poiHitboxes := [];
      }
    }

    /** The inlined targeting frame; `fired` reports a `setTargetedPoiId` call. */
    method TargetingFrame(hits: seq<SceneObject>) returns (fired: bool)
      requires Valid()
      modifies this
      ensures State() == AfterTargetingFrame(old(State()), hits) && Valid()
      ensures TargetStep(old(targetedPoiId), FrameInput(TargetingActive(old(isExploring), old(isLocked), old(isTransitioning), |old(poiHitboxes)|), hits))
              == TargetTick(targetedPoiId, fired)
    {
      fired := false;
      if isExploring && isLocked && !isTransitioning && |poiHitboxes| > 0 {
        if |hits| > 0 {
          var hitPoi := hits[0].poi;
          if hitPoi.Some? && Some(hitPoi.value.id) != targetedPoiId {
            targetedPoiId := Some(hitPoi.value.id);
            fired := true;
          } else if hitPoi.None? && targetedPoiId != None {
            targetedPoiId := None;
            fired := true;
          }
        } else if targetedPoiId != None {
          targetedPoiId := None;
          fired := true;
        }
      } else if targetedPoiId != None {
        targetedPoiId := None;
        fired := true;
      }
    }

    /**
     * `handlePoiClick`. `controls` is the free-roam rig when mounted; an
     * accepted click unlocks it if it was locked.
     */
    method HandlePoiClick(poi: PoiData, camPos: Vec3, lookAhead: Vec3, controls: PointerLockRig?)
      requires Valid()
      modifies this, controls
      ensures State() == AfterPoiClick(old(State()), poi, camPos, lookAhead) && Valid()
      ensures controls != null ==> controls.isLocked == (old(controls.isLocked) && !PoiClickAccepted(old(State())))
    {
      if isTransitioning || !isExploring {
        return;
      }

      lastRoomCameraState := CameraState(camPos, lookAhead);
      transitionStartState := Some(lastRoomCameraState);

      var detailCamPos := Add(poi.cameraTarget, poi.cameraPositionOffset);
      transitionTargetState := Some(CameraState(detailCamPos, poi.cameraTarget));

      isExploring := false;
      activePoi := Some(poi);
      isTransitioning := true;

      if controls != null && controls.isLocked {
        controls.isLocked := false;
      }
    }

    /**
     * `handleBackClick`. `orbit` is the orbit rig when mounted; an accepted
     * click disables it and reads its target as the start look-at point.
     */
    method HandleBackClick(camPos: Vec3, orbit: OrbitRig?)
      requires Valid()
      modifies this, orbit
      ensures State() == AfterBackClick(old(State()), camPos, if orbit != null then Some(old(orbit.target)) else None)
      ensures Valid()
      ensures orbit != null ==> orbit.target == old(orbit.target)
      ensures orbit != null ==> orbit.enabled == (old(orbit.enabled) && !BackClickAccepted(old(State())))
    {
      if isTransitioning || activePoi.None? {
        return;
      }

      if orbit != null {
        orbit.enabled := false;
      }

      var detailTarget := if orbit != null then orbit.target else activePoi.value.cameraTarget;
      transitionStartState := Some(CameraState(camPos, detailTarget));
      transitionTargetState := Some(lastRoomCameraState);

      isTransitioning := true;
      activePoi := None;
    }

    /**
     * `handleTransitionComplete`. Entering inspection with an orbit rig
     * present re-enables it, aimed at the transition target's look-at
     * point (or the origin when there is no target state).
     */
    method HandleTransitionComplete(orbit: OrbitRig?)
      requires Valid()
      modifies this, orbit
      ensures State() == AfterTransitionComplete(old(State())) && Valid()
      ensures orbit != null && old(activePoi).Some? ==>
                orbit.enabled &&
                orbit.target == (if old(transitionTargetState).Some? then old(transitionTargetState).value.target else Zero)
      ensures orbit != null && old(activePoi).None? ==>
                orbit.enabled == old(orbit.enabled) && orbit.target == old(orbit.target)
    {
      isTransitioning := false;
      var isNowExploring := activePoi.None?;

      if isNowExploring {
        isExploring := true;
      } else {
        isExploring := false;
        if orbit != null {
          orbit.enabled := true;
          orbit.target := if transitionTargetState.Some? then transitionTargetState.value.target else Zero;
        }
      }
    }

    method HandleLock()
      requires Valid()
      modifies this
      ensures State() == AfterLock(old(State())) && Valid()
    {
      isLocked := true;
    }

    method HandleUnlock()
      requires Valid()
      ensures State() == AfterUnlock(old(State()))
    {
    }

    /** `handleRaycastClick`: the gate, then a POI click on the nearest hit's POI, if it carries one. */
    method HandleRaycastClick(button: int, fromCanvas: bool, hits: seq<SceneObject>,
                              camPos: Vec3, lookAhead: Vec3, controls: PointerLockRig?)
      requires Valid()
      modifies this, controls
      ensures State() == AfterRaycastClick(old(State()), button, fromCanvas, hits, camPos, lookAhead) && Valid()
      ensures controls != null ==>
                controls.isLocked == (old(controls.isLocked) && State() == old(State()))
    {
      if !isExploring || !isLocked || isTransitioning || button != 0 {
        return;
      }
      if !fromCanvas {
        return;
      }
      if |hits| > 0 {
        var hitPoi := hits[0].poi;
        if hitPoi.Some? {
          HandlePoiClick(hitPoi.value, camPos, lookAhead, controls);
        }
      }
    }

    /** `requestPointerLock`: asks the free-roam rig to lock, only when allowed. */
    method RequestPointerLock(controls: PointerLockRig?)
      modifies controls
      ensures controls != null ==> controls.isLocked == (old(controls.isLocked) || LockRequestAllowed(State()))
    {
      if isExploring && !isLocked && !isTransitioning && controls != null {
        controls.isLocked := true;
      }
    }
  }
}
