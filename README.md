# Room viewer control logic in Dafny

This project models the discrete control logic of a small 3D room viewer and proves properties about it. In the viewer a visitor walks around a room with a first-person (pointer-lock) camera rig. Aiming at a point of interest (POI) highlights it, and clicking it flies the camera to an inspection pose around the object, where an orbit rig takes over. A back button flies the camera back to where the visitor left the room.

The modules follow the source files:

| file | models |
|---|---|
| `wrappers.dfy` | `Option`, the model's `T \| null`, with `GetOr` for `??` |
| `vectors.dfy` | three-component vectors over `real`; three.js `lerp`/`lerpVectors` and `MathUtils.smoothstep(x, 0, 1)`; the geometric lemmas the animator needs |
| `config.dfy` | the record types of `src/types.ts` and every constant of `src/constants.ts` (room size, eye height, animation speed, the POI catalog, the initial room pose and camera) |
| `scene.dfy` | the objects the core mutates in place: the camera, the orbit rig, the free-roam rig, and scene nodes with their hitbox payload |
| `targeting.dfy` | the hitbox scan, the per-frame target resolution and its debounce, and the `usePoiTargeting` hook |
| `movement.dfy` | the `usePlayerMovement` hook: key bindings, direction signs, velocity damping and acceleration, and the engaged/idle frame branch |
| `animator.dfy` | the transition animator: activation, the eased per-frame step, completion, and termination |
| `view.dfy` | the `Experience` component: mode flags, the three mode handlers, the lock listeners, the click gate, the inlined targeting frame, and the mount conditions |

Each component whose refs or state the source updates in place is a class: `View.Experience`, `Animator.TransitionAnimator`, `Movement.PlayerMovement` and `Targeting.PoiTargeting`.

- Each handler is a method whose `ensures` gives the new state as a pure function of the old one: `View.AfterPoiClick`, `Animator.Step` and the like.
- Lemmas about those functions carry the properties:
  - only four mode combinations are reachable;
  - the two camera rigs are never mounted together;
  - the POI/back round trip returns to the remembered room pose;
  - completion fires exactly once, within ⌈1/(d·2.5)⌉ frames when every frame delta is at least d;
  - the interpolated point stays on the start–target segment and, between activations, never moves away from the target as progress grows;
  - walking speed stays within 4 units/s per axis, provided every frame is at most 0.1 s long (delta·10 ≤ 1).
- Each React handler is one atomic step. React's batching of its `setState` calls is not modelled.
- The camera pose, the look-ahead point and the orbit target are inputs. The raycast result is an input: hitboxes ordered nearest-first, each with an optional POI payload.

Three behaviours of the code worth knowing:

- **Click resolution.** A canvas click acts on the POI payload of the nearest hitbox hit by the centre ray. The code does not look the targeted id up in the catalog, and it does not require a POI to be targeted already (`View.AfterRaycastClick`).
- **Unlock.** The free-roam rig's `unlock` event changes no state, because its `setIsLocked(false)` is commented out. So once set, `isLocked` stays true (`View.LockIsSticky`).
- **Room bounds.** The clamp of the walking position to the room bounds is also commented out, so the model has none.

## Model

| member | source | states |
|---|---|---|
| Vectors.Smoothstep | src/components/TransititionAnimator.tsx:56 | the eased progress lies in [0, 1]; it is 0 at or below 0 and 1 at or above 1 |
| Vectors.SmoothstepMonotone | src/components/TransititionAnimator.tsx:56 | easing is monotone: more progress never gives a smaller eased value |
| Vectors.LerpDistanceToEnd | src/components/TransititionAnimator.tsx:59 | the squared distance from `lerp(a, b, t)` to `b` is (1 − t)² times that from `a` to `b` |
| Vectors.LerpApproachesEnd | src/components/TransititionAnimator.tsx:59 | for 0 ≤ t1 ≤ t2 ≤ 1, `lerp(a, b, t2)` is no farther from `b` than `lerp(a, b, t1)` |
| Config.CatalogShape | src/constants.ts:11-34 | catalog ids are unique; the only live entry is `detail_2`, with cameraTarget [-0.1, 3.66, 1.69] (ROOM_HEIGHT·1.22) and offset [0, -3, 5] |
| Config.InitialRoomViewAtEyeHeight | src/constants.ts:36-46 | the initial room pose is at [0, 1.6, 9] looking at [0, 1.6, 0], both at PLAYER_HEIGHT; INITIAL_CAMERA starts at that position |
| Config.AnimationSpeedPositive | src/constants.ts:8 | CAMERA_ANIMATION_SPEED is positive, which termination relies on |
| Targeting.Hitboxes | src/hooks/hooks.tsx:96-107 | the rebuilt hitbox list holds exactly the scene nodes tagged as POI hitboxes, and is no longer than the scene |
| Targeting.CollectHitboxes | src/hooks/hooks.tsx:98-104 | the traversal loop pushes every tagged node in order and produces exactly `Hitboxes(scene)` |
| Targeting.NextTargetIdCases | src/hooks/hooks.tsx:112-134 | inactive targeting, no hit, or a nearest hit without payload all resolve to null; otherwise the id is the nearest hit's POI id |
| Targeting.SameTargetChangesOnce | src/hooks/hooks.tsx:117-124 | N consecutive frames resolving to the same id fire the setter once if it differs from the held id, otherwise never |
| Targeting.Resolved | src/hooks/hooks.tsx:112-134 | one resolved id per frame, each the `NextTargetId` of that frame |
| Targeting.FireCountIsChangeCount | src/hooks/hooks.tsx:112-134 | the setter calls of a run of frames are exactly the changes in its sequence of resolved ids |
| Targeting.SteadyAimFiresOnce | src/hooks/hooks.tsx:117-124 | a run of active frames whose nearest hit carries the same POI calls the setter once if that POI was not targeted, and never otherwise |
| Targeting.PoiTargeting.constructor | src/hooks/hooks.tsx:92-94 | the hook starts with no target and no hitboxes |
| Targeting.PoiTargeting.RefreshHitboxes | src/hooks/hooks.tsx:96-108 | the hitbox list is the scene's hitboxes while exploring outside a transition, and empty otherwise |
| Targeting.PoiTargeting.Frame | src/hooks/hooks.tsx:112-135 | the frame is one `TargetStep`: the new id is `NextTargetId` of the activity condition and the hits, and the setter fires exactly when it differs from the held id |
| Targeting.PoiTargeting.ModeChanged | src/hooks/hooks.tsx:137-141 | leaving exploration clears the target; otherwise it is kept |
| Animator.StepAdvancesProgress | src/components/TransititionAnimator.tsx:52-58 | an active frame adds exactly `delta · CAMERA_ANIMATION_SPEED` to progress and fires iff the sum reaches 1; an inactive frame changes nothing |
| Animator.IdleRunIsInert | src/components/TransititionAnimator.tsx:53 | once not animating, any run of frames changes nothing and fires nothing |
| Animator.CompletionAtMostOnce | src/components/TransititionAnimator.tsx:71-85 | a run of frames fires completion at most once, and after it fires the animator is idle |
| Animator.CompletesWithin | src/components/TransititionAnimator.tsx:55-58 | with deltas of at least d > 0, an animation whose progress plus n·d·2.5 reaches 1 completes within those n frames, exactly once |
| Animator.FrameBound | src/components/TransititionAnimator.tsx:55 | ⌈1/(d·2.5)⌉ frames of delta d carry progress from 0 to at least 1 |
| Animator.Termination | src/components/TransititionAnimator.tsx:52-86 | from a fresh activation, with deltas of at least d > 0, completion fires exactly once within the first ⌈1/(d·2.5)⌉ frames and never again |
| Animator.RunSplits | src/components/TransititionAnimator.tsx:52-86 | running frames a then b equals running a + b, with the fire counts added |
| Animator.StepKeepsProgressInRange | src/components/TransititionAnimator.tsx:44-58 | with non-negative deltas, an animating phase keeps progress in [0, 1) and progress never decreases |
| Animator.FramePositionOnSegment | src/components/TransititionAnimator.tsx:56-72 | the per-frame camera position (and look-at) lies on the segment from the start to the target |
| Animator.DistanceNonIncreasing | src/components/TransititionAnimator.tsx:56-72 | more progress never leaves the interpolated point farther from the target |
| Animator.FrameApproachesTarget | src/components/TransititionAnimator.tsx:52-86 | across one frame with a non-negative delta and no activation in between, the interpolated point does not move away from the target position |
| Animator.TransitionAnimator.constructor | src/components/TransititionAnimator.tsx:20-25 | refs start at zero vectors, progress 0, not animating |
| Animator.TransitionAnimator.Activate | src/components/TransititionAnimator.tsx:27-50 | enabled with both states: stores the four vectors, progress 0, animating; otherwise stops animating and keeps the vectors; snaps the camera (and the orbit target when there is an orbit rig) to the start only if it was not animating |
| Animator.TransitionAnimator.Frame | src/components/TransititionAnimator.tsx:52-86 | the phase moves as `Step`; an inactive frame touches nothing; the camera sits at `FramePosition`, the look-at goes to the orbit rig or to `camera.lookAt` as the source chooses; completion lands exactly on the target and stops animating |
| Movement.Keys.With | src/hooks/hooks.tsx:34-45 | setting one flag changes that flag to the given value and no other |
| Movement.KeyBindings | src/hooks/hooks.tsx:32-46 | ArrowUp/KeyW, ArrowLeft/KeyA, ArrowDown/KeyS and ArrowRight/KeyD select forward, left, backward and right; no other code selects any flag |
| Movement.KeyDownSetsExactly | src/hooks/hooks.tsx:32-38 | keydown sets exactly the bound flag; the others, and every flag for an unbound code, are unchanged |
| Movement.KeyUpClearsExactly | src/hooks/hooks.tsx:40-46 | keyup clears exactly the bound flag and leaves the others unchanged |
| Movement.RawDirectionSigns | src/hooks/hooks.tsx:67-68 | z = forward − backward and x = right − left lie in {−1, 0, 1}, are 0 exactly when opposite keys agree, and are +1 exactly for the single held positive key |
| Movement.NormalizedBounded | src/hooks/hooks.tsx:69 | the normalised direction has components in [−1, 1] with the raw signs, and y = 0, including the zero vector case |
| Movement.EngagedVelocityAxes | src/hooks/hooks.tsx:65-73 | damping keeps velocity.y; an axis with none of its keys held only decays by (1 − 10·delta) |
| Movement.AccelerateBounded | src/hooks/hooks.tsx:65-73 | for delta ≤ 0.1, a velocity component within ±4 (= 40/10) stays within ±4 after damping and acceleration |
| Movement.ForwardApproachesTerminal | src/hooks/hooks.tsx:65-72 | holding forward alone, the gap between velocity.z and −4 shrinks by the factor (1 − 10·delta) each frame |
| Movement.EngagedSpeedBounded | src/hooks/hooks.tsx:57-82 | an engaged frame keeps both horizontal velocity components within ±4 when they start there and delta ≤ 0.1 |
| Movement.PlayerMovement.constructor | src/hooks/hooks.tsx:23-28 | no flag held; velocity and direction are zero |
| Movement.PlayerMovement.KeyDown | src/hooks/hooks.tsx:32-39 | the held flags become `AfterKeyDown` of the old flags and the code |
| Movement.PlayerMovement.KeyUp | src/hooks/hooks.tsx:40-47 | the held flags become `AfterKeyUp` of the old flags and the code |
| Movement.PlayerMovement.Frame | src/hooks/hooks.tsx:57-82 | not engaged: velocity becomes 0.9·velocity, no move calls, camera untouched; engaged: direction is the normalised raw direction, velocity is `EngagedVelocity`, the rig moves by −velocity·delta on each axis, and camera y is PLAYER_HEIGHT |
| View.InitialIsReachable | src/components/Experience.tsx:18-30 | the initial state is reachable and Exploring, unlocked, with the lock overlay shown |
| View.ApplyPreservesReachable | src/components/Experience.tsx:77-209 | every handler maps a reachable state to a reachable state |
| View.EventsPreserveReachable | src/components/Experience.tsx:77-209 | any sequence of events keeps the state reachable |
| View.ModeFlags | src/components/Experience.tsx:94-128 | in a reachable state the three flags encode exactly one of Exploring, ToPoi, Inspecting, ToRoom; a POI is active exactly in ToPoi and Inspecting |
| View.RigsExclusive | src/components/Experience.tsx:233-291 | the free-roam and orbit rigs are never mounted together and neither is mounted while transitioning; outside a transition exactly one is; exactly one of room and detail is visible; the back button goes with the orbit rig and the POI markers with the free-roam rig |
| View.PoiClickIgnoredWhenBusy | src/components/Experience.tsx:78 | a POI click while transitioning or not exploring changes nothing |
| View.PoiClickEffect | src/components/Experience.tsx:77-102 | an accepted POI click makes the start and the remembered room pose the current pose, targets `cameraTarget + cameraPositionOffset` looking at `cameraTarget`, and enters ToPoi; lock, target and hitboxes unchanged |
| View.BackClickIgnoredWhenBusy | src/components/Experience.tsx:105 | a back click while transitioning or without an active POI changes nothing |
| View.BackClickEffect | src/components/Experience.tsx:104-119 | an accepted back click starts at the current pose looking at the orbit target (else the POI's cameraTarget), targets the remembered room pose, clears the POI, starts the transition and keeps `isExploring` |
| View.CompletionLandsInMode | src/components/Experience.tsx:121-135 | completion clears `isTransitioning` and sets `isExploring` iff no POI is active: ToPoi lands in Inspecting, ToRoom in Exploring |
| View.CompletionOrbitTarget | src/components/Experience.tsx:131 | in reachable states with an active POI the transition target exists and its look-at is the POI's cameraTarget, so the `[0,0,0]` fallback is never taken |
| View.TransitionFeedsAnimator | src/components/Experience.tsx:293-298 | while transitioning both endpoints are set, so the animator's activation animates, towards the POI framing or the remembered room pose |
| View.RoundTrip | src/components/Experience.tsx:77-135 | POI click, completion, back click: the return transition targets exactly the pose the outbound one started from, and completing it resumes exploring |
| View.Detail2Framing | src/components/Experience.tsx:85-92 | clicking `detail_2` sets the transition target to position [-0.1, 0.66, 6.69] looking at [-0.1, 3.66, 1.69] |
| View.ClickActsOnlyWhenGated | src/components/Experience.tsx:161-192 | a raycast click changes state only when exploring, locked, not transitioning with button 0; a gated click whose nearest hit carries a POI is exactly a POI click on it |
| View.LockEvents | src/components/Experience.tsx:144-149 | the lock event sets `isLocked` and nothing else; the unlock event changes nothing |
| View.LockIsSticky | src/components/Experience.tsx:144-149 | once locked, no sequence of events clears `isLocked` |
| View.TargetOnlyWhileExploring | src/components/Experience.tsx:50-73 | a targeting frame leaves a target only while exploring, locked and not transitioning, and clears it otherwise |
| View.HitboxesOnlyWhileExploring | src/components/Experience.tsx:36-48 | the hitbox list is empty unless exploring outside a transition |
| View.Experience.constructor | src/components/Experience.tsx:18-34 | the component starts in the initial state, which is reachable |
| View.Experience.RefreshHitboxes | src/components/Experience.tsx:36-48 | the state becomes `AfterHitboxRefresh` and stays reachable |
| View.Experience.TargetingFrame | src/components/Experience.tsx:50-73 | the state becomes `AfterTargetingFrame`; the inlined branches make the same `TargetStep` as the hook, so the setter fires exactly when the id changes |
| View.Experience.HandlePoiClick | src/components/Experience.tsx:77-102 | the state becomes `AfterPoiClick` and stays reachable; an accepted click unlocks the free-roam rig |
| View.Experience.HandleBackClick | src/components/Experience.tsx:104-119 | the state becomes `AfterBackClick` with the orbit rig's target; an accepted click disables the orbit rig |
| View.Experience.HandleTransitionComplete | src/components/Experience.tsx:121-135 | the state becomes `AfterTransitionComplete`; entering inspection with an orbit rig enables it and aims it at the transition target's look-at (or the origin) |
| View.Experience.HandleLock | src/components/Experience.tsx:144-146 | the state becomes `AfterLock` |
| View.Experience.HandleUnlock | src/components/Experience.tsx:147-149 | the state is unchanged |
| View.Experience.HandleRaycastClick | src/components/Experience.tsx:161-192 | the state becomes `AfterRaycastClick`; the free-roam rig is unlocked exactly when the click changed the state |
| View.Experience.RequestPointerLock | src/components/Experience.tsx:205-209 | the free-roam rig is asked to lock only when exploring, unlocked and not transitioning |

## Left out

- Rendering, lights, shadows, the splat, `Stats`, loaders and the UI components, asset loading (OBJ/MTL), and every three.js internal. This covers the raycaster and its distance sort, `scene.traverse` (the scene is a sequence in traversal order), the quaternion look-ahead, `camera.lookAt` (recorded as `lookAtPoint`), `updateProjectionMatrix` and `OrbitControls.update`.
- IEEE-754 doubles: all arithmetic is on `real`, so nothing is claimed about rounding.
- The square root inside `normalize()`: the engaged movement frame takes the raw direction's length as an input, constrained to be its non-negative square root.
- Movement.PlayerMovement.Frame: the rig's `moveRight`/`moveForward` calls are recorded as the two amounts passed (`Moves`). The resulting x/z translation of the camera, which depends on the camera's orientation, is not modelled. Only the height pin is stated.
- React plumbing: batching of `setState` calls, stale closures, effect-dependency timing, listener registration and removal, and `console.log`. The `gl.domElement.contains` / `request-lock` element test is the boolean input `fromCanvas`.
- Which controls object is the renderer's default at a given moment: the animator and the movement hook receive the orbit rig or the free-roam rig as a nullable argument. They are not derived from the mount conditions.
- Re-activation mid-animation: when the animator is activated again while animating, progress restarts at 0 without a snap to the start. The next frame then interpolates from the stored start, so the camera can jump away from the target. The distance lemmas (`Animator.DistanceNonIncreasing`, `Animator.FrameApproachesTarget`) speak of the interpolated point between two activations, not of the camera across one.
- The browser's pointer-lock handshake: the free-roam rig's `lock()` and `unlock()` are modelled as taking effect immediately. The real rig only requests pointer lock, and its `isLocked` changes when the browser's pointer-lock change event arrives; the browser may refuse. In `View.Experience.RequestPointerLock`, "asked to lock" therefore means only that the request is made, and `View.Experience.HandleLock` is the separate event that sets the component's `isLocked`.
- The orbit rig's `target` prop at mount time (`activePoi.cameraTarget`): mounting is not modelled as an event.
- Commented-out code: the room-bounds clamp in the movement frame, the `detail_1` catalog entry, and `setIsLocked(false)` in the unlock handler.
