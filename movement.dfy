/**
 * Player movement (`usePlayerMovement` in `src/hooks/hooks.tsx`): four
 * held-direction flags driven by key events, and a per-frame update that
 * damps the velocity, accelerates along the held axes, asks the free-roam
 * rig to move and pins the camera to eye height.
 */
module Movement {
  import opened Wrappers
  import opened Vectors
  import opened Config
  import opened Scene

  /** Acceleration along a held axis, in units per second squared. */
  const Speed: real := 40.0
  /** The velocity damping rate: `lerp` towards rest with factor `delta * 10`. */
  const Damping: real := 10.0
  /** The speed at which damping and acceleration balance: `Speed / Damping`. */
  const TerminalSpeed: real := 4.0

  datatype Dir = Forward | Left | Backward | Right

  /** The movement key bindings: arrows and WASD; every other code is unbound. */
  function KeyDirection(code: string): Option<Dir>
  {
    if code == "ArrowUp" || code == "KeyW" then Some(Forward)
    else if code == "ArrowLeft" || code == "KeyA" then Some(Left)
    else if code == "ArrowDown" || code == "KeyS" then Some(Backward)
    else if code == "ArrowRight" || code == "KeyD" then Some(Right)
    else None
  }

  /** The held-direction flags. */
  datatype Keys = Keys(forward: bool, backward: bool, left: bool, right: bool) {

    function Get(d: Dir): bool
    {
      match d
      case Forward => forward
      case Backward => backward
      case Left => left
      case Right => right
    }

    function With(d: Dir, v: bool): (k: Keys)
      ensures k.Get(d) == v
      ensures forall e :: e != d ==> k.Get(e) == Get(e)
    {
      match d
      case Forward => this.(forward := v)
      case Backward => this.(backward := v)
      case Left => this.(left := v)
      case Right => this.(right := v)
    }
  }

  function AfterKeyDown(k: Keys, code: string): Keys
  {
    match KeyDirection(code)
    case Some(d) => k.With(d, true)
    case None => k
  }

  function AfterKeyUp(k: Keys, code: string): Keys
  {
    match KeyDirection(code)
    case Some(d) => k.With(d, false)
    case None => k
  }

  /** Each binding selects its own flag; unbound codes select none. */
  lemma KeyBindings(code: string)
    ensures code == "ArrowUp" || code == "KeyW" <==> KeyDirection(code) == Some(Forward)
    ensures code == "ArrowLeft" || code == "KeyA" <==> KeyDirection(code) == Some(Left)
    ensures code == "ArrowDown" || code == "KeyS" <==> KeyDirection(code) == Some(Backward)
    ensures code == "ArrowRight" || code == "KeyD" <==> KeyDirection(code) == Some(Right)
  {
  }

  /** A key press sets exactly the bound flag and leaves the other three alone. */
  lemma KeyDownSetsExactly(k: Keys, code: string, d: Dir)
    ensures AfterKeyDown(k, code).Get(d) == (k.Get(d) || KeyDirection(code) == Some(d))
  {
  }

  /** A key release clears exactly the bound flag and leaves the other three alone. */
  lemma KeyUpClearsExactly(k: Keys, code: string, d: Dir)
    ensures AfterKeyUp(k, code).Get(d) == (k.Get(d) && KeyDirection(code) != Some(d))
  {
  }

  function Flag(b: bool): int
  {
    if b then 1 else 0
  }

  /** The raw strafe direction: right minus left. */
  function RawX(k: Keys): int
  {
    Flag(k.right) - Flag(k.left)
  }

  /** The raw walk direction: forward minus backward. */
  function RawZ(k: Keys): int
  {
    Flag(k.forward) - Flag(k.backward)
  }

  /** Each raw component is -1, 0 or 1, is 0 exactly when opposite keys agree, and takes the held key's sign. */
  lemma RawDirectionSigns(k: Keys)
    ensures -1 <= RawX(k) <= 1 && -1 <= RawZ(k) <= 1
    ensures RawZ(k) == 0 <==> k.forward == k.backward
    ensures RawX(k) == 0 <==> k.left == k.right
    ensures RawZ(k) == 1 <==> k.forward && !k.backward
    ensures RawX(k) == 1 <==> k.right && !k.left
  {
  }

  /** three.js `normalize()`: divide by the length, or by 1 when the length is 0. */
  function Normalize(x: int, z: int, length: real): Vec3
  {
    var l := if length == 0.0 then 1.0 else length;
    Vec3(x as real / l, 0.0, z as real / l)
  }

  /** Given the true length, each normalised component lies in [-1, 1] and keeps its raw sign. */
  lemma NormalizedBounded(x: int, z: int, length: real)
    requires -1 <= x <= 1 && -1 <= z <= 1
    requires length >= 0.0 && length * length == (x * x + z * z) as real
    ensures var n := Normalize(x, z, length);
            -1.0 <= n.x <= 1.0 && -1.0 <= n.z <= 1.0 && n.y == 0.0 &&
            (x > 0 <==> n.x > 0.0) && (x < 0 <==> n.x < 0.0) &&
            (z > 0 <==> n.z > 0.0) && (z < 0 <==> n.z < 0.0)
  {
    if length == 0.0 {
      assert x * x + z * z == 0;
      assert x * x >= 0 && z * z >= 0;
      assert x == 0 && z == 0;
    } else {
      assert (x * x) as real <= length * length && (z * z) as real <= length * length;
      QuotientInUnitRange(x, length);
      QuotientInUnitRange(z, length);
    }
  }

  lemma QuotientInUnitRange(a: int, l: real)
    requires -1 <= a <= 1 && l > 0.0
    requires (a * a) as real <= l * l
    ensures -1.0 <= a as real / l <= 1.0
    ensures a > 0 <==> a as real / l > 0.0
    ensures a < 0 <==> a as real / l < 0.0
  {
    if a != 0 {
      assert a * a == 1;
      if l < 1.0 {
        MulMono(l, 1.0, l);
        assert false;
      }
      assert (a as real / l) * l == a as real;
    }
  }

  /**
   * One axis of an engaged frame: damp towards rest (`lerp` with factor
   * `delta * 10`), then, when a key of that axis is held, subtract
   * `d * Speed * delta` for the normalised direction component `d`.
   */
  function Accelerate(v: real, held: bool, d: real, delta: real): real
  {
    var damped := LerpScalar(v, 0.0, delta * Damping);
    if held then damped - d * Speed * delta else damped
  }

  /** The velocity after an engaged frame with keys `k` and raw direction length `length`. */
  function EngagedVelocity(v: Vec3, k: Keys, length: real, delta: real): Vec3
  {
    var dir := Normalize(RawX(k), RawZ(k), length);
    Vec3(Accelerate(v.x, k.left || k.right, dir.x, delta),
         LerpScalar(v.y, v.y, delta * Damping),
         Accelerate(v.z, k.forward || k.backward, dir.z, delta))
  }

  /** Damping keeps the vertical component, and an axis changes by acceleration only while one of its keys is held. */
  lemma EngagedVelocityAxes(v: Vec3, k: Keys, length: real, delta: real)
    ensures EngagedVelocity(v, k, length, delta).y == v.y
    ensures !(k.forward || k.backward) ==> EngagedVelocity(v, k, length, delta).z == v.z * (1.0 - delta * Damping)
    ensures !(k.left || k.right) ==> EngagedVelocity(v, k, length, delta).x == v.x * (1.0 - delta * Damping)
  {
  }

  /**
   * With a frame no longer than 1/Damping, a speed within TerminalSpeed
   * (= Speed / Damping) stays within it: walking never exceeds 4 units/s
   * on either axis, well below the 40 units/s acceleration constant.
   */
  lemma AccelerateBounded(v: real, held: bool, d: real, delta: real)
    requires -TerminalSpeed <= v <= TerminalSpeed
    requires -1.0 <= d <= 1.0
    requires 0.0 <= delta && delta * Damping <= 1.0
    ensures -TerminalSpeed <= Accelerate(v, held, d, delta) <= TerminalSpeed
  {
    AccelerateFactored(v, held, d, delta);
    BoundCore(v, d, 1.0 - delta * Damping, Speed * delta);
  }

  /** Accelerate as the damping factor times v, minus the direction times the per-frame acceleration. */
  lemma AccelerateFactored(v: real, held: bool, d: real, delta: real)
    ensures Accelerate(v, held, d, delta)
         == if held then v * (1.0 - delta * Damping) - d * (Speed * delta) else v * (1.0 - delta * Damping)
  {
  }

  lemma BoundCore(v: real, d: real, f: real, a: real)
    requires -4.0 <= v <= 4.0 && -1.0 <= d <= 1.0
    requires f >= 0.0 && a >= 0.0 && 4.0 * f + a == 4.0
    ensures -4.0 <= v * f - d * a <= 4.0
    ensures -4.0 <= v * f <= 4.0
  {
    ProductBounds(v, f, d, a);
    BalancedBound(v * f, d * a, f, a);
  }

  predicate Within(x: real, lo: real, hi: real)
  {
    lo <= x <= hi
  }

  lemma ProductBounds(v: real, f: real, d: real, a: real)
    requires -4.0 <= v <= 4.0 && f >= 0.0 && -1.0 <= d <= 1.0 && a >= 0.0
    ensures Within(v * f, -4.0 * f, 4.0 * f)
    ensures Within(d * a, -a, a)
  {
    MulMono(v, 4.0, f);
    MulMono(-4.0, v, f);
    MulMono(d, 1.0, a);
    MulMono(-1.0, d, a);
  }

  lemma BalancedBound(vf: real, da: real, f: real, a: real)
    requires Within(vf, -4.0 * f, 4.0 * f)
    requires Within(da, -a, a)
    requires f >= 0.0 && a >= 0.0 && 4.0 * f + a == 4.0
    ensures -4.0 <= vf - da <= 4.0
    ensures -4.0 <= vf <= 4.0
  {
  }

  /** Holding only forward, velocity.z closes the gap to -TerminalSpeed by the factor (1 - delta * Damping) each frame. */
  lemma ForwardApproachesTerminal(v: real, delta: real)
    ensures Accelerate(v, true, 1.0, delta) + TerminalSpeed == (v + TerminalSpeed) * (1.0 - delta * Damping)
  {
  }

  /** The engaged-frame velocity keeps both horizontal components within TerminalSpeed. */
  lemma EngagedSpeedBounded(v: Vec3, k: Keys, length: real, delta: real)
    requires -TerminalSpeed <= v.x <= TerminalSpeed && -TerminalSpeed <= v.z <= TerminalSpeed
    requires length >= 0.0 && length * length == (RawX(k) * RawX(k) + RawZ(k) * RawZ(k)) as real
    requires 0.0 <= delta && delta * Damping <= 1.0
    ensures var w := EngagedVelocity(v, k, length, delta);
            -TerminalSpeed <= w.x <= TerminalSpeed && -TerminalSpeed <= w.z <= TerminalSpeed
  {
    RawDirectionSigns(k);
    NormalizedBounded(RawX(k), RawZ(k), length);
    var dir := Normalize(RawX(k), RawZ(k), length);
    AccelerateBounded(v.x, k.left || k.right, dir.x, delta);
    AccelerateBounded(v.z, k.forward || k.backward, dir.z, delta);
  }

  /** The amounts passed to the rig's `moveRight` and `moveForward` in one frame. */
  datatype Moves = Moves(right: real, forward: real)

  /** The rig is asked to move by `-velocity * delta` on each horizontal axis (its forward axis is inverted). */
  function MovesFor(velocity: Vec3, delta: real): Moves
  {
    Moves(-velocity.x * delta, -velocity.z * delta)
  }

  /** The hook's refs: the four flags, the velocity and the normalised direction. */
  class PlayerMovement {
    var moveForward: bool
    var moveBackward: bool
    var moveLeft: bool
    var moveRight: bool
    var velocity: Vec3
    var direction: Vec3

    function Held(): Keys
      reads this
    {
      Keys(moveForward, moveBackward, moveLeft, moveRight)
    }

    constructor ()
      ensures Held() == Keys(false, false, false, false)
      ensures velocity == Zero && direction == Zero
    {
      moveForward, moveBackward, moveLeft, moveRight := false, false, false, false;
      velocity, direction := Zero, Zero;
    }

    method KeyDown(code: string)
      modifies this`moveForward, this`moveBackward, this`moveLeft, this`moveRight
      ensures Held() == AfterKeyDown(old(Held()), code)
    {
      if code == "ArrowUp" || code == "KeyW" {
        moveForward := true;
      } else if code == "ArrowLeft" || code == "KeyA" {
        moveLeft := true;
      } else if code == "ArrowDown" || code == "KeyS" {
        moveBackward := true;
      } else if code == "ArrowRight" || code == "KeyD" {
        moveRight := true;
      }
    }

    method KeyUp(code: string)
      modifies this`moveForward, this`moveBackward, this`moveLeft, this`moveRight
      ensures Held() == AfterKeyUp(old(Held()), code)
    {
      if code == "ArrowUp" || code == "KeyW" {
        moveForward := false;
      } else if code == "ArrowLeft" || code == "KeyA" {
        moveLeft := false;
      } else if code == "ArrowDown" || code == "KeyS" {
        moveBackward := false;
      } else if code == "ArrowRight" || code == "KeyD" {
        moveRight := false;
      }
    }

    /**
     * One frame. `hookLocked` is the hook's argument, `controls` the default
     * controls when they are a free-roam rig (null otherwise), and `length`
     * the Euclidean length of the raw direction, the square root being the
     * host's. `moves` records the rig's two move calls, when they happen.
     */
    method Frame(delta: real, hookLocked: bool, controls: PointerLockRig?, camera: Camera, length: real)
      returns (moves: Option<Moves>)
      requires length >= 0.0
      requires length * length == (RawX(Held()) * RawX(Held()) + RawZ(Held()) * RawZ(Held())) as real
      modifies this`velocity, this`direction, camera
      ensures !(hookLocked && controls != null && controls.isLocked) ==>
                velocity == Scale(0.9, old(velocity)) && direction == old(direction) &&
                moves == None && camera.position == old(camera.position)
      ensures hookLocked && controls != null && controls.isLocked ==>
                direction == Normalize(RawX(Held()), RawZ(Held()), length) &&
                velocity == EngagedVelocity(old(velocity), Held(), length, delta)
      ensures hookLocked && controls != null && controls.isLocked ==>
                moves == Some(MovesFor(velocity, delta))
      ensures hookLocked && controls != null && controls.isLocked ==>
                camera.position.y == PlayerHeight
      ensures camera.lookAtPoint == old(camera.lookAtPoint)
    {
      if !hookLocked || controls == null || !controls.isLocked {
        velocity := Lerp(velocity, Zero, 0.1);
        return None;
      }

      velocity := Lerp(velocity, Vec3(0.0, velocity.y, 0.0), delta * Damping);

      direction := Normalize(RawX(Held()), RawZ(Held()), length);

      if moveForward || moveBackward {
        velocity := velocity.(z := velocity.z - direction.z * Speed * delta);
      }
      if moveLeft || moveRight {
        velocity := velocity.(x := velocity.x - direction.x * Speed * delta);
      }

      moves := Some(MovesFor(velocity, delta));

      camera.position := camera.position.(y := PlayerHeight);
    }
  }
}
