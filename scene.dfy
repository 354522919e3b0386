/**
 * The three.js objects the core mutates in place: the camera, the orbit
 * rig (`OrbitControls`) and the free-roam rig (`PointerLockControls`), and
 * the scene nodes a raycast can strike. Only the fields the core reads or
 * writes are kept.
 */
module Scene {
  import opened Wrappers
  import opened Vectors
  import opened Config

  /**
   * The active camera. `lookAtPoint` records the argument of the last
   * `camera.lookAt` call; the camera's orientation itself is not modelled.
   */
  class Camera {
    var position: Vec3
    var lookAtPoint: Vec3

    constructor (position: Vec3, lookAtPoint: Vec3)
      ensures this.position == position && this.lookAtPoint == lookAtPoint
    {
      this.position := position;
      this.lookAtPoint := lookAtPoint;
    }
  }

  /** The orbit rig: a mutable orbit `target` and an `enabled` switch. */
  class OrbitRig {
    var enabled: bool
    var target: Vec3

    constructor (target: Vec3)
      ensures enabled && this.target == target
    {
      enabled := true;
      this.target := target;
    }
  }

  /** The free-roam rig; `lock()` and `unlock()` are modelled as flipping `isLocked` at once. */
  class PointerLockRig {
    var isLocked: bool

    constructor ()
      ensures !isLocked
    {
      isLocked := false;
    }
  }

  /**
   * A node of the scene graph as the core sees it: its `userData`, which
   * marks POI hitboxes and may carry the POI it stands for.
   */
  datatype SceneObject = SceneObject(isPoiHitbox: bool, poi: Option<PoiData>)
}
