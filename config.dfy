/**
 * The record shapes of `src/types.ts` and the constants of
 * `src/constants.ts`: room dimensions, eye height, animation speed, the
 * point-of-interest catalog and the initial room camera.
 */
module Config {
  import opened Vectors

  /** A camera pose: where the camera is and what it looks at (or orbits). */
  datatype CameraState = CameraState(position: Vec3, target: Vec3)

  /** An inspectable object; `objUrl`/`mtlUrl` are opaque asset references. */
  datatype PoiData = PoiData(
    id: string,
    name: string,
    position: Vec3,
    objUrl: string,
    mtlUrl: string,
    cameraTarget: Vec3,
    cameraPositionOffset: Vec3,
    scale: real,
    rotation: Vec3)

  /** The subset of the renderer's camera properties the viewer sets. */
  datatype CameraProps = CameraProps(fov: real, near: real, far: real, position: Vec3)

  const RoomWidth: real := 5.0
  const RoomDepth: real := 20.0
  const RoomHeight: real := 3.0
  const PlayerHeight: real := 1.6
  const CameraAnimationSpeed: real := 2.5
  const PoiHitboxRadius: real := 0.3

  /** The one live catalog entry (an earlier `detail_1` entry is commented out in the source). */
  const Detail2: PoiData := PoiData(
    "detail_2",
    "Shield",
    Vec3(0.0, 0.0, 0.0),
    "/details/Shield/shield3.obj",
    "/details/Shield/shield3.mtl",
    Vec3(-0.1, RoomHeight * 1.22, 1.69),
    Vec3(0.0, -3.0, 5.0),
    1.0,
    Vec3(0.0, 0.0, 0.0))

  const PointsOfInterest: seq<PoiData> := [Detail2]

  const InitialRoomViewState: CameraState :=
    CameraState(Vec3(0.0, PlayerHeight, RoomDepth / 2.0 - 1.0), Vec3(0.0, PlayerHeight, 0.0))

  const InitialCamera: CameraProps := CameraProps(75.0, 0.1, 100.0, InitialRoomViewState.position)

  /** No two catalog entries share an id. */
  predicate IdsUnique(catalog: seq<PoiData>)
  {
    forall i, j :: 0 <= i < j < |catalog| ==> catalog[i].id != catalog[j].id
  }

  /** The catalog's ids are unique and its only entry is `detail_2`, framed at [-0.1, 3.66, 1.69]. */
  lemma CatalogShape()
    ensures IdsUnique(PointsOfInterest)
    ensures |PointsOfInterest| == 1 && PointsOfInterest[0].id == "detail_2"
    ensures PointsOfInterest[0].cameraTarget == Vec3(-0.1, 3.66, 1.69)
    ensures PointsOfInterest[0].cameraPositionOffset == Vec3(0.0, -3.0, 5.0)
  {
  }

  /** The room starts one unit inside the back wall, at eye height, looking at the room's centre at eye height. */
  lemma InitialRoomViewAtEyeHeight()
    ensures InitialRoomViewState.position == Vec3(0.0, 1.6, 9.0)
    ensures InitialRoomViewState.target == Vec3(0.0, 1.6, 0.0)
    ensures InitialRoomViewState.position.y == PlayerHeight == InitialRoomViewState.target.y
    ensures InitialCamera.position == InitialRoomViewState.position
  {
  }

  /** The animation speed is positive, which the animator's termination argument relies on. */
  lemma AnimationSpeedPositive()
    ensures CameraAnimationSpeed > 0.0
  {
  }
}
