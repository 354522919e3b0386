/**
 * POI targeting: which point of interest the centre of the view is aimed
 * at. Covers the hitbox scan (`scene.traverse` collecting nodes tagged as
 * POI hitboxes), the per-frame resolution of the nearest hit to an id, the
 * value-level debounce of the targeted-id state, and the `usePoiTargeting`
 * hook of `src/hooks/hooks.tsx`. The raycast itself is external: a frame
 * receives the struck hitboxes ordered nearest-first.
 */
module Targeting {
  import opened Wrappers
  import opened Scene
  import Config

  /** The POI hitboxes of a scene, in traversal order. */
  function Hitboxes(scene: seq<SceneObject>): (r: seq<SceneObject>)
    ensures |r| <= |scene|
    ensures forall o :: o in r ==> o in scene && o.isPoiHitbox
    ensures forall o :: o in scene && o.isPoiHitbox ==> o in r
  {
    if scene == [] then []
    else
      var last := scene[|scene| - 1];
      Hitboxes(scene[..|scene| - 1]) + (if last.isPoiHitbox then [last] else [])
  }

  /** The traversal that rebuilds the hitbox list: push every node tagged as a POI hitbox. */
  method CollectHitboxes(scene: seq<SceneObject>) returns (hitboxes: seq<SceneObject>)
    ensures hitboxes == Hitboxes(scene)
  {
    hitboxes := [];
    var i := 0;
    while i < |scene|
      invariant 0 <= i <= |scene|
      invariant hitboxes == Hitboxes(scene[..i])
    {
      assert scene[..i + 1][..i] == scene[..i];
      if scene[i].isPoiHitbox {
        hitboxes := hitboxes + [scene[i]];
      }
      i := i + 1;
    }
    assert scene[..i] == scene;
  }

  /** Targeting runs only while exploring with the pointer locked, outside a transition, with hitboxes registered. */
  predicate TargetingActive(isExploring: bool, isLocked: bool, isTransitioning: bool, hitboxCount: nat)
  {
    isExploring && isLocked && !isTransitioning && hitboxCount > 0
  }

  /**
   * The id a targeting frame resolves to: the nearest hit's POI id; null
   * when targeting is inactive, nothing is hit, or the nearest hit carries
   * no POI payload.
   */
  function NextTargetId(active: bool, hits: seq<SceneObject>): Option<string>
  {
    if active && |hits| > 0 && hits[0].poi.Some? then Some(hits[0].poi.value.id) else None
  }

  /** The four outcomes of a targeting frame. */
  lemma NextTargetIdCases(active: bool, hits: seq<SceneObject>)
    ensures !active ==> NextTargetId(active, hits) == None
    ensures active && hits == [] ==> NextTargetId(active, hits) == None
    ensures active && hits != [] && hits[0].poi.None? ==> NextTargetId(active, hits) == None
    ensures active && hits != [] && hits[0].poi.Some?
            ==> NextTargetId(active, hits) == Some(hits[0].poi.value.id)
  {
  }

  /**
   * How many times the targeted-id setter fires over consecutive frames
   * resolving to `frames`, starting from `current`: once per frame whose id
   * differs from the id held before it.
   */
  function ChangeCount(current: Option<string>, frames: seq<Option<string>>): nat
    decreases |frames|
  {
    if frames == [] then 0
    else (if frames[0] != current then 1 else 0) + ChangeCount(frames[0], frames[1..])
  }

  /** Debounce: N frames resolving to the same id change the state exactly once if that id differs from the held one, and never otherwise. */
  lemma {:induction false} SameTargetChangesOnce(current: Option<string>, frames: seq<Option<string>>, id: Option<string>)
    requires forall k :: 0 <= k < |frames| ==> frames[k] == id
    ensures ChangeCount(current, frames) == if frames != [] && current != id then 1 else 0
    decreases |frames|
  {
    if frames != [] {
      SameTargetChangesOnce(id, frames[1..], id);
    }
  }

  /** What one targeting frame sees: whether targeting is active, and the struck hitboxes, nearest first. */
  datatype FrameInput = FrameInput(active: bool, hits: seq<SceneObject>)

  /** The held id after a frame, and whether the frame called the setter. */
  datatype TargetTick = TargetTick(id: Option<string>, fired: bool)

  /** One frame of the debounced update: resolve the id, and call the setter only if it differs from the held one. */
  function TargetStep(current: Option<string>, f: FrameInput): TargetTick
  {
    var next := NextTargetId(f.active, f.hits);
    if next != current then TargetTick(next, true) else TargetTick(current, false)
  }

  /** The ids a run of frames resolves to, frame by frame. */
  function Resolved(frames: seq<FrameInput>): (ids: seq<Option<string>>)
    ensures |ids| == |frames|
    ensures forall k :: 0 <= k < |frames| ==> ids[k] == NextTargetId(frames[k].active, frames[k].hits)
    decreases |frames|
  {
    if frames == [] then []
    else [NextTargetId(frames[0].active, frames[0].hits)] + Resolved(frames[1..])
  }

  /** How many setter calls a run of frames makes, starting from the held id `current`. */
  function FireCount(current: Option<string>, frames: seq<FrameInput>): nat
    decreases |frames|
  {
    if frames == [] then 0
    else
      var t := TargetStep(current, frames[0]);
      (if t.fired then 1 else 0) + FireCount(t.id, frames[1..])
  }

  /** The setter calls of a run of frames are exactly the changes in the sequence of resolved ids. */
  lemma {:induction false} FireCountIsChangeCount(current: Option<string>, frames: seq<FrameInput>)
    ensures FireCount(current, frames) == ChangeCount(current, Resolved(frames))
    decreases |frames|
  {
    if frames != [] {
      var t := TargetStep(current, frames[0]);
      assert t.id == Resolved(frames)[0];
      assert Resolved(frames)[1..] == Resolved(frames[1..]);
      FireCountIsChangeCount(t.id, frames[1..]);
    }
  }

  /**
   * Holding the aim on one POI: a run of active frames whose nearest hit
   * carries the same POI calls the setter once if that POI was not already
   * targeted, and never otherwise.
   */
  lemma SteadyAimFiresOnce(current: Option<string>, frames: seq<FrameInput>, poi: Config.PoiData)
    requires forall k :: 0 <= k < |frames| ==>
               frames[k].active && |frames[k].hits| > 0 && frames[k].hits[0].poi == Some(poi)
    ensures FireCount(current, frames) == if frames != [] && current != Some(poi.id) then 1 else 0
  {
    FireCountIsChangeCount(current, frames);
    var ids := Resolved(frames);
    assert forall k :: 0 <= k < |ids| ==> ids[k] == Some(poi.id);
    SameTargetChangesOnce(current, ids, Some(poi.id));
  }

  /** The `usePoiTargeting` hook: its targeted-id state and its hitbox list. */
  class PoiTargeting {
    var targetedPoiId: Option<string>
    var poiHitboxes: seq<SceneObject>

    constructor ()
      ensures targetedPoiId == None && poiHitboxes == []
    {
      targetedPoiId := None;
      poiHitboxes := [];
    }

    /** Effect on a mode change: rescan the scene while exploring outside a transition, otherwise empty the list. */
    method RefreshHitboxes(isExploring: bool, isTransitioning: bool, scene: seq<SceneObject>)
      modifies this`poiHitboxes
      ensures poiHitboxes == if isExploring && !isTransitioning then Hitboxes(scene) else []
    {
      if isExploring && !isTransitioning {
        poiHitboxes := CollectHitboxes(scene);
      } else {
        poiHitboxes := [];
      }
    }

    /**
     * One targeting frame. `hits` are the registered hitboxes the centre
     * ray strikes, nearest first. `fired` reports a setter call, which
     * happens exactly when the resolved id differs from the held one.
     */
    method Frame(isExploring: bool, isLocked: bool, isTransitioning: bool, hits: seq<SceneObject>)
      returns (fired: bool)
      modifies this`targetedPoiId
      ensures TargetStep(old(targetedPoiId), FrameInput(TargetingActive(isExploring, isLocked, isTransitioning, |poiHitboxes|), hits))
              == TargetTick(targetedPoiId, fired)
    {
      fired := false;
      if isExploring && isLocked && !isTransitioning && |poiHitboxes| > 0 {
        if |hits| > 0 {
          var hitPoi := hits[0].poi;
          var currentTargetId := if hitPoi.Some? then Some(hitPoi.value.id) else None;
          if currentTargetId != targetedPoiId {
            targetedPoiId := currentTargetId;
            fired := true;
          }
        } else if targetedPoiId != None {
          targetedPoiId := None;
          fired := true;
        }
      } else if targetedPoiId != None {
        targetedPoiId := None;
        fired := true;
      }
    }

    /** Effect on a mode change: leaving exploration clears the target. */
    method ModeChanged(isExploring: bool)
      modifies this`targetedPoiId
      ensures !isExploring ==> targetedPoiId == None
      ensures isExploring ==> targetedPoiId == old(targetedPoiId)
    {
      if !isExploring {
        targetedPoiId := None;
      }
    }
  }
}
