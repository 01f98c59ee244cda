/**
 * The selection and gesture handling for placed objects
 * (`VirtualObjectInteraction`): which object is tracked, where the action
 * panel sits, the screen position a pan advances, rotation, and the copy and
 * delete buttons of the panel.
 */
module Interaction {
  import opened Wrappers
  import opened Platform
  import opened VirtualObjects

  /** `UIGestureRecognizer.State`. */
  datatype GestureState = Possible | Began | Changed | Ended | Cancelled | Failed

  /** The pan recogniser: its state, whether it has moved past its threshold, and its translation. */
  class PanGesture {
    var state: GestureState
    var isThresholdExceeded: bool
    var translation: Point

    constructor (state: GestureState, isThresholdExceeded: bool, translation: Point)
      ensures this.state == state && this.isThresholdExceeded == isThresholdExceeded
      ensures this.translation == translation
    {
      this.state := state;
      this.isThresholdExceeded := isThresholdExceeded;
      this.translation := translation;
    }
  }

  /** The rotation recogniser: its state and the rotation since it was last reset. */
  class RotationGesture {
    var state: GestureState
    var rotation: real

    constructor (state: GestureState, rotation: real)
      ensures this.state == state && this.rotation == rotation
    {
      this.state := state;
      this.rotation := rotation;
    }
  }

  /**
   * Work handed to the main controller, in the order it was handed over:
   * an anchor update queued on the update queue, a copy to place, an object
   * to remove.
   */
  datatype Request = UpdateAnchor(obj: VirtualObject) | PlaceObject(obj: VirtualObject) | RemoveObject(obj: VirtualObject)

  /** The gap between the top of the tracked object and the action panel. */
  const PanelOffset: real := 0.15
  /** What is taken off the object's width when a copy is shifted along x. */
  const CopyInset: real := 0.2

  function Opt(o: VirtualObject?): set<VirtualObject> {
    if o == null then {} else {o}
  }

  /** Where the panel goes, in world space: above the object by its height plus the offset. */
  function PanelWorldPosition(position: Vec3, bounds: Box): (p: Vec3)
    ensures p.x == position.x && p.z == position.z
    ensures p.y - position.y == bounds.Height() + PanelOffset
  {
    Vec3(position.x, position.y + bounds.Height() + PanelOffset, position.z)
  }

  /** Where a copy goes: shifted along x by the object's width less the inset. */
  function CopyPosition(position: Vec3, bounds: Box): (p: Vec3)
    ensures p.x - position.x == bounds.Width() - CopyInset
    ensures p.y == position.y && p.z == position.z
  {
    Vec3(position.x + (bounds.Width() - CopyInset), position.y, position.z)
  }

  /** The screen position a pan step reaches: the cached position, or the object's projection, plus the translation. */
  function NextTrackingPosition(cache: Option<Point>, projected: Point, translation: Point): Point {
    cache.GetOr(projected).Plus(translation)
  }

  /** The cache after a run of pan steps, the i-th with projection `projections[i]` and translation `translations[i]`. */
  function Dragged(start: Option<Point>, projections: seq<Point>, translations: seq<Point>): Option<Point>
    requires |projections| == |translations|
    decreases |translations|
  {
    if |translations| == 0 then start
    else
      var n := |translations| - 1;
      Some(NextTrackingPosition(Dragged(start, projections[..n], translations[..n]), projections[n], translations[n]))
  }

  function Sum(translations: seq<Point>): Point
    decreases |translations|
  {
    if |translations| == 0 then ZeroPoint
    else Sum(translations[..|translations| - 1]).Plus(translations[|translations| - 1])
  }

  /**
   * Starting from an empty cache, a run of pan steps ends at the first
   * projection plus the sum of the translations: the object is projected
   * only once per drag, and later projections are ignored.
   */
  lemma {:induction false} DragFollowsFirstProjection(projections: seq<Point>, translations: seq<Point>)
    requires |projections| == |translations| > 0
    ensures Dragged(None, projections, translations) == Some(projections[0].Plus(Sum(translations)))
    decreases |translations|
  {
    var n := |translations| - 1;
    if n > 0 {
      DragFollowsFirstProjection(projections[..n], translations[..n]);
      assert projections[..n][0] == projections[0];
    }
  }

  /** The panel button a tap hit: "0" places a copy, "1" removes the object. */
  datatype TapAction = PlaceCopy | RemoveTracked

  function ActionOf(name: Option<string>): Option<TapAction> {
    if name == Some("0") then Some(PlaceCopy)
    else if name == Some("1") then Some(RemoveTracked)
    else None
  }

  /** The buttons hit, in hit order; every hit is acted on, not just the first. */
  function TapActions(hits: seq<Option<string>>): (actions: seq<TapAction>)
    ensures |actions| <= |hits|
    decreases |hits|
  {
    if |hits| == 0 then []
    else
      var last := ActionOf(hits[|hits| - 1]);
      TapActions(hits[..|hits| - 1]) + (if last.Some? then [last.value] else [])
  }

  lemma TapActionsStep(hits: seq<Option<string>>, i: nat)
    requires i < |hits|
    ensures TapActions(hits[..i + 1]) == TapActions(hits[..i]) + (match ActionOf(hits[i]) case Some(a) => [a] case None => [])
  {
    assert hits[..i + 1][..i] == hits[..i];
  }

  /** A tap does something exactly when one of the hit nodes is named "0" or "1". */
  lemma {:induction false} TapActsIffButtonHit(hits: seq<Option<string>>)
    ensures |TapActions(hits)| > 0 <==> exists i :: 0 <= i < |hits| && hits[i] in {Some("0"), Some("1")}
    decreases |hits|
  {
    if |hits| > 0 {
      var init := hits[..|hits| - 1];
      TapActsIffButtonHit(init);
      if exists i :: 0 <= i < |init| && init[i] in {Some("0"), Some("1")} {
        var i :| 0 <= i < |init| && init[i] in {Some("0"), Some("1")};
        assert hits[i] == init[i];
      }
      if exists i :: 0 <= i < |hits| && hits[i] in {Some("0"), Some("1")} {
        var i :| 0 <= i < |hits| && hits[i] in {Some("0"), Some("1")};
        if i < |init| {
          assert init[i] == hits[i];
        }
      }
    }
  }

  /** The fields of the tracked object that a copy takes. */
  datatype CopySource = CopySource(referenceURL: Url, transform: Transform, boundingBox: Box, childEulerAngles: seq<Vec3>)

  function SourceOf(o: VirtualObject): CopySource
    reads o
  {
    CopySource(o.referenceURL, o.transform, o.boundingBox, o.childEulerAngles)
  }

  /** The request a tap action hands over for `source`, copying the fields in `fields`. */
  predicate RequestFor(action: TapAction, req: Request, source: VirtualObject, fields: CopySource)
    reads req.obj`referenceURL, req.obj`transform, req.obj`boundingBox, req.obj`childEulerAngles, req.obj`anchor
  {
    match action
    case RemoveTracked => req == RemoveObject(source)
    case PlaceCopy =>
      req.PlaceObject? && req.obj != source &&
      req.obj.referenceURL == fields.referenceURL &&
      req.obj.transform == fields.transform.(translation := CopyPosition(fields.transform.translation, fields.boundingBox)) &&
      req.obj.boundingBox == fields.boundingBox &&
      req.obj.childEulerAngles == fields.childEulerAngles &&
      req.obj.anchor == None
  }

  /** `clone()` followed by setting the copy's position: a new object with the source's fields, moved to `position`. */
  method ClonedAt(source: VirtualObject, id: Uuid, position: Vec3) returns (copy: VirtualObject)
    ensures fresh(copy)
    ensures copy.referenceURL == source.referenceURL && copy.anchor == None
    ensures copy.transform == source.transform.(translation := position)
    ensures copy.boundingBox == source.boundingBox && copy.childEulerAngles == source.childEulerAngles
  {
    copy := new VirtualObject.Clone(source, id);
    copy.SetPosition(position);
  }

  /** Exactly the tracked object is highlighted among `scene`. */
  ghost predicate HighlightExclusive(scene: set<VirtualObject>, tracked: VirtualObject?)
    reads scene
  {
    forall o :: o in scene ==> (o.highlighted <==> o == tracked)
  }

  class VirtualObjectInteraction {
    var trackedObject: VirtualObject?
    /** The object the action panel is attached to, if any. */
    var panelParent: VirtualObject?
    /** The action panel's position, local to its parent. */
    var panelPosition: Vec3
    /** The screen position the current drag has reached. */
    var currentTrackingPosition: Option<Point>
    /** What has been handed to the main controller so far. */
    var requests: seq<Request>

    constructor ()
      ensures trackedObject == null && panelParent == null && panelPosition == ZeroVector
      ensures currentTrackingPosition == None && requests == []
    {
      trackedObject := null;
      panelParent := null;
      panelPosition := ZeroVector;
      currentTrackingPosition := None;
      requests := [];
    }

    /**
     * Assigning `trackedObject` (its `didSet`): assigning the current value
     * does nothing; otherwise the old and the new object each toggle their
     * highlight once, and the panel is detached and reset to zero, then
     * attached to the new object above its top when there is one.
     * `toLocal` converts a world position into the object's space.
     */
    method SetTrackedObject(newValue: VirtualObject?, toLocal: (Transform, Vec3) -> Vec3, ghost scene: set<VirtualObject>)
      modifies this, Opt(trackedObject)`highlighted, Opt(newValue)`highlighted
      ensures trackedObject == newValue
      ensures currentTrackingPosition == old(currentTrackingPosition) && requests == old(requests)
      ensures old(trackedObject) == newValue ==>
        panelParent == old(panelParent) && panelPosition == old(panelPosition) &&
        (newValue != null ==> newValue.highlighted == old(newValue.highlighted))
      ensures old(trackedObject) != newValue ==>
        (old(trackedObject) != null ==> old(trackedObject).highlighted == !old(trackedObject.highlighted)) &&
        (newValue != null ==> newValue.highlighted == !old(newValue.highlighted))
      ensures old(trackedObject) != newValue && newValue == null ==>
        panelParent == null && panelPosition == ZeroVector
      ensures old(trackedObject) != newValue && newValue != null ==>
        panelParent == newValue &&
        panelPosition == toLocal(newValue.transform, PanelWorldPosition(newValue.Position(), newValue.boundingBox))
      ensures old(HighlightExclusive(scene, trackedObject)) && (newValue == null || newValue in scene) ==>
        HighlightExclusive(scene, trackedObject)
    {
      var oldValue := trackedObject;
      trackedObject := newValue;
      if oldValue == newValue {
        return;
      }
      if oldValue != null {
        oldValue.ToggleHighlight();
      }
      if newValue != null {
        newValue.ToggleHighlight();
      }
      panelParent := null;
      panelPosition := ZeroVector;
      if newValue == null {
        return;
      }
      panelPosition := toLocal(newValue.transform, PanelWorldPosition(newValue.Position(), newValue.boundingBox));
      panelParent := newValue;
    }

    /** `trackedObject = nil`: the previously tracked object, if any, loses its highlight toggle and the panel is detached. */
    method Deselect(toLocal: (Transform, Vec3) -> Vec3)
      modifies this, Opt(trackedObject)`highlighted
      ensures trackedObject == null
      ensures currentTrackingPosition == old(currentTrackingPosition) && requests == old(requests)
      ensures old(trackedObject) == null ==> panelParent == old(panelParent) && panelPosition == old(panelPosition)
      ensures old(trackedObject) != null ==>
        old(trackedObject).highlighted == !old(trackedObject.highlighted) &&
        panelParent == null && panelPosition == ZeroVector
    {
      SetTrackedObject(null, toLocal, {});
    }

    /**
     * `updatedTrackingPosition(for:from:)`: the cached position, or the
     * object's projection when there is none, plus the gesture's
     * translation; the result becomes the new cache.
     */
    method UpdatedTrackingPosition(obj: VirtualObject, gesture: PanGesture, project: Vec3 -> Point) returns (p: Point)
      modifies this`currentTrackingPosition
      ensures p == NextTrackingPosition(old(currentTrackingPosition), project(obj.Position()), gesture.translation)
      ensures currentTrackingPosition == Some(p)
    {
      var current := if currentTrackingPosition.Some? then currentTrackingPosition.value else project(obj.Position());
      p := Point(current.x + gesture.translation.x, current.y + gesture.translation.y);
      currentTrackingPosition := Some(p);
    }

    /**
     * `translate(_:basedOn:)`: moves the object to where a raycast from the
     * screen position hits a plane of the object's alignment; a miss leaves
     * it where it is.
     */
    method Translate(obj: VirtualObject, screenPosition: Point, raycast: (Point, Alignment) -> Option<Transform>)
      modifies obj`transform
      ensures obj.transform == raycast(screenPosition, Horizontal).GetOr(old(obj.transform))
    {
      var hit := raycast(screenPosition, obj.AllowedAlignment());
      if hit.None? {
        return;
      }
      obj.transform := hit.value;
    }

    /**
     * `didPan(_:)`: a change past the threshold with a tracked object moves it
     * and resets the gesture's translation; `.began`, a change below the
     * threshold and a change with nothing tracked do nothing; `.ended` with a
     * tracked object queues one anchor update and clears the cache, while
     * `.ended` with nothing tracked keeps the cache; any other state clears it.
     */
    method DidPan(gesture: PanGesture, project: Vec3 -> Point, raycast: (Point, Alignment) -> Option<Transform>)
      modifies this`currentTrackingPosition, this`requests, gesture`translation, Opt(trackedObject)`transform
      ensures gesture.state.Changed? && gesture.isThresholdExceeded && trackedObject != null ==>
        currentTrackingPosition == Some(NextTrackingPosition(old(currentTrackingPosition), project(old(trackedObject.Position())), old(gesture.translation))) &&
        trackedObject.transform == raycast(currentTrackingPosition.value, Horizontal).GetOr(old(trackedObject.transform)) &&
        gesture.translation == ZeroPoint && requests == old(requests)
      ensures gesture.state.Began? || (gesture.state.Changed? && (!gesture.isThresholdExceeded || trackedObject == null)) ==>
        currentTrackingPosition == old(currentTrackingPosition) && requests == old(requests) &&
        gesture.translation == old(gesture.translation) &&
        (trackedObject != null ==> trackedObject.transform == old(trackedObject.transform))
      ensures gesture.state.Ended? && trackedObject != null ==>
        requests == old(requests) + [UpdateAnchor(trackedObject)] && currentTrackingPosition == None &&
        gesture.translation == old(gesture.translation) && trackedObject.transform == old(trackedObject.transform)
      ensures gesture.state.Ended? && trackedObject == null ==>
        currentTrackingPosition == old(currentTrackingPosition) && requests == old(requests) &&
        gesture.translation == old(gesture.translation)
      ensures gesture.state in {Possible, Cancelled, Failed} ==>
        currentTrackingPosition == None && requests == old(requests) &&
        gesture.translation == old(gesture.translation) &&
        (trackedObject != null ==> trackedObject.transform == old(trackedObject.transform))
    {
      match gesture.state {
        case Began =>
        case Changed =>
          if gesture.isThresholdExceeded {
            if trackedObject == null {
              return;
            }
            var obj := trackedObject;
            var p := UpdatedTrackingPosition(obj, gesture, project);
            Translate(obj, p, raycast);
            gesture.translation := ZeroPoint;
          }
        case Ended =>
          if trackedObject == null {
            return;
          }
          requests := requests + [UpdateAnchor(trackedObject)];
          currentTrackingPosition := None;
        case _ =>
          currentTrackingPosition := None;
      }
    }

    /**
     * `didRotate(_:)`: only a change with a tracked object acts; it takes the
     * gesture's rotation off `objectRotation` and resets the rotation to 0.
     * Reading `objectRotation` needs a first child node.
     */
    method DidRotate(gesture: RotationGesture)
      requires trackedObject != null && gesture.state.Changed? ==> |trackedObject.childEulerAngles| > 0
      modifies gesture`rotation, Opt(trackedObject)`childEulerAngles
      ensures trackedObject != null && gesture.state.Changed? ==>
        |trackedObject.childEulerAngles| == |old(trackedObject.childEulerAngles)| &&
        trackedObject.ObjectRotation() == old(trackedObject.ObjectRotation()) - old(gesture.rotation) &&
        trackedObject.childEulerAngles[0].x == old(trackedObject.childEulerAngles[0].x) &&
        trackedObject.childEulerAngles[0].z == old(trackedObject.childEulerAngles[0].z) &&
        trackedObject.childEulerAngles[1..] == old(trackedObject.childEulerAngles[1..]) &&
        gesture.rotation == 0.0
      ensures !(trackedObject != null && gesture.state.Changed?) ==>
        gesture.rotation == old(gesture.rotation) &&
        (trackedObject != null ==> trackedObject.childEulerAngles == old(trackedObject.childEulerAngles))
    {
      if trackedObject == null || !gesture.state.Changed? {
        return;
      }
      trackedObject.SetObjectRotation(trackedObject.ObjectRotation() - gesture.rotation);
      gesture.rotation := 0.0;
    }

    /**
     * The `switch` of `didTap(location:)` for one hit, with `captured` the
     * object tracked when the tap began: "0" deselects and hands over a copy
     * of `captured` shifted along x, "1" hands over `captured` for removal
     * and deselects, any other name does nothing.
     */
    method ActOnHit(hit: Option<string>, id: Uuid, captured: VirtualObject, toLocal: (Transform, Vec3) -> Vec3)
      returns (ghost handed: Option<Request>)
      requires trackedObject == captured || trackedObject == null
      modifies this, captured`highlighted
      ensures currentTrackingPosition == old(currentTrackingPosition)
      ensures SourceOf(captured) == old(SourceOf(captured))
      ensures handed.Some? <==> ActionOf(hit).Some?
      ensures requests == old(requests) + (if handed.Some? then [handed.value] else [])
      ensures handed.Some? ==>
        RequestFor(ActionOf(hit).value, handed.value, captured, old(SourceOf(captured))) &&
        (handed.value.PlaceObject? ==> fresh(handed.value.obj))
      ensures handed.None? || old(trackedObject) == null ==>
        captured.highlighted == old(captured.highlighted) &&
        panelParent == old(panelParent) && panelPosition == old(panelPosition)
      ensures handed.None? ==> trackedObject == old(trackedObject)
      ensures handed.Some? ==> trackedObject == null
      ensures handed.Some? && old(trackedObject) != null ==>
        captured.highlighted == !old(captured.highlighted) && panelParent == null && panelPosition == ZeroVector
    {
      if hit == Some("0") {
        var copyPosition := CopyPosition(captured.Position(), captured.boundingBox);
        Deselect(toLocal);
        var copy := ClonedAt(captured, id, copyPosition);
        requests := requests + [PlaceObject(copy)];
        handed := Some(PlaceObject(copy));
      } else if hit == Some("1") {
        requests := requests + [RemoveObject(captured)];
        Deselect(toLocal);
        handed := Some(RemoveObject(captured));
      } else {
        handed := None;
      }
    }

    /**
     * `didTap(location:)` over the names of the hit nodes, in hit order. With
     * nothing tracked it does nothing. Every hit named "0" or "1" is acted on,
     * since `break` leaves only the `switch`: "0" deselects and hands over a
     * copy of the originally tracked object shifted along x; "1" hands over
     * that object for removal and deselects. A copy's identity is
     * `cloneIds(i)` for the i-th hit. The placement's completion selects the
     * copy, which is `SetTrackedObject` with the copy.
     */
    method DidTap(hits: seq<Option<string>>, cloneIds: nat -> Uuid, toLocal: (Transform, Vec3) -> Vec3)
      modifies this, Opt(trackedObject)`highlighted
      ensures old(trackedObject) == null ==>
        trackedObject == null && requests == old(requests) &&
        panelParent == old(panelParent) && panelPosition == old(panelPosition)
      ensures currentTrackingPosition == old(currentTrackingPosition)
      ensures old(trackedObject) != null ==>
        var actions := TapActions(hits);
        (trackedObject == if |actions| == 0 then old(trackedObject) else null) &&
        old(trackedObject).highlighted == (if |actions| == 0 then old(trackedObject.highlighted) else !old(trackedObject.highlighted)) &&
        (|actions| == 0 ==> panelParent == old(panelParent) && panelPosition == old(panelPosition)) &&
        (|actions| > 0 ==> panelParent == null && panelPosition == ZeroVector) &&
        |requests| == |old(requests)| + |actions| && requests[..|old(requests)|] == old(requests) &&
        (forall k :: 0 <= k < |actions| ==>
           RequestFor(actions[k], requests[|old(requests)| + k], old(trackedObject), old(SourceOf(trackedObject)))) &&
        (forall k :: |old(requests)| <= k < |requests| && requests[k].PlaceObject? ==> fresh(requests[k].obj))
    {
      var captured := trackedObject;
      if captured == null {
        return;
      }
      ghost var fields := SourceOf(captured);
      ghost var before := requests;
      ghost var acts: seq<TapAction> := [];
      ghost var handed: seq<Request> := [];
      ghost var tracking, wasHighlighted, parent, position := currentTrackingPosition, captured.highlighted, panelParent, panelPosition;
      var i := 0;
      while i < |hits|
        invariant 0 <= i <= |hits|
        invariant acts == TapActions(hits[..i])
        invariant fields == SourceOf(captured)
        invariant currentTrackingPosition == tracking
        invariant trackedObject == if |acts| == 0 then captured else null
        invariant captured.highlighted == if |acts| == 0 then wasHighlighted else !wasHighlighted
        invariant |acts| == 0 ==> panelParent == parent && panelPosition == position
        invariant |acts| > 0 ==> panelParent == null && panelPosition == ZeroVector
        invariant requests == before + handed && |handed| == |acts|
        invariant forall k :: 0 <= k < |acts| ==> RequestFor(acts[k], handed[k], captured, fields)
        invariant forall k :: 0 <= k < |handed| && handed[k].PlaceObject? ==> fresh(handed[k].obj)
      {
        TapActionsStep(hits, i);
        var request := ActOnHit(hits[i], cloneIds(i), captured, toLocal);
        if request.Some? {
          acts, handed := acts + [ActionOf(hits[i]).value], handed + [request.value];
        }
        i := i + 1;
      }
      assert hits[..i] == hits;
      assert forall k :: 0 <= k < |handed| ==> requests[|before| + k] == handed[k];
    }
  }
}
