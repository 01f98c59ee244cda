/** The registry of loaded objects (`VirtualObjectLoader.loadedObjects`). */
module Loader {
  import opened Wrappers
  import opened Platform
  import opened VirtualObjects

  /** `firstIndex(of:)`: the index of the first occurrence of `x`, or nil. */
  function FirstIndexOf<T(==)>(s: seq<T>, x: T): (r: Option<nat>)
    ensures r.None? <==> x !in s
    ensures r.Some? ==> r.value < |s| && s[r.value] == x && x !in s[..r.value]
  {
    if |s| == 0 then None
    else if s[0] == x then Some(0)
    else match FirstIndexOf(s[1..], x)
      case None => None
      case Some(i) => assert s[..i + 1] == [s[0]] + s[1..][..i]; Some(i + 1)
  }

  /** The list after `remove(at:)` of the first occurrence of `x`, if any. */
  function RemovingFirst<T(==)>(s: seq<T>, x: T): seq<T> {
    match FirstIndexOf(s, x)
    case None => s
    case Some(i) => s[..i] + s[i + 1..]
  }

  /** Removing an element that is not listed leaves the list as it is. */
  lemma RemovingAbsent<T>(s: seq<T>, x: T)
    requires x !in s
    ensures RemovingFirst(s, x) == s
  {
  }

  /**
   * Removing a listed element drops exactly its first occurrence: one element
   * fewer, one `x` fewer, the rest in their order, around the first `x`.
   */
  lemma RemovingPresent<T>(s: seq<T>, x: T)
    requires x in s
    ensures |RemovingFirst(s, x)| == |s| - 1
    ensures multiset(RemovingFirst(s, x)) == multiset(s) - multiset{x}
    ensures exists i :: 0 <= i < |s| && s[i] == x && x !in s[..i] &&
                        RemovingFirst(s, x) == s[..i] + s[i + 1..]
  {
    var i := FirstIndexOf(s, x).value;
    assert s == s[..i] + [x] + s[i + 1..];
    assert multiset(s) == multiset(s[..i]) + multiset{x} + multiset(s[i + 1..]);
  }

  class VirtualObjectLoader {
    var loadedObjects: seq<VirtualObject>

    constructor ()
      ensures loadedObjects == []
    {
      loadedObjects := [];
    }

    /**
     * `loadObject(with:completion:)`: builds an object for `url` whose single
     * child is the root of the loaded model (with bounds `bounds`), appends it,
     * and hands it to the completion as the returned value.
     */
    method LoadObject(url: Url, id: Uuid, bounds: Box) returns (loaded: VirtualObject)
      modifies this
      ensures fresh(loaded)
      ensures loaded.referenceURL == url && loaded.id == id && loaded.anchor == None
      ensures loaded.childEulerAngles == [ZeroVector] && loaded.boundingBox == bounds
      ensures loadedObjects == old(loadedObjects) + [loaded]
    {
      loaded := new VirtualObject(url, id);
      loaded.AddChildNode(ZeroVector, bounds);
      loadedObjects := loadedObjects + [loaded];
    }

    /** `removeObject(_:)`: drops the first occurrence; absent objects are ignored. */
    method RemoveObject(obj: VirtualObject)
      modifies this
      ensures loadedObjects == RemovingFirst(old(loadedObjects), obj)
    {
      var objectIndex := FirstIndexOf(loadedObjects, obj);
      if objectIndex.None? {
        return;
      }
      var i := objectIndex.value;
      loadedObjects := loadedObjects[..i] + loadedObjects[i + 1..];
    }

    /** `setLoadedObjects(_:)`. */
    method SetLoadedObjects(objects: seq<VirtualObject>)
      modifies this
      ensures loadedObjects == objects
    {
      loadedObjects := objects;
    }
  }
}
