/**
 * A piece of furniture placed in the scene (`VirtualObject`, an `SCNNode`
 * subclass), its keyed encoding, and the search for the object that owns a
 * scene node.
 */
module VirtualObjects {
  import opened Wrappers
  import opened Strings
  import opened Platform
  import opened Archiving

  /** `ARRaycastQuery.TargetAlignment`. */
  datatype Alignment = Horizontal | Vertical | AnyAlignment

  /**
   * A placed object. Objects hang directly under the scene's root node, so the
   * node's `position` is the translation of its world transform.
   */
  class VirtualObject {
    const id: Uuid
    /** The file URL of the 3D model. */
    var referenceURL: Url
    /** The object's `ARAnchor`, if one has been assigned. */
    var anchor: Option<Anchor>
    /** Whether the highlight mask is applied (what `toggleHighlight` flips). */
    var highlighted: bool
    /** The Euler angles of the child nodes, first child first. */
    var childEulerAngles: seq<Vec3>
    var transform: Transform
    var boundingBox: Box

    /** `init(url:)`: a fresh object with no children and no anchor. */
    constructor (url: Url, id: Uuid)
      ensures this.id == id && referenceURL == url && anchor == None
      ensures !highlighted && childEulerAngles == []
      ensures transform == Transform([], ZeroVector) && boundingBox == Box(ZeroVector, ZeroVector)
    {
      this.id := id;
      referenceURL := url;
      anchor := None;
      highlighted := false;
      childEulerAngles := [];
      transform := Transform([], ZeroVector);
      boundingBox := Box(ZeroVector, ZeroVector);
    }

    /**
     * `clone()`: SceneKit copies the node tree through the private `init()`,
     * which draws a new UUID, leaves the anchor unset and sets the URL to
     * "/dev/null"; the override then copies `referenceURL` back.
     */
    constructor Clone(source: VirtualObject, id: Uuid)
      ensures this.id == id && referenceURL == source.referenceURL && anchor == None
      ensures highlighted == source.highlighted && childEulerAngles == source.childEulerAngles
      ensures transform == source.transform && boundingBox == source.boundingBox
    {
      this.id := id;
      referenceURL := source.referenceURL;
      anchor := None;
      highlighted := source.highlighted;
      childEulerAngles := source.childEulerAngles;
      transform := source.transform;
      boundingBox := source.boundingBox;
    }

    /** `modelName`. */
    function ModelName(): string
      reads this
    {
      ModelNameOf(referenceURL)
    }

    /** `position`. */
    function Position(): Vec3
      reads this
    {
      transform.translation
    }

    /** `allowedAlignment`. */
    function AllowedAlignment(): (a: Alignment)
      ensures a == Horizontal
    {
      Horizontal
    }

    /** The getter of `objectRotation`: the first child's Euler angle about y. */
    function ObjectRotation(): real
      reads this
      requires |childEulerAngles| > 0
    {
      childEulerAngles[0].y
    }

    /** The setter of `objectRotation`: only the first child's y angle changes. */
    method SetObjectRotation(v: real)
      requires |childEulerAngles| > 0
      modifies this`childEulerAngles
      ensures |childEulerAngles| == |old(childEulerAngles)|
      ensures ObjectRotation() == v
      ensures childEulerAngles[0].x == old(childEulerAngles[0].x) && childEulerAngles[0].z == old(childEulerAngles[0].z)
      ensures childEulerAngles[1..] == old(childEulerAngles[1..])
    {
      childEulerAngles := childEulerAngles[0 := childEulerAngles[0].(y := v)];
    }

    /** `toggleHighlight()`. */
    method ToggleHighlight()
      modifies this`highlighted
      ensures highlighted == !old(highlighted)
    {
      highlighted := !highlighted;
    }

    /** `position = p`. */
    method SetPosition(p: Vec3)
      modifies this`transform
      ensures transform == old(transform).(translation := p)
    {
      transform := transform.(translation := p);
    }

    /** `addChildNode(_:)` for a child with the given Euler angles, growing the bounds to `bounds`. */
    method AddChildNode(angles: Vec3, bounds: Box)
      modifies this`childEulerAngles, this`boundingBox
      ensures childEulerAngles == old(childEulerAngles) + [angles]
      ensures boundingBox == bounds
    {
      childEulerAngles := childEulerAngles + [angles];
      boundingBox := bounds;
    }

    /** The fields the class adds to `SCNNode` and writes in `encode(with:)`. */
    function State(): ObjectState
      reads this
    {
      ObjectState(id, referenceURL, anchor)
    }
  }

  /** The last path component of the model URL with every ".dae" cut out. */
  function ModelNameOf(url: Url): (name: string)
    ensures |name| <= |LastPathComponent(url)|
  {
    RemovingOccurrences(LastPathComponent(url), ".dae")
  }

  /** A model file "<base>.dae" whose base has no ".dae" in it is named "<base>". */
  lemma ModelNameOfDaeFile(url: Url, base: string)
    requires LastPathComponent(url) == base + ".dae" && !Contains(base, ".dae")
    ensures ModelNameOf(url) == base
  {
    RemovingTrailingDae(base);
    RemovingAbsentIsIdentity(base, ".dae");
  }

  // --- Keyed coding ---------------------------------------------------------

  /** The fields an object writes in `encode(with:)`; the anchor may be unset. */
  datatype ObjectState = ObjectState(id: Uuid, referenceURL: Url, anchor: Option<Anchor>)

  /** The fields `init?(coder:)` restores; the anchor is required. */
  datatype StoredObject = StoredObject(id: Uuid, referenceURL: Url, anchor: Anchor)

  /** `encode(with:)`; a nil anchor leaves its key out. */
  function EncodeObject(s: ObjectState): Archive {
    var a := map["id" := UuidValue(s.id), "referenceURL" := UrlValue(s.referenceURL)];
    EncodeOptional(a, "anchor", if s.anchor.Some? then Some(AnchorValue(s.anchor.value)) else None)
  }

  /** `init?(coder:)`: fails unless the id, the URL and the anchor are all present. */
  function DecodeObject(a: Archive): (r: Option<StoredObject>)
    ensures r.Some? <==>
      DecodeUuid(a, "id").Some? && DecodeUrl(a, "referenceURL").Some? && DecodeAnchor(a, "anchor").Some?
    ensures r.Some? ==> "id" in a && a["id"] == UuidValue(r.value.id)
    ensures r.Some? ==> "referenceURL" in a && a["referenceURL"] == UrlValue(r.value.referenceURL)
    ensures r.Some? ==> "anchor" in a && a["anchor"] == AnchorValue(r.value.anchor)
  {
    match DecodeUuid(a, "id")
    case None => None
    case Some(id) =>
      match DecodeUrl(a, "referenceURL")
      case None => None
      case Some(url) =>
        match DecodeAnchor(a, "anchor")
        case None => None
        case Some(anchor) => Some(StoredObject(id, url, anchor))
  }

  /** What decoding an encoded object yields: its fields when it has an anchor, nil otherwise. */
  function Restored(s: ObjectState): Option<StoredObject> {
    if s.anchor.Some? then Some(StoredObject(s.id, s.referenceURL, s.anchor.value)) else None
  }

  /**
   * Encoding then decoding gives back the id, URL and anchor; an object
   * encoded without an anchor cannot be decoded.
   */
  lemma ObjectCodingRoundTrip(s: ObjectState)
    ensures DecodeObject(EncodeObject(s)) == Restored(s)
  {
    var a := EncodeObject(s);
    assert DecodeUuid(a, "id") == Some(s.id);
    assert DecodeUrl(a, "referenceURL") == Some(s.referenceURL);
    if s.anchor.None? {
      assert "anchor" !in a;
    }
  }

  // --- Scene-graph ancestry -------------------------------------------------

  type NodeId = nat

  /**
   * One scene node as the ancestor search sees it: its parent, whether it is
   * a `VirtualObject`, and its distance from the root of its tree.
   */
  datatype NodeInfo = NodeInfo(parent: Option<NodeId>, isVirtualObject: bool, depth: nat)

  type SceneGraph = map<NodeId, NodeInfo>

  /** Every parent is a node of the graph and one level closer to the root. */
  ghost predicate WellFormed(g: SceneGraph) {
    forall n :: n in g && g[n].parent.Some? ==>
      g[n].parent.value in g && g[g[n].parent.value].depth < g[n].depth
  }

  /** `existingObjectContainingNode(_:)`. */
  function ExistingObjectContainingNode(g: SceneGraph, n: NodeId): (r: Option<NodeId>)
    requires WellFormed(g) && n in g
    ensures r.Some? ==> r.value in g && g[r.value].isVirtualObject
    decreases g[n].depth
  {
    if g[n].isVirtualObject then Some(n)
    else match g[n].parent
      case None => None
      case Some(p) => ExistingObjectContainingNode(g, p)
  }

  /** The node followed by its parent, its grandparent, and so on up to the root. */
  function AncestorChain(g: SceneGraph, n: NodeId): (c: seq<NodeId>)
    requires WellFormed(g) && n in g
    ensures |c| > 0 && c[0] == n
    ensures forall i :: 0 <= i < |c| ==> c[i] in g
    decreases g[n].depth
  {
    match g[n].parent
    case None => [n]
    case Some(p) => [n] + AncestorChain(g, p)
  }

  /** No node of `c` is a virtual object. */
  ghost predicate NoObjectIn(g: SceneGraph, c: seq<NodeId>) {
    forall i :: 0 <= i < |c| ==> c[i] in g && !g[c[i]].isVirtualObject
  }

  /** Prepending a node that is not a virtual object changes nothing about `NoObjectIn`. */
  lemma NoObjectInCons(g: SceneGraph, n: NodeId, c: seq<NodeId>)
    requires n in g && !g[n].isVirtualObject
    ensures NoObjectIn(g, [n] + c) <==> NoObjectIn(g, c)
  {
    var d := [n] + c;
    assert forall i :: 0 <= i < |c| ==> d[i + 1] == c[i];
  }

  /**
   * The search returns the first virtual object of the ancestor chain (the
   * node itself if it is one), and nil exactly when the chain holds none.
   */
  lemma {:induction false} ContainingObjectIsNearest(g: SceneGraph, n: NodeId)
    requires WellFormed(g) && n in g
    ensures ExistingObjectContainingNode(g, n).None? <==> NoObjectIn(g, AncestorChain(g, n))
    ensures ExistingObjectContainingNode(g, n).Some? ==>
      exists k :: 0 <= k < |AncestorChain(g, n)| && AncestorChain(g, n)[k] == ExistingObjectContainingNode(g, n).value &&
                  NoObjectIn(g, AncestorChain(g, n)[..k])
    decreases g[n].depth
  {
    var c := AncestorChain(g, n);
    var r := ExistingObjectContainingNode(g, n);
    if g[n].isVirtualObject {
      assert c[0] == n && c[..0] == [];
      assert !NoObjectIn(g, c);
    } else if g[n].parent.Some? {
      var p := g[n].parent.value;
      ContainingObjectIsNearest(g, p);
      var cp := AncestorChain(g, p);
      assert c == [n] + cp;
      assert r == ExistingObjectContainingNode(g, p);
      NoObjectInCons(g, n, cp);
      if r.Some? {
        var k :| 0 <= k < |cp| && cp[k] == r.value && NoObjectIn(g, cp[..k]);
        assert c[k + 1] == r.value;
        assert c[..k + 1] == [n] + cp[..k];
        NoObjectInCons(g, n, cp[..k]);
      }
    } else {
      assert c == [n];
    }
  }
}
