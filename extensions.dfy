/**
 * The helpers of the app's extension file: dotted key paths, key-path access
 * to nested dictionaries, the category-bitmask walk over a node hierarchy,
 * anchor replacement, and the status descriptions shown to the user.
 */
module Extensions {
  import opened Wrappers
  import opened Platform
  import opened VirtualObjects

  // --- Key paths ---------------------------------------------------------

  /** Splits on every '.', keeping empty parts: `components(separatedBy: ".")`. */
  function Split(s: string): (parts: seq<string>)
    ensures |parts| >= 1
    ensures forall i :: 0 <= i < |parts| ==> '.' !in parts[i]
  {
    if |s| == 0 then [""]
    else if s[0] == '.' then [""] + Split(s[1..])
    else
      var rest := Split(s[1..]);
      [[s[0]] + rest[0]] + rest[1..]
  }

  /** `joined(separator: ".")`. */
  function Join(segments: seq<string>): string {
    if |segments| == 0 then ""
    else if |segments| == 1 then segments[0]
    else segments[0] + "." + Join(segments[1..])
  }

  /** A dotted path into nested dictionaries. */
  datatype KeyPath = KeyPath(segments: seq<string>) {
    predicate IsEmpty() {
      |segments| == 0
    }

    /** `path`. */
    function Path(): string {
      Join(segments)
    }

    /** `headAndTail()`: nil exactly when there are no segments. */
    function HeadAndTail(): (r: Option<(string, KeyPath)>)
      ensures r.None? <==> IsEmpty()
      ensures r.Some? ==> [r.value.0] + r.value.1.segments == segments
    {
      if IsEmpty() then None else Some((segments[0], KeyPath(segments[1..])))
    }
  }

  /** `KeyPath.init(_:)` from a string such as "this.is.a.keypath". */
  function FromString(s: string): (kp: KeyPath)
    ensures !kp.IsEmpty()
  {
    KeyPath(Split(s))
  }

  /** `Join` of a non-empty list: the head, then "." and the rest when there is a rest. */
  lemma JoinCons(head: string, tail: seq<string>)
    ensures Join([head] + tail) == if |tail| == 0 then head else head + "." + Join(tail)
  {
    assert ([head] + tail)[1..] == tail;
  }

  lemma ConcatAssoc(a: string, b: string, c: string)
    ensures (a + b) + c == a + (b + c)
  {
  }

  /** Prepending a character to the first segment prepends it to the joined path. */
  lemma JoinPrependChar(c: char, head: string, tail: seq<string>)
    ensures Join([[c] + head] + tail) == [c] + Join([head] + tail)
  {
    JoinCons([c] + head, tail);
    JoinCons(head, tail);
    if |tail| > 0 {
      ConcatAssoc([c], head, ".");
      ConcatAssoc([c], head + ".", Join(tail));
    }
  }

  /** Building a key path from a string and reading its `path` gives the string back. */
  lemma {:induction false} PathOfParsedKeyPath(s: string)
    ensures FromString(s).Path() == s
  {
    if |s| > 0 {
      PathOfParsedKeyPath(s[1..]);
      var rest := Split(s[1..]);
      if s[0] == '.' {
        assert ([""] + rest)[1..] == rest;
        assert s == "." + s[1..];
      } else {
        JoinPrependChar(s[0], rest[0], rest[1..]);
        assert [rest[0]] + rest[1..] == rest;
        assert s == [s[0]] + s[1..];
      }
    }
  }

  lemma {:induction false} SplitWithoutDot(x: string)
    requires '.' !in x
    ensures Split(x) == [x]
  {
    if |x| > 0 {
      assert '.' !in x[1..] by {
        forall i | 0 <= i < |x| - 1 ensures x[1..][i] != '.' {
          assert x[1..][i] == x[i + 1];
        }
      }
      SplitWithoutDot(x[1..]);
      assert [x[0]] + x[1..] == x;
    }
  }

  lemma {:induction false} SplitAtFirstDot(x: string, y: string)
    requires '.' !in x
    ensures Split(x + "." + y) == [x] + Split(y)
  {
    var s := x + "." + y;
    if |x| == 0 {
      assert s[1..] == y;
    } else {
      assert '.' !in x[1..] by {
        forall i | 0 <= i < |x| - 1 ensures x[1..][i] != '.' {
          assert x[1..][i] == x[i + 1];
        }
      }
      SplitAtFirstDot(x[1..], y);
      assert s[0] == x[0];
      assert s[1..] == x[1..] + "." + y;
      assert [x[0]] + x[1..] == x;
    }
  }

  /** Joining dot-free segments and parsing the result gives the segments back. */
  lemma {:induction false} ParseOfPath(segments: seq<string>)
    requires |segments| >= 1
    requires forall i :: 0 <= i < |segments| ==> '.' !in segments[i]
    ensures FromString(KeyPath(segments).Path()).segments == segments
  {
    if |segments| == 1 {
      SplitWithoutDot(segments[0]);
    } else {
      ParseOfPath(segments[1..]);
      SplitAtFirstDot(segments[0], Join(segments[1..]));
      assert [segments[0]] + segments[1..] == segments;
    }
  }

  // --- Key-path access to nested dictionaries ----------------------------

  /** A dictionary value: a leaf, or a nested `[String: Any]`. */
  datatype Value = Leaf(text: string) | Nested(entries: map<string, Value>)

  type Dictionary = map<string, Value>

  /** Every segment before the last names a nested dictionary. */
  predicate ThroughDicts(d: Dictionary, kp: KeyPath)
    decreases |kp.segments|
  {
    !kp.IsEmpty() &&
    (|kp.segments| == 1 ||
     (kp.segments[0] in d && d[kp.segments[0]].Nested? &&
      ThroughDicts(d[kp.segments[0]].entries, KeyPath(kp.segments[1..]))))
  }

  /**
   * `subscript(keyPath:)` get: nil on an empty path, a direct lookup on one
   * segment, and otherwise a descent into the nested dictionary, nil when the
   * intermediate value is not one.
   */
  function GetKeyPath(d: Dictionary, kp: KeyPath): (r: Option<Value>)
    ensures kp.IsEmpty() ==> r.None?
    ensures |kp.segments| == 1 ==> (r.Some? <==> kp.segments[0] in d)
    ensures r.Some? && |kp.segments| == 1 ==> r.value == d[kp.segments[0]]
    ensures r.Some? ==> ThroughDicts(d, kp)
    decreases |kp.segments|
  {
    match kp.HeadAndTail()
    case None => None
    case Some((head, tail)) =>
      if tail.IsEmpty() then
        if head in d then Some(d[head]) else None
      else if head in d && d[head].Nested? then GetKeyPath(d[head].entries, tail)
      else None
  }

  /**
   * `subscript(keyPath:)` set: nothing on an empty path or through a
   * non-dictionary intermediate; on the last segment, stores the value or,
   * for nil, removes the key; otherwise writes the updated nested dictionary
   * back under the head key. Only the head key can change.
   */
  function SetKeyPath(d: Dictionary, kp: KeyPath, newValue: Option<Value>): (r: Dictionary)
    ensures kp.IsEmpty() ==> r == d
    ensures !kp.IsEmpty() ==> forall k :: k != kp.segments[0] ==>
      (k in r <==> k in d) && (k in r ==> r[k] == d[k])
    decreases |kp.segments|
  {
    match kp.HeadAndTail()
    case None => d
    case Some((head, tail)) =>
      if tail.IsEmpty() then
        if newValue.Some? then d[head := newValue.value] else d - {head}
      else if head in d && d[head].Nested? then
        d[head := Nested(SetKeyPath(d[head].entries, tail, newValue))]
      else d
  }

  /** Reading a path right after setting it through nested dictionaries gives the value set. */
  lemma {:induction false} GetAfterSet(d: Dictionary, kp: KeyPath, newValue: Option<Value>)
    requires ThroughDicts(d, kp)
    ensures GetKeyPath(SetKeyPath(d, kp, newValue), kp) == newValue
    decreases |kp.segments|
  {
    if |kp.segments| > 1 {
      var head := kp.segments[0];
      GetAfterSet(d[head].entries, KeyPath(kp.segments[1..]), newValue);
    }
  }

  /** Setting through a path that is not all dictionaries leaves the dictionary unchanged. */
  lemma {:induction false} SetOffPathUnchanged(d: Dictionary, kp: KeyPath, newValue: Option<Value>)
    requires !ThroughDicts(d, kp)
    ensures SetKeyPath(d, kp, newValue) == d
    decreases |kp.segments|
  {
    if |kp.segments| > 1 {
      var head := kp.segments[0];
      if head in d && d[head].Nested? {
        SetOffPathUnchanged(d[head].entries, KeyPath(kp.segments[1..]), newValue);
        assert d[head := Nested(d[head].entries)] == d;
      }
    }
  }

  // --- Category bitmask over a node hierarchy ----------------------------

  /**
   * A node of a scene hierarchy: an identity, an optional name and the
   * children in order. The id stands for the node object itself, so a scene
   * is expected to satisfy `UniqueIds`; masks are kept by id.
   */
  datatype SceneNode = SceneNode(id: nat, name: Option<string>, children: seq<SceneNode>)

  /** No two distinct nodes of the hierarchy share an id. */
  predicate UniqueIds(n: SceneNode) {
    forall a, b :: a in Nodes(n) && b in Nodes(n) && a.id == b.id ==> a == b
  }

  /** A node receives the mask when it is unnamed or its name is not excluded. */
  predicate Eligible(n: SceneNode, exclude: set<string>) {
    n.name.None? || n.name.value !in exclude
  }

  /** The ids of the nodes the walk sets. */
  function Marked(n: SceneNode, exclude: set<string>): set<nat>
    decreases n, 1
  {
    (if Eligible(n, exclude) then {n.id} else {}) + MarkedChildren(n, |n.children|, exclude)
  }

  /** The ids the walk sets below the first `k` children of `n`. */
  function MarkedChildren(n: SceneNode, k: nat, exclude: set<string>): set<nat>
    requires k <= |n.children|
    decreases n, 0, k
  {
    if k == 0 then {} else MarkedChildren(n, k - 1, exclude) + Marked(n.children[k - 1], exclude)
  }

  /** Every node of the hierarchy rooted at `n`, whatever its name. */
  function Nodes(n: SceneNode): set<SceneNode>
    decreases n, 1
  {
    {n} + NodesBelow(n, |n.children|)
  }

  function NodesBelow(n: SceneNode, k: nat): set<SceneNode>
    requires k <= |n.children|
    decreases n, 0, k
  {
    if k == 0 then {} else NodesBelow(n, k - 1) + Nodes(n.children[k - 1])
  }

  /** The ids of the eligible nodes of a hierarchy. */
  function EligibleIds(nodes: set<SceneNode>, exclude: set<string>): set<nat> {
    set m | m in nodes && Eligible(m, exclude) :: m.id
  }

  /**
   * The walk sets exactly the eligible nodes of the whole hierarchy: the
   * children of an excluded node are visited too.
   */
  lemma {:induction false} MarkedAreEligibleNodes(n: SceneNode, exclude: set<string>)
    ensures Marked(n, exclude) == EligibleIds(Nodes(n), exclude)
    decreases n, 1
  {
    MarkedChildrenAreEligibleNodes(n, |n.children|, exclude);
    EligibleIdsUnion({n}, NodesBelow(n, |n.children|), exclude);
  }

  lemma {:induction false} MarkedChildrenAreEligibleNodes(n: SceneNode, k: nat, exclude: set<string>)
    requires k <= |n.children|
    ensures MarkedChildren(n, k, exclude) == EligibleIds(NodesBelow(n, k), exclude)
    decreases n, 0, k
  {
    if k > 0 {
      MarkedChildrenAreEligibleNodes(n, k - 1, exclude);
      MarkedAreEligibleNodes(n.children[k - 1], exclude);
      EligibleIdsUnion(NodesBelow(n, k - 1), Nodes(n.children[k - 1]), exclude);
    }
  }

  /**
   * With unique ids, an excluded node of the hierarchy is not among the
   * marked ids, so its mask is left as it was.
   */
  lemma ExcludedNodeNotMarked(n: SceneNode, exclude: set<string>, m: SceneNode)
    requires UniqueIds(n)
    requires m in Nodes(n) && !Eligible(m, exclude)
    ensures m.id !in Marked(n, exclude)
  {
    MarkedAreEligibleNodes(n, exclude);
  }

  lemma EligibleIdsUnion(a: set<SceneNode>, b: set<SceneNode>, exclude: set<string>)
    ensures EligibleIds(a + b, exclude) == EligibleIds(a, exclude) + EligibleIds(b, exclude)
  {
  }

  /** `m` with every id of `ids` mapped to `mask`. */
  function Applied(m: map<nat, int>, ids: set<nat>, mask: int): (r: map<nat, int>)
    ensures r.Keys == m.Keys + ids
    ensures forall k :: k in ids ==> r[k] == mask
    ensures forall k :: k in m && k !in ids ==> r[k] == m[k]
  {
    map k | k in m.Keys + ids :: if k in ids then mask else m[k]
  }

  lemma AppliedTwice(m: map<nat, int>, a: set<nat>, b: set<nat>, mask: int)
    ensures Applied(Applied(m, a, mask), b, mask) == Applied(m, a + b, mask)
  {
  }

  /** The default of `highlightedBitMask`; `nodesToExclude` defaults to no names. */
  const DefaultHighlightedBitMask: int := 2

  /** The `categoryBitMask` of every node of a scene, by node id. */
  class CategoryMasks {
    var categoryBitMask: map<nat, int>

    constructor (initial: map<nat, int>)
      ensures categoryBitMask == initial
    {
      categoryBitMask := initial;
    }

    /**
     * `setCategoryBitMaskForAllHierarchy(_:nodesToExclude:)`: gives the mask
     * to the node unless its name is excluded, then recurses into every child.
     */
    method SetCategoryBitMaskForAllHierarchy(n: SceneNode, mask: int, exclude: set<string>)
      modifies this
      ensures categoryBitMask == Applied(old(categoryBitMask), Marked(n, exclude), mask)
      decreases n
    {
      var own: set<nat> := {};
      if n.name.Some? {
        if n.name.value !in exclude {
          categoryBitMask := categoryBitMask[n.id := mask];
          own := {n.id};
        }
      } else {
        categoryBitMask := categoryBitMask[n.id := mask];
        own := {n.id};
      }
      assert categoryBitMask == Applied(old(categoryBitMask), own, mask);
      for i := 0 to |n.children|
        invariant categoryBitMask == Applied(old(categoryBitMask), own + MarkedChildren(n, i, exclude), mask)
      {
        SetCategoryBitMaskForAllHierarchy(n.children[i], mask, exclude);
        ghost var done, next := own + MarkedChildren(n, i, exclude), Marked(n.children[i], exclude);
        AppliedTwice(old(categoryBitMask), done, next, mask);
        assert own + MarkedChildren(n, i + 1, exclude) == done + next;
      }
    }

    /**
     * `setCategoryBitMaskForAllHierarchy()` with its defaults: every node of
     * the hierarchy gets `DefaultHighlightedBitMask`.
     */
    method SetDefaultCategoryBitMask(n: SceneNode)
      modifies this
      ensures categoryBitMask == Applied(old(categoryBitMask), set m | m in Nodes(n) :: m.id, DefaultHighlightedBitMask)
    {
      SetCategoryBitMaskForAllHierarchy(n, DefaultHighlightedBitMask, {});
      MarkedAreEligibleNodes(n, {});
      assert EligibleIds(Nodes(n), {}) == set m | m in Nodes(n) :: m.id;
    }
  }

  // --- Anchors -----------------------------------------------------------

  /** The anchors an AR session tracks. */
  class ArSession {
    var anchors: set<Anchor>

    constructor (initial: set<Anchor>)
      ensures anchors == initial
    {
      anchors := initial;
    }
  }

  /** The session's anchors after removing the object's previous anchor, if any, and adding the new one. */
  function ReplacedAnchors(anchors: set<Anchor>, previous: Option<Anchor>, added: Anchor): set<Anchor> {
    (if previous.Some? then anchors - {previous.value} else anchors) + {added}
  }

  /**
   * After replacement the new anchor is tracked, the previous one is not
   * (unless it is the new one), and every other anchor is kept.
   */
  lemma ReplacedAnchorsSwapsOne(anchors: set<Anchor>, previous: Option<Anchor>, added: Anchor)
    ensures added in ReplacedAnchors(anchors, previous, added)
    ensures previous.Some? && previous.value != added ==> previous.value !in ReplacedAnchors(anchors, previous, added)
    ensures forall a :: a in anchors && previous != Some(a) ==> a in ReplacedAnchors(anchors, previous, added)
    ensures forall a :: a in ReplacedAnchors(anchors, previous, added) ==> a in anchors || a == added
  {
  }

  /**
   * `addOrUpdateAnchor(for:)`: removes the object's anchor from the session,
   * then creates an anchor at the object's world transform, stores it in the
   * object and adds it to the session. The new anchor's identifier is the
   * one the session draws.
   */
  method AddOrUpdateAnchor(session: ArSession, obj: VirtualObject, identifier: Uuid)
    modifies session, obj`anchor
    ensures obj.anchor == Some(Anchor(identifier, obj.transform))
    ensures session.anchors == ReplacedAnchors(old(session.anchors), old(obj.anchor), obj.anchor.value)
  {
    if obj.anchor.Some? {
      session.anchors := session.anchors - {obj.anchor.value};
    }
    var newAnchor := Anchor(identifier, obj.transform);
    obj.anchor := Some(newAnchor);
    session.anchors := session.anchors + {newAnchor};
  }

  // --- Status descriptions -----------------------------------------------

  /** `ARFrame.WorldMappingStatus`, with a case for values added in later releases. */
  datatype WorldMappingStatus = MappingNotAvailable | MappingLimited | Extending | Mapped | UnknownStatus {
    /** `description`. */
    function Description(): string {
      match this
      case MappingNotAvailable => "Not Available"
      case MappingLimited => "Limited"
      case Extending => "Extending"
      case Mapped => "Mapped"
      case UnknownStatus => "Unknown"
    }
  }

  /** The reason of a limited tracking state; `OtherReason` stands for any reason not listed. */
  datatype LimitedReason = Initializing | ExcessiveMotion | InsufficientFeatures | Relocalizing | OtherReason

  /** `ARCamera.TrackingState`. */
  datatype TrackingState = Normal | NotAvailable | Limited(reason: LimitedReason) {
    /** `description`: the named limited reasons match before the generic fallback. */
    function Description(): string {
      match this
      case Normal => "Normal"
      case NotAvailable => "Not Available"
      case Limited(Initializing) => "Initializing"
      case Limited(ExcessiveMotion) => "Excessive Motion"
      case Limited(InsufficientFeatures) => "Insufficient Features"
      case Limited(Relocalizing) => "Relocalizing"
      case Limited(_) => "Unspecified Reason"
    }

    /** `localizedFeedback`. */
    function LocalizedFeedback(): string {
      match this
      case Normal => "Move around to map the environment."
      case NotAvailable => "Tracking unavailable."
      case Limited(ExcessiveMotion) => "Move the device more slowly."
      case Limited(InsufficientFeatures) =>
        "Point the device at an area with visible surface detail, or improve lighting conditions."
      case Limited(Relocalizing) =>
        "Resuming session — move to where you were when the session was interrupted."
      case Limited(Initializing) => "Initializing AR session."
      case Limited(_) => "Tracking limited - unspecified reason"
    }
  }

  /** Distinct mapping statuses have distinct descriptions. */
  lemma MappingDescriptionsDistinct(a: WorldMappingStatus, b: WorldMappingStatus)
    ensures a.Description() == b.Description() <==> a == b
  {
  }

  /** Distinct tracking states have distinct descriptions; the generic text is given only when no named reason applies. */
  lemma TrackingDescriptionsDistinct(a: TrackingState, b: TrackingState)
    ensures a.Description() == b.Description() <==> a == b
    ensures a.Description() == "Unspecified Reason" <==> a == Limited(OtherReason)
  {
    if a != b {
      var da, db := a.Description(), b.Description();
      assert |da| != |db| || da[0] != db[0];
    }
  }

  /** Distinct tracking states have distinct feedback; the generic text is given only when no named reason applies. */
  lemma TrackingFeedbackDistinct(a: TrackingState, b: TrackingState)
    ensures a.LocalizedFeedback() == b.LocalizedFeedback() <==> a == b
    ensures a.LocalizedFeedback() == "Tracking limited - unspecified reason" <==> a == Limited(OtherReason)
  {
    FeedbackLength(a);
    FeedbackLength(b);
  }

  lemma FeedbackLength(a: TrackingState)
    ensures |a.LocalizedFeedback()| == match a
      case Normal => 35
      case NotAvailable => 21
      case Limited(ExcessiveMotion) => 28
      case Limited(InsufficientFeatures) => 88
      case Limited(Relocalizing) => 75
      case Limited(Initializing) => 24
      case Limited(OtherReason) => 37
  {
  }
}
