/**
 * Values the application receives from Foundation, SceneKit and ARKit, reduced
 * to what the bookkeeping reads: UUIDs, file URLs, points, vectors, transforms,
 * bounding boxes, anchors and world maps.
 */
module Platform {
  import opened Wrappers

  /** A `UUID`, identified by its `uuidString`. */
  datatype Uuid = Uuid(uuidString: string)

  /**
   * A file `URL`: its path components, whether it names a directory
   * (`hasDirectoryPath`) and whether its scheme is `file` (`isFileURL`).
   */
  datatype Url = Url(components: seq<string>, hasDirectoryPath: bool, isFileURL: bool)

  /** `url.lastPathComponent`; the root path "/" when there are no components. */
  function LastPathComponent(u: Url): string {
    if |u.components| == 0 then "/" else u.components[|u.components| - 1]
  }

  /** `url.deletingLastPathComponent()`: the parent directory. */
  function DeletingLastPathComponent(u: Url): (r: Url)
    ensures r.hasDirectoryPath && r.isFileURL == u.isFileURL
    ensures |u.components| > 0 ==> r.components + [LastPathComponent(u)] == u.components
  {
    var n := |u.components|;
    Url(if n == 0 then [] else u.components[..n - 1], true, u.isFileURL)
  }

  /** `url.appendingPathComponent(c)`. */
  function AppendingPathComponent(u: Url, c: string): (r: Url)
    ensures LastPathComponent(r) == c
    ensures DeletingLastPathComponent(r).components == u.components
  {
    Url(u.components + [c], false, u.isFileURL)
  }

  /** Index of the last occurrence of `c` in `s`. */
  function LastIndexOf(s: string, c: char): (r: Option<nat>)
    ensures r.Some? ==> r.value < |s| && s[r.value] == c
    ensures r.Some? ==> forall j :: r.value < j < |s| ==> s[j] != c
    ensures r.None? ==> forall j :: 0 <= j < |s| ==> s[j] != c
  {
    if |s| == 0 then None
    else if s[|s| - 1] == c then Some(|s| - 1)
    else LastIndexOf(s[..|s| - 1], c)
  }

  /**
   * `url.pathExtension`: the text after the last "." of the last path
   * component, or "" when there is no "." or the only "." starts the name.
   */
  function PathExtension(u: Url): (ext: string)
    ensures '.' !in ext
  {
    var name := LastPathComponent(u);
    match LastIndexOf(name, '.')
    case None => ""
    case Some(i) => if i == 0 then "" else name[i + 1..]
  }

  /** A screen-space point (`CGPoint`). */
  datatype Point = Point(x: real, y: real) {
    function Plus(p: Point): Point { Point(x + p.x, y + p.y) }
  }
  const ZeroPoint := Point(0.0, 0.0)

  /** A scene-space vector (`SCNVector3`). */
  datatype Vec3 = Vec3(x: real, y: real, z: real)
  const ZeroVector := Vec3(0.0, 0.0, 0.0)

  /** A 4x4 world transform; only its translation column is read by the model. */
  datatype Transform = Transform(basis: seq<real>, translation: Vec3)

  /** A node's local bounding box (`boundingBox.min`, `boundingBox.max`). */
  datatype Box = Box(min: Vec3, max: Vec3) {
    function Width(): real { max.x - min.x }
    function Height(): real { max.y - min.y }
  }

  /** An `ARAnchor`: a session-assigned identifier and a pose. */
  datatype Anchor = Anchor(identifier: Uuid, transform: Transform)

  /** An `ARWorldMap`: the anchors and feature points it carries, as an opaque value. */
  datatype WorldMap = WorldMap(anchors: seq<Anchor>, featurePoints: seq<Vec3>)
}
