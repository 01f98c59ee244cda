/**
 * The texture sets shipped next to a model (`ModelsManager`,
 * `NodeTexture`, `VirtualObjectTexture`): the layout
 * `<model dir>/Textures/<texture set>/<node>/<material files>` is read into
 * one texture record per set, with one entry per node.
 */
module Textures {
  import opened Wrappers
  import opened Strings
  import opened Platform
  import opened Archiving

  /** The material maps a node can have. */
  datatype TextureKind = Diffuse | Metalness | Normal | Roughness {
    /** The word a file name must contain, and the `textureURLs` key. */
    function Keyword(): string {
      match this
      case Diffuse => "diffuse"
      case Metalness => "metalness"
      case Normal => "normal"
      case Roughness => "roughness"
    }

    /** The order in which the words are tried. */
    function Rank(): nat {
      match this
      case Diffuse => 0
      case Metalness => 1
      case Normal => 2
      case Roughness => 3
    }
  }

  /** The kind of a material file: the first word, in rank order, that its lower-cased name contains. */
  function Classify(fileName: string): Option<TextureKind> {
    var name := Lowercased(fileName);
    if Contains(name, "diffuse") then Some(Diffuse)
    else if Contains(name, "metalness") then Some(Metalness)
    else if Contains(name, "normal") then Some(Normal)
    else if Contains(name, "roughness") then Some(Roughness)
    else None
  }

  /**
   * A file is of kind `k` exactly when its lower-cased name contains `k`'s
   * word and none of the words ranked before it; it is ignored exactly when
   * it contains none of them.
   */
  lemma ClassifyTakesFirstKeyword(fileName: string, k: TextureKind)
    ensures Classify(fileName) == Some(k) <==>
      Contains(Lowercased(fileName), k.Keyword()) &&
      forall j: TextureKind :: j.Rank() < k.Rank() ==> !Contains(Lowercased(fileName), j.Keyword())
    ensures Classify(fileName).None? <==>
      forall j: TextureKind :: !Contains(Lowercased(fileName), j.Keyword())
  {
    var name := Lowercased(fileName);
    var found := Classify(fileName);
    forall j: TextureKind | found.None? || j.Rank() < found.value.Rank()
      ensures !Contains(name, j.Keyword())
    {
      match j
      case Diffuse =>
      case Metalness =>
      case Normal =>
      case Roughness =>
    }
    if found.Some? {
      assert Contains(name, found.value.Keyword());
      if Contains(name, k.Keyword()) && found != Some(k) {
        assert k.Rank() < found.value.Rank() || found.value.Rank() < k.Rank() by {
          match k
          case Diffuse =>
          case Metalness =>
          case Normal =>
          case Roughness =>
        }
      }
    }
  }

  /** How a material file is classified; `getTextures` uses `Classify` on the file's last path component. */
  type Classifier = string -> Option<TextureKind>

  /** `textureURLs` after the first files of a node folder: each file overwrites its kind's entry. */
  function TextureUrlsOf(files: seq<Url>, classify: Classifier): map<TextureKind, Url>
    decreases |files|
  {
    if |files| == 0 then map[]
    else
      var urls := TextureUrlsOf(files[..|files| - 1], classify);
      var last := files[|files| - 1];
      match classify(LastPathComponent(last))
      case None => urls
      case Some(k) => urls[k := last]
  }

  /** `files[i]` is the last file of kind `k`. */
  predicate LastOfKind(files: seq<Url>, classify: Classifier, k: TextureKind, i: int) {
    0 <= i < |files| && classify(LastPathComponent(files[i])) == Some(k) &&
    forall j :: i < j < |files| ==> classify(LastPathComponent(files[j])) != Some(k)
  }

  /** A kind has a URL exactly when some file is of that kind. */
  lemma {:induction false} KindPresentIffSomeFile(files: seq<Url>, classify: Classifier, k: TextureKind)
    ensures k in TextureUrlsOf(files, classify) <==> exists i :: 0 <= i < |files| && classify(LastPathComponent(files[i])) == Some(k)
    decreases |files|
  {
    if |files| > 0 {
      var n := |files| - 1;
      var init := files[..n];
      KindPresentIffSomeFile(init, classify, k);
      if classify(LastPathComponent(files[n])) != Some(k) {
        if exists i :: 0 <= i < |init| && classify(LastPathComponent(init[i])) == Some(k) {
          var i :| 0 <= i < |init| && classify(LastPathComponent(init[i])) == Some(k);
          assert files[i] == init[i];
        }
        if exists i :: 0 <= i < |files| && classify(LastPathComponent(files[i])) == Some(k) {
          var i :| 0 <= i < |files| && classify(LastPathComponent(files[i])) == Some(k);
          assert i < n && init[i] == files[i];
        }
      }
    }
  }

  /** A kind's URL is that of the last file of that kind in listing order. */
  lemma {:induction false} LastFileOfKindWins(files: seq<Url>, classify: Classifier, k: TextureKind)
    requires k in TextureUrlsOf(files, classify)
    ensures exists i :: LastOfKind(files, classify, k, i) && TextureUrlsOf(files, classify)[k] == files[i]
    decreases |files|
  {
    var n := |files| - 1;
    var init := files[..n];
    if classify(LastPathComponent(files[n])) == Some(k) {
      assert LastOfKind(files, classify, k, n);
    } else {
      LastFileOfKindWins(init, classify, k);
      var i :| LastOfKind(init, classify, k, i) && TextureUrlsOf(init, classify)[k] == init[i];
      assert files[i] == init[i];
      forall j | i < j < |files| ensures classify(LastPathComponent(files[j])) != Some(k) {
        if j < n {
          assert files[j] == init[j];
        }
      }
      assert LastOfKind(files, classify, k, i);
    }
  }

  /** The textures of one node: its name and the URL of each map, if any. */
  datatype NodeTexture = NodeTexture(
    nodeName: string, diffuse: Option<Url>, metalness: Option<Url>, normal: Option<Url>, roughness: Option<Url>)

  /** One texture set: the textures of each node, by node name. */
  datatype VirtualObjectTexture = VirtualObjectTexture(nodeTextures: map<string, NodeTexture>)

  function Lookup(urls: map<TextureKind, Url>, k: TextureKind): Option<Url> {
    if k in urls then Some(urls[k]) else None
  }

  /** The record built for a node folder from its `textureURLs`. */
  function NodeTextureOf(nodeFolder: Url, urls: map<TextureKind, Url>): NodeTexture {
    NodeTexture(LastPathComponent(nodeFolder),
      Lookup(urls, Diffuse), Lookup(urls, Metalness), Lookup(urls, Normal), Lookup(urls, Roughness))
  }

  /** The directory tree: the entries of every directory that can be listed. */
  type Listing = map<Url, seq<Url>>

  /** `<model dir>/Textures`. */
  function TexturesRoot(referenceURL: Url): Url {
    AppendingPathComponent(DeletingLastPathComponent(referenceURL), "Textures")
  }

  /**
   * `nodeTextures` after the first node folders of a texture set: folders
   * that cannot be listed are skipped, and each entry is keyed by its
   * folder's last path component, so a later folder of the same name wins.
   */
  function NodeTexturesOf(listing: Listing, nodeFolders: seq<Url>): map<string, NodeTexture>
    decreases |nodeFolders|
  {
    if |nodeFolders| == 0 then map[]
    else
      var n := |nodeFolders| - 1;
      var textures := NodeTexturesOf(listing, nodeFolders[..n]);
      var folder := nodeFolders[n];
      if folder !in listing then textures
      else
        var t := NodeTextureOf(folder, TextureUrlsOf(listing[folder], Classify));
        textures[t.nodeName := t]
  }

  /** Some node folder of `nodeFolders` that can be listed is named `name`. */
  ghost predicate ListedFolderNamed(listing: Listing, nodeFolders: seq<Url>, name: string) {
    exists i :: 0 <= i < |nodeFolders| && nodeFolders[i] in listing && LastPathComponent(nodeFolders[i]) == name
  }

  /**
   * A texture set has one entry per name of a node folder that can be
   * listed, and each entry records the name it is stored under.
   */
  lemma {:induction false} NodeTexturesKeyedByFolderName(listing: Listing, nodeFolders: seq<Url>)
    ensures forall name :: name in NodeTexturesOf(listing, nodeFolders) ==> NodeTexturesOf(listing, nodeFolders)[name].nodeName == name
    ensures forall name :: name in NodeTexturesOf(listing, nodeFolders) <==> ListedFolderNamed(listing, nodeFolders, name)
    decreases |nodeFolders|
  {
    if |nodeFolders| > 0 {
      var n := |nodeFolders| - 1;
      var init := nodeFolders[..n];
      NodeTexturesKeyedByFolderName(listing, init);
      var textures := NodeTexturesOf(listing, init);
      forall name
        ensures name in NodeTexturesOf(listing, nodeFolders) <==> ListedFolderNamed(listing, nodeFolders, name)
      {
        if name in textures {
          var i :| 0 <= i < |init| && init[i] in listing && LastPathComponent(init[i]) == name;
          assert nodeFolders[i] == init[i];
        }
        if ListedFolderNamed(listing, nodeFolders, name) {
          var i :| 0 <= i < |nodeFolders| && nodeFolders[i] in listing && LastPathComponent(nodeFolders[i]) == name;
          if i < n {
            assert init[i] == nodeFolders[i];
          }
        }
      }
    }
  }

  /** `virtualObjectTextures` after the first texture folders: one record per folder that can be listed. */
  function ObjectTexturesOf(listing: Listing, textureFolders: seq<Url>): (r: seq<VirtualObjectTexture>)
    ensures |r| <= |textureFolders|
    decreases |textureFolders|
  {
    if |textureFolders| == 0 then []
    else
      var n := |textureFolders| - 1;
      var textures := ObjectTexturesOf(listing, textureFolders[..n]);
      var folder := textureFolders[n];
      if folder !in listing then textures
      else textures + [VirtualObjectTexture(NodeTexturesOf(listing, listing[folder]))]
  }

  /** When every texture folder can be listed, the i-th record is built from the i-th folder. */
  lemma {:induction false} OneRecordPerTextureFolder(listing: Listing, textureFolders: seq<Url>)
    requires forall i :: 0 <= i < |textureFolders| ==> textureFolders[i] in listing
    ensures |ObjectTexturesOf(listing, textureFolders)| == |textureFolders|
    ensures forall i :: 0 <= i < |textureFolders| ==>
      ObjectTexturesOf(listing, textureFolders)[i] == VirtualObjectTexture(NodeTexturesOf(listing, listing[textureFolders[i]]))
    decreases |textureFolders|
  {
    if |textureFolders| > 0 {
      var n := |textureFolders| - 1;
      var init := textureFolders[..n];
      assert forall i :: 0 <= i < n ==> init[i] == textureFolders[i];
      OneRecordPerTextureFolder(listing, init);
      var last := VirtualObjectTexture(NodeTexturesOf(listing, listing[textureFolders[n]]));
      assert ObjectTexturesOf(listing, textureFolders) == ObjectTexturesOf(listing, init) + [last];
    }
  }

  /** `getTextures(for:)` for a model at `referenceURL`: nothing when the textures root cannot be listed. */
  function TexturesFor(listing: Listing, referenceURL: Url): seq<VirtualObjectTexture> {
    var root := TexturesRoot(referenceURL);
    if root in listing then ObjectTexturesOf(listing, listing[root]) else []
  }

  /** The innermost loop of `getTextures(for:)`: `textureURLs` for the material files of one node folder. */
  method CollectTextureUrls(materialFiles: seq<Url>) returns (textureURLs: map<TextureKind, Url>)
    ensures textureURLs == TextureUrlsOf(materialFiles, Classify)
  {
    textureURLs := map[];
    var k := 0;
    while k < |materialFiles|
      invariant 0 <= k <= |materialFiles|
      invariant textureURLs == TextureUrlsOf(materialFiles[..k], Classify)
    {
      assert materialFiles[..k + 1][..k] == materialFiles[..k];
      var kind := Classify(LastPathComponent(materialFiles[k]));
      if kind.Some? {
        textureURLs := textureURLs[kind.value := materialFiles[k]];
      }
      k := k + 1;
    }
    assert materialFiles[..k] == materialFiles;
  }

  /** The middle loop of `getTextures(for:)`: `nodeTextures` for the node folders of one texture set. */
  method CollectNodeTextures(listing: Listing, nodeFolders: seq<Url>) returns (nodeTextures: map<string, NodeTexture>)
    ensures nodeTextures == NodeTexturesOf(listing, nodeFolders)
  {
    nodeTextures := map[];
    var j := 0;
    while j < |nodeFolders|
      invariant 0 <= j <= |nodeFolders|
      invariant nodeTextures == NodeTexturesOf(listing, nodeFolders[..j])
    {
      assert nodeFolders[..j + 1][..j] == nodeFolders[..j];
      var nodeFolder := nodeFolders[j];
      if nodeFolder in listing {
        var textureURLs := CollectTextureUrls(listing[nodeFolder]);
        var nodeTexture := NodeTextureOf(nodeFolder, textureURLs);
        nodeTextures := nodeTextures[nodeTexture.nodeName := nodeTexture];
      }
      j := j + 1;
    }
    assert nodeFolders[..j] == nodeFolders;
  }

  /** `getTextures(for:)`: the outer loop over the texture sets under the textures root. */
  method GetTextures(referenceURL: Url, listing: Listing) returns (textures: seq<VirtualObjectTexture>)
    ensures textures == TexturesFor(listing, referenceURL)
  {
    var root := AppendingPathComponent(DeletingLastPathComponent(referenceURL), "Textures");
    if root !in listing {
      return [];
    }
    var textureFolders := listing[root];
    textures := [];
    var i := 0;
    while i < |textureFolders|
      invariant 0 <= i <= |textureFolders|
      invariant textures == ObjectTexturesOf(listing, textureFolders[..i])
    {
      assert textureFolders[..i + 1][..i] == textureFolders[..i];
      var textureFolder := textureFolders[i];
      if textureFolder in listing {
        var nodeTextures := CollectNodeTextures(listing, listing[textureFolder]);
        textures := textures + [VirtualObjectTexture(nodeTextures)];
      }
      i := i + 1;
    }
    assert textureFolders[..i] == textureFolders;
  }

  // --- Coding and copying ------------------------------------------------

  /** `NodeTexture.encode(with:)`: nil URLs leave their keys out. */
  function EncodeNodeTexture(t: NodeTexture): Archive {
    var a := map["nodeName" := StringValue(t.nodeName)];
    var a := EncodeOptional(a, "diffuse", UrlOption(t.diffuse));
    var a := EncodeOptional(a, "metalness", UrlOption(t.metalness));
    var a := EncodeOptional(a, "normal", UrlOption(t.normal));
    EncodeOptional(a, "roughness", UrlOption(t.roughness))
  }

  /** `NodeTexture.init?(coder:)`: fails only when the node name is missing; each URL is optional. */
  function DecodeNodeTexture(a: Archive): (r: Option<NodeTexture>)
    ensures r.Some? <==> DecodeString(a, "nodeName").Some?
  {
    match DecodeString(a, "nodeName")
    case None => None
    case Some(name) =>
      Some(NodeTexture(name, DecodeUrl(a, "diffuse"), DecodeUrl(a, "metalness"), DecodeUrl(a, "normal"), DecodeUrl(a, "roughness")))
  }

  /** Encoding then decoding a node texture preserves all five fields. */
  lemma NodeTextureRoundTrip(t: NodeTexture)
    ensures DecodeNodeTexture(EncodeNodeTexture(t)) == Some(t)
  {
    var a := EncodeNodeTexture(t);
    assert DecodeString(a, "nodeName") == Some(t.nodeName);
    assert DecodeUrl(a, "diffuse") == t.diffuse;
    assert DecodeUrl(a, "metalness") == t.metalness;
    assert DecodeUrl(a, "normal") == t.normal;
    assert DecodeUrl(a, "roughness") == t.roughness;
  }

  /** `VirtualObjectTexture.encode(with:)`: the dictionary of node textures under "nodeTextures". */
  function EncodeObjectTexture(v: VirtualObjectTexture): Archive {
    map["nodeTextures" := DictionaryValue(map name | name in v.nodeTextures :: ObjectValue(EncodeNodeTexture(v.nodeTextures[name])))]
  }

  /** Every entry is an encoded node texture that decodes. */
  predicate AllNodeTextures(entries: map<string, ArchiveValue>) {
    forall name :: name in entries ==> entries[name].ObjectValue? && DecodeNodeTexture(entries[name].fields).Some?
  }

  /** The node textures a dictionary of encoded node textures decodes to, under the same keys. */
  function DecodeEntries(entries: map<string, ArchiveValue>): (r: map<string, NodeTexture>)
    requires AllNodeTextures(entries)
    ensures r.Keys == entries.Keys
    ensures forall name :: name in r ==> Some(r[name]) == DecodeNodeTexture(entries[name].fields)
  {
    map name | name in entries :: DecodeNodeTexture(entries[name].fields).value
  }

  /**
   * `VirtualObjectTexture.init?(coder:)`: fails unless "nodeTextures" holds a
   * dictionary whose every value decodes as a node texture.
   */
  function DecodeObjectTexture(a: Archive): (r: Option<VirtualObjectTexture>)
    ensures r.Some? <==> "nodeTextures" in a && a["nodeTextures"].DictionaryValue? && AllNodeTextures(a["nodeTextures"].entries)
    ensures r.Some? ==> r.value.nodeTextures.Keys == a["nodeTextures"].entries.Keys
  {
    if "nodeTextures" in a && a["nodeTextures"].DictionaryValue? && AllNodeTextures(a["nodeTextures"].entries) then
      Some(VirtualObjectTexture(DecodeEntries(a["nodeTextures"].entries)))
    else None
  }

  /** Encoding then decoding a texture set preserves every node's texture under its key. */
  lemma ObjectTextureRoundTrip(v: VirtualObjectTexture)
    ensures DecodeObjectTexture(EncodeObjectTexture(v)) == Some(v)
  {
    var entries := EncodeObjectTexture(v)["nodeTextures"].entries;
    forall name | name in entries
      ensures entries[name].ObjectValue? && DecodeNodeTexture(entries[name].fields) == Some(v.nodeTextures[name])
    {
      NodeTextureRoundTrip(v.nodeTextures[name]);
    }
    assert AllNodeTextures(entries);
    var decoded := DecodeEntries(entries);
    assert entries.Keys == v.nodeTextures.Keys;
    SameEntries(decoded, v.nodeTextures);
  }

  lemma SameEntries(a: map<string, NodeTexture>, b: map<string, NodeTexture>)
    requires a.Keys == b.Keys
    requires forall name :: name in a ==> a[name] == b[name]
    ensures a == b
  {
  }

  /** `NodeTexture.copy(with:)`: a new record with the same five fields. */
  function CopyNodeTexture(t: NodeTexture): (c: NodeTexture)
    ensures c.nodeName == t.nodeName && c.diffuse == t.diffuse && c.metalness == t.metalness
    ensures c.normal == t.normal && c.roughness == t.roughness
  {
    NodeTexture(t.nodeName, t.diffuse, t.metalness, t.normal, t.roughness)
  }

  /** `VirtualObjectTexture.copy(with:)`: the node textures copied one by one under the same keys. */
  function CopyObjectTexture(v: VirtualObjectTexture): (c: VirtualObjectTexture)
    ensures c.nodeTextures.Keys == v.nodeTextures.Keys
    ensures forall name :: name in c.nodeTextures ==> c.nodeTextures[name] == v.nodeTextures[name]
  {
    VirtualObjectTexture(map name | name in v.nodeTextures :: CopyNodeTexture(v.nodeTextures[name]))
  }

  /**
   * A copied texture set cannot be told from the original: it is equal to it,
   * so archiving the copy and reading it back gives the original.
   */
  lemma CopyIsIndistinguishable(v: VirtualObjectTexture)
    ensures CopyObjectTexture(v) == v
    ensures DecodeObjectTexture(EncodeObjectTexture(CopyObjectTexture(v))) == Some(v)
  {
    SameEntries(CopyObjectTexture(v).nodeTextures, v.nodeTextures);
    ObjectTextureRoundTrip(v);
  }
}
