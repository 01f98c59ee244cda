/**
 * The keyed archiver (`NSCoder`, `NSKeyedArchiver`) as an abstract record: an
 * encoded object is a map from keys to values; `encode(nil, forKey:)` leaves
 * the key out; `decodeObject(of:forKey:)` yields nil for a missing key or a
 * value of another class.
 */
module Archiving {
  import opened Wrappers
  import opened Platform

  datatype ArchiveValue =
    | UuidValue(uuid: Uuid)
    | StringValue(text: string)
    | UrlValue(url: Url)
    | AnchorValue(anchor: Anchor)
    | WorldMapValue(worldMap: WorldMap)
    | DataValue(data: Data)
    | ArrayValue(items: seq<ArchiveValue>)
    | DictionaryValue(entries: map<string, ArchiveValue>)
    | ObjectValue(fields: map<string, ArchiveValue>)

  /**
   * A `Data` blob: either the output of `NSKeyedArchiver.archivedData` (its
   * root object) or bytes the unarchiver cannot read.
   */
  datatype Data = KeyedArchive(root: ArchiveValue) | Unparseable(bytes: seq<int>)

  /** The keyed fields of one encoded object. */
  type Archive = map<string, ArchiveValue>

  /** `coder.encode(value, forKey: key)` for an optional value. */
  function EncodeOptional(a: Archive, key: string, v: Option<ArchiveValue>): (r: Archive)
    ensures v.Some? ==> key in r && r[key] == v.value
    ensures v.None? ==> r == a
    ensures forall k :: k != key ==> (k in r <==> k in a) && (k in a ==> r[k] == a[k])
  {
    match v
    case Some(x) => a[key := x]
    case None => a
  }

  function DecodeUuid(a: Archive, key: string): (r: Option<Uuid>)
    ensures r.Some? <==> key in a && a[key].UuidValue?
  {
    if key in a && a[key].UuidValue? then Some(a[key].uuid) else None
  }

  function DecodeString(a: Archive, key: string): (r: Option<string>)
    ensures r.Some? <==> key in a && a[key].StringValue?
  {
    if key in a && a[key].StringValue? then Some(a[key].text) else None
  }

  function DecodeUrl(a: Archive, key: string): (r: Option<Url>)
    ensures r.Some? <==> key in a && a[key].UrlValue?
  {
    if key in a && a[key].UrlValue? then Some(a[key].url) else None
  }

  function DecodeAnchor(a: Archive, key: string): (r: Option<Anchor>)
    ensures r.Some? <==> key in a && a[key].AnchorValue?
  {
    if key in a && a[key].AnchorValue? then Some(a[key].anchor) else None
  }

  function DecodeData(a: Archive, key: string): (r: Option<Data>)
    ensures r.Some? <==> key in a && a[key].DataValue?
  {
    if key in a && a[key].DataValue? then Some(a[key].data) else None
  }

  function UrlOption(u: Option<Url>): Option<ArchiveValue> {
    match u
    case Some(x) => Some(UrlValue(x))
    case None => None
  }

  function DataOption(d: Option<Data>): Option<ArchiveValue> {
    match d
    case Some(x) => Some(DataValue(x))
    case None => None
  }
}
