/** A saved room: its identity, name, type and the two archived blobs. */
module Rooms {
  import opened Wrappers
  import opened Platform
  import opened Archiving
  import opened RoomTypes
  import opened VirtualObjects

  /** What `getWorldMap` and `getObjects` throw. */
  datatype RoomError = DataMissing | UnarchiveFailure

  /** The stored fields of a room. */
  datatype RoomRecord = RoomRecord(
    id: Uuid, name: string, roomType: RoomType,
    worldMapData: Option<Data>, objectsData: Option<Data>)

  /** `encode(with:)`: the type is written as its raw value; nil blobs leave their keys out. */
  function EncodeRoom(r: RoomRecord): Archive {
    var a := map["id" := UuidValue(r.id), "name" := StringValue(r.name), "type" := StringValue(r.roomType.RawValue())];
    EncodeOptional(EncodeOptional(a, "worldMapData", DataOption(r.worldMapData)), "objectsData", DataOption(r.objectsData))
  }

  /**
   * `init?(coder:)`: fails when the id, the name or the type is missing, or
   * when the type string is not a room type's raw value; the blobs are optional.
   */
  function DecodeRoom(a: Archive): (r: Option<RoomRecord>)
    ensures r.Some? <==>
      DecodeUuid(a, "id").Some? && DecodeString(a, "name").Some? &&
      DecodeString(a, "type").Some? && FromRawValue(DecodeString(a, "type").value).Some?
    ensures r.Some? ==> r.value.id == DecodeUuid(a, "id").value && r.value.name == DecodeString(a, "name").value
    ensures r.Some? ==>
      r.value.roomType.RawValue() == DecodeString(a, "type").value &&
      r.value.worldMapData == DecodeData(a, "worldMapData") &&
      r.value.objectsData == DecodeData(a, "objectsData")
  {
    match DecodeUuid(a, "id")
    case None => None
    case Some(id) =>
      match DecodeString(a, "name")
      case None => None
      case Some(name) =>
        match DecodeString(a, "type")
        case None => None
        case Some(rawType) =>
          match FromRawValue(rawType)
          case None => None
          case Some(t) => Some(RoomRecord(id, name, t, DecodeData(a, "worldMapData"), DecodeData(a, "objectsData")))
  }

  /** Encoding then decoding preserves the id, name, type and both optional blobs. */
  lemma RoomCodingRoundTrip(r: RoomRecord)
    ensures DecodeRoom(EncodeRoom(r)) == Some(r)
  {
    var a := EncodeRoom(r);
    FromRawValueRoundTrip(r.roomType);
    assert DecodeUuid(a, "id") == Some(r.id);
    assert DecodeString(a, "name") == Some(r.name);
    assert DecodeString(a, "type") == Some(r.roomType.RawValue());
    assert DecodeData(a, "worldMapData") == r.worldMapData;
    assert DecodeData(a, "objectsData") == r.objectsData;
  }

  /** `NSKeyedArchiver.archivedData(withRootObject: objects)` for encoded objects. */
  function ArchiveObjects(encoded: seq<Archive>): Data {
    KeyedArchive(ArrayValue(seq(|encoded|, i requires 0 <= i < |encoded| => ObjectValue(encoded[i]))))
  }

  /** Decodes each item as a `VirtualObject`; one that fails fails the whole array. */
  function DecodeItems(items: seq<ArchiveValue>): (r: Option<seq<StoredObject>>)
    ensures r.Some? ==> |r.value| == |items|
  {
    if |items| == 0 then Some([])
    else if !items[0].ObjectValue? then None
    else match DecodeObject(items[0].fields)
      case None => None
      case Some(first) =>
        match DecodeItems(items[1..])
        case None => None
        case Some(rest) => Some([first] + rest)
  }

  /** `unarchivedArrayOfObjects(ofClass: VirtualObject.self, from:)` on an optional blob. */
  function UnarchiveObjects(d: Option<Data>): (r: Result<seq<StoredObject>, RoomError>)
    ensures d.None? ==> r == Err(DataMissing)
    ensures r.Ok? ==> d.Some? && d.value.KeyedArchive? && d.value.root.ArrayValue? && |r.value| == |d.value.root.items|
    ensures r.Ok? <==> d.Some? && d.value.KeyedArchive? && d.value.root.ArrayValue? && DecodeItems(d.value.root.items).Some?
  {
    match d
    case None => Err(DataMissing)
    case Some(Unparseable(_)) => Err(UnarchiveFailure)
    case Some(KeyedArchive(root)) =>
      if !root.ArrayValue? then Err(UnarchiveFailure)
      else match DecodeItems(root.items)
        case None => Err(UnarchiveFailure)
        case Some(objects) => Ok(objects)
  }

  /** `unarchivedObject(ofClass: ARWorldMap.self, from:)` on an optional blob. */
  function UnarchiveWorldMap(d: Option<Data>): (r: Result<WorldMap, RoomError>)
    ensures d.None? ==> r == Err(DataMissing)
    ensures r.Ok? ==> d == Some(KeyedArchive(WorldMapValue(r.value)))
    ensures d.Some? && d.value.KeyedArchive? && d.value.root.WorldMapValue? ==> r == Ok(d.value.root.worldMap)
  {
    match d
    case None => Err(DataMissing)
    case Some(Unparseable(_)) => Err(UnarchiveFailure)
    case Some(KeyedArchive(root)) =>
      if root.WorldMapValue? then Ok(root.worldMap) else Err(UnarchiveFailure)
  }

  /** Every object was encoded with an anchor. */
  predicate AllAnchored(states: seq<ObjectState>) {
    forall i :: 0 <= i < |states| ==> states[i].anchor.Some?
  }

  function EncodeStates(states: seq<ObjectState>): seq<Archive> {
    seq(|states|, i requires 0 <= i < |states| => EncodeObject(states[i]))
  }

  /**
   * Archiving a list of objects and reading it back gives their ids, URLs and
   * anchors in order when every object has an anchor, and fails otherwise.
   */
  lemma {:induction false} ObjectsRoundTrip(states: seq<ObjectState>)
    ensures var r := UnarchiveObjects(Some(ArchiveObjects(EncodeStates(states))));
      (r.Ok? <==> AllAnchored(states)) &&
      (r.Ok? ==> |r.value| == |states| &&
                 forall i :: 0 <= i < |states| ==> Restored(states[i]) == Some(r.value[i]))
  {
    var items := seq(|states|, i requires 0 <= i < |states| => ObjectValue(EncodeObject(states[i])));
    var encoded := EncodeStates(states);
    assert ArchiveObjects(encoded).root.items == items by {
      forall i | 0 <= i < |states| ensures ArchiveObjects(encoded).root.items[i] == items[i] {
        assert encoded[i] == EncodeObject(states[i]);
      }
    }
    DecodeItemsOfStates(states, items);
  }

  lemma {:induction false} DecodeItemsOfStates(states: seq<ObjectState>, items: seq<ArchiveValue>)
    requires |items| == |states|
    requires forall i :: 0 <= i < |states| ==> items[i] == ObjectValue(EncodeObject(states[i]))
    ensures DecodeItems(items).Some? <==> AllAnchored(states)
    ensures DecodeItems(items).Some? ==>
      forall i :: 0 <= i < |states| ==> Restored(states[i]) == Some(DecodeItems(items).value[i])
  {
    if |states| > 0 {
      ObjectCodingRoundTrip(states[0]);
      DecodeItemsOfStates(states[1..], items[1..]);
      if DecodeItems(items).Some? {
        var all := DecodeItems(items).value;
        forall i | 0 <= i < |states| ensures Restored(states[i]) == Some(all[i]) {
          if i > 0 {
            assert states[1..][i - 1] == states[i];
          }
        }
      }
      if !states[0].anchor.Some? {
        assert !AllAnchored(states);
      }
      if AllAnchored(states) {
        assert AllAnchored(states[1..]) by {
          forall i | 0 <= i < |states| - 1 ensures states[1..][i].anchor.Some? {
            assert states[1..][i] == states[i + 1];
          }
        }
      }
    }
  }

  class Room {
    const id: Uuid
    const name: string
    const roomType: RoomType
    /** `_worldMapData`. */
    var worldMapData: Option<Data>
    /** `_objectsData`. */
    var objectsData: Option<Data>
    /** The backing store of the lazy `isArchived`: nil until first read. */
    var isArchivedCache: Option<bool>

    /** `init(name:type:)` with the UUID it draws. */
    constructor (name: string, roomType: RoomType, id: Uuid)
      ensures Record() == RoomRecord(id, name, roomType, None, None)
      ensures isArchivedCache == None
    {
      this.id := id;
      this.name := name;
      this.roomType := roomType;
      worldMapData := None;
      objectsData := None;
      isArchivedCache := None;
    }

    /** The object `init?(coder:)` builds from decoded fields. */
    constructor Decoded(r: RoomRecord)
      ensures Record() == r && isArchivedCache == None
    {
      id := r.id;
      name := r.name;
      roomType := r.roomType;
      worldMapData := r.worldMapData;
      objectsData := r.objectsData;
      isArchivedCache := None;
    }

    function Record(): RoomRecord
      reads this
    {
      RoomRecord(id, name, roomType, worldMapData, objectsData)
    }

    /**
     * The lazy `isArchived`: the first read computes whether both blobs are
     * present and stores it; every later read returns the stored value.
     */
    method IsArchived() returns (archived: bool)
      modifies this`isArchivedCache
      ensures old(isArchivedCache).Some? ==> archived == old(isArchivedCache).value
      ensures old(isArchivedCache).None? ==> archived == (worldMapData.Some? && objectsData.Some?)
      ensures isArchivedCache == Some(archived)
    {
      if isArchivedCache.None? {
        isArchivedCache := Some(worldMapData.Some? && objectsData.Some?);
      }
      archived := isArchivedCache.value;
    }

    /** `setWorldMap(_:)`: replaces only the world-map blob. */
    method SetWorldMap(worldMap: WorldMap)
      modifies this`worldMapData
      ensures worldMapData == Some(KeyedArchive(WorldMapValue(worldMap)))
      ensures GetWorldMap() == Ok(worldMap)
    {
      worldMapData := Some(KeyedArchive(WorldMapValue(worldMap)));
    }

    /** `setObjects(_:)`: replaces only the objects blob. */
    method SetObjects(objects: seq<VirtualObject>)
      modifies this`objectsData
      ensures objectsData == Some(ArchiveObjects(EncodeStates(States(objects))))
      ensures GetObjects().Ok? <==> AllAnchored(States(objects))
      ensures GetObjects().Ok? ==> |GetObjects().value| == |objects|
      ensures GetObjects().Ok? ==>
        forall i :: 0 <= i < |objects| ==> Restored(objects[i].State()) == Some(GetObjects().value[i])
    {
      objectsData := Some(ArchiveObjects(EncodeStates(States(objects))));
      ObjectsRoundTrip(States(objects));
    }

    /** `getWorldMap()`. */
    function GetWorldMap(): (r: Result<WorldMap, RoomError>)
      reads this
      ensures worldMapData.None? ==> r == Err(DataMissing)
      ensures r.Ok? ==> worldMapData == Some(KeyedArchive(WorldMapValue(r.value)))
    {
      UnarchiveWorldMap(worldMapData)
    }

    /** `getObjects()`. */
    function GetObjects(): (r: Result<seq<StoredObject>, RoomError>)
      reads this
      ensures objectsData.None? ==> r == Err(DataMissing)
      ensures r.Ok? ==> objectsData.Some? && objectsData.value.KeyedArchive? && objectsData.value.root.ArrayValue? &&
                        |r.value| == |objectsData.value.root.items|
    {
      UnarchiveObjects(objectsData)
    }
  }

  function States(objects: seq<VirtualObject>): (s: seq<ObjectState>)
    reads objects
    ensures |s| == |objects|
    ensures forall i :: 0 <= i < |objects| ==> s[i] == objects[i].State()
  {
    seq(|objects|, i reads objects requires 0 <= i < |objects| => objects[i].State())
  }

  /**
   * On a new room the first read of `isArchived` is false, and because the
   * value is cached it stays false after both blobs have been set.
   */
  method ArchivedFlagStaysCached(name: string, t: RoomType, id: Uuid, worldMap: WorldMap, objects: seq<VirtualObject>)
    returns (first: bool, afterSetting: bool, bothBlobsSet: bool)
    ensures !first && !afterSetting && bothBlobsSet
  {
    var room := new Room(name, t, id);
    first := room.IsArchived();
    room.SetWorldMap(worldMap);
    room.SetObjects(objects);
    bothBlobsSet := room.worldMapData.Some? && room.objectsData.Some?;
    afterSetting := room.IsArchived();
  }
}
