/** The store of archived rooms: one file per room, named by the room's UUID string. */
module RoomStore {
  import opened Wrappers
  import opened Platform
  import opened Archiving
  import opened Rooms

  /** What `save`, `load` and `listAll` throw. */
  datatype StoreError = ReadFailed | UnarchiveFailed

  /** A file of the rooms directory: its bytes, or a file that cannot be read. */
  datatype FileData = Readable(data: Data) | Unreadable

  /** The rooms directory, by file name. */
  type Directory = map<string, FileData>

  /** `archivedData(withRootObject: room)`: the room's keyed encoding as the root object. */
  function ArchiveRoom(r: RoomRecord): Data {
    KeyedArchive(ObjectValue(EncodeRoom(r)))
  }

  /**
   * `unarchivedObject(ofClass: Room.self, from:)`: bytes that are not an
   * archive, or whose root is not an object, throw; a root object whose
   * `init?(coder:)` fails yields nil.
   */
  function UnarchiveRoom(d: Data): (r: Result<Option<RoomRecord>, StoreError>)
    ensures r.Ok? <==> d.KeyedArchive? && d.root.ObjectValue?
    ensures r.Ok? ==> r.value == DecodeRoom(d.root.fields)
  {
    match d
    case Unparseable(_) => Err(UnarchiveFailed)
    case KeyedArchive(root) =>
      if root.ObjectValue? then Ok(DecodeRoom(root.fields)) else Err(UnarchiveFailed)
  }

  /** `Data(contentsOf:)` followed by unarchiving, for one file name. */
  function LoadFrom(dir: Directory, name: string): (r: Result<Option<RoomRecord>, StoreError>)
    ensures name !in dir ==> r == Err(ReadFailed)
    ensures name in dir && dir[name].Unreadable? ==> r == Err(ReadFailed)
    ensures name in dir && dir[name].Readable? ==> r == UnarchiveRoom(dir[name].data)
  {
    if name !in dir then Err(ReadFailed)
    else match dir[name]
      case Unreadable => Err(ReadFailed)
      case Readable(data) => UnarchiveRoom(data)
  }

  /**
   * What `listAll` returns for the first files of a listing: the first error
   * thrown, or the rooms that decoded, in listing order, skipping files that
   * unarchived to nil.
   */
  function ListSpec(dir: Directory, listing: seq<string>): Result<seq<RoomRecord>, StoreError>
    decreases |listing|
  {
    if |listing| == 0 then Ok([])
    else
      match ListSpec(dir, listing[..|listing| - 1])
      case Err(e) => Err(e)
      case Ok(rooms) =>
        match LoadFrom(dir, listing[|listing| - 1])
        case Err(e) => Err(e)
        case Ok(None) => Ok(rooms)
        case Ok(Some(room)) => Ok(rooms + [room])
  }

  class RoomManager {
    /** The contents of `Documents/arexperience/rooms`. */
    var files: Directory

    /** `init()`: the directory already holds whatever earlier runs saved. */
    constructor (existing: Directory)
      ensures files == existing
    {
      files := existing;
    }

    /** `save(room:)`: writes the archived room under its UUID string, replacing any earlier file. */
    method Save(room: Room)
      modifies this
      ensures files == old(files)[room.id.uuidString := Readable(ArchiveRoom(room.Record()))]
    {
      files := files[room.id.uuidString := Readable(ArchiveRoom(room.Record()))];
    }

    /** `load(by:)`. */
    function Load(id: string): (r: Result<Option<RoomRecord>, StoreError>)
      reads this
      ensures id !in files ==> r == Err(ReadFailed)
      ensures r.Ok? ==> id in files && files[id].Readable? && files[id].data.KeyedArchive?
    {
      LoadFrom(files, id)
    }

    /** `listAll()` over the directory listing `listing`. */
    method ListAll(listing: seq<string>) returns (result: Result<seq<RoomRecord>, StoreError>)
      ensures result == ListSpec(files, listing)
    {
      var rooms: seq<RoomRecord> := [];
      var i := 0;
      while i < |listing|
        invariant 0 <= i <= |listing|
        invariant ListSpec(files, listing[..i]) == Ok(rooms)
      {
        assert listing[..i + 1][..i] == listing[..i];
        var loaded := LoadFrom(files, listing[i]);
        if loaded.Err? {
          assert ListSpec(files, listing[..i + 1]).Err?;
          ErrorPersists(files, listing, i + 1);
          return Err(loaded.error);
        }
        if loaded.value.Some? {
          rooms := rooms + [loaded.value.value];
        }
        i := i + 1;
      }
      assert listing[..i] == listing;
      result := Ok(rooms);
    }
  }

  /** Once a prefix of the listing throws, the whole listing throws the same error. */
  lemma {:induction false} ErrorPersists(dir: Directory, listing: seq<string>, k: nat)
    requires k <= |listing|
    requires ListSpec(dir, listing[..k]).Err?
    ensures ListSpec(dir, listing) == ListSpec(dir, listing[..k])
    decreases |listing| - k
  {
    if k == |listing| {
      assert listing[..k] == listing;
    } else {
      assert listing[..k + 1][..k] == listing[..k];
      ErrorPersists(dir, listing, k + 1);
    }
  }

  /** Saving a room and loading it by its UUID string gives back the same fields. */
  lemma LoadAfterSave(dir: Directory, r: RoomRecord)
    ensures LoadFrom(dir[r.id.uuidString := Readable(ArchiveRoom(r))], r.id.uuidString) == Ok(Some(r))
  {
    RoomCodingRoundTrip(r);
  }

  /** Saving one room leaves every other room's file untouched. */
  lemma SaveKeepsOtherRooms(dir: Directory, r: RoomRecord, other: string)
    requires other != r.id.uuidString
    ensures LoadFrom(dir[r.id.uuidString := Readable(ArchiveRoom(r))], other) == LoadFrom(dir, other)
  {
  }

  /** `listAll` throws exactly when some listed file cannot be read or unarchived. */
  lemma {:induction false} ListAllFailsIffSomeFileFails(dir: Directory, listing: seq<string>)
    ensures ListSpec(dir, listing).Err? <==> exists i :: 0 <= i < |listing| && LoadFrom(dir, listing[i]).Err?
  {
    if |listing| > 0 {
      var init := listing[..|listing| - 1];
      ListAllFailsIffSomeFileFails(dir, init);
      assert forall i :: 0 <= i < |init| ==> init[i] == listing[i];
    }
  }

  /** The rooms the listed files decode to, in listing order, skipping files that hold no room. */
  function Decoded(dir: Directory, listing: seq<string>): seq<RoomRecord> {
    if |listing| == 0 then []
    else
      var rest := Decoded(dir, listing[1..]);
      var first := LoadFrom(dir, listing[0]);
      if first.Ok? && first.value.Some? then [first.value.value] + rest else rest
  }

  lemma {:induction false} DecodedAppend(dir: Directory, listing: seq<string>, name: string)
    ensures Decoded(dir, listing + [name]) == Decoded(dir, listing) + Decoded(dir, [name])
  {
    if |listing| > 0 {
      assert (listing + [name])[1..] == listing[1..] + [name];
      DecodedAppend(dir, listing[1..], name);
    } else {
      assert listing + [name] == [name];
    }
  }

  /**
   * When nothing throws, `listAll` returns exactly the rooms that decoded, in
   * listing order, and so never more rooms than files.
   */
  lemma {:induction false} ListAllReturnsDecodedRooms(dir: Directory, listing: seq<string>)
    requires ListSpec(dir, listing).Ok?
    ensures ListSpec(dir, listing).value == Decoded(dir, listing)
    ensures |ListSpec(dir, listing).value| <= |listing|
  {
    if |listing| > 0 {
      var init := listing[..|listing| - 1];
      var last := listing[|listing| - 1];
      ListAllReturnsDecodedRooms(dir, init);
      assert listing == init + [last];
      DecodedAppend(dir, init, last);
      assert [last][1..] == [];
    }
  }
}
