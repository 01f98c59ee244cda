/** The category of a room, a `String`-backed enumeration. */
module RoomTypes {
  import opened Wrappers

  datatype RoomType = LivingRoom | DiningRoom | GuestRoom | BedRoom | BathRoom | Kitchen | Office {

    function RawValue(): string {
      match this
      case LivingRoom => "Living Room"
      case DiningRoom => "Dining Room"
      case GuestRoom => "Guest Room"
      case BedRoom => "Bedroom"
      case BathRoom => "Bathroom"
      case Kitchen => "Kitchen"
      case Office => "Office"
    }

    /** `CustomStringConvertible.description`. */
    function Description(): string {
      RawValue()
    }
  }

  /** `RoomType.allCases`, in declaration order. */
  const AllCases: seq<RoomType> := [LivingRoom, DiningRoom, GuestRoom, BedRoom, BathRoom, Kitchen, Office]

  /** `RoomType(rawValue:)`: the case whose raw value is `s`, or nil. */
  function FromRawValue(s: string): (r: Option<RoomType>)
    ensures r.Some? ==> r.value.RawValue() == s
    ensures r.None? ==> forall t: RoomType :: t.RawValue() != s
  {
    if s == "Living Room" then Some(LivingRoom)
    else if s == "Dining Room" then Some(DiningRoom)
    else if s == "Guest Room" then Some(GuestRoom)
    else if s == "Bedroom" then Some(BedRoom)
    else if s == "Bathroom" then Some(BathRoom)
    else if s == "Kitchen" then Some(Kitchen)
    else if s == "Office" then Some(Office)
    else None
  }

  lemma DescriptionIsRawValue(t: RoomType)
    ensures t.Description() == t.RawValue()
  {
  }

  /** The seven raw values are pairwise distinct. */
  lemma RawValuesDistinct(t: RoomType, u: RoomType)
    ensures t.RawValue() == u.RawValue() ==> t == u
  {
  }

  /** Parsing the raw value of a case gives back that case. */
  lemma FromRawValueRoundTrip(t: RoomType)
    ensures FromRawValue(t.RawValue()) == Some(t)
  {
    RawValuesDistinct(FromRawValue(t.RawValue()).value, t);
  }

  /** `allCases` lists every case exactly once, seven in all. */
  lemma AllCasesComplete(t: RoomType)
    ensures |AllCases| == 7
    ensures t in AllCases
    ensures forall i, j :: 0 <= i < j < |AllCases| ==> AllCases[i] != AllCases[j]
  {
  }
}
