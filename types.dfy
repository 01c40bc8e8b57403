// The entities of the wedding guest list (features/wedding/types.ts) and the
// few JavaScript value conventions the rest of the model relies on.

module Types {

  datatype Option<T> = None | Some(value: T)

  /** A JavaScript value that may be missing (`undefined`), `null`, or present. */
  datatype Nullish<T> = Undefined | Null | Defined(value: T)

  /** JavaScript truthiness of an optional string: present and non-empty. */
  predicate TruthyString(v: Nullish<string>)
  {
    v.Defined? && v.value != ""
  }

  /** JavaScript truthiness of an optional number: present and non-zero. */
  predicate TruthyNumber(v: Nullish<int>)
  {
    v.Defined? && v.value != 0
  }

  /** `v || null`: every falsy value becomes `null`. */
  function OrNull(v: Nullish<string>): (r: Nullish<string>)
    ensures TruthyString(v) ==> r == v
    ensures !TruthyString(v) ==> r == Null
  {
    if TruthyString(v) then v else Null
  }

  /** `v || undefined`: every falsy value becomes `undefined`. */
  function OrUndefined(v: Nullish<string>): (r: Nullish<string>)
    ensures TruthyString(v) ==> r == v
    ensures !TruthyString(v) ==> r == Undefined
  {
    if TruthyString(v) then v else Undefined
  }

  datatype Side = Bride | Groom
  datatype Attendance = Yes | No | Pending
  datatype GiftType = Money | Other

  function SideName(s: Side): string
  {
    match s
    case Bride => "bride"
    case Groom => "groom"
  }

  function AttendanceName(a: Attendance): string
  {
    match a
    case Yes => "yes"
    case No => "no"
    case Pending => "pending"
  }

  function GiftTypeName(t: GiftType): string
  {
    match t
    case Money => "money"
    case Other => "other"
  }

  /** The string literals of `Side`: exactly "bride" and "groom". */
  function ParseSide(s: string): (r: Option<Side>)
    ensures forall x :: r == Some(x) <==> SideName(x) == s
    ensures r.None? <==> s != "bride" && s != "groom"
  {
    if s == "bride" then Some(Bride)
    else if s == "groom" then Some(Groom)
    else None
  }

  /** The string literals of `Attendance`: exactly "yes", "no" and "pending". */
  function ParseAttendance(s: string): (r: Option<Attendance>)
    ensures forall x :: r == Some(x) <==> AttendanceName(x) == s
    ensures r.None? <==> s != "yes" && s != "no" && s != "pending"
  {
    if s == "yes" then Some(Yes)
    else if s == "no" then Some(No)
    else if s == "pending" then Some(Pending)
    else None
  }

  /** The string literals of `GiftType`: exactly "money" and "other". */
  function ParseGiftType(s: string): (r: Option<GiftType>)
    ensures forall x :: r == Some(x) <==> GiftTypeName(x) == s
    ensures r.None? <==> s != "money" && s != "other"
  {
    if s == "money" then Some(Money)
    else if s == "other" then Some(Other)
    else None
  }

  /** A gift: a type tag and two optional fields the type does not tie to the tag. */
  datatype Gift = Gift(kind: GiftType, amount: Nullish<int>, description: Nullish<string>)

  datatype Companion = Companion(id: string, firstName: string, lastName: Nullish<string>, isAdult: bool)

  datatype Guest = Guest(
    id: string,
    firstName: string,
    lastName: string,
    phone: Nullish<string>,
    attendance: Attendance,
    side: Side,
    groupId: Nullish<string>,   // absent, null or "" all mean "ungrouped"
    notes: Nullish<string>,
    companions: seq<Companion>,
    gift: Nullish<Gift>)

  datatype Group = Group(id: string, name: string, side: Side)

  datatype Venue = Venue(name: string, address: string, hall: string)

  datatype WeddingDetails = WeddingDetails(
    id: string,
    brideName: string,
    groomName: string,
    date: string,
    venue: Venue,
    pricePerPerson: int,
    inviteCode: Nullish<string>)

  datatype GroupStats = GroupStats(totalGuests: int, totalAdults: int, totalChildren: int, totalGiftAmount: int)

  datatype GroupWithStats = GroupWithStats(group: Group, stats: GroupStats)

  datatype WeddingStats = WeddingStats(
    totalGuests: int,
    totalAdults: int,
    totalChildren: int,
    totalCost: int,
    totalGiftAmount: int)

  /** What a caught JavaScript exception can be: an `Error` with a message, or anything else. */
  datatype Thrown = ErrorObject(message: string) | OtherValue

  /** `err instanceof Error ? err.message : fallback` */
  function ErrorText(err: Thrown, fallback: string): (r: string)
    ensures err.ErrorObject? ==> r == err.message
    ensures err.OtherValue? ==> r == fallback
  {
    match err
    case ErrorObject(m) => m
    case OtherValue => fallback
  }
}
