// The guest form (features/wedding/components/dashboard/guest-form.tsx): the zod
// schemas for a guest and its companions, the initial values, the group options,
// and the three buttons that edit the form's companion list and gift.

module GuestForm {
  import opened Types
  import opened Seqs

  // ----- what the form holds before validation -----

  datatype CompanionInput = CompanionInput(firstName: string, lastName: Nullish<string>, isAdult: bool)

  /** The gift sub-form; its type is still the select's string. */
  datatype GiftInput = GiftInput(kind: string, amount: Nullish<int>, description: Nullish<string>)

  datatype GuestInput = GuestInput(
    firstName: string,
    lastName: string,
    phone: Nullish<string>,
    attendance: string,
    side: string,
    groupId: Nullish<string>,
    notes: Nullish<string>,
    gift: Nullish<GiftInput>,
    companions: seq<CompanionInput>)

  // ----- what a successful validation hands to `onSubmit` (`GuestFormValues`) -----

  datatype CompanionValues = CompanionValues(firstName: string, lastName: Nullish<string>, isAdult: bool)

  datatype GuestValues = GuestValues(
    firstName: string,
    lastName: string,
    phone: Nullish<string>,
    attendance: Attendance,
    side: Side,
    groupId: Nullish<string>,
    notes: Nullish<string>,
    gift: Nullish<Gift>,
    companions: seq<CompanionValues>)

  /** The paths a validation error can be attached to. */
  datatype Field =
    | FirstName | LastName | Phone | AttendanceField | SideField | GroupId | Notes
    | GiftKind | GiftAmount | GiftDescription
    | CompanionFirstName(index: int) | CompanionLastName(index: int)

  // ----- the schemas -----
  // `allowNull` selects the schema: `false` is the schema as written, where `phone`, `notes`,
  // `gift.amount`, `gift.description` and a companion's `lastName` are `.optional()` (a string
  // or undefined, never null); `true` is the corrected schema, where those columns, which the
  // database hands back as null, are `.nullish()`. `groupId` is `.optional()` in both.

  predicate Optional<T>(v: Nullish<T>)
  {
    !v.Null?
  }

  predicate NullableColumnOk<T>(v: Nullish<T>, allowNull: bool)
  {
    allowNull || Optional(v)
  }

  /** `companionSchema` over every companion: `firstName` of at least 2 characters. */
  function CompanionErrors(cs: seq<CompanionInput>, allowNull: bool): set<Field>
  {
    (set i | 0 <= i < |cs| && |cs[i].firstName| < 2 :: CompanionFirstName(i))
    + (set i | 0 <= i < |cs| && !NullableColumnOk(cs[i].lastName, allowNull) :: CompanionLastName(i))
  }

  /** The gift object is `.optional().nullable()`; when present its type must be a gift type. */
  function GiftErrors(gift: Nullish<GiftInput>, allowNull: bool): set<Field>
  {
    match gift
    case Defined(g) =>
      (if ParseGiftType(g.kind).None? then {GiftKind} else {})
      + (if NullableColumnOk(g.amount, allowNull) then {} else {GiftAmount})
      + (if NullableColumnOk(g.description, allowNull) then {} else {GiftDescription})
    case _ => {}
  }

  /** `guestSchema`: every field that fails its rule. */
  function GuestErrors(x: GuestInput, allowNull: bool): set<Field>
  {
    (if |x.firstName| < 2 then {FirstName} else {})
    + (if |x.lastName| < 2 then {LastName} else {})
    + (if NullableColumnOk(x.phone, allowNull) then {} else {Phone})
    + (if ParseAttendance(x.attendance).None? then {AttendanceField} else {})
    + (if ParseSide(x.side).None? then {SideField} else {})
    + (if Optional(x.groupId) then {} else {GroupId})
    + (if NullableColumnOk(x.notes, allowNull) then {} else {Notes})
    + GiftErrors(x.gift, allowNull)
    + CompanionErrors(x.companions, allowNull)
  }

  /** The rules of the schema, field by field, as one condition. */
  predicate Acceptable(x: GuestInput, allowNull: bool)
  {
    && |x.firstName| >= 2 && |x.lastName| >= 2
    && x.attendance in {"yes", "no", "pending"}
    && x.side in {"bride", "groom"}
    && !x.groupId.Null?
    && (allowNull || (!x.phone.Null? && !x.notes.Null?))
    && (x.gift.Defined? ==>
          && x.gift.value.kind in {"money", "other"}
          && (allowNull || (!x.gift.value.amount.Null? && !x.gift.value.description.Null?)))
    && (forall i :: 0 <= i < |x.companions| ==>
          |x.companions[i].firstName| >= 2 && (allowNull || !x.companions[i].lastName.Null?))
  }

  /** No field error exactly when every rule holds. */
  lemma AcceptedIff(x: GuestInput, allowNull: bool)
    ensures GuestErrors(x, allowNull) == {} <==> Acceptable(x, allowNull)
  {
    var cs := x.companions;
    assert forall i :: 0 <= i < |cs| && |cs[i].firstName| < 2 ==>
      CompanionFirstName(i) in CompanionErrors(cs, allowNull);
    assert forall i :: 0 <= i < |cs| && !NullableColumnOk(cs[i].lastName, allowNull) ==>
      CompanionLastName(i) in CompanionErrors(cs, allowNull);
    if Acceptable(x, allowNull) {
      assert CompanionErrors(cs, allowNull) == {};
    }
  }

  function GiftValue(g: GiftInput): Gift
    requires ParseGiftType(g.kind).Some?
  {
    Gift(ParseGiftType(g.kind).value, g.amount, g.description)
  }

  function CompanionValue(c: CompanionInput): CompanionValues
  {
    CompanionValues(c.firstName, c.lastName, c.isAdult)
  }

  /** `zodResolver(guestSchema)`: the typed values when no field fails, nothing otherwise. */
  function Validate(x: GuestInput, allowNull: bool): (r: Option<GuestValues>)
    ensures r.Some? <==> Acceptable(x, allowNull)
    ensures r.Some? ==>
      && r.value.firstName == x.firstName && r.value.lastName == x.lastName
      && AttendanceName(r.value.attendance) == x.attendance && SideName(r.value.side) == x.side
      && r.value.phone == x.phone && r.value.groupId == x.groupId && r.value.notes == x.notes
      && (r.value.gift.Defined? <==> x.gift.Defined?)
      && (x.gift.Defined? ==> GiftTypeName(r.value.gift.value.kind) == x.gift.value.kind
                              && r.value.gift.value.amount == x.gift.value.amount
                              && r.value.gift.value.description == x.gift.value.description)
      && |r.value.companions| == |x.companions|
      && forall i :: 0 <= i < |x.companions| ==> r.value.companions[i] == CompanionValue(x.companions[i])
  {
    AcceptedIff(x, allowNull);
    if !Acceptable(x, allowNull) then None
    else
      var gift := match x.gift
        case Defined(g) => Defined(GiftValue(g))
        case Null => Null
        case Undefined => Undefined;
      Some(GuestValues(
        x.firstName, x.lastName, x.phone,
        ParseAttendance(x.attendance).value, ParseSide(x.side).value,
        x.groupId, x.notes, gift, Map(x.companions, CompanionValue)))
  }

  /** The corrected schema accepts everything the written one does, with the same values. */
  lemma CorrectionOnlyWidens(x: GuestInput)
    ensures Validate(x, false).Some? ==> Validate(x, true) == Validate(x, false)
  {
  }

  // ----- initial values -----

  /** `Partial<GuestFormValues>`: `None` is a key the caller does not supply. */
  datatype GuestDefaults = GuestDefaults(
    firstName: Option<string>,
    lastName: Option<string>,
    phone: Option<Nullish<string>>,
    attendance: Option<string>,
    side: Option<string>,
    groupId: Option<Nullish<string>>,
    notes: Option<Nullish<string>>,
    gift: Option<Nullish<GiftInput>>,
    companions: Option<seq<CompanionInput>>)

  const NoDefaults := GuestDefaults(None, None, None, None, None, None, None, None, None)

  function Supplied<T>(base: T, d: Option<T>): T
  {
    if d.Some? then d.value else base
  }

  /** `{ firstName: "", lastName: "", phone: "", attendance: "pending", side: "bride",
      companions: [], ...defaultValues }` */
  function InitialValues(d: GuestDefaults): GuestInput
  {
    GuestInput(
      Supplied("", d.firstName),
      Supplied("", d.lastName),
      Supplied(Defined(""), d.phone),
      Supplied("pending", d.attendance),
      Supplied("bride", d.side),
      Supplied(Undefined, d.groupId),
      Supplied(Undefined, d.notes),
      Supplied(Undefined, d.gift),
      Supplied([], d.companions))
  }

  /** Without supplied defaults the form starts pending, on the bride's side, with no companions
      and no gift, and cannot be submitted until both names are filled in. */
  lemma EmptyFormDefaults()
    ensures
      var x := InitialValues(NoDefaults);
      && x.attendance == "pending" && x.side == "bride" && x.companions == [] && x.gift == Undefined
      && GuestErrors(x, false) == {FirstName, LastName}
      && GuestErrors(x, true) == {FirstName, LastName}
  {
    var x := InitialValues(NoDefaults);
    assert CompanionErrors(x.companions, false) == {};
    assert CompanionErrors(x.companions, true) == {};
  }

  /** Every supplied default overrides the base value, whatever it is (a supplied `undefined`
      included); the others keep the base value. */
  lemma SuppliedDefaultsWin(d: GuestDefaults)
    ensures d.firstName.Some? ==> InitialValues(d).firstName == d.firstName.value
    ensures d.phone.Some? ==> InitialValues(d).phone == d.phone.value
    ensures d.phone.None? ==> InitialValues(d).phone == Defined("")
    ensures d.attendance.None? ==> InitialValues(d).attendance == "pending"
    ensures d.side.None? ==> InitialValues(d).side == "bride"
    ensures d.companions.None? ==> InitialValues(d).companions == []
    ensures d.gift.Some? ==> InitialValues(d).gift == d.gift.value
  {
  }

  // ----- the group select -----

  function OnSide(side: Side): Group -> bool
  {
    (g: Group) => g.side == side
  }

  /** `filteredGroups`: exactly the groups of the selected side, in order. */
  function GroupOptions(groups: seq<Group>, side: Side): (r: seq<Group>)
    ensures forall g :: g in r <==> g in groups && g.side == side
  {
    Filter(groups, OnSide(side))
  }

  // ----- editing the companion list and the gift -----

  const NewCompanion := CompanionInput("", Defined(""), true)

  /** `filter((_, i) => i !== index)`: the list without position `index`; an index outside the
      list removes nothing. */
  function WithoutIndex<T>(s: seq<T>, index: int): (r: seq<T>)
    ensures 0 <= index < |s| ==> r == s[..index] + s[index + 1..]
    ensures !(0 <= index < |s|) ==> r == s
  {
    if s == [] then []
    else (if index == 0 then [] else [s[0]]) + WithoutIndex(s[1..], index - 1)
  }

  /** `currentGift ? null : { type: "money" }`: removing drops every gift field. */
  function ToggledGift(g: Nullish<GiftInput>): (r: Nullish<GiftInput>)
    ensures g.Defined? ==> r == Null
    ensures !g.Defined? ==> r == Defined(GiftInput("money", Undefined, Undefined))
  {
    if g.Defined? then Null else Defined(GiftInput("money", Undefined, Undefined))
  }

  /** Removing a gift and adding it back gives a fresh money gift, not the old one. */
  lemma GiftToggleForgets(g: GiftInput)
    ensures ToggledGift(ToggledGift(Defined(g))) == Defined(GiftInput("money", Undefined, Undefined))
  {
  }

  /** The values the form holds while it is being filled in. */
  class FormState {
    var values: GuestInput

    constructor(d: GuestDefaults)
      ensures values == InitialValues(d)
    {
      values := InitialValues(d);
    }

    /** `addCompanion`: one adult with empty names, at the end. */
    method AddCompanion()
      modifies this
      ensures values == old(values).(companions := old(values.companions) + [NewCompanion])
    {
      values := values.(companions := values.companions + [NewCompanion]);
    }

    /** `removeCompanion(index)` */
    method RemoveCompanion(index: int)
      modifies this
      ensures values == old(values).(companions := WithoutIndex(old(values.companions), index))
      ensures 0 <= index < |old(values.companions)| ==> |values.companions| == |old(values.companions)| - 1
    {
      values := values.(companions := WithoutIndex(values.companions, index));
    }

    /** The gift button. */
    method ToggleGift()
      modifies this
      ensures values == old(values).(gift := ToggledGift(old(values.gift)))
    {
      values := values.(gift := ToggledGift(values.gift));
    }
  }

  /** Removing the companion just added restores the list. */
  lemma AddThenRemoveRestores(cs: seq<CompanionInput>)
    ensures WithoutIndex(cs + [NewCompanion], |cs|) == cs
  {
    assert (cs + [NewCompanion])[..|cs|] == cs;
  }

  // ----- the companion type select -----

  /** `onValueChange={(value) => field.onChange(value === "adult")}` */
  function AdultOfSelect(value: string): bool
  {
    value == "adult"
  }

  /** `value={field.value ? "adult" : "child"}` */
  function SelectOfAdult(isAdult: bool): string
  {
    if isAdult then "adult" else "child"
  }

  /** The select shows what it sets, and reading a shown value back gives it again. */
  lemma AdultSelectRoundTrip(isAdult: bool, value: string)
    ensures AdultOfSelect(SelectOfAdult(isAdult)) == isAdult
    ensures SelectOfAdult(AdultOfSelect(value)) == value <==> value == "adult" || value == "child"
  {
  }
}
