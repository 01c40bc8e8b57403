// The two dialogs around the guest form: the payload the add dialog sends to
// `addGuest` (features/wedding/components/dashboard/add-guest-dialog.tsx), and the
// defaults and payload of the edit dialog
// (features/wedding/components/dashboard/edit-guest-dialog.tsx).

module GuestDialogs {
  import opened Types
  import opened Seqs
  import opened GuestForm
  import opened ApiRows

  // ----- `temp-${i}` -----

  function DigitChar(d: nat): char
    requires d < 10
  {
    ('0' as int + d) as char
  }

  /** The decimal digits of `n`, as a template literal prints it. */
  function NatToString(n: nat): (s: string)
    ensures |s| >= 1
    ensures n >= 10 <==> |s| >= 2
  {
    if n < 10 then [DigitChar(n)] else NatToString(n / 10) + [DigitChar(n % 10)]
  }

  /** Different numbers print differently. */
  lemma {:induction false} NatToStringInjective(a: nat, b: nat)
    requires NatToString(a) == NatToString(b)
    ensures a == b
  {
    var s := NatToString(a);
    if a >= 10 && b >= 10 {
      assert s[|s| - 1] == DigitChar(a % 10) == DigitChar(b % 10);
      assert s[..|s| - 1] == NatToString(a / 10) == NatToString(b / 10);
      NatToStringInjective(a / 10, b / 10);
    } else {
      assert s[0] == DigitChar(a) == DigitChar(b);
    }
  }

  function TempId(i: nat): string
  {
    "temp-" + NatToString(i)
  }

  /** Temporary ids of different positions differ. */
  lemma TempIdsDistinct(i: nat, j: nat)
    ensures TempId(i) == TempId(j) ==> i == j
  {
    if TempId(i) == TempId(j) {
      assert TempId(i)[5..] == NatToString(i);
      assert TempId(j)[5..] == NatToString(j);
      NatToStringInjective(i, j);
    }
  }

  // ----- add-guest-dialog.tsx -----

  function CompanionWithId(c: CompanionValues, id: string): Companion
  {
    Companion(id, c.firstName, c.lastName, c.isAdult)
  }

  function CompanionId(c: Companion): string
  {
    c.id
  }

  /** `onSubmit`: the form values, the group id `|| null`, and companion `i` with id `temp-i`. */
  function AddPayload(v: GuestValues): (p: NewGuest)
    ensures p.groupId == OrNull(v.groupId)
    ensures |p.companions| == |v.companions|
    ensures forall i :: 0 <= i < |v.companions| ==> p.companions[i] == CompanionWithId(v.companions[i], TempId(i))
    ensures NoDup(Map(p.companions, CompanionId))
    ensures (p.firstName, p.lastName, p.phone, p.attendance, p.side, p.notes, p.gift)
         == (v.firstName, v.lastName, v.phone, v.attendance, v.side, v.notes, v.gift)
  {
    var cs := seq(|v.companions|, i requires 0 <= i < |v.companions| => CompanionWithId(v.companions[i], TempId(i)));
    var ids := Map(cs, CompanionId);
    forall i, j | 0 <= i < j < |ids|
      ensures ids[i] != ids[j]
    {
      TempIdsDistinct(i, j);
    }
    NewGuest(v.firstName, v.lastName, v.phone, v.attendance, v.side, OrNull(v.groupId), v.notes, cs, v.gift)
  }

  /** No group chosen (no value, or the empty string) is stored as a NULL group column, so the
      guest shows among the ungrouped ones. */
  lemma NoGroupChoiceStoredAsNull(v: GuestValues, id: string, weddingId: string)
    requires !TruthyString(v.groupId)
    ensures NewGuestRow(id, weddingId, AddPayload(v)).groupId == None
    ensures !TruthyString(FromColumn(NewGuestRow(id, weddingId, AddPayload(v)).groupId))
  {
  }

  // ----- edit-guest-dialog.tsx -----

  /** `guest.companions[i]?.id || `temp-${i}``: the existing companion at the same position
      lends its id when it has a non-empty one. */
  function EditCompanionId(existing: seq<Companion>, i: nat): (id: string)
    ensures i < |existing| && existing[i].id != "" ==> id == existing[i].id
    ensures !(i < |existing| && existing[i].id != "") ==> id == TempId(i)
  {
    if i < |existing| && existing[i].id != "" then existing[i].id else TempId(i)
  }

  /** `onSubmit`: every key of the form, the group id `|| null`, and the companions in form
      order with reused or temporary ids. */
  function EditPayload(guest: Guest, v: GuestValues): (p: GuestPatch)
    ensures p.firstName == Some(v.firstName) && p.lastName == Some(v.lastName)
    ensures p.attendance == Some(v.attendance) && p.side == Some(v.side)
    ensures p.phone == v.phone && p.notes == v.notes && p.gift == v.gift
    ensures p.groupId == OrNull(v.groupId)
    ensures p.companions.Some? && |p.companions.value| == |v.companions|
    ensures forall i :: 0 <= i < |v.companions| ==>
      p.companions.value[i] == CompanionWithId(v.companions[i], EditCompanionId(guest.companions, i))
  {
    var cs := seq(|v.companions|, i requires 0 <= i < |v.companions| =>
      CompanionWithId(v.companions[i], EditCompanionId(guest.companions, i)));
    GuestPatch(Some(v.firstName), Some(v.lastName), v.phone, Some(v.attendance), Some(v.side),
               OrNull(v.groupId), v.notes, Some(cs), v.gift)
  }

  function CompanionInputOf(c: Companion): CompanionInput
  {
    CompanionInput(c.firstName, c.lastName, c.isAdult)
  }

  function GiftInputOf(g: Nullish<Gift>): Nullish<GiftInput>
  {
    if g.Defined? then Defined(GiftInput(GiftTypeName(g.value.kind), g.value.amount, g.value.description))
    else Undefined
  }

  /** The defaults the edit dialog passes to the form: the guest's own values, a falsy group id
      as `undefined`, the gift only when it has a type, and the companions without their ids. */
  function EditDefaults(g: Guest): (d: GuestDefaults)
    ensures d.firstName == Some(g.firstName) && d.lastName == Some(g.lastName)
    ensures d.phone == Some(g.phone) && d.notes == Some(g.notes)
    ensures d.attendance == Some(AttendanceName(g.attendance)) && d.side == Some(SideName(g.side))
    ensures d.groupId == Some(OrUndefined(g.groupId))
    ensures d.gift.Some? && (d.gift.value.Defined? <==> g.gift.Defined?)
    ensures g.gift.Defined? ==>
      d.gift.value.value == GiftInput(GiftTypeName(g.gift.value.kind), g.gift.value.amount, g.gift.value.description)
    ensures d.companions.Some? && |d.companions.value| == |g.companions|
    ensures forall i :: 0 <= i < |g.companions| ==>
      d.companions.value[i] == CompanionInput(g.companions[i].firstName, g.companions[i].lastName, g.companions[i].isAdult)
  {
    GuestDefaults(
      Some(g.firstName), Some(g.lastName), Some(g.phone),
      Some(AttendanceName(g.attendance)), Some(SideName(g.side)),
      Some(OrUndefined(g.groupId)), Some(g.notes), Some(GiftInputOf(g.gift)),
      Some(Map(g.companions, CompanionInputOf)))
  }

  /** The names a guest must have for the edit form to pass the name rules at all. */
  predicate NamesLongEnough(g: Guest)
  {
    |g.firstName| >= 2 && |g.lastName| >= 2
    && forall i :: 0 <= i < |g.companions| ==> |g.companions[i].firstName| >= 2
  }

  /** As written, the edit form of a guest with a null `phone`, `notes`, gift amount or gift
      description, or a companion with a null last name, can never be submitted unchanged. */
  lemma EditDefaultsRejectedAsWritten(g: Guest)
    requires || g.phone.Null? || g.notes.Null?
             || (g.gift.Defined? && (g.gift.value.amount.Null? || g.gift.value.description.Null?))
             || (exists i :: 0 <= i < |g.companions| && g.companions[i].lastName.Null?)
    ensures Validate(InitialValues(EditDefaults(g)), false).None?
  {
    var x := InitialValues(EditDefaults(g));
    if exists i :: 0 <= i < |g.companions| && g.companions[i].lastName.Null? {
      var i :| 0 <= i < |g.companions| && g.companions[i].lastName.Null?;
      assert x.companions[i].lastName.Null?;
    }
  }

  /** A guest added without notes is stored with a NULL notes column, reads back with
      `notes: null`, and so cannot be edited with the written schema. */
  lemma GuestWithoutNotesCannotBeEdited(v: GuestValues, rec: GuestRecord, weddingId: string)
    requires v.notes.Undefined?
    requires rec.row == NewGuestRow(rec.row.id, weddingId, AddPayload(v))
    ensures Validate(InitialValues(EditDefaults(GuestOfRecord(rec))), false).None?
  {
    EditDefaultsRejectedAsWritten(GuestOfRecord(rec));
  }

  /** Every money gift is stored with a NULL description, so a guest with a money gift cannot be
      edited with the written schema either. */
  lemma GuestWithMoneyGiftCannotBeEdited(row: GuestRow, companions: seq<CompanionRow>, gift: Gift)
    requires gift.kind == Money
    ensures
      var rec := GuestRecord(row, companions, GiftRowsFor(row.id, Defined(gift)));
      Validate(InitialValues(EditDefaults(GuestOfRecord(rec))), false).None?
  {
    var rec := GuestRecord(row, companions, GiftRowsFor(row.id, Defined(gift)));
    StoredGiftReadsBack(row.id, gift);
    EditDefaultsRejectedAsWritten(GuestOfRecord(rec));
  }

  /** With the corrected schema the edit form of every guest passes, as long as the names meet
      the length rules. */
  lemma EditDefaultsAccepted(g: Guest)
    requires NamesLongEnough(g)
    ensures Validate(InitialValues(EditDefaults(g)), true).Some?
  {
    var x := InitialValues(EditDefaults(g));
    assert x.attendance in {"yes", "no", "pending"} by {
      match g.attendance
      case Yes =>
      case No =>
      case Pending =>
    }
    assert x.side in {"bride", "groom"} by {
      match g.side
      case Bride =>
      case Groom =>
    }
    if g.gift.Defined? {
      assert x.gift.value.kind in {"money", "other"} by {
        match g.gift.value.kind
        case Money =>
        case Other =>
      }
    }
  }

  /** Saving the edit form's defaults unchanged rewrites the guest row with its own values: only
      an empty group id turns into NULL. This leaves out the form's mount-time reset of the
      group id; `MountResetDropsGroup` states what that reset does. */
  lemma SavingUnchangedKeepsRow(rec: GuestRecord)
    requires NamesLongEnough(GuestOfRecord(rec))
    ensures
      var g := GuestOfRecord(rec);
      var v := Validate(InitialValues(EditDefaults(g)), true);
      v.Some? &&
      PatchedRow(rec.row, EditPayload(g, v.value))
        == rec.row.(groupId := if rec.row.groupId == Some("") then None else rec.row.groupId)
  {
    var g := GuestOfRecord(rec);
    EditDefaultsAccepted(g);
    var v := Validate(InitialValues(EditDefaults(g)), true).value;
    assert ParseAttendance(AttendanceName(g.attendance)) == Some(g.attendance);
    assert ParseSide(SideName(g.side)) == Some(g.side);
    assert v.attendance == g.attendance && v.side == g.side;
  }

  /** The guest form clears its group id once when it mounts (an effect keyed on the form object,
      which never changes). Saved untouched after that, any guest loses its group: the row's
      group id becomes NULL, and every other column keeps its value. */
  lemma MountResetDropsGroup(rec: GuestRecord)
    requires NamesLongEnough(GuestOfRecord(rec))
    ensures
      var g := GuestOfRecord(rec);
      var v := Validate(InitialValues(EditDefaults(g)).(groupId := Undefined), true);
      v.Some? &&
      PatchedRow(rec.row, EditPayload(g, v.value)) == rec.row.(groupId := None)
  {
    var g := GuestOfRecord(rec);
    EditDefaultsAccepted(g);
    var v := Validate(InitialValues(EditDefaults(g)).(groupId := Undefined), true).value;
    assert ParseAttendance(AttendanceName(g.attendance)) == Some(g.attendance);
    assert ParseSide(SideName(g.side)) == Some(g.side);
    assert v.attendance == g.attendance && v.side == g.side;
  }

  /** ... and its companions read back in order with the same names and adult flags. */
  lemma SavingUnchangedKeepsCompanions(rec: GuestRecord, companionTable: seq<CompanionRow>,
                                       giftTable: seq<GiftRow>, ids: seq<string>, gift: Gift)
    requires NamesLongEnough(GuestOfRecord(rec))
    requires |ids| == |rec.companions|
    ensures
      var g := GuestOfRecord(rec);
      var v := Validate(InitialValues(EditDefaults(g)), true);
      v.Some? &&
      var cs := EditPayload(g, v.value).companions.value;
      var back := GuestOfRecord(GuestRecord(rec.row,
        Filter(ReplacedCompanions(companionTable, rec.row.id, cs, ids), CompanionOf(rec.row.id)),
        Filter(ReplacedGifts(giftTable, rec.row.id, Defined(gift)), GiftOf(rec.row.id))));
      && |back.companions| == |g.companions|
      && forall i :: 0 <= i < |g.companions| ==>
           back.companions[i].firstName == g.companions[i].firstName
           && back.companions[i].isAdult == g.companions[i].isAdult
           && back.companions[i].lastName == g.companions[i].lastName
  {
    var g := GuestOfRecord(rec);
    EditDefaultsAccepted(g);
    var v := Validate(InitialValues(EditDefaults(g)), true).value;
    var cs := EditPayload(g, v).companions.value;
    UpdatedGuestReadsBack(rec.row, companionTable, giftTable, cs, ids, gift);
  }
}
