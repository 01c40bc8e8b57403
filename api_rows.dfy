// The backend tables as rows, and the pure parts of features/wedding/lib/api.ts:
// reading guests back from rows, the per-group statistics, the rows written for a
// gift and for companions, and the order in which a caller's wedding is resolved.

module ApiRows {
  import opened Types
  import opened Seqs
  import Stats

  datatype WeddingRow = WeddingRow(id: string, userId: string)
  datatype GroupRow = GroupRow(id: string, weddingId: string, name: string, side: Side)
  datatype GuestRow = GuestRow(
    id: string,
    weddingId: string,
    firstName: string,
    lastName: string,
    phone: Option<string>,
    attendance: Attendance,
    side: Side,
    groupId: Option<string>,
    notes: Option<string>)
  datatype CompanionRow = CompanionRow(id: string, guestId: string, firstName: string, lastName: Option<string>, isAdult: bool)
  datatype GiftRow = GiftRow(guestId: string, kind: GiftType, description: Option<string>, amount: Option<int>)
  datatype CollaboratorRow = CollaboratorRow(weddingId: string, email: string)

  /** The caller as the auth session knows them. */
  datatype Session = Session(userId: string, email: string)

  /** `Omit<Guest, "id">`, the argument of `addGuest`. */
  datatype NewGuest = NewGuest(
    firstName: string,
    lastName: string,
    phone: Nullish<string>,
    attendance: Attendance,
    side: Side,
    groupId: Nullish<string>,
    notes: Nullish<string>,
    companions: seq<Companion>,
    gift: Nullish<Gift>)

  /** `Partial<Guest>`, the argument of `updateGuest`: `None`/`Undefined` is a missing key. */
  datatype GuestPatch = GuestPatch(
    firstName: Option<string>,
    lastName: Option<string>,
    phone: Nullish<string>,
    attendance: Option<Attendance>,
    side: Option<Side>,
    groupId: Nullish<string>,
    notes: Nullish<string>,
    companions: Option<seq<Companion>>,
    gift: Nullish<Gift>)

  /** A guest row with its embedded `companions (*)` and `gifts (*)`, as one select returns it. */
  datatype GuestRecord = GuestRecord(row: GuestRow, companions: seq<CompanionRow>, gifts: seq<GiftRow>)

  /** A group row with its embedded guests. */
  datatype GroupRecord = GroupRecord(row: GroupRow, guests: seq<GuestRecord>)

  // ----- nullable columns -----

  /** A nullable column read into JavaScript: SQL NULL arrives as `null`. */
  function FromColumn<T>(c: Option<T>): Nullish<T>
  {
    match c
    case None => Null
    case Some(v) => Defined(v)
  }

  /** A JavaScript value written into a nullable column; a missing (`undefined`) key takes the
      column default, NULL. */
  function ToColumn<T>(v: Nullish<T>): Option<T>
  {
    match v
    case Defined(x) => Some(x)
    case _ => None
  }

  /** Writing and reading back turns a missing value into `null` and keeps the rest. */
  function Nullified<T>(v: Nullish<T>): Nullish<T>
  {
    if v.Defined? then v else Null
  }

  // ----- getGuests: rows to guests -----

  function CompanionOfRow(c: CompanionRow): Companion
  {
    Companion(c.id, c.firstName, FromColumn(c.lastName), c.isAdult)
  }

  /** `guest.gifts[0] ? { type, description, amount } : undefined` */
  function FirstGift(gifts: seq<GiftRow>): (r: Nullish<Gift>)
    ensures r.Null? == false
    ensures r.Undefined? <==> gifts == []
    ensures r.Defined? ==> r.value == Gift(gifts[0].kind, FromColumn(gifts[0].amount), FromColumn(gifts[0].description))
  {
    if gifts == [] then Undefined
    else Defined(Gift(gifts[0].kind, FromColumn(gifts[0].amount), FromColumn(gifts[0].description)))
  }

  /** One element of the `getGuests` map. */
  function GuestOfRecord(r: GuestRecord): (g: Guest)
    ensures g.id == r.row.id && g.groupId == FromColumn(r.row.groupId)
    ensures g.firstName == r.row.firstName && g.lastName == r.row.lastName
    ensures g.phone == FromColumn(r.row.phone) && g.notes == FromColumn(r.row.notes)
    ensures g.attendance == r.row.attendance && g.side == r.row.side
    ensures |g.companions| == |r.companions|
    ensures forall i :: 0 <= i < |r.companions| ==>
      && g.companions[i].id == r.companions[i].id
      && g.companions[i].firstName == r.companions[i].firstName
      && g.companions[i].lastName == FromColumn(r.companions[i].lastName)
      && g.companions[i].isAdult == r.companions[i].isAdult
    ensures g.gift == FirstGift(r.gifts)
  {
    Guest(
      r.row.id, r.row.firstName, r.row.lastName, FromColumn(r.row.phone),
      r.row.attendance, r.row.side, FromColumn(r.row.groupId), FromColumn(r.row.notes),
      Map(r.companions, CompanionOfRow),
      FirstGift(r.gifts))
  }

  function GuestsOfRecords(rs: seq<GuestRecord>): (gs: seq<Guest>)
    ensures |gs| == |rs|
    ensures forall i :: 0 <= i < |rs| ==> gs[i] == GuestOfRecord(rs[i])
  {
    Map(rs, GuestOfRecord)
  }

  // ----- getGroupsWithStats -----

  function IsAdultRow(c: CompanionRow): bool
  {
    c.isAdult
  }

  /** `guests.flatMap((g) => g.companions || [])` */
  function RecordCompanions(rs: seq<GuestRecord>): seq<CompanionRow>
  {
    if rs == [] then [] else rs[0].companions + RecordCompanions(rs[1..])
  }

  /** What one guest adds to a group's gift amount: its first gift row's amount when that row
      is a money gift with a truthy amount. */
  function FirstGiftMoney(r: GuestRecord): int
  {
    if r.gifts != [] && r.gifts[0].kind == Money && r.gifts[0].amount.Some? && r.gifts[0].amount.value != 0
    then r.gifts[0].amount.value
    else 0
  }

  /** One element of the `getGroupsWithStats` map. */
  function GroupWithStatsOf(g: GroupRecord): (r: GroupWithStats)
    ensures r.group == Group(g.row.id, g.row.name, g.row.side)
    ensures r.stats.totalGuests == r.stats.totalAdults + r.stats.totalChildren
    ensures r.stats.totalAdults >= |g.guests|
  {
    var companions := RecordCompanions(g.guests);
    FilterPartition(companions, IsAdultRow);
    GroupWithStats(
      Group(g.row.id, g.row.name, g.row.side),
      GroupStats(
        |g.guests| + |companions|,
        |g.guests| + |Filter(companions, IsAdultRow)|,
        |Filter(companions, Not(IsAdultRow))|,
        Sum(g.guests, FirstGiftMoney)))
  }

  lemma {:induction false} CompanionsOfRecordsMatch(rs: seq<GuestRecord>)
    ensures Stats.AllCompanions(GuestsOfRecords(rs)) == Map(RecordCompanions(rs), CompanionOfRow)
  {
    if rs != [] {
      CompanionsOfRecordsMatch(rs[1..]);
      assert GuestsOfRecords(rs)[1..] == GuestsOfRecords(rs[1..]);
      MapAppend(rs[0].companions, RecordCompanions(rs[1..]), CompanionOfRow);
    }
  }

  lemma {:induction false} MapAppend<T, U>(a: seq<T>, b: seq<T>, f: T -> U)
    ensures Map(a + b, f) == Map(a, f) + Map(b, f)
  {
  }

  lemma {:induction false} AdultsSurviveMapping(cs: seq<CompanionRow>)
    ensures |Filter(Map(cs, CompanionOfRow), Stats.IsAdult)| == |Filter(cs, IsAdultRow)|
    ensures |Filter(Map(cs, CompanionOfRow), Not(Stats.IsAdult))| == |Filter(cs, Not(IsAdultRow))|
  {
    if cs != [] {
      AdultsSurviveMapping(cs[1..]);
      assert Map(cs, CompanionOfRow)[1..] == Map(cs[1..], CompanionOfRow);
    }
  }

  lemma {:induction false} GiftSumsMatch(rs: seq<GuestRecord>)
    ensures Stats.GiftTotal(GuestsOfRecords(rs)) == Sum(rs, FirstGiftMoney)
  {
    if rs != [] {
      GiftSumsMatch(rs[1..]);
      assert GuestsOfRecords(rs)[1..] == GuestsOfRecords(rs[1..]);
    }
  }

  /** The per-group statistics are the whole-wedding statistics computed over the group's
      guests as `getGuests` would return them: same guest, adult and child counts, and the
      same gift sum, because `getGuests` keeps exactly the first gift row. */
  lemma GroupStatsAgreeWithWeddingStats(g: GroupRecord, d: WeddingDetails)
    ensures
      var s := GroupWithStatsOf(g).stats;
      var w := Stats.WeddingStatsOf(GuestsOfRecords(g.guests), Some(d));
      && s.totalGuests == w.totalGuests
      && s.totalAdults == w.totalAdults
      && s.totalChildren == w.totalChildren
      && s.totalGiftAmount == w.totalGiftAmount
  {
    CompanionsOfRecordsMatch(g.guests);
    AdultsSurviveMapping(RecordCompanions(g.guests));
    GiftSumsMatch(g.guests);
  }

  // ----- addGuest / updateGuest: what is written -----

  /** The gift row written for a guest, if any: only a present gift with a type is stored, its
      description survives only for type "other" and its amount only for type "money". */
  function GiftRowFor(guestId: string, gift: Nullish<Gift>): (r: Option<GiftRow>)
    ensures r.Some? <==> gift.Defined?
    ensures r.Some? ==> r.value.guestId == guestId && r.value.kind == gift.value.kind
    ensures r.Some? && r.value.description.Some? ==> r.value.kind == Other
    ensures r.Some? && r.value.amount.Some? ==> r.value.kind == Money
    ensures r.Some? && r.value.kind == Other ==> r.value.description == ToColumn(gift.value.description)
    ensures r.Some? && r.value.kind == Money ==> r.value.amount == ToColumn(gift.value.amount)
  {
    match gift
    case Defined(g) =>
      Some(GiftRow(
        guestId,
        g.kind,
        if g.kind == Other then ToColumn(g.description) else None,
        if g.kind == Money then ToColumn(g.amount) else None))
    case _ => None
  }

  function GiftRowsFor(guestId: string, gift: Nullish<Gift>): seq<GiftRow>
  {
    match GiftRowFor(guestId, gift)
    case Some(row) => [row]
    case None => []
  }

  /** A gift as it reads back after being stored: the field its type does not use is `null`. */
  function NormalisedGift(g: Gift): Gift
  {
    Gift(
      g.kind,
      if g.kind == Money then Nullified(g.amount) else Null,
      if g.kind == Other then Nullified(g.description) else Null)
  }

  /** A stored gift reads back as its normalised form. */
  lemma StoredGiftReadsBack(guestId: string, g: Gift)
    ensures FirstGift(GiftRowsFor(guestId, Defined(g))) == Defined(NormalisedGift(g))
  {
  }

  /** The companion rows inserted for a guest; the payload's companion ids are not stored, the
      database assigns `ids`. */
  function CompanionRowsFor(guestId: string, cs: seq<Companion>, ids: seq<string>): (rows: seq<CompanionRow>)
    requires |ids| == |cs|
    ensures |rows| == |cs|
    ensures forall i :: 0 <= i < |cs| ==>
      rows[i] == CompanionRow(ids[i], guestId, cs[i].firstName, ToColumn(cs[i].lastName), cs[i].isAdult)
  {
    if cs == [] then []
    else [CompanionRow(ids[0], guestId, cs[0].firstName, ToColumn(cs[0].lastName), cs[0].isAdult)]
         + CompanionRowsFor(guestId, cs[1..], ids[1..])
  }

  /** Stored companions read back in the same order, with the same names and adult flags, a
      missing last name as `null`, and the database's ids in place of the payload's. */
  lemma StoredCompanionsReadBack(guestId: string, cs: seq<Companion>, ids: seq<string>)
    requires |ids| == |cs|
    ensures var back := Map(CompanionRowsFor(guestId, cs, ids), CompanionOfRow);
      && |back| == |cs|
      && forall i :: 0 <= i < |cs| ==>
           back[i] == Companion(ids[i], cs[i].firstName, Nullified(cs[i].lastName), cs[i].isAdult)
  {
  }

  function NewGuestRow(id: string, weddingId: string, g: NewGuest): GuestRow
  {
    GuestRow(id, weddingId, g.firstName, g.lastName, ToColumn(g.phone), g.attendance, g.side,
             ToColumn(g.groupId), ToColumn(g.notes))
  }

  /** One column of an `update`: a missing key leaves it, `null` clears it, a value sets it. */
  function SetColumn<T>(current: Option<T>, v: Nullish<T>): (r: Option<T>)
    ensures v.Undefined? ==> r == current
    ensures v.Null? ==> r == None
    ensures v.Defined? ==> r == Some(v.value)
  {
    match v
    case Undefined => current
    case Null => None
    case Defined(x) => Some(x)
  }

  function OrKeep<T>(current: T, v: Option<T>): T
  {
    if v.Some? then v.value else current
  }

  /** The guest row after `update({...}).eq("id", id)` with the patch's columns. */
  function PatchedRow(row: GuestRow, p: GuestPatch): GuestRow
  {
    row.(firstName := OrKeep(row.firstName, p.firstName),
         lastName := OrKeep(row.lastName, p.lastName),
         phone := SetColumn(row.phone, p.phone),
         attendance := OrKeep(row.attendance, p.attendance),
         side := OrKeep(row.side, p.side),
         groupId := SetColumn(row.groupId, p.groupId),
         notes := SetColumn(row.notes, p.notes))
  }

  function PatchRows(rows: seq<GuestRow>, id: string, p: GuestPatch): (r: seq<GuestRow>)
    ensures |r| == |rows|
    ensures forall i :: 0 <= i < |rows| ==>
      r[i] == if rows[i].id == id then PatchedRow(rows[i], p) else rows[i]
  {
    if rows == [] then []
    else [if rows[0].id == id then PatchedRow(rows[0], p) else rows[0]] + PatchRows(rows[1..], id, p)
  }

  // ----- row predicates -----

  function CompanionOf(guestId: string): CompanionRow -> bool
  {
    (c: CompanionRow) => c.guestId == guestId
  }

  function GiftOf(guestId: string): GiftRow -> bool
  {
    (g: GiftRow) => g.guestId == guestId
  }

  function GroupIs(id: string): GroupRow -> bool
  {
    (g: GroupRow) => g.id == id
  }

  function OwnedBy(userId: string): WeddingRow -> bool
  {
    (w: WeddingRow) => w.userId == userId
  }

  function WithEmail(email: string): CollaboratorRow -> bool
  {
    (c: CollaboratorRow) => c.email == email
  }

  function OnWedding(weddingId: string): CollaboratorRow -> bool
  {
    (c: CollaboratorRow) => c.weddingId == weddingId
  }

  function IsPair(weddingId: string, email: string): CollaboratorRow -> bool
  {
    (c: CollaboratorRow) => c.weddingId == weddingId && c.email == email
  }

  // ----- updateGuest: the companion and gift tables afterwards -----

  /** The companions table after deleting a guest's companions and inserting the new list. */
  function ReplacedCompanions(table: seq<CompanionRow>, guestId: string, cs: seq<Companion>, ids: seq<string>): seq<CompanionRow>
    requires |ids| == |cs|
  {
    Filter(table, Not(CompanionOf(guestId))) + CompanionRowsFor(guestId, cs, ids)
  }

  /** The gifts table after deleting a guest's gifts and inserting the new one, if any. */
  function ReplacedGifts(table: seq<GiftRow>, guestId: string, gift: Nullish<Gift>): seq<GiftRow>
  {
    Filter(table, Not(GiftOf(guestId))) + GiftRowsFor(guestId, gift)
  }

  lemma {:induction false} RowsForGuestOnlyHaveTheirGuest(guestId: string, cs: seq<Companion>, ids: seq<string>, other: string)
    requires |ids| == |cs|
    ensures Filter(CompanionRowsFor(guestId, cs, ids), CompanionOf(guestId)) == CompanionRowsFor(guestId, cs, ids)
    ensures other != guestId ==> Filter(CompanionRowsFor(guestId, cs, ids), CompanionOf(other)) == []
  {
    var rows := CompanionRowsFor(guestId, cs, ids);
    FilterAll(rows, CompanionOf(guestId));
    if other != guestId {
      FilterNone(rows, CompanionOf(other));
    }
  }

  /** After replacing, the guest's companions are exactly the new list, in order. */
  lemma CompanionsReplacedExactly(table: seq<CompanionRow>, guestId: string, cs: seq<Companion>, ids: seq<string>)
    requires |ids| == |cs|
    ensures Filter(ReplacedCompanions(table, guestId, cs, ids), CompanionOf(guestId)) == CompanionRowsFor(guestId, cs, ids)
  {
    var kept := Filter(table, Not(CompanionOf(guestId)));
    FilterAppend(kept, CompanionRowsFor(guestId, cs, ids), CompanionOf(guestId));
    FilterNone(kept, CompanionOf(guestId));
    RowsForGuestOnlyHaveTheirGuest(guestId, cs, ids, guestId);
  }

  /** Replacing one guest's companions leaves every other guest's companions as they were. */
  lemma OtherCompanionsUntouched(table: seq<CompanionRow>, guestId: string, cs: seq<Companion>, ids: seq<string>, other: string)
    requires |ids| == |cs| && other != guestId
    ensures Filter(ReplacedCompanions(table, guestId, cs, ids), CompanionOf(other)) == Filter(table, CompanionOf(other))
  {
    var kept := Filter(table, Not(CompanionOf(guestId)));
    FilterAppend(kept, CompanionRowsFor(guestId, cs, ids), CompanionOf(other));
    RowsForGuestOnlyHaveTheirGuest(guestId, cs, ids, other);
    FilterFilter(table, Not(CompanionOf(guestId)), CompanionOf(other));
    FilterExt(table, And(Not(CompanionOf(guestId)), CompanionOf(other)), CompanionOf(other));
  }

  /** After replacing, a typed gift leaves exactly one gift row for the guest, and `null`
      leaves none; other guests' gift rows are untouched. */
  lemma GiftReplacedExactly(table: seq<GiftRow>, guestId: string, gift: Nullish<Gift>, other: string)
    requires !gift.Undefined?
    ensures gift.Defined? ==> Filter(ReplacedGifts(table, guestId, gift), GiftOf(guestId)) == [GiftRowFor(guestId, gift).value]
    ensures gift.Null? ==> Filter(ReplacedGifts(table, guestId, gift), GiftOf(guestId)) == []
    ensures other != guestId ==> Filter(ReplacedGifts(table, guestId, gift), GiftOf(other)) == Filter(table, GiftOf(other))
  {
    var kept := Filter(table, Not(GiftOf(guestId)));
    var added := GiftRowsFor(guestId, gift);
    FilterAppend(kept, added, GiftOf(guestId));
    FilterNone(kept, GiftOf(guestId));
    FilterAll(added, GiftOf(guestId));
    if other != guestId {
      FilterAppend(kept, added, GiftOf(other));
      FilterNone(added, GiftOf(other));
      FilterFilter(table, Not(GiftOf(guestId)), GiftOf(other));
      FilterExt(table, And(Not(GiftOf(guestId)), GiftOf(other)), GiftOf(other));
    }
  }

  /** What `getGuests` shows for a guest after `updateGuest` with a companion list and a typed
      gift: exactly those companions, in order, with the database's ids, and the normalised gift. */
  lemma UpdatedGuestReadsBack(row: GuestRow, companionTable: seq<CompanionRow>, giftTable: seq<GiftRow>,
                              cs: seq<Companion>, ids: seq<string>, g: Gift)
    requires |ids| == |cs|
    ensures
      var rec := GuestRecord(row,
        Filter(ReplacedCompanions(companionTable, row.id, cs, ids), CompanionOf(row.id)),
        Filter(ReplacedGifts(giftTable, row.id, Defined(g)), GiftOf(row.id)));
      var back := GuestOfRecord(rec);
      && |back.companions| == |cs|
      && (forall i :: 0 <= i < |cs| ==>
            back.companions[i] == Companion(ids[i], cs[i].firstName, Nullified(cs[i].lastName), cs[i].isAdult))
      && back.gift == Defined(NormalisedGift(g))
  {
    CompanionsReplacedExactly(companionTable, row.id, cs, ids);
    GiftReplacedExactly(giftTable, row.id, Defined(g), row.id);
    StoredCompanionsReadBack(row.id, cs, ids);
    StoredGiftReadsBack(row.id, g);
  }

  // ----- which wedding the caller acts on -----

  /** `.single()` / `.maybeSingle()`: data only when exactly one row matches; for none the data is
      null, for several the call fails and the code reads only the (null) data. */
  function Single<T>(rows: seq<T>): (r: Option<T>)
    ensures r.Some? <==> |rows| == 1
    ensures r.Some? ==> r.value == rows[0]
  {
    if |rows| == 1 then Some(rows[0]) else None
  }

  /** The owner-only lookup of `addGuest`, `addGroup` and `shareWedding`. */
  function OwnedWedding(weddings: seq<WeddingRow>, userId: string): (r: Option<WeddingRow>)
    ensures r.Some? ==> r.value in weddings && r.value.userId == userId
    ensures r.Some? <==> |Filter(weddings, OwnedBy(userId))| == 1
  {
    Single(Filter(weddings, OwnedBy(userId)))
  }

  /** The collaborator row for the caller's email, when exactly one exists. */
  function CollaboratorRowOf(collaborators: seq<CollaboratorRow>, email: string): (r: Option<CollaboratorRow>)
    ensures r.Some? ==> r.value in collaborators && r.value.email == email
    ensures r.Some? <==> |Filter(collaborators, WithEmail(email))| == 1
  {
    Single(Filter(collaborators, WithEmail(email)))
  }

  /** The three ways a caller is linked to a wedding, and which one decided. */
  datatype Resolution =
    | ViaOwnership(weddingId: string)
    | ViaCollaboratorRow(weddingId: string)
    | ViaMetadata(weddingId: string)
    | Unresolved

  /** `getCollaborators` / `deleteCollaborator`: the owned wedding if its id is truthy, else the
      caller's collaborator row if its wedding id is truthy, else the `wedding_id` in the
      caller's metadata if truthy. */
  function ResolveWedding(weddings: seq<WeddingRow>, collaborators: seq<CollaboratorRow>,
                          metadata: map<string, string>, s: Session): (r: Resolution)
    ensures r.ViaOwnership? ==> exists w :: w in weddings && w.userId == s.userId && w.id == r.weddingId
    ensures r.ViaCollaboratorRow? ==> CollaboratorRow(r.weddingId, s.email) in collaborators
    ensures r.ViaMetadata? ==> s.userId in metadata && metadata[s.userId] == r.weddingId
    ensures !r.Unresolved? ==> r.weddingId != ""
    ensures r.Unresolved? <==>
      && !(OwnedWedding(weddings, s.userId).Some? && OwnedWedding(weddings, s.userId).value.id != "")
      && !(CollaboratorRowOf(collaborators, s.email).Some? && CollaboratorRowOf(collaborators, s.email).value.weddingId != "")
      && !(s.userId in metadata && metadata[s.userId] != "")
  {
    var owned := OwnedWedding(weddings, s.userId);
    if owned.Some? && owned.value.id != "" then ViaOwnership(owned.value.id)
    else
      var row := CollaboratorRowOf(collaborators, s.email);
      if row.Some? && row.value.weddingId != "" then ViaCollaboratorRow(row.value.weddingId)
      else if s.userId in metadata && metadata[s.userId] != "" then ViaMetadata(metadata[s.userId])
      else Unresolved
  }

  /** Ownership wins: a caller who owns exactly one wedding (with an id) acts on it, whatever
      collaborator rows or metadata say. */
  lemma OwnershipWins(weddings: seq<WeddingRow>, collaborators: seq<CollaboratorRow>,
                      metadata: map<string, string>, s: Session, w: WeddingRow)
    requires Filter(weddings, OwnedBy(s.userId)) == [w] && w.id != ""
    ensures ResolveWedding(weddings, collaborators, metadata, s) == ViaOwnership(w.id)
  {
  }

  /** The collaborator row beats the metadata pointer: a caller who owns no wedding and has one
      collaborator row acts on that row's wedding even when metadata names another. */
  lemma CollaboratorRowBeatsMetadata(weddings: seq<WeddingRow>, collaborators: seq<CollaboratorRow>,
                                     metadata: map<string, string>, s: Session, c: CollaboratorRow)
    requires Filter(weddings, OwnedBy(s.userId)) == []
    requires Filter(collaborators, WithEmail(s.email)) == [c] && c.weddingId != ""
    ensures ResolveWedding(weddings, collaborators, metadata, s) == ViaCollaboratorRow(c.weddingId)
  {
  }

  /** The metadata pointer decides last: when neither the owned wedding nor the collaborator row
      yields a truthy id, a truthy `wedding_id` in the caller's metadata is the wedding acted on. */
  lemma MetadataDecidesLast(weddings: seq<WeddingRow>, collaborators: seq<CollaboratorRow>,
                            metadata: map<string, string>, s: Session)
    requires !(OwnedWedding(weddings, s.userId).Some? && OwnedWedding(weddings, s.userId).value.id != "")
    requires !(CollaboratorRowOf(collaborators, s.email).Some? && CollaboratorRowOf(collaborators, s.email).value.weddingId != "")
    requires s.userId in metadata && metadata[s.userId] != ""
    ensures ResolveWedding(weddings, collaborators, metadata, s) == ViaMetadata(metadata[s.userId])
  {
  }

  /** The emails of a wedding's collaborators, in table order. */
  function EmailsOf(collaborators: seq<CollaboratorRow>, weddingId: string): (r: seq<string>)
    ensures |r| == |Filter(collaborators, OnWedding(weddingId))|
    ensures forall e :: e in r <==> CollaboratorRow(weddingId, e) in collaborators
  {
    var rows := Filter(collaborators, OnWedding(weddingId));
    var emails := Map(rows, (c: CollaboratorRow) => c.email);
    assert forall e :: e in emails ==> CollaboratorRow(weddingId, e) in rows;
    assert forall e :: CollaboratorRow(weddingId, e) in collaborators ==> CollaboratorRow(weddingId, e) in rows;
    emails
  }

  /** Revoking one's own access through the collaborator-row path ends it: once the row is
      deleted and the metadata pointer cleared, nothing resolves for the caller any more. */
  lemma SelfRevocationEndsAccess(weddings: seq<WeddingRow>, collaborators: seq<CollaboratorRow>,
                                 metadata: map<string, string>, s: Session)
    requires ResolveWedding(weddings, collaborators, metadata, s).ViaCollaboratorRow?
    ensures
      var w := ResolveWedding(weddings, collaborators, metadata, s).weddingId;
      ResolveWedding(weddings, Filter(collaborators, Not(IsPair(w, s.email))), metadata - {s.userId}, s) == Unresolved
  {
    var w := ResolveWedding(weddings, collaborators, metadata, s).weddingId;
    var mine := Filter(collaborators, WithEmail(s.email));
    assert |mine| == 1 && mine[0].weddingId == w && mine[0].email == s.email;
    var after := Filter(collaborators, Not(IsPair(w, s.email)));
    FilterFilter(collaborators, Not(IsPair(w, s.email)), WithEmail(s.email));
    FilterFilter(collaborators, WithEmail(s.email), Not(IsPair(w, s.email)));
    FilterExt(collaborators, And(Not(IsPair(w, s.email)), WithEmail(s.email)),
              And(WithEmail(s.email), Not(IsPair(w, s.email))));
    assert mine == [mine[0]];
    assert Filter(mine, Not(IsPair(w, s.email))) == [];
    assert Filter(after, WithEmail(s.email)) == [];
  }
}
