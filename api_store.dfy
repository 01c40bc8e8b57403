// The table-changing operations of features/wedding/lib/api.ts, over an in-memory
// stand-in for the hosted database: one sequence of rows per table, in insertion
// order, plus the per-user `wedding_id` metadata slot of the auth service.

module ApiStore {
  import opened Types
  import opened Seqs
  import opened ApiRows

  /** Why an api call throws. Datastore failures other than a duplicate key are not modelled. */
  datatype ApiError = NotSignedIn | WeddingNotFound | DuplicateKey

  function Message(e: ApiError): string
  {
    match e
    case NotSignedIn => "Korisnik nije prijavljen"
    case WeddingNotFound => "Venčanje nije pronađeno"
    case DuplicateKey => "duplicate key value violates unique constraint"
  }

  datatype Outcome = Ok | Failed(error: ApiError)

  class Store {
    var weddings: seq<WeddingRow>
    var groups: seq<GroupRow>
    var guests: seq<GuestRow>
    var companions: seq<CompanionRow>
    var gifts: seq<GiftRow>
    var collaborators: seq<CollaboratorRow>
    /** user id -> `user_metadata.wedding_id`; a missing key is a missing or null pointer */
    var metadata: map<string, string>

    /** The unique (wedding_id, email) constraint of `wedding_collaborators`. */
    ghost predicate Valid()
      reads this
    {
      NoDup(collaborators)
    }

    constructor ()
      ensures Valid()
      ensures weddings == [] && groups == [] && guests == [] && companions == []
      ensures gifts == [] && collaborators == [] && metadata == map[]
    {
      weddings, groups, guests, companions := [], [], [], [];
      gifts, collaborators, metadata := [], [], map[];
    }

    /** A guest row with its companions and gifts, as the embedded select returns it. */
    function RecordOf(row: GuestRow): (r: GuestRecord)
      reads this
      ensures r.row == row
      ensures forall c :: c in r.companions <==> c in companions && c.guestId == row.id
      ensures forall g :: g in r.gifts <==> g in gifts && g.guestId == row.id
    {
      GuestRecord(row, Filter(companions, CompanionOf(row.id)), Filter(gifts, GiftOf(row.id)))
    }

    function RecordsOf(rows: seq<GuestRow>): (rs: seq<GuestRecord>)
      reads this
      ensures |rs| == |rows|
      ensures forall i :: 0 <= i < |rows| ==> rs[i] == RecordOf(rows[i])
    {
      if rows == [] then [] else [RecordOf(rows[0])] + RecordsOf(rows[1..])
    }

    /** `getGuests`: every guest in insertion order, with companions and first gift. */
    function GetGuests(): (r: seq<Guest>)
      reads this
      ensures |r| == |guests|
      ensures forall i :: 0 <= i < |guests| ==> r[i] == GuestOfRecord(RecordOf(guests[i]))
    {
      GuestsOfRecords(RecordsOf(guests))
    }

    /** `addGuest`: only the owner of exactly one wedding may add; then the guest row, its
        companion rows (when there are any) and its gift row (when it has a typed gift) are
        inserted. The database's new ids are the parameters `guestId` and `companionIds`. */
    method AddGuest(session: Option<Session>, guest: NewGuest, guestId: string, companionIds: seq<string>)
      returns (r: Outcome)
      requires Valid()
      requires |companionIds| == |guest.companions|
      modifies this
      ensures Valid()
      ensures session.None? ==> r == Failed(NotSignedIn)
      ensures session.Some? && OwnedWedding(old(weddings), session.value.userId).None? ==> r == Failed(WeddingNotFound)
      ensures r.Failed? ==> unchanged(this)
      ensures r.Ok? <==> session.Some? && OwnedWedding(old(weddings), session.value.userId).Some?
      ensures r.Ok? ==>
        var w := OwnedWedding(old(weddings), session.value.userId).value;
        && guests == old(guests) + [NewGuestRow(guestId, w.id, guest)]
        && companions == old(companions) + CompanionRowsFor(guestId, guest.companions, companionIds)
        && gifts == old(gifts) + GiftRowsFor(guestId, guest.gift)
        && weddings == old(weddings) && groups == old(groups)
        && collaborators == old(collaborators) && metadata == old(metadata)
    {
      if session.None? {
        return Failed(NotSignedIn);
      }
      var wedding := OwnedWedding(weddings, session.value.userId);
      if wedding.None? {
        return Failed(WeddingNotFound);
      }
      guests := guests + [NewGuestRow(guestId, wedding.value.id, guest)];
      if |guest.companions| > 0 {
        companions := companions + CompanionRowsFor(guestId, guest.companions, companionIds);
      }
      var giftRow := GiftRowFor(guestId, guest.gift);
      if giftRow.Some? {
        gifts := gifts + [giftRow.value];
      }
      r := Ok;
    }

    /** `updateGuest`: patches the row's present keys; a present companion list replaces all the
        guest's companions; a gift that is not `undefined` replaces the guest's gift rows
        (`null` leaves none). */
    method UpdateGuest(id: string, patch: GuestPatch, companionIds: seq<string>)
      requires Valid()
      requires patch.companions.Some? ==> |companionIds| == |patch.companions.value|
      modifies this
      ensures Valid()
      ensures guests == PatchRows(old(guests), id, patch)
      ensures patch.companions.None? ==> companions == old(companions)
      ensures patch.companions.Some? ==>
        companions == ReplacedCompanions(old(companions), id, patch.companions.value, companionIds)
      ensures patch.gift.Undefined? ==> gifts == old(gifts)
      ensures !patch.gift.Undefined? ==> gifts == ReplacedGifts(old(gifts), id, patch.gift)
      ensures weddings == old(weddings) && groups == old(groups)
      ensures collaborators == old(collaborators) && metadata == old(metadata)
    {
      guests := PatchRows(guests, id, patch);
      if patch.companions.Some? {
        companions := Filter(companions, Not(CompanionOf(id)));
        if |patch.companions.value| > 0 {
          companions := companions + CompanionRowsFor(id, patch.companions.value, companionIds);
        }
      }
      if !patch.gift.Undefined? {
        gifts := Filter(gifts, Not(GiftOf(id)));
        var giftRow := GiftRowFor(id, patch.gift);
        if giftRow.Some? {
          gifts := gifts + [giftRow.value];
        }
      }
    }

    /** `addGroup`: owner-only, like `addGuest`. */
    method AddGroup(session: Option<Session>, name: string, side: Side, groupId: string) returns (r: Outcome)
      requires Valid()
      modifies this
      ensures Valid()
      ensures session.None? ==> r == Failed(NotSignedIn)
      ensures session.Some? && OwnedWedding(old(weddings), session.value.userId).None? ==> r == Failed(WeddingNotFound)
      ensures r.Failed? ==> unchanged(this)
      ensures r.Ok? <==> session.Some? && OwnedWedding(old(weddings), session.value.userId).Some?
      ensures r.Ok? ==>
        groups == old(groups) + [GroupRow(groupId, OwnedWedding(old(weddings), session.value.userId).value.id, name, side)]
      ensures weddings == old(weddings) && guests == old(guests) && companions == old(companions)
      ensures gifts == old(gifts) && collaborators == old(collaborators) && metadata == old(metadata)
    {
      if session.None? {
        return Failed(NotSignedIn);
      }
      var wedding := OwnedWedding(weddings, session.value.userId);
      if wedding.None? {
        return Failed(WeddingNotFound);
      }
      groups := groups + [GroupRow(groupId, wedding.value.id, name, side)];
      r := Ok;
    }

    /** `deleteGroup`: removes the group row and nothing else; the guests keep their `group_id`. */
    method DeleteGroup(id: string)
      requires Valid()
      modifies this`groups
      ensures Valid()
      ensures groups == Filter(old(groups), Not(GroupIs(id)))
      ensures forall g :: g in groups <==> g in old(groups) && g.id != id
    {
      groups := Filter(groups, Not(GroupIs(id)));
    }

    /** `shareWedding`: owner-only; the insert of an existing (wedding, email) pair fails on the
        unique constraint and that error is rethrown. */
    method ShareWedding(session: Option<Session>, email: string) returns (r: Outcome)
      requires Valid()
      modifies this`collaborators
      ensures Valid()
      ensures session.None? ==> r == Failed(NotSignedIn)
      ensures session.Some? && OwnedWedding(old(weddings), session.value.userId).None? ==> r == Failed(WeddingNotFound)
      ensures session.Some? && OwnedWedding(old(weddings), session.value.userId).Some? ==>
        var pair := CollaboratorRow(OwnedWedding(old(weddings), session.value.userId).value.id, email);
        && (pair in old(collaborators) ==> r == Failed(DuplicateKey) && collaborators == old(collaborators))
        && (pair !in old(collaborators) ==> r == Ok && collaborators == old(collaborators) + [pair])
      ensures r.Failed? ==> collaborators == old(collaborators)
    {
      if session.None? {
        return Failed(NotSignedIn);
      }
      var wedding := OwnedWedding(weddings, session.value.userId);
      if wedding.None? {
        return Failed(WeddingNotFound);
      }
      var pair := CollaboratorRow(wedding.value.id, email);
      if pair in collaborators {
        return Failed(DuplicateKey);
      }
      collaborators := collaborators + [pair];
      r := Ok;
    }

    /** `getCollaborators`: no session or no resolved wedding gives []; otherwise the emails of
        the resolved wedding's collaborators. */
    method GetCollaborators(session: Option<Session>) returns (emails: seq<string>)
      ensures session.None? ==> emails == []
      ensures session.Some? ==>
        match ResolveWedding(weddings, collaborators, metadata, session.value)
        case Unresolved => emails == []
        case _ => emails == EmailsOf(collaborators, ResolveWedding(weddings, collaborators, metadata, session.value).weddingId)
    {
      if session.None? {
        return [];
      }
      var user := session.value;
      var owned := OwnedWedding(weddings, user.userId);
      if owned.Some? && owned.value.id != "" {
        return EmailsOf(collaborators, owned.value.id);
      }
      var row := CollaboratorRowOf(collaborators, user.email);
      if row.Some? && row.value.weddingId != "" {
        return EmailsOf(collaborators, row.value.weddingId);
      }
      if user.userId !in metadata || metadata[user.userId] == "" {
        return [];
      }
      emails := EmailsOf(collaborators, metadata[user.userId]);
    }

    /** `deleteCollaborator`: resolves the wedding like `getCollaborators` (and fails when nothing
        resolves), deletes exactly the (wedding, email) row, and clears the caller's metadata
        pointer when the email is the caller's own. */
    method DeleteCollaborator(session: Option<Session>, email: string) returns (r: Outcome)
      requires Valid()
      modifies this`collaborators, this`metadata
      ensures Valid()
      ensures session.None? ==> r == Failed(NotSignedIn) && unchanged(this)
      ensures session.Some? ==>
        var res := ResolveWedding(old(weddings), old(collaborators), old(metadata), session.value);
        && (res.Unresolved? ==> r == Failed(WeddingNotFound) && unchanged(this))
        && (!res.Unresolved? ==>
              && r == Ok
              && collaborators == Filter(old(collaborators), Not(IsPair(res.weddingId, email)))
              && metadata == if email == session.value.email then old(metadata) - {session.value.userId}
                             else old(metadata))
    {
      if session.None? {
        return Failed(NotSignedIn);
      }
      var user := session.value;
      var weddingId: string;
      var owned := OwnedWedding(weddings, user.userId);
      if owned.Some? && owned.value.id != "" {
        weddingId := owned.value.id;
      } else {
        var row := CollaboratorRowOf(collaborators, user.email);
        if row.Some? && row.value.weddingId != "" {
          weddingId := row.value.weddingId;
        } else {
          if user.userId !in metadata || metadata[user.userId] == "" {
            return Failed(WeddingNotFound);
          }
          weddingId := metadata[user.userId];
        }
      }
      FilterNoDup(collaborators, Not(IsPair(weddingId, email)));
      collaborators := Filter(collaborators, Not(IsPair(weddingId, email)));
      if email == user.email {
        metadata := metadata - {user.userId};
      }
      r := Ok;
    }
  }

  /** Sharing with the same email twice leaves exactly one row for the pair: the second call
      fails on the duplicate. */
  method ShareTwice(store: Store, session: Session, email: string)
    requires store.Valid()
    requires OwnedWedding(store.weddings, session.userId).Some?
    requires CollaboratorRow(OwnedWedding(store.weddings, session.userId).value.id, email) !in store.collaborators
    modifies store`collaborators
    ensures
      var pair := CollaboratorRow(OwnedWedding(store.weddings, session.userId).value.id, email);
      |Filter(store.collaborators, IsPair(pair.weddingId, email))| == 1
  {
    var first := store.ShareWedding(Some(session), email);
    var second := store.ShareWedding(Some(session), email);
    assert second == Failed(DuplicateKey);
    var pair := CollaboratorRow(OwnedWedding(store.weddings, session.userId).value.id, email);
    var before := old(store.collaborators);
    FilterAppend(before, [pair], IsPair(pair.weddingId, email));
    FilterNone(before, IsPair(pair.weddingId, email));
  }
}
