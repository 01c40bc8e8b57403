// The share dialog (features/wedding/components/dashboard/share-wedding-dialog.tsx):
// the invite link, the copy button's guard, the collaborator list's three states and
// the error handling around removing a collaborator.

module ShareDialog {
  import opened Types
  import opened ApiRows
  import ApiStore

  const InvitePath := "/invite/"

  /** `weddingDetails?.inviteCode ? origin + "/invite/" + code : ""`; the details are absent
      while they load. */
  function InviteLink(origin: string, details: Option<WeddingDetails>): (r: string)
    ensures r == "" <==> details.None? || !TruthyString(details.value.inviteCode)
    ensures r != "" ==> r == origin + InvitePath + details.value.inviteCode.value
  {
    if details.Some? && TruthyString(details.value.inviteCode)
    then origin + InvitePath + details.value.inviteCode.value
    else ""
  }

  /** Reading the code back out of a link: what follows `origin + "/invite/"`, when anything does. */
  function CodeOfLink(origin: string, link: string): (r: Option<string>)
    ensures r.Some? ==> r.value != "" && link == origin + InvitePath + r.value
  {
    var prefix := origin + InvitePath;
    if |prefix| < |link| && link[..|prefix|] == prefix then Some(link[|prefix|..]) else None
  }

  /** The link carries exactly the invite code: the code reads back out of it, and an empty link
      carries none. */
  lemma InviteLinkRoundTrip(origin: string, details: Option<WeddingDetails>)
    ensures CodeOfLink(origin, InviteLink(origin, details)) ==
      if details.Some? && TruthyString(details.value.inviteCode) then Some(details.value.inviteCode.value) else None
  {
    var link := InviteLink(origin, details);
    var prefix := origin + InvitePath;
    if link != "" {
      assert link[..|prefix|] == prefix;
      assert link[|prefix|..] == details.value.inviteCode.value;
    }
  }

  /** Two weddings with different codes never share a link. */
  lemma InviteLinksDistinct(origin: string, d: WeddingDetails, e: WeddingDetails)
    requires TruthyString(d.inviteCode) && TruthyString(e.inviteCode)
    requires d.inviteCode != e.inviteCode
    ensures InviteLink(origin, Some(d)) != InviteLink(origin, Some(e))
  {
    InviteLinkRoundTrip(origin, Some(d));
    InviteLinkRoundTrip(origin, Some(e));
  }

  /** What the collaborator section shows. */
  datatype CollaboratorView = Loading | EmptyState | Listed(emails: seq<string>)

  /** A spinner while loading, the empty state for no collaborators, otherwise one row per email. */
  function ViewOf(isLoading: bool, collaborators: seq<string>): (v: CollaboratorView)
    ensures v == Loading <==> isLoading
    ensures v == EmptyState <==> !isLoading && collaborators == []
    ensures v.Listed? ==> v.emails == collaborators && |v.emails| > 0
  {
    if isLoading then Loading
    else if |collaborators| == 0 then EmptyState
    else Listed(collaborators)
  }

  const DeleteFallback := "Došlo je do greške pri brisanju kolaboratora."

  /** The dialog's `copied` and `error` state, and what it has written to the clipboard. */
  class Dialog {
    var copied: bool
    var error: Option<string>
    var clipboard: Option<string>

    constructor()
      ensures !copied && error == None && clipboard == None
    {
      copied, error, clipboard := false, None, None;
    }

    /** `copyInviteLink`: an empty link does nothing; otherwise the link goes to the clipboard and
        the button shows "copied". */
    method CopyInviteLink(link: string)
      modifies this`copied, this`clipboard
      ensures link == "" ==> copied == old(copied) && clipboard == old(clipboard)
      ensures link != "" ==> copied && clipboard == Some(link)
    {
      if link != "" {
        clipboard := Some(link);
        copied := true;
      }
    }

    /** `handleDeleteCollaborator`: the error is cleared, then the collaborator is removed; a
        failure shows the thrown error's message (every error the api throws is an `Error`). */
    method HandleDeleteCollaborator(store: ApiStore.Store, session: Option<Session>, email: string)
      returns (r: ApiStore.Outcome)
      requires store.Valid()
      modifies this`error, store`collaborators, store`metadata
      ensures store.Valid()
      ensures r.Ok? ==> error == None
      ensures r.Failed? ==>
        && error == Some(ErrorText(ErrorObject(ApiStore.Message(r.error)), DeleteFallback))
        && error == Some(ApiStore.Message(r.error))
        && unchanged(store)
      ensures session.None? ==> r == ApiStore.Failed(ApiStore.NotSignedIn)
      ensures session.Some? ==>
        (r.Ok? <==> !ResolveWedding(old(store.weddings), old(store.collaborators), old(store.metadata), session.value).Unresolved?)
    {
      error := None;
      r := store.DeleteCollaborator(session, email);
      if r.Failed? {
        error := Some(ErrorText(ErrorObject(ApiStore.Message(r.error)), DeleteFallback));
      }
    }
  }
}
