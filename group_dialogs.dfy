// Creating and renaming a group: the add dialog's trim-and-submit
// (features/wedding/components/dashboard/add-group-dialog.tsx) and the edit
// dialog's schema, defaults, payload and error handling
// (features/wedding/components/dashboard/edit-group-dialog.tsx).

module GroupDialogs {
  import opened Types
  import opened ApiRows
  import ApiStore

  // ----- String.prototype.trim -----

  /** The characters `trim` removes: ECMAScript's WhiteSpace and LineTerminator. */
  predicate IsSpace(c: char)
  {
    || c == '\t' || c == '\n' || c == '\U{000B}' || c == '\U{000C}' || c == '\r' || c == ' '
    || c == '\U{00A0}' || c == '\U{1680}' || ('\U{2000}' <= c <= '\U{200A}')
    || c == '\U{2028}' || c == '\U{2029}' || c == '\U{202F}' || c == '\U{205F}'
    || c == '\U{3000}' || c == '\U{FEFF}'
  }

  /** Drops the leading white space. */
  function TrimStart(s: string): (r: string)
    ensures |r| <= |s| && r == s[|s| - |r|..]
    ensures r == [] || !IsSpace(r[0])
    ensures forall i :: 0 <= i < |s| - |r| ==> IsSpace(s[i])
  {
    if s != [] && IsSpace(s[0]) then TrimStart(s[1..]) else s
  }

  /** Drops the trailing white space. */
  function TrimEnd(s: string): (r: string)
    ensures |r| <= |s| && r == s[..|r|]
    ensures r == [] || !IsSpace(r[|r| - 1])
    ensures forall i :: |r| <= i < |s| ==> IsSpace(s[i])
  {
    if s != [] && IsSpace(s[|s| - 1]) then TrimEnd(s[..|s| - 1]) else s
  }

  /** `r` is `s` from index `k` on, with only white space cut off on either side. */
  predicate CutFrom(s: string, r: string, k: int)
  {
    && 0 <= k && k + |r| <= |s| && r == s[k..k + |r|]
    && (forall i :: 0 <= i < k ==> IsSpace(s[i]))
    && (forall i :: k + |r| <= i < |s| ==> IsSpace(s[i]))
  }

  /** `s.trim()`: a slice of `s` that neither starts nor ends with white space, and everything cut
      off on either side is white space. */
  function Trim(s: string): (r: string)
    ensures r == [] || (!IsSpace(r[0]) && !IsSpace(r[|r| - 1]))
    ensures exists k | 0 <= k <= |s| :: CutFrom(s, r, k)
  {
    var t := TrimStart(s);
    var r := TrimEnd(t);
    var k := |s| - |t|;
    assert r == s[k..k + |r|];
    assert CutFrom(s, r, k);
    r
  }

  /** The trimmed name is empty exactly when the name is all white space. */
  lemma TrimEmptyIff(s: string)
    ensures Trim(s) == "" <==> forall i :: 0 <= i < |s| ==> IsSpace(s[i])
  {
    var t := TrimStart(s);
    if Trim(s) == "" {
      assert forall i :: |s| - |t| <= i < |s| ==> s[i] == t[i - (|s| - |t|)];
    }
  }

  /** Trimming twice trims nothing more. */
  lemma TrimIdempotent(s: string)
    ensures Trim(Trim(s)) == Trim(s)
  {
    var r := Trim(s);
    if r != [] {
      assert TrimStart(r) == r;
      assert TrimEnd(r) == r;
    }
  }

  // ----- add-group-dialog.tsx -----

  /** The dialog's local state and the dialog's open flag. */
  class AddGroupDialog {
    var groupName: string
    var side: Side
    var open: bool

    /** An empty name, the bride's side. */
    constructor(open: bool)
      ensures groupName == "" && side == Bride && this.open == open
    {
      groupName, side, this.open := "", Bride, open;
    }

    /** `handleSubmit`: a blank name sends nothing; otherwise `addGroup` gets the trimmed name and
        the selected side, and on success the name and side reset and the dialog closes. */
    method HandleSubmit(store: ApiStore.Store, session: Option<Session>, groupId: string)
      returns (outcome: Option<ApiStore.Outcome>)
      requires store.Valid()
      modifies this, store
      ensures store.Valid()
      ensures outcome.None? <==> Trim(old(groupName)) == ""
      ensures outcome.None? ==> unchanged(store) && unchanged(this)
      ensures outcome == Some(ApiStore.Ok) <==>
        Trim(old(groupName)) != "" && session.Some? && OwnedWedding(old(store.weddings), session.value.userId).Some?
      ensures outcome == Some(ApiStore.Ok) ==>
        && store.groups == old(store.groups) + [GroupRow(groupId,
             OwnedWedding(old(store.weddings), session.value.userId).value.id, Trim(old(groupName)), old(side))]
        && groupName == "" && side == Bride && !open
      ensures outcome.Some? && outcome.value.Failed? ==>
        unchanged(store) && groupName == old(groupName) && side == old(side) && open == old(open)
    {
      var name := Trim(groupName);
      if name == "" {
        return None;
      }
      var r := store.AddGroup(session, name, side, groupId);
      if r.Ok? {
        groupName, side, open := "", Bride, false;
      }
      outcome := Some(r);
    }
  }

  /** A one-character name (after trimming) is enough for the add dialog. */
  lemma OneCharacterNameAccepted(c: char)
    requires !IsSpace(c)
    ensures Trim([c]) == [c]
  {
    assert TrimStart([c]) == [c];
  }

  // ----- edit-group-dialog.tsx -----

  datatype GroupValues = GroupValues(name: string, side: Side)

  /** `groupSchema`: a name of at least 2 characters, counted untrimmed, and a side. */
  function GroupSchema(name: string, side: string): (r: Option<GroupValues>)
    ensures r.Some? <==> |name| >= 2 && (side == "bride" || side == "groom")
    ensures r.Some? ==> r.value.name == name && SideName(r.value.side) == side
  {
    if |name| >= 2 && ParseSide(side).Some? then Some(GroupValues(name, ParseSide(side).value)) else None
  }

  /** The untrimmed count lets a name of two spaces through, which the add dialog would refuse. */
  lemma BlankNamePassesEdit()
    ensures GroupSchema("  ", "bride").Some? && Trim("  ") == ""
  {
    TrimEmptyIff("  ");
  }

  /** A one-character group made in the add dialog cannot be saved unchanged in the edit dialog. */
  lemma ShortNameFailsEdit(c: char)
    requires !IsSpace(c)
    ensures Trim([c]) == [c] && GroupSchema([c], "bride").None?
  {
    OneCharacterNameAccepted(c);
  }

  /** `{ id: group.id, updates: values }` */
  datatype UpdateGroupRequest = UpdateGroupRequest(id: string, updates: GroupValues)

  const UpdateGroupFallback := "Došlo je do greške pri ažuriranju grupe"

  class EditGroupDialog {
    const group: Group
    /** The form's two fields. */
    var name: string
    var sideText: string
    var error: Option<string>
    var open: bool

    /** The form starts from the group's current name and side. */
    constructor(group: Group, open: bool)
      ensures this.group == group && name == group.name && sideText == SideName(group.side)
      ensures error == None && this.open == open
    {
      this.group := group;
      name, sideText, error, this.open := group.name, SideName(group.side), None, open;
    }

    /** `onSubmit` with validated values; `failure` is what `mutateAsync` throws, if anything.
        The error is cleared first; success closes the dialog and resets the form to its
        defaults; failure shows the error's message or the fallback. */
    method OnSubmit(values: GroupValues, failure: Option<Thrown>) returns (request: UpdateGroupRequest)
      modifies this
      ensures request == UpdateGroupRequest(group.id, values)
      ensures failure.None? ==>
        error == None && !open && name == group.name && sideText == SideName(group.side)
      ensures failure.Some? ==>
        && error == Some(ErrorText(failure.value, UpdateGroupFallback))
        && open == old(open) && name == old(name) && sideText == old(sideText)
    {
      error := None;
      request := UpdateGroupRequest(group.id, values);
      if failure.None? {
        open := false;
        name, sideText := group.name, SideName(group.side);
      } else {
        error := Some(ErrorText(failure.value, UpdateGroupFallback));
      }
    }
  }

  /** Submitting the defaults unchanged asks for the group's own name and side, whenever the name
      passes the length rule. */
  lemma DefaultsRoundTrip(g: Group)
    requires |g.name| >= 2
    ensures GroupSchema(g.name, SideName(g.side)) == Some(GroupValues(g.name, g.side))
  {
    match g.side
    case Bride =>
    case Groom =>
  }
}
