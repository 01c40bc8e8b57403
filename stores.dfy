// The three zustand stores of the dashboard: open groups
// (features/wedding/stores/groups-store.ts), filter settings
// (features/wedding/stores/filter-store.ts) and the modal slot
// (features/wedding/components/dashboard/modals/modal-store.ts), plus the way
// modals.tsx turns the modal slot into open dialogs.

module GroupsStore {
  import opened Seqs
  import Toggle

  /** The ids of the groups whose cards are expanded. */
  class OpenGroups {
    var openGroups: seq<string>

    /** Nothing is open at first. */
    constructor()
      ensures openGroups == []
    {
      openGroups := [];
    }

    /** `toggleGroup(id)`: closes an open group (every occurrence), opens a closed one at the end. */
    method ToggleGroup(id: string)
      modifies this
      ensures openGroups == Toggle.Toggled(old(openGroups), id)
      ensures id in openGroups <==> id !in old(openGroups)
      ensures forall other :: other != id ==> (other in openGroups <==> other in old(openGroups))
      ensures NoDup(old(openGroups)) ==> NoDup(openGroups)
    {
      if NoDup(openGroups) {
        Toggle.ToggleKeepsNoDup(openGroups, id);
      }
      openGroups := Toggle.Toggled(openGroups, id);
    }

    /** `expandAll(ids)`: exactly the given ids, as given. */
    method ExpandAll(ids: seq<string>)
      modifies this
      ensures openGroups == ids
    {
      openGroups := ids;
    }

    /** `collapseAll()` */
    method CollapseAll()
      modifies this
      ensures openGroups == []
    {
      openGroups := [];
    }
  }
}

module FilterStore {
  import opened Types
  import opened GuestDisplay

  /** `"all" | "groups" | "ungrouped"` */
  datatype ViewMode = AllViews | Groups | UngroupedView

  datatype Settings = Settings(viewMode: ViewMode, side: SideFilter, status: StatusFilter, searchQuery: string)

  /** The four filter fields; each setter overwrites only its own field, verbatim. */
  class Filters {
    var viewMode: ViewMode
    var selectedSide: SideFilter
    var selectedStatus: StatusFilter
    var searchQuery: string

    function State(): Settings
      reads this
    {
      Settings(viewMode, selectedSide, selectedStatus, searchQuery)
    }

    /** Everything "all", and an empty search. */
    constructor()
      ensures State() == Settings(AllViews, AllSides, AllStatuses, "")
    {
      viewMode, selectedSide, selectedStatus, searchQuery := AllViews, AllSides, AllStatuses, "";
    }

    method SetViewMode(mode: ViewMode)
      modifies this
      ensures State() == old(State()).(viewMode := mode)
    {
      viewMode := mode;
    }

    method SetSelectedSide(side: SideFilter)
      modifies this
      ensures State() == old(State()).(side := side)
    {
      selectedSide := side;
    }

    method SetSelectedStatus(status: StatusFilter)
      modifies this
      ensures State() == old(State()).(status := status)
    {
      selectedStatus := status;
    }

    /** The query is stored as typed: not trimmed, not lower-cased. */
    method SetSearchQuery(query: string)
      modifies this
      ensures State() == old(State()).(searchQuery := query)
    {
      searchQuery := query;
    }
  }

  /** The same setter twice with the same value is the setter once (on the settings value the
      setters produce). */
  lemma SettersIdempotent(s: Settings, m: ViewMode, side: SideFilter, status: StatusFilter, q: string)
    ensures s.(viewMode := m).(viewMode := m) == s.(viewMode := m)
    ensures s.(side := side).(side := side) == s.(side := side)
    ensures s.(status := status).(status := status) == s.(status := status)
    ensures s.(searchQuery := q).(searchQuery := q) == s.(searchQuery := q)
  {
  }

  /** Setting the query twice in a row on the store leaves what setting it once leaves. */
  method SetSearchQueryTwice(f: Filters, q: string)
    modifies f
    ensures f.State() == old(f.State()).(searchQuery := q)
  {
    f.SetSearchQuery(q);
    f.SetSearchQuery(q);
  }
}

module ModalStore {
  import opened Types

  datatype ModalType = AddGuest | AddGroup | EditGroup | DeleteGroup | EditWedding | ShareWedding

  datatype ModalState = ModalState(openModal: Option<ModalType>, group: Option<Group>, wedding: Option<WeddingDetails>)

  /** The single modal slot and the group and wedding the dialogs act on. */
  class Modals {
    var openModal: Option<ModalType>
    var group: Option<Group>
    var wedding: Option<WeddingDetails>

    function State(): ModalState
      reads this
    {
      ModalState(openModal, group, wedding)
    }

    /** No modal, no group, no wedding. */
    constructor()
      ensures State() == ModalState(None, None, None)
    {
      openModal, group, wedding := None, None, None;
    }

    /** `onOpenChange(m)`: replaces the open modal, keeps the selection. */
    method OnOpenChange(m: Option<ModalType>)
      modifies this
      ensures State() == old(State()).(openModal := m)
    {
      openModal := m;
    }

    method SetGroup(g: Option<Group>)
      modifies this
      ensures State() == old(State()).(group := g)
    {
      group := g;
    }

    method SetWedding(w: Option<WeddingDetails>)
      modifies this
      ensures State() == old(State()).(wedding := w)
    {
      wedding := w;
    }

    /** `closeModal()`: only the slot is cleared; the selected group and wedding stay. */
    method CloseModal()
      modifies this
      ensures State() == old(State()).(openModal := None)
    {
      openModal := None;
    }
  }

  /** The dialogs modals.tsx mounts: `Absent` when its `group &&` / `wedding &&` guard fails. */
  datatype DialogState = Absent | Mounted(open: bool)

  datatype Dialogs = Dialogs(
    addGuest: DialogState,
    addGroup: DialogState,
    editGroup: DialogState,
    deleteGroup: DialogState,
    editWedding: DialogState,
    shareWedding: DialogState)

  function Guarded(present: bool, open: bool): DialogState
  {
    if present then Mounted(open) else Absent
  }

  /** modals.tsx: each dialog is open iff the slot holds its tag; the group dialogs need a
      group, the wedding dialog a wedding. */
  function DialogsOf(s: ModalState): Dialogs
  {
    Dialogs(
      Mounted(s.openModal == Some(AddGuest)),
      Mounted(s.openModal == Some(AddGroup)),
      Guarded(s.group.Some?, s.openModal == Some(EditGroup)),
      Guarded(s.group.Some?, s.openModal == Some(DeleteGroup)),
      Guarded(s.wedding.Some?, s.openModal == Some(EditWedding)),
      Mounted(s.openModal == Some(ShareWedding)))
  }

  function IsOpen(d: DialogState): nat
  {
    if d == Mounted(true) then 1 else 0
  }

  function OpenCount(ds: Dialogs): nat
  {
    IsOpen(ds.addGuest) + IsOpen(ds.addGroup) + IsOpen(ds.editGroup)
    + IsOpen(ds.deleteGroup) + IsOpen(ds.editWedding) + IsOpen(ds.shareWedding)
  }

  /** At most one dialog is open, none when the slot is empty, and the open one is the one
      the slot names (when it is mounted). */
  lemma AtMostOneDialogOpen(s: ModalState)
    ensures OpenCount(DialogsOf(s)) <= 1
    ensures s.openModal.None? ==> OpenCount(DialogsOf(s)) == 0
    ensures s.openModal == Some(AddGuest) ==> DialogsOf(s).addGuest == Mounted(true)
    ensures s.openModal == Some(AddGroup) ==> DialogsOf(s).addGroup == Mounted(true)
    ensures s.openModal == Some(EditGroup) && s.group.Some? ==> DialogsOf(s).editGroup == Mounted(true)
    ensures s.openModal == Some(DeleteGroup) && s.group.Some? ==> DialogsOf(s).deleteGroup == Mounted(true)
    ensures s.openModal == Some(EditWedding) && s.wedding.Some? ==> DialogsOf(s).editWedding == Mounted(true)
    ensures s.openModal == Some(ShareWedding) ==> DialogsOf(s).shareWedding == Mounted(true)
    ensures DialogsOf(s).addGuest == Mounted(true) ==> s.openModal == Some(AddGuest)
    ensures DialogsOf(s).addGroup == Mounted(true) ==> s.openModal == Some(AddGroup)
    ensures DialogsOf(s).editGroup == Mounted(true) ==> s.openModal == Some(EditGroup)
    ensures DialogsOf(s).deleteGroup == Mounted(true) ==> s.openModal == Some(DeleteGroup)
    ensures DialogsOf(s).editWedding == Mounted(true) ==> s.openModal == Some(EditWedding)
    ensures DialogsOf(s).shareWedding == Mounted(true) ==> s.openModal == Some(ShareWedding)
  {
  }

  /** The group dialogs exist only with a selected group, the wedding dialog only with a
      selected wedding. */
  lemma GuardedDialogsNeedASelection(s: ModalState)
    ensures DialogsOf(s).editGroup.Mounted? <==> s.group.Some?
    ensures DialogsOf(s).deleteGroup.Mounted? <==> s.group.Some?
    ensures DialogsOf(s).editWedding.Mounted? <==> s.wedding.Some?
    ensures s.openModal == Some(EditGroup) && s.group.None? ==> OpenCount(DialogsOf(s)) == 0
  {
  }

  /** Every dialog's close handler is `closeModal`: after it, nothing is open, and the selection
      that the group and wedding dialogs need is still there. */
  lemma ClosingClosesEverything(s: ModalState)
    ensures OpenCount(DialogsOf(s.(openModal := None))) == 0
    ensures DialogsOf(s.(openModal := None)).editGroup.Mounted? <==> DialogsOf(s).editGroup.Mounted?
    ensures DialogsOf(s.(openModal := None)).editWedding.Mounted? <==> DialogsOf(s).editWedding.Mounted?
  {
  }
}
