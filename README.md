# Wedding guest list — a Dafny model of its core logic

The application keeps a couple's wedding guest list: guests on the bride's or the groom's
side, their companions (adults or children), an optional gift, optional groups, and
collaborators who may manage the same wedding. Storage and identity live in a hosted
backend; what this project models is the logic around them:

- the statistics (`useWeddingStats` and the per-group statistics of `getGroupsWithStats`);
- the dashboard's filters, partitions, head counts and the Serbian plural of "guest";
- the three stores (open groups, filter settings, the single modal slot) and the mapping from
  the modal slot to the mounted dialogs;
- the guest form's schema, defaults and companion list; the payloads of the add and edit
  dialogs; the group dialogs; the share dialog's invite link;
- the table-level effect of `api.ts` over an in-memory store (one sequence of rows per table
  plus the per-user `wedding_id` metadata slot), including the wedding-resolution order of
  `getCollaborators` / `deleteCollaborator`;
- the wedding-setup schema, the middleware's path gate, and the login, register and
  set-password pages.

Modules, one per file: `Types` (types.dfy), `Seqs` (seqs.dfy, generic filter/sum lemmas),
`Stats`, `ApiRows` (rows and the pure parts of api.ts), `ApiStore` (the `Store` class),
`Toggle`, `GuestDisplay`, `GuestList`, `GuestGroups`, `GroupList`, `GroupsStore` /
`FilterStore` / `ModalStore` (stores.dfy), `GuestForm`, `GuestDialogs`, `GroupDialogs`,
`ShareDialog`, `WeddingSchema`, `Middleware`, `AuthPages`.

JavaScript conventions are explicit: `undefined | null | value` is `Nullish<T>`, truthiness of
strings and numbers is written out (`""` and `0` are falsy), `x || null` is `OrNull`, and a
caught exception is `Thrown` (an `Error` with a message, or anything else). Amounts and prices
are integers. Calls to the auth service become inputs: the session, whether a call throws.

Two behaviours of the code are worth stating up front:

- `shareWedding` rethrows every insert error, so sharing with an email that already
  collaborates fails with the duplicate-key error; it is not an idempotent insert
  (`ApiStore.Store.ShareWedding`, `ApiStore.ShareTwice`).
- A caller's wedding is resolved in the order owned wedding, then collaborator row for the
  caller's email, then the metadata `wedding_id`; the collaborator row beats the metadata
  pointer (`ApiRows.ResolveWedding`, `ApiRows.CollaboratorRowBeatsMetadata`).

## Model

| member | source | states |
|---|---|---|
| Types.ParseSide | features/wedding/types.ts:4 | the side literals are exactly "bride" and "groom", each naming one side |
| Types.ParseAttendance | features/wedding/types.ts:5 | the attendance literals are exactly "yes", "no" and "pending" |
| Types.ParseGiftType | features/wedding/types.ts:6 | the gift type literals are exactly "money" and "other" |
| Types.OrNull | features/wedding/components/dashboard/add-guest-dialog.tsx:24 | the `or null` fallback of the group id: a truthy id is kept, an empty, null or missing one becomes null |
| Types.OrUndefined | features/wedding/components/dashboard/edit-guest-dialog.tsx:60 | the `or undefined` fallback of the group id: a truthy id is kept, anything falsy becomes undefined |
| Types.ErrorText | features/wedding/components/dashboard/edit-group-dialog.tsx:75-79 | an `Error` shows its message, any other thrown value the fallback text |
| Stats.TallyCompanions | features/wedding/hooks/queries.ts:59-69 | the reduce counts exactly the adult and the non-adult companions over all guests |
| Stats.WeddingStatsOf | features/wedding/hooks/queries.ts:41-91 | no wedding details: all zero; otherwise adults = guests + adult companions, children = child companions, total = adults + children = guests + all companions, cost = adults × price, gift total over money gifts with truthy amount |
| Stats.OnlyMoneyGiftsCount | features/wedding/hooks/queries.ts:72-77 | the gift total is the sum over the guests whose gift is money; other gifts add nothing |
| Stats.ChildrenAddNoCost | features/wedding/hooks/queries.ts:79-82 | adding a child companion raises the child count by one and changes neither adults nor cost |
| ApiRows.FirstGift | features/wedding/lib/api.ts:208-214 | a guest's gift is its first gift row (with nullable columns read as null), undefined when it has none |
| ApiRows.GuestOfRecord | features/wedding/lib/api.ts:193-215 | a guest read from its row keeps id, first and last name, attendance and side; phone, group id and notes read NULL as null; its companions keep order, ids, first names, adult flags and last names (NULL as null); the gift is the first gift row |
| ApiRows.GuestsOfRecords | features/wedding/lib/api.ts:193 | one guest per row, in row order |
| ApiRows.GroupWithStatsOf | features/wedding/lib/api.ts:235-255 | a group's stats: total = adults + children, adults at least the number of guests |
| ApiRows.GroupStatsAgreeWithWeddingStats | features/wedding/lib/api.ts:236-252 | per-group guests, adults, children and gift amount equal the whole-wedding formulas applied to the group's guests as `getGuests` returns them |
| ApiRows.CompanionsOfRecordsMatch | features/wedding/lib/api.ts:237 | the group's companion rows, mapped, are the companions of its mapped guests |
| ApiRows.AdultsSurviveMapping | features/wedding/lib/api.ts:247-249 | mapping companion rows keeps the adult and child counts |
| ApiRows.GiftSumsMatch | features/wedding/lib/api.ts:238-241 | the group gift reduce over first gift rows equals the wedding gift total over the mapped guests |
| ApiRows.GiftRowFor | features/wedding/lib/api.ts:303-310 | a gift row is written exactly for a present gift; it keeps the description only for "other" and the amount only for "money" |
| ApiRows.StoredGiftReadsBack | features/wedding/lib/api.ts:303-316 | a stored gift reads back with the field its type does not use set to null |
| ApiRows.CompanionRowsFor | features/wedding/lib/api.ts:288-297 | one companion row per companion, in order, with the guest's id and the companion's fields |
| ApiRows.StoredCompanionsReadBack | features/wedding/lib/api.ts:288-297 | stored companions read back in order with the same names and flags and the database's ids |
| ApiRows.SetColumn | features/wedding/lib/api.ts:321-332 | an update leaves a column for a missing key, clears it for null, sets it for a value |
| ApiRows.PatchRows | features/wedding/lib/api.ts:321-333 | `update(...).eq("id", id)` patches exactly the rows with that id |
| ApiRows.CompanionsReplacedExactly | features/wedding/lib/api.ts:336-355 | after the update a guest's companions are exactly the new list, in order |
| ApiRows.OtherCompanionsUntouched | features/wedding/lib/api.ts:338 | other guests' companions are unchanged |
| ApiRows.GiftReplacedExactly | features/wedding/lib/api.ts:357-378 | a typed gift leaves exactly one gift row for the guest, null leaves none, other guests' gifts are unchanged |
| ApiRows.UpdatedGuestReadsBack | features/wedding/lib/api.ts:336-378 | after an update with companions and a gift, the guest reads back with exactly those companions and the normalised gift |
| ApiRows.Single | features/wedding/lib/api.ts:455 | `maybeSingle`: data exactly when one row matches |
| ApiRows.OwnedWedding | features/wedding/lib/api.ts:262-268 | the owned wedding is found only by the caller's user id, and only when exactly one row matches |
| ApiRows.CollaboratorRowOf | features/wedding/lib/api.ts:467-472 | the collaborator row is found by the caller's email, when exactly one matches |
| ApiRows.ResolveWedding | features/wedding/lib/api.ts:450-486 | owned wedding, else collaborator row, else metadata `wedding_id`; each path yields a truthy id that really links the caller, and nothing resolves exactly when none of the three lookups yields a truthy id |
| ApiRows.MetadataDecidesLast | features/wedding/lib/api.ts:484-486 | when neither the owned wedding nor the collaborator row gives a truthy id, a truthy metadata `wedding_id` is the wedding acted on |
| ApiRows.OwnershipWins | features/wedding/lib/api.ts:450-457 | a caller owning one wedding acts on it whatever rows or metadata say |
| ApiRows.CollaboratorRowBeatsMetadata | features/wedding/lib/api.ts:466-486 | with no owned wedding, the collaborator row decides even if metadata names another wedding |
| ApiRows.EmailsOf | features/wedding/lib/api.ts:458-464 | the returned emails are exactly the collaborators of the resolved wedding |
| ApiRows.SelfRevocationEndsAccess | features/wedding/lib/api.ts:530-557 | removing one's own collaborator row and clearing the metadata pointer leaves nothing resolving |
| ApiStore.Store.RecordOf | features/wedding/lib/api.ts:182-187 | the embedded select returns exactly the guest's companion and gift rows |
| ApiStore.Store.RecordsOf | features/wedding/lib/api.ts:180-189 | one record per guest row, in order |
| ApiStore.Store.GetGuests | features/wedding/lib/api.ts:179-216 | `getGuests` returns one mapped guest per guest row |
| ApiStore.Store.AddGuest | features/wedding/lib/api.ts:258-318 | no session or no owned wedding: fails and changes nothing; otherwise adds the guest row, its companion rows and its gift row |
| ApiStore.Store.UpdateGuest | features/wedding/lib/api.ts:320-379 | patches the row; replaces companions only when given; leaves the gift for undefined, removes it for null, replaces it otherwise |
| ApiStore.Store.AddGroup | features/wedding/lib/api.ts:387-406 | adds one group row to the caller's owned wedding, or fails with nothing changed |
| ApiStore.Store.DeleteGroup | features/wedding/lib/api.ts:417-421 | deletes exactly the group rows with that id, and nothing else |
| ApiStore.Store.ShareWedding | features/wedding/lib/api.ts:423-441 | adds the (owned wedding, email) row; an existing pair fails with the duplicate-key error |
| ApiStore.Store.GetCollaborators | features/wedding/lib/api.ts:443-495 | no session or nothing resolved: []; otherwise the emails of the resolved wedding |
| ApiStore.Store.DeleteCollaborator | features/wedding/lib/api.ts:497-581 | removes only the (resolved wedding, email) row, clears the caller's metadata only when the email is their own, fails when nothing resolves |
| ApiStore.ShareTwice | features/wedding/lib/api.ts:435-440 | sharing twice leaves exactly one row for the pair |
| Toggle.Toggled | features/wedding/stores/groups-store.ts:14-16 | the toggled value is present exactly when it was absent; every other value keeps its presence |
| Toggle.ToggleTwiceRestoresMembers | features/wedding/stores/groups-store.ts:12-17 | toggling twice restores which values are present |
| Toggle.ToggleTwiceCanReorder | features/wedding/stores/groups-store.ts:14-16 | but not their order: a removed value comes back at the end |
| Toggle.ToggleKeepsNoDup | features/wedding/stores/groups-store.ts:12-17 | a duplicate-free list stays duplicate-free |
| GuestDisplay.Lower | features/wedding/components/dashboard/guest-list.tsx:32-33 | lower-casing keeps the length and maps each character |
| GuestDisplay.LowerIdempotent | features/wedding/components/dashboard/guest-list.tsx:32-33 | lower-casing twice is lower-casing once |
| GuestDisplay.FilterGuests | features/wedding/components/dashboard/guest-list.tsx:28-39 | a guest is kept exactly when it passes the search and the status test |
| GuestDisplay.FilterGuestsAppend | features/wedding/components/dashboard/guest-groups.tsx:46-57 | filtering is per guest and keeps input order |
| GuestDisplay.InitialFilterKeepsEveryone | features/wedding/components/dashboard/guest-list.tsx:30-36 | empty query and status "all" keep every guest |
| GuestDisplay.SearchIgnoresQueryCase | features/wedding/components/dashboard/guest-list.tsx:31-34 | the search result does not depend on the query's case |
| GuestDisplay.SpaceQueryMatchesEveryone | features/wedding/components/dashboard/guest-list.tsx:31-34 | a one-space query matches every guest, because the names are joined by a space |
| GuestDisplay.HeadCountCountsCompanions | features/wedding/components/dashboard/guest-list.tsx:78-81 | the header count is the number of guests plus all their companions |
| GuestDisplay.HeadCountIsTotalGuests | features/wedding/components/dashboard/guest-list.tsx:78-81 | the header count equals `totalGuests` of the statistics over the same guests |
| GuestDisplay.ShownListCountsAtLeastOne | features/wedding/components/dashboard/group-list.tsx:40-43 | a non-empty list never counts zero |
| GuestDisplay.CountWord | features/wedding/components/dashboard/guest-list.tsx:85-89 | "gost" exactly for 1, "gosta" for other counts below 5, "gostiju" from 5 |
| GuestList.UngroupedGuests | features/wedding/components/dashboard/guest-list.tsx:41-47 | exactly the guests with a falsy group id on the selected side that pass the search and status filters |
| GuestList.UngroupedGuestsIsOnePass | features/wedding/components/dashboard/guest-list.tsx:41-47 | the two filters act as one pass, keeping input order |
| GuestList.SidesPartitionUngrouped | features/wedding/components/dashboard/guest-list.tsx:49-50 | the bride and groom lists split the ungrouped list |
| GuestList.RenderedCardShowsASection | features/wedding/components/dashboard/guest-list.tsx:53-55 | a rendered card shows at least one side section |
| GuestList.Header | features/wedding/components/dashboard/guest-list.tsx:78-89 | the header shows guests plus companions (at least 1) and the matching plural word |
| GuestList.Sections.constructor | features/wedding/components/dashboard/guest-list.tsx:26 | both sides start open |
| GuestList.Sections.ToggleSection | features/wedding/components/dashboard/guest-list.tsx:57-63 | flips one side's membership and leaves the other side unchanged |
| GuestGroups.FilteredGroups | features/wedding/components/dashboard/guest-groups.tsx:59-61 | side "all" keeps every group, otherwise exactly the groups of that side |
| GuestGroups.GroupSidesPartition | features/wedding/components/dashboard/guest-groups.tsx:63-64 | the bride and groom group lists split the filtered groups |
| GuestGroups.RendersIffSomeGroupOnSide | features/wedding/components/dashboard/guest-groups.tsx:67-69 | the component renders exactly when some group is on the selected side |
| GuestGroups.HiddenListIsEmpty | features/wedding/components/dashboard/guest-groups.tsx:115-130 | a side list that is hidden would have been empty |
| GuestGroups.ExpandAllIds | features/wedding/components/dashboard/guest-groups.tsx:77 | "expand all" passes the ids of all groups, in order |
| GuestGroups.ExpandAllCoversEveryGroup | features/wedding/components/dashboard/guest-groups.tsx:77 | including the groups the side filter hides |
| GroupList.GroupGuests | features/wedding/components/dashboard/group-list.tsx:36-38 | a group lists exactly its members that pass the filters |
| GroupList.CardCount | features/wedding/components/dashboard/group-list.tsx:40-87 | the card count is members plus companions, at least 1 on a shown card, with the plural word |
| GroupList.UnfilteredCardCountsAllMembers | features/wedding/components/dashboard/group-list.tsx:40-43 | with the initial filters the card count is the statistics' `totalGuests` of the members |
| GroupList.ListedAtMostOnce | features/wedding/components/dashboard/group-list.tsx:36-38 | no guest is both ungrouped and in a group card |
| GroupList.DanglingGroupIdHidden | features/wedding/components/dashboard/group-list.tsx:36-45 | a guest whose group id names no listed group is shown nowhere |
| GroupsStore.OpenGroups.constructor | features/wedding/stores/groups-store.ts:11 | no group is open at first |
| GroupsStore.OpenGroups.ToggleGroup | features/wedding/stores/groups-store.ts:12-17 | removes every occurrence of an open id or appends a closed one; other ids keep their state; no duplicates are introduced |
| GroupsStore.OpenGroups.ExpandAll | features/wedding/stores/groups-store.ts:18 | the open list becomes exactly the given ids |
| GroupsStore.OpenGroups.CollapseAll | features/wedding/stores/groups-store.ts:19 | the open list becomes empty |
| FilterStore.Filters.constructor | features/wedding/stores/filter-store.ts:16-19 | view, side and status "all", empty search |
| FilterStore.Filters.SetViewMode | features/wedding/stores/filter-store.ts:21 | changes only the view mode |
| FilterStore.Filters.SetSelectedSide | features/wedding/stores/filter-store.ts:22 | changes only the side |
| FilterStore.Filters.SetSelectedStatus | features/wedding/stores/filter-store.ts:23 | changes only the status |
| FilterStore.Filters.SetSearchQuery | features/wedding/stores/filter-store.ts:24 | changes only the query, stored verbatim |
| FilterStore.SettersIdempotent | features/wedding/stores/filter-store.ts:21-24 | each setter applied twice with one value equals applying it once |
| FilterStore.SetSearchQueryTwice | features/wedding/stores/filter-store.ts:24 | setting the query twice on the store leaves what setting it once leaves |
| ModalStore.Modals.constructor | features/wedding/components/dashboard/modals/modal-store.ts:24-26 | no modal, no group, no wedding |
| ModalStore.Modals.OnOpenChange | features/wedding/components/dashboard/modals/modal-store.ts:27 | sets the slot and keeps group and wedding |
| ModalStore.Modals.SetGroup | features/wedding/components/dashboard/modals/modal-store.ts:28 | changes only the group |
| ModalStore.Modals.SetWedding | features/wedding/components/dashboard/modals/modal-store.ts:29 | changes only the wedding |
| ModalStore.Modals.CloseModal | features/wedding/components/dashboard/modals/modal-store.ts:30 | clears the slot and keeps group and wedding |
| ModalStore.AtMostOneDialogOpen | features/wedding/components/dashboard/modals/modals.tsx:17-49 | at most one dialog is open, none for an empty slot; the slot's dialog is open whenever it is mounted (the group dialogs need a group, the wedding dialog a wedding), and an open dialog is always the one the slot names |
| ModalStore.GuardedDialogsNeedASelection | features/wedding/components/dashboard/modals/modals.tsx:25-45 | the group dialogs exist exactly with a selected group, the wedding dialog with a selected wedding |
| ModalStore.ClosingClosesEverything | features/wedding/components/dashboard/modals/modals.tsx:19-48 | after the shared close handler nothing is open and the mounted dialogs stay mounted |
| GuestForm.AcceptedIff | features/wedding/components/dashboard/guest-form.tsx:56-79 | the schema reports no error exactly when every field rule holds |
| GuestForm.Validate | features/wedding/components/dashboard/guest-form.tsx:56-79 | values are produced exactly for acceptable input and carry every field through |
| GuestForm.CorrectionOnlyWidens | features/wedding/components/dashboard/guest-form.tsx:65-77 | the corrected schema accepts everything the written one does, with the same values |
| GuestForm.EmptyFormDefaults | features/wedding/components/dashboard/guest-form.tsx:98-106 | without defaults the form is pending, bride side, no companions, and fails only on the two names |
| GuestForm.SuppliedDefaultsWin | features/wedding/components/dashboard/guest-form.tsx:98-106 | supplied defaults override the base values; absent ones keep them |
| GuestForm.GroupOptions | features/wedding/components/dashboard/guest-form.tsx:117 | exactly the groups of the selected side |
| GuestForm.WithoutIndex | features/wedding/components/dashboard/guest-form.tsx:131 | removes exactly position `index`, or nothing for an index outside the list |
| GuestForm.ToggledGift | features/wedding/components/dashboard/guest-form.tsx:314-317 | a present gift becomes null, an absent one `{type: "money"}` |
| GuestForm.GiftToggleForgets | features/wedding/components/dashboard/guest-form.tsx:314-317 | toggling off and on gives a fresh money gift |
| GuestForm.FormState.constructor | features/wedding/components/dashboard/guest-form.tsx:96-107 | the form starts from the merged defaults |
| GuestForm.FormState.AddCompanion | features/wedding/components/dashboard/guest-form.tsx:119-125 | appends one adult with empty names, leaving everything else |
| GuestForm.FormState.RemoveCompanion | features/wedding/components/dashboard/guest-form.tsx:127-133 | removes exactly one position, keeping the rest in order |
| GuestForm.FormState.ToggleGift | features/wedding/components/dashboard/guest-form.tsx:314-317 | changes only the gift, as `ToggledGift` |
| GuestForm.AddThenRemoveRestores | features/wedding/components/dashboard/guest-form.tsx:119-133 | removing the companion just added restores the list |
| GuestForm.AdultSelectRoundTrip | features/wedding/components/dashboard/guest-form.tsx:479-482 | "adult" maps to true, anything else to false, and the select shows what it sets |
| GuestDialogs.NatToString | features/wedding/components/dashboard/add-guest-dialog.tsx:27 | the decimal text of a number is non-empty, with two or more digits from 10 |
| GuestDialogs.NatToStringInjective | features/wedding/components/dashboard/add-guest-dialog.tsx:27 | different numbers print differently |
| GuestDialogs.TempIdsDistinct | features/wedding/components/dashboard/add-guest-dialog.tsx:25-28 | temporary ids of different positions differ |
| GuestDialogs.AddPayload | features/wedding/components/dashboard/add-guest-dialog.tsx:20-29 | group id or null, companion i gets "temp-i" (all distinct), count and order kept, other values passed through |
| GuestDialogs.NoGroupChoiceStoredAsNull | features/wedding/components/dashboard/add-guest-dialog.tsx:24 | no group chosen is stored as a NULL group column and reads back ungrouped |
| GuestDialogs.EditCompanionId | features/wedding/components/dashboard/edit-guest-dialog.tsx:35 | companion i reuses the existing id at position i when truthy, otherwise "temp-i" |
| GuestDialogs.EditPayload | features/wedding/components/dashboard/edit-guest-dialog.tsx:26-38 | every form value spread, group id or null, companions in form order with reused ids |
| GuestDialogs.EditDefaults | features/wedding/components/dashboard/edit-guest-dialog.tsx:54-74 | the guest's own names, phone, notes, attendance and side (as their literals), a falsy group id as undefined, the gift with its type, amount and description exactly when the guest has one, and the companions without ids in order |
| GuestDialogs.EditDefaultsRejectedAsWritten | features/wedding/components/dashboard/guest-form.tsx:65-77 | as written, a guest with a null phone, notes, gift field or companion last name fails the edit form unchanged |
| GuestDialogs.GuestWithoutNotesCannotBeEdited | features/wedding/lib/api.ts:270-283 | a guest added without notes reads back with null notes and then fails the written schema |
| GuestDialogs.GuestWithMoneyGiftCannotBeEdited | features/wedding/lib/api.ts:303-310 | a guest with a money gift reads back with a null description and fails the written schema |
| GuestDialogs.EditDefaultsAccepted | features/wedding/components/dashboard/edit-guest-dialog.tsx:54-74 | with the corrected schema every guest with long enough names passes the edit form unchanged |
| GuestDialogs.SavingUnchangedKeepsRow | features/wedding/components/dashboard/edit-guest-dialog.tsx:26-38 | saving the edit defaults unchanged, without the form's mount-time group reset, rewrites the row with its own values; only an empty group id becomes NULL |
| GuestDialogs.MountResetDropsGroup | features/wedding/components/dashboard/guest-form.tsx:112-115 | after the form's one-time group-id reset, saving untouched sets the row's group id to NULL and keeps every other column |
| GuestDialogs.SavingUnchangedKeepsCompanions | features/wedding/components/dashboard/edit-guest-dialog.tsx:33-36 | saving unchanged keeps the companions' order, names and adult flags |
| GroupDialogs.TrimStart | features/wedding/components/dashboard/add-group-dialog.tsx:36 | drops exactly the leading white space |
| GroupDialogs.TrimEnd | features/wedding/components/dashboard/add-group-dialog.tsx:36 | drops exactly the trailing white space |
| GroupDialogs.Trim | features/wedding/components/dashboard/add-group-dialog.tsx:36-38 | a slice without white space at either end, with only white space cut off |
| GroupDialogs.TrimEmptyIff | features/wedding/components/dashboard/add-group-dialog.tsx:36 | the trimmed name is empty exactly for an all-white-space name |
| GroupDialogs.TrimIdempotent | features/wedding/components/dashboard/add-group-dialog.tsx:38 | trimming twice trims nothing more |
| GroupDialogs.AddGroupDialog.constructor | features/wedding/components/dashboard/add-group-dialog.tsx:30-31 | empty name, bride side |
| GroupDialogs.AddGroupDialog.HandleSubmit | features/wedding/components/dashboard/add-group-dialog.tsx:34-48 | a blank name sends nothing; otherwise the trimmed name and side are added; success resets name and side and closes |
| GroupDialogs.OneCharacterNameAccepted | features/wedding/components/dashboard/add-group-dialog.tsx:36-38 | a one-character name is sent |
| GroupDialogs.GroupSchema | features/wedding/components/dashboard/edit-group-dialog.tsx:35-38 | accepted exactly for an untrimmed name of at least 2 and a side literal |
| GroupDialogs.BlankNamePassesEdit | features/wedding/components/dashboard/edit-group-dialog.tsx:36 | a name of two spaces passes the edit schema though it trims to nothing |
| GroupDialogs.ShortNameFailsEdit | features/wedding/components/dashboard/edit-group-dialog.tsx:36 | a one-character group name from the add dialog fails the edit schema |
| GroupDialogs.EditGroupDialog.constructor | features/wedding/components/dashboard/edit-group-dialog.tsx:54-60 | the form starts from the group's name and side |
| GroupDialogs.EditGroupDialog.OnSubmit | features/wedding/components/dashboard/edit-group-dialog.tsx:62-81 | sends `{id, updates}`; clears the error; success closes and resets, failure shows the message or the fallback |
| GroupDialogs.DefaultsRoundTrip | features/wedding/components/dashboard/edit-group-dialog.tsx:56-66 | unchanged defaults with a long enough name send the group's own name and side |
| ShareDialog.InviteLink | features/wedding/components/dashboard/share-wedding-dialog.tsx:33-35 | empty exactly without a truthy code; otherwise origin + "/invite/" + code |
| ShareDialog.CodeOfLink | features/wedding/components/dashboard/share-wedding-dialog.tsx:34 | a code read back out of a link is non-empty and rebuilds the link |
| ShareDialog.InviteLinkRoundTrip | features/wedding/components/dashboard/share-wedding-dialog.tsx:33-35 | the link carries exactly the invite code |
| ShareDialog.InviteLinksDistinct | features/wedding/components/dashboard/share-wedding-dialog.tsx:34 | different codes give different links |
| ShareDialog.ViewOf | features/wedding/components/dashboard/share-wedding-dialog.tsx:97-134 | spinner while loading, empty state exactly for no collaborators, otherwise the list |
| ShareDialog.Dialog.constructor | features/wedding/components/dashboard/share-wedding-dialog.tsx:26-27 | not copied, no error |
| ShareDialog.Dialog.CopyInviteLink | features/wedding/components/dashboard/share-wedding-dialog.tsx:37-43 | an empty link does nothing; otherwise it is copied and marked |
| ShareDialog.Dialog.HandleDeleteCollaborator | features/wedding/components/dashboard/share-wedding-dialog.tsx:45-56 | clears the error, removes the collaborator, and on failure shows the thrown message |
| WeddingSchema.SetupErrors | features/wedding/schemas.ts:3-13 | a field fails exactly when shorter than its minimum (2, 2, 2, 5, 2, 1) |
| WeddingSchema.Validate | features/wedding/schemas.ts:3-13 | accepted exactly when no field fails, with every field carried through |
| WeddingSchema.BlankNamesAccepted | features/wedding/schemas.ts:4-11 | lengths are untrimmed, so blank names pass |
| WeddingSchema.EmptyFormFailsEverywhere | features/wedding/schemas.ts:4-11 | an all-empty input fails on all six fields |
| Middleware.Gate | middleware.ts:14-26 | redirect to login exactly for a non-public path without a session |
| Middleware.SessionOnlyHelps | middleware.ts:21-26 | with a session everything passes; without one only public paths do |
| Middleware.PrefixTestIsRaw | middleware.ts:15-16 | "/invitee" and "/set-passwords" count as public |
| Middleware.Route | middleware.ts:30-41 | a request is redirected exactly when the matcher covers it (the lookahead alternatives read as patterns whose `.` matches any character), it is not public, and there is no session |
| Middleware.LoginNeverRedirected | middleware.ts:40 | the login page is outside the matcher, so the redirect never loops |
| Middleware.AuthorsNotGated | middleware.ts:40 | the matcher's exclusions are raw prefixes: "/authors" is never gated |
| Middleware.FaviconDotIsWildcard | middleware.ts:40 | the unescaped dot in "favicon.ico" matches any character: "/faviconXico" and "/favicon-ico" are never gated, while "/favicon" is |
| AuthPages.LoginErrors | app/auth/login/page.tsx:31-34 | the email fails exactly when invalid, the password exactly when shorter than 6 |
| AuthPages.LoginRoute | app/auth/login/page.tsx:57-85 | no session: nowhere; home exactly with an owned wedding or a collaborator row; otherwise setup |
| AuthPages.LoginRouteMatchesResolution | app/auth/login/page.tsx:61-85 | with non-empty ids and no metadata, login sends home exactly when the dashboard's resolution succeeds |
| AuthPages.MetadataOnlyUserSentToSetup | app/auth/login/page.tsx:84-85 | a user linked only through metadata is sent to setup though the dashboard would resolve them |
| AuthPages.LoginPage.constructor | app/auth/login/page.tsx:39 | no error, no navigation |
| AuthPages.LoginPage.OnSubmit | app/auth/login/page.tsx:51-93 | clears the error; a throwing sign-in shows its message or the fallback; otherwise routes as `LoginRoute` |
| AuthPages.RegisterErrors | app/auth/register/page.tsx:23-32 | email, password of at least 8, and a confirmation mismatch reported on the confirmation field; no error exactly when all hold |
| AuthPages.SignUpStricterThanSignIn | app/auth/register/page.tsx:26 | a 6- or 7-character password signs in but cannot register |
| AuthPages.RegisterPage.constructor | app/auth/register/page.tsx:39 | no error, no navigation |
| AuthPages.RegisterPage.OnSubmit | app/auth/register/page.tsx:50-58 | success goes to setup; any failure shows one fixed message |
| AuthPages.PasswordCheck | app/set-password/page.tsx:39-47 | mismatch first, then length below 6; none exactly when both pass |
| AuthPages.MismatchReportedFirst | app/set-password/page.tsx:39-47 | a mismatch is reported even when the password is also too short |
| AuthPages.SetPasswordPage.constructor | app/set-password/page.tsx:14-33 | loading at mount; no session sends to login, a session ends loading |
| AuthPages.SetPasswordPage.HandleSubmit | app/set-password/page.tsx:35-65 | a failed check shows its message and sends nothing; otherwise one update with `has_password` true, success to "/dashboard", failure the fixed message, loading ends |

## Left out

- The auth service and the hosted database are not called: sessions, sign-in, sign-up,
  password updates and `inviteUserByEmail` are inputs or not modelled; the tables are
  in-memory sequences of rows, fresh ids are parameters.
- Datastore failures other than a duplicate collaborator key are not modelled; every insert
  and delete is taken to succeed. The metadata update after a self-revocation is modelled as
  succeeding; its failure is only logged by the source.
- Setting a deleted group's guests to an empty group is done by the database and is not
  modelled; `ApiStore.Store.DeleteGroup` removes only the group row, as the code does.
- Result ordering (`order("created_at")`, `order("name")`) is not modelled; rows come back in
  insertion order.
- React Query caching and invalidation, router mechanics, rendering and styling, the
  clipboard timer, and the presentation-only files are left out.
- `Number(...)` of the price, `parseInt` of the gift amount, floating point and locale
  formatting are left out; amounts and prices are integers and the setup price stays text.
- zod's email test is an input boolean (`emailValid`); its regular expression is not modelled.
- GuestDisplay.Lower: lower-cases ASCII letters only; JavaScript's full Unicode
  `toLowerCase`, and lengths counted in UTF-16 code units, are not modelled.
- GuestDialogs.SavingUnchangedKeepsRow: states the save of the edit defaults as they are
  built, not of the form as it stands after mounting. The guest form's effect at
  guest-form.tsx:113-115 clears the group id once, when the form mounts (it is keyed on the
  form object, which never changes). So a grouped guest opened in the edit dialog and saved
  untouched loses its group: the group id is sent as null. `GuestDialogs.MountResetDropsGroup`
  states that outcome. The form's field state and effects are otherwise not modelled.
- The `|| []` fallbacks of `getGroupsWithStats` and `getCollaborators` are not modelled: the
  in-memory tables never return null.
- `updateWedding`, `setupWedding`, `getWeddingDetails`, `getGroups`, `deleteGuest` and
  `updateGroup` in api.ts are not part of this model.
- Concurrency between collaborators: there is none in the code.

## Findings

| source | as written | input that shows it | evidently intended | confidence | as-written member | corrected member |
|---|---|---|---|---|---|---|
| features/wedding/components/dashboard/guest-form.tsx:58-74 | `phone`, `notes`, gift `amount` / `description` and companion `lastName` are `.optional()`, which rejects `null`; the edit dialog passes the guest's values as read by `getGuests`, where NULL columns arrive as `null` (edit-guest-dialog.tsx:54-74, api.ts:193-215) | a guest added without notes, or with any money gift (its description is stored as NULL, api.ts:303-310), opened in the edit dialog and saved unchanged | such fields accept `null` (`.nullish()`), so an existing guest can be saved | not executed; medium | GuestDialogs.EditDefaultsRejectedAsWritten | GuestDialogs.EditDefaultsAccepted |
