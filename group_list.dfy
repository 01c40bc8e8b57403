// One side's list of group cards (features/wedding/components/dashboard/group-list.tsx):
// which guests each card shows, when a card or the whole list is hidden, the card's
// head count and whether it is open.

module GroupList {
  import opened Types
  import opened Seqs
  import opened GuestDisplay
  import GuestList
  import Stats

  /** `guest.groupId === group.id` */
  function InGroup(id: string): Guest -> bool
  {
    (g: Guest) => g.groupId == Defined(id)
  }

  /** `groupGuests`: the group's members, then `filterGuests`. */
  function GroupGuests(guests: seq<Guest>, group: GroupWithStats, query: string, status: StatusFilter): (r: seq<Guest>)
    ensures forall g :: g in r <==>
      g in guests && g.groupId == Defined(group.group.id) && MatchesSearch(g, query) && MatchesStatus(g, status)
  {
    FilterGuests(Filter(guests, InGroup(group.group.id)), query, status)
  }

  /** The list renders nothing for an empty group list. */
  predicate ListRenders(groups: seq<GroupWithStats>)
  {
    |groups| > 0
  }

  /** A group card is rendered only when some member passes the filters. */
  predicate CardShown(guests: seq<Guest>, group: GroupWithStats, query: string, status: StatusFilter)
  {
    GroupGuests(guests, group, query, status) != []
  }

  /** `openGroups.includes(group.id)` */
  predicate IsOpen(openGroups: seq<string>, group: GroupWithStats)
  {
    group.group.id in openGroups
  }

  /** The card's count: its shown members and their companions, never zero on a shown card, with
      the same plural word as the ungrouped list. */
  function CardCount(guests: seq<Guest>, group: GroupWithStats, query: string, status: StatusFilter): (c: (int, string))
    ensures
      var members := GroupGuests(guests, group, query, status);
      c.0 == |members| + |Stats.AllCompanions(members)|
    ensures CardShown(guests, group, query, status) ==> c.0 >= 1
    ensures c.1 == CountWord(c.0)
  {
    var members := GroupGuests(guests, group, query, status);
    HeadCountCountsCompanions(members);
    (HeadCount(members), CountWord(HeadCount(members)))
  }

  /** With the initial filters a card's count is what the statistics call `totalGuests` for the
      group's members. */
  lemma UnfilteredCardCountsAllMembers(guests: seq<Guest>, group: GroupWithStats, d: WeddingDetails)
    ensures CardCount(guests, group, "", AllStatuses).0
         == Stats.WeddingStatsOf(Filter(guests, InGroup(group.group.id)), Some(d)).totalGuests
  {
    InitialFilterKeepsEveryone(Filter(guests, InGroup(group.group.id)));
  }

  /** A guest is never listed both among the ungrouped guests and in a group card (groups have
      non-empty ids). */
  lemma ListedAtMostOnce(guests: seq<Guest>, side: SideFilter, group: GroupWithStats,
                         query: string, status: StatusFilter, g: Guest)
    requires group.group.id != ""
    ensures !(g in GuestList.UngroupedGuests(guests, side, query, status) && g in GroupGuests(guests, group, query, status))
  {
  }

  /** A guest whose group id names no listed group (what a deleted group would leave behind if
      the database did not clear it) appears in no list at all. */
  lemma DanglingGroupIdHidden(guests: seq<Guest>, groups: seq<GroupWithStats>, side: SideFilter,
                              query: string, status: StatusFilter, g: Guest)
    requires TruthyString(g.groupId)
    requires forall G :: G in groups ==> g.groupId != Defined(G.group.id)
    ensures g !in GuestList.UngroupedGuests(guests, side, query, status)
    ensures forall G :: G in groups ==> g !in GroupGuests(guests, G, query, status)
  {
  }
}
