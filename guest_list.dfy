// The "Ostali gosti" card (features/wedding/components/dashboard/guest-list.tsx): the
// guests without a group, split by side, with a header count and two collapsible
// side sections.

module GuestList {
  import opened Types
  import opened Seqs
  import opened GuestDisplay
  import Toggle
  import Stats

  /** `!guest.groupId`: no group id, a null one, or the empty string. */
  predicate Ungrouped(g: Guest)
  {
    !TruthyString(g.groupId)
  }

  predicate SideSelected(g: Guest, side: SideFilter)
  {
    side.AllSides? || g.side == side.side
  }

  function UngroupedOnSide(side: SideFilter): Guest -> bool
  {
    (g: Guest) => Ungrouped(g) && SideSelected(g, side)
  }

  function OfSide(s: Side): Guest -> bool
  {
    (g: Guest) => g.side == s
  }

  /** `ungroupedGuests`: ungrouped guests on the selected side, then `filterGuests`. */
  function UngroupedGuests(guests: seq<Guest>, side: SideFilter, query: string, status: StatusFilter): (r: seq<Guest>)
    ensures forall g :: g in r <==>
      g in guests && Ungrouped(g) && SideSelected(g, side) && MatchesSearch(g, query) && MatchesStatus(g, status)
  {
    FilterGuests(Filter(guests, UngroupedOnSide(side)), query, status)
  }

  /** The two filters act as one pass over the guests, so the list keeps the input order. */
  lemma UngroupedGuestsIsOnePass(guests: seq<Guest>, side: SideFilter, query: string, status: StatusFilter)
    ensures UngroupedGuests(guests, side, query, status)
         == Filter(guests, And(UngroupedOnSide(side), Matches(query, status)))
  {
    FilterFilter(guests, UngroupedOnSide(side), Matches(query, status));
  }

  function BrideGuests(ungrouped: seq<Guest>): seq<Guest>
  {
    Filter(ungrouped, OfSide(Bride))
  }

  function GroomGuests(ungrouped: seq<Guest>): seq<Guest>
  {
    Filter(ungrouped, OfSide(Groom))
  }

  /** The bride and groom lists split the ungrouped list: every guest lands in exactly one. */
  lemma SidesPartitionUngrouped(ungrouped: seq<Guest>)
    ensures |BrideGuests(ungrouped)| + |GroomGuests(ungrouped)| == |ungrouped|
    ensures multiset(BrideGuests(ungrouped)) + multiset(GroomGuests(ungrouped)) == multiset(ungrouped)
  {
    FilterPartition(ungrouped, OfSide(Bride));
    FilterExt(ungrouped, Not(OfSide(Bride)), OfSide(Groom));
  }

  /** The card is rendered exactly when some ungrouped guest passes every filter. */
  predicate Renders(guests: seq<Guest>, side: SideFilter, query: string, status: StatusFilter)
  {
    UngroupedGuests(guests, side, query, status) != []
  }

  /** The bride section needs side "all" or "bride" and a non-empty bride list. */
  predicate BrideSectionShown(side: SideFilter, ungrouped: seq<Guest>)
  {
    side != OnlySide(Groom) && |BrideGuests(ungrouped)| > 0
  }

  predicate GroomSectionShown(side: SideFilter, ungrouped: seq<Guest>)
  {
    side != OnlySide(Bride) && |GroomGuests(ungrouped)| > 0
  }

  /** A rendered card always shows at least one side section: the side guard never hides a
      non-empty list, because the side filter has already removed the other side. */
  lemma RenderedCardShowsASection(guests: seq<Guest>, side: SideFilter, query: string, status: StatusFilter)
    requires Renders(guests, side, query, status)
    ensures
      var u := UngroupedGuests(guests, side, query, status);
      BrideSectionShown(side, u) || GroomSectionShown(side, u)
  {
    var u := UngroupedGuests(guests, side, query, status);
    SidesPartitionUngrouped(u);
    if side == OnlySide(Groom) {
      FilterNone(u, OfSide(Bride));
    } else if side == OnlySide(Bride) {
      FilterNone(u, OfSide(Groom));
    }
  }

  /** The header: the head count of the ungrouped list and its plural word. */
  function Header(guests: seq<Guest>, side: SideFilter, query: string, status: StatusFilter): (h: (int, string))
    requires Renders(guests, side, query, status)
    ensures
      var u := UngroupedGuests(guests, side, query, status);
      h.0 == |u| + |Stats.AllCompanions(u)| >= 1
    ensures h.1 == (if h.0 == 1 then "gost" else if h.0 < 5 then "gosta" else "gostiju")
  {
    var u := UngroupedGuests(guests, side, query, status);
    HeadCountCountsCompanions(u);
    (HeadCount(u), CountWord(HeadCount(u)))
  }

  /** The `openSections` state of the card. */
  class Sections {
    var openSections: seq<Side>

    /** Both sides start open. */
    constructor()
      ensures openSections == [Bride, Groom]
    {
      openSections := [Bride, Groom];
    }

    predicate IsOpen(s: Side)
      reads this
    {
      s in openSections
    }

    /** `toggleSection(side)` */
    method ToggleSection(s: Side)
      modifies this
      ensures openSections == Toggle.Toggled(old(openSections), s)
      ensures IsOpen(s) <==> !old(IsOpen(s))
      ensures forall t :: t != s ==> (IsOpen(t) <==> old(IsOpen(t)))
    {
      openSections := Toggle.Toggled(openSections, s);
    }
  }
}
