// What the dashboard lists share: the `filterGuests` closure that guest-list.tsx
// (lines 28-39) and guest-groups.tsx (lines 46-57) each define identically, the
// `1 + companions.length` head count, and the Serbian plural of the count word.

module GuestDisplay {
  import opened Types
  import opened Seqs
  import Stats

  /** `Side | "all"` */
  datatype SideFilter = AllSides | OnlySide(side: Side)

  /** `Attendance | "all"` */
  datatype StatusFilter = AllStatuses | OnlyStatus(status: Attendance)

  /** `String.prototype.toLowerCase`, on the ASCII letters. */
  function LowerChar(c: char): char
  {
    if 'A' <= c <= 'Z' then (c as int + 32) as char else c
  }

  function Lower(s: string): (r: string)
    ensures |r| == |s|
    ensures forall i :: 0 <= i < |s| ==> r[i] == LowerChar(s[i])
  {
    if s == [] then [] else [LowerChar(s[0])] + Lower(s[1..])
  }

  /** Lower-casing twice is lower-casing once. */
  lemma LowerIdempotent(s: string)
    ensures Lower(Lower(s)) == Lower(s)
  {
    assert forall i :: 0 <= i < |s| ==> Lower(Lower(s))[i] == Lower(s)[i];
  }

  /** `needle` occurs in `hay` starting at index `i`. */
  predicate OccursAt(needle: string, hay: string, i: int)
  {
    0 <= i && i + |needle| <= |hay| && hay[i..i + |needle|] == needle
  }

  /** `hay.includes(needle)` */
  predicate Includes(hay: string, needle: string)
  {
    exists i | 0 <= i <= |hay| :: OccursAt(needle, hay, i)
  }

  /** The searched text: `${guest.firstName} ${guest.lastName}`. */
  function FullName(g: Guest): string
  {
    g.firstName + " " + g.lastName
  }

  /** An empty (falsy) query matches everyone; otherwise the lower-cased full name must contain
      the lower-cased query. */
  predicate MatchesSearch(g: Guest, query: string)
  {
    query == "" || Includes(Lower(FullName(g)), Lower(query))
  }

  /** "all" matches everyone; otherwise the attendance must be exactly the selected one. */
  predicate MatchesStatus(g: Guest, status: StatusFilter)
  {
    status.AllStatuses? || g.attendance == status.status
  }

  function Matches(query: string, status: StatusFilter): Guest -> bool
  {
    (g: Guest) => MatchesSearch(g, query) && MatchesStatus(g, status)
  }

  /** `filterGuests`: the guests passing both the search and the status test. */
  function FilterGuests(guests: seq<Guest>, query: string, status: StatusFilter): (r: seq<Guest>)
    ensures forall g :: g in r <==> g in guests && MatchesSearch(g, query) && MatchesStatus(g, status)
    ensures forall i :: 0 <= i < |r| ==> status.OnlyStatus? ==> r[i].attendance == status.status
  {
    Filter(guests, Matches(query, status))
  }

  /** Filtering is done guest by guest, so it keeps the input order: it distributes over
      concatenation. */
  lemma FilterGuestsAppend(a: seq<Guest>, b: seq<Guest>, query: string, status: StatusFilter)
    ensures FilterGuests(a + b, query, status) == FilterGuests(a, query, status) + FilterGuests(b, query, status)
  {
    FilterAppend(a, b, Matches(query, status));
  }

  /** With the initial filter settings (empty query, status "all") every guest is listed. */
  lemma InitialFilterKeepsEveryone(guests: seq<Guest>)
    ensures FilterGuests(guests, "", AllStatuses) == guests
  {
    FilterAll(guests, Matches("", AllStatuses));
  }

  /** The search ignores the case of the query. */
  lemma SearchIgnoresQueryCase(g: Guest, query: string)
    ensures MatchesSearch(g, query) <==> MatchesSearch(g, Lower(query))
  {
    LowerIdempotent(query);
  }

  /** Because the searched text joins the names with a space and the query is not trimmed, a
      query of one space matches every guest. */
  lemma SpaceQueryMatchesEveryone(g: Guest)
    ensures MatchesSearch(g, " ")
  {
    var hay := Lower(FullName(g));
    var i := |g.firstName|;
    assert FullName(g)[i] == ' ';
    assert hay[i..i + 1] == [LowerChar(' ')];
    assert OccursAt(Lower(" "), hay, i);
  }

  /** What one guest adds to a list's header count: the guest and their companions. */
  function Seats(g: Guest): int
  {
    1 + |g.companions|
  }

  /** `guests.reduce((acc, guest) => acc + 1 + guest.companions.length, 0)` */
  function HeadCount(guests: seq<Guest>): int
  {
    Sum(guests, Seats)
  }

  /** The header count of a list is the number of its guests plus all their companions: what the
      wedding statistics call `totalGuests` for the same guests. */
  lemma {:induction false} HeadCountCountsCompanions(guests: seq<Guest>)
    ensures HeadCount(guests) == |guests| + |Stats.AllCompanions(guests)|
  {
    if guests != [] {
      HeadCountCountsCompanions(guests[1..]);
    }
  }

  lemma HeadCountIsTotalGuests(guests: seq<Guest>, d: WeddingDetails)
    ensures HeadCount(guests) == Stats.WeddingStatsOf(guests, Some(d)).totalGuests
  {
    HeadCountCountsCompanions(guests);
  }

  /** A list that is shown (not empty) never shows a count of zero. */
  lemma ShownListCountsAtLeastOne(guests: seq<Guest>)
    requires |guests| > 0
    ensures HeadCount(guests) >= |guests| >= 1
  {
    HeadCountCountsCompanions(guests);
  }

  /** The count word: "gost" for exactly one, "gosta" below five, "gostiju" otherwise. */
  function CountWord(n: int): (w: string)
    ensures w == "gost" <==> n == 1
    ensures w == "gosta" <==> n != 1 && n < 5
    ensures w == "gostiju" <==> n >= 5
  {
    if n == 1 then "gost" else if n < 5 then "gosta" else "gostiju"
  }
}
