// Whole-wedding statistics, as `useWeddingStats` computes them
// (features/wedding/hooks/queries.ts).

module Stats {
  import opened Types
  import opened Seqs

  function IsAdult(c: Companion): bool
  {
    c.isAdult
  }

  /** `guests.flatMap((g) => g.companions)`: every companion, guest by guest, in order. */
  function AllCompanions(guests: seq<Guest>): seq<Companion>
  {
    if guests == [] then [] else guests[0].companions + AllCompanions(guests[1..])
  }

  lemma {:induction false} AllCompanionsAppend(a: seq<Guest>, b: seq<Guest>)
    ensures AllCompanions(a + b) == AllCompanions(a) + AllCompanions(b)
  {
    if a == [] {
      assert a + b == b;
    } else {
      assert (a + b)[1..] == a[1..] + b;
      AllCompanionsAppend(a[1..], b);
    }
  }

  /** The `{ adults, children }` accumulator of the companion reduce. */
  datatype Tally = Tally(adults: nat, children: nat)

  /** The companion reduce: per guest, adds the adult and the non-adult companions. */
  function TallyCompanions(guests: seq<Guest>): (t: Tally)
    ensures t.adults == |Filter(AllCompanions(guests), IsAdult)|
    ensures t.children == |Filter(AllCompanions(guests), Not(IsAdult))|
  {
    if guests == [] then Tally(0, 0)
    else
      var rest := TallyCompanions(guests[1..]);
      var cs := guests[0].companions;
      FilterAppend(cs, AllCompanions(guests[1..]), IsAdult);
      FilterAppend(cs, AllCompanions(guests[1..]), Not(IsAdult));
      Tally(rest.adults + |Filter(cs, IsAdult)|, rest.children + |Filter(cs, Not(IsAdult))|)
  }

  /** What one guest adds to the gift total: the amount of a money gift, when that amount is truthy. */
  function MoneyGiftAmount(g: Guest): int
  {
    if g.gift.Defined? && g.gift.value.kind == Money && TruthyNumber(g.gift.value.amount)
    then g.gift.value.amount.value
    else 0
  }

  function HasMoneyGift(g: Guest): bool
  {
    g.gift.Defined? && g.gift.value.kind == Money
  }

  function GiftTotal(guests: seq<Guest>): int
  {
    Sum(guests, MoneyGiftAmount)
  }

  /** `useWeddingStats`: with no wedding details every field is zero; otherwise every primary
      guest is an adult seat, companions split by `isAdult`, only adults cost the price per
      person, and only money gifts are summed. */
  function WeddingStatsOf(guests: seq<Guest>, details: Option<WeddingDetails>): (s: WeddingStats)
    ensures details.None? ==> s == WeddingStats(0, 0, 0, 0, 0)
    ensures details.Some? ==>
      && s.totalAdults == |guests| + |Filter(AllCompanions(guests), IsAdult)|
      && s.totalChildren == |Filter(AllCompanions(guests), Not(IsAdult))|
      && s.totalGuests == |guests| + |AllCompanions(guests)|
      && s.totalGuests == s.totalAdults + s.totalChildren
      && s.totalCost == s.totalAdults * details.value.pricePerPerson
      && s.totalGiftAmount == GiftTotal(guests)
  {
    if details.None? then WeddingStats(0, 0, 0, 0, 0)
    else
      var tally := TallyCompanions(guests);
      var totalAdults := |guests| + tally.adults;
      var totalChildren := tally.children;
      FilterPartition(AllCompanions(guests), IsAdult);
      WeddingStats(
        totalAdults + totalChildren,
        totalAdults,
        totalChildren,
        totalAdults * details.value.pricePerPerson,
        GiftTotal(guests))
  }

  /** The gift total is the sum over the guests whose gift is of type money: other gifts and
      missing gifts add nothing. */
  lemma {:induction false} OnlyMoneyGiftsCount(guests: seq<Guest>)
    ensures GiftTotal(guests) == Sum(Filter(guests, HasMoneyGift), MoneyGiftAmount)
  {
    SumSkipsZeros(guests, MoneyGiftAmount, HasMoneyGift);
  }

  /** A child companion added to any guest raises the child count by one and leaves the adult
      count and the cost unchanged. */
  lemma {:induction false} ChildrenAddNoCost(guests: seq<Guest>, i: nat, name: string, d: WeddingDetails)
    requires i < |guests|
    ensures
      var child := Companion("", name, Undefined, false);
      var g := guests[i].(companions := guests[i].companions + [child]);
      var before := WeddingStatsOf(guests, Some(d));
      var after := WeddingStatsOf(guests[i := g], Some(d));
      && after.totalChildren == before.totalChildren + 1
      && after.totalAdults == before.totalAdults
      && after.totalCost == before.totalCost
  {
    var child := Companion("", name, Undefined, false);
    var g := guests[i].(companions := guests[i].companions + [child]);
    var pre, post := guests[..i], guests[i+1..];
    assert guests == pre + [guests[i]] + post;
    assert guests[i := g] == pre + [g] + post;
    AllCompanionsAppend(pre + [guests[i]], post);
    AllCompanionsAppend(pre, [guests[i]]);
    AllCompanionsAppend(pre + [g], post);
    AllCompanionsAppend(pre, [g]);
    assert AllCompanions([g]) == g.companions;
    assert AllCompanions([guests[i]]) == guests[i].companions;
    var A, B := AllCompanions(pre), AllCompanions(post);
    assert AllCompanions(guests) == A + guests[i].companions + B;
    assert AllCompanions(guests[i := g]) == A + guests[i].companions + [child] + B;
    FilterAppend(A + guests[i].companions, B, IsAdult);
    FilterAppend(A + guests[i].companions + [child], B, IsAdult);
    FilterAppend(A + guests[i].companions, [child], IsAdult);
    FilterAppend(A + guests[i].companions, B, Not(IsAdult));
    FilterAppend(A + guests[i].companions + [child], B, Not(IsAdult));
    FilterAppend(A + guests[i].companions, [child], Not(IsAdult));
  }
}
