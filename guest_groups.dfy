// The grouped part of the dashboard (features/wedding/components/dashboard/guest-groups.tsx):
// which groups pass the side filter, how they split into the bride and the groom
// list, when nothing is rendered, and what "expand all" opens.

module GuestGroups {
  import opened Types
  import opened Seqs
  import opened GuestDisplay

  function GroupOnSelectedSide(side: SideFilter): GroupWithStats -> bool
  {
    (g: GroupWithStats) => side.AllSides? || g.group.side == side.side
  }

  function GroupOfSide(s: Side): GroupWithStats -> bool
  {
    (g: GroupWithStats) => g.group.side == s
  }

  /** `filteredGroups`: "all" keeps every group, otherwise only the selected side's. */
  function FilteredGroups(groups: seq<GroupWithStats>, side: SideFilter): (r: seq<GroupWithStats>)
    ensures forall g :: g in r <==> g in groups && (side.AllSides? || g.group.side == side.side)
  {
    Filter(groups, GroupOnSelectedSide(side))
  }

  function BrideGroups(groups: seq<GroupWithStats>, side: SideFilter): seq<GroupWithStats>
  {
    Filter(FilteredGroups(groups, side), GroupOfSide(Bride))
  }

  function GroomGroups(groups: seq<GroupWithStats>, side: SideFilter): seq<GroupWithStats>
  {
    Filter(FilteredGroups(groups, side), GroupOfSide(Groom))
  }

  /** The bride and groom group lists split the side-filtered groups. */
  lemma GroupSidesPartition(groups: seq<GroupWithStats>, side: SideFilter)
    ensures |BrideGroups(groups, side)| + |GroomGroups(groups, side)| == |FilteredGroups(groups, side)|
    ensures multiset(BrideGroups(groups, side)) + multiset(GroomGroups(groups, side))
         == multiset(FilteredGroups(groups, side))
  {
    var f := FilteredGroups(groups, side);
    FilterPartition(f, GroupOfSide(Bride));
    FilterExt(f, Not(GroupOfSide(Bride)), GroupOfSide(Groom));
  }

  /** The component returns null when there are no groups, or none pass the side filter. */
  predicate Renders(groups: seq<GroupWithStats>, side: SideFilter)
  {
    !(|groups| == 0 || |FilteredGroups(groups, side)| == 0)
  }

  /** ... which is to say: it renders exactly when some group is on the selected side. */
  lemma RendersIffSomeGroupOnSide(groups: seq<GroupWithStats>, side: SideFilter)
    ensures Renders(groups, side) <==> exists g :: g in groups && (side.AllSides? || g.group.side == side.side)
  {
    var f := FilteredGroups(groups, side);
    if f != [] {
      assert f[0] in f;
    }
  }

  /** The bride list is shown unless the side is "groom"; the groom list unless it is "bride". */
  predicate ShowsBrideList(side: SideFilter)
  {
    side != OnlySide(Groom)
  }

  predicate ShowsGroomList(side: SideFilter)
  {
    side != OnlySide(Bride)
  }

  /** A side list that is not shown would have been empty anyway. */
  lemma HiddenListIsEmpty(groups: seq<GroupWithStats>, side: SideFilter)
    ensures !ShowsBrideList(side) ==> BrideGroups(groups, side) == []
    ensures !ShowsGroomList(side) ==> GroomGroups(groups, side) == []
  {
    var f := FilteredGroups(groups, side);
    if side == OnlySide(Groom) {
      FilterNone(f, GroupOfSide(Bride));
    } else if side == OnlySide(Bride) {
      FilterNone(f, GroupOfSide(Groom));
    }
  }

  function GroupId(g: GroupWithStats): string
  {
    g.group.id
  }

  /** "Expand all": the ids of all groups, not only of those that pass the side filter. */
  function ExpandAllIds(groups: seq<GroupWithStats>): (ids: seq<string>)
    ensures |ids| == |groups|
    ensures forall i :: 0 <= i < |groups| ==> ids[i] == groups[i].group.id
  {
    Map(groups, GroupId)
  }

  /** Every group's id is among them, including groups the side filter hides. */
  lemma ExpandAllCoversEveryGroup(groups: seq<GroupWithStats>, side: SideFilter)
    ensures forall g :: g in groups ==> g.group.id in ExpandAllIds(groups)
    ensures forall g :: g in FilteredGroups(groups, side) ==> g.group.id in ExpandAllIds(groups)
  {
    forall g | g in groups
      ensures g.group.id in ExpandAllIds(groups)
    {
      var i :| 0 <= i < |groups| && groups[i] == g;
      assert ExpandAllIds(groups)[i] == g.group.id;
    }
  }
}
