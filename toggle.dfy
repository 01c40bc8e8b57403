// `current.includes(x) ? current.filter((y) => y !== x) : [...current, x]`, the list
// toggle used by `toggleGroup` (features/wedding/stores/groups-store.ts) and by
// `toggleSection` (features/wedding/components/dashboard/guest-list.tsx).

module Toggle {
  import opened Seqs

  function Except<T(==)>(x: T): T -> bool
  {
    (y: T) => y != x
  }

  /** Removes every occurrence of `x` when present, otherwise appends it at the end. The
      membership of `x` flips; no other value's membership changes. */
  function Toggled<T(==,!new)>(s: seq<T>, x: T): (r: seq<T>)
    ensures x in r <==> x !in s
    ensures forall y :: y != x ==> (y in r <==> y in s)
  {
    if x in s then Filter(s, Except(x)) else s + [x]
  }

  /** Toggling twice restores which values are present (not their order). */
  lemma ToggleTwiceRestoresMembers<T(!new)>(s: seq<T>, x: T)
    ensures forall y :: y in Toggled(Toggled(s, x), x) <==> y in s
  {
  }

  /** ... and the order can change: a present value comes back at the end. */
  lemma ToggleTwiceCanReorder()
    ensures Toggled(Toggled(["a", "b"], "a"), "a") == ["b", "a"]
  {
    assert "a" in ["a", "b"];
    assert Filter(["a", "b"], Except("a")) == ["b"] by {
      assert ["a", "b"][1..] == ["b"];
      assert ["b"][1..] == [];
    }
  }

  /** A duplicate-free list stays duplicate-free. */
  lemma ToggleKeepsNoDup<T(!new)>(s: seq<T>, x: T)
    requires NoDup(s)
    ensures NoDup(Toggled(s, x))
  {
    if x in s {
      FilterNoDup(s, Except(x));
    }
  }
}
