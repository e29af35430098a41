// The sub-schedule object (Sources/Timeline/SubSchedule.swift): a store that its methods update in
// place, with a cursor. One class stands for both the atomic kind and the `Looping` subclass.

module SubSchedules {
  import opened Wrappers
  import opened Actions
  import opened BatchStore
  import opened SubScheduleModel

  class SubSchedule {
    /** Stands for the `SubSchedule.Looping` subclass, whose `next`, `add` and `advance` differ. */
    const looping: bool
    var base: seq<Entry>
    var index: nat

    ghost predicate Valid()
      reads this
    {
      BatchStore.Valid(base) && (looping ==> AllLooping(base))
    }

    /** An empty atomic sub-schedule. */
    constructor ()
      ensures Valid() && !looping
      ensures base == [] && index == 0 && Next() == None
    {
      looping := false;
      base := [];
      index := 0;
    }

    /** An empty looping sub-schedule. */
    constructor Looping()
      ensures Valid() && looping
      ensures base == [] && index == 0 && Next() == None
    {
      looping := true;
      base := [];
      index := 0;
    }

    function Next(): Option<Entry>
      reads this
    {
      if looping then MinEntry(base) else CursorNext(base, index)
    }

    /** Atomic: moves the cursor on. Looping: bumps the soonest batch (the counter moves too). */
    method Advance()
      requires Valid()
      modifies this
      ensures Valid()
      ensures index == old(index) + 1
      ensures base == if looping && old(base) != [] then Bumped(old(base)) else old(base)
    {
      if looping {
        match Next()
        case None =>
        case Some(e) =>
          FootprintHead(base);
          Bump(e.actions, e.offset);
      }
      index := index + 1;
    }

    /** Pairs each action of `actions` with `offset` plus its interval, appends each at the
        offset paired with it, then deletes `offset`. */
    method Bump(actions: seq<Action>, offset: real)
      requires Valid() && looping
      requires forall a :: a in actions ==> a.kind.Every?
      modifies this`base
      ensures Valid()
      ensures base == RemoveKey(Rescheduled(old(base), actions, offset), offset)
    {
      var pairs := Dues(actions, offset);
      var i := 0;
      while i < |pairs|
        invariant 0 <= i <= |pairs|
        invariant Valid()
        invariant AppendAll(base, pairs[i..]) == AppendAll(old(base), pairs)
      {
        var (due, a) := pairs[i];
        assert pairs[i..][1..] == pairs[i + 1..];
        assert a == actions[i];
        AppendedFootprint(base, a, due);
        AppendedValid(base, a, due);
        base := Appended(base, a, due);
        i := i + 1;
      }
      RemoveKeyFootprint(base, offset);
      RemoveKeyValid(base, offset);
      base := RemoveKey(base, offset);
    }

    /** `add(_:at:)`; the looping kind accepts looping actions only. */
    method Add(a: Action, offset: real)
      requires Valid()
      requires looping ==> a.kind.Every?
      modifies this`base
      ensures Valid()
      ensures base == Appended(old(base), a, offset)
    {
      AppendedFootprint(base, a, offset);
      AppendedValid(base, a, offset);
      base := Appended(base, a, offset);
    }

    /** `schedule(contentsOf:)`: merges the other sub-schedule's store into this one. */
    method ScheduleContentsOf(other: SubSchedule)
      requires Valid() && other.Valid() && other.looping == looping
      modifies this`base
      ensures Valid()
      ensures base == Merge(old(base), old(other.base))
    {
      var incoming := other.base;
      MergeFootprint(base, incoming);
      MergeValid(base, incoming);
      base := Merge(base, incoming);
    }

    /** Rewrites every key with the matching part of its batch, deleting keys left empty. The
        keys are visited in order over a copy of the store, as Swift's value semantics do. */
    method RemoveAll(ids: set<string>)
      requires Valid()
      modifies this`base
      ensures Valid()
      ensures base == Filtered(old(base), ids)
    {
      var entries := base;
      var kept: seq<Entry> := [];
      var i := 0;
      while i < |entries|
        invariant 0 <= i <= |entries|
        invariant kept == Filtered(entries[..i], ids)
      {
        var e := entries[i];
        assert entries[..i + 1] == entries[..i] + [e];
        FilteredSnoc(entries[..i], e, ids);
        match Removing(e.actions, ids) {
          case None =>
          case Some(b) => kept := kept + [Entry(e.offset, b)];
        }
        i := i + 1;
      }
      assert entries[..i] == entries;
      FilteredFootprint(entries, ids);
      FilteredValid(entries, ids);
      base := kept;
    }
  }

}
