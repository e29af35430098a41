// The schedule (Sources/Timeline/Schedule.swift): an atomic and a looping sub-schedule, read
// together as one stream of batches. `next` picks the sub-schedule(s) whose next batch is soonest
// and concatenates their batches, atomic first; `advance` moves on exactly those.

module Schedules {
  import opened Wrappers
  import opened Actions
  import opened BatchStore
  import opened SubScheduleModel
  import opened SubSchedules

  /** Which sub-schedule a candidate batch comes from. */
  datatype Source = Atomic | Looping

  /** `[atomic, looping].filter { $0.next != nil }`: the sub-schedules that have a next batch, with
      that batch, atomic first. */
  function Candidates(x: Option<Entry>, y: Option<Entry>): seq<(Source, Entry)> {
    (if x.Some? then [(Atomic, x.value)] else []) + (if y.Some? then [(Looping, y.value)] else [])
  }

  /** The smallest offset among the candidates. */
  function Least(c: seq<(Source, Entry)>): real
    requires c != []
  {
    if |c| == 1 then c[0].1.offset
    else
      var m := Least(c[1..]);
      if c[0].1.offset <= m then c[0].1.offset else m
  }

  /** The candidates whose offset is `m`, in input order. */
  function AtOffset(c: seq<(Source, Entry)>, m: real): seq<(Source, Entry)> {
    if c == [] then []
    else (if c[0].1.offset == m then [c[0]] else []) + AtOffset(c[1..], m)
  }

  /** `extrema(property:areInIncreasingOrder:)` for a minimum: every candidate at the least
      offset, in input order. */
  function Extrema(c: seq<(Source, Entry)>): seq<(Source, Entry)> {
    if c == [] then [] else AtOffset(c, Least(c))
  }

  /** `nextSchedules`, given the two sub-schedules' `next`. */
  function NextSchedules(x: Option<Entry>, y: Option<Entry>): seq<(Source, Entry)> {
    Extrema(Candidates(x, y))
  }

  /** `flatMap { $0.next!.actions }`: the candidates' batches, one after the other. */
  function Batches(c: seq<(Source, Entry)>): seq<Action> {
    if c == [] then [] else c[0].1.actions + Batches(c[1..])
  }

  /** `Schedule.next`, given the atomic `next` (`x`) and the looping `next` (`y`): the offset of
      the first soonest sub-schedule with the batches of all soonest ones. */
  function NextOf(x: Option<Entry>, y: Option<Entry>): Option<Entry> {
    var n := NextSchedules(x, y);
    if n == [] then None else Some(Entry(n[0].1.offset, Batches(n)))
  }

  /** The sub-schedules the candidates come from. */
  function Sources(c: seq<(Source, Entry)>): set<Source> {
    if c == [] then {} else {c[0].0} + Sources(c[1..])
  }

  /** The sub-schedules that `Schedule.advance` moves on. */
  function Advanced(x: Option<Entry>, y: Option<Entry>): set<Source> {
    Sources(NextSchedules(x, y))
  }

  // ---------------------------------------------------------------------------------------------
  // The soonest batch, case by case

  /** `next` and `nextSchedules` over two candidates, unfolded. */
  lemma PairUnfolded(p: (Source, Entry), q: (Source, Entry))
    ensures Least([p, q]) == if p.1.offset <= q.1.offset then p.1.offset else q.1.offset
    ensures forall m :: AtOffset([p, q], m) ==
              (if p.1.offset == m then [p] else []) + (if q.1.offset == m then [q] else [])
    ensures Batches([p, q]) == p.1.actions + q.1.actions
    ensures Sources([p, q]) == {p.0, q.0}
  {
    var c := [p, q];
    assert c[1..] == [q];
    assert c[1..][1..] == [];
    SingleUnfolded(q);
    forall m ensures AtOffset(c, m) == (if p.1.offset == m then [p] else []) + (if q.1.offset == m then [q] else []) {
      assert AtOffset(c, m) == (if p.1.offset == m then [p] else []) + AtOffset([q], m);
    }
    assert Batches(c) == p.1.actions + Batches([q]);
  }

  /** `next` and `nextSchedules` over one candidate, unfolded. */
  lemma SingleUnfolded(p: (Source, Entry))
    ensures Least([p]) == p.1.offset
    ensures forall m :: AtOffset([p], m) == if p.1.offset == m then [p] else []
    ensures Batches([p]) == p.1.actions
    ensures Sources([p]) == {p.0}
  {
    assert [p][1..] == [];
    assert p.1.actions + [] == p.1.actions;
    forall m ensures AtOffset([p], m) == if p.1.offset == m then [p] else [] {
      assert AtOffset([p], m) == (if p.1.offset == m then [p] else []) + AtOffset([], m);
    }
  }

  /** When both sub-schedules have a next batch, the schedule's comes from the sooner, or from
      both, atomic first, on a tie. */
  lemma NextOfBoth(e: Entry, f: Entry)
    ensures NextOf(Some(e), Some(f)) ==
              if e.offset < f.offset then Some(e)
              else if f.offset < e.offset then Some(f)
              else Some(Entry(e.offset, e.actions + f.actions))
    ensures Advanced(Some(e), Some(f)) ==
              if e.offset < f.offset then {Atomic}
              else if f.offset < e.offset then {Looping}
              else {Atomic, Looping}
  {
    var p, q := (Atomic, e), (Looping, f);
    assert Candidates(Some(e), Some(f)) == [p, q];
    PairUnfolded(p, q);
    SingleUnfolded(p);
    SingleUnfolded(q);
    var n := NextSchedules(Some(e), Some(f));
    if e.offset < f.offset {
      assert n == [p];
    } else if f.offset < e.offset {
      assert n == [q];
    } else {
      assert n == [p, q];
    }
  }

  /** When only one sub-schedule has a next batch, the schedule's is that batch. */
  lemma NextOfOne(x: Option<Entry>, y: Option<Entry>)
    requires x.None? != y.None?
    ensures NextOf(x, y) == if x.Some? then x else y
    ensures Advanced(x, y) == if x.Some? then {Atomic} else {Looping}
  {
    var p := if x.Some? then (Atomic, x.value) else (Looping, y.value);
    assert Candidates(x, y) == [p];
    SingleUnfolded(p);
    assert NextSchedules(x, y) == [p];
  }

  /** The schedule has a next batch iff one of its sub-schedules has. */
  lemma NextOfNone(x: Option<Entry>, y: Option<Entry>)
    ensures NextOf(x, y).None? <==> x.None? && y.None?
  {
    if x.Some? && y.Some? {
      NextOfBoth(x.value, y.value);
    } else if x.Some? || y.Some? {
      NextOfOne(x, y);
    } else {
      assert Candidates(x, y) == [];
    }
  }

  /** The schedule's next offset is the least of the sub-schedules' next offsets; `advance` moves
      exactly the sub-schedules whose next batch lies at that offset. */
  lemma NextOfSoonest(x: Option<Entry>, y: Option<Entry>)
    requires x.Some? || y.Some?
    ensures NextOf(x, y).Some?
    ensures x.Some? ==> NextOf(x, y).value.offset <= x.value.offset
    ensures y.Some? ==> NextOf(x, y).value.offset <= y.value.offset
    ensures Atomic in Advanced(x, y) <==> x.Some? && x.value.offset == NextOf(x, y).value.offset
    ensures Looping in Advanced(x, y) <==> y.Some? && y.value.offset == NextOf(x, y).value.offset
    ensures (x.Some? && NextOf(x, y).value.offset == x.value.offset) ||
            (y.Some? && NextOf(x, y).value.offset == y.value.offset)
  {
    if x.Some? && y.Some? {
      NextOfBoth(x.value, y.value);
    } else {
      NextOfOne(x, y);
    }
  }

  // ---------------------------------------------------------------------------------------------
  // The schedule as a value

  /** What a schedule holds: the atomic store and cursor, and the looping store and counter. */
  datatype Snapshot = Snapshot(atomic: seq<Entry>, index: nat, looping: seq<Entry>, turns: nat)

  ghost predicate SnapshotValid(s: Snapshot) {
    BatchStore.Valid(s.atomic) && BatchStore.Valid(s.looping) && AllLooping(s.looping)
  }

  function AtomicNext(s: Snapshot): Option<Entry> {
    CursorNext(s.atomic, s.index)
  }

  function LoopingNext(s: Snapshot): Option<Entry> {
    MinEntry(s.looping)
  }

  /** `next` of a schedule holding `s`. */
  function Peek(s: Snapshot): Option<Entry> {
    NextOf(AtomicNext(s), LoopingNext(s))
  }

  /** `advance()` of a schedule holding `s`: the atomic cursor moves on when the atomic store drew
      the next batch, and the looping store is bumped when it did. */
  function Step(s: Snapshot): Snapshot {
    var moved := Advanced(AtomicNext(s), LoopingNext(s));
    Snapshot(s.atomic,
             if Atomic in moved then s.index + 1 else s.index,
             if Looping in moved && s.looping != [] then Bumped(s.looping) else s.looping,
             if Looping in moved then s.turns + 1 else s.turns)
  }

  /** A step keeps both stores valid and the looping store looping. */
  lemma StepValid(s: Snapshot)
    requires SnapshotValid(s)
    ensures SnapshotValid(Step(s))
    ensures PositiveIntervals(s.looping) ==> PositiveIntervals(Step(s).looping)
  {
    if s.looping != [] {
      BumpedValid(s.looping);
      BumpedLooping(s.looping);
    }
  }

  /** With nothing left to fire a step changes nothing. */
  lemma StepIdle(s: Snapshot)
    requires Peek(s).None?
    ensures Step(s) == s
  {
    NextOfNone(AtomicNext(s), LoopingNext(s));
    assert Candidates(AtomicNext(s), LoopingNext(s)) == [];
  }

  /** With positive intervals, the offsets of successive batches strictly increase: the schedule
      never fires the same offset twice, nor goes back in time. */
  lemma {:induction false} NextOffsetIncreases(s: Snapshot)
    requires SnapshotValid(s) && PositiveIntervals(s.looping)
    requires Peek(s).Some? && Peek(Step(s)).Some?
    ensures Peek(s).value.offset < Peek(Step(s)).value.offset
  {
    var x, y := AtomicNext(s), LoopingNext(s);
    NextOfSoonest(x, y);
    var m := Peek(s).value.offset;
    var t := Step(s);
    var x2, y2 := AtomicNext(t), LoopingNext(t);
    NextOfSoonest(x2, y2);
    if x2.Some? && Atomic in Advanced(x, y) {
      SortedPair(s.atomic, s.index, s.index + 1);
    }
    if y2.Some? && Looping in Advanced(x, y) {
      BumpMovesForward(s.looping);
    }
    assert x2.Some? ==> m < x2.value.offset;
    assert y2.Some? ==> m < y2.value.offset;
  }

  // ---------------------------------------------------------------------------------------------
  // The schedule object

  class Schedule {
    const atomic: SubSchedule
    const looping: SubSchedule

    ghost predicate Valid()
      reads this, atomic, looping
    {
      !atomic.looping && looping.looping && atomic.Valid() && looping.Valid()
    }

    /** An empty schedule. */
    constructor ()
      ensures Valid() && fresh(atomic) && fresh(looping)
      ensures atomic.base == [] && atomic.index == 0
      ensures looping.base == [] && looping.index == 0
      ensures Next() == None
    {
      atomic := new SubSchedule();
      looping := new SubSchedule.Looping();
      new;
      NextOfNone(None, None);
    }

    /** `next`: the soonest batch over both sub-schedules. */
    function Next(): (r: Option<Entry>)
      reads this, atomic, looping
      ensures !atomic.looping && looping.looping ==> r == Peek(State())
    {
      NextOf(atomic.Next(), looping.Next())
    }

    /** The schedule's contents as a value. */
    function State(): Snapshot
      reads this, atomic, looping
    {
      Snapshot(atomic.base, atomic.index, looping.base, looping.index)
    }

    /** `insert(at:identifiers:performing:)`: a new plain action, appended to the atomic store
        only. The new action is handed back so that callers can speak of it. */
    method Insert(offset: real, identifiers: seq<string>, operation: OpId) returns (a: Action)
      requires Valid()
      modifies atomic`base
      ensures Valid() && fresh(a)
      ensures a.kind == Once && a.identifiers == identifiers && a.operation == operation
      ensures atomic.base == Appended(old(atomic.base), a, offset)
      ensures atomic.index == old(atomic.index)
      ensures looping.base == old(looping.base) && looping.index == old(looping.index)
    {
      a := new Action(identifiers, operation);
      atomic.Add(a, offset);
    }

    /** `loop(every:startingAt:identifiers:performing:)`: a new looping action, appended to the
        looping store only. */
    method Loop(interval: real, offset: real, identifiers: seq<string>, operation: OpId)
      returns (a: Action)
      requires Valid()
      modifies looping`base
      ensures Valid() && fresh(a)
      ensures a.kind == Every(interval) && a.identifiers == identifiers && a.operation == operation
      ensures looping.base == Appended(old(looping.base), a, offset)
      ensures looping.index == old(looping.index)
      ensures atomic.base == old(atomic.base) && atomic.index == old(atomic.index)
    {
      a := new Action.Looping(interval, identifiers, operation);
      looping.Add(a, offset);
    }

    /** `insert(contentsOf:)`: merges the other schedule's stores into this one's, store by
        store. */
    method InsertContentsOf(other: Schedule)
      requires Valid() && other.Valid()
      modifies atomic`base, looping`base
      ensures Valid()
      ensures atomic.base == Merge(old(atomic.base), old(other.atomic.base))
      ensures looping.base == Merge(old(looping.base), old(other.looping.base))
      ensures atomic.index == old(atomic.index) && looping.index == old(looping.index)
    {
      atomic.ScheduleContentsOf(other.atomic);
      looping.ScheduleContentsOf(other.looping);
    }

    /** `removeAll(identifiers:)`: the same filter on both stores, looping first; with no
        identifiers both stores end up empty. */
    method RemoveAll(ids: set<string>)
      requires Valid()
      modifies atomic`base, looping`base
      ensures Valid()
      ensures atomic.base == Filtered(old(atomic.base), ids)
      ensures looping.base == Filtered(old(looping.base), ids)
      ensures ids == {} ==> atomic.base == [] && looping.base == []
      ensures atomic.index == old(atomic.index) && looping.index == old(looping.index)
    {
      ghost var loops := looping.base;
      looping.RemoveAll(ids);
      FootprintAllocated(loops);
      assert forall a :: a in Footprint(loops) ==> (a as object) != atomic;
      atomic.RemoveAll(ids);
      FilteredNothing(old(atomic.base));
      FilteredNothing(loops);
    }

    /** `advance()`: advances the sub-schedules that `next` drew from, atomic first, and leaves
        the other one untouched. */
    method Advance()
      requires Valid()
      modifies atomic, looping
      ensures Valid()
      ensures Atomic in Advanced(old(atomic.Next()), old(looping.Next())) ==>
                atomic.index == old(atomic.index) + 1 && atomic.base == old(atomic.base)
      ensures Atomic !in Advanced(old(atomic.Next()), old(looping.Next())) ==>
                atomic.index == old(atomic.index) && atomic.base == old(atomic.base)
      ensures Looping in Advanced(old(atomic.Next()), old(looping.Next())) ==>
                looping.index == old(looping.index) + 1 &&
                looping.base == if old(looping.base) != [] then Bumped(old(looping.base))
                                else old(looping.base)
      ensures Looping !in Advanced(old(atomic.Next()), old(looping.Next())) ==>
                looping.index == old(looping.index) && looping.base == old(looping.base)
      ensures State() == Step(old(State()))
    {
      var chosen := Advanced(atomic.Next(), looping.Next());
      if Atomic in chosen {
        atomic.Advance();
      }
      if Looping in chosen {
        looping.Advance();
      }
    }
  }
}
