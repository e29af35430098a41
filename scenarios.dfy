// Worked examples of the model, stated and proved for the package's own test cases
// (Tests/TimelineTests/ScheduleTests.swift, Tests/TimelineTests/TimelineTests.swift), and one that
// shows which actions `removeAll` keeps.

module Scenarios {
  import opened Wrappers
  import opened Actions
  import opened BatchStore
  import opened SubScheduleModel
  import opened SubSchedules
  import opened Schedules
  import opened Timelines

  /** The offsets `0, 1, …, n - 1`. */
  function Ascending(n: nat): seq<real> {
    seq(n, i requires 0 <= i < n => i as real)
  }

  /** `timeline.insert(at: Seconds(offset))` for `offset` in `0..<n`, into an empty atomic store:
      the keys become exactly `0, 1, …, n - 1`. */
  method InsertOffsets(timeline: Timeline, n: nat)
    requires timeline.Valid() && timeline.schedule.atomic.base == []
    modifies timeline.schedule.atomic`base
    ensures timeline.Valid()
    ensures Keys(timeline.schedule.atomic.base) == Ascending(n)
  {
    var offset := 0;
    while offset < n
      invariant 0 <= offset <= n
      invariant timeline.Valid()
      invariant Keys(timeline.schedule.atomic.base) == Ascending(offset)
    {
      var before := timeline.schedule.atomic.base;
      forall i | 0 <= i < |before| ensures before[i].offset < offset as real {
        assert Keys(before)[i] == before[i].offset;
      }
      var a := timeline.Insert(offset as real, offset);
      AppendedAtEnd(before, a, offset as real);
      assert Keys(before + [Entry(offset as real, [a])]) == Ascending(offset) + [offset as real];
      offset := offset + 1;
    }
  }

  /** Inserting at offsets 0 to 9, in that order, gives exactly the keys 0 to 9, ascending. */
  method InsertTenOffsets() returns (keys: seq<real>)
    ensures keys == [0.0, 1.0, 2.0, 3.0, 4.0, 5.0, 6.0, 7.0, 8.0, 9.0]
  {
    var schedule := new Schedule();
    var timeline := new Timeline("", schedule, 1.0 / 100.0, 1.0, false);
    InsertOffsets(timeline, 10);
    keys := Keys(schedule.atomic.base);
  }

  /** An action inserted through a timeline carries the timeline's identifier as its only tag. */
  method InsertTagged() returns (tags: seq<string>)
    ensures tags == ["ABC"]
  {
    var schedule := new Schedule();
    var timeline := new Timeline("ABC", schedule, 1.0 / 120.0, 1.0, false);
    var a := timeline.Insert(0.0, 0);
    var first := schedule.atomic.base[0].actions[0];
    tags := first.identifiers;
  }

  /** Five actions at five offsets fill five keys; `removeAll()` with no identifiers empties the
      store. */
  method RemoveAllEmpties() returns (before: nat, after: nat)
    ensures before == 5 && after == 0
  {
    var schedule := new Schedule();
    var timeline := new Timeline("", schedule, 1.0 / 120.0, 1.0, false);
    InsertOffsets(timeline, 5);
    var filled := schedule.atomic.base;
    before := |filled|;
    timeline.RemoveAll({});
    FilteredNothing(filled);
    after := |schedule.atomic.base|;
  }

  /** The filter on a store of one batch of one action: kept whole, or the key deleted. */
  lemma FilteredSingle(o: real, a: Action, ids: set<string>)
    ensures Filtered([Entry(o, [a])], ids) == if a.HasAnyIdentifiers(ids) then [Entry(o, [a])] else []
  {
    assert [a][1..] == [];
    assert [a] + [] == [a];
    assert Matching([a], ids) == if a.HasAnyIdentifiers(ids) then [a] else [];
    var e := Entry(o, [a]);
    assert [e][1..] == [];
    assert Filtered([e], ids) == match Removing([a], ids) case None => [] case Some(b) => [Entry(o, b)] + [];
    assert [Entry(o, [a])] + [] == [Entry(o, [a])];
  }

  /** A stopped timeline tagged "A" holding one plain action at 0 and no looping action. */
  method TimelineOfA() returns (timeline: Timeline, a: Action)
    ensures timeline.Valid() && fresh(timeline.schedule.atomic) && fresh(timeline.schedule.looping)
    ensures a.identifiers == ["A"]
    ensures timeline.schedule.atomic.base == [Entry(0.0, [a])] && timeline.schedule.looping.base == []
  {
    var schedule := new Schedule();
    timeline := new Timeline("A", schedule, 1.0 / 120.0, 1.0, false);
    a := timeline.Insert(0.0, 0);
  }

  /** `removeAll(identifiers:)` keeps an action that carries one of the identifiers. */
  method RemoveAllKeepsMatching() returns (kept: nat)
    ensures kept == 1
  {
    var timeline, a := TimelineOfA();
    assert a.identifiers[0] in {"A"};
    FilteredSingle(0.0, a, {"A"});
    timeline.RemoveAll({"A"});
    kept := |timeline.schedule.atomic.base|;
  }

  /** `removeAll(identifiers:)` drops an action that carries none of the identifiers. */
  method RemoveAllDropsOthers() returns (kept: nat)
    ensures kept == 0
  {
    var timeline, a := TimelineOfA();
    assert !a.HasIdentifier("B");
    FilteredSingle(0.0, a, {"B"});
    timeline.RemoveAll({"B"});
    kept := |timeline.schedule.atomic.base|;
  }

  /** A batch of one looping action, bumped, moves by the action's interval. */
  lemma BumpedSingle(k: real, a: Action)
    requires Interval(a) > 0.0
    ensures Bumped([Entry(k, [a])]) == [Entry(k + Interval(a), [a])]
  {
    var s := [Entry(k, [a])];
    var due := k + Interval(a);
    assert Dues([a], k) == [(due, a)];
    assert Dues([a], k)[1..] == [];
    assert AppendAll(s, Dues([a], k)) == AppendAll(Appended(s, a, due), []);
    assert Appended(s, a, due) == [Entry(k, [a])] + Appended([], a, due);
  }

  /** The schedule of the looping test: the plain action at 4.1 waits under the cursor while the
      loop is at `k`. */
  function LoopState(once: Action, looped: Action, index: nat, k: real, turns: nat): Snapshot {
    Snapshot([Entry(4.1, [once])], index, [Entry(k, [looped])], turns)
  }

  /** Before 4.1 the loop is soonest: it fires alone and moves on by one second. */
  lemma LoopFiresFirst(once: Action, looped: Action, k: real, turns: nat)
    requires looped.kind == Every(1.0) && k < 4.1
    ensures Peek(LoopState(once, looped, 0, k, turns)) == Some(Entry(k, [looped]))
    ensures Step(LoopState(once, looped, 0, k, turns)) == LoopState(once, looped, 0, k + 1.0, turns + 1)
  {
    NextOfBoth(Entry(4.1, [once]), Entry(k, [looped]));
    BumpedSingle(k, looped);
  }

  /** With the loop at 5 the plain action is soonest: it fires alone and the cursor moves on. */
  lemma OnceFiresAtLast(once: Action, looped: Action, turns: nat)
    ensures Peek(LoopState(once, looped, 0, 5.0, turns)) == Some(Entry(4.1, [once]))
    ensures Step(LoopState(once, looped, 0, 5.0, turns)) == LoopState(once, looped, 1, 5.0, turns)
  {
    NextOfBoth(Entry(4.1, [once]), Entry(5.0, [looped]));
  }

  /** What the looping test's schedule holds before its `k`-th poll. */
  function LoopAt(once: Action, looped: Action, k: nat): Snapshot {
    if k <= 5 then LoopState(once, looped, 0, k as real, k) else LoopState(once, looped, 1, 5.0, 5)
  }

  /** The batch the looping test's `k`-th poll fires: the loop at `k` for `k < 5`, then the plain
      action at 4.1. */
  function LoopEntry(once: Action, looped: Action, k: nat): Entry {
    if k < 5 then Entry(k as real, [looped]) else Entry(4.1, [once])
  }

  /** The offsets of the first `k` batches the looping test fires. */
  function LoopOffsets(k: nat): seq<real> {
    seq(k, i requires 0 <= i < k => if i < 5 then i as real else 4.1)
  }

  /** What the looping test's timeline logs over its first `k` polls. */
  function LoopLog(k: nat): seq<Event> {
    seq(k, i requires 0 <= i < k => if i < 5 then Ran(1) else Ran(2))
  }

  /** The `k`-th poll of the looping test fires `LoopEntry`, which is due at 5 seconds, and leaves
      the schedule at the next state; its offset and operations extend the offsets and the log. */
  lemma LoopPoll(once: Action, looped: Action, k: nat)
    requires looped.kind == Every(1.0) && looped.operation == 1 && once.operation == 2 && k < 6
    ensures Peek(LoopAt(once, looped, k)) == Some(LoopEntry(once, looped, k))
    ensures Step(LoopAt(once, looped, k)) == LoopAt(once, looped, k + 1)
    ensures LoopEntry(once, looped, k).offset <= 5.0
    ensures LoopOffsets(k + 1) == LoopOffsets(k) + [LoopEntry(once, looped, k).offset]
    ensures LoopLog(k + 1) == LoopLog(k) + Runs(LoopEntry(once, looped, k).actions)
  {
    if k < 5 {
      LoopFiresFirst(once, looped, k as real, k);
      assert k as real + 1.0 == (k + 1) as real;
    } else {
      OnceFiresAtLast(once, looped, 5);
    }
    assert Runs(LoopEntry(once, looped, k).actions) == [if k < 5 then Ran(1) else Ran(2)];
    assert LoopLog(k + 1) == LoopLog(k) + [if k < 5 then Ran(1) else Ran(2)];
    assert LoopOffsets(k + 1) == LoopOffsets(k) + [LoopEntry(once, looped, k).offset];
  }

  /** The six offsets and log entries, written out. */
  lemma LoopListed()
    ensures LoopOffsets(6) == [0.0, 1.0, 2.0, 3.0, 4.0, 4.1]
    ensures LoopLog(6) == [Ran(1), Ran(1), Ran(1), Ran(1), Ran(1), Ran(2)]
  {
  }

  /** The looping test's timeline before it starts: a loop every second from 0 and a plain
      action at 4.1. */
  method LoopBuilt() returns (timeline: Timeline, once: Action, looped: Action)
    ensures looped.kind == Every(1.0) && looped.operation == 1 && once.operation == 2
    ensures timeline.Valid() && timeline.status == Stopped
    ensures timeline.playbackRate == 1.0 && timeline.log == []
    ensures timeline.schedule.State() == LoopAt(once, looped, 0)
    ensures fresh(timeline) && fresh(timeline.schedule.atomic) && fresh(timeline.schedule.looping)
  {
    var schedule := new Schedule();
    timeline := new Timeline("", schedule, 1.0 / 120.0, 1.0, false);
    looped := timeline.Loop(1.0, 0.0, 1);
    once := timeline.Insert(4.1, 2);
    assert schedule.State() == LoopState(once, looped, 0, 0.0, 0);
  }

  /** The looping test's timeline, started. */
  method LoopTimeline() returns (timeline: Timeline, once: Action, looped: Action)
    ensures looped.kind == Every(1.0) && looped.operation == 1 && once.operation == 2
    ensures timeline.Valid() && timeline.status == Playing
    ensures timeline.lastPausedDate == 0.0 && timeline.playbackRate == 1.0
    ensures timeline.schedule.State() == LoopAt(once, looped, 0) && timeline.log == []
    ensures fresh(timeline) && fresh(timeline.schedule.atomic) && fresh(timeline.schedule.looping)
  {
    timeline, once, looped := LoopBuilt();
    timeline.Start();
  }

  /** The `k`-th tick of the looping test, five seconds in: the batch `LoopEntry` is due, fires
      and is logged, and the schedule moves on to its next state. */
  method LoopAdvance(timeline: Timeline, once: Action, looped: Action, k: nat) returns (offset: real)
    requires looped.kind == Every(1.0) && looped.operation == 1 && once.operation == 2 && k < 6
    requires timeline.Valid() && timeline.status == Playing
    requires timeline.lastPausedDate == 0.0 && timeline.playbackRate == 1.0
    requires timeline.schedule.State() == LoopAt(once, looped, k)
    modifies timeline`log, timeline`lastPausedDate, timeline`status, timeline`ticking
    modifies timeline.schedule.atomic, timeline.schedule.looping
    ensures timeline.Valid() && timeline.status == Playing
    ensures timeline.lastPausedDate == 0.0 && timeline.playbackRate == 1.0
    ensures timeline.schedule.State() == LoopAt(once, looped, k + 1)
    ensures offset == LoopEntry(once, looped, k).offset
    ensures timeline.log == old(timeline.log) + Runs(LoopEntry(once, looped, k).actions)
  {
    LoopPoll(once, looped, k);
    var next := timeline.schedule.Next();
    DueOnceReached(5.0, next.value.offset, 0.0, timeline.rate, 1.0);
    offset := next.value.offset;
    timeline.Advance(5.0);
  }

  /** Six ticks of the started looping test, each with its batch due. */
  method LoopRun(timeline: Timeline, once: Action, looped: Action) returns (offsets: seq<real>)
    requires looped.kind == Every(1.0) && looped.operation == 1 && once.operation == 2
    requires timeline.Valid() && timeline.status == Playing
    requires timeline.lastPausedDate == 0.0 && timeline.playbackRate == 1.0
    requires timeline.schedule.State() == LoopAt(once, looped, 0) && timeline.log == []
    modifies timeline`log, timeline`lastPausedDate, timeline`status, timeline`ticking
    modifies timeline.schedule.atomic, timeline.schedule.looping
    ensures offsets == LoopOffsets(6) && timeline.log == LoopLog(6)
  {
    offsets := [];
    var k := 0;
    while k < 6
      invariant 0 <= k <= 6
      invariant timeline.Valid() && timeline.status == Playing
      invariant timeline.lastPausedDate == 0.0 && timeline.playbackRate == 1.0
      invariant timeline.schedule.State() == LoopAt(once, looped, k)
      invariant offsets == LoopOffsets(k) && timeline.log == LoopLog(k)
    {
      LoopPoll(once, looped, k);
      var offset := LoopAdvance(timeline, once, looped, k);
      offsets := offsets + [offset];
      k := k + 1;
    }
  }

  /** A loop every second from 0 and a plain action at 4.1, started and advanced six times with
      every batch due: the batches fire at 0, 1, 2, 3, 4 and 4.1, so the loop runs five times
      before the plain action. */
  method LoopThenOnce() returns (offsets: seq<real>, log: seq<Event>)
    ensures offsets == [0.0, 1.0, 2.0, 3.0, 4.0, 4.1]
    ensures log == [Ran(1), Ran(1), Ran(1), Ran(1), Ran(1), Ran(2)]
  {
    var timeline, once, looped := LoopTimeline();
    offsets := LoopRun(timeline, once, looped);
    log := timeline.log;
    LoopListed();
  }
}
