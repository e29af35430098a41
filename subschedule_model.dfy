// How the two kinds of sub-schedule (Sources/Timeline/SubSchedule.swift) consume their store, as
// functions on store values: the atomic kind walks a cursor over the batches; the looping kind
// fires its soonest batch and re-appends every action of it one interval later ("bump").

module SubScheduleModel {
  import opened Wrappers
  import opened Actions
  import opened BatchStore

  /** Every action held is a looping one: `bump` force-casts the batch to looping actions. */
  predicate AllLooping(s: seq<Entry>) {
    forall a :: a in Footprint(s) ==> a.kind.Every?
  }

  /** Every action held loops with a positive interval. */
  predicate PositiveIntervals(s: seq<Entry>) {
    forall a :: a in Footprint(s) ==> a.kind.Every? && Interval(a) > 0.0
  }

  /** The interval of a looping action. A looping store never holds a plain action (its `add`
      refuses them), so the 0 given for one is never used. */
  function Interval(a: Action): real {
    match a.kind
    case Every(interval) => interval
    case Once => 0.0
  }

  /** How many keys of the store lie strictly before `x`. */
  function CountBelow(s: seq<Entry>, x: real): nat {
    if s == [] then 0 else (if s[0].offset < x then 1 else 0) + CountBelow(s[1..], x)
  }

  /** The atomic `next`: the batch under the cursor, i.e. the one with exactly `index` smaller
      keys, or None once the cursor has passed the last batch. */
  function CursorNext(s: seq<Entry>, index: nat): (r: Option<Entry>)
    ensures r.None? <==> index >= |s|
  {
    if index < |s| then Some(s[index]) else None
  }

  /** The looping `next` (`base.first`): the batch with the smallest key, or None when empty. */
  function MinEntry(s: seq<Entry>): (r: Option<Entry>)
    ensures r.None? <==> s == []
    ensures r.Some? && Sorted(s) ==> forall i :: 0 <= i < |s| ==> r.value.offset <= s[i].offset
  {
    if s == [] then None
    else if Sorted(s) then SortedHead(s); Some(s[0])
    else Some(s[0])
  }

  /** The first half of a bump: each action of `batch` paired with its next due offset, `o`
      plus the action's interval. */
  function Dues(batch: seq<Action>, o: real): seq<(real, Action)> {
    seq(|batch|, i requires 0 <= i < |batch| => (o + Interval(batch[i]), batch[i]))
  }

  /** The actions of a sequence of pairs, in order. */
  function Moved(pairs: seq<(real, Action)>): seq<Action> {
    seq(|pairs|, i requires 0 <= i < |pairs| => pairs[i].1)
  }

  /** The second half of a bump: each action appended, in order, at the offset paired with it. */
  function AppendAll(s: seq<Entry>, pairs: seq<(real, Action)>): seq<Entry>
    decreases |pairs|
  {
    if pairs == [] then s else AppendAll(Appended(s, pairs[0].1, pairs[0].0), pairs[1..])
  }

  /** The actions of `pairs` paired with the offset `k`, in order. */
  function LandingAt(pairs: seq<(real, Action)>, k: real): seq<Action> {
    if pairs == [] then []
    else (if pairs[0].0 == k then [pairs[0].1] else []) + LandingAt(pairs[1..], k)
  }

  /** The actions of `batch` that a bump from `o` re-appends at `k`, in batch order. */
  function Landing(batch: seq<Action>, o: real, k: real): seq<Action> {
    LandingAt(Dues(batch, o), k)
  }

  /** Each action of `batch`, in order, appended at `o` plus its own interval. */
  function Rescheduled(s: seq<Entry>, batch: seq<Action>, o: real): seq<Entry> {
    AppendAll(s, Dues(batch, o))
  }

  /** The looping store after its soonest batch fired: the batch is re-appended action by action,
      then its old key is deleted. The store is taken sorted, so its soonest batch is the first. */
  function Bumped(s: seq<Entry>): seq<Entry>
    requires s != []
  {
    RemoveKey(Rescheduled(s, s[0].actions, s[0].offset), s[0].offset)
  }

  // ---------------------------------------------------------------------------------------------
  // Lemmas

  lemma FootprintHead(s: seq<Entry>)
    requires s != []
    ensures forall a :: a in s[0].actions ==> a in Footprint(s)
  {
  }

  /** The atomic `next` is the batch of rank `index`: exactly `index` keys lie before it. */
  lemma CursorNextRank(s: seq<Entry>, index: nat)
    requires Sorted(s) && index < |s|
    ensures CursorNext(s, index).Some?
    ensures CountBelow(s, CursorNext(s, index).value.offset) == index
    ensures Lookup(s, CursorNext(s, index).value.offset) == CursorNext(s, index).value.actions
  {
    CountBelowAt(s, index);
    LookupAt(s, index);
  }

  /** The looping `next` is a stored entry: a key of the store with the batch stored at it. */
  lemma MinEntryStored(s: seq<Entry>)
    requires s != []
    ensures MinEntry(s).value in s
    ensures Lookup(s, MinEntry(s).value.offset) == MinEntry(s).value.actions
  {
    assert MinEntry(s).value == s[0];
  }

  /** In a sorted store, the batch at position `i` has exactly `i` keys before it. */
  lemma {:induction false} CountBelowAt(s: seq<Entry>, i: nat)
    requires Sorted(s) && i < |s|
    ensures CountBelow(s, s[i].offset) == i
  {
    if i == 0 {
      SortedHead(s);
      CountBelowNone(s[1..], s[0].offset);
    } else {
      CountBelowAt(s[1..], i - 1);
      SortedPair(s, 0, i);
    }
  }

  lemma {:induction false} CountBelowNone(s: seq<Entry>, x: real)
    requires forall i :: 0 <= i < |s| ==> x <= s[i].offset
    ensures CountBelow(s, x) == 0
  {
    if s != [] {
      CountBelowNone(s[1..], x);
    }
  }

  /** Appending a sequence of pairs keeps the store valid. */
  lemma {:induction false} AppendAllValid(s: seq<Entry>, pairs: seq<(real, Action)>)
    requires BatchStore.Valid(s)
    ensures BatchStore.Valid(AppendAll(s, pairs))
    decreases |pairs|
  {
    if pairs != [] {
      AppendedValid(s, pairs[0].1, pairs[0].0);
      AppendAllValid(Appended(s, pairs[0].1, pairs[0].0), pairs[1..]);
    }
  }

  /** A bump keeps the store valid. */
  lemma BumpedValid(s: seq<Entry>)
    requires BatchStore.Valid(s) && s != []
    ensures BatchStore.Valid(Bumped(s))
  {
    AppendAllValid(s, Dues(s[0].actions, s[0].offset));
    RemoveKeyValid(Rescheduled(s, s[0].actions, s[0].offset), s[0].offset);
  }

  /** Appending a sequence of pairs adds, at every key, the actions paired with it, in order. */
  lemma {:induction false} AppendAllLookup(s: seq<Entry>, pairs: seq<(real, Action)>, k: real)
    requires BatchStore.Valid(s)
    ensures Lookup(AppendAll(s, pairs), k) == Lookup(s, k) + LandingAt(pairs, k)
    decreases |pairs|
  {
    if pairs != [] {
      AppendedValid(s, pairs[0].1, pairs[0].0);
      AppendAllLookup(Appended(s, pairs[0].1, pairs[0].0), pairs[1..], k);
      AppendAllLookupStep(s, pairs, k);
    }
  }

  /** The inductive step of `AppendAllLookup`: the first pair goes in, then the rest. */
  lemma AppendAllLookupStep(s: seq<Entry>, pairs: seq<(real, Action)>, k: real)
    requires BatchStore.Valid(s) && pairs != []
    requires Lookup(AppendAll(Appended(s, pairs[0].1, pairs[0].0), pairs[1..]), k)
             == Lookup(Appended(s, pairs[0].1, pairs[0].0), k) + LandingAt(pairs[1..], k)
    ensures Lookup(AppendAll(s, pairs), k) == Lookup(s, k) + LandingAt(pairs, k)
  {
    var (due, a) := pairs[0];
    var t := Appended(s, a, due);
    var here: seq<Action> := if due == k then [a] else [];
    AppendedLookup(s, a, due, k);
    assert Lookup(t, k) == Lookup(s, k) + here;
    assert LandingAt(pairs, k) == here + LandingAt(pairs[1..], k);
    assert AppendAll(s, pairs) == AppendAll(t, pairs[1..]);
    Regroup(Lookup(s, k), here, LandingAt(pairs[1..], k));
  }

  lemma Regroup<T>(x: seq<T>, y: seq<T>, z: seq<T>)
    ensures (x + y) + z == x + (y + z)
  {
  }

  /** Appending a sequence of pairs adds exactly their actions to the store's contents. */
  lemma {:induction false} AppendAllContents(s: seq<Entry>, pairs: seq<(real, Action)>)
    requires BatchStore.Valid(s)
    ensures multiset(Flat(AppendAll(s, pairs))) == multiset(Flat(s)) + multiset(Moved(pairs))
    decreases |pairs|
  {
    if pairs != [] {
      var (due, a) := pairs[0];
      var t := Appended(s, a, due);
      AppendedContents(s, a, due);
      AppendedValid(s, a, due);
      AppendAllContents(t, pairs[1..]);
      MovedCons(pairs);
      assert AppendAll(s, pairs) == AppendAll(t, pairs[1..]);
      assert multiset(Moved(pairs)) == multiset{a} + multiset(Moved(pairs[1..]));
    }
  }

  /** Appending a sequence of pairs adds exactly their actions to the objects the store holds. */
  lemma {:induction false} AppendAllFootprint(s: seq<Entry>, pairs: seq<(real, Action)>)
    requires BatchStore.Valid(s)
    ensures Footprint(AppendAll(s, pairs)) == Footprint(s) + set a | a in Moved(pairs)
    decreases |pairs|
  {
    if pairs != [] {
      var (due, a) := pairs[0];
      AppendedFootprint(s, a, due);
      AppendedValid(s, a, due);
      AppendAllFootprint(Appended(s, a, due), pairs[1..]);
      MovedCons(pairs);
      assert AppendAll(s, pairs) == AppendAll(Appended(s, a, due), pairs[1..]);
      assert (set x | x in Moved(pairs)) == {a} + set x | x in Moved(pairs[1..]);
    }
  }

  /** The moved actions of a non-empty sequence of pairs: the first one, then the rest. */
  lemma MovedCons(pairs: seq<(real, Action)>)
    requires pairs != []
    ensures Moved(pairs) == [pairs[0].1] + Moved(pairs[1..])
  {
  }

  /** Pairing actions with their due offsets keeps the actions and their order. */
  lemma MovedDues(batch: seq<Action>, o: real)
    ensures Moved(Dues(batch, o)) == batch
  {
  }

  /** No action lands at a key that lies before every offset paired with one. */
  lemma {:induction false} LandingAtBelow(pairs: seq<(real, Action)>, k: real)
    requires forall i :: 0 <= i < |pairs| ==> k < pairs[i].0
    ensures LandingAt(pairs, k) == []
    decreases |pairs|
  {
    if pairs != [] {
      LandingAtBelow(pairs[1..], k);
    }
  }

  /** Re-appending a batch adds, at every key, the actions that land there, in batch order. */
  lemma RescheduledLookup(s: seq<Entry>, batch: seq<Action>, o: real, k: real)
    requires BatchStore.Valid(s)
    ensures Lookup(Rescheduled(s, batch, o), k) == Lookup(s, k) + Landing(batch, o, k)
  {
    AppendAllLookup(s, Dues(batch, o), k);
  }

  /** Re-appending a batch adds exactly that batch's actions to the store. */
  lemma RescheduledContents(s: seq<Entry>, batch: seq<Action>, o: real)
    requires BatchStore.Valid(s)
    ensures multiset(Flat(Rescheduled(s, batch, o))) == multiset(Flat(s)) + multiset(batch)
  {
    AppendAllContents(s, Dues(batch, o));
    MovedDues(batch, o);
  }

  /** Re-appending a batch adds exactly that batch's actions to the objects the store holds. */
  lemma RescheduledFootprint(s: seq<Entry>, batch: seq<Action>, o: real)
    requires BatchStore.Valid(s)
    ensures Footprint(Rescheduled(s, batch, o)) == Footprint(s) + set a | a in batch
  {
    AppendAllFootprint(s, Dues(batch, o));
    MovedDues(batch, o);
  }

  /** With positive intervals nothing lands back on the key it was bumped from, or before it. */
  lemma LandingAfter(batch: seq<Action>, o: real, k: real)
    requires forall a :: a in batch ==> Interval(a) > 0.0
    requires k <= o
    ensures Landing(batch, o, k) == []
  {
    var pairs := Dues(batch, o);
    forall i | 0 <= i < |pairs| ensures k < pairs[i].0 {
      assert batch[i] in batch;
    }
    LandingAtBelow(pairs, k);
  }

  /** Bumping, key by key: the fired key is gone, and every other key keeps its batch followed by
      the fired actions whose offset plus interval equals it. */
  lemma BumpedLookup(s: seq<Entry>, k: real)
    requires BatchStore.Valid(s) && AllLooping(s) && s != []
    ensures Lookup(Bumped(s), k) ==
              if k == s[0].offset then [] else Lookup(s, k) + Landing(s[0].actions, s[0].offset, k)
  {
    FootprintHead(s);
    var o := s[0].offset;
    AppendAllValid(s, Dues(s[0].actions, o));
    RemoveKeyLookup(Rescheduled(s, s[0].actions, o), o, k);
    RescheduledLookup(s, s[0].actions, o, k);
  }

  /** Bumping keeps every action except those with a zero interval, which land back on the fired
      key and are deleted with it. */
  lemma BumpedContents(s: seq<Entry>)
    requires BatchStore.Valid(s) && AllLooping(s) && s != []
    ensures multiset(Flat(Bumped(s))) + multiset(Landing(s[0].actions, s[0].offset, s[0].offset))
            == multiset(Flat(s))
  {
    var o, b := s[0].offset, s[0].actions;
    var r := Rescheduled(s, b, o);
    var landed := Landing(b, o, o);
    AppendAllValid(s, Dues(b, o));
    RescheduledContents(s, b, o);
    RemoveKeyContents(r, o);
    RescheduledLookup(s, b, o, o);
    LookupAt(s, 0);
    var kept, held, fired := multiset(Flat(RemoveKey(r, o))), multiset(Flat(s)), multiset(b);
    assert multiset(Lookup(r, o)) == fired + multiset(landed);
    assert (kept + multiset(landed)) + fired == held + fired;
    Cancel(kept + multiset(landed), held, fired);
  }

  /** Multiset addition cancels. */
  lemma Cancel<T>(x: multiset<T>, y: multiset<T>, z: multiset<T>)
    requires x + z == y + z
    ensures x == y
  {
    forall e ensures x[e] == y[e] {
      assert (x + z)[e] == (y + z)[e];
    }
  }

  /** With positive intervals a bump moves actions without losing or duplicating any. */
  lemma BumpPreservesActions(s: seq<Entry>)
    requires BatchStore.Valid(s) && PositiveIntervals(s) && s != []
    ensures multiset(Flat(Bumped(s))) == multiset(Flat(s))
  {
    FootprintHead(s);
    BumpedContents(s);
    LandingAfter(s[0].actions, s[0].offset, s[0].offset);
  }

  /** With positive intervals every key after a bump lies strictly after the fired key, so the
      next soonest offset strictly increases. */
  lemma BumpMovesForward(s: seq<Entry>)
    requires BatchStore.Valid(s) && PositiveIntervals(s) && s != []
    ensures Above(Bumped(s), s[0].offset)
  {
    FootprintHead(s);
    var o := s[0].offset;
    var r := Bumped(s);
    BumpedValid(s);
    forall i | 0 <= i < |r| ensures o < r[i].offset {
      var k := r[i].offset;
      BumpedLookup(s, k);
      LookupAt(r, i);
      NoEmptyBatchAt(r, i);
      if k < o {
        HeadIsLeast(s, k);
        LandingAfter(s[0].actions, o, k);
      }
    }
  }

  /** A bump keeps a looping store looping. */
  lemma BumpedLooping(s: seq<Entry>)
    requires BatchStore.Valid(s) && AllLooping(s) && s != []
    ensures AllLooping(Bumped(s))
    ensures PositiveIntervals(s) ==> PositiveIntervals(Bumped(s))
  {
    FootprintHead(s);
    var r := Rescheduled(s, s[0].actions, s[0].offset);
    AppendAllValid(s, Dues(s[0].actions, s[0].offset));
    RescheduledFootprint(s, s[0].actions, s[0].offset);
    RemoveKeyFootprint(r, s[0].offset);
  }
}
