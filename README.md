# Timeline scheduling core, in Dafny

This project models the scheduling engine of the Swift `Timeline` package and proves properties of
the model. The package stores closures ("actions") under time offsets. It reads two stores together
as one stream of "next batches": one store of one-shot actions and one of looping actions. A
playback state machine fires the batches as a polling timer finds them due.

The model's modules follow the package's files.

- `Actions` (`action.dfy`) covers `Action.swift`.
  - `Action` is a class: its tags (`identifiers`) can be changed in place.
  - The `Action.Looping` subclass becomes a `kind` field, `Once` or `Every(interval)`.
  - The closure an action runs becomes an operation id (`OpId`).
  - `Matching` and `Removing` model the `removing(identifiers:)` filter of `Schedule.swift`.
- `BatchStore` (`store.dfy`) is the sorted dictionary behind every sub-schedule.
  - It is a strictly key-sorted sequence of `Entry(offset, actions)` in which no batch is empty.
  - `Lookup` is its dictionary view, `Flat` and `Footprint` its contents.
  - `Appended` models `safelyAppend`, `Merge` models `insert(contentsOf:)`, `RemoveKey` models
    `base[k] = nil`, and `Filtered` models the `removeAll` loop.
  - Lemmas give each operation's effect key by key, on the multiset of actions, and on validity.
- `SubScheduleModel` (`subschedule_model.dfy`) gives, as functions on store values, how the two
  kinds of sub-schedule read and consume their store.
  - `CursorNext` is the atomic `next`: the batch under the cursor.
  - `MinEntry` is the looping `next`: the soonest batch.
  - `Bumped` is the looping `bump`: re-append each fired action one interval later, then delete
    the fired key.
- `SubSchedules` (`subschedule.dfy`) is the `SubSchedule` class.
  - It has a `base` store and an `index` cursor, updated in place.
  - Its `looping` flag stands for the `Looping` subclass.
  - `Bump` and `RemoveAll` are loops, proved against the functions above.
- `Schedules` (`schedule.dfy`) covers `Schedule.swift`.
  - `next` and `nextSchedules` are functions built from the same steps as the Swift code: the
    filter of present candidates, the extrema at the least offset, and the `flatMap` of their
    batches.
  - The `Schedule` class holds the two sub-schedule objects and updates them.
  - `Snapshot`, `Peek` and `Step` give the schedule's behaviour as a value, so lemmas can speak of
    successive polls.
- `Timelines` (`timeline.dfy`) covers `Timeline.swift`.
  - `frames` is the seconds-to-ticks conversion.
  - The `Timeline` class is the `stopped / playing / paused` state machine.
  - `Advance` is one poll of the timer. Performing an action appends `Ran(operation)` to a `log`,
    and calling the completion closure appends `Completed`.
- `Scenarios` (`scenarios.dfy`) replays the package's own test cases on the model:
  - inserting at offsets 0 to 9;
  - the timeline's tag on an inserted action;
  - `removeAll()`;
  - a loop every second plus an action at 4.1, which yields the offsets 0, 1, 2, 3, 4, 4.1.

The model follows the code where the code and its documentation differ:

- `removing(identifiers:)` keeps the actions that carry one of the identifiers
  (`Sources/Timeline/Schedule.swift:113`).
  - So `removeAll(identifiers:)` drops every action that carries none of them.
  - `removeAll()`, with no identifiers, empties both stores.
  - The doc comments of `removeAll` say "remove all of the actions that match", which reads the
    other way round.
  - The model keeps the matching actions, as the code does. `Scenarios.RemoveAllKeepsMatching`
    and `Scenarios.RemoveAllDropsOthers` show both sides.
- The `playbackRate` setter stores the new rate first and then pauses. The time covered before the
  change is therefore scaled by the new rate (`Timelines.Timeline.SetPlaybackRate`).
- `Action.Looping.init` does not check its interval.
  - A looping action with interval 0 is appended at the key being fired, and that key is then
    deleted, so the action is lost.
  - `SubScheduleModel.BumpedContents` states exactly which actions survive a bump.
  - `SubScheduleModel.BumpPreservesActions` needs positive intervals.
- Neither `add` nor `removeAll` moves the atomic cursor, so inserting or deleting keys before the
  cursor changes which batch is next. The contracts state that `index` is unchanged.

## Model

| member | source | states |
|---|---|---|
| Actions.Action.constructor | Sources/Timeline/Action.swift:39-42 | a plain action holds exactly the given identifiers and operation and fires once |
| Actions.Action.Looping | Sources/Timeline/Action.swift:24-32 | a looping action holds exactly the given interval (unchecked), identifiers and operation |
| Actions.Action.AddIdentifier | Sources/Timeline/Action.swift:44-46 | the tag is appended at the end, the earlier tags keep their order, duplicates are kept, and afterwards `HasIdentifier` of the tag holds |
| Actions.Action.HasIdentifier | Sources/Timeline/Action.swift:48-50 | true iff the tag occurs among the identifiers |
| Actions.Action.HasAnyIdentifiers | Sources/Timeline/Action.swift:52-54 | true iff some tag of the action belongs to the set; hence false for the empty set |
| Actions.Contains | Sources/Timeline/Action.swift:49 | the linear search finds a tag iff it occurs at some position |
| Actions.ContainsWhere | Sources/Timeline/Action.swift:53 | the linear search succeeds iff some position holds a tag of the set |
| Actions.Matching | Sources/Timeline/Schedule.swift:113 | the filter returns no more actions than it was given; each is one of them and carries a tag of the set; with no identifiers nothing is kept |
| Actions.Removing | Sources/Timeline/Schedule.swift:112-115 | `nil` exactly when no action of the batch carries a tag of the set; otherwise the matching actions |
| Actions.MatchingConcat | Sources/Timeline/Schedule.swift:113 | filtering distributes over concatenation, so survivors keep their relative order |
| Actions.MatchingCounts | Sources/Timeline/Schedule.swift:113 | a matching action keeps every occurrence and any other action loses every occurrence |
| Actions.MatchingAll | Sources/Timeline/Schedule.swift:113 | a batch whose actions all match is returned unchanged |
| BatchStore.AppendedValid | Sources/Timeline/ScheduleBuilding.swift:29-31 | appending keeps the keys strictly sorted and every batch non-empty; the first key becomes the smaller of the old first key and the offset |
| BatchStore.AppendedLookup | Sources/Timeline/ScheduleBuilding.swift:29-31 | the batch at the offset gets the action at its end, or becomes `[a]` when the key was absent; every other key keeps its batch |
| BatchStore.AppendedLength | Sources/Timeline/ScheduleBuilding.swift:29-31 | the number of keys grows by one exactly when the offset was not yet a key |
| BatchStore.AppendedAtEnd | Sources/Timeline/ScheduleBuilding.swift:29-31 | appending after every existing key adds one last key holding just the action |
| BatchStore.AppendedContents | Sources/Timeline/ScheduleBuilding.swift:29-31 | the multiset of stored actions grows by exactly the appended action |
| BatchStore.AppendedFootprint | Sources/Timeline/ScheduleBuilding.swift:29-31 | the set of stored actions grows by exactly the appended action |
| BatchStore.MergeValid | Sources/Timeline/ScheduleBuilding.swift:33-35 | merging two valid stores gives a valid store, empty iff both are, whose first key is the smaller first key |
| BatchStore.MergeLookup | Sources/Timeline/ScheduleBuilding.swift:33-35 | every key carries the existing batch followed by the incoming one; a key of only one store carries that store's batch |
| BatchStore.MergeContents | Sources/Timeline/ScheduleBuilding.swift:33-35 | the merged store holds the union (as multisets) of both stores' actions |
| BatchStore.MergeFootprint | Sources/Timeline/ScheduleBuilding.swift:33-35 | the merged store holds exactly the actions of both stores |
| BatchStore.RemoveKeyValid | Sources/Timeline/SubSchedule.swift:34 | deleting a key keeps the store valid and does not lower its first key |
| BatchStore.RemoveKeyLookup | Sources/Timeline/SubSchedule.swift:34 | the deleted key maps to nothing and every other key keeps its batch |
| BatchStore.RemoveKeyContents | Sources/Timeline/SubSchedule.swift:34 | deleting a key loses exactly the batch stored at it |
| BatchStore.RemoveKeyFootprint | Sources/Timeline/SubSchedule.swift:34 | deleting a key adds no action |
| BatchStore.FilteredValid | Sources/Timeline/ScheduleBuilding.swift:37-41 | after the filter no key maps to an empty batch, no key is added, the keys stay sorted and the first key does not move back |
| BatchStore.FilteredLookup | Sources/Timeline/ScheduleBuilding.swift:37-41 | every key carries the matching part of its old batch, in order; a key left without matches is gone |
| BatchStore.FilteredFlat | Sources/Timeline/ScheduleBuilding.swift:37-41 | the store's actions after the filter are, in order, exactly its matching actions |
| BatchStore.FilteredNothing | Sources/Timeline/ScheduleBuilding.swift:37-41 | with no identifiers the store ends up empty |
| BatchStore.FilteredConcat | Sources/Timeline/ScheduleBuilding.swift:37-41 | the filter works key by key, independently of the other keys |
| BatchStore.FilteredFootprint | Sources/Timeline/ScheduleBuilding.swift:37-41 | the filter adds no action |
| SubScheduleModel.CursorNext | Sources/Timeline/SubSchedule.swift:38-41 | the atomic `next` is absent exactly when the cursor is at or past the number of keys |
| SubScheduleModel.CursorNextRank | Sources/Timeline/SubSchedule.swift:38-41 | otherwise it is the batch whose key has exactly `index` smaller keys, i.e. the `index`-th in ascending key order, as stored at that key |
| SubScheduleModel.MinEntry | Sources/Timeline/SubSchedule.swift:15-17 | the looping `next` is absent exactly when the store is empty; otherwise its key is no larger than any key |
| SubScheduleModel.MinEntryStored | Sources/Timeline/SubSchedule.swift:15-17 | the looping `next` of a non-empty store is one of its entries: its key is stored, with its batch |
| SubScheduleModel.AppendAllValid | Sources/Timeline/SubSchedule.swift:31-33 | appending the fired actions one by one keeps the store valid |
| SubScheduleModel.AppendAllLookup | Sources/Timeline/SubSchedule.swift:31-33 | every key ends with the fired actions due at it, in batch order, after its old batch |
| SubScheduleModel.AppendAllContents | Sources/Timeline/SubSchedule.swift:31-33 | the multiset of stored actions grows by exactly the re-appended actions |
| SubScheduleModel.AppendAllFootprint | Sources/Timeline/SubSchedule.swift:31-33 | the set of stored actions grows by exactly the re-appended actions |
| SubScheduleModel.RescheduledLookup | Sources/Timeline/SubSchedule.swift:31-33 | each action is re-appended at the fired offset plus its own interval, in batch order |
| SubScheduleModel.RescheduledContents | Sources/Timeline/SubSchedule.swift:31-33 | re-appending adds the fired batch to the multiset of actions |
| SubScheduleModel.RescheduledFootprint | Sources/Timeline/SubSchedule.swift:31-33 | re-appending adds exactly the fired batch's actions |
| SubScheduleModel.LandingAfter | Sources/Timeline/SubSchedule.swift:32 | with positive intervals no fired action lands at or before the fired key |
| SubScheduleModel.BumpedValid | Sources/Timeline/SubSchedule.swift:30-35 | a bump keeps the store sorted and free of empty batches |
| SubScheduleModel.BumpedLookup | Sources/Timeline/SubSchedule.swift:30-35 | after a bump the fired key is gone, and every other key holds its batch followed by the fired actions that land on it |
| SubScheduleModel.BumpedContents | Sources/Timeline/SubSchedule.swift:30-35 | a bump loses exactly the actions that land back on the fired key, i.e. those with interval 0 |
| SubScheduleModel.BumpPreservesActions | Sources/Timeline/SubSchedule.swift:30-35 | with positive intervals a bump preserves the multiset of actions |
| SubScheduleModel.BumpMovesForward | Sources/Timeline/SubSchedule.swift:30-35 | with positive intervals every key after a bump lies strictly after the fired key |
| SubScheduleModel.BumpedLooping | Sources/Timeline/SubSchedule.swift:31 | a bump keeps every stored action looping, and keeps positive intervals positive |
| SubSchedules.SubSchedule.constructor | Sources/Timeline/SubSchedule.swift:46-49 | a fresh atomic sub-schedule has an empty store, cursor 0 and no `next` |
| SubSchedules.SubSchedule.Looping | Sources/Timeline/SubSchedule.swift:46-49 | a fresh looping sub-schedule has an empty store, counter 0 and no `next` |
| SubSchedules.SubSchedule.Advance | Sources/Timeline/SubSchedule.swift:24-28 | the index grows by exactly one; the atomic store is unchanged; the looping store is bumped, or unchanged when empty |
| SubSchedules.SubSchedule.Bump | Sources/Timeline/SubSchedule.swift:30-35 | the loop re-appends each action at its due offset in batch order, then deletes the fired key, keeping the store valid |
| SubSchedules.SubSchedule.Add | Sources/Timeline/SubSchedule.swift:55-57 | the store becomes the old store with the action appended at the offset; the cursor is not moved |
| SubSchedules.SubSchedule.ScheduleContentsOf | Sources/Timeline/SubSchedule.swift:59-61 | the store becomes the key-wise merge of both stores |
| SubSchedules.SubSchedule.RemoveAll | Sources/Timeline/SubSchedule.swift:63-67 | the loop over the keys leaves exactly the filtered store, valid; the cursor is not moved |
| Schedules.NextOfBoth | Sources/Timeline/Schedule.swift:18-30 | with both sub-schedules pending, `next` is the sooner batch, or on a tie the atomic batch followed by the looping one; exactly the sub-schedules at that offset are the ones advanced |
| Schedules.NextOfOne | Sources/Timeline/Schedule.swift:18-30 | with one sub-schedule pending, `next` is its batch and only it is advanced |
| Schedules.NextOfNone | Sources/Timeline/Schedule.swift:19 | `next` is absent iff both sub-schedules' `next` are |
| Schedules.NextOfSoonest | Sources/Timeline/Schedule.swift:26-30 | `next.offset` is one of the present next offsets and no larger than either; a sub-schedule is advanced iff its next offset equals it |
| Schedules.StepValid | Sources/Timeline/Schedule.swift:99-101 | an advance keeps both stores valid and the looping store looping with positive intervals |
| Schedules.StepIdle | Sources/Timeline/Schedule.swift:99-101 | with nothing pending an advance changes nothing |
| Schedules.NextOffsetIncreases | Sources/Timeline/Schedule.swift:99-101 | with positive intervals, the offset of the next batch after an advance is strictly greater: no offset fires twice and time never goes back |
| Schedules.Schedule.constructor | Sources/Timeline/Schedule.swift:39-42 | a fresh schedule has two empty sub-schedules and no `next` |
| Schedules.Schedule.Next | Sources/Timeline/Schedule.swift:18-23 | the object's `next` is the value model's `Peek` of its contents |
| Schedules.Schedule.Insert | Sources/Timeline/Schedule.swift:48-61 | a new plain action with the given tags and operation is appended to the atomic store only |
| Schedules.Schedule.Loop | Sources/Timeline/Schedule.swift:64-80 | a new looping action with the given interval, tags and operation is appended to the looping store only |
| Schedules.Schedule.InsertContentsOf | Sources/Timeline/Schedule.swift:83-86 | each store becomes the merge of itself with the other schedule's store of the same kind |
| Schedules.Schedule.RemoveAll | Sources/Timeline/Schedule.swift:91-94 | both stores are filtered alike; with no identifiers both end up empty; the cursors are not moved |
| Schedules.Schedule.Advance | Sources/Timeline/Schedule.swift:99-101 | exactly the sub-schedules `next` drew from are advanced, the other is untouched, and the new contents are `Step` of the old |
| Timelines.Round | Sources/Timeline/Timeline.swift:237 | the result is the integer within one half of the argument, halves rounded up |
| Timelines.FramesBeforePause | Sources/Timeline/Timeline.swift:234-235 | a date not after `lastPausedDate` is at frame 0 |
| Timelines.FramesIsWallTime | Sources/Timeline/Timeline.swift:226-238 | a later date is at the frame nearest to the wall time it is reached at: the part up to the pause at normal speed, the rest divided by the playback rate |
| Timelines.FramesMonotone | Sources/Timeline/Timeline.swift:226-238 | the due frame never decreases as the date grows |
| Timelines.FramesExamples | Tests/TimelineTests/TimelineTests.swift:34-72 | 2 s at 120 fps is frame 240; with the rate doubled after 1 s it is frame 180 |
| Timelines.DueOnceReached | Sources/Timeline/Timeline.swift:201 | once the schedule time covered reaches a batch's offset, `currentFrame` has reached its `playbackFrames` |
| Timelines.Timeline.constructor | Sources/Timeline/Timeline.swift:92-105 | a new timeline is stopped, at pause date 0, with its timer off and nothing logged |
| Timelines.Timeline.Insert | Sources/Timeline/Timeline.swift:110-112 | the new plain action carries the timeline's identifier as its only tag and goes to the atomic store only |
| Timelines.Timeline.Loop | Sources/Timeline/Timeline.swift:116-128 | the new looping action carries the timeline's identifier as its only tag and goes to the looping store only |
| Timelines.Timeline.RemoveAll | Sources/Timeline/Timeline.swift:131-133 | both stores are filtered by the identifiers |
| Timelines.Timeline.Start | Sources/Timeline/Timeline.swift:138-144 | nothing changes while playing; otherwise the pause date is reset to 0 and the timeline plays |
| Timelines.Timeline.Stop | Sources/Timeline/Timeline.swift:147-152 | nothing changes while stopped; otherwise the pause date is reset to 0 and the timeline stops; the schedule is untouched |
| Timelines.Timeline.Pause | Sources/Timeline/Timeline.swift:155-160 | nothing changes while paused; otherwise the elapsed time times the playback rate is added to the pause date and the timeline is paused there |
| Timelines.Timeline.Resume | Sources/Timeline/Timeline.swift:163-168 | nothing changes while playing; otherwise the timeline plays again from the same pause date |
| Timelines.Timeline.SetPlaybackRate | Sources/Timeline/Timeline.swift:40-46 | the rate is stored; a playing timeline keeps playing with the elapsed time accumulated at the new rate; otherwise nothing else changes |
| Timelines.Timeline.Advance | Sources/Timeline/Timeline.swift:193-205 | with nothing pending the completion is logged and the timeline stops, its pause date reset to 0 unless it was already stopped; a due batch's operations are logged in order and the schedule advances by `Step`; a batch not yet due changes nothing |
| Scenarios.InsertOffsets | Tests/TimelineTests/ScheduleTests.swift:20-22 | inserting at offsets `0..<n` in order gives exactly the keys `0, 1, …, n - 1` |
| Scenarios.InsertTenOffsets | Tests/TimelineTests/ScheduleTests.swift:16-26 | inserting at offsets 0 to 9 gives the keys 0 to 9, ascending |
| Scenarios.InsertTagged | Tests/TimelineTests/ScheduleTests.swift:28-36 | an action inserted through a timeline named "ABC" has the tags `["ABC"]` |
| Scenarios.RemoveAllEmpties | Tests/TimelineTests/ScheduleTests.swift:39-50 | five insertions give five keys, and `removeAll()` leaves none |
| Scenarios.FilteredSingle | Sources/Timeline/Schedule.swift:111-115 | a one-action store survives the filter whole when the action matches, and is emptied otherwise |
| Scenarios.RemoveAllKeepsMatching | Sources/Timeline/Schedule.swift:111-115 | `removeAll(["A"])` keeps an action tagged "A" |
| Scenarios.RemoveAllDropsOthers | Sources/Timeline/Schedule.swift:111-115 | `removeAll(["B"])` drops an action tagged only "A" |
| Scenarios.BumpedSingle | Sources/Timeline/SubSchedule.swift:30-35 | a lone looping action moves on by its interval |
| Scenarios.LoopFiresFirst | Tests/TimelineTests/TimelineTests.swift:125-127 | before 4.1 the loop is soonest, fires alone and moves on by one second |
| Scenarios.OnceFiresAtLast | Tests/TimelineTests/TimelineTests.swift:125-127 | with the loop at 5 the action at 4.1 fires alone and the cursor moves on |
| Scenarios.LoopPoll | Tests/TimelineTests/TimelineTests.swift:125-127 | the `k`-th poll of the looping test fires the loop at `k` for `k < 5`, then the action at 4.1, each due five seconds in, and leaves the schedule at its next state |
| Scenarios.LoopBuilt | Tests/TimelineTests/TimelineTests.swift:120-131 | the test's timeline, a loop every second from 0 and an action at 4.1, is stopped with both pending and an empty log |
| Scenarios.LoopTimeline | Tests/TimelineTests/TimelineTests.swift:120-133 | started, that timeline plays from schedule time 0 with both actions still pending |
| Scenarios.LoopAdvance | Sources/Timeline/Timeline.swift:193-205 | a tick of the looping test logs the due batch's operation and moves the schedule on |
| Scenarios.LoopRun | Tests/TimelineTests/TimelineTests.swift:116-135 | six ticks log the loop's operation five times, then the plain one, firing at 0, 1, 2, 3, 4 and 4.1 |
| Scenarios.LoopThenOnce | Tests/TimelineTests/TimelineTests.swift:116-135 | the timeline built and started as in the test, advanced six times, fires at 0, 1, 2, 3, 4, 4.1 and runs the loop five times before the action at 4.1 |

## Left out

- The wall clock (`Sources/Time/Clock.swift`) is not part of this model. The elapsed time it
  measures is a parameter of `Pause`, `SetPlaybackRate`, `Advance` and `CurrentFrame`.
- The timer (`makeTimer`, `timer?.stop()`) is external polling and concurrency. It is a `ticking`
  flag that `Valid` ties to the playing state. Polls are calls of `Timeline.Advance`.
- The closures are foreign code. An action holds an operation id, and running it appends
  `Ran(id)` to the timeline's log. The optional completion closure is a `hasCompletion` flag.
  Calling it logs `Completed`.
- `skip(to:)` is a `fatalError()` stub and is not modelled.
- `Timeline.Schedule.swift` is a superseded duplicate built on types the package no longer defines,
  and is not part of this model. Neither is `ScheduleProtocol.swift` nor
  `ScheduleAdvancing.swift`, which declare protocols and an upcast with no behaviour of their own.
- Reals stand for `Seconds`/`Double`. IEEE-754 rounding and the conversion to the 64-bit `Ticks`,
  including its overflow, are not modelled.
- `round` is modelled only for the non-negative arguments `frames` passes it.
- `SortedDictionary` and `extrema` belong to a package that is not part of this model.
  - `extrema` is modelled as every candidate at the least offset, in input order.
  - On a key held by both stores, `insert(contentsOf:)` is modelled as appending the incoming
    batch after the existing one.
- `Schedule` calls `insert(_:at:)` and `insert(contentsOf:)` on its sub-schedules, which
  `SubSchedule` names `add(_:at:)` and `schedule(contentsOf:)`. They are modelled as the same
  operations.
- Swift's single `SubSchedule` type with its `Looping` subclass is one class with a `looping`
  flag.
  - The subclass's `assert(action is Action.Looping)` becomes a precondition of
    `SubSchedules.SubSchedule.Add`.
  - The force-cast in `bump` becomes a precondition of `SubSchedules.SubSchedule.Bump`.
- `Schedules.Schedule.Insert`, `Schedules.Schedule.Loop`, `Timelines.Timeline.Insert` and
  `Timelines.Timeline.Loop` return the action they create so that callers can speak of it. The
  Swift methods return nothing.
- The timeline's `schedule` is fixed at construction. Swift declares it `var`, but nothing in the
  package reassigns it.
- `SubScheduleModel.Bumped` takes the store's first batch as the fired one. That batch is the
  soonest because every store the model builds is sorted.
- `Timelines.Frames` requires a positive rate, a positive playback rate and a non-negative
  `lastPausedDate`. The timeline keeps these as part of `Valid`, and
  `Timelines.Timeline.SetPlaybackRate` requires a positive new rate. Swift would divide by zero
  or trap on a negative `Ticks` instead.
- `Timelines.Timeline.Pause` requires a non-negative elapsed time, as a clock measures.
- `SubSchedules.SubSchedule.RemoveAll` iterates over a copy of the store, as Swift's value
  semantics do. Rewriting the dictionary while iterating it is not modelled.
- `SubScheduleModel.CursorNext`: the contract states only when the atomic `next` is absent.
  Which batch it returns is stated by `SubScheduleModel.CursorNextRank`, for sorted stores.
- The looping test's ticks each pass an elapsed time of five seconds, so every batch is due
  (`Scenarios.LoopAdvance`). The wall-clock timing of that test is not modelled.
