// The timeline (Sources/Timeline/Timeline.swift): a playback state machine over a schedule. A
// timer polls `advance()`, which fires the next batch once the clock has reached it. The clock's
// elapsed time is a parameter here, the timer is a flag, and performing an action appends its
// operation to a log.

module Timelines {
  import opened Wrappers
  import opened Actions
  import opened BatchStore
  import opened SubScheduleModel
  import opened SubSchedules
  import opened Schedules

  /** `Timeline.Status`. */
  datatype Status = Playing | Stopped | Paused(at: real)

  /** What the timeline did to the outside world: ran an action's operation, or called its
      completion closure. */
  datatype Event = Ran(operation: OpId) | Completed

  /** The events of performing `actions`, in order. */
  function Runs(actions: seq<Action>): seq<Event> {
    seq(|actions|, i requires 0 <= i < |actions| => Ran(actions[i].operation))
  }

  /** `round` on a non-negative value: the nearest integer, halves rounded up. */
  function Round(x: real): (r: nat)
    requires x >= 0.0
    ensures x - 0.5 < r as real <= x + 0.5
  {
    (x + 0.5).Floor
  }

  /** `frames(scheduledDate:lastPausedDate:rate:playbackRate:)`: the tick (of `rate` seconds) at
      which schedule time `scheduledDate` is reached, when everything up to `lastPausedDate` ran at
      normal speed and the rest runs at `playbackRate`; 0 for a date not after `lastPausedDate`. */
  function Frames(scheduledDate: real, lastPausedDate: real, rate: real, playbackRate: real): nat
    requires rate > 0.0 && playbackRate > 0.0 && lastPausedDate >= 0.0
  {
    var interval := 1.0 / rate;
    var since := scheduledDate - lastPausedDate;
    if since <= 0.0 then 0
    else
      NonNegativeProduct(lastPausedDate, interval);
      NonNegativeProduct(interval / playbackRate, since);
      Round(lastPausedDate * interval + interval / playbackRate * since)
  }

  lemma NonNegativeProduct(x: real, y: real)
    requires x >= 0.0 && y >= 0.0
    ensures x * y >= 0.0
  {
  }

  /** Rounding keeps order. */
  lemma RoundMonotone(x: real, y: real)
    requires 0.0 <= x <= y
    ensures Round(x) <= Round(y)
  {
  }

  /** A date not after the last pause is at frame 0. */
  lemma FramesBeforePause(scheduledDate: real, lastPausedDate: real, rate: real, playbackRate: real)
    requires rate > 0.0 && playbackRate > 0.0 && lastPausedDate >= 0.0
    requires scheduledDate <= lastPausedDate
    ensures Frames(scheduledDate, lastPausedDate, rate, playbackRate) == 0
  {
  }

  /** `frames` is the nearest tick to the wall time at which `scheduledDate` is reached: the part up
      to the last pause at normal speed, the rest divided by the playback rate. */
  lemma FramesIsWallTime(scheduledDate: real, lastPausedDate: real, rate: real, playbackRate: real)
    requires rate > 0.0 && playbackRate > 0.0 && lastPausedDate >= 0.0
    requires scheduledDate > lastPausedDate
    ensures var wall := lastPausedDate + (scheduledDate - lastPausedDate) / playbackRate;
            wall >= 0.0 && Frames(scheduledDate, lastPausedDate, rate, playbackRate) == Round(wall / rate)
  {
    var interval := 1.0 / rate;
    var since := scheduledDate - lastPausedDate;
    var wall := lastPausedDate + since / playbackRate;
    assert interval / playbackRate * since == since / playbackRate * interval;
    assert wall / rate == wall * interval;
    assert lastPausedDate * interval + since / playbackRate * interval == wall * interval;
  }

  /** Later dates are at later (or the same) frames. */
  lemma FramesMonotone(d1: real, d2: real, lastPausedDate: real, rate: real, playbackRate: real)
    requires rate > 0.0 && playbackRate > 0.0 && lastPausedDate >= 0.0
    requires d1 <= d2
    ensures Frames(d1, lastPausedDate, rate, playbackRate) <= Frames(d2, lastPausedDate, rate, playbackRate)
  {
    if d1 > lastPausedDate {
      var step := 1.0 / rate / playbackRate;
      assert step > 0.0;
      assert step * (d1 - lastPausedDate) <= step * (d2 - lastPausedDate);
      NonNegativeProduct(lastPausedDate, 1.0 / rate);
      NonNegativeProduct(step, d1 - lastPausedDate);
      RoundMonotone(lastPausedDate * (1.0 / rate) + step * (d1 - lastPausedDate),
                    lastPausedDate * (1.0 / rate) + step * (d2 - lastPausedDate));
    }
  }

  /** Two seconds at 120 frames per second are 240 frames; with the rate doubled after the first
      second they are 120 + 60 = 180 frames. */
  lemma FramesExamples()
    ensures Frames(2.0, 0.0, 1.0 / 120.0, 1.0) == 240
    ensures Frames(2.0, 1.0, 1.0 / 120.0, 2.0) == 180
  {
    assert 1.0 / (1.0 / 120.0) == 120.0;
    assert (240.0 + 0.5).Floor == 240;
    assert (180.0 + 0.5).Floor == 180;
  }

  /** A batch at schedule offset `offset` is due once the schedule time the clock has covered,
      `lastPausedDate` plus the elapsed time scaled by the playback rate, has reached it. */
  lemma DueOnceReached(elapsed: real, offset: real, lastPausedDate: real, rate: real, playbackRate: real)
    requires rate > 0.0 && playbackRate > 0.0 && lastPausedDate >= 0.0 && elapsed >= 0.0
    requires lastPausedDate + elapsed * playbackRate >= offset
    ensures Frames(elapsed + lastPausedDate, lastPausedDate, rate, 1.0)
            >= Frames(offset, lastPausedDate, rate, playbackRate)
  {
    if offset > lastPausedDate {
      var interval := 1.0 / rate;
      var since := offset - lastPausedDate;
      assert since <= elapsed * playbackRate;
      assert since / playbackRate <= elapsed;
      assert interval / playbackRate * since == interval * (since / playbackRate);
      assert interval * (since / playbackRate) <= interval * elapsed;
      assert interval / 1.0 * elapsed == interval * elapsed;
      NonNegativeProduct(lastPausedDate, interval);
      NonNegativeProduct(interval / playbackRate, since);
      RoundMonotone(lastPausedDate * interval + interval / playbackRate * since,
                    lastPausedDate * interval + interval / 1.0 * elapsed);
    }
  }

  class Timeline {
    var playbackRate: real
    var status: Status
    /** Seconds per frame. */
    const rate: real
    /** Schedule time reached at the last pause (0 after start and stop). */
    var lastPausedDate: real
    const schedule: Schedule
    /** Whether the polling timer is running. */
    var ticking: bool
    const identifier: string
    /** Whether a completion closure was given. */
    const hasCompletion: bool
    /** What the timeline has done to the outside world so far. */
    var log: seq<Event>

    /** The quantities `frames` needs: positive rates and a non-negative pause date. */
    predicate Clocked()
      reads this
    {
      rate > 0.0 && playbackRate > 0.0 && lastPausedDate >= 0.0
    }

    ghost predicate Valid()
      reads this, schedule, schedule.atomic, schedule.looping
    {
      schedule.Valid() && Clocked() &&
      (ticking <==> status.Playing?) &&
      (status.Paused? ==> status.at == lastPausedDate)
    }

    /** `init(identifier:schedule:rate:playbackRate:performingOnCompletion:)`: a stopped timeline
        over `schedule`. */
    constructor (identifier: string, schedule: Schedule, rate: real, playbackRate: real, hasCompletion: bool)
      requires schedule.Valid() && rate > 0.0 && playbackRate > 0.0
      ensures Valid()
      ensures status == Stopped && lastPausedDate == 0.0 && !ticking && log == []
      ensures this.identifier == identifier && this.schedule == schedule
      ensures this.rate == rate && this.playbackRate == playbackRate
      ensures this.hasCompletion == hasCompletion
    {
      this.identifier := identifier;
      this.rate := rate;
      this.playbackRate := playbackRate;
      this.schedule := schedule;
      this.hasCompletion := hasCompletion;
      status := Stopped;
      lastPausedDate := 0.0;
      ticking := false;
      log := [];
    }

    /** `insert(at:performing:)`: a plain action tagged with this timeline's identifier only. */
    method Insert(offset: real, operation: OpId) returns (a: Action)
      requires Valid()
      modifies schedule.atomic`base
      ensures Valid() && fresh(a)
      ensures a.identifiers == [identifier] && a.operation == operation && a.kind == Once
      ensures schedule.atomic.base == Appended(old(schedule.atomic.base), a, offset)
      ensures schedule.looping.base == old(schedule.looping.base)
    {
      a := schedule.Insert(offset, [identifier], operation);
    }

    /** `loop(every:startingAt:operation:)`: a looping action tagged with this timeline's
        identifier only. */
    method Loop(interval: real, offset: real, operation: OpId) returns (a: Action)
      requires Valid()
      modifies schedule.looping`base
      ensures Valid() && fresh(a)
      ensures a.identifiers == [identifier] && a.operation == operation && a.kind == Every(interval)
      ensures schedule.looping.base == Appended(old(schedule.looping.base), a, offset)
      ensures schedule.atomic.base == old(schedule.atomic.base)
    {
      a := schedule.Loop(interval, offset, [identifier], operation);
    }

    /** `removeAll(identifiers:)`, passed on to the schedule. */
    method RemoveAll(ids: set<string>)
      requires Valid()
      modifies schedule.atomic`base, schedule.looping`base
      ensures Valid()
      ensures schedule.atomic.base == Filtered(old(schedule.atomic.base), ids)
      ensures schedule.looping.base == Filtered(old(schedule.looping.base), ids)
    {
      schedule.RemoveAll(ids);
    }

    /** `start()`: nothing while playing; otherwise back to schedule time 0, timer on. */
    method Start()
      requires Valid()
      modifies this`lastPausedDate, this`status, this`ticking
      ensures Valid()
      ensures old(status).Playing? ==> status == old(status) && lastPausedDate == old(lastPausedDate)
      ensures !old(status).Playing? ==> status == Playing && lastPausedDate == 0.0
    {
      if status.Playing? {
        return;
      }
      lastPausedDate := 0.0;
      ticking := true;
      status := Playing;
    }

    /** `stop()`: nothing while stopped; otherwise back to schedule time 0, timer off. The
        schedule is left as it is. */
    method Stop()
      requires Valid()
      modifies this`lastPausedDate, this`status, this`ticking
      ensures Valid()
      ensures old(status).Stopped? ==> status == old(status) && lastPausedDate == old(lastPausedDate)
      ensures !old(status).Stopped? ==> status == Stopped && lastPausedDate == 0.0
    {
      if status.Stopped? {
        return;
      }
      lastPausedDate := 0.0;
      ticking := false;
      status := Stopped;
    }

    /** `pause()`: nothing while paused; otherwise the schedule time covered since the clock
        started, `elapsed` scaled by the playback rate, is added to `lastPausedDate`, and the
        timeline is paused there. */
    method Pause(elapsed: real)
      requires Valid() && elapsed >= 0.0
      modifies this`lastPausedDate, this`status, this`ticking
      ensures Valid()
      ensures old(status).Paused? ==> status == old(status) && lastPausedDate == old(lastPausedDate)
      ensures !old(status).Paused? ==>
                lastPausedDate == old(lastPausedDate) + elapsed * playbackRate &&
                status == Paused(lastPausedDate)
    {
      if status.Paused? {
        return;
      }
      NonNegativeProduct(elapsed, playbackRate);
      lastPausedDate := lastPausedDate + elapsed * playbackRate;
      ticking := false;
      status := Paused(lastPausedDate);
    }

    /** `resume()`: nothing while playing; otherwise playing again from `lastPausedDate`. */
    method Resume()
      requires Valid()
      modifies this`status, this`ticking
      ensures Valid()
      ensures old(status).Playing? ==> status == old(status)
      ensures !old(status).Playing? ==> status == Playing
    {
      if status.Playing? {
        return;
      }
      ticking := true;
      status := Playing;
    }

    /** The `playbackRate` setter: the rate is stored first, then a playing timeline pauses and
        resumes, so the time covered so far is scaled by the NEW rate. */
    method SetPlaybackRate(value: real, elapsed: real)
      requires Valid() && value > 0.0 && elapsed >= 0.0
      modifies this`playbackRate, this`lastPausedDate, this`status, this`ticking
      ensures Valid() && playbackRate == value
      ensures old(status).Playing? ==>
                status == Playing && lastPausedDate == old(lastPausedDate) + elapsed * value
      ensures !old(status).Playing? ==>
                status == old(status) && lastPausedDate == old(lastPausedDate)
    {
      playbackRate := value;
      if status.Playing? {
        Pause(elapsed);
        Resume();
      }
    }

    /** `currentFrame`: the frame the clock has reached, `elapsed` after it last started, counted
        at normal speed from `lastPausedDate`. */
    function CurrentFrame(elapsed: real): nat
      requires Clocked()
      reads this
    {
      Frames(elapsed + lastPausedDate, lastPausedDate, rate, 1.0)
    }

    /** `playbackFrames(scheduledDate:)`: the frame at which `scheduledDate` is due. */
    function PlaybackFrames(scheduledDate: real): nat
      requires Clocked()
      reads this
    {
      Frames(scheduledDate, lastPausedDate, rate, playbackRate)
    }

    /** `advance()`, one poll of the timer, `elapsed` after the clock last started. With nothing
        left it calls the completion closure and stops. Otherwise, once the next batch is due, it
        performs the batch's actions in order and then advances the schedule; before that it
        changes nothing. */
    method Advance(elapsed: real)
      requires Valid()
      modifies this`log, this`lastPausedDate, this`status, this`ticking
      modifies schedule.atomic, schedule.looping
      ensures Valid()
      ensures old(schedule.Next()).None? ==>
                log == old(log) + (if hasCompletion then [Completed] else []) &&
                status == Stopped && !ticking && schedule.State() == old(schedule.State()) &&
                lastPausedDate == (if old(status).Stopped? then old(lastPausedDate) else 0.0)
      ensures old(schedule.Next()).Some? ==>
                status == old(status) && lastPausedDate == old(lastPausedDate)
      ensures old(schedule.Next()).Some? &&
              old(CurrentFrame(elapsed) >= PlaybackFrames(schedule.Next().value.offset)) ==>
                log == old(log) + Runs(old(schedule.Next()).value.actions) &&
                schedule.State() == Step(old(schedule.State()))
      ensures old(schedule.Next()).Some? &&
              old(CurrentFrame(elapsed) < PlaybackFrames(schedule.Next().value.offset)) ==>
                log == old(log) && schedule.State() == old(schedule.State())
    {
      var next := schedule.Next();
      match next {
        case None =>
          if hasCompletion {
            log := log + [Completed];
          }
          Stop();
        case Some(e) =>
          if CurrentFrame(elapsed) >= PlaybackFrames(e.offset) {
            var performed := log;
            var i := 0;
            while i < |e.actions|
              invariant 0 <= i <= |e.actions|
              invariant performed == log + Runs(e.actions[..i])
            {
              assert Runs(e.actions[..i + 1]) == Runs(e.actions[..i]) + [Ran(e.actions[i].operation)];
              performed := performed + [Ran(e.actions[i].operation)];
              i := i + 1;
            }
            assert e.actions[..i] == e.actions;
            log := performed;
            schedule.Advance();
          }
      }
    }
  }
}
