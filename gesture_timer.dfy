/**
 A stopwatch that measures how long a gesture has been active.

 The timer is either unstarted (no reference instant) or started (holding
 the instant at which `Start` first ran). The wall clock is not read by the
 model: every operation that consults it receives the current instant as the
 integer argument `now`.
 */
module GestureTimers {
  import opened Wrappers

  /** The reference instant after `Start` runs at `now`: the first start wins. */
  function AfterStart(date: Option<int>, now: int): (d: Option<int>)
    ensures d.Some?
    ensures date.Some? ==> d == date
    ensures date.None? ==> d.value == now
  {
    if date.Some? then date else Some(now)
  }

  /** The time elapsed at `now` since the reference instant, or 0 when unstarted. */
  function Elapsed(date: Option<int>, now: int): int
  {
    match date
    case None => 0
    case Some(start) => now - start
  }

  class GestureTimer {
    /** The reference instant, absent until the timer is started. */
    var date: Option<int>

    constructor ()
      ensures date == None
    {
      date := None;
    }

    /** Starts the timer at `now`; does nothing when it is already started. */
    method Start(now: int)
      modifies this
      ensures date == AfterStart(old(date), now)
    {
      if date.Some? {
        return;
      }
      date := Some(now);
    }

    /** Reads the elapsed time at `now`; the timer's state is left as it is. */
    method ElapsedTime(now: int) returns (t: int)
      ensures date.None? ==> t == 0
      ensures date.Some? ==> date.value + t == now
      ensures t == Elapsed(date, now)
    {
      match date {
        case None =>
          return 0;
        case Some(start) =>
          return now - start;
      }
    }
  }

  /** One call a client makes on a timer, with the clock reading at that moment. */
  datatype Call = Start(now: int) | ElapsedTime(now: int)

  /** The reference instant after one call. */
  function Step(date: Option<int>, call: Call): Option<int>
  {
    match call
    case Start(now) => AfterStart(date, now)
    case ElapsedTime(_) => date
  }

  /** The reference instant after a sequence of calls, oldest first. */
  function Replay(date: Option<int>, calls: seq<Call>): Option<int>
    decreases |calls|
  {
    if calls == [] then date else Replay(Step(date, calls[0]), calls[1..])
  }

  /** The clock values at which the `ElapsedTime` calls of a sequence of calls are made, in order. */
  function ReadTimes(calls: seq<Call>): (ts: seq<int>)
    decreases |calls|
  {
    if calls == [] then []
    else (if calls[0].ElapsedTime? then [calls[0].now] else []) + ReadTimes(calls[1..])
  }

  /**
   The values the `ElapsedTime` calls of a sequence of calls return, in order:
   one per `ElapsedTime` call, and on a started timer each is that call's clock
   value less the reference instant.
   */
  function Readings(date: Option<int>, calls: seq<Call>): (rs: seq<int>)
    ensures |rs| == |ReadTimes(calls)|
    ensures date.Some? ==> forall k :: 0 <= k < |rs| ==> rs[k] == ReadTimes(calls)[k] - date.value
    decreases |calls|
  {
    if calls == [] then []
    else
      var here := if calls[0].ElapsedTime? then [Elapsed(date, calls[0].now)] else [];
      here + Readings(Step(date, calls[0]), calls[1..])
  }

  /** The clock never goes backwards across the calls. */
  ghost predicate ClockNonDecreasing(calls: seq<Call>)
  {
    forall i, j :: 0 <= i < j < |calls| ==> calls[i].now <= calls[j].now
  }

  ghost predicate NonDecreasing(s: seq<int>)
  {
    forall i, j :: 0 <= i < j < |s| ==> s[i] <= s[j]
  }

  /**
   Extending a sequence of calls by one call: the timer's state and readings
   are those of the shorter sequence, followed by that call's effect.
   */
  lemma {:induction false} ReplayAppend(date: Option<int>, calls: seq<Call>, c: Call)
    ensures Replay(date, calls + [c]) == Step(Replay(date, calls), c)
    ensures Readings(date, calls + [c]) ==
            Readings(date, calls) + (if c.ElapsedTime? then [Elapsed(Replay(date, calls), c.now)] else [])
    decreases |calls|
  {
    if calls != [] {
      assert (calls + [c])[0] == calls[0];
      assert (calls + [c])[1..] == calls[1..] + [c];
      ReplayAppend(Step(date, calls[0]), calls[1..], c);
    } else {
      assert [c][1..] == [];
    }
  }

  /**
   A client that makes a sequence of calls on a timer, one after the other:
   the timer ends in the state the call-sequence model replays to, and the
   readings it collects are the model's readings.
   */
  method Run(timer: GestureTimer, calls: seq<Call>) returns (rs: seq<int>)
    modifies timer
    ensures timer.date == Replay(old(timer.date), calls)
    ensures rs == Readings(old(timer.date), calls)
  {
    ghost var d0 := timer.date;
    rs := [];
    var i := 0;
    while i < |calls|
      invariant 0 <= i <= |calls|
      invariant timer.date == Replay(d0, calls[..i])
      invariant rs == Readings(d0, calls[..i])
    {
      ReplayAppend(d0, calls[..i], calls[i]);
      assert calls[..i + 1] == calls[..i] + [calls[i]];
      match calls[i] {
        case Start(now) =>
          timer.Start(now);
        case ElapsedTime(now) =>
          var t := timer.ElapsedTime(now);
          rs := rs + [t];
      }
      i := i + 1;
    }
    assert calls[..i] == calls;
  }

  /** A fresh timer reads 0 at every clock value. */
  lemma FreshTimerReadsZero(now: int)
    ensures Elapsed(None, now) == 0
  {
  }

  /** Starting twice keeps the instant of the first start. */
  lemma StartIsIdempotent(date: Option<int>, first: int, second: int)
    ensures AfterStart(AfterStart(date, first), second) == AfterStart(date, first)
  {
  }

  /** Once started, no sequence of calls brings the timer back to unstarted or moves its reference instant. */
  lemma {:induction false} StartedStaysStarted(start: int, calls: seq<Call>)
    ensures Replay(Some(start), calls) == Some(start)
  {
    if calls != [] {
      StartedStaysStarted(start, calls[1..]);
    }
  }

  /** An unstarted timer on which `Start` is never called stays unstarted and reads 0 every time. */
  lemma {:induction false} NeverStartedReadsZero(calls: seq<Call>)
    requires forall i :: 0 <= i < |calls| ==> calls[i].ElapsedTime?
    ensures Replay(None, calls) == None
    ensures forall k :: 0 <= k < |Readings(None, calls)| ==> Readings(None, calls)[k] == 0
  {
    if calls != [] {
      NeverStartedReadsZero(calls[1..]);
    }
  }

  /** The reference instant of a fresh timer is the clock value of the first `Start` call. */
  lemma {:induction false} FirstStartIsReference(calls: seq<Call>, i: nat)
    requires i < |calls| && calls[i].Start?
    requires forall k :: 0 <= k < i ==> calls[k].ElapsedTime?
    ensures Replay(None, calls) == Some(calls[i].now)
  {
    if i == 0 {
      StartedStaysStarted(calls[0].now, calls[1..]);
    } else {
      FirstStartIsReference(calls[1..], i - 1);
    }
  }

  /**
   With a clock that never goes backwards, every reading taken from time `t0`
   on is at least the reading at `t0`, and that reading is non-negative.
   */
  lemma {:induction false} ReadingsBoundedBelow(date: Option<int>, calls: seq<Call>, t0: int)
    requires ClockNonDecreasing(calls)
    requires forall i :: 0 <= i < |calls| ==> t0 <= calls[i].now
    requires date.Some? ==> date.value <= t0
    ensures 0 <= Elapsed(date, t0)
    ensures forall k :: 0 <= k < |Readings(date, calls)| ==> Elapsed(date, t0) <= Readings(date, calls)[k]
    decreases |calls|
  {
    if calls != [] {
      var c := calls[0];
      var next := Step(date, c);
      ReadingsBoundedBelow(next, calls[1..], c.now);
      assert Elapsed(date, t0) <= Elapsed(next, c.now);
    }
  }

  /**
   With a clock that never goes backwards, the readings of a timer (unstarted,
   or started no later than the first call) are non-negative and never decrease.
   */
  lemma {:induction false} ReadingsNonNegativeAndNonDecreasing(date: Option<int>, calls: seq<Call>)
    requires ClockNonDecreasing(calls)
    requires date.Some? && calls != [] ==> date.value <= calls[0].now
    ensures forall k :: 0 <= k < |Readings(date, calls)| ==> 0 <= Readings(date, calls)[k]
    ensures NonDecreasing(Readings(date, calls))
    decreases |calls|
  {
    if calls != [] {
      var c := calls[0];
      var next := Step(date, c);
      ReadingsBoundedBelow(date, calls, c.now);
      ReadingsBoundedBelow(next, calls[1..], c.now);
      ReadingsNonNegativeAndNonDecreasing(next, calls[1..]);
    }
  }

  /** A client: a timer started at 0 reads 5 at time 5. */
  method StartThenRead()
  {
    var timer := new GestureTimer();
    timer.Start(0);
    var t := timer.ElapsedTime(5);
    assert t == 5;
  }

  /** A client: a second `Start` at 2 does not move the reference instant set at 0. */
  method StartTwiceThenRead()
  {
    var timer := new GestureTimer();
    timer.Start(0);
    timer.Start(2);
    var t := timer.ElapsedTime(5);
    assert t == 5;
  }

  /** A client: a timer that is never started reads 0 at any later time. */
  method NeverStartedThenRead(later: int)
  {
    var timer := new GestureTimer();
    var t := timer.ElapsedTime(later);
    assert t == 0;
  }
}
