// One timer: a task, its deadline and a single-shot clock that may go off early.
module Timers {
  import opened Domain

  type Task = string

  const TWO31: int := 0x8000_0000
  const TWO32: int := 0x1_0000_0000
  const MAX32: int := 0x7FFF_FFFF

  // A 64-bit interval handed to an int parameter.
  function Int32(x: int): int {
    var low := x % TWO32;
    if low < TWO31 then low else low - TWO32
  }

  // What is stored; armed says whether the clock is running. A negative interval does not start it.
  datatype Clockwork = Clockwork(task: Option<Task>, future: int, armed: bool)

  const IDLE_CLOCK: Clockwork := Clockwork(None, 0, false)

  class QtTimer {
    var task: Option<Task>
    var future: int
    var armed: bool

    ghost function View(): Clockwork
      reads this
    {
      Clockwork(task, future, armed)
    }

    constructor ()
      ensures View() == IDLE_CLOCK
    {
      task, future, armed := None, 0, false;
    }

    method StartClock(milliSecs: int)
      modifies this`armed
      ensures armed == (Int32(milliSecs) >= 0)
    {
      armed := Int32(milliSecs) >= 0;
    }

    method Schedule(task: Task, expireAt: int, milliSecs: int)
      modifies this
      ensures View() == Set(task, expireAt, milliSecs)
    {
      future := expireAt;
      this.task := Some(task);
      var interval := if milliSecs <= MAX32 then milliSecs else MAX32;
      StartClock(interval);
    }

    method Cancel()
      modifies this
      ensures View() == IDLE_CLOCK
    {
      armed := false;
      task := None;
      future := 0;
    }

    // The clock went off. Being single-shot it is no longer running.
    method OnExpiration(now: int) returns (ran: Option<Task>)
      modifies this
      ensures View() == Fired(old(View()), now)
      ensures ran == RunBy(old(View()), Fire(now))
    {
      armed := false;
      if now >= future {
        ran := task;
        future := 0;
      } else {
        var milliSecs := future - now + 1;
        milliSecs := if milliSecs > 0 then milliSecs else 0;
        StartClock(milliSecs);
        ran := None;
      }
    }
  }

  class Timer {
    const inner: QtTimer

    constructor ()
      ensures fresh(inner) && inner.View() == IDLE_CLOCK
    {
      inner := new QtTimer();
    }

    method Schedule(task: Task, milliSecs: int, absolute: bool, now: int)
      modifies inner
      ensures inner.View() == After1(old(inner.View()), Scheduling(task, milliSecs, absolute, now))
    {
      var future, interval := 0, milliSecs;
      if !absolute {
        future := now + milliSecs;
      } else {
        future := milliSecs;
        interval := milliSecs - now;
        if interval < 0 {
          interval := 0;
        }
      }
      inner.Schedule(task, future, interval);
    }

    method Cancel()
      modifies inner
      ensures inner.View() == IDLE_CLOCK
    {
      inner.Cancel();
    }
  }

  // ---------------------------------------------------------------- histories of one timer

  datatype Event =
    | Scheduling(task: Task, milliSecs: int, absolute: bool, now: int)
    | Cancelling
    | Fire(now: int)

  function Set(task: Task, expireAt: int, milliSecs: int): Clockwork {
    Clockwork(Some(task), expireAt, Int32(if milliSecs <= MAX32 then milliSecs else MAX32) >= 0)
  }

  // A clock just set for a deadline, or for so many milliseconds from now.
  function SetAt(task: Task, deadline: int, now: int): (c: Clockwork)
    ensures c == Clockwork(Some(task), deadline, true)
  {
    After1(IDLE_CLOCK, Scheduling(task, deadline, true, now))
  }

  function SetIn(task: Task, milliSecs: nat, now: int): (c: Clockwork)
    ensures c == Clockwork(Some(task), now + milliSecs, true)
  {
    After1(IDLE_CLOCK, Scheduling(task, milliSecs, false, now))
  }

  function Fired(c: Clockwork, now: int): Clockwork {
    if now >= c.future then Clockwork(c.task, 0, false) else Clockwork(c.task, c.future, Int32(c.future - now + 1) >= 0)
  }

  function Deadline(e: Event): int
    requires e.Scheduling?
  {
    if e.absolute then e.milliSecs else e.now + e.milliSecs
  }

  function Interval(e: Event): int
    requires e.Scheduling?
  {
    if !e.absolute then e.milliSecs else if e.milliSecs > e.now then e.milliSecs - e.now else 0
  }

  function After1(c: Clockwork, e: Event): Clockwork {
    match e
    case Scheduling(task, _, _, _) => Set(task, Deadline(e), Interval(e))
    case Cancelling => IDLE_CLOCK
    case Fire(now) => Fired(c, now)
  }

  // The task an event makes run.
  function RunBy(c: Clockwork, e: Event): Option<Task> {
    if e.Fire? && e.now >= c.future then c.task else None
  }

  function After(events: seq<Event>, n: nat): Clockwork
    requires n <= |events|
  {
    if n == 0 then IDLE_CLOCK else After1(After(events, n - 1), events[n - 1])
  }

  function Ran(events: seq<Event>, i: nat): Option<Task>
    requires i < |events|
  {
    RunBy(After(events, i), events[i])
  }

  // The clock goes off only while it is running, at any moment, early or late.
  ghost predicate Deliverable(events: seq<Event>) {
    forall i :: 0 <= i < |events| && events[i].Fire? ==> After(events, i).armed
  }

  // Schedule j is in force at i: nothing since but deliveries that ran nothing.
  ghost predicate InForce(events: seq<Event>, j: nat, i: nat)
    requires i <= |events|
  {
    && j < i && events[j].Scheduling?
    && forall k :: j < k < i ==> events[k].Fire? && Ran(events, k) == None
  }

  lemma {:induction false} ForcedState(events: seq<Event>, j: nat, i: nat)
    requires i <= |events| && InForce(events, j, i)
    ensures After(events, i).task == Some(events[j].task) && After(events, i).future == Deadline(events[j])
  {
    if i > j + 1 {
      ForcedState(events, j, i - 1);
      assert events[i - 1].Fire? && Ran(events, i - 1) == None;
    }
  }

  lemma {:induction false} ArmedIsForced(events: seq<Event>, i: nat) returns (j: nat)
    requires i <= |events| && Deliverable(events) && After(events, i).armed
    ensures InForce(events, j, i)
  {
    if events[i - 1].Scheduling? {
      j := i - 1;
    } else {
      assert events[i - 1].Fire?;
      j := ArmedIsForced(events, i - 1);
      ForcedState(events, j, i - 1);
    }
  }

  // A task runs exactly when the clock goes off at or after the deadline of the schedule in force:
  // never early, never after a cancel, a later schedule or an earlier run.
  lemma RunsExactly(events: seq<Event>, i: nat, t: Task)
    requires i < |events| && Deliverable(events)
    ensures Ran(events, i) == Some(t) <==>
      events[i].Fire? && exists j: nat :: InForce(events, j, i) && events[j].task == t && Deadline(events[j]) <= events[i].now
  {
    if events[i].Fire? {
      var j := ArmedIsForced(events, i);
      ForcedState(events, j, i);
      forall k: nat | InForce(events, k, i) ensures events[k].task == events[j].task && Deadline(events[k]) == Deadline(events[j]) {
        ForcedState(events, k, i);
      }
    }
  }

  // Between two runs there is a schedule.
  lemma RunsOnce(events: seq<Event>, i: nat, k: nat)
    requires i < k < |events| && Deliverable(events) && Ran(events, i).Some? && Ran(events, k).Some?
    ensures exists j :: i < j < k && events[j].Scheduling?
  {
    RunsExactly(events, k, Ran(events, k).value);
    var j: nat :| InForce(events, j, k) && events[j].task == Ran(events, k).value && Deadline(events[j]) <= events[k].now;
    hide After;
    assert j > i;
  }

  // ---------------------------------------------------------------- does the clock keep running?

  lemma AfterNext(events: seq<Event>, i: nat)
    requires i < |events|
    ensures After(events, i + 1) == After1(After(events, i), events[i])
  {
  }

  // An early delivery starts the clock again, unless what is left, cut to 32 bits, is negative.
  lemma RunningAfterEarly(events: seq<Event>, j: nat, i: nat)
    requires i < |events| && InForce(events, j, i)
    requires events[i].Fire? && events[i].now < Deadline(events[j])
    ensures After(events, i + 1).armed <==> Int32(Deadline(events[j]) - events[i].now + 1) >= 0
  {
    ForcedState(events, j, i);
    AfterNext(events, i);
    assert events[j].Scheduling?;
    hide After, InForce, Int32;
  }

  // A schedule followed by early deliveries only, on a clock that does not go backwards.
  ghost predicate EarlyOnly(events: seq<Event>, e: Event) {
    && e.Scheduling? && |events| >= 2 && events[0] == e
    && forall i :: 1 <= i < |events| ==>
         events[i].Fire? && TimeOf(events[i - 1]) <= TimeOf(events[i]) < Deadline(e)
  }

  function TimeOf(e: Event): int {
    if e.Cancelling? then 0 else e.now
  }

  lemma {:induction false} EarlyRunsNothing(events: seq<Event>, e: Event, i: nat)
    requires EarlyOnly(events, e) && 1 <= i <= |events|
    ensures InForce(events, 0, i)
  {
    if i > 1 {
      assert events[i - 1].Fire? && TimeOf(events[i - 1]) < Deadline(e) && events[0] == e;
      EarlyRunsNothing(events, e, i - 1);
      hide EarlyOnly;
      StillInForce(events, 0, i - 1);
    }
  }

  lemma StillInForce(events: seq<Event>, j: nat, i: nat)
    requires i < |events| && InForce(events, j, i) && events[i].Fire? && events[i].now < Deadline(events[j])
    ensures InForce(events, j, i + 1)
  {
    ForcedState(events, j, i);
    hide After;
  }

  lemma {:induction false} TimesGrow(events: seq<Event>, e: Event, i: nat)
    requires EarlyOnly(events, e) && 1 <= i < |events|
    ensures e.now <= TimeOf(events[i])
  {
    assert TimeOf(events[i - 1]) <= TimeOf(events[i]);
    if i > 1 { TimesGrow(events, e, i - 1); }
  }

  // No early delivery ever loses a schedule if and only if its interval is below 2^31 - 1 ms.
  lemma NeverLostIff(e: Event)
    requires e.Scheduling?
    ensures (forall events :: EarlyOnly(events, e) && Deliverable(events) ==> After(events, |events|).armed) <==>
      Interval(e) < MAX32
  {
    if Interval(e) < MAX32 {
      forall events | EarlyOnly(events, e) && Deliverable(events) ensures After(events, |events|).armed {
        NearDeadlineKept(events, e);
      }
    } else {
      FarDeadlineLost(e);
    }
  }

  lemma NearDeadlineKept(events: seq<Event>, e: Event)
    requires EarlyOnly(events, e) && Interval(e) < MAX32
    ensures After(events, |events|).armed
  {
    var n := |events| - 1;
    assert events[n].Fire? && TimeOf(events[n]) < Deadline(e);
    EarlyRunsNothing(events, e, n);
    TimesGrow(events, e, n);
    RunningAfterEarly(events, 0, n);
    hide After, InForce, EarlyOnly;
  }

  // A deadline further away is lost by a delivery 2^31 - 1 ms before it.
  lemma FarDeadlineLost(e: Event)
    requires e.Scheduling? && Interval(e) >= MAX32
    ensures var events := [e, Fire(Deadline(e) - MAX32)];
      EarlyOnly(events, e) && Deliverable(events) && !After(events, 2).armed
  {
    var events := [e, Fire(Deadline(e) - MAX32)];
    assert After(events, 1) == Set(e.task, Deadline(e), Interval(e)) && After(events, 1).armed;
    assert EarlyOnly(events, e);
    EarlyRunsNothing(events, e, 1);
    RunningAfterEarly(events, 0, 1);
    assert Int32(MAX32 + 1) < 0;
  }
}
