/**
 The Windows run loop's timers: the deadline map, re-entrant callbacks that may
 schedule, unschedule and pump messages again, and the native wake-up.

 What the callbacks do in one execution is given by a script: the finitely many
 scheduler operations they perform, in order. When the script is used up, the
 observation ends, so a script stands for a prefix of an execution.
 */
module Win32Scheduler {
  import opened Wrappers
  import opened TimerLog

  const NANOS_PER_MILLI := 1_000_000
  const U32_LIMIT := 0x1_0000_0000
  const ONE_HOUR: nat := 60 * 60 * 1_000_000_000

  /** What a running callback does next. */
  datatype Action =
    | ScheduleIn(delay: nat)
    | UnscheduleHandle(h: Handle)
    | PumpTimer          // a nested message loop dispatches WM_TIMER
    | Return             // the callback is done

  /** The scheduler calls that the log shows, in order: a handle for `unschedule`, None for `schedule`. */
  function Calls(log: seq<Event>): seq<Option<Handle>> {
    if log == [] then []
    else
      var last := log[|log| - 1];
      Calls(log[..|log| - 1]) + (if last.Scheduled? then [None] else if last.Unscheduled? then [Some(last.h)] else [])
  }

  /** The scheduler calls that the script asks for, in order. */
  function Asked(script: seq<Action>): seq<Option<Handle>> {
    if script == [] then []
    else
      var last := script[|script| - 1];
      Asked(script[..|script| - 1])
      + (if last.ScheduleIn? then [None] else if last.UnscheduleHandle? then [Some(last.h)] else [])
  }

  /** How many callbacks have started. */
  function Fires(log: seq<Event>): nat {
    if log == [] then 0 else Fires(log[..|log| - 1]) + if log[|log| - 1].Fired? then 1 else 0
  }

  /** How many have returned. */
  function Returns(script: seq<Action>): nat {
    if script == [] then 0 else Returns(script[..|script| - 1]) + if script[|script| - 1] == Return then 1 else 0
  }

  /**
   `rest` is what is left of the script, and the calls logged after `before` are exactly those
   of the part that is used up. Unless the observation ends, every callback that started
   meanwhile has returned, and `own` callbacks that had started before.
   */
  ghost predicate Follows(script: seq<Action>, rest: seq<Action>, before: seq<Event>, log: seq<Event>, own: int) {
    && |rest| <= |script| && rest == script[|script| - |rest|..]
    && var used := script[..|script| - |rest|];
       Calls(log) == Calls(before) + Asked(used)
       && (rest != [] ==> Returns(used) == Fires(log) - Fires(before) + own)
  }

  lemma {:induction false} AskedConcat(a: seq<Action>, b: seq<Action>)
    ensures Asked(a + b) == Asked(a) + Asked(b)
  {
    if b == [] {
      assert a + b == a;
    } else {
      assert (a + b)[..|a + b| - 1] == a + b[..|b| - 1];
      AskedConcat(a, b[..|b| - 1]);
    }
  }

  lemma {:induction false} ReturnsConcat(a: seq<Action>, b: seq<Action>)
    ensures Returns(a + b) == Returns(a) + Returns(b)
  {
    if b == [] {
      assert a + b == a;
    } else {
      assert (a + b)[..|a + b| - 1] == a + b[..|b| - 1];
      ReturnsConcat(a, b[..|b| - 1]);
    }
  }

  lemma CallsPush(log: seq<Event>, e: Event)
    ensures Calls(log + [e]) ==
              Calls(log) + (if e.Scheduled? then [None] else if e.Unscheduled? then [Some(e.h)] else [])
    ensures Fires(log + [e]) == Fires(log) + if e.Fired? then 1 else 0
  {
    assert (log + [e])[..|log|] == log;
  }

  lemma FollowsNothing(script: seq<Action>, log: seq<Event>)
    ensures Follows(script, script, log, log, 0)
  {
    assert script[..0] == [];
  }

  /** One stretch of the script after another. */
  lemma FollowsOn(script: seq<Action>, mid: seq<Action>, rest: seq<Action>,
                  before: seq<Event>, between: seq<Event>, log: seq<Event>, own: int, more: int)
    requires Follows(script, mid, before, between, own) && Follows(mid, rest, between, log, more)
    ensures Follows(script, rest, before, log, own + more)
  {
    var used, next := script[..|script| - |mid|], mid[..|mid| - |rest|];
    assert script[..|script| - |rest|] == used + next;
    AskedConcat(used, next);
    ReturnsConcat(used, next);
  }

  /** A callback that starts owes its own return. */
  lemma FollowsFired(script: seq<Action>, rest: seq<Action>, before: seq<Event>, e: Event, log: seq<Event>)
    requires e.Fired? && Follows(script, rest, before + [e], log, 1)
    ensures Follows(script, rest, before, log, 0)
  {
    CallsPush(before, e);
  }

  /** A single action, which is not a pump, with the call it makes. */
  lemma FollowsAction(script: seq<Action>, before: seq<Event>, log: seq<Event>)
    requires script != [] && Calls(log) == Calls(before) + Asked([script[0]]) && Fires(log) == Fires(before)
    ensures Follows(script, script[1..], before, log, if script[0] == Return then 1 else 0)
  {
    assert script[..1] == [script[0]];
    assert [script[0]][..0] == [];
  }

  /** The native timer: armed at `when` to go off at `fire`. */
  datatype WakeUp = WakeUp(when: Instant, fire: Instant)

  class State {
    var now: Instant                       // what the monotone clock shows
    var nextHandle: Handle
    var timers: map<Handle, Instant>       // deadlines; the callbacks' behaviour is in the script
    var armed: Option<WakeUp>
    ghost var armings: nat                 // how often the wake-up was armed
    ghost var log: seq<Event>

    /** The wake-up is never later than it was armed or than the earliest deadline. */
    ghost predicate WakesInTime()
      reads this
    {
      timers != map[] ==>
        armed.Some? && forall h | h in timers :: armed.value.fire <= Max(armed.value.when, timers[h])
    }

    ghost predicate Valid()
      reads this
    {
      && Legal(log) && NeverExtracts(log) && timers == Registered(log)
      && (forall h | h in Known(log) :: h < nextHandle)
      && (forall h | h in timers :: h < nextHandle)
      && WakesInTime()
    }

    /** What any number of operations leave true of the timers that were there before them. */
    twostate predicate Evolved()
      reads this
    {
      && old(now) <= now && old(nextHandle) <= nextHandle && old(log) <= log && old(armings) <= armings
      && forall h | h in timers && h < old(nextHandle) :: h in old(timers) && timers[h] == old(timers)[h]
    }

    constructor (start: Instant)
      ensures Valid() && now == start && timers == map[] && log == []
    {
      now, nextHandle, timers, armed, armings, log := start, 1, map[], None, 0, [];
    }

    /** The wake-up is armed for `time`: never later, at once if it has passed, and in range less than a millisecond early. */
    ghost predicate ArmedFor(time: Instant)
      reads this
    {
      && armed.Some? && armed.value.when == now && armed.value.fire <= Max(now, time)
      && (time <= now ==> armed.value.fire == now)
      && (now < time < now + U32_LIMIT * NANOS_PER_MILLI ==> time - NANOS_PER_MILLI < armed.value.fire)
    }

    /** The earliest deadline, or an hour from a clock reading between `since` and now. */
    ghost predicate IsNext(time: Instant, since: Instant)
      reads this
    {
      && (forall h | h in timers :: time <= timers[h])
      && if timers == map[] then since + ONE_HOUR <= time <= now + ONE_HOUR else exists h :: h in timers && timers[h] == time
    }

    /** The wake-up is armed, last of all, for the next timer. */
    twostate predicate Rearmed()
      reads this
    {
      old(armings) < armings && exists time: Instant :: IsNext(time, old(now)) && ArmedFor(time)
    }

    /** `Instant::now()`: some time may have passed. */
    method Now() returns (t: Instant)
      modifies this`now
      ensures t == now && old(now) <= now
    {
      var passed: nat :| true;
      now := now + passed;
      t := now;
    }

    /** `wake_up_at`: whole milliseconds, truncated to 32 bits. */
    method WakeUpAt(time: Instant)
      modifies this`now, this`armed, this`armings
      ensures old(now) <= now
      ensures armings == old(armings) + 1 && ArmedFor(time)
    {
      var n := Now();
      var wait := if time > n then time - n else 0;
      var millis := (wait / NANOS_PER_MILLI) % U32_LIMIT;
      armed := Some(WakeUp(n, n + millis * NANOS_PER_MILLI));
      armings := armings + 1;
    }

    /** `next_timer`: the earliest deadline, or an hour from now. */
    method NextTimer() returns (next: Instant)
      modifies this`now
      ensures old(now) <= now
      ensures IsNext(next, now)
    {
      var n := Now();
      next := n + ONE_HOUR;
      var left := timers.Keys;
      var found := false;
      while left != {}
        invariant left <= timers.Keys
        invariant found <==> left != timers.Keys
        invariant forall h | h in timers && h !in left :: next <= timers[h]
        invariant if found then exists h :: h in timers && timers[h] == next else next == n + ONE_HOUR
        decreases left
      {
        var h :| h in left;
        if !found || timers[h] < next {
          next := timers[h];
        }
        found := true;
        left := left - {h};
      }
    }

    ghost method Append(e: Event)
      requires Legal(log) && NeverExtracts(log) && MayAppend(log, e) && !e.Extracted?
      modifies this`log
      ensures log == old(log) + [e] && Legal(log) && NeverExtracts(log)
      ensures Known(log) == Known(old(log)) + (if e.Scheduled? then {e.h} else {})
      ensures Registered(log) ==
                (if e.Scheduled? then Registered(old(log))[e.h := e.deadline] else Registered(old(log)) - {e.h})
    {
      AppendKeepsLegal(log, e);
      log := log + [e];
    }

    method Schedule(delay: nat) returns (handle: Handle)
      requires Valid()
      modifies this
      ensures Valid() && Evolved() && Rearmed()
      ensures handle == old(nextHandle) && nextHandle == handle + 1
      ensures handle in timers && timers == old(timers)[handle := timers[handle]]
      ensures old(now) + delay <= timers[handle] <= now + delay
      ensures log == old(log) + [Scheduled(handle, timers[handle])]
    {
      handle := nextHandle;
      nextHandle := handle + 1;
      var t := Now();
      timers := timers[handle := t + delay];
      Append(Scheduled(handle, t + delay));
      var next := NextTimer();
      WakeUpAt(next);
    }

    /** Other timers are left alone; for a handle that has fired, that is all of them. */
    method Unschedule(handle: Handle)
      requires Valid()
      modifies this
      ensures Valid() && Evolved() && Rearmed()
      ensures timers == old(timers) - {handle} && nextHandle == old(nextHandle)
      ensures log == old(log) + [Unscheduled(handle)]
    {
      timers := timers - {handle};
      Append(Unscheduled(handle));
      var next := NextTimer();
      WakeUpAt(next);
    }

    /** The handles whose deadline has passed, in no particular order. */
    method CollectDue(t: Instant) returns (due: seq<Handle>)
      ensures forall h | h in due :: h in timers && timers[h] <= t
      ensures forall h | h in timers && timers[h] <= t :: h in due
    {
      due := [];
      var left := timers.Keys;
      while left != {}
        invariant left <= timers.Keys
        invariant forall h | h in due :: h in timers && timers[h] <= t
        invariant forall h | h in timers && timers[h] <= t :: h in due || h in left
        decreases left
      {
        var h :| h in left;
        if timers[h] <= t {
          due := due + [h];
        }
        left := left - {h};
      }
    }

    /** The wake-up was armed meanwhile for the next timer, last of all, and unless the observation ends nothing is left that was due at first. */
    twostate predicate Attended(rest: seq<Action>)
      reads this
    {
      && Rearmed()
      && (rest != [] ==> forall h | h in timers :: timers[h] > old(now))
    }

    /** The action is taken: the call is made with its own arguments, or the native message is handled. */
    twostate predicate Acted(action: Action, rest: seq<Action>, others: seq<Action>)
      reads this
    {
      match action
      case ScheduleIn(delay) =>
        && rest == others && old(nextHandle) in timers && Rearmed()
        && log == old(log) + [Scheduled(old(nextHandle), timers[old(nextHandle)])]
        && old(now) + delay <= timers[old(nextHandle)] <= now + delay
      case UnscheduleHandle(h) => rest == others && log == old(log) + [Unscheduled(h)] && Rearmed()
      case PumpTimer => Attended(rest)
      case Return => rest == others && log == old(log) && timers == old(timers) && armed == old(armed)
    }

    /** A running callback does the next thing in the script. */
    method Act(script: seq<Action>) returns (rest: seq<Action>)
      requires Valid() && script != []
      modifies this
      ensures Valid() && Evolved() && |rest| < |script|
      ensures Follows(script, rest, old(log), log, if script[0] == Return then 1 else 0)
      ensures Acted(script[0], rest, script[1..])
      decreases |script|, 0
    {
      rest := script[1..];
      match script[0]
      case ScheduleIn(delay) =>
        var h := Schedule(delay);
        CallsPush(old(log), log[|log| - 1]);
        FollowsAction(script, old(log), log);
      case UnscheduleHandle(h) =>
        Unschedule(h);
        CallsPush(old(log), Unscheduled(h));
        FollowsAction(script, old(log), log);
      case PumpTimer =>
        rest := OnTimer(rest);
        FollowsAction(script, old(log), old(log));
        FollowsOn(script, script[1..], rest, old(log), old(log), log, 0, 0);
      case Return =>
        FollowsAction(script, log, log);
    }

    /**
     One timer callback runs: whatever the script has it do, up to its return.
     It must do at least that, so the script gets shorter.
     */
    method RunCallback(script: seq<Action>) returns (rest: seq<Action>)
      requires Valid() && script != []
      modifies this
      ensures Valid() && Evolved() && Follows(script, rest, old(log), log, 1) && |rest| < |script|
      decreases |script|, 1
    {
      rest := script;
      var running := true;
      FollowsNothing(script, log);
      while running && rest != []
        invariant Valid() && Evolved() && Follows(script, rest, old(log), log, if running then 0 else 1)
        invariant !running ==> |rest| < |script|
        decreases |rest|
      {
        ghost var mid, soFar := rest, log;
        running := rest[0] != Return;
        rest := Act(rest);
        FollowsOn(script, mid, rest, old(log), soFar, log, 0, if running then 0 else 1);
      }
    }

    /**
     The drain loop: collect what is due, fire what of it is still there, and look
     again until nothing is due. Unless the observation ends first, everything
     that was due on entry has then fired or been unscheduled.
     */
    method ProcessTimers(script: seq<Action>) returns (next: Instant, rest: seq<Action>)
      requires Valid()
      modifies this
      ensures Valid() && Evolved() && Follows(script, rest, old(log), log, 0)
      ensures rest != [] ==> forall h | h in timers :: timers[h] > old(now)
      ensures IsNext(next, now)
      decreases |script|, 5
    {
      rest := script;
      FollowsNothing(script, log);
      while rest != []
        invariant Valid() && Evolved() && Follows(script, rest, old(log), log, 0)
        decreases |rest|
      {
        ghost var mid, soFar := rest, log;
        var t := Now();
        var due := CollectDue(t);
        if due == [] {
          break;
        }
        rest := FireDue(due, rest);
        FollowsOn(script, mid, rest, old(log), soFar, log, 0, 0);
      }
      next := NextTimer();
    }

    /** Of these handles, those still registered are due. */
    ghost predicate PastDue(due: seq<Handle>)
      reads this
    {
      forall k | 0 <= k < |due| :: due[k] < nextHandle && (due[k] in timers ==> timers[due[k]] <= now)
    }

    /** Time only makes them more so, and what is gone stays gone. */
    twostate lemma StaysPastDue(due: seq<Handle>)
      requires old(PastDue(due)) && Evolved()
      ensures PastDue(due)
      ensures forall k | 0 <= k < |due| && due[k] !in old(timers) :: due[k] !in timers
    {
    }

    /** One timer leaves the map and its callback runs. */
    method Fire(handle: Handle, script: seq<Action>) returns (rest: seq<Action>)
      requires Valid() && script != [] && handle in timers && timers[handle] <= now
      modifies this
      ensures Valid() && Evolved() && Follows(script, rest, old(log), log, 0) && |rest| < |script|
      ensures old(log) + [Fired(handle, old(now))] <= log && handle !in timers
      decreases |script|, 2
    {
      timers := timers - {handle};
      Append(Fired(handle, now));
      rest := RunCallback(script);
      FollowsFired(script, rest, old(log), Fired(handle, old(now)), log);
    }

    /** Entry `i` of a batch: it fires if it is still there. */
    method FireNext(due: seq<Handle>, i: nat, script: seq<Action>) returns (rest: seq<Action>)
      requires Valid() && script != [] && PastDue(due) && i < |due|
      modifies this
      ensures Valid() && Evolved() && PastDue(due) && Follows(script, rest, old(log), log, 0)
      ensures if due[i] in old(timers) then |rest| < |script| && old(log) + [Fired(due[i], old(now))] <= log
              else rest == script && log == old(log)
      ensures due[i] !in timers && forall k | 0 <= k < |due| && due[k] !in old(timers) :: due[k] !in timers
      decreases |script|, 3
    {
      rest := script;
      FollowsNothing(script, log);
      if due[i] in timers {
        rest := Fire(due[i], script);
        StaysPastDue(due);
      }
    }

    /** One batch of the drain loop: its first timer fires, and every other that is still there when its turn comes. */
    method FireDue(due: seq<Handle>, script: seq<Action>) returns (rest: seq<Action>)
      requires Valid() && script != []
      requires due != [] && forall k | 0 <= k < |due| :: due[k] in timers && timers[due[k]] <= now
      modifies this
      ensures Valid() && Evolved() && Follows(script, rest, old(log), log, 0) && |rest| < |script|
      ensures rest != [] ==> forall k | 0 <= k < |due| :: due[k] !in timers
      decreases |script|, 4
    {
      assert PastDue(due);
      rest := FireNext(due, 0, script);
      var i := 1;
      while i < |due| && rest != []
        invariant 1 <= i <= |due| && Valid() && Evolved() && PastDue(due)
        invariant Follows(script, rest, old(log), log, 0) && |rest| < |script|
        invariant forall k | 0 <= k < i :: due[k] !in timers
      {
        ghost var mid, soFar := rest, log;
        rest := FireNext(due, i, rest);
        FollowsOn(script, mid, rest, old(log), soFar, log, 0, 0);
        i := i + 1;
      }
    }

    /** WM_TIMER */
    method OnTimer(script: seq<Action>) returns (rest: seq<Action>)
      requires Valid()
      modifies this
      ensures Valid() && Evolved() && Follows(script, rest, old(log), log, 0) && Attended(rest)
      decreases |script|, 6
    {
      var next;
      next, rest := ProcessTimers(script);
      WakeUpAt(next);
    }
  }

  /**
   Firing safety, read off any log that the scheduler can produce: every callback
   fires at most once, not before its deadline, and not after it was unscheduled,
   even if its handle was already in the batch being fired.
   */
  lemma FiringSafety(log: seq<Event>, i: nat)
    requires Legal(log) && NeverExtracts(log)
    requires i < |log| && log[i].Fired?
    ensures exists j: nat, d: nat :: WaitsSince(log, j, i, log[i].h, d) && d <= log[i].at
    ensures forall k: nat | k < |log| && log[k].Fired? && log[k].h == log[i].h :: k == i
    ensures forall k: nat | k < i && log[k] == Unscheduled(log[i].h) :: log[i].h !in Known(log[..k])
  {
    NeverBeforeDeadline(log, i);
    forall k: nat | k < |log| && log[k].Fired? && log[k].h == log[i].h ensures k == i {
      if k < i {
        FiresAtMostOnce(log, k, i);
      } else if i < k {
        FiresAtMostOnce(log, i, k);
      }
    }
    forall k: nat | k < i && log[k] == Unscheduled(log[i].h) ensures log[i].h !in Known(log[..k]) {
      if log[i].h in Known(log[..k]) {
        UnscheduleStopsUnlessExtracted(log, k, i);
        NothingTakenWithoutExtraction(log[..k]);
      }
    }
  }
}
