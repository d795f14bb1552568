/**
 Spawned tasks: the poll that a wake posts to the run loop, joining, aborting,
 and the list of weak references through which shutdown reaches every task.
 */
module Tasks {
  import opened Wrappers

  type Value = int

  /** What polling the future does when the executor gets there. */
  datatype PollOutcome = Pending | Ready(value: Value) | Panics

  /** Result<T, JoinError> */
  datatype JoinResult = Finished(value: Value) | Aborted | Panicked

  /** `future` is whether the future is still stored, `waker` whether a joiner is parked. */
  datatype TaskState = TaskState(future: bool, value: Option<JoinResult>, waker: bool, aborted: bool)

  const NEW_TASK := TaskState(true, None, false, false)

  datatype Event =
    | Wake(outcome: PollOutcome)   // the closure posted by a wake runs; `outcome` is what a poll would do
    | Join                         // JoinHandle::poll
    | Abort                        // JoinHandle::abort, or shutdown

  /** What an event lets an observer see. */
  datatype Obs =
    | Quiet
    | Polled(outcome: PollOutcome)
    | Joined(result: JoinResult)
    | Parked

  datatype Effect = Effect(task: TaskState, obs: Obs, woke: bool)

  /** `Task::poll`: the outcome as a join result, None while pending. */
  function PollResult(t: TaskState, outcome: PollOutcome): Option<JoinResult> {
    if t.aborted || !t.future then Some(Aborted)
    else match outcome
      case Pending => None
      case Ready(v) => Some(Finished(v))
      case Panics => Some(Panicked)
  }

  /** The closure that `wake_by_ref` posts to the run loop. */
  function OnWake(t: TaskState, outcome: PollOutcome): Effect {
    var polls := t.value.None? && !t.aborted;
    var t1 := if polls && PollResult(t, outcome).Some? then t.(value := PollResult(t, outcome)) else t;
    var woke := (t1.value.Some? || t1.aborted) && t1.waker;
    Effect(if woke then t1.(waker := false) else t1, if polls && t.future then Polled(outcome) else Quiet, woke)
  }

  function OnJoin(t: TaskState): Effect {
    if t.aborted then Effect(t, Joined(Aborted), false)
    else if t.value.Some? then Effect(t.(value := None), Joined(t.value.value), false)
    else Effect(t.(waker := true), Parked, false)
  }

  function OnAbort(t: TaskState): Effect {
    Effect(t.(aborted := true, future := false), Quiet, false)
  }

  function On(t: TaskState, e: Event): Effect {
    match e
    case Wake(outcome) => OnWake(t, outcome)
    case Join => OnJoin(t)
    case Abort => OnAbort(t)
  }

  /** The task after the events, and what each of them showed. */
  function After(t: TaskState, events: seq<Event>): TaskState
  {
    if events == [] then t else On(After(t, events[..|events| - 1]), events[|events| - 1]).task
  }

  /** What event `i` does in its place. */
  function EffectAt(events: seq<Event>, i: nat): Effect
    requires i < |events|
  {
    On(After(NEW_TASK, events[..i]), events[i])
  }

  /** Event `i` polled the future and the future completed with `r`. */
  predicate Completes(events: seq<Event>, i: nat, r: JoinResult)
    requires i < |events|
  {
    var o := EffectAt(events, i).obs;
    o.Polled? && ((o.outcome == Panics && r == Panicked) || (o.outcome.Ready? && r == Finished(o.outcome.value)))
  }

  /** Event `i` handed the joiner the result `r`. */
  predicate Collects(events: seq<Event>, i: nat, r: JoinResult)
    requires i < |events|
  {
    EffectAt(events, i).obs == Joined(r)
  }

  ghost predicate AbortedBy(events: seq<Event>, n: nat)
    requires n <= |events|
  {
    exists i :: 0 <= i < n && events[i] == Abort
  }

  lemma AfterPrefix(events: seq<Event>, n: nat)
    requires n < |events|
    ensures After(NEW_TASK, events[..n + 1]) == EffectAt(events, n).task
  {
    assert events[..n + 1][..n] == events[..n];
  }

  /** The task knows whether it was aborted, and an uncollected result excludes a parked joiner. */
  ghost predicate Good(events: seq<Event>, n: nat)
    requires n <= |events|
  {
    var t := After(NEW_TASK, events[..n]);
    && (t.aborted <==> AbortedBy(events, n))
    && (t.aborted <==> !t.future)
    && !(t.value.Some? && t.waker)
    && t.value != Some(Aborted)
  }

  lemma {:induction false} AlwaysGood(events: seq<Event>, n: nat)
    requires n <= |events|
    ensures Good(events, n)
  {
    if n > 0 {
      AlwaysGood(events, n - 1);
      AfterPrefix(events, n - 1);
    }
  }

  /** Between run loop steps an uncollected result never coexists with a parked joiner. */
  lemma {:induction false} ResultExcludesParkedJoiner(events: seq<Event>)
    ensures var t := After(NEW_TASK, events); !(t.value.Some? && t.waker)
  {
    AlwaysGood(events, |events|);
    assert events[..|events|] == events;
  }

  /** After an abort the future is never polled and every join poll resolves to Aborted. */
  lemma AbortIsFinal(events: seq<Event>, i: nat)
    requires i < |events| && AbortedBy(events, i)
    ensures !EffectAt(events, i).obs.Polled?
    ensures events[i] == Join ==> EffectAt(events, i).obs == Joined(Aborted)
  {
    AlwaysGood(events, i);
  }

  /** No completion among the first `n` events. */
  ghost predicate NoneCompletes(events: seq<Event>, n: nat)
    requires n <= |events|
  {
    forall i, r | 0 <= i < n :: !Completes(events, i, r)
  }

  ghost predicate NoneCollects(events: seq<Event>, n: nat)
    requires n <= |events|
  {
    forall i, r | 0 <= i < n :: !Collects(events, i, r)
  }

  /** Before anything was collected, the stored value is exactly the first completion. */
  ghost predicate StoresFirst(events: seq<Event>, n: nat)
    requires n <= |events|
  {
    var t := After(NEW_TASK, events[..n]);
    NoneCollects(events, n) ==>
      match t.value
      case None => NoneCompletes(events, n)
      case Some(r) => exists i :: 0 <= i < n && Completes(events, i, r) && NoneCompletes(events, i)
  }

  lemma {:induction false} AlwaysStoresFirst(events: seq<Event>, n: nat)
    requires n <= |events|
    ensures StoresFirst(events, n)
  {
    if n > 0 && NoneCollects(events, n) {
      AlwaysStoresFirst(events, n - 1);
      AlwaysGood(events, n - 1);
      AfterPrefix(events, n - 1);
      var before := After(NEW_TASK, events[..n - 1]).value;
      var now := EffectAt(events, n - 1);
      assert now.obs.Joined? ==> Collects(events, n - 1, now.obs.result);
      if now.task.value.None? {
        assert before.None?;
      } else if before.None? {
        assert Completes(events, n - 1, now.task.value.value);
      } else {
        var i :| 0 <= i < n - 1 && Completes(events, i, before.value) && NoneCompletes(events, i);
        assert now.task.value == before;
      }
    }
  }

  /** The first result a joiner gets, unless the task was aborted, is the first one the future produced. */
  lemma FirstJoinIsFirstCompletion(events: seq<Event>, j: nat, r: JoinResult)
    requires j < |events| && Collects(events, j, r) && NoneCollects(events, j)
    ensures r == Aborted <==> AbortedBy(events, j)
    ensures r != Aborted ==> exists i :: 0 <= i < j && Completes(events, i, r) && NoneCompletes(events, i)
  {
    AlwaysGood(events, j);
    AlwaysStoresFirst(events, j);
  }

  /** Completions minus collections among the first `n` events. */
  function Uncollected(events: seq<Event>, n: nat): int
    requires n <= |events|
  {
    if n == 0 then 0
    else
      var o := EffectAt(events, n - 1).obs;
      Uncollected(events, n - 1)
      + (if o.Polled? && o.outcome != Pending then 1 else 0)
      - (if o.Joined? && o.result != Aborted then 1 else 0)
  }

  lemma {:induction false} UncollectedIsStored(events: seq<Event>, n: nat)
    requires n <= |events|
    ensures Uncollected(events, n) == if After(NEW_TASK, events[..n]).value.Some? then 1 else 0
  {
    if n > 0 {
      UncollectedIsStored(events, n - 1);
      AlwaysGood(events, n - 1);
      AfterPrefix(events, n - 1);
    }
  }

  /**
   A wake polls the future exactly when the task was not aborted and every
   completion so far has been collected: so a finished future is polled again by
   a stale wake as soon as its value was joined.
   */
  lemma WhenAWakePolls(events: seq<Event>, i: nat)
    requires i < |events| && events[i].Wake?
    ensures EffectAt(events, i).obs.Polled? <==> !AbortedBy(events, i) && Uncollected(events, i) == 0
  {
    AlwaysGood(events, i);
    UncollectedIsStored(events, i);
  }

  /** A poll is by a wake, and its outcome is what the future does then; a wake that leaves the task pending wakes nobody. */
  lemma WhatAWakeDoes(events: seq<Event>, i: nat)
    requires i < |events|
    ensures EffectAt(events, i).obs.Polled? ==> events[i] == Wake(EffectAt(events, i).obs.outcome)
    ensures EffectAt(events, i).woke ==>
              events[i].Wake? && (EffectAt(events, i).task.value.Some? || EffectAt(events, i).task.aborted)
    ensures EffectAt(events, i).woke ==> JoinerWaits(events, i)
  {
    WakerIsWaitingJoiner(events, i);
  }

  /** `i` completed with `r`, and since then nothing was completed or collected. */
  ghost predicate LatestCompletion(events: seq<Event>, i: nat, n: nat, r: JoinResult)
    requires n <= |events|
  {
    && i < n && Completes(events, i, r)
    && (forall k, q | i < k < n :: !Completes(events, k, q))
    && (forall k, q | i < k < n && q != Aborted :: !Collects(events, k, q))
  }

  /** An event that leaves a stored result in place neither completes nor collects anything. */
  lemma KeptIsQuiet(events: seq<Event>, n: nat)
    requires n < |events| && After(NEW_TASK, events[..n]).value.Some? && EffectAt(events, n).task.value.Some?
    ensures EffectAt(events, n).task.value == After(NEW_TASK, events[..n]).value
    ensures forall q :: !Completes(events, n, q) && (q != Aborted ==> !Collects(events, n, q))
  {
  }

  lemma LatestStays(events: seq<Event>, i: nat, n: nat, r: JoinResult)
    requires n < |events| && LatestCompletion(events, i, n, r)
    requires forall q :: !Completes(events, n, q) && (q != Aborted ==> !Collects(events, n, q))
    ensures LatestCompletion(events, i, n + 1, r)
  {
  }

  lemma {:induction false} StoredIsLatest(events: seq<Event>, n: nat)
    requires n <= |events| && After(NEW_TASK, events[..n]).value.Some?
    ensures exists i: nat :: LatestCompletion(events, i, n, After(NEW_TASK, events[..n]).value.value)
  {
    var r := After(NEW_TASK, events[..n]).value.value;
    AlwaysGood(events, n - 1);
    AfterPrefix(events, n - 1);
    if After(NEW_TASK, events[..n - 1]).value.None? {
      assert LatestCompletion(events, n - 1, n, r);
    } else {
      KeptIsQuiet(events, n - 1);
      StoredIsLatest(events, n - 1);
      var i: nat :| LatestCompletion(events, i, n - 1, r);
      LatestStays(events, i, n - 1, r);
    }
  }

  /** Every join of a task that was not aborted gets the latest completion, once. */
  lemma CollectedIsLatest(events: seq<Event>, j: nat, r: JoinResult)
    requires j < |events| && Collects(events, j, r) && r != Aborted
    ensures exists i: nat :: LatestCompletion(events, i, j, r)
  {
    AlwaysGood(events, j);
    StoredIsLatest(events, j);
  }

  /** The stale poll in the flesh: a joined task is polled again and its joiner sees a second result. */
  lemma StaleWakeRepolls(v: Value)
    ensures var events := [Wake(Ready(v)), Join, Wake(Panics), Join];
      && Completes(events, 0, Finished(v)) && Collects(events, 1, Finished(v))
      && Completes(events, 2, Panicked) && Collects(events, 3, Panicked)
  {
    var events := [Wake(Ready(v)), Join, Wake(Panics), Join];
    AfterPrefix(events, 0);
    AfterPrefix(events, 1);
    AfterPrefix(events, 2);
  }

  /** A join poll has parked and nothing has woken it since. */
  predicate JoinerWaits(events: seq<Event>, n: nat)
    requires n <= |events|
  {
    n > 0 && (EffectAt(events, n - 1).obs == Parked || (JoinerWaits(events, n - 1) && !EffectAt(events, n - 1).woke))
  }

  lemma {:induction false} WakerIsWaitingJoiner(events: seq<Event>, n: nat)
    requires n <= |events|
    ensures After(NEW_TASK, events[..n]).waker <==> JoinerWaits(events, n)
  {
    if n > 0 {
      WakerIsWaitingJoiner(events, n - 1);
      AlwaysGood(events, n - 1);
      AfterPrefix(events, n - 1);
    }
  }

  /** The wake that completes the future wakes the joiner exactly if one waits, and leaves the result for it. */
  lemma CompletionWakesJoiner(events: seq<Event>, i: nat, r: JoinResult)
    requires i < |events| && Completes(events, i, r)
    ensures EffectAt(events, i).woke <==> JoinerWaits(events, i)
    ensures EffectAt(events, i).task.value == Some(r)
  {
    WakerIsWaitingJoiner(events, i);
  }

  /** Some event from `from` on wakes the joiner. */
  ghost predicate WokenFrom(events: seq<Event>, from: nat) {
    exists i :: from <= i < |events| && EffectAt(events, i).woke
  }

  /** `abort` leaves a parked joiner asleep: it is woken exactly if a wake of the task still comes. */
  lemma AbortedJoinerNeedsAWake(events: seq<Event>, from: nat)
    requires from <= |events| && AbortedBy(events, from) && JoinerWaits(events, from)
    ensures WokenFrom(events, from) <==> exists i :: from <= i < |events| && events[i].Wake?
  {
    WakerIsWaitingJoiner(events, from);
    if exists i :: from <= i < |events| && events[i].Wake? {
      FirstWakeWakes(events, from);
    }
  }

  lemma {:induction false} FirstWakeWakes(events: seq<Event>, from: nat)
    requires from <= |events| && AbortedBy(events, from) && After(NEW_TASK, events[..from]).waker
    requires exists i :: from <= i < |events| && events[i].Wake?
    ensures WokenFrom(events, from)
    decreases |events| - from
  {
    AlwaysGood(events, from);
    if events[from].Wake? {
      assert EffectAt(events, from).woke;
    } else {
      AfterPrefix(events, from);
      FirstWakeWakes(events, from + 1);
    }
  }

  lemma Push(events: seq<Event>, e: Event)
    ensures EffectAt(events + [e], |events|) == On(After(NEW_TASK, events), e)
    ensures After(NEW_TASK, events + [e]) == On(After(NEW_TASK, events), e).task
  {
    assert (events + [e])[..|events|] == events;
  }

  /**
   The task object; `outcome` stands for what the stored future does when polled. `events`
   is everything that happened to it; all that is said above about histories holds of the object.
   */
  class Task {
    var future: bool
    var value: Option<JoinResult>
    var waker: bool
    var aborted: bool
    ghost var events: seq<Event>

    ghost function View(): TaskState
      reads this
    {
      TaskState(future, value, waker, aborted)
    }

    ghost predicate Valid()
      reads this
    {
      View() == After(NEW_TASK, events)
    }

    constructor ()
      ensures Valid() && events == []
    {
      future, value, waker, aborted := true, None, false, false;
      events := [];
    }

    method Poll(outcome: PollOutcome) returns (r: Option<JoinResult>)
      ensures r == PollResult(View(), outcome)
    {
      if aborted {
        return Some(Aborted);
      }
      if !future {
        return Some(Aborted);
      }
      match outcome
      case Ready(v) => r := Some(Finished(v));
      case Pending => r := None;
      case Panics => r := Some(Panicked);
    }

    method RunWake(outcome: PollOutcome) returns (woke: bool)
      requires Valid()
      modifies this
      ensures Valid() && events == old(events) + [Wake(outcome)]
      ensures woke == EffectAt(events, |old(events)|).woke
    {
      Push(events, Wake(outcome));
      events := events + [Wake(outcome)];
      woke := false;
      if value.None? && !aborted {
        var result := Poll(outcome);
        if result.Some? {
          value := result;
        }
      }
      if value.Some? || aborted {
        if waker {
          waker := false;
          woke := true;
        }
      }
    }

    method AbortTask()
      requires Valid()
      modifies this
      ensures Valid() && events == old(events) + [Abort]
    {
      Push(events, Abort);
      events := events + [Abort];
      aborted := true;
      future := false;
    }

    method JoinPoll() returns (r: Option<JoinResult>)
      requires Valid()
      modifies this
      ensures Valid() && events == old(events) + [Join]
      ensures EffectAt(events, |old(events)|).obs == (if r.Some? then Joined(r.value) else Parked)
    {
      Push(events, Join);
      events := events + [Join];
      if aborted {
        return Some(Aborted);
      }
      r := value;
      value := None;
      if r.None? {
        waker := true;
      }
    }
  }

  /** The list of a run loop: weak references, so `live` says which of them still upgrade. */
  class ActiveTasks {
    var tasks: seq<Task>
    var live: set<Task>

    ghost predicate Valid()
      reads this
    {
      && (forall t | t in live :: t in tasks)
      && (forall i, j | 0 <= i < j < |tasks| :: tasks[i] != tasks[j])
    }

    constructor ()
      ensures Valid() && tasks == [] && live == {}
    {
      tasks, live := [], {};
    }

    /** `spawn` up to the first wake: push, then compact once the list is long. */
    method Spawn() returns (task: Task)
      requires Valid()
      requires forall t | t in tasks :: allocated(t)
      modifies this
      ensures Valid() && fresh(task) && task.Valid() && task.events == []
      ensures live == old(live) + {task}
      ensures forall t | t in tasks :: t in old(tasks) || t == task
      ensures |tasks| <= Max(100, |live|)
    {
      task := new Task();
      live := live + {task};
      tasks := tasks + [task];
      if |tasks| > 100 {
        tasks := Retained(tasks, live);
        DistinctFits(tasks, live);
      }
    }

    /** The last strong reference to a task goes. */
    method Freed(task: Task)
      requires Valid()
      modifies this
      ensures Valid() && live == old(live) - {task} && tasks == old(tasks)
    {
      live := live - {task};
    }

    /** The abort loop of `shutdown`, and the clearing of the list after it. */
    method AbortAll()
      requires Valid() && forall t | t in tasks :: t.Valid()
      modifies this, tasks
      ensures tasks == [] && live == old(live)
      ensures forall t | t in live :: t.Valid() && t.events == old(t.events) + [Abort]
    {
      var i := 0;
      while i < |tasks|
        invariant 0 <= i <= |tasks|
        invariant tasks == old(tasks) && live == old(live)
        invariant forall k | 0 <= k < i && tasks[k] in live ::
                    tasks[k].Valid() && tasks[k].events == old(tasks[k].events) + [Abort]
        invariant forall k | i <= k < |tasks| :: unchanged(tasks[k])
      {
        if tasks[i] in live {
          tasks[i].AbortTask();
        }
        i := i + 1;
      }
      tasks := [];
    }
  }

  /** `retain(upgrade succeeds)`, order kept. */
  function Retained(tasks: seq<Task>, live: set<Task>): (r: seq<Task>)
    ensures forall t | t in tasks && t in live :: t in r
    ensures forall t | t in r :: t in tasks && t in live
    ensures (forall i, j | 0 <= i < j < |tasks| :: tasks[i] != tasks[j]) ==>
              forall i, j | 0 <= i < j < |r| :: r[i] != r[j]
  {
    if tasks == [] then []
    else
      var rest := Retained(tasks[1..], live);
      if tasks[0] in live then [tasks[0]] + rest else rest
  }

  lemma {:induction false} DistinctFits(tasks: seq<Task>, within: set<Task>)
    requires forall i, j | 0 <= i < j < |tasks| :: tasks[i] != tasks[j]
    requires forall t | t in tasks :: t in within
    ensures |tasks| <= |within|
  {
    if tasks != [] {
      DistinctFits(tasks[1..], within - {tasks[0]});
    }
  }
}
