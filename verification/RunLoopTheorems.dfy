/** What callers of the run loop may rely on, over every run of the machine. */
module RunLoopTheorems {
  import opened Wrappers
  import opened RunLoopMachine
  import opened RunLoopInvariant

  /**
   No stranded caller: once the shutdown of an epoch has left its cancel loop,
   every caller parked in `get_blocking` on that epoch finds its slot set.
   */
  lemma NoStrandedCaller(run: seq<State>, i: nat, c: CallId)
    requires IsRun(run) && i < |run|
    requires c in run[i].calls && run[i].calls[c].pc == Parked
    requires CancelFinished(run[i], run[i].calls[c].epoch)
    ensures run[i].calls[c].slot.Some?
    ensures CallerEnabled(run[i], c, CallCollect)
  {
    RunInv(run, i);
    assert CallInv(run[i], c, run[i].calls[c]);
  }

  /** While a caller is parked on an empty slot, something is still bound to fill it. */
  lemma ParkedCallerHasRescuer(run: seq<State>, i: nat, c: CallId)
    requires IsRun(run) && i < |run|
    requires c in run[i].calls && run[i].calls[c].pc == Parked && run[i].calls[c].slot == None
    ensures var s := run[i]; var k := s.calls[c];
      || (c in s.pending && !Taken(s, k.epoch))   // the shutdown of its epoch is still to take the list
      || InTodo(s, c) || Cancelling(s, c)         // a shutdown is about to cancel it
      || k.job.Storing?                           // its result is about to be stored
    ensures !run[i].calls[c].dead
  {
    RunInv(run, i);
    assert CallInv(run[i], c, run[i].calls[c]);
  }

  /**
   Exactly-once result: in every run the slot is written at most once and the
   callback runs at most once, and a call that returns a value returns what
   the one execution of its callback produced on the thread that owns the run
   loop the caller posted to (or on the calling thread itself, when that is
   the run loop thread and `call` runs inline).
   */
  lemma ExactlyOnce(run: seq<State>, i: nat, c: CallId)
    requires IsRun(run) && i < |run| && c in run[i].calls
    ensures var k := run[i].calls[c];
      && k.writes <= 1 && k.runs <= 1
      && (k.pc.Returned? && k.pc.outcome.Ok? ==>
            && k.runs == 1 && k.produced == Some(k.pc.outcome.value)
            && k.ranOn == Some(if k.created then At(run[i], k.epoch).owner else k.thread))
  {
    RunInv(run, i);
    assert CallInv(run[i], c, run[i].calls[c]);
  }

  /** A call that reached `send` fails only if its epoch is being shut down. RunLoopErrors says exactly when it does. */
  lemma ErrorMeansShutdown(run: seq<State>, i: nat, c: CallId)
    requires IsRun(run) && i < |run| && c in run[i].calls
    requires run[i].calls[c].created && run[i].calls[c].pc.Returned? && run[i].calls[c].pc.outcome.Err?
    ensures var s := run[i]; var e := s.calls[c].epoch;
      e < |s.epochs| && s.epochs[e].token && s.epochs[e].hasShutdown
  {
    RunInv(run, i);
    assert CallInv(run[i], c, run[i].calls[c]);
  }

  /**
   Between INIT_MUTEX sections the count is the number of live guards, and it is
   positive exactly when instance, sender and thread id are all set; they then
   belong to one epoch that was not shut down, owned by the thread of every guard.
   */
  lemma LifecycleBetweenSections(run: seq<State>, i: nat)
    requires IsRun(run) && i < |run| && run[i].section == Free
    ensures var s := run[i];
      && s.initCount == |s.guards|
      && (s.initCount > 0 <==> s.instance.Some?)
      && (s.initCount > 0 <==> s.sender.Some?)
      && (s.initCount > 0 <==> s.threadId.Some?)
      && (s.initCount > 0 ==>
            && s.sender == s.instance && s.instance.value < |s.epochs|
            && s.epochs[s.instance.value] == Epoch(s.threadId.value, false, false, false)
            && forall t | t in s.guards :: t == s.threadId.value)
  {
    RunInv(run, i);
  }

  /**
   Between sections the lookup of the current loop tells who holds guards: it succeeds
   exactly on their thread, and says why everywhere else.
   */
  lemma LookupBetweenSections(run: seq<State>, i: nat, t: Thread)
    requires IsRun(run) && i < |run| && run[i].section == Free
    ensures CurrentLocal(run[i], t) ==
              if run[i].guards == multiset{} then Some(NotInitialized)
              else if t in run[i].guards then None
              else Some(NotRunLoopThread)
  {
    LifecycleBetweenSections(run, i);
    if run[i].guards != multiset{} {
      var u :| u in run[i].guards;
    }
  }

  /**
   `init` is all or nothing: the instance is never already set, the lookup after
   the increment always succeeds, and a refused `init` leaves the state as it was.
   */
  lemma InitIsAllOrNothing(run: seq<State>, i: nat, t: Thread)
    requires IsRun(run) && i < |run|
    ensures run[i].section.SetInstance? ==> run[i].instance == None
    ensures run[i].section.SetCount? ==> CurrentLocal(run[i], run[i].section.t) == None
    ensures run[i].section == Free && run[i].initCount > 0 ==>
              var s' := DoSection(run[i], InitEnter(t));
              if run[i].threadId == Some(t)
              then s' == run[i].(initCount := run[i].initCount + 1, guards := run[i].guards + multiset{t})
              else s' == run[i]
  {
    RunInv(run, i);
  }

  ghost predicate Dead(s: State, c: CallId) { c in s.calls && s.calls[c].dead }

  lemma StepKeepsDead(s: State, step: Step, c: CallId)
    requires Enabled(s, step) && Dead(s, c)
    ensures Dead(Do(s, step), c)
  {
    match step
    case OfSection(x) =>
    case OfCaller(d, x) =>
    case OfJob(d, x) =>
    case DropEpoch(e) =>
  }

  lemma {:induction false} StaysDead(run: seq<State>, j: nat, i: nat, c: CallId)
    requires IsRun(run) && j <= i < |run| && Dead(run[j], c)
    ensures Dead(run[i], c)
  {
    if j < i {
      StaysDead(run, j, i - 1, c);
      assert StepAt(run, i - 1);
      var step :| Enabled(run[i - 1], step) && run[i] == Do(run[i - 1], step);
      StepKeepsDead(run[i - 1], step, c);
    }
  }

  /**
   The list of pending calls does not grow with the calls that are over: once the completion
   of `c` is dropped, the next call that registers, whenever it does, takes `c` off the list.
   It goes to the end itself, and drops nobody that can still be upgraded.
   */
  lemma FinishedCallsArePruned(run: seq<State>, j: nat, i: nat, c: CallId, d: CallId)
    requires IsRun(run) && j + 1 < |run| && JobEnabled(run[j], c, DropCompletion)
    requires run[j + 1] == DoJob(run[j], c, DropCompletion)
    requires j < i < |run| && CallerEnabled(run[i], d, CallRegister)
    ensures var s := run[i]; var p := DoCaller(s, d, CallRegister).pending;
      && c !in p && p[|p| - 1] == d
      && forall x | x in s.pending && !Dead(s, x) :: x in p
  {
    StaysDead(run, j + 1, i, c);
    RunInv(run, i);
    assert CallInv(run[i], c, run[i].calls[c]);
  }

  lemma StepQueues(s: State, step: Step, c: CallId)
    requires Enabled(s, step) && c in s.calls && s.calls[c].job == Unsent
    ensures var s' := Do(s, step);
      && c in s'.calls
      && (s'.calls[c].job == Queued ==> s'.epochs == s.epochs && !At(s, s'.calls[c].epoch).dropped)
  {
    match step
    case OfSection(x) => SectionEffect(s, x, c);
    case OfCaller(d, x) =>
    case OfJob(d, x) =>
    case DropEpoch(e) =>
  }

  /** No closure is ever queued on a run loop that is gone. */
  lemma ClosuresReachLivingLoops(run: seq<State>, i: nat, c: CallId)
    requires IsRun(run) && i + 1 < |run| && c in run[i].calls && run[i].calls[c].job == Unsent
    requires c in run[i + 1].calls && run[i + 1].calls[c].job == Queued
    ensures !At(run[i + 1], run[i + 1].calls[c].epoch).dropped
  {
    assert StepAt(run, i);
    var step :| Enabled(run[i], step) && run[i + 1] == Do(run[i], step);
    StepQueues(run[i], step, c);
  }

  /** On the run loop thread `call` runs inline, and can fail only from code that the shutdown itself calls. */
  lemma InlineCallFailsOnlyDuringShutdown(run: seq<State>, i: nat, c: CallId, t: Thread, v: Value)
    requires IsRun(run) && i < |run| && CallerEnabled(run[i], c, CallStart(t, v))
    requires run[i].threadId == Some(t)
    ensures CallerUpdate(run[i], c, CallStart(t, v)).pc == Returned(Ok(v)) <==> !run[i].section.AbortTasks?
  {
    RunInv(run, i);
  }
}
