/**
 What a parked caller can count on: an accepted `send` has put its closure where the
 run loop thread finds it, and nothing but a shutdown keeps `call` from returning what
 the callback produces.
 */
module RunLoopProgress {
  import opened Wrappers
  import opened RunLoopMachine
  import opened RunLoopInvariant
  import opened RunLoopErrors

  /** While its epoch is up, an accepted closure is queued, running or reporting, or its result is in the slot. */
  ghost predicate Accepted(s: State, k: Call) {
    Registering(k.pc) && !At(s, k.epoch).token ==>
      && (k.pc == Enqueued || k.pc == Parked ==> JobLive(k.job) || (k.job == Finished && k.slot.Some?))
      && (k.job == Unsent || k.job == Queued || k.job.Running? ==> !k.completed)
  }

  predicate OnlyNotInitialized(r: Result) { r.Err? ==> r.error == NotInitialized }

  /** Whatever error reaches a caller, or is on its way to it, is NotInitialized. */
  predicate OneError(k: Call) {
    if k.pc.Returned? then OnlyNotInitialized(k.pc.outcome)
    else
      && (k.slot.Some? ==> OnlyNotInitialized(k.slot.value))
      && (k.job.Storing? || (k.job.Running? && !k.completed) ==> OnlyNotInitialized(k.job.result))
  }

  ghost predicate Fair(s: State, k: Call) { Accepted(s, k) && OneError(k) }

  lemma SectionKeepsFair(s: State, s': State, step: SectionStep, k: Call, k': Call, c: CallId)
    requires SectionOnCall(step, k, k', Cancelling(s, c), Cancelling(s', c)) && Fair(s, k)
    requires Registering(k.pc) && !At(s', k.epoch).token ==> !At(s, k.epoch).token
    requires k' != k ==> At(s', k.epoch).token
    ensures Fair(s', k')
  {
  }

  lemma CallerKeepsFair(s: State, c: CallId, step: CallerStep)
    requires CallerEnabled(s, c, step) && (c in s.calls ==> CallInv(s, c, s.calls[c]) && Fair(s, s.calls[c]))
    ensures Fair(DoCaller(s, c, step), CallerUpdate(s, c, step))
  {
  }

  lemma JobKeepsAccepted(s: State, c: CallId, step: JobStep)
    requires JobEnabled(s, c, step) && CallInv(s, c, s.calls[c]) && EpochInv(s) && Accepted(s, s.calls[c])
    ensures Accepted(DoJob(s, c, step), JobUpdate(s, c, step))
  {
  }

  /** A closure of a waiting call that was not cancelled starts with its own run loop, or without any. */
  lemma StartFindsItsLoop(s: State, c: CallId, v: Value)
    requires JobEnabled(s, c, JobStart(v)) && CallInv(s, c, s.calls[c]) && EpochInv(s) && LifecycleInv(s)
    requires !s.calls[c].pc.Returned? && !s.calls[c].completed
    ensures CurrentLocal(s, At(s, s.calls[c].epoch).owner) != Some(NotRunLoopThread)
  {
  }

  lemma JobKeepsOneError(s: State, c: CallId, step: JobStep)
    requires JobEnabled(s, c, step) && CallInv(s, c, s.calls[c]) && OneError(s.calls[c])
    requires step.JobStart? && !s.calls[c].pc.Returned? && !s.calls[c].completed ==>
               CurrentLocal(s, At(s, s.calls[c].epoch).owner) != Some(NotRunLoopThread)
    ensures OneError(JobUpdate(s, c, step))
  {
  }

  ghost predicate AllFair(s: State) {
    forall c | c in s.calls :: Fair(s, s.calls[c])
  }

  lemma JobKeepsFair(s: State, c: CallId, step: JobStep)
    requires JobEnabled(s, c, step) && CallInv(s, c, s.calls[c]) && EpochInv(s) && LifecycleInv(s) && Fair(s, s.calls[c])
    ensures Fair(DoJob(s, c, step), JobUpdate(s, c, step))
  {
    JobKeepsAccepted(s, c, step);
    if step.JobStart? && !s.calls[c].pc.Returned? && !s.calls[c].completed {
      StartFindsItsLoop(s, c, step.v);
    }
    JobKeepsOneError(s, c, step);
  }

  /** While a shutdown cancels, every epoch there ever was has its token set. */
  lemma CancellingIsAfterTokens(s: State, c: CallId, e: EpochId)
    requires Inv(s) && Cancelling(s, c)
    ensures At(s, e).token
  {
  }

  lemma SectionKeepsOneFair(s: State, step: SectionStep, c: CallId)
    requires Inv(s) && SectionEnabled(s, step) && c in s.calls && Fair(s, s.calls[c])
    requires Inv(DoSection(s, step)) && c in DoSection(s, step).calls
    ensures Fair(DoSection(s, step), DoSection(s, step).calls[c])
  {
    var s', k := DoSection(s, step), s.calls[c];
    assert CallInv(s, c, k);
    SectionEffect(s, step, c);
    if Cancelling(s', c) {
      CancellingIsAfterTokens(s', c, k.epoch);
    }
    if Cancelling(s, c) {
      CancellingIsAfterTokens(s, c, k.epoch);
    }
    SectionKeepsFair(s, s', step, k, s'.calls[c], c);
  }

  lemma SectionKeepsAllFair(s: State, step: SectionStep)
    requires Inv(s) && AllFair(s) && SectionEnabled(s, step)
    ensures AllFair(DoSection(s, step))
  {
    StepInv(s, OfSection(step));
    SectionAddsNoCall(s, step);
    forall c | c in s.calls ensures Fair(DoSection(s, step), DoSection(s, step).calls[c]) {
      SectionKeepsOneFair(s, step, c);
    }
  }

  lemma CallerKeepsAllFair(s: State, d: CallId, step: CallerStep)
    requires Inv(s) && AllFair(s) && CallerEnabled(s, d, step)
    ensures AllFair(DoCaller(s, d, step))
  {
    if d in s.calls {
      assert CallInv(s, d, s.calls[d]);
    }
    CallerKeepsFair(s, d, step);
  }

  lemma JobKeepsAllFair(s: State, d: CallId, step: JobStep)
    requires Inv(s) && AllFair(s) && JobEnabled(s, d, step)
    ensures AllFair(DoJob(s, d, step))
  {
    JobKeepsFair(s, d, step);
  }

  lemma StepKeepsFair(s: State, step: Step)
    requires Inv(s) && AllFair(s) && Enabled(s, step)
    ensures AllFair(Do(s, step))
  {
    match step
    case OfSection(x) => SectionKeepsAllFair(s, x);
    case OfCaller(c, x) => CallerKeepsAllFair(s, c, x);
    case OfJob(c, x) => JobKeepsAllFair(s, c, x);
    case DropEpoch(e) =>
  }

  lemma {:induction false} RunFair(run: seq<State>, n: nat)
    requires IsRun(run) && n < |run|
    ensures AllFair(run[n])
  {
    if n > 0 {
      RunFair(run, n - 1);
      RunInv(run, n - 1);
      assert StepAt(run, n - 1);
      var step :| Enabled(run[n - 1], step) && run[n] == Do(run[n - 1], step);
      StepKeepsFair(run[n - 1], step);
    }
  }

  /** An accepted closure is never mislaid: while its epoch is up, a caller parked on an empty slot has it queued, running or reporting. */
  lemma ParkedCallerIsServed(run: seq<State>, n: nat, c: CallId)
    requires IsRun(run) && n < |run| && c in run[n].calls
    requires run[n].calls[c].pc == Parked && run[n].calls[c].slot == None && !At(run[n], run[n].calls[c].epoch).token
    ensures JobLive(run[n].calls[c].job)
  {
    RunFair(run, n);
  }

  /** Whatever the interleaving, NotInitialized is the only error that `call` returns. */
  lemma OnlyErrorIsNotInitialized(run: seq<State>, n: nat, c: CallId)
    requires IsRun(run) && n < |run| && c in run[n].calls
    requires run[n].calls[c].pc.Returned? && run[n].calls[c].pc.outcome.Err?
    ensures run[n].calls[c].pc.outcome.error == NotInitialized
  {
    RunFair(run, n);
  }

  // When a parked call can still return a value.

  /** The epoch is the installed one, and its shutdown has not begun. */
  predicate Up(s: State, e: EpochId) {
    e < |s.epochs| && s.instance == Some(e) && !s.epochs[e].hasShutdown && !s.section.MarkShutdown?
  }

  /** The closure is queued on a run loop that is up, or its callback has run and nothing has cancelled the call. */
  predicate Hopeful(s: State, k: Call) {
    || (k.job == Queued && !k.completed && Up(s, k.epoch))
    || (k.job.Running? && k.job.result.Ok? && !k.completed)
    || (k.job.Storing? && k.job.result.Ok?)
  }

  ghost predicate ReturnedIn(run: seq<State>, c: CallId, v: Value) {
    IsRun(run) && c in Last(run).calls && Last(run).calls[c].pc == Returned(Ok(v))
  }

  /** Some way to go on from `run` has the call return the value. */
  ghost predicate MayReturn(run: seq<State>, c: CallId, v: Value) {
    exists longer: seq<State> :: run <= longer && ReturnedIn(longer, c, v)
  }

  lemma ExtendBack(run: seq<State>, longer: seq<State>, c: CallId, v: Value)
    requires run <= longer && MayReturn(longer, c, v)
    ensures MayReturn(run, c, v)
  {
    var l: seq<State> :| longer <= l && ReturnedIn(l, c, v);
    assert run <= l;
  }

  lemma CollectsStored(run: seq<State>, c: CallId, v: Value)
    requires IsRun(run) && c in Last(run).calls && Last(run).calls[c].pc == Parked
    requires Last(run).calls[c].slot == Some(Ok(v))
    ensures MayReturn(run, c, v)
  {
    var longer := Extend(run, OfCaller(c, CallCollect));
    assert run <= longer && ReturnedIn(longer, c, v);
  }

  lemma ReturnsStoring(run: seq<State>, c: CallId, v: Value)
    requires IsRun(run) && c in Last(run).calls && Last(run).calls[c].pc == Parked
    requires Last(run).calls[c].job == Storing(Ok(v))
    ensures MayReturn(run, c, v)
  {
    var longer := Extend(run, OfJob(c, JobStore));
    CollectsStored(longer, c, v);
    ExtendBack(run, longer, c, v);
  }

  lemma ReturnsRunning(run: seq<State>, c: CallId, v: Value)
    requires IsRun(run) && c in Last(run).calls && Last(run).calls[c].pc == Parked && !Last(run).calls[c].completed
    requires Last(run).calls[c].job == Running(Ok(v))
    ensures MayReturn(run, c, v)
  {
    var longer := Extend(run, OfJob(c, JobSwap));
    ReturnsStoring(longer, c, v);
    ExtendBack(run, longer, c, v);
  }

  /** Which steps of `initialize` are left. */
  function InitLeft(s: State): nat {
    if s.section.SetSender? then 3 else if s.section.SetThread? then 2 else if s.section.SetCount? then 1 else 0
  }

  function InitStep(s: State): SectionStep
    requires InitLeft(s) > 0
  {
    if s.section.SetSender? then InitSender else if s.section.SetThread? then InitThread else InitCount
  }

  lemma InitMovesOn(s: State, e: EpochId)
    requires Inv(s) && Up(s, e) && s.section != Free
    ensures InitLeft(s) > 0 && SectionEnabled(s, InitStep(s))
    ensures var s' := DoSection(s, InitStep(s));
      InitLeft(s') < InitLeft(s) && Up(s', e) && s'.calls == s.calls && s'.epochs == s.epochs
  {
  }

  /** `initialize`, if it is under way, comes to its end. */
  lemma FinishInit(run: seq<State>, e: EpochId) returns (longer: seq<State>)
    requires IsRun(run) && Up(Last(run), e)
    ensures IsRun(longer) && run <= longer && Up(Last(longer), e) && Last(longer).section == Free
    ensures Last(longer).calls == Last(run).calls && Last(longer).epochs == Last(run).epochs
    decreases InitLeft(Last(run))
  {
    longer := run;
    if Last(run).section != Free {
      RunInv(run, |run| - 1);
      InitMovesOn(Last(run), e);
      longer := Extend(run, OfSection(InitStep(Last(run))));
      longer := FinishInit(longer, e);
    }
  }

  lemma FreeLoopStarts(s: State, e: EpochId)
    requires Inv(s) && Up(s, e) && s.section == Free
    ensures CurrentLocal(s, At(s, e).owner) == None && !At(s, e).dropped
  {
  }

  /** The run loop thread gets to the closure, whatever value the callback produces. */
  lemma ReturnsQueued(run: seq<State>, c: CallId, v: Value)
    requires IsRun(run) && c in Last(run).calls && Last(run).calls[c].pc == Parked && !Last(run).calls[c].completed
    requires Last(run).calls[c].job == Queued && Up(Last(run), Last(run).calls[c].epoch)
    ensures MayReturn(run, c, v)
  {
    var e := Last(run).calls[c].epoch;
    var free := FinishInit(run, e);
    RunInv(free, |free| - 1);
    FreeLoopStarts(Last(free), e);
    var longer := Extend(free, OfJob(c, JobStart(v)));
    ReturnsRunning(longer, c, v);
    ExtendBack(run, longer, c, v);
  }

  /** The call has failed, or waits without hope. */
  ghost predicate Hopeless(s: State, c: CallId) {
    && c in s.calls && s.calls[c].created
    && (|| (s.calls[c].pc.Returned? && s.calls[c].pc.outcome.Err?)
        || (s.calls[c].pc == Parked && !Hopeful(s, s.calls[c])
            && (s.calls[c].slot.Some? ==> s.calls[c].slot.value.Err?)))
  }

  /** A run loop on its way down does not come up again. */
  lemma SectionStaysDown(s: State, step: SectionStep, e: EpochId)
    requires SectionEnabled(s, step) && e < |s.epochs| && !Up(s, e)
    ensures !Up(DoSection(s, step), e)
  {
  }

  lemma SectionStaysHopeless(s: State, step: SectionStep, c: CallId)
    requires SectionEnabled(s, step) && Hopeless(s, c) && CallInv(s, c, s.calls[c])
    ensures Hopeless(DoSection(s, step), c)
  {
    SectionEffect(s, step, c);
    if s.calls[c].pc == Parked && !Up(s, s.calls[c].epoch) {
      SectionStaysDown(s, step, s.calls[c].epoch);
    }
  }

  /** Where the run loop is going down, a closure gets to start only once its call was cancelled. */
  lemma DownClosureIsCancelled(s: State, c: CallId, v: Value)
    requires Inv(s) && JobEnabled(s, c, JobStart(v)) && s.calls[c].pc == Parked && !Up(s, s.calls[c].epoch)
    ensures s.calls[c].completed
  {
    assert CallInv(s, c, s.calls[c]);
  }

  lemma JobStaysHopeless(s: State, c: CallId, step: JobStep)
    requires Inv(s) && JobEnabled(s, c, step) && Hopeless(s, c)
    ensures Hopeless(DoJob(s, c, step), c)
  {
    assert CallInv(s, c, s.calls[c]);
    if step.JobStart? && s.calls[c].pc == Parked && !Up(s, s.calls[c].epoch) {
      DownClosureIsCancelled(s, c, step.v);
    }
  }

  lemma StepStaysHopeless(s: State, step: Step, c: CallId)
    requires Inv(s) && Enabled(s, step) && Hopeless(s, c)
    ensures Hopeless(Do(s, step), c)
  {
    assert CallInv(s, c, s.calls[c]);
    match step
    case OfSection(x) => SectionStaysHopeless(s, x, c);
    case OfCaller(d, x) =>
    case OfJob(d, x) => if c == d { JobStaysHopeless(s, c, x); }
    case DropEpoch(e) =>
  }

  lemma {:induction false} StaysHopeless(run: seq<State>, m: nat, n: nat, c: CallId)
    requires IsRun(run) && m <= n < |run| && Hopeless(run[m], c)
    ensures Hopeless(run[n], c)
  {
    if m < n {
      StaysHopeless(run, m, n - 1, c);
      RunInv(run, n - 1);
      assert StepAt(run, n - 1);
      var step :| Enabled(run[n - 1], step) && run[n] == Do(run[n - 1], step);
      StepStaysHopeless(run[n - 1], step, c);
    }
  }

  lemma StepKeepsProduced(s: State, step: Step, c: CallId)
    requires Inv(s) && Enabled(s, step) && c in s.calls && s.calls[c].runs == 1
    ensures c in Do(s, step).calls && Do(s, step).calls[c].runs == 1 && Do(s, step).calls[c].produced == s.calls[c].produced
  {
    assert CallInv(s, c, s.calls[c]);
    match step
    case OfSection(x) => SectionEffect(s, x, c);
    case _ =>
  }

  /** What a callback has produced stays on record. */
  lemma {:induction false} RanStays(run: seq<State>, m: nat, n: nat, c: CallId)
    requires IsRun(run) && m <= n < |run| && c in run[m].calls
    ensures run[m].calls[c].runs == 1 ==>
              c in run[n].calls && run[n].calls[c].runs == 1 && run[n].calls[c].produced == run[m].calls[c].produced
  {
    if m < n && run[m].calls[c].runs == 1 {
      RanStays(run, m, n - 1, c);
      RunInv(run, n - 1);
      assert StepAt(run, n - 1);
      var step :| Enabled(run[n - 1], step) && run[n] == Do(run[n - 1], step);
      StepKeepsProduced(run[n - 1], step, c);
    }
  }

  /** What the call can still return: anything if the callback is yet to run, and what it produced if it has run. */
  predicate MayYield(k: Call, v: Value) {
    k.job.Running? || k.job.Storing? ==> k.job.result == Ok(v)
  }

  lemma HopefulMayReturn(run: seq<State>, c: CallId, v: Value)
    requires IsRun(run) && c in Last(run).calls && Last(run).calls[c].pc == Parked
    requires Hopeful(Last(run), Last(run).calls[c]) && MayYield(Last(run).calls[c], v)
    ensures MayReturn(run, c, v)
  {
    var k := Last(run).calls[c];
    if k.job == Queued {
      ReturnsQueued(run, c, v);
    } else if k.job.Running? {
      ReturnsRunning(run, c, v);
    } else {
      ReturnsStoring(run, c, v);
    }
  }

  /** What a returned value is: that of the callback, which may have run before. */
  lemma ReturnedWasProduced(run: seq<State>, m: nat, c: CallId, v: Value)
    requires ReturnedIn(run, c, v) && m < |run| && c in run[m].calls
    ensures run[m].calls[c].runs == 1 ==> run[m].calls[c].produced == Some(v)
  {
    var n: nat := |run| - 1;
    RanStays(run, m, n, c);
    RunInv(run, n);
    assert CallInv(run[n], c, run[n].calls[c]);
  }

  lemma ReturningWasHopeful(run: seq<State>, m: nat, c: CallId, v: Value)
    requires ReturnedIn(run, c, v) && m < |run| && c in run[m].calls
    requires run[m].calls[c].pc == Parked && run[m].calls[c].slot == None
    ensures Hopeful(run[m], run[m].calls[c]) && MayYield(run[m].calls[c], v)
  {
    RunInv(run, m);
    assert CallInv(run[m], c, run[m].calls[c]);
    ReturnedWasProduced(run, m, c, v);
    if !Hopeful(run[m], run[m].calls[c]) {
      StaysHopeless(run, m, |run| - 1, c);
    }
  }

  /**
   Exactly which values a caller parked on an empty slot can still get. None if it is
   hopeless; else its closure is queued on a run loop whose shutdown has not begun, and
   whatever the callback will produce can be returned, or its callback has run and no
   shutdown has cancelled the call, and then it is what the callback produced. While its
   epoch is up, one of the two is the case.
   */
  lemma WhenParkedMayReturn(run: seq<State>, c: CallId, v: Value)
    requires IsRun(run) && c in Last(run).calls
    requires Last(run).calls[c].pc == Parked && Last(run).calls[c].slot == None
    ensures MayReturn(run, c, v) <==> Hopeful(Last(run), Last(run).calls[c]) && MayYield(Last(run).calls[c], v)
  {
    if Hopeful(Last(run), Last(run).calls[c]) && MayYield(Last(run).calls[c], v) {
      HopefulMayReturn(run, c, v);
    }
    if MayReturn(run, c, v) {
      var l: seq<State> :| run <= l && ReturnedIn(l, c, v);
      assert l[|run| - 1] == Last(run);
      ReturningWasHopeful(l, |run| - 1, c, v);
    }
  }

  lemma UpIsHopeful(run: seq<State>, n: nat, c: CallId)
    requires IsRun(run) && n < |run| && c in run[n].calls
    requires run[n].calls[c].pc == Parked && run[n].calls[c].slot == None && Up(run[n], run[n].calls[c].epoch)
    ensures Hopeful(run[n], run[n].calls[c])
  {
    RunInv(run, n);
    RunFair(run, n);
    assert CallInv(run[n], c, run[n].calls[c]);
  }
}
