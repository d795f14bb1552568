/**
 Exactly when `RunLoop::call` returns an error, and exactly when it does although
 the callback ran. Both are answered by what happened to the call along its run.
 */
module RunLoopErrors {
  import opened Wrappers
  import opened RunLoopMachine
  import opened RunLoopInvariant
  import opened RunLoopTheorems

  /** What can happen to a call between two consecutive states of a run. */
  datatype Event =
    | InlineLookupFails       // on the run loop thread: the run loop is being shut down
    | NoSender                // on another thread: RUN_LOOP_SENDER is empty
    | FirstReadRefuses        // `send` finds the token gone or set
    | EnqueueRefuses          // the platform queue is gone
    | SecondReadRefuses       // the token is set when `send` reads it again after the enqueue
    | CancelWins              // shutdown's `cancel` wins the `completed` swap
    | CancelWinsLate          // the same, while the callback has run and `complete` is still to come
    | FailureWins             // `complete` wins the swap with the error of a failed lookup
    | CallbackRuns            // the closure runs the user callback
    | CallbackRunsCancelled   // the same, on a call that was cancelled before

  /** The call runs inline, and its lookup of the run loop fails. */
  predicate FailsInline(s: State, k: Call) {
    k.pc.Returned? && s.threadId == Some(k.thread) && CurrentLocal(s, k.thread).Some?
  }

  ghost predicate Occurs(s: State, s': State, c: CallId, e: Event) {
    c in s'.calls &&
    if c !in s.calls then e == InlineLookupFails && FailsInline(s, s'.calls[c])
    else
      var k := s.calls[c]; var k' := s'.calls[c]; var epoch := At(s, k.epoch);
      match e
      case InlineLookupFails => false
      case NoSender => k.pc == Calling && k'.pc.Returned? && s.sender.None?
      case FirstReadRefuses => k.pc == Registered && k'.pc.Returned? && (epoch.dropped || epoch.token)
      case EnqueueRefuses => k.pc == Checked && k'.pc.Returned? && epoch.dropped
      case SecondReadRefuses => k.pc == Enqueued && k'.pc.Returned? && epoch.token
      case CancelWins => !k.completed && k'.completed && Cancelling(s', c)
      case CancelWinsLate => !k.completed && k'.completed && Cancelling(s', c) && k.job.Running? && k.job.result.Ok?
      case FailureWins => !k.completed && k'.completed && k.job.Running? && k.job.result.Err? && k'.job.Storing?
      case CallbackRuns => k.job == Queued && k'.job.Running? && k'.job.result.Ok?
      case CallbackRunsCancelled => k.job == Queued && k'.job.Running? && k'.job.result.Ok? && k.completed
  }

  ghost predicate OccursAt(run: seq<State>, i: nat, c: CallId, e: Event) {
    i + 1 < |run| && Occurs(run[i], run[i + 1], c, e)
  }

  ghost predicate Happened(run: seq<State>, n: nat, c: CallId, e: Event)
    requires n < |run|
  {
    exists i: nat :: i < n && OccursAt(run, i, c, e)
  }

  ghost function New(s: State, s': State, c: CallId): set<Event> {
    set e: Event | Occurs(s, s', c, e)
  }

  /** Everything that has happened to the call. */
  ghost function History(run: seq<State>, n: nat, c: CallId): set<Event>
    requires n < |run|
  {
    if n == 0 then {} else History(run, n - 1, c) + New(run[n - 1], run[n], c)
  }

  lemma {:induction false} InHistory(run: seq<State>, n: nat, c: CallId, e: Event)
    requires n < |run|
    ensures e in History(run, n, c) <==> Happened(run, n, c, e)
  {
    if n > 0 {
      InHistory(run, n - 1, c, e);
      assert OccursAt(run, n - 1, c, e) <==> e in New(run[n - 1], run[n], c);
    }
  }

  lemma HistoryIsHappened(run: seq<State>, n: nat, c: CallId)
    requires n < |run|
    ensures forall e :: e in History(run, n, c) <==> Happened(run, n, c, e)
  {
    forall e ensures e in History(run, n, c) <==> Happened(run, n, c, e) {
      InHistory(run, n, c, e);
    }
  }

  /** `h'` is what happened up to `s'`, given what happened up to `s`. */
  ghost predicate Extends(h: set<Event>, h': set<Event>, s: State, s': State, c: CallId) {
    forall e :: e in h' <==> e in h || Occurs(s, s', c, e)
  }

  lemma NewExtends(h: set<Event>, s: State, s': State, c: CallId)
    ensures Extends(h, h + New(s, s', c), s, s', c)
  {
  }

  /** Events that end in an error before anything is registered. */
  predicate BlamesEarly(h: set<Event>) { InlineLookupFails in h || NoSender in h }

  /** Events that do after the registration. */
  predicate Blames(h: set<Event>) {
    FirstReadRefuses in h || EnqueueRefuses in h || SecondReadRefuses in h || CancelWins in h || FailureWins in h
  }

  /** An error is in the slot, or about to be put there. */
  ghost predicate ErrorWins(s: State, c: CallId, k: Call) {
    Cancelling(s, c) || (k.slot.Some? && k.slot.value.Err?) || (k.job.Storing? && k.job.result.Err?)
  }

  /** How a call stands, in terms of what happened to it: what it returns. */
  ghost predicate ReturnTold(s: State, c: CallId, k: Call, h: set<Event>) {
    && (k.pc.Returned? ==> (k.pc.outcome.Err? <==> Blames(h)))
    && (!k.pc.Returned? ==>
          && FirstReadRefuses !in h && EnqueueRefuses !in h && SecondReadRefuses !in h
          && (CancelWins in h || FailureWins in h <==> ErrorWins(s, c, k)))
    && (CancelWins in h || FailureWins in h ==> k.completed) && !BlamesEarly(h)
  }

  /** A call that has not registered its completion, and perhaps never will. */
  predicate EarlyTold(k: Call, h: set<Event>) {
    && h <= {InlineLookupFails, NoSender}
    && (if k.pc.Returned? then k.pc.outcome.Err? <==> BlamesEarly(h) else h == {})
    && (k.pc.Returned? && k.pc.outcome.Err? ==> k.runs == 0)
  }

  /** And whether its callback ran. */
  ghost predicate CallbackTold(k: Call, h: set<Event>) {
    && (k.runs == 1 <==> CallbackRuns in h)
    && (FirstReadRefuses in h || EnqueueRefuses in h ==> k.pc.Returned? && k.job == Unsent)
    && (FailureWins in h ==> k.runs == 0 && (k.job.Storing? || k.job == Finished))
    && (k.job.Running? ==> (k.runs == 1 <==> k.job.result.Ok?))
    && (k.job.Storing? && k.job.result.Err? ==> k.runs == 0)
    && (k.runs == 1 && !k.completed ==> k.job.Running?)
    && (k.runs == 1 && CancelWins in h <==> CancelWinsLate in h || CallbackRunsCancelled in h)
    && (k.completed && (k.job == Queued || (k.job == Unsent && !k.pc.Returned?)) ==> CancelWins in h)
  }

  ghost predicate Told(s: State, c: CallId, h: set<Event>) {
    if c !in s.calls then h == {}
    else if !s.calls[c].created then EarlyTold(s.calls[c], h)
    else ReturnTold(s, c, s.calls[c], h) && CallbackTold(s.calls[c], h)
  }

  /** A section speaks of the call only through `SectionOnCall`. */
  lemma SectionTells(s: State, s': State, step: SectionStep, c: CallId, h: set<Event>, h': set<Event>)
    requires c in s.calls && c in s'.calls && CallInv(s, c, s.calls[c])
    requires SectionOnCall(step, s.calls[c], s'.calls[c], Cancelling(s, c), Cancelling(s', c))
    requires s.calls[c] != s'.calls[c] ==> s.calls[c].created
    requires Told(s, c, h) && Extends(h, h', s, s', c)
    ensures Told(s', c, h')
  {
    if s'.calls[c] == s.calls[c] {
      assert h' == h;
    }
  }

  lemma EarlyTells(s: State, c: CallId, step: CallerStep, h: set<Event>, h': set<Event>)
    requires CallerEnabled(s, c, step) && (c in s.calls ==> CallInv(s, c, s.calls[c]) && !s.calls[c].created)
    requires Told(s, c, h) && Extends(h, h', s, DoCaller(s, c, step), c)
    requires !Cancelling(s, c)
    ensures Told(DoCaller(s, c, step), c, h')
  {
  }

  lemma CallerTellsReturn(s: State, c: CallId, step: CallerStep, h: set<Event>, h': set<Event>)
    requires CallerEnabled(s, c, step) && c in s.calls && CallInv(s, c, s.calls[c]) && s.calls[c].created
    requires ReturnTold(s, c, s.calls[c], h) && Extends(h, h', s, DoCaller(s, c, step), c)
    ensures ReturnTold(DoCaller(s, c, step), c, CallerUpdate(s, c, step), h')
  {
  }

  lemma CallerTellsCallback(s: State, c: CallId, step: CallerStep, h: set<Event>, h': set<Event>)
    requires CallerEnabled(s, c, step) && c in s.calls && CallInv(s, c, s.calls[c]) && s.calls[c].created
    requires CallbackTold(s.calls[c], h) && Extends(h, h', s, DoCaller(s, c, step), c)
    ensures CallbackTold(CallerUpdate(s, c, step), h')
  {
  }

  lemma CallerTells(s: State, c: CallId, step: CallerStep, h: set<Event>, h': set<Event>)
    requires (c in s.calls ==> CallInv(s, c, s.calls[c])) && ListsInv(s)
    requires CallerEnabled(s, c, step) && Told(s, c, h) && Extends(h, h', s, DoCaller(s, c, step), c)
    ensures Told(DoCaller(s, c, step), c, h')
  {
    if c in s.calls && s.calls[c].created {
      CallerTellsReturn(s, c, step, h, h');
      CallerTellsCallback(s, c, step, h, h');
    } else {
      EarlyTells(s, c, step, h, h');
    }
  }

  lemma JobTellsReturn(s: State, c: CallId, step: JobStep, h: set<Event>, h': set<Event>)
    requires JobEnabled(s, c, step) && CallInv(s, c, s.calls[c]) && s.calls[c].created
    requires ReturnTold(s, c, s.calls[c], h) && Extends(h, h', s, DoJob(s, c, step), c)
    ensures ReturnTold(DoJob(s, c, step), c, JobUpdate(s, c, step), h')
  {
  }

  lemma JobTellsCallback(s: State, c: CallId, step: JobStep, h: set<Event>, h': set<Event>)
    requires JobEnabled(s, c, step) && CallInv(s, c, s.calls[c]) && s.calls[c].created
    requires CallbackTold(s.calls[c], h) && Extends(h, h', s, DoJob(s, c, step), c)
    requires CancelWins in h ==> s.calls[c].completed
    ensures CallbackTold(JobUpdate(s, c, step), h')
  {
  }

  lemma JobTells(s: State, c: CallId, step: JobStep, h: set<Event>, h': set<Event>)
    requires JobEnabled(s, c, step) && CallInv(s, c, s.calls[c])
    requires Told(s, c, h) && Extends(h, h', s, DoJob(s, c, step), c)
    ensures Told(DoJob(s, c, step), c, h')
  {
    assert s.calls[c].created;
    JobTellsReturn(s, c, step, h, h');
    JobTellsCallback(s, c, step, h, h');
  }

  /** Another call's step. */
  lemma OtherTells(s: State, s': State, c: CallId, h: set<Event>, h': set<Event>)
    requires c in s.calls <==> c in s'.calls
    requires c in s.calls ==> s'.calls[c] == s.calls[c] && (Cancelling(s', c) <==> Cancelling(s, c))
    requires Told(s, c, h) && Extends(h, h', s, s', c)
    ensures Told(s', c, h')
  {
    assert h' == h;
  }

  lemma StepTells(s: State, step: Step, c: CallId, h: set<Event>, h': set<Event>)
    requires Inv(s) && Enabled(s, step) && Told(s, c, h) && Extends(h, h', s, Do(s, step), c)
    ensures Told(Do(s, step), c, h')
  {
    if c in s.calls {
      assert CallInv(s, c, s.calls[c]);
    }
    match step
    case OfSection(x) =>
      if c in s.calls {
        SectionEffect(s, x, c);
        SectionTells(s, DoSection(s, x), x, c, h, h');
      } else {
        SectionAddsNoCall(s, x);
        OtherTells(s, DoSection(s, x), c, h, h');
      }
    case OfCaller(d, x) =>
      if c == d { CallerTells(s, c, x, h, h'); } else { OtherTells(s, DoCaller(s, d, x), c, h, h'); }
    case OfJob(d, x) =>
      if c == d { JobTells(s, c, x, h, h'); } else { OtherTells(s, DoJob(s, d, x), c, h, h'); }
    case DropEpoch(e) => OtherTells(s, DoDropEpoch(s, e), c, h, h');
  }

  lemma SectionAddsNoCall(s: State, step: SectionStep)
    requires SectionEnabled(s, step)
    ensures DoSection(s, step).calls.Keys == s.calls.Keys
  {
  }

  lemma NextTells(s: State, s': State, c: CallId, h: set<Event>)
    requires Inv(s) && Next(s, s') && Told(s, c, h)
    ensures Told(s', c, h + New(s, s', c))
  {
    var step :| Enabled(s, step) && s' == Do(s, step);
    NewExtends(h, s, s', c);
    StepTells(s, step, c, h, h + New(s, s', c));
  }

  lemma {:induction false} RunTells(run: seq<State>, n: nat, c: CallId)
    requires IsRun(run) && n < |run|
    ensures Told(run[n], c, History(run, n, c))
  {
    if n > 0 {
      RunTells(run, n - 1, c);
      RunInv(run, n - 1);
      assert StepAt(run, n - 1);
      NextTells(run[n - 1], run[n], c, History(run, n - 1, c));
    }
  }

  /**
   Exactly when a call fails: if and only if, on the run loop thread, its lookup failed; or
   there was no sender to be had; or `send` found the token set or gone at its first read, or the queue gone at the enqueue, or the token set at its second
   read, or else a writer other than a successful `complete` won the slot: the shutdown's
   `cancel`, or a `complete` whose lookup of the run loop failed.
   */
  lemma WhenCallFails(run: seq<State>, n: nat, c: CallId)
    requires IsRun(run) && n < |run| && c in run[n].calls
    requires run[n].calls[c].pc.Returned?
    ensures run[n].calls[c].pc.outcome.Err? <==>
              || Happened(run, n, c, InlineLookupFails) || Happened(run, n, c, NoSender)
              || Happened(run, n, c, FirstReadRefuses) || Happened(run, n, c, EnqueueRefuses)
              || Happened(run, n, c, SecondReadRefuses)
              || Happened(run, n, c, CancelWins) || Happened(run, n, c, FailureWins)
  {
    RunTells(run, n, c);
    HistoryIsHappened(run, n, c);
  }

  /**
   The documentation of `call` promises an error only if the run loop shuts down before the
   queued callback starts. Exactly when a call fails although its callback runs: if and only
   if its second read of the token refused and the callback ran, or it was cancelled between
   the callback and `complete`, or its callback ran after it had been cancelled.
   */
  lemma WhenCallFailsAlthoughItRan(run: seq<State>, n: nat, c: CallId)
    requires IsRun(run) && n < |run| && c in run[n].calls
    requires run[n].calls[c].pc.Returned?
    ensures run[n].calls[c].pc.outcome.Err? && run[n].calls[c].runs == 1 <==>
              || (Happened(run, n, c, SecondReadRefuses) && Happened(run, n, c, CallbackRuns))
              || Happened(run, n, c, CancelWinsLate)
              || Happened(run, n, c, CallbackRunsCancelled)
  {
    RunTells(run, n, c);
    HistoryIsHappened(run, n, c);
    RunInv(run, n);
    assert CallInv(run[n], c, run[n].calls[c]);
  }

  // One run for each of the three.

  lemma Extend(run: seq<State>, step: Step) returns (longer: seq<State>)
    requires IsRun(run) && Enabled(run[|run| - 1], step)
    ensures IsRun(longer) && run <= longer && |longer| == |run| + 1
    ensures longer[|run|] == Do(run[|run| - 1], step)
  {
    var s' := Do(run[|run| - 1], step);
    longer := run + [s'];
    assert Next(run[|run| - 1], s');
    forall i: nat ensures StepAt(longer, i) {
      assert StepAt(run, i);
    }
  }

  function Last(run: seq<State>): State
    requires run != []
  {
    run[|run| - 1]
  }

  /** One thread initializes the run loop; its epoch is number 0. */
  lemma InitializedRun(t: Thread) returns (run: seq<State>)
    ensures IsRun(run)
    ensures Last(run) == State([Epoch(t, false, false, false)], Free, 1, multiset{t}, Some(0), Some(0), Some(t), [], map[])
  {
    run := [INITIAL];
    run := Extend(run, OfSection(InitEnter(t)));
    run := Extend(run, OfSection(InitInstance));
    run := Extend(run, OfSection(InitSender));
    run := Extend(run, OfSection(InitThread));
    run := Extend(run, OfSection(InitCount));
  }

  /** Thread `u` has queued its closure, and is just before the second read of the token. */
  lemma EnqueuedRun(t: Thread, u: Thread, c: CallId, v: Value) returns (run: seq<State>)
    requires t != u
    ensures IsRun(run)
    ensures Last(run) ==
              State([Epoch(t, false, false, false)], Free, 1, multiset{t}, Some(0), Some(0), Some(t), [c],
                    map[c := Call(u, 0, Enqueued, Queued, true, false, None, 0, 0, None, None, false)])
  {
    run := InitializedRun(t);
    run := Extend(run, OfCaller(c, CallStart(u, v)));
    run := Extend(run, OfCaller(c, CallSender));
    run := Extend(run, OfCaller(c, CallRegister));
    run := Extend(run, OfCaller(c, SendCheck));
    run := Extend(run, OfCaller(c, SendEnqueue));
  }

  /** The run loop then executes the closure to its end. */
  lemma StoredRun(t: Thread, u: Thread, c: CallId, v: Value) returns (run: seq<State>)
    requires t != u
    ensures IsRun(run)
    ensures Last(run) ==
              State([Epoch(t, false, false, false)], Free, 1, multiset{t}, Some(0), Some(0), Some(t), [c],
                    map[c := Call(u, 0, Enqueued, Finished, true, true, Some(Ok(v)), 1, 1, Some(v), Some(t), false)])
  {
    run := EnqueuedRun(t, u, c, v);
    run := Extend(run, OfJob(c, JobStart(v)));
    run := Extend(run, OfJob(c, JobSwap));
    run := Extend(run, OfJob(c, JobStore));
  }

  /** The second read turns a call whose result is in the slot already into an error. */
  lemma SecondReadHidesResult(t: Thread, u: Thread, c: CallId, v: Value) returns (run: seq<State>)
    requires t != u
    ensures IsRun(run) && c in Last(run).calls && Happened(run, |run| - 1, c, SecondReadRefuses)
    ensures var k := Last(run).calls[c];
      k.pc == Returned(Err(NotInitialized)) && k.runs == 1 && k.produced == Some(v) && k.slot == Some(Ok(v))
  {
    run := StoredRun(t, u, c, v);
    assert ThreadFree(Last(run), t);
    run := Extend(run, OfSection(ReleaseEnter(t)));
    run := Extend(run, OfSection(ShutMark));
    run := Extend(run, OfSection(ShutToken));
    ghost var n: nat := |run| - 1;
    run := Extend(run, OfCaller(c, SendRecheck));
    assert OccursAt(run, n, c, SecondReadRefuses);
  }

  /** A parked caller, and its call record. */
  function Parking(u: Thread, job: Job, runs: nat, produced: Option<Value>, ranOn: Option<Thread>): Call {
    Call(u, 0, Parked, job, true, false, None, 0, runs, produced, ranOn, false)
  }

  /** The last guard goes: shutdown up to its cancel loop. */
  lemma AnnouncedRun(before: seq<State>, t: Thread, c: CallId, k: Call) returns (run: seq<State>)
    requires IsRun(before) && !k.job.Storing?
    requires Last(before) ==
               State([Epoch(t, false, false, false)], Free, 1, multiset{t}, Some(0), Some(0), Some(t), [c], map[c := k])
    ensures IsRun(run)
    ensures Last(run) ==
              State([Epoch(t, true, true, false)], CancelCalls(t, 0, [c], None), 0, multiset{}, Some(0), Some(0), Some(t), [],
                    map[c := k])
  {
    run := before;
    assert ThreadFree(Last(run), t);
    run := Extend(run, OfSection(ReleaseEnter(t)));
    run := Extend(run, OfSection(ShutMark));
    run := Extend(run, OfSection(ShutToken));
    run := Extend(run, OfSection(ShutTake));
  }

  /** The cancel loop wins the swap of its one call, and sets the slot. */
  lemma CancelledRun(before: seq<State>, t: Thread, c: CallId, k: Call) returns (run: seq<State>)
    requires IsRun(before) && !k.dead && !k.completed && !k.job.Storing? && k.slot == None
    requires Last(before) ==
               State([Epoch(t, true, true, false)], CancelCalls(t, 0, [c], None), 0, multiset{}, Some(0), Some(0), Some(t), [],
                     map[c := k])
    ensures IsRun(run) && before <= run && |run| == |before| + 2
    ensures run[|before|] ==
              State([Epoch(t, true, true, false)], CancelCalls(t, 0, [], Some(c)), 0, multiset{}, Some(0), Some(0), Some(t), [],
                    map[c := k.(completed := true)])
    ensures Last(run) ==
              State([Epoch(t, true, true, false)], CancelCalls(t, 0, [], None), 0, multiset{}, Some(0), Some(0), Some(t), [],
                    map[c := k.(completed := true, slot := Some(Err(NotInitialized)), writes := k.writes + 1)])
  {
    assert ThreadFree(Last(before), t);
    run := Extend(before, OfSection(ShutCancelNext));
    run := Extend(run, OfSection(ShutCancelStore));
  }

  lemma ParkedRun(t: Thread, u: Thread, c: CallId, v: Value) returns (run: seq<State>)
    requires t != u
    ensures IsRun(run)
    ensures Last(run) == State([Epoch(t, false, false, false)], Free, 1, multiset{t}, Some(0), Some(0), Some(t), [c],
                               map[c := Parking(u, Queued, 0, None, None)])
  {
    run := EnqueuedRun(t, u, c, v);
    run := Extend(run, OfCaller(c, SendRecheck));
  }

  /** The callback drops the last guard: the call is cancelled before its own result is reported. */
  lemma CallbackShutsDown(t: Thread, u: Thread, c: CallId, v: Value) returns (run: seq<State>)
    requires t != u
    ensures IsRun(run) && c in Last(run).calls && Happened(run, |run| - 1, c, CancelWinsLate)
    ensures var k := Last(run).calls[c];
      k.pc == Returned(Err(NotInitialized)) && k.runs == 1 && k.produced == Some(v) && k.job == Running(Ok(v))
  {
    run := ParkedRun(t, u, c, v);
    run := Extend(run, OfJob(c, JobStart(v)));
    run := AnnouncedRun(run, t, c, Parking(u, Running(Ok(v)), 1, Some(v), Some(t)));
    ghost var n: nat := |run| - 1;
    run := CancelledRun(run, t, c, Parking(u, Running(Ok(v)), 1, Some(v), Some(t)));
    assert OccursAt(run, n, c, CancelWinsLate);
    run := Extend(run, OfCaller(c, CallCollect));
    assert OccursAt(run, n, c, CancelWinsLate);
  }

  /** A parked call is cancelled and returns; the shutdown ends, and the same thread initializes the run loop again. */
  lemma ReinitializedRun(t: Thread, u: Thread, c: CallId, v: Value) returns (run: seq<State>)
    requires t != u
    ensures IsRun(run)
    ensures Last(run) ==
              State([Epoch(t, true, true, false), Epoch(t, false, false, false)], Free, 1, multiset{t},
                    Some(1), Some(1), Some(t), [],
                    map[c := Call(u, 0, Returned(Err(NotInitialized)), Queued, true, true, None, 1, 0, None, None, false)])
  {
    run := ParkedRun(t, u, c, v);
    run := AnnouncedRun(run, t, c, Parking(u, Queued, 0, None, None));
    run := CancelledRun(run, t, c, Parking(u, Queued, 0, None, None));
    run := Extend(run, OfCaller(c, CallCollect));
    run := EndShutdownRun(run, t, Last(run).calls);
    run := Extend(run, OfSection(InitEnter(t)));
    run := Extend(run, OfSection(InitInstance));
    run := Extend(run, OfSection(InitSender));
    run := Extend(run, OfSection(InitThread));
    run := Extend(run, OfSection(InitCount));
  }

  lemma EndShutdownRun(before: seq<State>, t: Thread, calls: map<CallId, Call>) returns (run: seq<State>)
    requires IsRun(before) && forall c | c in calls :: !calls[c].job.Storing?
    requires Last(before) == State([Epoch(t, true, true, false)], CancelCalls(t, 0, [], None), 0, multiset{},
                                   Some(0), Some(0), Some(t), [], calls)
    ensures IsRun(run)
    ensures Last(run) == State([Epoch(t, true, true, false)], Free, 0, multiset{}, None, None, None, [], calls)
  {
    run := before;
    assert ThreadFree(Last(run), t);
    run := Extend(run, OfSection(ShutCancelDone));
    run := Extend(run, OfSection(ShutAbort));
    run := Extend(run, OfSection(ShutClearThread));
    run := Extend(run, OfSection(ShutClearInstance));
    run := Extend(run, OfSection(ShutClearSender));
  }

  /** The closure is still in the old queue, and the new run loop's thread pumps it: the callback runs in the new epoch. */
  lemma StaleClosureRuns(t: Thread, u: Thread, c: CallId, v: Value) returns (run: seq<State>)
    requires t != u
    ensures IsRun(run) && c in Last(run).calls && Happened(run, |run| - 1, c, CallbackRunsCancelled)
    ensures var k := Last(run).calls[c];
      k.pc == Returned(Err(NotInitialized)) && k.runs == 1 && k.produced == Some(v) && k.epoch == 0
    ensures Last(run).instance == Some(1)
  {
    run := ReinitializedRun(t, u, c, v);
    ghost var n: nat := |run| - 1;
    run := Extend(run, OfJob(c, JobStart(v)));
    assert OccursAt(run, n, c, CallbackRunsCancelled);
  }
}
