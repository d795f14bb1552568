/** What every step of the run loop machine keeps. */
module RunLoopInvariant {
  import opened Wrappers
  import opened RunLoopMachine

  /** The shutdown of `e` has already taken PENDING_CALLS. */
  ghost predicate Taken(s: State, e: EpochId) {
    e < |s.epochs| && s.epochs[e].token && !(s.section.TakeCalls? && s.section.e == e)
  }

  /** The shutdown of `e` has finished its cancel loop. */
  ghost predicate CancelFinished(s: State, e: EpochId) {
    Taken(s, e) && !(s.section.CancelCalls? && s.section.e == e)
  }

  /** The cancel loop still has `c` ahead of it. */
  ghost predicate InTodo(s: State, c: CallId) {
    s.section.CancelCalls? && c in s.section.todo
  }

  /** Shutdown won the `completed` swap of `c` and is about to set the slot. */
  ghost predicate Cancelling(s: State, c: CallId) {
    s.section.CancelCalls? && s.section.storing == Some(c)
  }

  /** All four globals of the current epoch are published and it is up. */
  ghost predicate UpAs(s: State, t: Thread, e: EpochId) {
    && e < |s.epochs| && s.instance == Some(e) && s.sender == Some(e) && s.threadId == Some(t)
    && s.epochs[e] == Epoch(t, false, false, false)
  }

  ghost predicate AllNone(s: State) {
    s.instance == None && s.sender == None && s.threadId == None
  }

  ghost predicate Published(s: State, t: Thread, e: EpochId) {
    && e < |s.epochs| && s.epochs[e].owner == t && s.instance == Some(e) && s.sender == Some(e)
  }

  /** What the holder of INIT_MUTEX relies on, and what it leaves behind when it lets go. */
  ghost predicate LifecycleInv(s: State) {
    && (s.section != Free && !s.section.SetInstance? ==> s.initCount == 0 && s.guards == multiset{})
    && match s.section
       case Free =>
         && s.initCount == |s.guards|
         && (s.initCount == 0 ==> AllNone(s))
         && (s.initCount > 0 ==>
               s.instance.Some? && s.threadId.Some? && UpAs(s, s.threadId.value, s.instance.value)
               && forall t | t in s.guards :: t == s.threadId.value)
       case SetInstance(t) => s.initCount == 0 && s.guards == multiset{} && AllNone(s)
       case SetSender(t, e) => e < |s.epochs| && s.instance == Some(e) && s.sender == None && s.threadId == None
                               && s.epochs[e] == Epoch(t, false, false, false)
       case SetThread(t, e) => e < |s.epochs| && s.instance == Some(e) && s.sender == Some(e) && s.threadId == None
                               && s.epochs[e] == Epoch(t, false, false, false)
       case SetCount(t, e) => UpAs(s, t, e)
       case MarkShutdown(t) => s.instance.Some? && UpAs(s, t, s.instance.value)
       case StoreToken(t, e) => Published(s, t, e) && s.threadId == Some(t) && s.epochs[e].hasShutdown
       case TakeCalls(t, e) => Published(s, t, e) && s.threadId == Some(t) && s.epochs[e].token
       case CancelCalls(t, e, _, _) => Published(s, t, e) && s.threadId == Some(t) && s.epochs[e].token
       case AbortTasks(t, e) => Published(s, t, e) && s.threadId == Some(t) && s.epochs[e].token
       case ClearThread(t) => s.instance.Some? && Published(s, t, s.instance.value) && s.threadId == Some(t)
                              && s.epochs[s.instance.value].token
       case ClearInstance(t) => s.instance.Some? && Published(s, t, s.instance.value) && s.threadId == None
                                && s.epochs[s.instance.value].token
       case ClearSender(t) => s.instance == None && s.threadId == None
  }

  ghost predicate EpochInv(s: State) {
    && (s.sender.Some? ==> s.sender.value < |s.epochs|)
    && forall e | 0 <= e < |s.epochs| ::
         && (s.epochs[e].token ==> s.epochs[e].hasShutdown)
         && (s.epochs[e].dropped ==> s.epochs[e].token)
         && (!s.epochs[e].token ==> s.instance == Some(e))
  }

  predicate Registering(pc: Pc) { pc == Registered || pc == Checked || pc == Enqueued || pc == Parked }

  predicate PastCheck(pc: Pc) { pc == Checked || pc == Enqueued || pc == Parked }

  predicate JobLive(job: Job) { job == Queued || job.Running? || job.Storing? }

  /** Registration precedes the token store, hence the list take, hence the cancel. */
  ghost predicate CancelInv(s: State, c: CallId, k: Call) {
    && (k.pc == GotSender || Registering(k.pc) || JobLive(k.job) ==> k.epoch < |s.epochs|)
    && (Registering(k.pc) ==> k.created && !k.dead && (c in s.pending || InTodo(s, c) || k.completed))
    && (k.dead ==> k.pc.Returned? && !JobLive(k.job) && k.completed)
    && (Taken(s, k.epoch) && PastCheck(k.pc) ==>
          && c !in s.pending
          && (InTodo(s, c) || Cancelling(s, c) ==> s.section.e == k.epoch))
    && (CancelFinished(s, k.epoch) && k.pc == Parked ==> k.completed && !k.job.Storing?)
  }

  /** The swap on `completed` picks one writer of the slot. */
  ghost predicate SlotInv(s: State, c: CallId, k: Call) {
    && (k.job.Storing? ==> !Cancelling(s, c))
    && (k.job.Storing? || Cancelling(s, c) ==> k.completed && k.writes == 0)
    && (k.writes == 0 ==> k.slot == None)
    && (!k.completed ==> k.writes == 0)
    && (k.completed && !k.job.Storing? && !Cancelling(s, c) ==> k.writes == 1)
    && (k.writes == 1 && k.slot == None ==> k.pc.Returned?)
    && (!k.created ==> !k.completed && (k.job == Unsent || k.job == Finished))
    && (k.pc == Calling || k.pc == GotSender ==> !k.created)
    && (k.pc == Calling || k.pc == GotSender || k.pc == Registered || k.pc == Checked ==> k.job == Unsent)
  }

  /** A success value is what the one execution of the callback produced. */
  ghost predicate ValueInv(s: State, k: Call) {
    && k.runs <= 1
    && (k.runs == 1 <==> k.produced.Some?)
    && (k.runs == 1 <==> k.ranOn.Some?)
    && (k.runs == 1 && k.created ==> k.epoch < |s.epochs| && k.ranOn == Some(s.epochs[k.epoch].owner))
    && (k.runs == 1 && !k.created ==> k.ranOn == Some(k.thread))
    && (k.job == Unsent || k.job == Queued ==> k.runs == 0)
    && ((k.job.Running? || k.job.Storing?) && k.job.result.Ok? ==> k.produced == Some(k.job.result.value))
    && (k.slot.Some? && k.slot.value.Ok? ==> k.produced == Some(k.slot.value.value))
    && (k.pc.Returned? && k.pc.outcome.Ok? ==> k.produced == Some(k.pc.outcome.value))
  }

  /** A background call sees an error only once its epoch is being shut down. */
  ghost predicate ErrorInv(s: State, k: Call) {
    k.created ==>
      && ((k.job.Running? || k.job.Storing?) && k.job.result.Err? ==> At(s, k.epoch).token)
      && (k.slot.Some? && k.slot.value.Err? ==> At(s, k.epoch).token)
      && (k.pc.Returned? && k.pc.outcome.Err? ==> At(s, k.epoch).token)
      && (k.pc.Returned? && k.pc.outcome.Ok? ==> k.completed)
      && (k.pc.Returned? ==> k.epoch < |s.epochs|)
  }

  ghost predicate CallInv(s: State, c: CallId, k: Call) {
    CancelInv(s, c, k) && SlotInv(s, c, k) && ValueInv(s, k) && ErrorInv(s, k)
  }

  ghost predicate ListsInv(s: State) {
    && (forall c | c in s.pending :: c in s.calls && s.calls[c].created)
    && (s.section.CancelCalls? ==>
          && (forall c | c in s.section.todo :: c in s.calls && s.calls[c].created)
          && (s.section.storing.Some? ==> s.section.storing.value in s.calls && s.calls[s.section.storing.value].created))
  }

  ghost predicate CallsInv(s: State) {
    forall c | c in s.calls :: CallInv(s, c, s.calls[c])
  }

  ghost predicate Inv(s: State) {
    GlobalsInv(s) && CallsInv(s)
  }

  /** The cancel loop runs on the owning thread, with the token of the installed epoch set. */
  ghost predicate CancellerInv(s: State) {
    s.section.CancelCalls? ==>
      s.instance == Some(s.section.e) && At(s, s.section.e).owner == s.section.t && At(s, s.section.e).token
  }

  // Sections under INIT_MUTEX.

  predicate Initializes(step: SectionStep) {
    step.InitEnter? || step.InitInstance? || step.InitSender? || step.InitThread? || step.InitCount?
  }

  /** `initialize` only appends an epoch. */
  ghost predicate Appends(s: State, s': State) {
    && s.epochs <= s'.epochs && s'.calls == s.calls && s'.pending == s.pending
    && !s.section.TakeCalls? && !s.section.CancelCalls? && !s'.section.TakeCalls? && !s'.section.CancelCalls?
  }

  lemma InitAppends(s: State, step: SectionStep)
    requires SectionEnabled(s, step) && Initializes(step)
    ensures Appends(s, DoSection(s, step))
  {
  }

  lemma InitKeepsLifecycle(s: State, step: SectionStep)
    requires LifecycleInv(s)
    requires SectionEnabled(s, step) && Initializes(step)
    ensures LifecycleInv(DoSection(s, step))
  {
  }

  lemma ReleaseKeepsLifecycle(s: State, t: Thread)
    requires LifecycleInv(s) && SectionEnabled(s, ReleaseEnter(t))
    ensures LifecycleInv(DoSection(s, ReleaseEnter(t)))
  {
  }

  /** `shutdown` up to its cancel loop. */
  predicate Announces(step: SectionStep) { step.ShutMark? || step.ShutToken? || step.ShutTake? }

  lemma AnnounceKeepsLifecycle(s: State, step: SectionStep)
    requires LifecycleInv(s) && EpochInv(s) && SectionEnabled(s, step) && Announces(step)
    ensures LifecycleInv(DoSection(s, step))
  {
  }

  predicate Cancels(step: SectionStep) { step.ShutCancelNext? || step.ShutCancelStore? }

  lemma CancelKeepsLifecycle(s: State, step: SectionStep)
    requires LifecycleInv(s) && SectionEnabled(s, step) && Cancels(step)
    ensures LifecycleInv(DoSection(s, step))
  {
  }

  /** `shutdown` from the end of its cancel loop on. */
  predicate Clears(step: SectionStep) {
    step.ShutCancelDone? || step.ShutAbort? || step.ShutClearThread? || step.ShutClearInstance? || step.ShutClearSender?
  }

  lemma ClearKeepsLifecycle(s: State, step: SectionStep)
    requires LifecycleInv(s) && EpochInv(s) && SectionEnabled(s, step) && Clears(step)
    ensures LifecycleInv(DoSection(s, step))
  {
  }

  lemma SectionKeepsLifecycle(s: State, step: SectionStep)
    requires LifecycleInv(s) && EpochInv(s) && SectionEnabled(s, step)
    ensures LifecycleInv(DoSection(s, step))
  {
    if Initializes(step) {
      InitKeepsLifecycle(s, step);
    } else if step.ReleaseEnter? {
      ReleaseKeepsLifecycle(s, step.t);
    } else if Announces(step) {
      AnnounceKeepsLifecycle(s, step);
    } else if Cancels(step) {
      CancelKeepsLifecycle(s, step);
    } else {
      ClearKeepsLifecycle(s, step);
    }
  }

  lemma InitKeepsEpoch(s: State, step: SectionStep)
    requires LifecycleInv(s) && EpochInv(s) && SectionEnabled(s, step) && Initializes(step)
    ensures EpochInv(DoSection(s, step))
  {
  }

  lemma AnnounceKeepsEpoch(s: State, step: SectionStep)
    requires LifecycleInv(s) && EpochInv(s) && SectionEnabled(s, step) && Announces(step)
    ensures EpochInv(DoSection(s, step))
  {
  }

  lemma SectionKeepsEpoch(s: State, step: SectionStep)
    requires LifecycleInv(s) && EpochInv(s) && SectionEnabled(s, step)
    ensures EpochInv(DoSection(s, step))
  {
    if Initializes(step) {
      InitKeepsEpoch(s, step);
    } else if Announces(step) {
      AnnounceKeepsEpoch(s, step);
    }
  }

  lemma SectionKeepsLists(s: State, step: SectionStep)
    requires ListsInv(s) && SectionEnabled(s, step)
    ensures ListsInv(DoSection(s, step))
  {
    if Initializes(step) {
      InitAppends(s, step);
    } else if Cancels(step) {
      CancelKeepsLists(s, step);
    }
  }

  lemma CancelKeepsLists(s: State, step: SectionStep)
    requires ListsInv(s) && SectionEnabled(s, step) && Cancels(step)
    ensures ListsInv(DoSection(s, step))
  {
  }

  /** What a section does to the epochs, and what it may do to a call. */
  lemma SectionEffect(s: State, step: SectionStep, c: CallId)
    requires SectionEnabled(s, step) && c in s.calls
    ensures var s' := DoSection(s, step);
      && |s.epochs| <= |s'.epochs| && (!Initializes(step) ==> |s'.epochs| == |s.epochs|) && c in s'.calls
      && forall e | 0 <= e < |s.epochs| :: s'.epochs[e].owner == s.epochs[e].owner && (s.epochs[e].token ==> s'.epochs[e].token)
    ensures var s' := DoSection(s, step);
      SectionOnCall(step, s.calls[c], s'.calls[c], Cancelling(s, c), Cancelling(s', c))
  {
  }

  /** Only the cancel loop touches a call: it wins the swap, and then it sets the slot. */
  ghost predicate SectionOnCall(step: SectionStep, k: Call, k': Call, was: bool, now: bool) {
    || (k' == k && now == was)
    || (step == ShutCancelNext && !was && now && !k.dead && !k.completed && k' == k.(completed := true))
    || (step == ShutCancelStore && was && !now && k' == k.(slot := Some(Err(NotInitialized)), writes := k.writes + 1))
  }

  lemma AnnounceKeepsCancel(s: State, step: SectionStep, c: CallId)
    requires c in s.calls && CancelInv(s, c, s.calls[c]) && SectionEnabled(s, step) && Announces(step)
    ensures var s' := DoSection(s, step); CancelInv(s', c, s'.calls[c])
  {
  }

  lemma CancelKeepsCancel(s: State, step: SectionStep, c: CallId)
    requires c in s.calls && CancelInv(s, c, s.calls[c]) && SectionEnabled(s, step) && Cancels(step)
    ensures var s' := DoSection(s, step); CancelInv(s', c, s'.calls[c])
  {
  }

  lemma ShutdownKeepsCancel(s: State, step: SectionStep, c: CallId)
    requires c in s.calls && CancellerInv(s) && CancelInv(s, c, s.calls[c])
    requires SectionEnabled(s, step) && !Initializes(step)
    ensures var s' := DoSection(s, step); CancelInv(s', c, s'.calls[c])
  {
    if Announces(step) {
      AnnounceKeepsCancel(s, step, c);
    } else if Cancels(step) {
      CancelKeepsCancel(s, step, c);
    }
  }

  lemma SectionKeepsSlot(s: State, s': State, step: SectionStep, c: CallId)
    requires c in s.calls && c in s'.calls && SlotInv(s, c, s.calls[c])
    requires SectionOnCall(step, s.calls[c], s'.calls[c], Cancelling(s, c), Cancelling(s', c))
    requires step == ShutCancelNext && !s.calls[c].completed && s'.calls[c].completed ==> s.calls[c].created
    ensures SlotInv(s', c, s'.calls[c])
  {
  }

  lemma SectionKeepsValue(s: State, s': State, step: SectionStep, c: CallId)
    requires c in s.calls && c in s'.calls && ValueInv(s, s.calls[c])
    requires SectionOnCall(step, s.calls[c], s'.calls[c], Cancelling(s, c), Cancelling(s', c))
    requires |s.epochs| <= |s'.epochs| && forall e | 0 <= e < |s.epochs| :: s'.epochs[e].owner == s.epochs[e].owner
    ensures ValueInv(s', s'.calls[c])
  {
  }

  /** The cancel loop's token is the one of every call it cancels. */
  lemma SectionKeepsError(s: State, s': State, step: SectionStep, c: CallId)
    requires c in s.calls && c in s'.calls && ErrorInv(s, s.calls[c])
    requires SectionOnCall(step, s.calls[c], s'.calls[c], Cancelling(s, c), Cancelling(s', c))
    requires |s'.epochs| == |s.epochs| && forall e | 0 <= e < |s.epochs| :: s.epochs[e].token ==> s'.epochs[e].token
    requires step == ShutCancelStore && Cancelling(s, c) ==> At(s, s.calls[c].epoch).token
    ensures ErrorInv(s', s'.calls[c])
  {
  }

  // The calling thread.

  lemma CallerKeepsCancel(s: State, c: CallId, step: CallerStep)
    requires EpochInv(s) && ListsInv(s) && (c in s.calls ==> EpochInv(s) && CancelInv(s, c, s.calls[c]) && SlotInv(s, c, s.calls[c]))
    requires CallerEnabled(s, c, step)
    ensures var s' := DoCaller(s, c, step); CancelInv(s', c, s'.calls[c])
  {
  }

  lemma CallerKeepsSlot(s: State, c: CallId, step: CallerStep)
    requires EpochInv(s) && ListsInv(s) && (c in s.calls ==> CancelInv(s, c, s.calls[c]) && SlotInv(s, c, s.calls[c]))
    requires CallerEnabled(s, c, step)
    ensures var s' := DoCaller(s, c, step); SlotInv(s', c, s'.calls[c])
  {
  }

  lemma CallerKeepsValue(s: State, c: CallId, step: CallerStep)
    requires EpochInv(s) && ListsInv(s) && (c in s.calls ==> CancelInv(s, c, s.calls[c]) && SlotInv(s, c, s.calls[c]) && ValueInv(s, s.calls[c]))
    requires CallerEnabled(s, c, step)
    ensures var s' := DoCaller(s, c, step); ValueInv(s', s'.calls[c])
  {
  }

  lemma CallerKeepsError(s: State, c: CallId, step: CallerStep)
    requires EpochInv(s) && ListsInv(s) && (c in s.calls ==> EpochInv(s) && CancelInv(s, c, s.calls[c]) && SlotInv(s, c, s.calls[c]) && ErrorInv(s, s.calls[c]))
    requires CallerEnabled(s, c, step)
    ensures var s' := DoCaller(s, c, step); ErrorInv(s', s'.calls[c])
  {
  }

  // The closure and the destructors.

  lemma JobKeepsCancel(s: State, c: CallId, step: JobStep)
    requires c in s.calls && EpochInv(s) && CancelInv(s, c, s.calls[c])
    requires JobEnabled(s, c, step)
    ensures var s' := DoJob(s, c, step); CancelInv(s', c, s'.calls[c])
  {
  }

  lemma JobKeepsSlot(s: State, c: CallId, step: JobStep)
    requires c in s.calls && SlotInv(s, c, s.calls[c])
    requires JobEnabled(s, c, step)
    ensures var s' := DoJob(s, c, step); SlotInv(s', c, s'.calls[c])
  {
  }

  lemma JobKeepsValue(s: State, c: CallId, step: JobStep)
    requires c in s.calls && CancelInv(s, c, s.calls[c]) && SlotInv(s, c, s.calls[c]) && ValueInv(s, s.calls[c])
    requires JobEnabled(s, c, step)
    ensures var s' := DoJob(s, c, step); ValueInv(s', s'.calls[c])
  {
  }

  lemma JobKeepsError(s: State, c: CallId, step: JobStep)
    requires c in s.calls && EpochInv(s) && LifecycleInv(s) && CancelInv(s, c, s.calls[c]) && SlotInv(s, c, s.calls[c]) && ErrorInv(s, s.calls[c])
    requires JobEnabled(s, c, step)
    ensures var s' := DoJob(s, c, step); ErrorInv(s', s'.calls[c])
  {
  }

  /** A call is unaffected by a step that leaves epochs, INIT_MUTEX and its own registration alone. */
  lemma OtherCallKept(s: State, s': State, d: CallId, k: Call)
    requires CallInv(s, d, k)
    requires s'.epochs == s.epochs && s'.section == s.section
    requires d in s'.pending ==> d in s.pending
    requires d in s.pending && !k.dead ==> d in s'.pending
    ensures CallInv(s', d, k)
  {
  }

  /** No call notices. */
  lemma AppendKeepsCall(s: State, s': State, c: CallId)
    requires Appends(s, s') && c in s.calls && CallInv(s, c, s.calls[c])
    ensures CallInv(s', c, s'.calls[c])
  {
    assert forall e | 0 <= e < |s.epochs| :: s'.epochs[e] == s.epochs[e];
  }

  lemma SectionKeepsCall(s: State, step: SectionStep, c: CallId)
    requires EpochInv(s) && ListsInv(s) && CancellerInv(s)
    requires c in s.calls && CallInv(s, c, s.calls[c])
    requires SectionEnabled(s, step)
    ensures c in DoSection(s, step).calls && CallInv(DoSection(s, step), c, DoSection(s, step).calls[c])
  {
    if Initializes(step) {
      InitAppends(s, step);
      AppendKeepsCall(s, DoSection(s, step), c);
    } else {
      var s' := DoSection(s, step);
      SectionEffect(s, step, c);
      ShutdownKeepsCancel(s, step, c);
      SectionKeepsSlot(s, s', step, c);
      SectionKeepsValue(s, s', step, c);
      SectionKeepsError(s, s', step, c);
    }
  }

  lemma SectionKeepsCalls(s: State, step: SectionStep)
    requires EpochInv(s) && ListsInv(s) && CancellerInv(s) && CallsInv(s) && SectionEnabled(s, step)
    ensures CallsInv(DoSection(s, step))
  {
    var s' := DoSection(s, step);
    forall c | c in s'.calls ensures CallInv(s', c, s'.calls[c]) {
      SectionKeepsCall(s, step, c);
    }
  }

  lemma CallerKeepsCall(s: State, c: CallId, step: CallerStep)
    requires EpochInv(s) && ListsInv(s) && (c in s.calls ==> CallInv(s, c, s.calls[c]))
    requires CallerEnabled(s, c, step)
    ensures CallInv(DoCaller(s, c, step), c, DoCaller(s, c, step).calls[c])
  {
    CallerKeepsCancel(s, c, step);
    CallerKeepsSlot(s, c, step);
    CallerKeepsValue(s, c, step);
    CallerKeepsError(s, c, step);
  }

  lemma CallerKeepsCalls(s: State, c: CallId, step: CallerStep)
    requires EpochInv(s) && ListsInv(s) && CallsInv(s) && CallerEnabled(s, c, step)
    ensures CallsInv(DoCaller(s, c, step))
  {
    var s' := DoCaller(s, c, step);
    CallerKeepsCall(s, c, step);
    forall d | d in s'.calls && d != c ensures CallInv(s', d, s'.calls[d]) {
      OtherCallKept(s, s', d, s.calls[d]);
    }
  }

  lemma JobKeepsCall(s: State, c: CallId, step: JobStep)
    requires EpochInv(s) && LifecycleInv(s) && c in s.calls && CallInv(s, c, s.calls[c])
    requires JobEnabled(s, c, step)
    ensures CallInv(DoJob(s, c, step), c, DoJob(s, c, step).calls[c])
  {
    JobKeepsCancel(s, c, step);
    JobKeepsSlot(s, c, step);
    JobKeepsValue(s, c, step);
    JobKeepsError(s, c, step);
  }

  lemma JobKeepsCalls(s: State, c: CallId, step: JobStep)
    requires EpochInv(s) && LifecycleInv(s) && CallsInv(s) && JobEnabled(s, c, step)
    ensures CallsInv(DoJob(s, c, step))
  {
    var s' := DoJob(s, c, step);
    JobKeepsCall(s, c, step);
    forall d | d in s'.calls && d != c ensures CallInv(s', d, s'.calls[d]) {
      OtherCallKept(s, s', d, s.calls[d]);
    }
  }

  lemma DropEpochKeepsCalls(s: State, e: EpochId)
    requires CallsInv(s) && e < |s.epochs| && s.instance != Some(e)
    ensures CallsInv(DoDropEpoch(s, e))
  {
  }

  ghost predicate GlobalsInv(s: State) {
    LifecycleInv(s) && EpochInv(s) && ListsInv(s)
  }

  lemma CallerKeepsGlobals(s: State, c: CallId, step: CallerStep)
    requires GlobalsInv(s) && CallerEnabled(s, c, step)
    ensures GlobalsInv(DoCaller(s, c, step))
  {
  }

  lemma JobKeepsGlobals(s: State, c: CallId, step: JobStep)
    requires GlobalsInv(s) && JobEnabled(s, c, step)
    ensures GlobalsInv(DoJob(s, c, step))
  {
  }

  lemma StepKeepsGlobals(s: State, step: Step)
    requires GlobalsInv(s) && Enabled(s, step)
    ensures GlobalsInv(Do(s, step))
  {
    match step
    case OfSection(x) =>
      SectionKeepsLifecycle(s, x);
      SectionKeepsEpoch(s, x);
      SectionKeepsLists(s, x);
    case OfCaller(c, x) => CallerKeepsGlobals(s, c, x);
    case OfJob(c, x) => JobKeepsGlobals(s, c, x);
    case DropEpoch(e) =>
  }

  lemma StepKeepsCalls(s: State, step: Step)
    requires Inv(s) && Enabled(s, step)
    ensures CallsInv(Do(s, step))
  {
    match step
    case OfSection(x) => SectionKeepsCalls(s, x);
    case OfCaller(c, x) => CallerKeepsCalls(s, c, x);
    case OfJob(c, x) => JobKeepsCalls(s, c, x);
    case DropEpoch(e) => DropEpochKeepsCalls(s, e);
  }

  lemma StepInv(s: State, step: Step)
    requires Inv(s) && Enabled(s, step)
    ensures Inv(Do(s, step))
  {
    StepKeepsGlobals(s, step);
    StepKeepsCalls(s, step);
  }

  /** The invariant holds in every state of every run. */
  lemma {:induction false} RunInv(run: seq<State>, i: nat)
    requires IsRun(run) && i < |run|
    ensures Inv(run[i])
  {
    if i > 0 {
      RunInv(run, i - 1);
      assert StepAt(run, i - 1);
      var step :| Enabled(run[i - 1], step) && run[i] == Do(run[i - 1], step);
      StepInv(run[i - 1], step);
    }
  }
}
