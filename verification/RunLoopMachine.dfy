/**
 The process-wide run loop as a machine of atomic steps: reference-counted
 init and shutdown under `INIT_MUTEX`, and any number of background threads
 inside `RunLoop::call`.

 One step is one atomic operation of the program: one load, store or swap of
 an atomic, one critical section of a mutex, or the start of a closure on the
 run loop thread. Threads, epochs (one per successful `initialize`) and calls
 are unbounded, and steps of different threads interleave freely.
 */
module RunLoopMachine {
  import opened Wrappers

  type Thread = nat
  type EpochId = nat
  type CallId = nat
  type Value = int

  datatype Error = AlreadyInitialized | NotInitialized | NotRunLoopThread

  datatype Result = Ok(value: Value) | Err(error: Error)

  /** One `RunLoopInner`; `dropped` once its `Arc`, and with it the platform queue, is gone. */
  datatype Epoch = Epoch(owner: Thread, hasShutdown: bool, token: bool, dropped: bool)

  /** Where the calling thread stands inside `RunLoop::call`. */
  datatype Pc =
    | Calling                     // not the run loop thread; about to read RUN_LOOP_SENDER
    | GotSender                   // holds a sender of `epoch`
    | Registered                  // its completion is in PENDING_CALLS; about to call `send`
    | Checked                     // first read of the token said "up"
    | Enqueued                    // closure pushed; about to read the token again
    | Parked                      // `send` returned true; inside `get_blocking`
    | Returned(outcome: Result)

  /** Where the closure handed to `send` stands. */
  datatype Job =
    | Unsent
    | Queued
    | Running(result: Result)     // evaluated on the run loop thread; `complete` not yet reached
    | Storing(result: Result)     // won the `completed` swap; about to set the slot
    | Finished

  datatype Call = Call(
    thread: Thread,
    epoch: EpochId,
    pc: Pc,
    job: Job,
    created: bool,                // the completion object exists
    completed: bool,              // CallCompletion::completed
    slot: Option<Result>,         // the blocking variable
    writes: nat,                  // how often the slot was written
    runs: nat,                    // how often the user callback ran
    produced: Option<Value>,      // what it returned
    ranOn: Option<Thread>,        // where it ran
    dead: bool)                   // the completion object was freed

  /** The holder of INIT_MUTEX and its next atomic operation. */
  datatype Section =
    | Free
    | SetInstance(t: Thread)
    | SetSender(t: Thread, e: EpochId)
    | SetThread(t: Thread, e: EpochId)
    | SetCount(t: Thread, e: EpochId)
    | MarkShutdown(t: Thread)
    | StoreToken(t: Thread, e: EpochId)
    | TakeCalls(t: Thread, e: EpochId)
    | CancelCalls(t: Thread, e: EpochId, todo: seq<CallId>, storing: Option<CallId>)
    | AbortTasks(t: Thread, e: EpochId)
    | ClearThread(t: Thread)
    | ClearInstance(t: Thread)
    | ClearSender(t: Thread)

  datatype State = State(
    epochs: seq<Epoch>,
    section: Section,
    initCount: nat,
    guards: multiset<Thread>,     // one entry per live RunLoopGuard, by the thread that holds it
    instance: Option<EpochId>,
    sender: Option<EpochId>,
    threadId: Option<Thread>,
    pending: seq<CallId>,         // PENDING_CALLS
    calls: map<CallId, Call>)

  const INITIAL: State := State([], Free, 0, multiset{}, None, None, None, [], map[])

  /** INIT_MUTEX sections of `init` and `release_guard`. */
  datatype SectionStep =
    | InitEnter(t: Thread)
    | InitInstance
    | InitSender
    | InitThread
    | InitCount
    | ReleaseEnter(t: Thread)
    | ShutMark
    | ShutToken
    | ShutTake
    | ShutCancelNext
    | ShutCancelStore
    | ShutCancelDone
    | ShutAbort
    | ShutClearThread
    | ShutClearInstance
    | ShutClearSender

  /** A thread inside `RunLoop::call`, down to `RunLoopSender::send` and `get_blocking`. */
  datatype CallerStep =
    | CallStart(t: Thread, v: Value)
    | CallSender
    | CallRegister
    | SendCheck
    | SendEnqueue
    | SendRecheck
    | CallCollect

  /** The closure of a call on the run loop thread, and its destructors. */
  datatype JobStep =
    | JobStart(v: Value)
    | JobSwap
    | JobStore
    | JobDiscard
    | DropCompletion

  datatype Step =
    | OfSection(section: SectionStep)
    | OfCaller(c: CallId, caller: CallerStep)
    | OfJob(c: CallId, job: JobStep)
    | DropEpoch(e: EpochId)

  /** The flags of epoch `e`; an epoch that was never created reads as gone. */
  function At(s: State, e: EpochId): Epoch {
    if e < |s.epochs| then s.epochs[e] else Epoch(0, true, true, true)
  }

  /** `current_local` on thread `t`: None when it succeeds. */
  function CurrentLocal(s: State, t: Thread): Option<Error> {
    if s.threadId.None? then Some(NotInitialized)
    else if s.threadId.value != t then Some(NotRunLoopThread)
    else if s.instance.None? then Some(NotInitialized)
    else if At(s, s.instance.value).hasShutdown then Some(NotInitialized)
    else None
  }

  /** `retain` on PENDING_CALLS: entries whose completion can no longer be upgraded go. */
  function Retain(p: seq<CallId>, calls: map<CallId, Call>): (r: seq<CallId>)
    ensures forall c :: c in r <==> c in p && (c in calls ==> !calls[c].dead)
  {
    if p == [] then []
    else if p[0] in calls && calls[p[0]].dead then Retain(p[1..], calls)
    else [p[0]] + Retain(p[1..], calls)
  }

  /** No `complete` is between its swap and its store on thread `t`. */
  ghost predicate ThreadFree(s: State, t: Thread) {
    forall c | c in s.calls && s.calls[c].job.Storing? :: At(s, s.calls[c].epoch).owner != t
  }

  /** Thread `t` is inside `initialize` or `shutdown`, at a point where no other code of `t` can run. */
  predicate Busy(s: State, t: Thread) {
    s.section != Free && !s.section.AbortTasks? && s.section.t == t
  }

  ghost predicate SectionEnabled(s: State, step: SectionStep) {
    match step
    case InitEnter(t) => s.section == Free
    case InitInstance => s.section.SetInstance?
    case InitSender => s.section.SetSender?
    case InitThread => s.section.SetThread?
    case InitCount => s.section.SetCount?
    // Guards are !Send: the thread that holds one drops it. It is in the middle of nothing else.
    case ReleaseEnter(t) => s.section == Free && t in s.guards && s.initCount > 0 && ThreadFree(s, t)
    case ShutMark => s.section.MarkShutdown?
    case ShutToken => s.section.StoreToken? && s.section.e < |s.epochs|
    case ShutTake => s.section.TakeCalls?
    case ShutCancelNext =>
      s.section.CancelCalls? && s.section.storing == None && s.section.todo != [] && ThreadFree(s, s.section.t)
    case ShutCancelStore => s.section.CancelCalls? && s.section.storing.Some? && s.section.storing.value in s.calls
    case ShutCancelDone =>
      s.section.CancelCalls? && s.section.storing == None && s.section.todo == [] && ThreadFree(s, s.section.t)
    case ShutAbort => s.section.AbortTasks?
    case ShutClearThread => s.section.ClearThread?
    case ShutClearInstance => s.section.ClearInstance?
    case ShutClearSender => s.section.ClearSender?
  }

  ghost function DoSection(s: State, step: SectionStep): State
    requires SectionEnabled(s, step)
  {
    match step
    case InitEnter(t) =>
      if s.initCount == 0 then s.(section := SetInstance(t))
      else if s.threadId != Some(t) then s // Err(NotRunLoopThread)
      else if CurrentLocal(s, t).None? then s.(initCount := s.initCount + 1, guards := s.guards + multiset{t})
      else s.(initCount := s.initCount + 1) // `?` after the increment: no guard
    case InitInstance =>
      var t := s.section.t;
      if s.instance.Some? then s.(section := Free) // Err(AlreadyInitialized)
      else
        var e := |s.epochs|;
        s.(epochs := s.epochs + [Epoch(t, false, false, false)], instance := Some(e), section := SetSender(t, e))
    case InitSender => s.(sender := Some(s.section.e), section := SetThread(s.section.t, s.section.e))
    case InitThread => s.(threadId := Some(s.section.t), section := SetCount(s.section.t, s.section.e))
    case InitCount =>
      var t := s.section.t;
      if CurrentLocal(s, t).None? then s.(initCount := 1, guards := s.guards + multiset{t}, section := Free)
      else s.(initCount := 1, section := Free)
    case ReleaseEnter(t) =>
      s.(initCount := s.initCount - 1, guards := s.guards - multiset{t},
         section := if s.initCount == 1 then MarkShutdown(t) else Free)
    case ShutMark =>
      var t := s.section.t;
      if s.instance.None? || s.instance.value >= |s.epochs| then s.(section := ClearThread(t))
      else
        var e := s.instance.value;
        s.(epochs := s.epochs[e := s.epochs[e].(hasShutdown := true)], section := StoreToken(t, e))
    case ShutToken =>
      var e := s.section.e;
      s.(epochs := s.epochs[e := s.epochs[e].(token := true)], section := TakeCalls(s.section.t, e))
    case ShutTake => s.(pending := [], section := CancelCalls(s.section.t, s.section.e, s.pending, None))
    case ShutCancelNext =>
      var c := s.section.todo[0];
      var rest := s.section.todo[1..];
      if c in s.calls && !s.calls[c].dead && !s.calls[c].completed then
        s.(calls := s.calls[c := s.calls[c].(completed := true)],
           section := s.section.(todo := rest, storing := Some(c)))
      else s.(section := s.section.(todo := rest))
    case ShutCancelStore =>
      var c := s.section.storing.value;
      s.(calls := s.calls[c := s.calls[c].(slot := Some(Err(NotInitialized)), writes := s.calls[c].writes + 1)],
         section := s.section.(storing := None))
    case ShutCancelDone => s.(section := AbortTasks(s.section.t, s.section.e))
    case ShutAbort => s.(section := ClearThread(s.section.t))
    case ShutClearThread => s.(threadId := None, section := ClearInstance(s.section.t))
    case ShutClearInstance => s.(instance := None, section := ClearSender(s.section.t))
    case ShutClearSender => s.(sender := None, section := Free)
  }

  ghost predicate CallerEnabled(s: State, c: CallId, step: CallerStep) {
    match step
    case CallStart(t, v) => c !in s.calls && !Busy(s, t)
    case CallSender => c in s.calls && s.calls[c].pc == Calling
    case CallRegister => c in s.calls && s.calls[c].pc == GotSender
    case SendCheck => c in s.calls && s.calls[c].pc == Registered
    case SendEnqueue => c in s.calls && s.calls[c].pc == Checked
    case SendRecheck => c in s.calls && s.calls[c].pc == Enqueued
    case CallCollect => c in s.calls && s.calls[c].pc == Parked && s.calls[c].slot.Some?
  }

  /** The record of call `c` after the step. */
  ghost function CallerUpdate(s: State, c: CallId, step: CallerStep): Call
    requires CallerEnabled(s, c, step)
  {
    match step
    case CallStart(t, v) =>
      var k := Call(t, 0, Calling, Unsent, false, false, None, 0, 0, None, None, false);
      if s.threadId != Some(t) then k
      else if CurrentLocal(s, t).None? then
        k.(pc := Returned(Ok(v)), job := Finished, runs := 1, produced := Some(v), ranOn := Some(t))
      else k.(pc := Returned(Err(CurrentLocal(s, t).value)), job := Finished)
    case CallSender =>
      if s.sender.None? then s.calls[c].(pc := Returned(Err(NotInitialized)))
      else s.calls[c].(pc := GotSender, epoch := s.sender.value)
    case CallRegister => s.calls[c].(pc := Registered, created := true)
    case SendCheck =>
      var e := At(s, s.calls[c].epoch);
      s.calls[c].(pc := if e.dropped || e.token then Returned(Err(NotInitialized)) else Checked)
    case SendEnqueue =>
      if At(s, s.calls[c].epoch).dropped then s.calls[c].(pc := Returned(Err(NotInitialized)))
      else s.calls[c].(pc := Enqueued, job := Queued)
    case SendRecheck =>
      s.calls[c].(pc := if At(s, s.calls[c].epoch).token then Returned(Err(NotInitialized)) else Parked)
    case CallCollect => s.calls[c].(pc := Returned(s.calls[c].slot.value), slot := None)
  }

  ghost function DoCaller(s: State, c: CallId, step: CallerStep): State
    requires CallerEnabled(s, c, step)
  {
    s.(calls := s.calls[c := CallerUpdate(s, c, step)],
       pending := if step.CallRegister? then Retain(s.pending, s.calls) + [c] else s.pending)
  }

  ghost predicate JobEnabled(s: State, c: CallId, step: JobStep) {
    && c in s.calls
    && var k := s.calls[c];
    match step
    case JobStart(v) => k.job == Queued && !At(s, k.epoch).dropped && !Busy(s, At(s, k.epoch).owner)
    case JobSwap => k.job.Running?
    case JobStore => k.job.Storing?
    case JobDiscard => k.job == Queued && At(s, k.epoch).dropped
    // The caller's own strong reference lives until `call` returns, the closure's until it ran or was dropped.
    case DropCompletion =>
      && k.created && !k.dead && k.pc.Returned? && (k.job == Unsent || k.job == Finished)
      && !(s.section.CancelCalls? && s.section.storing == Some(c))
  }

  /** The record of call `c` after the step. */
  ghost function JobUpdate(s: State, c: CallId, step: JobStep): Call
    requires JobEnabled(s, c, step)
  {
    var k := s.calls[c];
    match step
    case JobStart(v) =>
      var t := At(s, k.epoch).owner;
      if CurrentLocal(s, t).None? then
        k.(job := Running(Ok(v)), runs := k.runs + 1, produced := Some(v), ranOn := Some(t))
      else k.(job := Running(Err(CurrentLocal(s, t).value)))
    case JobSwap => if k.completed then k.(job := Finished) else k.(job := Storing(k.job.result), completed := true)
    case JobStore => k.(job := Finished, slot := Some(k.job.result), writes := k.writes + 1)
    case JobDiscard => k.(job := Finished)
    case DropCompletion =>
      if k.completed then k.(dead := true)
      else k.(dead := true, completed := true, slot := Some(Err(NotInitialized)), writes := k.writes + 1)
  }

  ghost function DoJob(s: State, c: CallId, step: JobStep): State
    requires JobEnabled(s, c, step)
  {
    s.(calls := s.calls[c := JobUpdate(s, c, step)])
  }

  /** The last `Arc` of a run loop that is no longer the installed one goes, and its queue with it. */
  ghost function DoDropEpoch(s: State, e: EpochId): State
    requires e < |s.epochs| && s.instance != Some(e)
  {
    s.(epochs := s.epochs[e := s.epochs[e].(dropped := true)])
  }

  ghost predicate Enabled(s: State, step: Step) {
    match step
    case OfSection(x) => SectionEnabled(s, x)
    case OfCaller(c, x) => CallerEnabled(s, c, x)
    case OfJob(c, x) => JobEnabled(s, c, x)
    case DropEpoch(e) => e < |s.epochs| && s.instance != Some(e)
  }

  ghost function Do(s: State, step: Step): State
    requires Enabled(s, step)
  {
    match step
    case OfSection(x) => DoSection(s, x)
    case OfCaller(c, x) => DoCaller(s, c, x)
    case OfJob(c, x) => DoJob(s, c, x)
    case DropEpoch(e) => DoDropEpoch(s, e)
  }

  ghost predicate Next(s: State, s': State) {
    exists step: Step :: Enabled(s, step) && s' == Do(s, step)
  }

  ghost predicate StepAt(run: seq<State>, i: nat) {
    i + 1 < |run| ==> Next(run[i], run[i + 1])
  }

  /** A run from process start: consecutive states are related by one step. */
  ghost predicate IsRun(run: seq<State>) {
    run != [] && run[0] == INITIAL && forall i: nat :: StepAt(run, i)
  }
}
