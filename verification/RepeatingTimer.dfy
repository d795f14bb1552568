/**
 The repeating timer on top of a scheduler, and the cancelling handles between
 them. The scheduler is either kind: one that takes a timer out of its map only
 to fire it (win32), or one whose drain extracts due timers first (Darwin).
 Callbacks may do anything with the timer: start, stop, drop it, or run a
 nested loop in which it ticks again.
 */
module RepeatingTimer {
  import opened Wrappers

  type HandleId = nat

  /** Whose callback an entry of the scheduler is. */
  datatype Callback = Tick | Other

  /** `extracted`: taken out of the map by a drain, callback still to run. */
  datatype Scheduler = Scheduler(timers: map<HandleId, Callback>, extracted: map<HandleId, Callback>, next: HandleId)

  /** `ticks`: how many ticks are inside the user callback, each holding the inner value alive. */
  datatype Timer = Timer(isRunning: bool, current: Option<HandleId>, owned: bool, ticks: nat)

  datatype State = State(scheduler: Scheduler, timer: Timer)

  const INITIAL := State(Scheduler(map[], map[], 1), Timer(false, None, true, 0))

  /** `Handle::cancel` of a handle that was not consumed yet. */
  function Cancel(s: Scheduler, h: Option<HandleId>): Scheduler {
    if h.Some? then s.(timers := s.timers - {h.value}) else s
  }

  /** Schedule the next tick; storing its handle drops, and so cancels, the old one. */
  function ScheduleNext(s: State): State {
    var h := s.scheduler.next;
    var registered := s.scheduler.(timers := s.scheduler.timers[h := Tick], next := h + 1);
    State(Cancel(registered, s.timer.current), s.timer.(current := Some(h)))
  }

  function Start(s: State): State {
    if s.timer.isRunning then s else ScheduleNext(s.(timer := s.timer.(isRunning := true)))
  }

  function Stop(s: State): State {
    State(Cancel(s.scheduler, s.timer.current), s.timer.(isRunning := false, current := None))
  }

  /** When the owner and every executing tick are gone, so is the inner value, and its handle is dropped. */
  function Release(s: State): State {
    if s.timer.owned || s.timer.ticks > 0 then s
    else State(Cancel(s.scheduler, s.timer.current), s.timer.(current := None))
  }

  function DropTimer(s: State): State {
    var stopped := Stop(s);
    Release(stopped.(timer := stopped.timer.(owned := false)))
  }

  /** `run_timer_tick` up to the user callback, which begins only if the weak reference upgrades and the timer runs. */
  function TickBegins(s: State): State {
    if (!s.timer.owned && s.timer.ticks == 0) || !s.timer.isRunning then s
    else s.(timer := s.timer.(ticks := s.timer.ticks + 1))
  }

  /** `run_timer_tick` from the return of the user callback on. */
  function TickEnds(s: State): State
    requires s.timer.ticks > 0
  {
    var s1 := ScheduleNext(s);
    Release(s1.(timer := s1.timer.(ticks := s1.timer.ticks - 1)))
  }

  datatype Step =
    | StartCalled
    | StopCalled
    | OwnerDropped
    | Fire(h: HandleId)            // win32: leaves the map and runs at once
    | Extract(h: HandleId)         // Darwin: leaves the map
    | RunExtracted(h: HandleId)    // Darwin: runs
    | CallbackReturns              // of the innermost executing tick
    | OtherScheduled
    | OtherUnscheduled(h: HandleId)

  predicate Enabled(s: State, step: Step) {
    match step
    case StartCalled => s.timer.owned
    case StopCalled => s.timer.owned
    case OwnerDropped => s.timer.owned
    case Fire(h) => h in s.scheduler.timers
    case Extract(h) => h in s.scheduler.timers
    case RunExtracted(h) => h in s.scheduler.extracted
    case CallbackReturns => s.timer.ticks > 0
    case OtherScheduled => true
    // Others know only handles they were given; the timer's handle is private to it.
    case OtherUnscheduled(h) => h < s.scheduler.next && (h in s.scheduler.timers ==> s.scheduler.timers[h] == Other)
  }

  function Do(s: State, step: Step): State
    requires Enabled(s, step)
  {
    var sch := s.scheduler;
    match step
    case StartCalled => Start(s)
    case StopCalled => Stop(s)
    case OwnerDropped => DropTimer(s)
    case Fire(h) =>
      var s1 := s.(scheduler := sch.(timers := sch.timers - {h}));
      if sch.timers[h] == Tick then TickBegins(s1) else s1
    case Extract(h) => s.(scheduler := sch.(timers := sch.timers - {h}, extracted := sch.extracted[h := sch.timers[h]]))
    case RunExtracted(h) =>
      var s1 := s.(scheduler := sch.(extracted := sch.extracted - {h}));
      if sch.extracted[h] == Tick then TickBegins(s1) else s1
    case CallbackReturns => TickEnds(s)
    case OtherScheduled => s.(scheduler := sch.(timers := sch.timers[sch.next := Other], next := sch.next + 1))
    case OtherUnscheduled(h) => s.(scheduler := sch.(timers := sch.timers - {h}))
  }

  ghost predicate Next(s: State, s': State) {
    exists step: Step :: Enabled(s, step) && s' == Do(s, step)
  }

  ghost predicate StepAt(run: seq<State>, i: nat) {
    i + 1 < |run| ==> Next(run[i], run[i + 1])
  }

  ghost predicate IsRun(run: seq<State>) {
    run != [] && run[0] == INITIAL && forall i: nat :: StepAt(run, i)
  }

  /** A tick is waiting in the map under `h`. */
  predicate IsTick(s: State, h: HandleId) {
    h in s.scheduler.timers && s.scheduler.timers[h] == Tick
  }

  /** A drain holds a tick that it is going to run. */
  ghost predicate TickExtracted(s: State) {
    exists h :: h in s.scheduler.extracted && s.scheduler.extracted[h] == Tick
  }

  ghost predicate Inv(s: State) {
    && (forall h | h in s.scheduler.timers :: h < s.scheduler.next)
    && (forall h | h in s.scheduler.extracted :: h < s.scheduler.next && h !in s.scheduler.timers)
    && (s.timer.current.Some? ==> s.timer.current.value < s.scheduler.next)
    && (forall h: nat | IsTick(s, h) :: s.timer.current == Some(h))
    && (s.timer.current.Some? && s.timer.current.value in s.scheduler.timers ==> IsTick(s, s.timer.current.value))
    && (s.timer.isRunning ==> s.timer.owned)
    && (s.timer.isRunning && s.timer.ticks == 0 ==>
          TickExtracted(s) || (s.timer.current.Some? && IsTick(s, s.timer.current.value)))
    && (!s.timer.owned && s.timer.ticks == 0 ==> s.timer.current == None)
  }

  lemma ScheduleNextKeeps(s: State)
    requires forall h | h in s.scheduler.timers :: h < s.scheduler.next
    requires s.timer.current.Some? ==> s.timer.current.value < s.scheduler.next
    requires forall h: nat | IsTick(s, h) :: s.timer.current == Some(h)
    ensures var r := ScheduleNext(s);
      && (forall h | h in r.scheduler.timers :: h < r.scheduler.next)
      && r.timer == s.timer.(current := Some(s.scheduler.next)) && IsTick(r, s.scheduler.next)
      && (forall h: nat | IsTick(r, h) :: h == s.scheduler.next)
      && r.scheduler.next == s.scheduler.next + 1 && r.scheduler.extracted == s.scheduler.extracted
  {
    var r := ScheduleNext(s);
    forall h: nat | IsTick(r, h) ensures h == s.scheduler.next {
      assert h != s.scheduler.next ==> IsTick(s, h);
    }
  }

  lemma OwnerKeeps(s: State, step: Step)
    requires Inv(s) && Enabled(s, step) && (step.StartCalled? || step.StopCalled? || step.OwnerDropped?)
    ensures Inv(Do(s, step))
  {
    if step.StartCalled? && !s.timer.isRunning {
      ScheduleNextKeeps(s.(timer := s.timer.(isRunning := true)));
    }
  }

  lemma FireKeeps(s: State, h: HandleId)
    requires Inv(s) && Enabled(s, Fire(h))
    ensures Inv(Do(s, Fire(h)))
  {
  }

  lemma ExtractKeeps(s: State, step: Step)
    requires Inv(s) && Enabled(s, step) && (step.Extract? || step.RunExtracted?)
    ensures Inv(Do(s, step))
  {
    ExtractedTicks(s, Do(s, step), step.h);
  }

  lemma ReturnKeeps(s: State)
    requires Inv(s) && Enabled(s, CallbackReturns)
    ensures Inv(Do(s, CallbackReturns))
  {
    ScheduleNextKeeps(s);
  }

  lemma OthersKeep(s: State, step: Step)
    requires Inv(s) && Enabled(s, step) && (step.OtherScheduled? || step.OtherUnscheduled?)
    ensures Inv(Do(s, step))
  {
  }

  lemma StepInv(s: State, step: Step)
    requires Inv(s) && Enabled(s, step)
    ensures Inv(Do(s, step))
  {
    match step
    case Fire(h) => FireKeeps(s, h);
    case Extract(_) => ExtractKeeps(s, step);
    case RunExtracted(_) => ExtractKeeps(s, step);
    case CallbackReturns => ReturnKeeps(s);
    case OtherScheduled => OthersKeep(s, step);
    case OtherUnscheduled(_) => OthersKeep(s, step);
    case _ => OwnerKeeps(s, step);
  }

  /** Moving `h` in or out of the drain does not hide the other ticks the drain holds. */
  lemma ExtractedTicks(s: State, s': State, h: HandleId)
    requires forall g | g != h && g in s.scheduler.extracted ::
               g in s'.scheduler.extracted && s'.scheduler.extracted[g] == s.scheduler.extracted[g]
    ensures TickExtracted(s) && (h in s.scheduler.extracted ==> s.scheduler.extracted[h] != Tick) ==> TickExtracted(s')
    ensures h in s'.scheduler.extracted && s'.scheduler.extracted[h] == Tick ==> TickExtracted(s')
  {
  }

  lemma NextInv(s: State, s': State)
    requires Inv(s) && Next(s, s')
    ensures Inv(s')
  {
    var step :| Enabled(s, step) && s' == Do(s, step);
    StepInv(s, step);
  }

  lemma {:induction false} RunInv(run: seq<State>, i: nat)
    requires IsRun(run) && i < |run|
    ensures Inv(run[i])
  {
    if i > 0 {
      RunInv(run, i - 1);
      assert StepAt(run, i - 1);
      NextInv(run[i - 1], run[i]);
    }
  }

  /**
   Under every interleaving of start, stop, drop and ticks, from inside callbacks
   too, at most one tick of the timer is registered, and it is the one whose handle
   the timer keeps; dropped for good, the timer leaves none behind.
   */
  lemma AtMostOneTick(run: seq<State>, i: nat)
    requires IsRun(run) && i < |run|
    ensures forall g: nat, h: nat | IsTick(run[i], g) && IsTick(run[i], h) :: g == h
    ensures forall h: nat | IsTick(run[i], h) :: run[i].timer.current == Some(h)
    ensures !run[i].timer.owned && run[i].timer.ticks == 0 ==> forall h: nat :: !IsTick(run[i], h)
  {
    RunInv(run, i);
  }

  /**
   While the timer runs and no tick is executing, exactly one tick is registered;
   on Darwin it may instead have been extracted by a drain that is about to run it.
   */
  lemma RunningTimerTicks(run: seq<State>, i: nat)
    requires IsRun(run) && i < |run| && run[i].timer.isRunning && run[i].timer.ticks == 0
    ensures TickExtracted(run[i]) || exists h: nat :: IsTick(run[i], h)
    ensures run[i].scheduler.extracted == map[] ==> exists h: nat ::
              IsTick(run[i], h) && run[i].timer.current == Some(h) && forall g: nat | IsTick(run[i], g) :: g == h
  {
    RunInv(run, i);
    if !TickExtracted(run[i]) {
      assert IsTick(run[i], run[i].timer.current.value);
    }
  }

  /** The step takes a tick out of the map or out of a drain, to run it. */
  predicate RunsTick(s: State, step: Step)
    requires Enabled(s, step)
  {
    match step
    case Fire(h) => s.scheduler.timers[h] == Tick
    case RunExtracted(h) => s.scheduler.extracted[h] == Tick
    case _ => false
  }

  /** The user callback begins exactly when a tick runs while the timer is running. */
  lemma WhenCallbackBegins(run: seq<State>, i: nat, step: Step)
    requires IsRun(run) && i < |run| && Enabled(run[i], step)
    ensures Do(run[i], step).timer.ticks > run[i].timer.ticks <==> run[i].timer.isRunning && RunsTick(run[i], step)
    ensures run[i].timer.isRunning ==> run[i].timer.owned
  {
    RunInv(run, i);
  }

  /** `stop` leaves no tick registered, and none of anybody else's timers is touched by it, even with a stale handle. */
  lemma StopCancelsOnlyItsTick(run: seq<State>, i: nat)
    requires IsRun(run) && i < |run| && run[i].timer.owned
    ensures var s' := Do(run[i], StopCalled);
      && !s'.timer.isRunning && (forall h: nat :: !IsTick(s', h))
      && (forall h: nat | h in run[i].scheduler.timers && run[i].scheduler.timers[h] == Other ::
            h in s'.scheduler.timers && s'.scheduler.timers[h] == Other)
      && s'.scheduler.extracted == run[i].scheduler.extracted
  {
    RunInv(run, i);
    var s' := Do(run[i], StopCalled);
    forall h: nat ensures !IsTick(s', h) {
      assert IsTick(s', h) ==> IsTick(run[i], h);
    }
  }

  /** The same for a tick that returns: the handle it replaces may have fired long ago, and cancelling it hurts nobody. */
  lemma TickReplacesOnlyItsTick(run: seq<State>, i: nat)
    requires IsRun(run) && i < |run| && run[i].timer.ticks > 0
    ensures var s' := Do(run[i], CallbackReturns);
      forall h: nat | h in run[i].scheduler.timers && run[i].scheduler.timers[h] == Other ::
        h in s'.scheduler.timers && s'.scheduler.timers[h] == Other
  {
    RunInv(run, i);
  }

  /** `h` is the one tick that waits, and its handle is the one the timer keeps. */
  ghost predicate OnlyTick(s: State, h: HandleId) {
    IsTick(s, h) && s.timer.current == Some(h) && forall g: nat | IsTick(s, g) :: g == h
  }

  /** `start` makes the timer run wherever it is called, also after `stop` inside a callback: a running one is left alone, any other gets a new tick. */
  lemma StartMakesItRun(run: seq<State>, i: nat)
    requires IsRun(run) && i < |run| && Enabled(run[i], StartCalled)
    ensures var s := run[i]; var s' := Do(s, StartCalled);
      && s'.timer.isRunning && s'.timer.owned && s'.timer.ticks == s.timer.ticks
      && (if s.timer.isRunning then s' == s else OnlyTick(s', s.scheduler.next))
  {
    RunInv(run, i);
    if !run[i].timer.isRunning {
      ScheduleNextKeeps(run[i].(timer := run[i].timer.(isRunning := true)));
    }
  }

  /** A callback that returns has its next tick registered, running or not, unless the timer went down with it. */
  lemma ReturnRegistersTick(run: seq<State>, i: nat)
    requires IsRun(run) && i < |run| && Enabled(run[i], CallbackReturns)
    ensures var s := run[i]; var s' := Do(s, CallbackReturns);
      && s'.timer.isRunning == s.timer.isRunning && s'.timer.owned == s.timer.owned && s'.timer.ticks == s.timer.ticks - 1
      && (if s.timer.owned || s.timer.ticks > 1 then OnlyTick(s', s.scheduler.next)
          else s'.timer.current == None && forall h: nat :: !IsTick(s', h))
  {
    RunInv(run, i);
    ScheduleNextKeeps(run[i]);
    ReturnKeeps(run[i]);
  }

  /** Dropping the owner stops the timer at once. */
  lemma DropStops(run: seq<State>, i: nat)
    requires IsRun(run) && i < |run| && Enabled(run[i], OwnerDropped)
    ensures var s' := Do(run[i], OwnerDropped);
      !s'.timer.owned && !s'.timer.isRunning && s'.timer.ticks == run[i].timer.ticks && forall h: nat :: !IsTick(s', h)
  {
    RunInv(run, i);
    var s' := Do(run[i], OwnerDropped);
    forall h: nat ensures !IsTick(s', h) {
      assert IsTick(s', h) ==> IsTick(run[i], h);
    }
  }

  // Ticks that are stopped while they wait.

  /** A drain holds the tick `h`. */
  predicate HeldTick(s: State, h: HandleId) {
    h in s.scheduler.extracted && s.scheduler.extracted[h] == Tick
  }

  predicate PendingTick(s: State, h: HandleId) { IsTick(s, h) || HeldTick(s, h) }

  /** Between `run[k]` and `run[k + 1]` the tick `h` is taken and the user callback begins. */
  predicate Begins(run: seq<State>, k: nat, h: HandleId)
    requires k + 1 < |run|
  {
    PendingTick(run[k], h) && !PendingTick(run[k + 1], h) && run[k + 1].timer.ticks > run[k].timer.ticks
  }

  /** Between `run[k]` and `run[k + 1]` the drain that holds the tick `h` reaches it. */
  predicate Reached(run: seq<State>, k: nat, h: HandleId)
    requires k + 1 < |run|
  {
    HeldTick(run[k], h) && !HeldTick(run[k + 1], h)
  }

  /** A handle that was given out and is in neither map. */
  predicate Gone(s: State, h: HandleId) {
    h < s.scheduler.next && h !in s.scheduler.timers && h !in s.scheduler.extracted
  }

  lemma StepFromHeld(s: State, step: Step, h: HandleId)
    requires Inv(s) && Enabled(s, step) && HeldTick(s, h)
    ensures var s' := Do(s, step); if step == RunExtracted(h) then Gone(s', h) else HeldTick(s', h) && h !in s'.scheduler.timers
  {
  }

  lemma StepFromGone(s: State, step: Step, h: HandleId)
    requires Enabled(s, step) && Gone(s, h)
    ensures Gone(Do(s, step), h)
  {
  }

  /** A tick that a drain holds stays there until it is reached, and is gone from then on. */
  lemma {:induction false} HeldOrGone(run: seq<State>, j: nat, k: nat, h: HandleId)
    requires IsRun(run) && j <= k < |run| && (HeldTick(run[j], h) || Gone(run[j], h))
    ensures HeldTick(run[k], h) || Gone(run[k], h)
    ensures Gone(run[j], h) ==> Gone(run[k], h)
  {
    if j < k {
      HeldOrGone(run, j, k - 1, h);
      RunInv(run, k - 1);
      assert StepAt(run, k - 1);
      var step :| Enabled(run[k - 1], step) && run[k] == Do(run[k - 1], step);
      if HeldTick(run[k - 1], h) {
        StepFromHeld(run[k - 1], step, h);
      } else {
        StepFromGone(run[k - 1], step, h);
      }
    }
  }

  /** Once held, a tick begins exactly when it is reached while the timer runs. */
  lemma HeldBegins(run: seq<State>, k: nat, h: HandleId)
    requires IsRun(run) && k + 1 < |run| && (HeldTick(run[k], h) || Gone(run[k], h))
    ensures Begins(run, k, h) <==> Reached(run, k, h) && run[k].timer.isRunning
  {
    RunInv(run, k);
    assert StepAt(run, k);
    var step :| Enabled(run[k], step) && run[k + 1] == Do(run[k], step);
    WhenCallbackBegins(run, k, step);
    if HeldTick(run[k], h) {
      StepFromHeld(run[k], step, h);
    }
  }

  /** What `stop` does to a pending tick: one that waits in the map is gone, one that a drain holds stays. */
  lemma StopSplits(s: State, h: HandleId)
    requires Inv(s) && s.timer.owned && PendingTick(s, h)
    ensures HeldTick(s, h) ==> HeldTick(Stop(s), h)
    ensures !HeldTick(s, h) ==> Gone(Stop(s), h)
  {
  }

  /**
   Exactly which stopped ticks begin their callback. A tick that is pending when the timer
   is stopped begins later if and only if a drain holds it at that moment, and the timer
   is running again when the drain reaches it.
   */
  lemma WhenAStoppedTickBegins(run: seq<State>, j: nat, h: HandleId)
    requires IsRun(run) && j + 1 < |run| && run[j].timer.owned && run[j + 1] == Do(run[j], StopCalled)
    requires PendingTick(run[j], h)
    ensures (exists k: nat :: j < k && k + 1 < |run| && Begins(run, k, h)) <==>
              && HeldTick(run[j], h)
              && exists k: nat :: j < k && k + 1 < |run| && Reached(run, k, h) && run[k].timer.isRunning
  {
    RunInv(run, j);
    StopSplits(run[j], h);
    forall k: nat | j < k && k + 1 < |run|
      ensures Begins(run, k, h) <==> Reached(run, k, h) && run[k].timer.isRunning
      ensures Reached(run, k, h) ==> HeldTick(run[j], h)
    {
      HeldOrGone(run, j + 1, k, h);
      HeldBegins(run, k, h);
    }
  }

  /** On win32 nothing is ever extracted, so a stopped tick never begins. */
  lemma NoStoppedTickBegins(run: seq<State>, j: nat, k: nat, h: HandleId)
    requires IsRun(run) && j < k && k + 1 < |run| && run[j].timer.owned && run[j + 1] == Do(run[j], StopCalled)
    requires PendingTick(run[j], h) && run[j].scheduler.extracted == map[]
    ensures !Begins(run, k, h)
  {
    WhenAStoppedTickBegins(run, j, h);
  }

  lemma Extend(run: seq<State>, step: Step) returns (longer: seq<State>)
    requires IsRun(run) && Enabled(run[|run| - 1], step)
    ensures IsRun(longer) && run <= longer && |longer| == |run| + 1
    ensures longer[|run|] == Do(run[|run| - 1], step)
  {
    var s' := Do(run[|run| - 1], step);
    longer := run + [s'];
    assert Next(run[|run| - 1], s');
    forall i: nat ensures StepAt(longer, i) {
      assert StepAt(run, i);
    }
  }

  /** A drain has extracted a tick and somebody else's timer, whose callback it is running first. */
  lemma DrainHoldsTickRun() returns (run: seq<State>)
    ensures IsRun(run)
    ensures run[|run| - 1] == State(Scheduler(map[], map[1 := Tick], 3), Timer(true, Some(1), true, 0))
  {
    run := [INITIAL];
    run := Extend(run, StartCalled);
    run := Extend(run, OtherScheduled);
    run := Extend(run, Extract(1));
    run := Extend(run, Extract(2));
    run := Extend(run, RunExtracted(2));
  }

  /** That callback stops and restarts the timer: the stopped tick begins at once, while the next one is registered too. */
  lemma RestartedTimerTicksAtOnce() returns (run: seq<State>)
    ensures IsRun(run) && |run| > 3 && run[|run| - 4].timer.owned && run[|run| - 3] == Do(run[|run| - 4], StopCalled)
    ensures Begins(run, |run| - 2, 1)
    ensures var s := run[|run| - 1]; s.timer.isRunning && s.timer.ticks == 1 && IsTick(s, 3) && s.timer.current == Some(3)
  {
    run := DrainHoldsTickRun();
    run := Extend(run, StopCalled);
    run := Extend(run, StartCalled);
    run := Extend(run, RunExtracted(1));
  }

  // The objects.

  class LoopTimers {
    var timers: map<HandleId, Callback>
    var extracted: map<HandleId, Callback>
    var next: HandleId

    ghost function View(): Scheduler
      reads this
    {
      Scheduler(timers, extracted, next)
    }

    method Schedule(callback: Callback) returns (h: HandleId)
      modifies this
      ensures h == old(next)
      ensures View() == old(View()).(timers := old(timers)[h := callback], next := h + 1)
    {
      h := next;
      next := next + 1;
      timers := timers[h := callback];
    }

    method Unschedule(h: HandleId)
      modifies this
      ensures View() == Cancel(old(View()), Some(h))
    {
      timers := timers - {h};
    }
  }

  /** `Handle`: `onCancel` is None once the cancel action was consumed. */
  class Handle {
    const loop: LoopTimers
    var onCancel: Option<HandleId>

    constructor (l: LoopTimers, h: HandleId)
      ensures loop == l && onCancel == Some(h)
    {
      loop, onCancel := l, Some(h);
    }

    /** Unschedules at most once, however often it is called. */
    method CancelNow()
      modifies this, loop
      ensures onCancel == None && loop.View() == Cancel(old(loop.View()), old(onCancel))
    {
      if onCancel.Some? {
        var h := onCancel.value;
        onCancel := None;
        loop.Unschedule(h);
      }
    }

    /** Afterwards neither `cancel` nor drop unschedules anything. */
    method Detach()
      modifies this
      ensures onCancel == None
    {
      onCancel := None;
    }
  }

  class TimerInner {
    const loop: LoopTimers
    var isRunning: bool
    var currentHandle: Handle?
    var owned: bool
    var ticks: nat

    /** The stored handle, if any, is an unconsumed one of the same loop. */
    ghost predicate Valid()
      reads this, currentHandle
    {
      currentHandle != null ==> currentHandle.loop == loop && currentHandle.onCancel.Some?
    }

    ghost function View(): State
      reads this, currentHandle, loop
    {
      State(loop.View(),
            Timer(isRunning, if currentHandle == null then None else currentHandle.onCancel, owned, ticks))
    }

    constructor (l: LoopTimers)
      ensures Valid() && loop == l && View() == State(l.View(), INITIAL.timer)
    {
      loop, isRunning, currentHandle, owned, ticks := l, false, null, true, 0;
    }

    /** Take the handle out and drop it. */
    method DropHandle()
      requires Valid()
      modifies this`currentHandle, currentHandle, loop
      ensures currentHandle == null
      ensures View() == State(Cancel(old(loop.View()), old(View()).timer.current), old(View()).timer.(current := None))
    {
      var handle := currentHandle;
      currentHandle := null;
      if handle != null {
        handle.CancelNow();
      }
    }

    method ScheduleNextTick()
      requires Valid()
      modifies this`currentHandle, currentHandle, loop
      ensures Valid() && fresh(currentHandle) && View() == ScheduleNext(old(View()))
    {
      var h := loop.Schedule(Tick);
      var handle := new Handle(loop, h);
      DropHandle();
      currentHandle := handle;
    }

    method StartTimer()
      requires Valid()
      modifies this, currentHandle, loop
      ensures Valid() && View() == Start(old(View()))
    {
      var was := isRunning;
      isRunning := true;
      if was {
        return;
      }
      ScheduleNextTick();
    }

    method StopTimer()
      requires Valid()
      modifies this, currentHandle, loop
      ensures Valid() && View() == Stop(old(View()))
    {
      isRunning := false;
      DropHandle();
    }

    method DropOwner()
      requires Valid()
      modifies this, currentHandle, loop
      ensures Valid() && View() == DropTimer(old(View()))
    {
      StopTimer();
      owned := false;
      if ticks == 0 {
        DropHandle();
      }
    }

    /** The first half of `run_timer_tick`: whether the user callback is called now. */
    method BeginTick() returns (runs: bool)
      requires Valid()
      modifies this`ticks
      ensures Valid() && View() == TickBegins(old(View())) && runs == (ticks > old(ticks))
    {
      runs := false;
      if !owned && ticks == 0 {
        return; // the weak reference does not upgrade
      }
      if !isRunning {
        return;
      }
      ticks := ticks + 1;
      runs := true;
    }

    /** The second half, once the callback has returned. */
    method EndTick()
      requires Valid() && ticks > 0
      modifies this, currentHandle, loop
      ensures Valid() && View() == TickEnds(old(View()))
    {
      ScheduleNextTick();
      ticks := ticks - 1;
      if !owned && ticks == 0 {
        DropHandle();
      }
    }
  }
}
