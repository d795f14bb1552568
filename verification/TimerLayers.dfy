/** The repeating timer's view of its scheduler, tied to what both platform schedulers log. */
module TimerLayers {
  import opened Wrappers
  import opened TimerLog
  import opened RepeatingTimer

  function Owned(timers: map<HandleId, Instant>, owner: map<HandleId, Callback>): (r: map<HandleId, Callback>)
    requires timers.Keys <= owner.Keys
    ensures r.Keys == timers.Keys
  {
    map h | h in timers :: owner[h]
  }

  lemma OwnedChanges(timers: map<HandleId, Instant>, owner: map<HandleId, Callback>, h: HandleId, d: Instant, c: Callback)
    requires timers.Keys <= owner.Keys
    ensures Owned(timers - {h}, owner) == Owned(timers, owner) - {h}
    ensures Owned(timers[h := d], owner[h := c]) == Owned(timers, owner)[h := c]
    ensures h !in timers ==> Owned(timers, owner[h := c]) == Owned(timers, owner)
    ensures h in owner && owner[h] == c ==> Owned(timers[h := d], owner) == Owned(timers, owner)[h := c]
  {
  }

  /** The scheduler that a log of either platform leaves behind; `owner` says whose callback each handle runs. */
  function OfLog(log: seq<Event>, owner: map<HandleId, Callback>, next: HandleId): Scheduler
    requires Registered(log).Keys + Taken(log).Keys <= owner.Keys
  {
    Scheduler(Owned(Registered(log), owner), Owned(Taken(log), owner), next)
  }

  /** What the machine above does to its scheduler when `e` happens. */
  function OnEvent(s: Scheduler, e: Event, callback: Callback): Scheduler {
    match e
    case Scheduled(h, _) => s.(timers := s.timers[h := callback], next := h + 1)
    case Unscheduled(h) => Cancel(s, Some(h))
    case Extracted(h, _) =>
      if h in s.timers then s.(timers := s.timers - {h}, extracted := s.extracted[h := s.timers[h]]) else s
    case Fired(h, _) => s.(timers := s.timers - {h}, extracted := s.extracted - {h})
  }

  /**
   The layers fit together: every event that a legal log admits moves the scheduler
   as the machine above assumes. Scheduling adds one entry, unscheduling any handle
   at all is `Cancel`, an extraction moves one entry over, and a callback that fires
   was in the map or in a drain and is in neither afterwards.
   */
  lemma LogRefinesScheduler(log: seq<Event>, e: Event, owner: map<HandleId, Callback>, next: HandleId, callback: Callback)
    requires Legal(log) && MayAppend(log, e)
    requires e.Scheduled? ==> e.h == next
    requires Registered(log).Keys + Taken(log).Keys <= owner.Keys
    ensures var owner' := if e.Scheduled? then owner[e.h := callback] else owner;
      && Registered(log + [e]).Keys + Taken(log + [e]).Keys <= owner'.Keys
      && var s := OfLog(log, owner, next);
         OfLog(log + [e], owner', if e.Scheduled? then next + 1 else next) == OnEvent(s, e, callback)
    ensures var s := OfLog(log, owner, next);
      && (e.Extracted? ==> e.h in s.timers)
      && (e.Fired? ==> e.h in s.timers || e.h in s.extracted)
  {
    var r, t, h := Registered(log), Taken(log), e.h;
    StatesAreKnown(log);
    AppendKeepsLegal(log, e);
    match e {
      case Scheduled(_, d) =>
        OwnedChanges(r, owner, h, d, callback);
        OwnedChanges(t, owner, h, d, callback);
      case Unscheduled(_) =>
        OwnedChanges(r, owner, h, 0, Other);
      case Extracted(_, _) =>
        OwnedChanges(r, owner, h, 0, owner[h]);
        OwnedChanges(t, owner, h, r[h], owner[h]);
      case Fired(_, _) =>
        OwnedChanges(r, owner, h, 0, Other);
        OwnedChanges(t, owner, h, 0, Other);
    }
  }

  // Timer and scheduler together.

  /** The repeating timer and what its platform scheduler logs; `owner` says whose callback each handle runs. */
  datatype Layers = Layers(machine: State, log: seq<Event>, owner: map<HandleId, Callback>)

  const START := Layers(INITIAL, [], map[])

  /** One call to the scheduler, or one thing it does by itself. */
  datatype Action = Action(event: Event, callback: Callback)

  function Log(l: Layers, a: Action): Layers {
    Layers(l.machine, l.log + [a.event], if a.event.Scheduled? then l.owner[a.event.h := a.callback] else l.owner)
  }

  function LogAll(l: Layers, actions: seq<Action>): Layers {
    if actions == [] then l else Log(LogAll(l, actions[..|actions| - 1]), actions[|actions| - 1])
  }

  function Unscheduling(h: Option<HandleId>): seq<Action> {
    if h.Some? then [Action(Unscheduled(h.value), Other)] else []
  }

  /** `schedule_next`: the next tick is scheduled, and the handle it replaces is dropped. */
  function SchedulingNext(s: State, deadline: Instant): seq<Action> {
    [Action(Scheduled(s.scheduler.next, deadline), Tick)] + Unscheduling(s.timer.current)
  }

  /** The handle that goes down with the timer when its last tick returns. */
  function Released(s: State): Option<HandleId> {
    if !s.timer.owned && s.timer.ticks == 1 then Some(s.scheduler.next) else None
  }

  /** What a step of the timer has its scheduler do. `time` is the deadline it asks for, or the time of the event. */
  function Actions(s: State, step: Step, time: Instant): seq<Action>
    requires Enabled(s, step)
  {
    match step
    case StartCalled => if s.timer.isRunning then [] else SchedulingNext(s, time)
    case StopCalled => Unscheduling(s.timer.current)
    case OwnerDropped => Unscheduling(s.timer.current)
    case Fire(h) => [Action(Fired(h, time), Other)]
    case Extract(h) => [Action(Extracted(h, time), Other)]
    case RunExtracted(h) => [Action(Fired(h, time), Other)]
    case CallbackReturns => SchedulingNext(s, time) + Unscheduling(Released(s))
    case OtherScheduled => [Action(Scheduled(s.scheduler.next, time), Other)]
    case OtherUnscheduled(h) => Unscheduling(Some(h))
  }

  /** The scheduler extracts and fires only what is due. */
  predicate Due(l: Layers, step: Step, time: Instant) {
    match step
    case Fire(h) => h in Registered(l.log) && Registered(l.log)[h] <= time
    case Extract(h) => h in Registered(l.log) && Registered(l.log)[h] <= time
    case RunExtracted(h) => h in Taken(l.log) && Taken(l.log)[h] <= time
    case _ => true
  }

  ghost predicate LayersNext(l: Layers, l': Layers) {
    exists step: Step, time: Instant ::
      Enabled(l.machine, step) && Due(l, step, time)
      && l' == LogAll(l, Actions(l.machine, step, time)).(machine := Do(l.machine, step))
  }

  ghost predicate LayersStepAt(run: seq<Layers>, i: nat) {
    i + 1 < |run| ==> LayersNext(run[i], run[i + 1])
  }

  ghost predicate IsLayersRun(run: seq<Layers>) {
    run != [] && run[0] == START && forall i: nat :: LayersStepAt(run, i)
  }

  /** The log is legal and leaves behind exactly the scheduler `s`. */
  ghost predicate Fits(l: Layers, s: Scheduler) {
    && Legal(l.log) && Known(l.log) <= l.owner.Keys && (forall h | h in Known(l.log) :: h < s.next)
    && Registered(l.log).Keys + Taken(l.log).Keys <= l.owner.Keys
    && s == OfLog(l.log, l.owner, s.next)
  }

  lemma LogFits(l: Layers, s: Scheduler, a: Action)
    requires Fits(l, s) && MayAppend(l.log, a.event) && (a.event.Scheduled? ==> a.event.h == s.next)
    ensures Fits(Log(l, a), OnEvent(s, a.event, a.callback))
  {
    AppendKeepsLegal(l.log, a.event);
    LogRefinesScheduler(l.log, a.event, l.owner, s.next, a.callback);
  }

  lemma UnschedulingFits(l: Layers, s: Scheduler, h: Option<HandleId>)
    requires Fits(l, s)
    ensures Fits(LogAll(l, Unscheduling(h)), Cancel(s, h))
  {
    if h.Some? {
      LogFits(l, s, Unscheduling(h)[0]);
      assert LogAll(l, Unscheduling(h)[..0]) == l;
    }
  }

  lemma {:induction false} LogAllConcat(l: Layers, a: seq<Action>, b: seq<Action>)
    ensures LogAll(l, a + b) == LogAll(LogAll(l, a), b)
  {
    if b == [] {
      assert a + b == a;
    } else {
      assert (a + b)[..|a + b| - 1] == a + b[..|b| - 1];
      LogAllConcat(l, a, b[..|b| - 1]);
    }
  }

  lemma LogOne(l: Layers, a: Action)
    ensures LogAll(l, [a]) == Log(l, a)
  {
    assert [a][..0] == [];
  }

  lemma SchedulingFits(l: Layers, s: State, deadline: Instant)
    requires Fits(l, s.scheduler)
    ensures Fits(LogAll(l, SchedulingNext(s, deadline)), ScheduleNext(s).scheduler)
  {
    var a := Action(Scheduled(s.scheduler.next, deadline), Tick);
    LogFits(l, s.scheduler, a);
    LogOne(l, a);
    LogAllConcat(l, [a], Unscheduling(s.timer.current));
    UnschedulingFits(Log(l, a), OnEvent(s.scheduler, a.event, Tick), s.timer.current);
  }

  lemma ReturnReleases(s: State)
    requires s.timer.ticks > 0
    ensures TickEnds(s).scheduler == Cancel(ScheduleNext(s).scheduler, Released(s))
  {
  }

  lemma ReturnFits(l: Layers, s: State, next: seq<Action>)
    requires s.timer.ticks > 0 && Fits(LogAll(l, next), ScheduleNext(s).scheduler)
    ensures Fits(LogAll(l, next + Unscheduling(Released(s))), TickEnds(s).scheduler)
  {
    LogAllConcat(l, next, Unscheduling(Released(s)));
    UnschedulingFits(LogAll(l, next), ScheduleNext(s).scheduler, Released(s));
    ReturnReleases(s);
  }

  /** A callback fires, or a drain extracts a timer. */
  lemma DueFits(l: Layers, s: State, step: Step, time: Instant)
    requires Fits(l, s.scheduler) && Inv(s) && Enabled(s, step) && Due(l, step, time)
    requires step.Fire? || step.Extract? || step.RunExtracted?
    ensures Fits(LogAll(l, Actions(s, step, time)), Do(s, step).scheduler)
  {
    var a := Actions(s, step, time)[0];
    LogFits(l, s.scheduler, a);
    LogOne(l, a);
    assert OnEvent(s.scheduler, a.event, a.callback) == Do(s, step).scheduler;
  }

  lemma OwnerFits(l: Layers, s: State, step: Step, time: Instant)
    requires Fits(l, s.scheduler) && Enabled(s, step)
    requires step.StartCalled? || step.StopCalled? || step.OwnerDropped?
    ensures Fits(LogAll(l, Actions(s, step, time)), Do(s, step).scheduler)
  {
    if step.StartCalled? {
      SchedulingFits(l, s, time);
    } else {
      UnschedulingFits(l, s.scheduler, s.timer.current);
    }
  }

  lemma OthersFit(l: Layers, s: State, step: Step, time: Instant)
    requires Fits(l, s.scheduler) && Enabled(s, step) && (step.OtherScheduled? || step.OtherUnscheduled?)
    ensures Fits(LogAll(l, Actions(s, step, time)), Do(s, step).scheduler)
  {
    if step.OtherScheduled? {
      var a := Actions(s, step, time)[0];
      LogFits(l, s.scheduler, a);
      LogOne(l, a);
    } else {
      UnschedulingFits(l, s.scheduler, Some(step.h));
    }
  }

  lemma StepFits(l: Layers, s: State, step: Step, time: Instant)
    requires Fits(l, s.scheduler) && Inv(s) && Enabled(s, step) && Due(l, step, time)
    ensures Fits(LogAll(l, Actions(s, step, time)), Do(s, step).scheduler)
  {
    if step.StartCalled? || step.StopCalled? || step.OwnerDropped? {
      OwnerFits(l, s, step, time);
    } else if step.CallbackReturns? {
      SchedulingFits(l, s, time);
      ReturnFits(l, s, SchedulingNext(s, time));
    } else if step.OtherScheduled? || step.OtherUnscheduled? {
      OthersFit(l, s, step, time);
    } else {
      DueFits(l, s, step, time);
    }
  }

  lemma LayersNextFits(l: Layers, l': Layers)
    requires Inv(l.machine) && Fits(l, l.machine.scheduler) && LayersNext(l, l')
    ensures Inv(l'.machine) && Fits(l', l'.machine.scheduler)
  {
    var step: Step, time: Instant :|
      Enabled(l.machine, step) && Due(l, step, time)
      && l' == LogAll(l, Actions(l.machine, step, time)).(machine := Do(l.machine, step));
    StepFits(l, l.machine, step, time);
    StepInv(l.machine, step);
  }

  /** In every run of the timer on a scheduler the log is legal, and it leaves behind exactly the scheduler that the timer sees. */
  lemma {:induction false} LayersFit(run: seq<Layers>, n: nat)
    requires IsLayersRun(run) && n < |run|
    ensures Inv(run[n].machine) && Fits(run[n], run[n].machine.scheduler)
  {
    if n > 0 {
      LayersFit(run, n - 1);
      assert LayersStepAt(run, n - 1);
      LayersNextFits(run[n - 1], run[n]);
    }
  }

  /**
   In the log of every such run at most one handle that is still registered is a tick, and
   it is the one the timer keeps; and the log has all the promises of a legal one: each of
   the timer's ticks fires at most once.
   */
  lemma OneTickInTheLog(run: seq<Layers>, n: nat)
    requires IsLayersRun(run) && n < |run|
    ensures var l := run[n];
      && Registered(l.log).Keys <= l.owner.Keys
      && (forall h: nat | h in Registered(l.log) && l.owner[h] == Tick :: l.machine.timer.current == Some(h))
      && (forall i: nat, k: nat | i < k < |l.log| && l.log[i].Fired? && l.log[k].Fired? :: l.log[i].h != l.log[k].h)
  {
    LayersFit(run, n);
    var l := run[n];
    forall h: nat | h in Registered(l.log) && l.owner[h] == Tick ensures l.machine.timer.current == Some(h) {
      assert IsTick(l.machine, h);
    }
    forall i: nat, k: nat | i < k < |l.log| && l.log[i].Fired? && l.log[k].Fired? ensures l.log[i].h != l.log[k].h {
      FiresAtMostOnce(l.log, i, k);
    }
  }
}
