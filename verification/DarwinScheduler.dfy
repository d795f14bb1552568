/**
 The Darwin run loop as a machine: one mutex-protected state, senders on any
 thread, and the loop thread, whose drains may be nested because callbacks may
 run the native loop again. One step is one critical section, one native event,
 or the start of one callback.
 */
module DarwinScheduler {
  import opened Wrappers
  import opened TimerLog

  const ONE_HOUR: nat := 60 * 60 * 1_000_000_000

  /** The native one-shot timer: created at `when` to go off at `fire`. */
  datatype WakeUp = WakeUp(when: Instant, fire: Instant)

  /** A drain on the stack of the loop thread; `rearms` unless it is the one that ends `run`. */
  datatype Frame =
    | Entered(rearms: bool)                                                          // before `get_pending_execution`
    | Collecting(rearms: bool, callbacks: nat, timers: set<Handle>, at: Instant)     // inside it, clock read at `at`
    | Draining(rearms: bool, callbacks: nat, timers: set<Handle>)                    // extracted, still to run
    | Rearming                                                                       // `poll` saw timers; about to `schedule`

  datatype State = State(
    now: Instant,
    callbacks: nat,                  // sent and not yet collected
    timers: map<Handle, Instant>,
    next: Handle,
    armed: Option<WakeUp>,           // the installed native timer
    signalled: bool,                 // the native source is signalled
    frames: seq<Frame>,              // innermost drain last
    log: seq<Event>)

  const INITIAL := State(0, 0, map[], 1, None, false, [], [])

  datatype Step =
    | TimePasses(amount: nat)
    | Send                           // any thread: push a callback and `schedule`
    | ScheduleTimer(delay: nat)
    | UnscheduleTimer(h: Handle)
    | SourceFires
    | TimerFires
    | RunEnds                        // `run` was stopped: a drain that is not a `poll`
    | BeginCollect
    | ExtractOne(h: Handle)
    | EndCollect
    | RunCallback
    | RunTimer(h: Handle)
    | FinishPoll                     // end of `drain` in `poll`, and its look at the timers
    | FinishRun(distant: Handle)     // end of `drain` in `run`, and `unschedule` of its distant timer
    | Rearm

  function Top(s: State): Frame
    requires s.frames != []
  {
    s.frames[|s.frames| - 1]
  }

  function Below(s: State): seq<Frame>
    requires s.frames != []
  {
    s.frames[..|s.frames| - 1]
  }

  /** User code may run on the loop thread: outside any drain, or inside a callback of the innermost one. */
  predicate UserCode(s: State) { s.frames == [] || Top(s).Draining? }

  predicate Drained(f: Frame) { f.Draining? && f.callbacks == 0 && f.timers == {} }

  ghost predicate Enabled(s: State, step: Step) {
    match step
    case TimePasses(_) => true
    case Send => true
    case ScheduleTimer(_) => UserCode(s)
    case UnscheduleTimer(_) => UserCode(s)
    case SourceFires => UserCode(s) && s.signalled
    case TimerFires => UserCode(s) && s.armed.Some? && s.armed.value.fire <= s.now
    case RunEnds => UserCode(s)
    case BeginCollect => s.frames != [] && Top(s).Entered?
    case ExtractOne(h) => s.frames != [] && Top(s).Collecting? && h in s.timers && s.timers[h] <= Top(s).at
    case EndCollect => s.frames != [] && Top(s).Collecting? && forall h | h in s.timers :: s.timers[h] > Top(s).at
    case RunCallback => s.frames != [] && Top(s).Draining? && Top(s).callbacks > 0
    case RunTimer(h) => s.frames != [] && Top(s).Draining? && Top(s).callbacks == 0 && h in Top(s).timers
    case FinishPoll => s.frames != [] && Drained(Top(s)) && Top(s).rearms
    case FinishRun(_) => s.frames != [] && Drained(Top(s)) && !Top(s).rearms
    case Rearm => s.frames != [] && Top(s).Rearming?
  }

  ghost predicate IsEarliest(timers: map<Handle, Instant>, h: Handle) {
    h in timers && forall k | k in timers :: timers[h] <= timers[k]
  }

  lemma {:induction false} EarliestExists(timers: map<Handle, Instant>)
    requires timers != map[]
    ensures exists h :: IsEarliest(timers, h)
    decreases |timers|
  {
    var h :| h in timers;
    var rest := timers - {h};
    if rest == map[] {
      assert forall k | k in timers && k != h :: k in rest;
      assert IsEarliest(timers, h);
    } else {
      EarliestExists(rest);
      var k :| IsEarliest(rest, k);
      assert forall j | j in timers && j != h :: j in rest;
      assert IsEarliest(timers, k) || IsEarliest(timers, h);
    }
  }

  /** `next_instant` while no callback waits. */
  ghost function NextInstant(timers: map<Handle, Instant>, now: Instant): (next: Instant)
    ensures forall h | h in timers :: next <= timers[h]
  {
    if timers == map[] then now + ONE_HOUR
    else
      EarliestExists(timers);
      var h :| IsEarliest(timers, h);
      timers[h]
  }

  /** `State::schedule`: drop the native timer, then signal the source or install a new timer. */
  ghost function Reschedule(s: State): State {
    if s.callbacks > 0 then s.(armed := None, signalled := true)
    else s.(armed := Some(WakeUp(s.now, Max(s.now, NextInstant(s.timers, s.now)))))
  }

  function Without(s: State, h: Handle): State {
    s.(timers := s.timers - {h}, log := s.log + [Unscheduled(h)])
  }

  ghost function Do(s: State, step: Step): State
    requires Enabled(s, step)
  {
    match step
    case TimePasses(amount) => s.(now := s.now + amount)
    case Send => Reschedule(s.(callbacks := s.callbacks + 1))
    case ScheduleTimer(delay) =>
      Reschedule(s.(timers := s.timers[s.next := s.now + delay], next := s.next + 1,
                    log := s.log + [Scheduled(s.next, s.now + delay)]))
    case UnscheduleTimer(h) => Reschedule(Without(s, h))
    case SourceFires => s.(signalled := false, frames := s.frames + [Entered(true)])
    case TimerFires => s.(armed := None, frames := s.frames + [Entered(true)])
    case RunEnds => s.(frames := s.frames + [Entered(false)])
    case BeginCollect =>
      s.(callbacks := 0, frames := Below(s) + [Collecting(Top(s).rearms, s.callbacks, {}, s.now)])
    case ExtractOne(h) =>
      var f := Top(s);
      s.(timers := s.timers - {h}, log := s.log + [Extracted(h, f.at)],
         frames := Below(s) + [Collecting(f.rearms, f.callbacks, f.timers + {h}, f.at)])
    case EndCollect => s.(frames := Below(s) + [Draining(Top(s).rearms, Top(s).callbacks, Top(s).timers)])
    case RunCallback => s.(frames := Below(s) + [Draining(Top(s).rearms, Top(s).callbacks - 1, Top(s).timers)])
    case RunTimer(h) =>
      s.(frames := Below(s) + [Draining(Top(s).rearms, 0, Top(s).timers - {h})], log := s.log + [Fired(h, s.now)])
    case FinishPoll => s.(frames := Below(s) + if s.timers == map[] then [] else [Rearming])
    case FinishRun(distant) => Reschedule(Without(s.(frames := Below(s)), distant))
    case Rearm => Reschedule(s.(frames := Below(s)))
  }

  ghost predicate Next(s: State, s': State) {
    exists step: Step :: Enabled(s, step) && s' == Do(s, step)
  }

  ghost predicate StepAt(run: seq<State>, i: nat) {
    i + 1 < |run| ==> Next(run[i], run[i + 1])
  }

  ghost predicate IsRun(run: seq<State>) {
    run != [] && run[0] == INITIAL && forall i: nat :: StepAt(run, i)
  }

  // Wake-ups.

  ghost predicate ArmedInTime(s: State) {
    s.armed.Some? && forall h | h in s.timers :: s.armed.value.fire <= Max(s.armed.value.when, s.timers[h])
  }

  ghost predicate WakeInv(s: State) {
    && (s.callbacks > 0 ==> s.signalled || (s.frames != [] && Top(s).Entered?))
    && (s.timers != map[] && s.frames == [] ==> s.signalled || ArmedInTime(s))
    && (forall i | 0 <= i < |s.frames| - 1 :: s.frames[i].Draining?)
  }

  lemma RescheduleWakes(s: State)
    ensures var r := Reschedule(s);
      && (r.callbacks > 0 ==> r.signalled) && (r.signalled || ArmedInTime(r))
      && r.frames == s.frames && r.timers == s.timers && r.callbacks == s.callbacks
      && r.log == s.log && r.next == s.next && r.now == s.now
  {
  }

  /** Nor is the wake-up set too early: it is for the earliest deadline, at once if that has passed, or an hour from now. */
  lemma WakeUpIsExact(s: State)
    requires s.callbacks == 0
    ensures var r := Reschedule(s);
      && r.armed.Some? && r.armed.value.when == s.now && r.signalled == s.signalled
      && if s.timers == map[] then r.armed.value.fire == s.now + ONE_HOUR
         else exists h :: IsEarliest(s.timers, h) && r.armed.value.fire == Max(s.now, s.timers[h])
  {
    if s.timers != map[] {
      EarliestExists(s.timers);
    }
  }

  lemma StepKeepsWake(s: State, step: Step)
    requires WakeInv(s) && Enabled(s, step)
    ensures WakeInv(Do(s, step))
  {
    match step
    case Send => RescheduleWakes(s.(callbacks := s.callbacks + 1));
    case UnscheduleTimer(h) => RescheduleWakes(Without(s, h));
    case FinishRun(distant) => RescheduleWakes(Without(s.(frames := Below(s)), distant));
    case Rearm => RescheduleWakes(s.(frames := Below(s)));
    case _ =>
  }

  // Firing.

  function Held(f: Frame): set<Handle> {
    if f.Collecting? || f.Draining? then f.timers else {}
  }

  ghost predicate LogOk(log: seq<Event>, timers: map<Handle, Instant>, next: Handle, now: Instant) {
    && Legal(log) && timers == Registered(log)
    && (forall h | h in Known(log) :: h < next)
    && (forall h | h in Taken(log) :: Taken(log)[h] <= now)
  }

  ghost predicate LogInv(s: State) {
    && LogOk(s.log, s.timers, s.next, s.now)
    && (s.frames != [] && Top(s).Collecting? ==> Top(s).at <= s.now)
  }

  lemma AppendKeepsLog(log: seq<Event>, timers: map<Handle, Instant>, next: Handle, now: Instant, e: Event)
    requires LogOk(log, timers, next, now) && MayAppend(log, e)
    requires e.Scheduled? ==> e.h == next
    requires e.Extracted? ==> e.at <= now
    ensures LogOk(log + [e], if e.Scheduled? then timers[e.h := e.deadline] else timers - {e.h},
                  if e.Scheduled? then next + 1 else next, now)
    ensures Taken(log + [e]).Keys ==
              Taken(log).Keys + (if e.Extracted? then {e.h} else {}) - (if e.Fired? then {e.h} else {})
  {
    AppendKeepsLegal(log, e);
  }

  /** What the step adds to the log. */
  ghost function Logged(s: State, step: Step): Option<Event>
    requires Enabled(s, step)
  {
    match step
    case ScheduleTimer(delay) => Some(Scheduled(s.next, s.now + delay))
    case UnscheduleTimer(h) => Some(Unscheduled(h))
    case ExtractOne(h) => Some(Extracted(h, Top(s).at))
    case RunTimer(h) => Some(Fired(h, s.now))
    case FinishRun(distant) => Some(Unscheduled(distant))
    case _ => None
  }

  lemma LoggedIsLogged(s: State, step: Step)
    requires Enabled(s, step)
    requires step.RunTimer? ==> step.h !in s.timers
    ensures var s' := Do(s, step); var e := Logged(s, step);
      && s'.log == (if e.None? then s.log else s.log + [e.value])
      && s'.timers == (if e.None? then s.timers
                       else if e.value.Scheduled? then s.timers[e.value.h := e.value.deadline]
                       else s.timers - {e.value.h})
      && s'.next == (if e.Some? && e.value.Scheduled? then s.next + 1 else s.next)
      && s'.now >= s.now
  {
    match step
    case Send => RescheduleWakes(s.(callbacks := s.callbacks + 1));
    case ScheduleTimer(delay) =>
      RescheduleWakes(s.(timers := s.timers[s.next := s.now + delay], next := s.next + 1,
                         log := s.log + [Scheduled(s.next, s.now + delay)]));
    case UnscheduleTimer(h) => RescheduleWakes(Without(s, h));
    case FinishRun(distant) => RescheduleWakes(Without(s.(frames := Below(s)), distant));
    case Rearm => RescheduleWakes(s.(frames := Below(s)));
    case _ =>
  }

  lemma LoggedIsAllowed(s: State, step: Step)
    requires LogInv(s) && Enabled(s, step) && Logged(s, step).Some?
    requires step.RunTimer? ==> step.h in Taken(s.log)
    ensures var e := Logged(s, step).value;
      MayAppend(s.log, e) && (e.Scheduled? ==> e.h == s.next) && (e.Extracted? ==> e.at <= s.now)
  {
  }

  lemma StepKeepsLog(s: State, step: Step)
    requires LogInv(s) && Enabled(s, step)
    requires step.RunTimer? ==> step.h in Taken(s.log) && step.h !in s.timers
    ensures var s' := Do(s, step); LogOk(s'.log, s'.timers, s'.next, s'.now)
    ensures Taken(Do(s, step).log).Keys == TakenAfter(Taken(s.log).Keys, step) && s.log <= Do(s, step).log
  {
    LoggedIsLogged(s, step);
    if Logged(s, step).Some? {
      LoggedIsAllowed(s, step);
      AppendKeepsLog(s.log, s.timers, s.next, s.now, Logged(s, step).value);
    }
  }

  lemma StepKeepsClock(s: State, step: Step)
    requires Enabled(s, step) && (s.frames != [] && Top(s).Collecting? ==> Top(s).at <= s.now)
    requires forall i | 0 <= i < |s.frames| - 1 :: s.frames[i].Draining?
    ensures var s' := Do(s, step); s'.frames != [] && Top(s').Collecting? ==> Top(s').at <= s'.now
  {
  }

  /** The drains on the stack hold disjoint sets of extracted timers. */
  ghost predicate FramesOk(frames: seq<Frame>, taken: set<Handle>) {
    && (forall i | 0 <= i < |frames| :: Held(frames[i]) <= taken)
    && (forall i, j | 0 <= i < j < |frames| :: Held(frames[i]) !! Held(frames[j]))
  }

  /** The innermost drain goes on as `tops`, holding what it held except for what moved in or out of `taken`. */
  lemma TopKeepsFrames(frames: seq<Frame>, taken: set<Handle>, tops: seq<Frame>, taken': set<Handle>)
    requires frames != [] && FramesOk(frames, taken) && |tops| <= 1
    requires taken - Held(frames[|frames| - 1]) <= taken'
    requires tops != [] ==> Held(tops[0]) <= taken' && Held(tops[0]) !! taken - Held(frames[|frames| - 1])
    ensures FramesOk(frames[..|frames| - 1] + tops, taken')
  {
  }

  /** `taken` after the step, as far as the stack is concerned. */
  function TakenAfter(taken: set<Handle>, step: Step): set<Handle> {
    taken + (if step.ExtractOne? then {step.h} else {}) - (if step.RunTimer? then {step.h} else {})
  }

  lemma NewTopHolds(s: State, step: Step, taken: set<Handle>)
    requires Enabled(s, step) && s.frames != [] && Held(Top(s)) <= taken && s.timers.Keys !! taken
    ensures var tops := NewTop(s, step); var taken' := TakenAfter(taken, step);
      && |tops| <= 1 && taken - Held(Top(s)) <= taken'
      && (tops != [] ==> Held(tops[0]) <= taken' && Held(tops[0]) !! taken - Held(Top(s)))
  {
  }

  lemma AppendEmptyFrames(frames: seq<Frame>, more: seq<Frame>, taken: set<Handle>)
    requires FramesOk(frames, taken) && |more| <= 1 && forall f | f in more :: Held(f) == {}
    ensures FramesOk(frames + more, taken)
  {
  }

  lemma StepKeepsFrames(s: State, step: Step, taken: set<Handle>)
    requires FramesOk(s.frames, taken) && Enabled(s, step) && s.timers.Keys !! taken
    ensures FramesOk(Do(s, step).frames, TakenAfter(taken, step))
  {
    if s.frames != [] {
      NewTopHolds(s, step, taken);
      TopKeepsFrames(s.frames, taken, NewTop(s, step), TakenAfter(taken, step));
      NewTopIsTop(s, step);
      AppendEmptyFrames(Below(s) + NewTop(s, step), if Enters(step) then [Entered(!step.RunEnds?)] else [],
                        TakenAfter(taken, step));
    } else {
      NewBottomHoldsNothing(s, step);
      AppendEmptyFrames([], Do(s, step).frames, TakenAfter(taken, step));
      assert [] + Do(s, step).frames == Do(s, step).frames;
    }
  }

  /** What becomes of the innermost drain, leaving out drains that the step starts inside it. */
  ghost function NewTop(s: State, step: Step): seq<Frame>
    requires Enabled(s, step) && s.frames != []
  {
    var f := Top(s);
    match step
    case BeginCollect => [Collecting(f.rearms, s.callbacks, {}, s.now)]
    case ExtractOne(h) => [Collecting(f.rearms, f.callbacks, f.timers + {h}, f.at)]
    case EndCollect => [Draining(f.rearms, f.callbacks, f.timers)]
    case RunCallback => [Draining(f.rearms, f.callbacks - 1, f.timers)]
    case RunTimer(h) => [Draining(f.rearms, 0, f.timers - {h})]
    case FinishPoll => if s.timers == map[] then [] else [Rearming]
    case FinishRun(_) => []
    case Rearm => []
    case _ => [f]
  }

  predicate Enters(step: Step) { step.SourceFires? || step.TimerFires? || step.RunEnds? }

  lemma NewTopIsTop(s: State, step: Step)
    requires Enabled(s, step) && s.frames != []
    ensures Do(s, step).frames ==
              Below(s) + NewTop(s, step) + (if Enters(step) then [Entered(!step.RunEnds?)] else [])
  {
    assert Below(s) + [Top(s)] == s.frames;
    assert Below(s) + [] == Below(s);
  }

  lemma NewBottomHoldsNothing(s: State, step: Step)
    requires Enabled(s, step) && s.frames == []
    ensures |Do(s, step).frames| <= 1 && forall f | f in Do(s, step).frames :: Held(f) == {}
  {
  }

  /** Some drain on the stack holds the timer. */
  ghost predicate IsHeld(frames: seq<Frame>, h: Handle) {
    exists i :: 0 <= i < |frames| && h in Held(frames[i])
  }

  lemma HeldBelow(frames: seq<Frame>, tops: seq<Frame>, h: Handle)
    requires frames != [] && IsHeld(frames, h)
    requires h in Held(frames[|frames| - 1]) ==> exists f :: f in tops && h in Held(f)
    ensures IsHeld(frames[..|frames| - 1] + tops, h)
  {
    var r := frames[..|frames| - 1] + tops;
    var i :| 0 <= i < |frames| && h in Held(frames[i]);
    if i < |frames| - 1 {
      assert h in Held(r[i]);
    } else {
      var f :| f in tops && h in Held(f);
      var k :| 0 <= k < |tops| && tops[k] == f;
      assert h in Held(r[|frames| - 1 + k]);
    }
  }

  /** What is extracted stays with its drain until it is run. */
  lemma StepKeepsHeld(s: State, step: Step, h: Handle)
    requires Enabled(s, step) && h in TakenAfter(if IsHeld(s.frames, h) then {h} else {}, step)
    ensures IsHeld(Do(s, step).frames, h)
  {
    if s.frames != [] {
      var tops := NewTop(s, step) + if Enters(step) then [Entered(!step.RunEnds?)] else [];
      NewTopIsTop(s, step);
      assert Do(s, step).frames == Below(s) + tops;
      if step == ExtractOne(h) {
        assert h in Held(tops[0]);
        assert Do(s, step).frames[|s.frames| - 1] == tops[0];
      } else {
        assert h in Held(Top(s)) ==> tops != [] && h in Held(tops[0]);
        HeldBelow(s.frames, tops, h);
      }
    }
  }

  /** The drains on the stack hold exactly what was extracted and not yet run. */
  ghost predicate AllHeld(s: State) {
    forall h | h in Taken(s.log) :: IsHeld(s.frames, h)
  }

  ghost predicate Inv(s: State) {
    WakeInv(s) && LogInv(s) && FramesOk(s.frames, Taken(s.log).Keys) && AllHeld(s)
  }

  lemma {:induction false} RunInv(run: seq<State>, i: nat)
    requires IsRun(run) && i < |run|
    ensures Inv(run[i])
  {
    if i > 0 {
      RunInv(run, i - 1);
      assert StepAt(run, i - 1);
      NextInv(run[i - 1], run[i]);
    }
  }

  lemma NextInv(s: State, s': State)
    requires Inv(s) && Next(s, s')
    ensures Inv(s') && s.log <= s'.log
  {
    var step :| Enabled(s, step) && s' == Do(s, step);
    StepKeepsWake(s, step);
    StatesAreKnown(s.log);
    if step.RunTimer? {
      assert step.h in Held(Top(s));
    }
    StepKeepsLog(s, step);
    StepKeepsClock(s, step);
    StepKeepsFrames(s, step, Taken(s.log).Keys);
    forall h | h in Taken(s'.log) ensures IsHeld(s'.frames, h) {
      assert h in TakenAfter(Taken(s.log).Keys, step);
      StepKeepsHeld(s, step, h);
    }
  }

  /**
   No late wake-up: whenever no drain is on the stack and a callback or a timer
   waits, the source is signalled, or (only timers waiting) the native timer is
   installed to go off no later than it was installed or than the earliest deadline.
   */
  lemma NoLateWakeUp(run: seq<State>, i: nat)
    requires IsRun(run) && i < |run| && run[i].frames == []
    ensures run[i].callbacks > 0 ==> run[i].signalled
    ensures run[i].timers != map[] ==> run[i].signalled || ArmedInTime(run[i])
  {
    RunInv(run, i);
  }

  ghost predicate ArmedExactly(s: State) {
    s.frames == [] && s.timers != map[] && s.armed.Some? ==>
      exists h :: IsEarliest(s.timers, h) && s.armed.value.fire == Max(s.armed.value.when, s.timers[h])
  }

  lemma RescheduleArmsExactly(s: State)
    ensures ArmedExactly(Reschedule(s))
  {
    if s.callbacks == 0 {
      WakeUpIsExact(s);
    }
  }

  lemma StepArmsExactly(s: State, step: Step)
    requires ArmedExactly(s) && Enabled(s, step)
    ensures ArmedExactly(Do(s, step))
  {
    match step
    case Send => RescheduleArmsExactly(s.(callbacks := s.callbacks + 1));
    case ScheduleTimer(delay) =>
      RescheduleArmsExactly(s.(timers := s.timers[s.next := s.now + delay], next := s.next + 1,
                               log := s.log + [Scheduled(s.next, s.now + delay)]));
    case UnscheduleTimer(h) => RescheduleArmsExactly(Without(s, h));
    case FinishRun(distant) => RescheduleArmsExactly(Without(s.(frames := Below(s)), distant));
    case Rearm => RescheduleArmsExactly(s.(frames := Below(s)));
    case _ =>
  }

  /** No early wake-up either: with no drain on the stack, a native timer that is installed while timers wait is for the earliest deadline. */
  lemma {:induction false} NoEarlyWakeUp(run: seq<State>, i: nat)
    requires IsRun(run) && i < |run|
    ensures ArmedExactly(run[i])
  {
    if i > 0 {
      NoEarlyWakeUp(run, i - 1);
      assert StepAt(run, i - 1);
      var step :| Enabled(run[i - 1], step) && run[i] == Do(run[i - 1], step);
      StepArmsExactly(run[i - 1], step);
    }
  }

  /** Firing safety: a timer fires at most once, never before its deadline, and after it was unscheduled only if a drain had extracted it. */
  lemma FiringSafety(run: seq<State>, n: nat, i: nat)
    requires IsRun(run) && n < |run| && i < |run[n].log| && run[n].log[i].Fired?
    ensures var log := run[n].log; var h := log[i].h;
      && (forall k: nat | k < |log| && log[k].Fired? && log[k].h == h :: k == i)
      && (exists k: nat, d: nat :: Waits(log, k, h, d) && d <= log[i].at)
      && (forall k: nat | k < i && log[k] == Unscheduled(h) && h in Known(log[..k]) :: h in Taken(log[..k]))
  {
    RunInv(run, n);
    var log := run[n].log;
    NeverBeforeDeadline(log, i);
    forall k: nat | k < |log| && log[k].Fired? && log[k].h == log[i].h ensures k == i {
      if k < i {
        FiresAtMostOnce(log, k, i);
      } else if i < k {
        FiresAtMostOnce(log, i, k);
      }
    }
    forall k: nat | k < i && log[k] == Unscheduled(log[i].h) && log[i].h in Known(log[..k])
      ensures log[i].h in Taken(log[..k])
    {
      UnscheduleStopsUnlessExtracted(log, k, i);
    }
  }

  lemma {:induction false} LogGrows(run: seq<State>, j: nat, n: nat)
    requires IsRun(run) && j <= n < |run|
    ensures run[j].log <= run[n].log
  {
    if j < n {
      LogGrows(run, j, n - 1);
      RunInv(run, n - 1);
      assert StepAt(run, n - 1);
      NextInv(run[n - 1], run[n]);
    }
  }

  /**
   Exactly which unscheduled timers fire. Once every drain has ended, a timer that user
   code unscheduled has fired afterwards if and only if a drain held it at that moment:
   `unschedule` takes a waiting timer away for good, and does not reach an extracted one.
   */
  lemma WhenUnscheduledTimersFire(run: seq<State>, j: nat, n: nat, h: Handle)
    requires IsRun(run) && j < n < |run|
    requires UserCode(run[j]) && run[j + 1] == Do(run[j], UnscheduleTimer(h)) && h in Known(run[j].log)
    requires run[n].frames == []
    ensures (exists m: nat :: |run[j].log| < m < |run[n].log| && FiresAt(run[n].log, m, h)) <==> IsHeld(run[j].frames, h)
  {
    var log, k := run[n].log, |run[j].log|;
    RunInv(run, j);
    RunInv(run, n);
    RescheduleWakes(Without(run[j], h));
    LogGrows(run, j + 1, n);
    assert log[..k] == run[j].log && log[k] == Unscheduled(h);
    assert h in Taken(run[j].log) <==> IsHeld(run[j].frames, h);
    assert Taken(log) == map[];
    UnscheduledFiresIfExtracted(log, k);
  }

  ghost predicate Leads(s: State, step: Step, s': State) { Enabled(s, step) && s' == Do(s, step) }

  lemma Extend(run: seq<State>, s: State, step: Step, s': State) returns (longer: seq<State>)
    requires IsRun(run) && run[|run| - 1] == s && Leads(s, step, s')
    ensures IsRun(longer) && longer[|longer| - 1] == s'
  {
    longer := run + [s'];
    assert Next(s, s');
    forall i: nat ensures StepAt(longer, i) {
      assert StepAt(run, i);
    }
  }

  // At any time `t`: two timers are due, a drain extracts both, and the callback of the first unschedules the second.

  function Started(t: Instant): State { INITIAL.(now := t) }

  function OneTimer(t: Instant): State {
    Started(t).(timers := map[1 := t], next := 2, armed := Some(WakeUp(t, t)), log := [Scheduled(1, t)])
  }

  function TwoTimers(t: Instant): State {
    OneTimer(t).(timers := map[1 := t, 2 := t], next := 3, log := [Scheduled(1, t), Scheduled(2, t)])
  }

  function Polled(t: Instant): State { TwoTimers(t).(armed := None, frames := [Entered(true)]) }

  function CollectingNone(t: Instant): State { Polled(t).(frames := [Collecting(true, 0, {}, t)]) }

  function CollectedOne(t: Instant): State {
    CollectingNone(t).(timers := map[2 := t], frames := [Collecting(true, 0, {1}, t)],
                       log := [Scheduled(1, t), Scheduled(2, t), Extracted(1, t)])
  }

  function CollectedBoth(t: Instant): State {
    CollectedOne(t).(timers := map[], frames := [Collecting(true, 0, {1, 2}, t)],
                     log := [Scheduled(1, t), Scheduled(2, t), Extracted(1, t), Extracted(2, t)])
  }

  function DrainingBoth(t: Instant): State { CollectedBoth(t).(frames := [Draining(true, 0, {1, 2})]) }

  function FirstFired(t: Instant): State {
    DrainingBoth(t).(frames := [Draining(true, 0, {2})],
                     log := [Scheduled(1, t), Scheduled(2, t), Extracted(1, t), Extracted(2, t), Fired(1, t)])
  }

  /** The native timer is set for a deadline that has passed already. */
  lemma RescheduleOverdue(s: State, h: Handle)
    requires s.callbacks == 0 && h in s.timers && s.timers[h] <= s.now
    ensures Reschedule(s) == s.(armed := Some(WakeUp(s.now, s.now)))
  {
  }

  lemma ScheduleOverdue(s: State)
    requires s.callbacks == 0 && UserCode(s)
    ensures var h := s.next;
      Do(s, ScheduleTimer(0)) ==
        s.(timers := s.timers[h := s.now], next := h + 1, armed := Some(WakeUp(s.now, s.now)),
           log := s.log + [Scheduled(h, s.now)])
  {
    var s1 := s.(timers := s.timers[s.next := s.now + 0], next := s.next + 1, log := s.log + [Scheduled(s.next, s.now + 0)]);
    RescheduleOverdue(s1, s.next);
  }

  lemma BothAreScheduled(t: Instant)
    ensures Leads(INITIAL, TimePasses(t), Started(t))
    ensures Leads(Started(t), ScheduleTimer(0), OneTimer(t)) && Leads(OneTimer(t), ScheduleTimer(0), TwoTimers(t))
  {
    ScheduleOverdue(Started(t));
    ScheduleOverdue(OneTimer(t));
  }

  /** A single drain on the stack goes from `f` to `g`. */
  lemma OnlyFrame(f: Frame, g: Frame)
    ensures [f][..0] + [g] == [g] && [f][..0] + [] == []
  {
  }

  lemma CollectingBegins(t: Instant)
    ensures Leads(TwoTimers(t), TimerFires, Polled(t)) && Leads(Polled(t), BeginCollect, CollectingNone(t))
  {
    OnlyFrame(Entered(true), Collecting(true, 0, {}, t));
  }

  lemma BothAreExtracted(t: Instant)
    ensures Leads(CollectingNone(t), ExtractOne(1), CollectedOne(t))
    ensures Leads(CollectedOne(t), ExtractOne(2), CollectedBoth(t))
  {
    OnlyFrame(Collecting(true, 0, {}, t), Collecting(true, 0, {1}, t));
    OnlyFrame(Collecting(true, 0, {1}, t), Collecting(true, 0, {1, 2}, t));
    assert CollectingNone(t).timers - {1} == CollectedOne(t).timers;
    assert CollectedOne(t).timers - {2} == CollectedBoth(t).timers;
    var none: set<Handle> := {};
    assert none + {1} == {1} && {1} + {2} == {1, 2};
  }

  lemma FirstFires(t: Instant)
    ensures Leads(CollectedBoth(t), EndCollect, DrainingBoth(t)) && Leads(DrainingBoth(t), RunTimer(1), FirstFired(t))
  {
    OnlyFrame(Collecting(true, 0, {1, 2}, t), Draining(true, 0, {1, 2}));
    OnlyFrame(Draining(true, 0, {1, 2}), Draining(true, 0, {2}));
    assert {1, 2} - {1} == {2};
  }

  lemma SecondFires(t: Instant, s: State)
    requires s == Do(FirstFired(t), UnscheduleTimer(2))
    ensures s.frames == [Draining(true, 0, {2})] && s.log == FirstFired(t).log + [Unscheduled(2)]
    ensures Enabled(FirstFired(t), UnscheduleTimer(2)) && Enabled(s, RunTimer(2))
    ensures var s' := Do(s, RunTimer(2));
      s'.log == s.log + [Fired(2, t)] && Enabled(s', FinishPoll) && Do(s', FinishPoll) == s'.(frames := [])
  {
    RescheduleWakes(Without(FirstFired(t), 2));
    OnlyFrame(Draining(true, 0, {2}), Draining(true, 0, {}));
    assert {2} - {2} == {};
    OnlyFrame(Draining(true, 0, {}), Rearming);
    assert s.timers == map[];
  }

  lemma FirstFiredRun(t: Instant) returns (run: seq<State>)
    ensures IsRun(run) && run[|run| - 1] == FirstFired(t)
  {
    BothAreScheduled(t);
    CollectingBegins(t);
    BothAreExtracted(t);
    FirstFires(t);
    run := Extend([INITIAL], INITIAL, TimePasses(t), Started(t));
    run := Extend(run, Started(t), ScheduleTimer(0), OneTimer(t));
    run := Extend(run, OneTimer(t), ScheduleTimer(0), TwoTimers(t));
    run := Extend(run, TwoTimers(t), TimerFires, Polled(t));
    run := Extend(run, Polled(t), BeginCollect, CollectingNone(t));
    run := Extend(run, CollectingNone(t), ExtractOne(1), CollectedOne(t));
    run := Extend(run, CollectedOne(t), ExtractOne(2), CollectedBoth(t));
    run := Extend(run, CollectedBoth(t), EndCollect, DrainingBoth(t));
    run := Extend(run, DrainingBoth(t), RunTimer(1), FirstFired(t));
  }

  /** The second timer fires although it was unscheduled. */
  lemma UnscheduledTimerFires(t: Instant) returns (run: seq<State>)
    ensures IsRun(run) && run[|run| - 1].frames == []
    ensures run[|run| - 1].log == [Scheduled(1, t), Scheduled(2, t), Extracted(1, t), Extracted(2, t),
                                   Fired(1, t), Unscheduled(2), Fired(2, t)]
  {
    var s1 := Do(FirstFired(t), UnscheduleTimer(2));
    SecondFires(t, s1);
    var s2 := Do(s1, RunTimer(2));
    run := FirstFiredRun(t);
    run := Extend(run, FirstFired(t), UnscheduleTimer(2), s1);
    run := Extend(run, s1, RunTimer(2), s2);
    run := Extend(run, s2, FinishPoll, Do(s2, FinishPoll));
  }

  // Callbacks and delays, along the steps of a run.

  ghost predicate TracedAt(run: seq<State>, steps: seq<Step>, k: nat)
    requires |run| == |steps| + 1
  {
    k < |steps| ==> Enabled(run[k], steps[k]) && run[k + 1] == Do(run[k], steps[k])
  }

  /** `steps` are the steps that `run` takes. */
  ghost predicate Traced(run: seq<State>, steps: seq<Step>) {
    && |run| == |steps| + 1 && run[0] == INITIAL
    && forall k: nat :: TracedAt(run, steps, k)
  }

  lemma TracedFront(run: seq<State>, steps: seq<Step>)
    requires Traced(run, steps) && steps != []
    ensures var m := |steps| - 1;
      && Traced(run[..m + 1], steps[..m])
      && Enabled(run[m], steps[m]) && run[m + 1] == Do(run[m], steps[m])
  {
    var m := |steps| - 1;
    var front, init := run[..m + 1], steps[..m];
    forall k: nat ensures TracedAt(front, init, k) {
      assert TracedAt(run, steps, k);
    }
    assert TracedAt(run, steps, m);
  }

  lemma TracedOn(run: seq<State>, steps: seq<Step>, s: State, step: Step, s': State)
    requires Traced(run, steps) && s == run[|steps|] && Enabled(s, step) && s' == Do(s, step)
    ensures Traced(run + [s'], steps + [step])
  {
    var longer, more := run + [s'], steps + [step];
    forall k: nat ensures TracedAt(longer, more, k) {
      assert TracedAt(run, steps, k);
    }
  }

  lemma FrontIsRun(run: seq<State>)
    requires IsRun(run) && |run| > 1
    ensures IsRun(run[..|run| - 1])
  {
    var front := run[..|run| - 1];
    forall k: nat ensures StepAt(front, k) {
      assert StepAt(run, k);
    }
  }

  /** Every run has its steps. */
  lemma {:induction false} RunIsTraced(run: seq<State>) returns (steps: seq<Step>)
    requires IsRun(run)
    ensures Traced(run, steps)
    decreases |run|
  {
    var m := |run| - 1;
    if m == 0 {
      steps := [];
    } else {
      FrontIsRun(run);
      var front := RunIsTraced(run[..m]);
      assert StepAt(run, m - 1);
      var step :| Enabled(run[m - 1], step) && run[m] == Do(run[m - 1], step);
      TracedOn(run[..m], front, run[m - 1], step, run[m]);
      assert run[..m] + [run[m]] == run;
      steps := front + [step];
    }
  }

  function Sends(steps: seq<Step>): nat {
    if steps == [] then 0 else Sends(steps[..|steps| - 1]) + if steps[|steps| - 1].Send? then 1 else 0
  }

  function CallbacksRun(steps: seq<Step>): nat {
    if steps == [] then 0 else CallbacksRun(steps[..|steps| - 1]) + if steps[|steps| - 1].RunCallback? then 1 else 0
  }

  /** The callbacks that the drains on the stack hold. */
  function HeldCallbacks(frames: seq<Frame>): nat {
    if frames == [] then 0
    else
      var f := frames[|frames| - 1];
      HeldCallbacks(frames[..|frames| - 1]) + if f.Collecting? || f.Draining? then f.callbacks else 0
  }

  lemma HeldPush(frames: seq<Frame>, f: Frame)
    ensures HeldCallbacks(frames + [f]) == HeldCallbacks(frames) + if f.Collecting? || f.Draining? then f.callbacks else 0
    ensures HeldCallbacks(frames + []) == HeldCallbacks(frames)
  {
    assert (frames + [f])[..|frames|] == frames;
    assert frames + [] == frames;
  }

  function CallbacksIn(s: State): nat { s.callbacks + HeldCallbacks(s.frames) }

  predicate MovesCallbacks(step: Step) {
    step.BeginCollect? || step.ExtractOne? || step.EndCollect? || step.RunCallback? || step.RunTimer?
  }

  /** What a drain does with the callbacks it collects. */
  lemma DrainConserves(s: State, step: Step)
    requires Enabled(s, step) && MovesCallbacks(step)
    ensures CallbacksIn(Do(s, step)) + (if step.RunCallback? then 1 else 0) == CallbacksIn(s)
  {
    HeldPush(Below(s), NewTop(s, step)[0]);
  }

  /** Each step moves callbacks from the senders to the queue, to a drain, and out. */
  lemma StepConserves(s: State, step: Step)
    requires Enabled(s, step)
    ensures CallbacksIn(Do(s, step)) + (if step.RunCallback? then 1 else 0)
            == CallbacksIn(s) + (if step.Send? then 1 else 0)
  {
    match step
    case Send => RescheduleWakes(s.(callbacks := s.callbacks + 1));
    case ScheduleTimer(delay) =>
      RescheduleWakes(s.(timers := s.timers[s.next := s.now + delay], next := s.next + 1,
                         log := s.log + [Scheduled(s.next, s.now + delay)]));
    case UnscheduleTimer(h) => RescheduleWakes(Without(s, h));
    case FinishRun(distant) => RescheduleWakes(Without(s.(frames := Below(s)), distant));
    case Rearm => RescheduleWakes(s.(frames := Below(s)));
    case SourceFires => HeldPush(s.frames, Entered(true));
    case TimerFires => HeldPush(s.frames, Entered(true));
    case RunEnds => HeldPush(s.frames, Entered(false));
    case FinishPoll => HeldPush(Below(s), Rearming);
    case TimePasses(_) =>
    case _ => DrainConserves(s, step);
  }

  /**
   No sent callback is lost, and none runs twice: in every run the callbacks sent are those
   that have run, those that wait, and those that the drains on the stack hold. With no
   drain on the stack, the source is signalled as long as one has not run.
   */
  lemma {:induction false} CallbacksAreConserved(run: seq<State>, steps: seq<Step>)
    requires Traced(run, steps)
    ensures var s := run[|steps|];
      && Sends(steps) == CallbacksRun(steps) + s.callbacks + HeldCallbacks(s.frames)
      && (s.frames == [] && Sends(steps) > CallbacksRun(steps) ==> s.signalled)
    decreases |steps|
  {
    TracedIsRun(run, steps);
    RunInv(run, |steps|);
    if steps != [] {
      var m := |steps| - 1;
      TracedFront(run, steps);
      CallbacksAreConserved(run[..m + 1], steps[..m]);
      StepConserves(run[m], steps[m]);
    }
  }

  lemma TracedIsRun(run: seq<State>, steps: seq<Step>)
    requires Traced(run, steps)
    ensures IsRun(run)
  {
    forall i: nat ensures StepAt(run, i) {
      assert TracedAt(run, steps, i);
    }
  }

  /** Along any run: a timer that was scheduled with a delay runs no earlier than that delay after it was scheduled. */
  lemma NeverBeforeItsDelay(run: seq<State>, steps: seq<Step>, j: nat, i: nat, delay: nat)
    requires Traced(run, steps) && j < i < |steps|
    requires steps[j] == ScheduleTimer(delay) && steps[i] == RunTimer(run[j].next)
    ensures run[i].now >= run[j].now + delay
  {
    var h, log, n := run[j].next, run[i].log, |run[j].log|;
    TracedIsRun(run, steps);
    RunInv(run, i);
    assert TracedAt(run, steps, j) && TracedAt(run, steps, i);
    ScheduleLogs(run[j], delay);
    LogGrows(run, j + 1, i);
    assert log[n] == Scheduled(h, run[j].now + delay);
    assert h in Held(Top(run[i]));
    assert log[..|log|] == log;
    TakenWaited(log, |log|, h);
    var k: nat :| k < |log| && log[k].Extracted? && log[k].h == h && Waits(log, k, h, Taken(log)[h]);
    var m: nat :| WaitsSince(log, m, k, h, Taken(log)[h]);
    ScheduledOnce(log, n, m);
  }

  lemma ScheduleLogs(s: State, delay: nat)
    requires Enabled(s, ScheduleTimer(delay))
    ensures Do(s, ScheduleTimer(delay)).log == s.log + [Scheduled(s.next, s.now + delay)]
  {
    RescheduleWakes(s.(timers := s.timers[s.next := s.now + delay], next := s.next + 1,
                       log := s.log + [Scheduled(s.next, s.now + delay)]));
  }

  /** The timers that are due at `at`. */
  function DueAt(timers: map<Handle, Instant>, at: Instant): set<Handle> {
    set h | h in timers && timers[h] <= at
  }

  /** What a collection that began in `s0` has come to in `s`: the due timers are with it or still to come, the others waiting. */
  ghost predicate CollectingFrom(s0: State, s: State) {
    && s.frames != [] && Top(s).Collecting? && Top(s).at == s0.now && Top(s).callbacks == s0.callbacks
    && Top(s).timers + DueAt(s.timers, s0.now) == DueAt(s0.timers, s0.now)
  }

  predicate WhileCollecting(step: Step) { step.Send? || step.TimePasses? || step.ExtractOne? }

  lemma CollectingGoesOn(s0: State, s: State, step: Step)
    requires CollectingFrom(s0, s) && Enabled(s, step) && WhileCollecting(step)
    ensures CollectingFrom(s0, Do(s, step))
  {
    if step.Send? {
      RescheduleWakes(s.(callbacks := s.callbacks + 1));
    }
  }

  lemma {:induction false} CollectingStays(run: seq<State>, steps: seq<Step>, b: nat, i: nat)
    requires Traced(run, steps) && b < i <= |steps| && steps[b] == BeginCollect
    requires forall k | b < k < i :: WhileCollecting(steps[k])
    ensures CollectingFrom(run[b], run[i])
  {
    assert TracedAt(run, steps, i - 1);
    if b < i - 1 {
      CollectingStays(run, steps, b, i - 1);
      CollectingGoesOn(run[b], run[i - 1], steps[i - 1]);
    }
  }

  /** A drain takes exactly the callbacks that waited and the timers that were due when it began, whatever is sent meanwhile. */
  lemma DrainTakesExactlyTheDue(run: seq<State>, steps: seq<Step>, b: nat, i: nat)
    requires Traced(run, steps) && b < i < |steps| && steps[b] == BeginCollect && steps[i] == EndCollect
    requires forall k | b < k < i :: WhileCollecting(steps[k])
    ensures run[i + 1].frames != [] && Top(run[i + 1]).Draining?
    ensures Top(run[i + 1]).timers == DueAt(run[b].timers, run[b].now) && Top(run[i + 1]).callbacks == run[b].callbacks
  {
    CollectingStays(run, steps, b, i);
    assert TracedAt(run, steps, i);
    assert DueAt(run[i].timers, run[b].now) == {};
  }

  /** The mutex-protected state; its methods are the critical sections. */
  class LoopState {
    var now: Instant
    var callbacks: nat
    var timers: map<Handle, Instant>
    var armed: Option<WakeUp>
    var signalled: bool

    /** The machine's view of it, for whatever the stack, the handle counter and the log are. */
    ghost function View(next: Handle, frames: seq<Frame>, log: seq<Event>): State
      reads this
    {
      State(now, callbacks, timers, next, armed, signalled, frames, log)
    }

    method EarliestDeadline() returns (next: Instant)
      ensures callbacks == 0 ==> next == NextInstant(timers, now)
      ensures callbacks == 0 ==> forall h | h in timers :: next <= timers[h]
      ensures callbacks == 0 ==> if timers == map[] then next == now + ONE_HOUR else exists h :: h in timers && timers[h] == next
      ensures callbacks > 0 ==> next == now
    {
      if callbacks > 0 {
        return now;
      }
      next := now + ONE_HOUR;
      var left := timers.Keys;
      var found := false;
      while left != {}
        invariant left <= timers.Keys
        invariant found <==> left != timers.Keys
        invariant forall h | h in timers && h !in left :: next <= timers[h]
        invariant if found then exists h :: h in timers && timers[h] == next else next == now + ONE_HOUR
        decreases left
      {
        var h :| h in left;
        if !found || timers[h] < next {
          next := timers[h];
        }
        found := true;
        left := left - {h};
      }
      if timers != map[] {
        EarliestExists(timers);
      }
    }

    /** `State::schedule` */
    method ScheduleNative()
      modifies this`armed, this`signalled
      ensures callbacks > 0 ==> armed == None && signalled
      ensures callbacks == 0 ==> armed.Some? && armed.value.when == now && signalled == old(signalled)
                                 && forall h | h in timers :: armed.value.fire <= Max(now, timers[h])
      ensures callbacks == 0 ==> if timers == map[] then armed.value.fire == now + ONE_HOUR
                                 else exists h :: h in timers && armed.value.fire == Max(now, timers[h])
      ensures forall next, frames, log ::
                View(next, frames, log) == Reschedule(old(View(next, frames, log)))
    {
      armed := None;
      if callbacks > 0 {
        signalled := true;
      } else {
        var next := EarliestDeadline();
        var pending := if next > now then next - now else 0;
        armed := Some(WakeUp(now, now + pending));
      }
    }

    /** `get_pending_execution`: all callbacks, and exactly the timers that are due. */
    method GetPendingExecution() returns (collected: nat, due: set<Handle>)
      modifies this`callbacks, this`timers
      ensures collected == old(callbacks) && callbacks == 0
      ensures due == set h | h in old(timers) && old(timers)[h] <= now
      ensures timers == old(timers) - due
    {
      collected := callbacks;
      callbacks := 0;
      due := {};
      var left := timers.Keys;
      while left != {}
        invariant left <= old(timers).Keys && due <= old(timers).Keys - left
        invariant timers == old(timers) - due && callbacks == 0
        invariant forall h | h in old(timers) && h !in left :: h in due <==> old(timers)[h] <= now
        decreases left
      {
        var h :| h in left;
        if timers[h] <= now {
          due := due + {h};
          timers := timers - {h};
        }
        left := left - {h};
      }
    }

    /** `PlatformRunLoop::schedule`, with the handle it took from its counter. */
    method Schedule(handle: Handle, delay: nat)
      modifies this
      ensures timers == old(timers)[handle := now + delay] && callbacks == old(callbacks) && now == old(now)
      ensures forall frames, log | UserCode(old(View(handle, frames, log))) ::
                View(handle + 1, frames, log + [Scheduled(handle, now + delay)])
                == Do(old(View(handle, frames, log)), ScheduleTimer(delay))
    {
      timers := timers[handle := now + delay];
      ScheduleNative();
    }

    method Unschedule(handle: Handle)
      modifies this
      ensures timers == old(timers) - {handle} && callbacks == old(callbacks) && now == old(now)
      ensures forall next, frames, log | UserCode(old(View(next, frames, log))) ::
                View(next, frames, log + [Unscheduled(handle)])
                == Do(old(View(next, frames, log)), UnscheduleTimer(handle))
    {
      timers := timers - {handle};
      ScheduleNative();
    }

    /** A sender on any thread. */
    method Send()
      modifies this
      ensures callbacks == old(callbacks) + 1 && signalled && timers == old(timers)
      ensures forall next, frames, log ::
                var s := old(View(next, frames, log));
                Enabled(s, Step.Send) && View(next, frames, log) == Do(s, Step.Send)
    {
      callbacks := callbacks + 1;
      ScheduleNative();
    }
  }
}
