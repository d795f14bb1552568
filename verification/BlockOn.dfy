/**
 `RunLoopLocal::block_on` and its deduplicating waker, as a machine of atomic
 steps. Any number of threads wake the future at any time; the loop thread
 polls the future, then waits in the platform's `poll_once` until something in
 the platform queue runs. The future may itself run the native loop while it is
 polled (a modal dialog, `RunLoopLocal::run`). No shutdown happens meanwhile.
 */
module BlockOn {
  type Thread = nat

  /** The thread that called `block_on`. */
  const LOOP: Thread := 0

  datatype Pc =
    | AtTake                       // about to swap `queued` to false
    | AboutToPoll                  // the swap read true
    | Polling                      // inside the future's `poll`, or in a native loop that the future runs
    | InPollOnce(nudged: bool)     // inside `poll_once`; `nudged`: an empty callback ran since it was entered
    | Done

  datatype State = State(
    pc: Pc,
    queued: bool,                  // BlockOnWaker::queued
    nudges: nat,                   // empty callbacks in the platform queue
    sending: set<Thread>,          // wakers between their swap and their `send`
    owed: bool,                    // a wake has happened since the last poll began
    takes: nat,                    // successful `take_queued` so far
    sends: nat)                    // nudges sent or being sent so far

  const INITIAL: State := State(AtTake, true, 0, {}, false, 0, 0)

  datatype Step =
    | Take
    | PollBegin
    | PollEnd(ready: bool)
    | RunNudge
    | LeavePollOnce
    | WakeSwap(t: Thread)
    | WakeSend(t: Thread)

  predicate Enabled(s: State, step: Step) {
    match step
    case Take => s.pc == AtTake && LOOP !in s.sending
    case PollBegin => s.pc == AboutToPoll && LOOP !in s.sending
    case PollEnd(_) => s.pc == Polling && LOOP !in s.sending
    // The platform queue is served by `poll_once`, and by any native loop that the future runs.
    case RunNudge => (s.pc.InPollOnce? || s.pc == Polling) && s.nudges > 0 && LOOP !in s.sending
    case LeavePollOnce => s.pc.InPollOnce? && LOOP !in s.sending
    // The loop thread itself wakes from inside the future or from a callback that `poll_once` runs.
    case WakeSwap(t) => t !in s.sending && (t == LOOP ==> s.pc == Polling || s.pc.InPollOnce?)
    case WakeSend(t) => t in s.sending
  }

  function Do(s: State, step: Step): State
    requires Enabled(s, step)
  {
    match step
    case Take =>
      if s.queued then s.(pc := AboutToPoll, queued := false, takes := s.takes + 1)
      else s.(pc := InPollOnce(false))
    case PollBegin => s.(pc := Polling, owed := false)
    case PollEnd(ready) => s.(pc := if ready then Done else InPollOnce(false))
    case RunNudge => s.(pc := if s.pc == Polling then Polling else InPollOnce(true), nudges := s.nudges - 1)
    case LeavePollOnce => s.(pc := AtTake)
    case WakeSwap(t) =>
      if s.queued then s.(owed := true)
      else s.(queued := true, owed := true, sending := s.sending + {t}, sends := s.sends + 1)
    case WakeSend(t) => s.(sending := s.sending - {t}, nudges := s.nudges + 1)
  }

  ghost predicate Next(s: State, s': State) {
    exists step: Step :: Enabled(s, step) && s' == Do(s, step)
  }

  ghost predicate StepAt(run: seq<State>, i: nat) {
    i + 1 < |run| ==> Next(run[i], run[i + 1])
  }

  ghost predicate IsRun(run: seq<State>) {
    run != [] && run[0] == INITIAL && forall i: nat :: StepAt(run, i)
  }

  /** A nudge is on its way: in the queue, or about to be put there by a waker. */
  predicate NudgeComing(s: State) {
    s.nudges > 0 || s.sending != {}
  }

  /** Nothing is in the queue, nothing ran, no waker is under way: `poll_once` has nothing to return for. */
  predicate Asleep(s: State) {
    s.pc == InPollOnce(false) && s.nudges == 0 && s.sending == {}
  }

  // What happened since the last poll began, read off the run.

  /** Between `run[k]` and `run[k + 1]` the future's `poll` begins. */
  predicate PollBegins(run: seq<State>, k: nat)
    requires k + 1 < |run|
  {
    run[k].pc == AboutToPoll && run[k + 1].pc == Polling
  }

  /** Between `run[k]` and `run[k + 1]` a native loop inside the future's `poll` runs a nudge while the flag is set. */
  predicate NestedLoopTakesNudge(run: seq<State>, k: nat)
    requires k + 1 < |run|
  {
    run[k].pc == Polling && run[k].queued && run[k + 1].nudges < run[k].nudges
  }

  /** Since the last poll began, a native loop inside it has run a nudge while the flag was set. */
  predicate NudgeTaken(run: seq<State>, i: nat)
    requires i < |run|
  {
    i > 0 && !PollBegins(run, i - 1) && (NudgeTaken(run, i - 1) || NestedLoopTakesNudge(run, i - 1))
  }

  ghost predicate Inv(s: State, taken: bool) {
    && (s.queued && s.pc.InPollOnce? ==> s.pc.nudged || NudgeComing(s) || taken)
    && (s.queued && s.pc == AboutToPoll ==> NudgeComing(s))
    && (s.queued && s.pc == Polling ==> NudgeComing(s) || taken)
    && (taken && s.pc != AboutToPoll ==> s.queued)
    && (s.owed ==> s.queued || s.pc == AboutToPoll)
    && s.sends + (if s.queued then 0 else 1) <= s.takes + (if s.takes == 0 then 1 else 0)
    && (s.takes == 0 ==> s.queued && s.sends == 0 && s.pc == AtTake)
  }

  lemma StepInv(s: State, step: Step, taken: bool, taken': bool)
    requires Inv(s, taken) && Enabled(s, step)
    requires taken' <==> step != PollBegin && (taken || (step == RunNudge && s.pc == Polling && s.queued))
    ensures Inv(Do(s, step), taken')
  {
  }

  lemma {:induction false} RunInv(run: seq<State>, i: nat)
    requires IsRun(run) && i < |run|
    ensures Inv(run[i], NudgeTaken(run, i))
  {
    if i > 0 {
      RunInv(run, i - 1);
      assert StepAt(run, i - 1);
      var step :| Enabled(run[i - 1], step) && run[i] == Do(run[i - 1], step);
      StepInv(run[i - 1], step, NudgeTaken(run, i - 1), NudgeTaken(run, i));
    }
  }

  /**
   No lost wake, up to nested loops: whenever the loop sits in `poll_once`, a wake not
   yet followed by a poll has left the flag set, and while the flag is set a nudge is
   queued, has just run in this very `poll_once`, or is about to be sent by a waker,
   unless a native loop inside the last poll has run it.
   */
  lemma NoLostWake(run: seq<State>, i: nat)
    requires IsRun(run) && i < |run| && run[i].pc.InPollOnce?
    ensures run[i].owed ==> run[i].queued
    ensures run[i].queued ==> run[i].pc.nudged || NudgeComing(run[i]) || NudgeTaken(run, i)
  {
    RunInv(run, i);
  }

  /**
   Exactly when wakes get lost. Asleep, the loop has the flag set if and only if a native
   loop inside the last poll ran a nudge while the flag was set. A poll is owed only then;
   and then whoever wakes the future next sends nothing, so the loop sleeps on owing a poll.
   */
  lemma WhenWakesAreLost(run: seq<State>, i: nat, t: Thread)
    requires IsRun(run) && i < |run| && Asleep(run[i])
    ensures run[i].queued <==> NudgeTaken(run, i)
    ensures run[i].owed ==> NudgeTaken(run, i)
    ensures Enabled(run[i], WakeSwap(t))
    ensures var s' := Do(run[i], WakeSwap(t)); Asleep(s') && s'.owed <==> NudgeTaken(run, i)
  {
    RunInv(run, i);
  }

  lemma Extend(run: seq<State>, step: Step) returns (longer: seq<State>)
    requires IsRun(run) && Enabled(run[|run| - 1], step)
    ensures IsRun(longer) && run <= longer && |longer| == |run| + 1
    ensures longer[|longer| - 1] == Do(run[|run| - 1], step)
  {
    var s' := Do(run[|run| - 1], step);
    longer := run + [s'];
    assert Next(run[|run| - 1], s');
    forall i: nat ensures StepAt(longer, i) {
      assert StepAt(run, i);
    }
  }

  /** It does happen: a thread wakes the future during its poll, and a native loop inside that poll runs the nudge. */
  lemma NestedLoopLosesAWake(t: Thread) returns (run: seq<State>)
    requires t != LOOP
    ensures IsRun(run)
    ensures var s := run[|run| - 1]; Asleep(s) && s.owed && s.queued
  {
    run := [INITIAL];
    run := Extend(run, Take);
    run := Extend(run, PollBegin);
    run := Extend(run, WakeSwap(t));
    run := Extend(run, WakeSend(t));
    run := Extend(run, RunNudge);
    run := Extend(run, PollEnd(false));
  }

  /** Every wake is followed by a poll: once the loop leaves `poll_once` owing a poll, its next two steps are that poll. */
  lemma OwedPollIsTaken(run: seq<State>, i: nat)
    requires IsRun(run) && i < |run| && run[i].pc == AtTake && run[i].owed && LOOP !in run[i].sending
    ensures var s1 := Do(run[i], Take);
      Enabled(s1, PollBegin) && !Do(s1, PollBegin).owed && Do(s1, PollBegin).pc == Polling
  {
    RunInv(run, i);
  }

  /** No wake spam: the nudges sent never exceed the polls taken. */
  lemma NudgesAreDeduplicated(run: seq<State>, i: nat)
    requires IsRun(run) && i < |run|
    ensures run[i].sends <= run[i].takes
  {
    RunInv(run, i);
  }

  // Polls, counted along the steps of a run.

  ghost predicate TracedAt(run: seq<State>, steps: seq<Step>, k: nat)
    requires |run| == |steps| + 1
  {
    k < |steps| ==> Enabled(run[k], steps[k]) && run[k + 1] == Do(run[k], steps[k])
  }

  /** `steps` are the steps that `run` takes. */
  ghost predicate Traced(run: seq<State>, steps: seq<Step>) {
    && |run| == |steps| + 1 && run[0] == INITIAL
    && forall k: nat :: TracedAt(run, steps, k)
  }

  lemma TracedFront(run: seq<State>, steps: seq<Step>)
    requires Traced(run, steps) && steps != []
    ensures var m := |steps| - 1;
      && Traced(run[..m + 1], steps[..m])
      && Enabled(run[m], steps[m]) && run[m + 1] == Do(run[m], steps[m])
  {
    var m := |steps| - 1;
    var front, init := run[..m + 1], steps[..m];
    forall k: nat ensures TracedAt(front, init, k) {
      assert TracedAt(run, steps, k);
    }
    assert TracedAt(run, steps, m);
  }

  lemma TracedOn(run: seq<State>, steps: seq<Step>, s: State, step: Step, s': State)
    requires Traced(run, steps) && s == run[|steps|] && Enabled(s, step) && s' == Do(s, step)
    ensures Traced(run + [s'], steps + [step])
  {
    var longer, more := run + [s'], steps + [step];
    forall k: nat ensures TracedAt(longer, more, k) {
      assert TracedAt(run, steps, k);
    }
  }

  lemma FrontIsRun(run: seq<State>)
    requires IsRun(run) && |run| > 1
    ensures IsRun(run[..|run| - 1])
  {
    var front := run[..|run| - 1];
    forall k: nat ensures StepAt(front, k) {
      assert StepAt(run, k);
    }
  }

  /** Every run has its steps. */
  lemma {:induction false} RunIsTraced(run: seq<State>) returns (steps: seq<Step>)
    requires IsRun(run)
    ensures Traced(run, steps)
    decreases |run|
  {
    var m := |run| - 1;
    if m == 0 {
      steps := [];
    } else {
      FrontIsRun(run);
      var front := RunIsTraced(run[..m]);
      assert StepAt(run, m - 1);
      var step :| Enabled(run[m - 1], step) && run[m] == Do(run[m - 1], step);
      TracedOn(run[..m], front, run[m - 1], step, run[m]);
      assert run[..m] + [run[m]] == run;
      steps := front + [step];
    }
  }

  /** What the polls of the future returned, in order: true for Ready. */
  function Outcomes(steps: seq<Step>): seq<bool> {
    if steps == [] then []
    else
      var last := steps[|steps| - 1];
      Outcomes(steps[..|steps| - 1]) + if last.PollEnd? then [last.ready] else []
  }

  function PollsBegun(steps: seq<Step>): nat {
    if steps == [] then 0 else PollsBegun(steps[..|steps| - 1]) + if steps[|steps| - 1].PollBegin? then 1 else 0
  }

  function Wakes(steps: seq<Step>): nat {
    if steps == [] then 0 else Wakes(steps[..|steps| - 1]) + if steps[|steps| - 1].WakeSwap? then 1 else 0
  }

  ghost predicate Counted(s: State, outcomes: seq<bool>, begun: nat, wakes: nat) {
    && (s.pc == Done <==> outcomes != [] && outcomes[|outcomes| - 1])
    && (forall k | 0 <= k < |outcomes| - 1 :: !outcomes[k])
    && begun == |outcomes| + (if s.pc == Polling then 1 else 0)
    && s.takes == begun + (if s.pc == AboutToPoll then 1 else 0)
    && s.takes + (if s.queued then 1 else 0) == 1 + s.sends && s.sends <= wakes
  }

  lemma StepCounts(s: State, step: Step, outcomes: seq<bool>, begun: nat, wakes: nat)
    requires Enabled(s, step) && Counted(s, outcomes, begun, wakes)
    ensures Counted(Do(s, step), outcomes + (if step.PollEnd? then [step.ready] else []),
                    begun + (if step.PollBegin? then 1 else 0), wakes + (if step.WakeSwap? then 1 else 0))
  {
  }

  /**
   `block_on` returns exactly on Ready: it is done if and only if the latest poll returned
   Ready, every poll before that returned Pending, and so no poll begins afterwards. Nor
   does it poll for nothing: after the first poll each takes a wake of its own.
   */
  lemma {:induction false} ReturnsOnReady(run: seq<State>, steps: seq<Step>)
    requires Traced(run, steps)
    ensures var s := run[|steps|]; var outcomes := Outcomes(steps);
      && (s.pc == Done <==> outcomes != [] && outcomes[|outcomes| - 1])
      && (forall k | 0 <= k < |outcomes| - 1 :: !outcomes[k])
      && PollsBegun(steps) == |outcomes| + (if s.pc == Polling then 1 else 0)
      && PollsBegun(steps) <= 1 + Wakes(steps)
    ensures Counted(run[|steps|], Outcomes(steps), PollsBegun(steps), Wakes(steps))
    decreases |steps|
  {
    if steps != [] {
      var m := |steps| - 1;
      TracedFront(run, steps);
      ReturnsOnReady(run[..m + 1], steps[..m]);
      StepCounts(run[m], steps[m], Outcomes(steps[..m]), PollsBegun(steps[..m]), Wakes(steps[..m]));
    }
  }
}
