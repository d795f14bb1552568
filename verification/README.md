# Run loop and WebView runtime: a verified model

This project models the concurrent core of the runtime in Dafny and proves
properties of it: the process-wide run loop with its cross-thread `call`, tasks,
`block_on`, the timer schedulers of Windows and macOS with the repeating timer on
top, the Rust-to-JavaScript channel end to end, the asynchronous creation of
WebView2 views, and three small algorithms around them. Everything stated here is
proved for all inputs, all histories or all runs.

## How the model is built

Code that one thread runs step by step on an object is a class whose methods follow
the source's branches. Each method equates the new state with a function of the old
one (`View()` or `State()`), and the lemmas say what that function is good for. Where
the lemmas speak of histories, the object carries its own as a ghost field, so that
they hold of any sequence of calls.

Code whose correctness lies in the interleaving of threads is a machine: a `State`,
a `Step` datatype with one constructor for each atomic operation (an atomic access, a
mutex section, a native event), `Enabled` and `Do`. `IsRun` says that a sequence of
states starts at process start and goes on by such steps, in any order and with any
number of threads, callers and epochs. Theorems quantify over every run.

| file | what it models |
|---|---|
| RunLoopMachine, RunLoopInvariant, RunLoopTheorems | `init`, guards, shutdown, `call`, `send`, the blocking slot |
| RunLoopErrors | exactly when `call` fails, and when it does although the callback ran |
| RunLoopProgress | which parked calls can still return, and which value |
| BlockOn | `block_on` and its deduplicating waker |
| Tasks | spawned tasks, join handles, abort, the list of active tasks |
| TimerLog | what a legal scheduler log promises, for both platforms |
| Win32Scheduler, DarwinScheduler | the two schedulers and their wake-ups |
| RepeatingTimer, TimerLayers | the repeating timer, its handles, and how it sits on a scheduler |
| JsChannel | the injected JavaScript `Channel` and its reorder buffer |
| ChannelSystem, ChannelTheorems, ChannelPost | a channel from `send` to the page, and the payload store |
| ControllerQueue, DeferredWebView | serialized creation, and a view used before it is ready |
| UriWorkAround, TimestampSuffix, DragDrop | URI rewriting, base-36 suffix, GTK drag and drop |

## What the proofs brought to light

- `call` may return an error although its callback runs; the documentation
  (crates/run_loop/src/run_loop.rs:597-600) promises an error only if the run loop shuts down before the
  callback starts. `WhenCallFailsAlthoughItRan` gives the exact condition, and there is a run for each of
  its three cases: the second read of the token hides a result that is in the slot (`SecondReadHidesResult`),
  the callback itself drops the last guard (`CallbackShutsDown`), and the closure of a cancelled call runs in
  the next epoch of the same thread (`StaleClosureRuns`). `WhenCallFails` says when a call fails at all.
- `block_on` can sleep on a wake. A native loop that the future runs while it is polled takes the nudge out of
  the queue and leaves the flag set, so that no later wake sends another one (`NestedLoopLosesAWake`).
  `WhenWakesAreLost` shows that this is the only way.
- A caller parked in `get_blocking` keeps its own completion object alive, so that
  dropping the queued closure cannot rescue it: `ParkedCallerHasRescuer` lists who can. While the run loop
  it posted to is the installed one, its closure is queued, running or about to store (`ParkedCallerIsServed`)
  and the call can still return the callback's value (`WhenParkedMayReturn`, `UpIsHopeful`).
- Every error that `call` returns is `NotInitialized`, also where a lookup could have given another
  (`OnlyErrorIsNotInitialized`).
- The channel's drain loop does not look at `_alive`. A handler that calls `close()` is still called for the
  successors that are buffered already (`HandlerIsCalledAfterClose`); `WhenDrainRespectsClose` says exactly when.
- A message that fails to serialise, or is lost on its way, has used up its index and stalls
  the channel for good (`FailedSerialisationStalls`, `LostMessageStalls`); nothing else but a close or the end of
  the owner does (`WhenNextMayBeConsumed`). `WhenAMessageIsLost` lists the steps that lose one, and there are no others.
- End notifications are inert (`EndsAreInert`): since the page's `close()` already unregisters the callback, neither
  test of `_alive` after an end ever removes anything, and a channel the page does not close stays registered.
- A large payload leaks if its fetch is refused before it is queued, discarded with the run loop or fails to evaluate, and also if the
  owner is dropped after the fetch script ran and before the page fetched (`DropWhileFetchingLeaks`): by then
  the cleanup is disarmed. `WhenAPayloadIsForgotten` shows that these are the only ways.
- A stale wake polls a finished future again once its value was joined (`WhenAWakePolls`, `StaleWakeRepolls`).
- `abort` does not wake a parked joiner; it sleeps until some other wake of the task (`AbortedJoinerNeedsAWake`).
- On macOS a timer that a drain has extracted ignores `unschedule` (`UnscheduledTimerFires`), and no other does
  (`WhenUnscheduledTimersFire`). A tick of a repeating timer that is stopped in that window still begins its
  callback if the timer is running again when the drain reaches it (`RestartedTimerTicksAtOnce`), and only then
  (`WhenAStoppedTickBegins`).
- A tick whose callback stops the timer still registers its successor, which is discarded when it fires:
  at most one tick is registered even then (`AtMostOneTick`), and none begins (`WhenCallbackBegins`).
- The URI round trip fails on URIs that contain the work-around prefix between rewritten prefixes, and only
  on those (`RoundTrip`); a navigation to the protocol itself can be one (`RoundTripCanFail`).

## Model

| member | source | states |
|---|---|---|
| RunLoopTheorems.NoStrandedCaller | crates/run_loop/src/run_loop.rs:463-476 | once the shutdown of an epoch has left its cancel loop, every caller parked in `get_blocking` on that epoch has its slot set and can return |
| RunLoopTheorems.ParkedCallerHasRescuer | crates/run_loop/src/run_loop.rs:604-631 | a caller parked on an empty slot is still registered with a shutdown to come, or being cancelled, or its result is about to be stored, so that it never waits for ever on a run loop that shuts down; RunLoopProgress.ParkedCallerIsServed says that its own closure serves it until then |
| RunLoopProgress.ParkedCallerIsServed | crates/run_loop/src/run_loop.rs:604-631 | in every run a call parked on an empty slot, in an epoch whose token is not set, has its closure queued, running or about to store |
| RunLoopProgress.WhenParkedMayReturn | crates/run_loop/src/run_loop.rs:623-630 | a call parked on an empty slot has a continuation of the run in which it returns `Ok(v)` if and only if it was not cancelled and its closure is about to store or is running with a value, or is queued on the installed run loop before its shutdown begins; and `v` is the value produced, if one was |
| RunLoopProgress.UpIsHopeful | crates/run_loop/src/run_loop_sender.rs:48-60 | while its epoch is the installed one and its shutdown has not begun, every call parked on an empty slot meets that condition, for some value |
| RunLoopProgress.OnlyErrorIsNotInitialized | crates/run_loop/src/run_loop.rs:597-600 | whatever error any call returns in any run is `NotInitialized` |
| RunLoopTheorems.ClosuresReachLivingLoops | crates/run_loop/src/run_loop_sender.rs:48-60 | no closure is ever queued on a run loop that is gone |
| RunLoopTheorems.FinishedCallsArePruned | crates/run_loop/src/run_loop.rs:618-622 | once the completion of a call is dropped, the next call that registers takes it off the list, goes to the end itself, and drops nobody that can still be upgraded |
| RunLoopTheorems.ExactlyOnce | crates/run_loop/src/run_loop.rs:100-132 | across complete, cancel and drop in any order: at most one write of the slot, at most one execution, and a returned value is what that execution produced on the owning thread |
| RunLoopErrors.WhenCallFails | crates/run_loop/src/run_loop.rs:604-631 | any call fails if and only if its inline lookup failed, or there was no sender, or the token was set or gone at the first read, the queue gone at the enqueue, the token set at the second read, or shutdown's cancel or a failed lookup won the slot |
| RunLoopErrors.WhenCallFailsAlthoughItRan | crates/run_loop/src/run_loop.rs:597-631 | a call fails and its callback runs if and only if the second read refused and the callback ran, or it was cancelled between callback and `complete`, or its callback ran after the cancel |
| RunLoopErrors.SecondReadHidesResult | crates/run_loop/src/run_loop_sender.rs:58-59 | for any threads and result a run in which the result is in the slot and `call` returned an error |
| RunLoopErrors.CallbackShutsDown | crates/run_loop/src/run_loop.rs:463-476 | a run in which the callback drops the last guard and its own call fails |
| RunLoopErrors.StaleClosureRuns | crates/run_loop/src/run_loop.rs:623-627 | a run in which the closure of a cancelled call runs its callback in the next epoch |
| RunLoopErrors.RunTells | crates/run_loop/src/run_loop.rs:604-631 | in every state of every run, what a call returned and whether its callback ran is what its history says |
| RunLoopTheorems.ErrorMeansShutdown | crates/run_loop/src/run_loop_sender.rs:48-60 | a background call that failed belongs to an epoch that is being shut down |
| RunLoopTheorems.LifecycleBetweenSections | crates/run_loop/src/run_loop.rs:417-522 | between INIT_MUTEX sections the count is the number of guards, positive exactly when instance, sender and thread id are set, and these belong to one live epoch owned by every guard's thread |
| RunLoopTheorems.InitIsAllOrNothing | crates/run_loop/src/run_loop.rs:345-365 | the instance slot is free when `initialize` sets it, the lookup after the increment never fails, and a refused `init` changes nothing |
| RunLoopTheorems.LookupBetweenSections | crates/run_loop/src/run_loop.rs:653-679 | between sections the lookup succeeds exactly on the thread that holds the guards, and names the reason everywhere else |
| RunLoopTheorems.InlineCallFailsOnlyDuringShutdown | crates/run_loop/src/run_loop.rs:609-612 | `call` on the run loop thread runs inline and succeeds except from code that the shutdown itself runs |
| RunLoopInvariant.RunInv | crates/run_loop/src/run_loop.rs:345-522 | every state of every run keeps the lifecycle, registration, one-writer, value and error invariants of all calls at once |
| RunLoopMachine.Retain | crates/run_loop/src/run_loop.rs:618-622 | compaction of PENDING_CALLS keeps exactly the entries whose completion can still be upgraded |
| BlockOn.RunInv | crates/run_loop/src/run_loop.rs:779-812 | in every run a set flag has a nudge to answer for it, unless a native loop inside the last poll took it, and an owed poll has the flag; BlockOn.ReturnsOnReady says when the loop returns |
| BlockOn.ReturnsOnReady | crates/run_loop/src/run_loop.rs:798-811 | in every run `block_on` has returned if and only if the latest poll was Ready; every earlier poll was Pending, none begins after it, and polls never exceed the wakes by more than the first one |
| BlockOn.NoLostWake | crates/run_loop/src/run_loop.rs:151-182 | inside `poll_once` an owed poll has the flag set, and a set flag has a nudge queued, just run, about to be sent, or taken by a native loop inside the last poll |
| BlockOn.WhenWakesAreLost | crates/run_loop/src/run_loop.rs:174-181 | asleep, the loop has the flag set if and only if a native loop inside the last poll took a nudge while it was set; a poll is owed only then, and exactly then the next wake leaves it asleep |
| BlockOn.NestedLoopLosesAWake | crates/run_loop/src/run_loop.rs:798-811 | a run that ends asleep with a poll owed |
| BlockOn.OwedPollIsTaken | crates/run_loop/src/run_loop.rs:798-805 | when the loop leaves `poll_once` owing a poll, its next two operations are that poll |
| BlockOn.NudgesAreDeduplicated | crates/run_loop/src/run_loop.rs:174-181 | nudges sent never exceed polls taken, however many wakes happen |
| Tasks.ResultExcludesParkedJoiner | crates/run_loop/src/task.rs:126-149 | after any history an uncollected result and a parked joiner never coexist |
| Tasks.AbortIsFinal | crates/run_loop/src/task.rs:110-118 | after an abort the future is never polled and every join resolves to Aborted |
| Tasks.FirstJoinIsFirstCompletion | crates/run_loop/src/task.rs:178-197 | the first result collected is Aborted exactly if the task was aborted, and otherwise the first outcome of the future |
| Tasks.CollectedIsLatest | crates/run_loop/src/task.rs:178-197 | a join that collects a result other than Aborted hands out what the latest completing wake was given |
| Tasks.WhatAWakeDoes | crates/run_loop/src/task.rs:126-149 | in every history a wake that polls meets the outcome it was given, and a wake that leaves the task pending and not aborted wakes nobody |
| Tasks.WhenAWakePolls | crates/run_loop/src/task.rs:133-148 | a wake polls the future if and only if the task is not aborted and every completion was collected |
| Tasks.StaleWakeRepolls | crates/run_loop/src/task.rs:137-140 | a concrete history in which a joined task is polled again and its joiner collects a second result |
| Tasks.UncollectedIsStored | crates/run_loop/src/task.rs:133-191 | completions minus collections is one or zero, and one exactly if a value is stored |
| Tasks.WakerIsWaitingJoiner | crates/run_loop/src/task.rs:186-195 | a waker is stored exactly if a join poll parked and nothing has woken it since |
| Tasks.CompletionWakesJoiner | crates/run_loop/src/task.rs:142-146 | the wake that completes the future wakes the joiner exactly if one waits, and leaves the result for it |
| Tasks.AbortedJoinerNeedsAWake | crates/run_loop/src/task.rs:110-118 | a joiner parked when its task is aborted is woken if and only if a wake of the task still comes |
| Tasks.Task.Poll | crates/run_loop/src/task.rs:87-108 | the outcome of the future, or Aborted if the task was aborted or has no future |
| Tasks.Task.RunWake | crates/run_loop/src/task.rs:127-148 | appends the wake to the task's history and wakes the joiner exactly if the history says so |
| Tasks.Task.AbortTask | crates/run_loop/src/task.rs:110-117 | appends the abort to the task's history |
| Tasks.Task.JoinPoll | crates/run_loop/src/task.rs:181-196 | appends the join to the task's history and returns what the history says |
| Tasks.ActiveTasks.Spawn | crates/run_loop/src/run_loop.rs:727-746 | every live task stays on the list through compaction, and the list has at most max(100, live tasks) entries |
| Tasks.ActiveTasks.AbortAll | crates/run_loop/src/run_loop.rs:478-502 | shutdown puts an abort at the end of every live task's history and empties the list |
| Tasks.Retained | crates/run_loop/src/run_loop.rs:743-745 | compaction keeps exactly the live tasks and no duplicates |
| TimerLog.FiresAtMostOnce | crates/run_loop/src/platform/win32/mod.rs:216-221 | no handle fires twice in a legal log |
| TimerLog.NeverBeforeDeadline | crates/run_loop/src/platform/win32/mod.rs:205-212 | a callback that fires was scheduled, its deadline has passed, and nothing unscheduled it before it fired or was extracted |
| TimerLog.UnscheduleStopsUnlessExtracted | crates/run_loop/src/platform/darwin/mod.rs:92-98 | after `unschedule` a callback fires only if a drain had extracted it before, and then it stays due |
| TimerLog.UnscheduledFiresIfExtracted | crates/run_loop/src/platform/darwin/mod.rs:92-98 | once nothing is extracted any more, an unscheduled timer has fired since if and only if it was extracted then |
| TimerLog.GoneStaysGone | crates/run_loop/src/platform/win32/mod.rs:173-177 | a handle that left the scheduler never comes back |
| Win32Scheduler.FiringSafety | crates/run_loop/src/platform/win32/mod.rs:203-225 | in every log the scheduler keeps, re-entrant and nested processing included: at most once, never early, never after `unschedule`, even out of a batch already collected |
| Win32Scheduler.State.WakeUpAt | crates/run_loop/src/platform/win32/mod.rs:156-161 | despite whole milliseconds and 32 bits the wake-up is not later than the later of now and the requested time, and less than a millisecond early within range |
| Win32Scheduler.State.NextTimer | crates/run_loop/src/platform/win32/mod.rs:168-171 | the earliest deadline, or an hour from now if there is none |
| Win32Scheduler.State.Schedule | crates/run_loop/src/platform/win32/mod.rs:179-196 | a new handle with the right deadline is registered, all others are kept, and the wake-up is armed for the next timer: never late, and within range less than a millisecond early |
| Win32Scheduler.State.Unschedule | crates/run_loop/src/platform/win32/mod.rs:198-201 | removes this timer only, so a fired handle removes nothing, and arms the wake-up for the next timer that is left |
| Win32Scheduler.State.CollectDue | crates/run_loop/src/platform/win32/mod.rs:206-212 | exactly the handles whose deadline has passed |
| Win32Scheduler.State.Act | crates/run_loop/src/platform/win32/mod.rs:173-201 | each call a callback makes takes effect with its own arguments, and a nested native message is attended to as by OnTimer |
| Win32Scheduler.State.RunCallback | crates/run_loop/src/platform/win32/mod.rs:218-220 | whatever a callback schedules, unschedules or pumps, exactly these calls are logged in order and every callback that starts meanwhile returns, the log stays legal and older timers are only ever removed |
| Win32Scheduler.State.FireDue | crates/run_loop/src/platform/win32/mod.rs:216-221 | the first timer of a batch fires, every other only if it is still registered when its turn comes, and none of the batch is registered afterwards |
| Win32Scheduler.State.ProcessTimers | crates/run_loop/src/platform/win32/mod.rs:203-225 | after the drain nothing that was due on entry is left, and the returned time is exactly the next timer: the earliest deadline, or an hour from now |
| Win32Scheduler.State.OnTimer | crates/run_loop/src/platform/win32/mod.rs:163-166 | the same for the native message: nothing due on entry is left, and last of all the wake-up is armed for the next timer |
| DarwinScheduler.NoLateWakeUp | crates/run_loop/src/platform/darwin/mod.rs:171-227 | with no drain on the stack, waiting callbacks have the source signalled, and waiting timers have it signalled or a native timer no later than the earliest deadline |
| DarwinScheduler.NoEarlyWakeUp | crates/run_loop/src/platform/darwin/mod.rs:180-227 | with no drain on the stack, a native timer installed while timers wait goes off at the earliest deadline, or at once if that had passed, and not before |
| DarwinScheduler.WakeUpIsExact | crates/run_loop/src/platform/darwin/mod.rs:171-227 | rescheduling with no callback waiting installs the native timer for the earliest deadline, at once if that has passed, or an hour from now |
| DarwinScheduler.CallbacksAreConserved | crates/run_loop/src/platform/darwin/mod.rs:83-99 | in every run the callbacks sent are those that have run, those that wait and those that drains hold; with no drain on the stack the source is signalled while one has not run |
| DarwinScheduler.NeverBeforeItsDelay | crates/run_loop/src/platform/darwin/mod.rs:345-365 | a timer scheduled with a delay runs no earlier than that delay after the call |
| DarwinScheduler.DrainTakesExactlyTheDue | crates/run_loop/src/platform/darwin/mod.rs:83-99 | from the start of a collection to its end, whatever is sent meanwhile, a drain takes all callbacks that waited and exactly the timers due when it began |
| DarwinScheduler.FiringSafety | crates/run_loop/src/platform/darwin/mod.rs:262-280 | in every run, nested drains included: at most once, never early, and after `unschedule` only if extracted before |
| DarwinScheduler.WhenUnscheduledTimersFire | crates/run_loop/src/platform/darwin/mod.rs:338-343 | once every drain has ended, an unscheduled timer has fired afterwards if and only if a drain on the stack held it when it was unscheduled |
| DarwinScheduler.UnscheduledTimerFires | crates/run_loop/src/platform/darwin/mod.rs:262-272 | at any time, a run in which the callback of one timer unschedules a second one, which fires |
| DarwinScheduler.RunInv | crates/run_loop/src/platform/darwin/mod.rs:262-365 | every state of every run keeps the wake-up rule, a legal log, and drains that hold exactly the extracted timers |
| DarwinScheduler.LoopState.EarliestDeadline | crates/run_loop/src/platform/darwin/mod.rs:171-178 | now if callbacks wait, else exactly the deadline of an earliest timer, or an hour from now if there is none |
| DarwinScheduler.LoopState.ScheduleNative | crates/run_loop/src/platform/darwin/mod.rs:180-227 | exactly the rescheduling that the machine assumes |
| DarwinScheduler.LoopState.GetPendingExecution | crates/run_loop/src/platform/darwin/mod.rs:83-99 | takes all callbacks and exactly the due timers, and leaves the others |
| DarwinScheduler.LoopState.Send | crates/run_loop/src/platform/darwin/mod.rs:449-462 | always possible: the waiting callbacks grow by exactly one and the source is signalled, as in the machine |
| DarwinScheduler.LoopState.Schedule | crates/run_loop/src/platform/darwin/mod.rs:345-365 | registers the timer under a new handle and does the rescheduling, as in the machine |
| DarwinScheduler.LoopState.Unschedule | crates/run_loop/src/platform/darwin/mod.rs:338-343 | removes this timer only and does the rescheduling, as in the machine |
| TimerLayers.OneTickInTheLog | crates/run_loop_timer/src/lib.rs:155-193 | in every run of the timer on a scheduler at most one registered handle of the log is a tick, it is `current`, and no tick fires twice |
| TimerLayers.LayersFit | crates/run_loop_timer/src/lib.rs:132-200 | in every such run the log is legal and leaves behind exactly the scheduler that the timer sees |
| TimerLayers.LogRefinesScheduler | crates/run_loop/src/platform/darwin/mod.rs:262-272 | the step below it: every event a legal log admits moves the scheduler as the timer's machine assumes |
| RepeatingTimer.AtMostOneTick | crates/run_loop_timer/src/lib.rs:155-193 | under every interleaving at most one tick is registered, the one in `current_handle`, and none once the timer is gone |
| RepeatingTimer.RunningTimerTicks | crates/run_loop_timer/src/lib.rs:132-139 | running with no tick executing means that exactly one tick is registered, unless a drain holds one it is about to run |
| RepeatingTimer.StartMakesItRun | crates/run_loop_timer/src/lib.rs:132-139 | in every run, after `stop` inside a callback too, `start` leaves a running timer alone and gives any other exactly one new tick |
| RepeatingTimer.ReturnRegistersTick | crates/run_loop_timer/src/lib.rs:184-193 | a callback that returns leaves exactly one tick registered, the new one, unless the timer went down with it; then none |
| RepeatingTimer.DropStops | crates/run_loop_timer/src/lib.rs:195-200 | dropping the owner stops the timer and leaves no tick registered |
| RepeatingTimer.WhenCallbackBegins | crates/run_loop_timer/src/lib.rs:172-184 | a step begins the user callback if and only if it takes a tick out of the map or a drain while the timer is running |
| RepeatingTimer.StopCancelsOnlyItsTick | crates/run_loop_timer/src/lib.rs:142-148 | `stop` leaves no tick registered and touches nobody else's timer, even with a stale handle |
| RepeatingTimer.TickReplacesOnlyItsTick | crates/run_loop_timer/src/lib.rs:186-193 | replacing the handle of a tick that fired long ago cancels nobody's timer |
| RepeatingTimer.WhenAStoppedTickBegins | crates/run_loop_timer/src/lib.rs:142-184 | a tick pending at `stop` begins its callback later if and only if a drain held it then and the timer is running again when the drain reaches it |
| RepeatingTimer.NoStoppedTickBegins | crates/run_loop/src/platform/win32/mod.rs:216-221 | where nothing is extracted at `stop`, no tick pending then ever begins |
| RepeatingTimer.RestartedTimerTicksAtOnce | crates/run_loop_timer/src/lib.rs:172-184 | a run in which a timer is stopped and restarted while a drain holds its tick, and that tick begins beside the one that the restart registered |
| RepeatingTimer.RunInv | crates/run_loop_timer/src/lib.rs:132-200 | every state of every run keeps the invariant between timer, handles and scheduler |
| RepeatingTimer.Handle.CancelNow | crates/run_loop/src/handle.rs:24-28 | cancels at most once, however often it is called or dropped |
| RepeatingTimer.Handle.Detach | crates/run_loop/src/handle.rs:34-36 | nothing is cancelled afterwards |
| RepeatingTimer.TimerInner.StartTimer | crates/run_loop_timer/src/lib.rs:132-139 | a second start changes nothing, a first one registers one tick |
| RepeatingTimer.TimerInner.StopTimer | crates/run_loop_timer/src/lib.rs:142-148 | not running afterwards, and the stored tick is cancelled |
| RepeatingTimer.TimerInner.ScheduleNextTick | crates/run_loop_timer/src/lib.rs:155-167 | registers the next tick first and then drops, hence cancels, the handle it replaces |
| RepeatingTimer.TimerInner.BeginTick | crates/run_loop_timer/src/lib.rs:172-184 | the callback is called exactly if the timer is alive and running |
| RepeatingTimer.TimerInner.EndTick | crates/run_loop_timer/src/lib.rs:186-193 | after the callback the next tick is registered, and cancelled again if this was the last reference |
| RepeatingTimer.TimerInner.DropOwner | crates/run_loop_timer/src/lib.rs:195-200 | the timer is stopped, and nothing is left unless a tick is executing |
| JsChannel.DrainTakesTheBufferedRun | crates/wxp/src/initialization.rs:118-137 | a drain takes exactly the gapless run of buffered messages from the next index on, in index order |
| JsChannel.DrainHandles | crates/wxp/src/initialization.rs:119-127 | with a handler that stays installed each message taken is passed to it |
| JsChannel.DrainObeys | crates/wxp/src/initialization.rs:118-149 | from what a drain took one can read off all that handlers did: a message is handled as long as no handler before it removed itself, and the channel is open exactly as long as none before closed it |
| JsChannel.ReceiveObeys | crates/wxp/src/initialization.rs:90-149 | the same for one callback of either kind |
| JsChannel.ReceiveIsBufferAndDrain | crates/wxp/src/initialization.rs:99-111 | delivering the awaited message at once equals buffering it and draining |
| JsChannel.WhenDrainRespectsClose | crates/wxp/src/initialization.rs:118-127 | a drain of an open channel calls no handler after the close if and only if no message of the run that is handled closes the channel, keeps its handler, and has its successor buffered |
| JsChannel.WhenReceiveRespectsClose | crates/wxp/src/initialization.rs:90-112 | the same for one arriving message |
| JsChannel.Internals.TransformCallback | crates/wxp/src/initialization.rs:25-29 | the id handed out was never in use |
| JsChannel.Channel.DrainPendingMessages | crates/wxp/src/initialization.rs:118-137 | the loop is the drain of which DrainTakesTheBufferedRun, DrainObeys and WhenDrainRespectsClose speak, and touches no other registry entry |
| JsChannel.Channel.RunCallback | crates/wxp/src/initialization.rs:90-112 | the arrival of which ReceiveObeys and WhenReceiveRespectsClose speak, other registry entries untouched |
| JsChannel.Channel.CloseChannel | crates/wxp/src/initialization.rs:143-149 | closes and unregisters this channel only |
| ChannelTheorems.ChannelIsFifo | crates/wxp/src/initialization.rs:79-137 | in every run the page has consumed exactly messages 0 to k-1 as sent, k being the least index not arrived, and buffers exactly what arrived beyond k |
| ChannelTheorems.EveryMessageIsHandled | crates/wxp/src/initialization.rs:102-107 | while a handler stays installed every message consumed was passed to it |
| ChannelTheorems.ClosedMeansSilent | crates/wxp/src/initialization.rs:143-149 | once the page has closed the channel nothing more is consumed, for the rest of every run |
| ChannelTheorems.WhenChannelIsClosed | crates/wxp/src/initialization.rs:102-149 | in every run the channel is open if and only if no message consumed was handled by a handler that closes and page code did not close it; and it is registered exactly while it is open |
| ChannelTheorems.StepObeys | crates/wxp/src/initialization.rs:90-149 | every step of every run moves handler and open flag as the messages it consumes say, except that page code may close the channel or set the handler |
| ChannelTheorems.WhenArrivalRespectsClose | crates/wxp/src/initialization.rs:99-111 | in every run, an arrival calls the handler after a close if and only if a handled message closes, keeps the handler, and has its successor buffered |
| ChannelTheorems.HandlerIsCalledAfterClose | crates/wxp/src/initialization.rs:119-127 | a run in which the handler of the first message closes the channel and is called for the second |
| ChannelTheorems.EndsAreInert | crates/wxp/src/wxp_channel/channel.rs:159-177 | in every run an end notification delivers nothing and unregisters nothing; the callback is registered exactly until the page closes the channel |
| ChannelTheorems.EndsCarryTheCount | crates/wxp/src/wxp_channel/channel.rs:159-177 | in every run each end notification carries the number of messages sent before it, is sent only while the owner lives, and reaches the page at most once; those not yet run are under way |
| ChannelTheorems.LostMessageStalls | crates/wxp/src/wxp_channel/channel.rs:133-138 | if nothing carries a message, or only the id of a payload that is gone, nothing from its index on is ever consumed |
| ChannelTheorems.WhenAMessageIsLost | crates/wxp/src/wxp_channel/channel.rs:82-157 | in every run a message is lost if and only if it did not serialise, its post was refused or found the owner gone, its closure was discarded, its script found the owner gone or failed, somebody else took its payload, the page went down with it, or it arrived at a closed channel |
| ChannelTheorems.WhenAMoveLoses | crates/wxp/src/webview.rs:162-203 | which moves of its own lose a message |
| ChannelTheorems.WhenNextMayBeConsumed | crates/wxp/src/initialization.rs:99-111 | some way to go on consumes the next message if and only if the owner lives, the page has not closed, and the message is not lost |
| ChannelTheorems.FailedSerialisationStalls | crates/wxp/src/wxp_channel/channel.rs:83-90 | the index of a message that failed to serialise is never passed |
| ChannelTheorems.PayloadIsConserved | crates/wxp/src/wxp_channel/internals.rs:21-35 | with any other channels on the same store a payload leaves at most once, is there exactly if it has not left, is what was stored, an own one what its send was given, and is cleaned up at most once |
| ChannelTheorems.PageGetsWhatWasSent | crates/wxp/src/wxp_channel/channel.rs:122-139 | whichever route a message took, the page is given what that very send was given |
| ChannelTheorems.AbandonedPostCleansUp | crates/wxp/src/webview.rs:162-203 | posting or executing the fetch after the owner is gone runs the cleanup for the first time and removes the payload |
| ChannelTheorems.PayloadNeverReturns | crates/wxp/src/wxp_channel/internals.rs:27-30 | a payload that left the store never reappears |
| ChannelTheorems.WhenAPayloadIsForgotten | crates/wxp/src/webview.rs:174-200 | a stored payload is still known to a closure or script if and only if no step so far refused its post before it was queued, discarded its closure, failed its script, or dropped the owner while the page was fetching it |
| ChannelTheorems.DropWhileFetchingLeaks | crates/wxp/src/webview.rs:187-190 | a run in which the owner is dropped while the page fetches, and the payload stays with nobody left to ask for it |
| ChannelSystem.RunInv | crates/wxp/src/wxp_channel/channel.rs:82-177 | every state of every run keeps page order, message identity, a page that ends with its owner, and the books of the payload store |
| ChannelPost.RunPostedFetch | crates/wxp/src/webview.rs:179-191 | the closure cleans up exactly once if the owner is gone and not at all otherwise, as the machine assumes |
| ChannelPost.PostFetchScript | crates/wxp/src/webview.rs:162-203 | the three results of a post with their effect on the store, as the machine assumes |
| ControllerQueue.CompleteDrains | crates/wry/src/webview2/mod.rs:575-589 | one completion, however deep it recurses, starts in order all pending tasks up to the first that stays in flight |
| ControllerQueue.OneAtATimeInOrder | crates/wry/src/webview2/mod.rs:558-589 | over any history at most one creation is in flight, and it is the last that was started and none that completes on the spot; the queue is not idle while work waits, and tasks start in enqueue order |
| ControllerQueue.WebView2ControllerCreationQueue.EnqueueControllerCreation | crates/wry/src/webview2/mod.rs:558-573 | the specified enqueue, starting the task at once exactly if the queue was idle |
| ControllerQueue.WebView2ControllerCreationQueue.CompleteControllerCreation | crates/wry/src/webview2/mod.rs:575-589 | the specified completion; the recursion through synchronous tasks terminates |
| DeferredWebView.DeferredRefinesReady | crates/wry/src/webview2/mod.rs:599-680 | requests before, during and after creation leave container, bounds, visibility and page as on a view that was ready from the start |
| DeferredWebView.ReadyViewObeys | crates/wry/src/webview2/mod.rs:1746-1878 | a view that is ready shows what the last request of each kind asked for, and what was never asked for is as the view was created |
| DeferredWebView.DeferredObeysLastRequests | crates/wry/src/webview2/mod.rs:599-680 | whenever the controller comes, the outcome is that of the last request of each kind before, during or after |
| DeferredWebView.ClosedExactlyOnce | crates/wry/src/webview2/mod.rs:599-649 | a delivered controller is closed at most once, and exactly if its initialization failed or its owner is gone |
| DeferredWebView.InnerWebView.SetBoundsInner | crates/wry/src/webview2/mod.rs:1815-1840 | applied now or remembered, the container moved either way |
| DeferredWebView.InnerWebView.SetVisibility | crates/wry/src/webview2/mod.rs:1856-1878 | remembered, shown, and passed to the controller if there is one |
| DeferredWebView.InnerWebView.LoadPage | crates/wry/src/webview2/mod.rs:1746-1781 | navigates now or remembers the latest request |
| DeferredWebView.InnerWebView.DropOwner | crates/wry/src/webview2/mod.rs:142-156 | takes the controller out and closes it if there is one |
| DeferredWebView.InnerWebView.FinishCreateController | crates/wry/src/webview2/mod.rs:599-680 | the specified finish, with host events during initialization |
| DeferredWebView.InnerWebView.Deliver | crates/wry/src/webview2/mod.rs:142-156 | any sequence of requests, one controller and the owner's drop leave the object as its history says |
| UriWorkAround.RoundTrip | crates/wry/src/custom_protocol_workaround.rs:21-43 | `revert(apply(u)) == u` if and only if no stretch between rewritten prefixes contains the work-around prefix |
| UriWorkAround.ProtocolBecomesHost | crates/wry/src/custom_protocol_workaround.rs:21-27 | `p://rest` becomes `h://p.rest`, if the prefix does not occur in the rest |
| UriWorkAround.HostBecomesProtocol | crates/wry/src/custom_protocol_workaround.rs:29-35 | `h://p.rest` becomes `p://rest`, if the prefix does not occur in the rest |
| UriWorkAround.RoundTripWithoutPrefix | crates/wry/src/custom_protocol_workaround.rs:21-43 | every URI without the work-around prefix comes back |
| UriWorkAround.RoundTripCanFail | crates/wry/src/custom_protocol_workaround.rs:21-35 | a URI that begins with the protocol, as at every call, and does not come back |
| UriWorkAround.WorkAroundPrefixUnbordered | crates/wry/src/custom_protocol_workaround.rs:41-43 | no proper prefix of the work-around prefix is also its suffix, so that its occurrences never overlap |
| UriWorkAround.ReplaceIsJoinOfSplit | crates/wry/src/custom_protocol_workaround.rs:21-27 | replace-all is splitting at the pattern and joining with the replacement |
| UriWorkAround.IsWorkAroundIsPrefixTest | crates/wry/src/custom_protocol_workaround.rs:11-19 | the chain of tests accepts exactly the URIs that begin with the work-around prefix |
| UriWorkAround.AppliedUriIsIntercepted | crates/wry/src/custom_protocol_workaround.rs:11-27 | a navigation to the protocol is intercepted after the rewrite |
| TimestampSuffix.GetTimestampSuffix | crates/run_loop/src/util/mod.rs:17-40 | the digit loop and the reversal give the base-36 numeral |
| TimestampSuffix.DecodeSuffix | crates/run_loop/src/util/mod.rs:29-39 | decoding gives the timestamp back, so the suffix is injective |
| TimestampSuffix.NoLeadingZero | crates/run_loop/src/util/mod.rs:25-36 | no leading zero except in the suffix of 0 |
| TimestampSuffix.AtMostThirteenDigits | crates/run_loop/src/util/mod.rs:20-36 | one to 13 digits for a 64-bit timestamp, and 13 are needed |
| TimestampSuffix.DigitCount | crates/run_loop/src/util/mod.rs:32-36 | at most k digits if and only if below 36 to the k |
| TimestampSuffix.SuffixOrder | crates/run_loop/src/util/mod.rs:17-40 | suffixes of equal length sort as their timestamps do |
| DragDrop.ControllerTracksOpenDrag | crates/wry/src/webkitgtk/drag_drop.rs:40-66 | after any signals the controller is outside Left exactly while a drag is open, with that drag's paths stored |
| DragDrop.TraceIsWellFormed | crates/wry/src/webkitgtk/drag_drop.rs:73-134 | every Over, Drop or Leave lies in an open drag, Drop carries its paths, and Drop and Leave close it |
| DragDrop.OpenDragHasEnter | crates/wry/src/webkitgtk/drag_drop.rs:78-90 | an open drag goes back to an Enter with nothing but Over events since |
| DragDrop.WhatIsEmitted | crates/wry/src/webkitgtk/drag_drop.rs:73-134 | exactly which event every signal makes visible, with which paths and position, as a function of the earlier signals alone |
| DragDrop.LeavingIsFinished | crates/wry/src/webkitgtk/drag_drop.rs:122-133 | an open drag that GTK has announced to leave always has an idle callback queued that will close it |
| DragDrop.EnteredIsHovering | crates/wry/src/webkitgtk/drag_drop.rs:52-58 | the controller is in Entered exactly if files were received after the latest leave |
| DragDrop.DragDropController.OnDataReceived | crates/wry/src/webkitgtk/drag_drop.rs:78-89 | appends its signal to the controller's history and emits what the history says |
| DragDrop.DragDropController.OnMotion | crates/wry/src/webkitgtk/drag_drop.rs:94-101 | appends its signal to the controller's history and emits what the history says |
| DragDrop.DragDropController.OnDrop | crates/wry/src/webkitgtk/drag_drop.rs:106-119 | appends its signal to the controller's history and emits what the history says |
| DragDrop.DragDropController.OnLeave | crates/wry/src/webkitgtk/drag_drop.rs:122-132 | appends its signal to the controller's history and emits what the history says |
| DragDrop.DragDropController.OnIdle | crates/wry/src/webkitgtk/drag_drop.rs:126-131 | appends its signal to the controller's history and emits what the history says |

## Left out

- Native calls (Core Foundation, Win32, GLib, WebView2 COM): they appear as queues, wake-up times, a monotone clock and completion events. A WebView2 creation call that returns an error never invokes its callback.
- The Linux and Android run loops: Linux leaves timers to GLib; on Android a zero wait disarms the timer, so that the wake-up theorems do not carry over.
- Panics in callbacks other than a task's future, exceptions from `onmessage`, a future that aborts itself while it is polled, a native loop run by a spawned future that reaches a wake or an abort of the same task (the source would poll or drop a future that is being polled), the last guard dropped from inside a task, host calls made while `finish_create_controller` replays remembered requests.
- `RefCell` borrow flags, weak memory orderings (atomics are sequentially consistent), wrap-around of 32-bit and `usize` counters, and the identity of wakers: each join handle is polled with one waker.
- `ensure_run_loop_on_current_thread`, which exists for tests only and breaks the thread-ownership rule.
- `post`, `delay`, and the Windows queue of sender callbacks: they add no shared state to what `call` and `block_on` use.
- Error messages and logging: errors are the values that `Error` names.
- DarwinScheduler.CallbacksAreConserved: sent callbacks are counted, not told apart, so the order within one drain is not stated.
- In the schedulers, reading the clock and arming the native timer take no time, and the floating-point fire date of Core Foundation is an exact instant.
- Win32Scheduler.State.ProcessTimers: a script stands for a finite prefix of what callbacks do; when it ends the observation ends. That the drain loop returns at all is not claimed, since a timer of interval zero can keep it busy.
- RepeatingTimer.RunningTimerTicks: one timer is in focus, and all others are timers of somebody else; the time between ticks is not modelled.
- DeferredWebView.DeferredRefinesReady: of the navigations it compares the last one, since only the latest deferred request is replayed; earlier ones never start.
- Single failing setters of a ready view (`SetBounds` before `SetWindowPos`) and `reload`, `bounds`, `focus`: native calls on an existing controller are taken to succeed.
- Native loops nested in `poll_once` itself: the callbacks it runs may nest loops, and whatever they run counts as run by that `poll_once`.
- Page reloads that discard the JavaScript side, `undefined` as a message (neither JSON nor a byte buffer can carry it), the `once` flag of callbacks, and the parsing of fetch headers and responses.
- ChannelTheorems.ChannelIsFifo: the messages of one `Channel::new` lineage per JavaScript channel and fewer than 2^32 of them; indices and payload ids are unbounded.
- UriWorkAround.RoundTrip: `http_or_https` is any string without `:` and `.`, which covers both values in use, and the protocol is any string without `://`.
- Drag signals served while the user's handler of an earlier one runs.
- Percent decoding of dropped paths and the boolean that drag handlers return.
- Asset serving, ZIP, cookies, downloads, HTML and CSP injection, command serialisation, builders, window code: I/O or thin wrappers over libraries.
