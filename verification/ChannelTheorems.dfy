/** What sender and page may rely on, over every run of the channel system. */
module ChannelTheorems {
  import opened Wrappers
  import opened JsChannel
  import opened ChannelSystem

  /**
   The channel is a FIFO queue: whatever the order of arrival, the page has consumed
   exactly the messages 0 … k-1 in the order they were sent, where k is the least
   index that has not arrived, and it buffers exactly what arrived beyond k. End
   notifications change nothing about that.
   */
  lemma ChannelIsFifo(run: seq<State>, n: nat)
    requires IsRun(run) && n < |run|
    ensures var s := run[n]; var k := s.js.next;
      && k !in s.arrived && (forall j: nat | j < k :: j in s.arrived)
      && |s.js.consumed| == k <= |s.sent|
      && (forall j: nat | j < k :: s.sent[j] == Some(s.js.consumed[j].message))
      && (forall j: nat :: j in s.js.pending <==> j in s.arrived && j > k)
      && (forall j: nat | j in s.js.pending :: j < |s.sent| && s.sent[j] == Some(s.js.pending[j]))
  {
    RunInv(run, n);
    var s := run[n];
    if s.js.next > 0 {
      assert SentAs(s.sent, s.js.next - 1, s.js.consumed[s.js.next - 1].message);
    }
    forall j: nat | j in s.js.pending ensures j < |s.sent| && s.sent[j] == Some(s.js.pending[j]) {
      assert SentAs(s.sent, j, s.js.pending[j]);
    }
    forall j: nat | j < s.js.next ensures s.sent[j] == Some(s.js.consumed[j].message) {
      assert SentAs(s.sent, j, s.js.consumed[j].message);
    }
  }

  /** No message sent so far makes its handler uninstall itself. */
  predicate NoneRemovesHandler(sent: seq<Option<Message>>) {
    forall i | 0 <= i < |sent| && sent[i].Some? :: !sent[i].value.reaction.removes
  }

  lemma StepHandles(s: State, step: Step)
    requires Inv(s) && Enabled(s, step) && s.js.handler && NoneRemovesHandler(s.sent)
    requires forall k | 0 <= k < |s.js.consumed| :: s.js.consumed[k].handled
    ensures forall k | 0 <= k < |Do(s, step).js.consumed| :: Do(s, step).js.consumed[k].handled
  {
    assert NeverRemoved(s.js.pending) by {
      forall i: nat | i in s.js.pending ensures !s.js.pending[i].reaction.removes {
        assert SentAs(s.sent, i, s.js.pending[i]);
      }
    }
    if step.RunData? && s.js.registered {
      var m := s.transit[step.i].message;
      var js1 := s.js.(pending := s.js.pending[step.i := m]);
      ReceiveIsBufferAndDrain(s.js, m, step.i);
      assert NeverRemoved(js1.pending);
      DrainHandles(js1);
      DrainTakesTheBufferedRun(js1);
      var r := Drain(js1);
      forall k | 0 <= k < |r.consumed| ensures r.consumed[k].handled {
        if k < |s.js.consumed| {
          assert r.consumed[k] == s.js.consumed[k];
        }
      }
    }
  }

  lemma NextHandles(s: State, s': State)
    requires Next(s, s') && Inv(s) && s.js.handler && NoneRemovesHandler(s.sent)
    requires forall k | 0 <= k < |s.js.consumed| :: s.js.consumed[k].handled
    ensures forall k | 0 <= k < |s'.js.consumed| :: s'.js.consumed[k].handled
  {
    var step :| Enabled(s, step) && s' == Do(s, step);
    StepHandles(s, step);
  }

  /** As long as a handler stays installed, every message consumed was passed to it. */
  lemma {:induction false} EveryMessageIsHandled(run: seq<State>, n: nat)
    requires IsRun(run) && n < |run|
    requires forall i | 0 <= i <= n :: run[i].js.handler
    requires forall i | 0 <= i <= n :: NoneRemovesHandler(run[i].sent)
    ensures forall k | 0 <= k < |run[n].js.consumed| :: run[n].js.consumed[k].handled
  {
    if n > 0 {
      EveryMessageIsHandled(run, n - 1);
      RunInv(run, n - 1);
      assert StepAt(run, n - 1);
      NextHandles(run[n - 1], run[n]);
    }
  }

  lemma NextStaysClosed(s: State, s': State)
    requires Next(s, s') && PageInv(s.sent, s.js, s.arrived) && !s.js.alive
    ensures !s'.js.alive && s'.js.consumed == s.js.consumed
  {
  }

  /** Once the page's `close()` has returned nothing is consumed any more. */
  lemma {:induction false} ClosedMeansSilent(run: seq<State>, m: nat, n: nat)
    requires IsRun(run) && m <= n < |run| && !run[m].js.alive
    ensures !run[n].js.alive && run[n].js.consumed == run[m].js.consumed
  {
    if m < n {
      ClosedMeansSilent(run, m, n - 1);
      RunInv(run, n - 1);
      assert StepAt(run, n - 1);
      NextStaysClosed(run[n - 1], run[n]);
    }
  }

  /** One step and the page: what handlers do takes effect, and only page code does more. */
  lemma StepObeys(run: seq<State>, n: nat, step: Step)
    requires IsRun(run) && n < |run| && Enabled(run[n], step)
    ensures var js := run[n].js; var js' := Do(run[n], step).js;
      match step
      case PageCloses => !js'.alive && !js'.registered && js'.consumed == js.consumed && js'.handler == js.handler
      case PageSetsHandler(on) => js' == js.(handler := on)
      case _ => Obeyed(js, js')
  {
    RunInv(run, n);
    match step
    case RunData(i) => ReceiveObeys(run[n].js, Data(run[n].transit[i].message, i));
    case RunEnd(index) => ReceiveObeys(run[n].js, End(index));
    case _ =>
  }

  /** Between `run[k]` and `run[k + 1]` page code closes the open channel. */
  ghost predicate PageClosesAt(run: seq<State>, k: nat) {
    k + 1 < |run| && run[k].js.alive && Enabled(run[k], PageCloses) && run[k + 1] == Do(run[k], PageCloses)
  }

  ghost predicate PageClosed(run: seq<State>, n: nat) {
    exists k: nat :: k < n && PageClosesAt(run, k)
  }

  lemma NextCloses(run: seq<State>, n: nat)
    requires IsRun(run) && n + 1 < |run|
    ensures var js := run[n].js; var js' := run[n + 1].js;
      && js.consumed <= js'.consumed
      && (js'.alive <==> js.alive && NoClose(js'.consumed, |js.consumed|, |js'.consumed|) && !PageClosesAt(run, n))
  {
    RunInv(run, n);
    RunInv(run, n + 1);
    assert StepAt(run, n);
    var step :| Enabled(run[n], step) && run[n + 1] == Do(run[n], step) && (PageClosesAt(run, n) ==> step == PageCloses);
    StepObeys(run, n, step);
    NextConsumes(run[n], step);
  }

  lemma NextConsumes(s: State, step: Step)
    requires Inv(s) && Enabled(s, step)
    ensures s.js.consumed <= Do(s, step).js.consumed
  {
    match step
    case RunData(i) =>
      if s.js.registered {
        ReceiveIsBufferAndDrain(s.js, s.transit[i].message, i);
        DrainTakesTheBufferedRun(s.js.(pending := s.js.pending[i := s.transit[i].message]));
      }
    case RunEnd(index) => EndIsOnlyRecorded(s.js, index);
    case _ =>
  }

  /**
   Exactly when a channel is closed, over every run: it is neither alive nor registered
   once a handler that was called has closed it, or page code has; and only then.
   */
  lemma {:induction false} WhenChannelIsClosed(run: seq<State>, n: nat)
    requires IsRun(run) && n < |run|
    ensures run[n].js.alive <==> NoClose(run[n].js.consumed, 0, |run[n].js.consumed|) && !PageClosed(run, n)
    ensures run[n].js.alive <==> run[n].js.registered
  {
    RunInv(run, n);
    if n > 0 {
      var c, c' := run[n - 1].js.consumed, run[n].js.consumed;
      WhenChannelIsClosed(run, n - 1);
      NextCloses(run, n - 1);
      assert PageClosed(run, n) <==> PageClosed(run, n - 1) || PageClosesAt(run, n - 1);
      assert forall k | 0 <= k < |c| :: c'[k] == c[k];
      assert NoClose(c', 0, |c'|) <==> NoClose(c, 0, |c|) && NoClose(c', |c|, |c'|);
    }
  }

  /**
   What a handler that calls `close()` can still be given: exactly if it closes on a
   message whose successor the page has buffered, and stays installed, an arrival leads to
   calls of the handler after the close.
   */
  lemma WhenArrivalRespectsClose(run: seq<State>, n: nat, i: Index)
    requires IsRun(run) && n < |run| && Enabled(run[n], RunData(i)) && run[n].js.alive
    ensures var js := run[n].js;
      NothingAfterClose(js, Do(run[n], RunData(i)).js)
      <==> !ClosesBeforeBuffered(js.(pending := js.pending[i := run[n].transit[i].message]))
  {
    RunInv(run, n);
    WhenReceiveRespectsClose(run[n].js, run[n].transit[i].message, i);
  }

  /**
   End notifications, one for every clone that is dropped and in any order among the
   messages, are inert: they deliver nothing, and the callback leaves the registry only
   through the page's own `close()`.
   */
  lemma EndsAreInert(run: seq<State>, n: nat, index: nat)
    requires IsRun(run) && n < |run| && Enabled(run[n], RunEnd(index))
    ensures var js := run[n].js; var js' := Do(run[n], RunEnd(index)).js;
      js' == js.(endIndex := js'.endIndex) && js'.endIndex == (if js.alive then Some(index) else js.endIndex)
    ensures run[n].js.registered <==> run[n].js.alive
  {
    RunInv(run, n);
    EndIsOnlyRecorded(run[n].js, index);
  }

  /** The index was given out, but its message is lost: nothing carries it, or only an id whose payload is gone. */
  ghost predicate Lost(s: State, f: Index) {
    && f < |s.sent| && f !in s.arrived
    && (f in s.transit ==> HasId(s.transit[f]) && s.transit[f].id !in s.store.data)
  }

  lemma StepStaysLost(s: State, step: Step, f: Index)
    requires Inv(s) && Enabled(s, step) && Lost(s, f)
    ensures Lost(Do(s, step), f)
  {
    if f in s.transit {
      assert DataInv(s, s.transit[f].id);
      assert DataInv(s, s.store.next);
    }
  }

  lemma NextStaysLost(s: State, s': State, f: Index)
    requires Inv(s) && Next(s, s') && Lost(s, f)
    ensures Lost(s', f)
  {
    var step :| Enabled(s, step) && s' == Do(s, step);
    StepStaysLost(s, step, f);
  }

  /** A lost message stalls the channel for good: nothing from its index on is ever consumed. */
  lemma {:induction false} LostMessageStalls(run: seq<State>, m: nat, n: nat, f: Index)
    requires IsRun(run) && m <= n < |run| && Lost(run[m], f)
    ensures Lost(run[n], f) && run[n].js.next <= f
  {
    if m < n {
      LostMessageStalls(run, m, n - 1, f);
      assert StepAt(run, n - 1);
      RunInv(run, n - 1);
      NextStaysLost(run[n - 1], run[n], f);
    }
    RunInv(run, n);
  }

  /** A message that failed to serialise has consumed its index all the same, so it stalls the channel. */
  lemma FailedSerialisationStalls(run: seq<State>, n: nat, f: Index)
    requires IsRun(run) && n < |run| && f < |run[n].sent| && run[n].sent[f] == None
    ensures run[n].js.next <= f
  {
    ChannelIsFifo(run, n);
  }

  /**
   Payload conservation, with any number of other channels on the same store: a stored
   payload leaves at most once, is gone exactly if it left, and while it is there it is what
   was put in; an own one is what its send was given. Its cleanup runs at most once.
   */
  lemma PayloadIsConserved(run: seq<State>, n: nat, id: DataId)
    requires IsRun(run) && n < |run| && id < run[n].store.next
    ensures var s := run[n]; var st := s.store;
      && id in st.stored && Count(st.departures, id) <= 1
      && (id in st.data <==> Count(st.departures, id) == 0)
      && (id in st.data ==> st.data[id] == st.stored[id])
      && (id in st.origin ==> SentAs(s.sent, st.origin[id], st.stored[id]))
      && Count(st.cleanups, id) <= 1
  {
    RunInv(run, n);
    assert DataInv(run[n], id);
  }

  /** What the page's callback is given is what that very send was given, by either route. */
  lemma PageGetsWhatWasSent(run: seq<State>, n: nat, i: Index)
    requires IsRun(run) && n < |run| && i in run[n].transit && run[n].transit[i].InPage?
    ensures i < |run[n].sent| && run[n].sent[i] == Some(run[n].transit[i].message)
  {
    RunInv(run, n);
  }

  /** Posting or running a fetch after the owner is gone cleans up: once, and the payload is out of the store. */
  lemma AbandonedPostCleansUp(run: seq<State>, n: nat, i: Index, move: Move)
    requires IsRun(run) && n < |run| && !run[n].owner
    requires i in run[n].transit && CanMove(run[n].transit[i], move)
    requires (run[n].transit[i].Stored? && move == PostFetch) || (run[n].transit[i].QueuedFetch? && move.RunScript?)
    ensures var id := run[n].transit[i].id; var s' := Do(run[n], Advance(i, move));
      Count(run[n].store.cleanups, id) == 0 && Count(s'.store.cleanups, id) == 1
      && id !in s'.store.data && i !in s'.transit
  {
    RunInv(run, n);
    assert DataInv(run[n], run[n].transit[i].id);
  }

  ghost predicate Departed(s: State, id: DataId) {
    id < s.store.next && id !in s.store.data
  }

  lemma StepKeepsGone(s: State, step: Step, id: DataId)
    requires Enabled(s, step) && Departed(s, id)
    ensures Departed(Do(s, step), id)
  {
  }

  lemma NextKeepsGone(s: State, s': State, id: DataId)
    requires Next(s, s') && Departed(s, id)
    ensures Departed(s', id)
  {
    var step :| Enabled(s, step) && s' == Do(s, step);
    StepKeepsGone(s, step, id);
  }

  /** A payload that left the store never reappears: ids are not reused. */
  lemma {:induction false} PayloadNeverReturns(run: seq<State>, m: nat, n: nat, id: DataId)
    requires IsRun(run) && m <= n < |run| && Departed(run[m], id)
    ensures Departed(run[n], id)
  {
    if m < n {
      PayloadNeverReturns(run, m, n - 1, id);
      assert StepAt(run, n - 1);
      NextKeepsGone(run[n - 1], run[n], id);
    }
  }

  // Payloads that nobody asks for any more.

  /** Some closure or script of this channel still knows the payload. */
  ghost predicate Known(s: State, id: DataId) {
    exists i: nat :: Referenced(s.transit, id, i)
  }

  /**
   The step takes the last that knows the payload and does not clean up: its post is refused
   before it is queued, its closure is discarded, its script fails to evaluate, or the page goes down while fetching.
   */
  ghost predicate Forgets(s: State, step: Step, id: DataId) {
    match step
    case Advance(i, PostRefused) => i in s.transit && s.transit[i] == Stored(id)
    case Advance(i, Discarded) => i in s.transit && s.transit[i] == QueuedFetch(id)
    case Advance(i, RunScript(evalOk)) => i in s.transit && s.transit[i] == QueuedFetch(id) && s.owner && !evalOk
    case OwnerDropped => exists i: nat :: i in s.transit && s.transit[i] == Fetching(id)
    case _ => false
  }

  ghost predicate ForgottenAt(run: seq<State>, k: nat, id: DataId)
    requires k + 1 < |run|
  {
    exists step :: Enabled(run[k], step) && run[k + 1] == Do(run[k], step) && Forgets(run[k], step, id)
  }

  ghost predicate Forgotten(run: seq<State>, n: nat, id: DataId)
    requires n < |run|
  {
    exists k: nat :: k < n && ForgottenAt(run, k, id)
  }

  lemma ForgottenWasKnown(s: State, step: Step, id: DataId)
    requires Forgets(s, step, id)
    ensures Known(s, id)
  {
    if step.OwnerDropped? {
      var i: nat :| i in s.transit && s.transit[i] == Fetching(id);
      assert Referenced(s.transit, id, i);
    } else {
      assert Referenced(s.transit, id, step.i);
    }
  }

  lemma ForgettingForgets(s: State, step: Step, id: DataId)
    requires Inv(s) && Enabled(s, step) && Forgets(s, step, id)
    ensures id < s.store.next && !Known(Do(s, step), id)
  {
    ForgottenWasKnown(s, step, id);
    var i: nat :| Referenced(s.transit, id, i);
    assert Carries(s.sent, s.store.origin, i, s.transit[i]);
    assert DataInv(s, id);
    forall j: nat ensures !Referenced(Do(s, step).transit, id, j) {
      if Referenced(s.transit, id, j) {
        assert Carries(s.sent, s.store.origin, j, s.transit[j]);
      }
    }
  }

  lemma UnknownStaysUnknown(s: State, step: Step, id: DataId)
    requires Enabled(s, step) && id < s.store.next && !Known(s, id)
    ensures !Known(Do(s, step), id)
  {
    forall j: nat ensures !Referenced(Do(s, step).transit, id, j) {
      assert !Referenced(s.transit, id, j);
    }
  }

  lemma KnownUntilForgotten(s: State, step: Step, id: DataId, i: Index)
    requires TransitInv(s) && Enabled(s, step) && Referenced(s.transit, id, i)
    requires id in Do(s, step).store.data && !Forgets(s, step, id)
    ensures Known(Do(s, step), id)
  {
    assert Referenced(Do(s, step).transit, id, i);
  }

  lemma StoredIsKnown(s: State, step: Step, id: DataId)
    requires Inv(s) && Enabled(s, step) && id in Do(s, step).store.origin && id !in s.store.origin
    ensures Known(Do(s, step), id)
  {
    assert Referenced(Do(s, step).transit, id, step.i);
  }

  /** One step of the history of an own payload that is still stored. */
  lemma StepKnows(s: State, step: Step, id: DataId, forgotten: bool)
    requires Inv(s) && Enabled(s, step)
    requires id in Do(s, step).store.data && id in Do(s, step).store.origin
    requires id in s.store.data && id in s.store.origin ==> (Known(s, id) <==> !forgotten)
    requires forgotten ==> id < s.store.next
    ensures Known(Do(s, step), id) <==> !(forgotten || Forgets(s, step, id))
  {
    assert DataInv(s, id);
    if id !in s.store.origin {
      StoredIsKnown(s, step, id);
    } else if Forgets(s, step, id) {
      ForgettingForgets(s, step, id);
    } else if forgotten {
      UnknownStaysUnknown(s, step, id);
    } else {
      var i: nat :| Referenced(s.transit, id, i);
      KnownUntilForgotten(s, step, id, i);
    }
  }

  lemma StepCountsUp(s: State, step: Step)
    requires Enabled(s, step)
    ensures s.store.next <= Do(s, step).store.next
  {
  }

  /** The step taken at `k`; where two steps lead to the same state, one that forgets the payload if there is one. */
  lemma StepTaken(run: seq<State>, k: nat, id: DataId) returns (step: Step)
    requires IsRun(run) && k + 1 < |run|
    ensures Enabled(run[k], step) && run[k + 1] == Do(run[k], step)
    ensures Forgotten(run, k + 1, id) <==> Forgotten(run, k, id) || Forgets(run[k], step, id)
  {
    if ForgottenAt(run, k, id) {
      step :| Enabled(run[k], step) && run[k + 1] == Do(run[k], step) && Forgets(run[k], step, id);
    } else {
      assert StepAt(run, k);
      step :| Enabled(run[k], step) && run[k + 1] == Do(run[k], step);
    }
    assert ForgottenAt(run, k, id) <==> Forgets(run[k], step, id);
  }

  lemma {:induction false} ForgottenIsOld(run: seq<State>, n: nat, id: DataId)
    requires IsRun(run) && n < |run| && Forgotten(run, n, id)
    ensures id < run[n].store.next
  {
    RunInv(run, n - 1);
    var step := StepTaken(run, n - 1, id);
    StepCountsUp(run[n - 1], step);
    if Forgets(run[n - 1], step, id) {
      ForgettingForgets(run[n - 1], step, id);
    } else {
      ForgottenIsOld(run, n - 1, id);
    }
  }

  /**
   Exactly which payloads leak. A payload of this channel that is still stored is known to
   some closure or script that can ask for it, if and only if no step so far was one that
   forgets it: a post refused before it is queued, a discarded closure, a script that failed, or the owner's
   drop while the page was fetching it.
   */
  lemma {:induction false} WhenAPayloadIsForgotten(run: seq<State>, n: nat, id: DataId)
    requires IsRun(run) && n < |run| && id in run[n].store.data && id in run[n].store.origin
    ensures Known(run[n], id) <==> !Forgotten(run, n, id)
  {
    if n > 0 {
      var s := run[n - 1];
      RunInv(run, n - 1);
      if id in s.store.data && id in s.store.origin {
        WhenAPayloadIsForgotten(run, n - 1, id);
      }
      if Forgotten(run, n - 1, id) {
        ForgottenIsOld(run, n - 1, id);
      }
      var step := StepTaken(run, n - 1, id);
      StepKnows(s, step, id, Forgotten(run, n - 1, id));
    }
  }

  // When the next message can still arrive.

  lemma Extend(run: seq<State>, step: Step) returns (longer: seq<State>)
    requires IsRun(run) && Enabled(run[|run| - 1], step)
    ensures IsRun(longer) && run <= longer && longer[|longer| - 1] == Do(run[|run| - 1], step)
  {
    var s' := Do(run[|run| - 1], step);
    longer := run + [s'];
    assert Next(run[|run| - 1], s');
    forall i: nat ensures StepAt(longer, i) {
      assert StepAt(run, i);
    }
  }

  /** Some way to go on from `run` gets message `f` consumed. */
  ghost predicate MayBeConsumed(run: seq<State>, f: Index)
    requires run != []
  {
    exists longer: seq<State> :: IsRun(longer) && run <= longer && longer[|longer| - 1].js.next > f
  }

  lemma ArrivesFromPage(run: seq<State>, f: Index)
    requires IsRun(run) && var s := run[|run| - 1];
      s.owner && s.js.alive && s.js.next == f && f in s.transit && s.transit[f].InPage?
    ensures MayBeConsumed(run, f)
  {
    var s := run[|run| - 1];
    RunInv(run, |run| - 1);
    var longer := Extend(run, RunData(f));
    var js1 := s.js.(pending := s.js.pending[f := s.transit[f].message]);
    ReceiveIsBufferAndDrain(s.js, s.transit[f].message, f);
    DrainTakesTheBufferedRun(js1);
    assert longer[|longer| - 1].js.next > f;
  }

  /** One move brings the message closer to the page. */
  lemma ArrivesAfter(run: seq<State>, move: Move, f: Index) returns (longer: seq<State>)
    requires IsRun(run) && var s := run[|run| - 1];
      s.owner && s.js.alive && s.js.next == f && f in s.transit && CanMove(s.transit[f], move)
    ensures IsRun(longer) && run <= longer
    ensures longer[|longer| - 1] == Do(run[|run| - 1], Advance(f, move))
    ensures MayBeConsumed(longer, f) ==> MayBeConsumed(run, f)
  {
    longer := Extend(run, Advance(f, move));
    if MayBeConsumed(longer, f) {
      var l: seq<State> :| IsRun(l) && longer <= l && l[|l| - 1].js.next > f;
      assert run <= l;
    }
  }

  lemma MessageArrives(run: seq<State>, f: Index)
    requires IsRun(run) && var s := run[|run| - 1];
      s.owner && s.js.alive && s.js.next == f && f in s.transit && !Lost(s, f)
    requires f < |run[|run| - 1].sent| && f !in run[|run| - 1].arrived
    ensures MayBeConsumed(run, f)
    decreases match run[|run| - 1].transit[f]
      case Reserved(_) => 4
      case Stored(_) => 3
      case Queued(_) => 2
      case QueuedFetch(_) => 2
      case Fetching(_) => 1
      case InPage(_) => 0
  {
    match run[|run| - 1].transit[f]
    case Reserved(_) =>
      var longer := ArrivesAfter(run, PostInline, f);
      MessageArrives(longer, f);
    case Stored(_) =>
      var longer := ArrivesAfter(run, PostFetch, f);
      MessageArrives(longer, f);
    case Queued(_) =>
      var longer := ArrivesAfter(run, RunScript(true), f);
      MessageArrives(longer, f);
    case QueuedFetch(_) =>
      var longer := ArrivesAfter(run, RunScript(true), f);
      MessageArrives(longer, f);
    case Fetching(_) =>
      var longer := ArrivesAfter(run, Serve, f);
      MessageArrives(longer, f);
    case InPage(_) =>
      ArrivesFromPage(run, f);
  }

  lemma NextStaysDown(s: State, s': State)
    requires Inv(s) && Next(s, s') && (!s.owner || !s.js.alive)
    ensures (!s'.owner || !s'.js.alive) && s'.js.next == s.js.next
  {
  }

  lemma {:induction false} DownStaysDown(run: seq<State>, m: nat, n: nat)
    requires IsRun(run) && m <= n < |run| && (!run[m].owner || !run[m].js.alive)
    ensures (!run[n].owner || !run[n].js.alive) && run[n].js.next == run[m].js.next
  {
    if m < n {
      DownStaysDown(run, m, n - 1);
      RunInv(run, n - 1);
      assert StepAt(run, n - 1);
      NextStaysDown(run[n - 1], run[n]);
    }
  }

  /**
   Exactly when the message the page is waiting for can still be consumed: the owner lives,
   the page has not closed the channel, and the message is not lost.
   */
  lemma WhenNextMayBeConsumed(run: seq<State>)
    requires IsRun(run) && run[|run| - 1].js.next < |run[|run| - 1].sent|
    ensures var s := run[|run| - 1];
      MayBeConsumed(run, s.js.next) <==> s.owner && s.js.alive && !Lost(s, s.js.next)
  {
    var m := |run| - 1;
    var s, f := run[m], run[m].js.next;
    ChannelIsFifo(run, m);
    if s.owner && s.js.alive && !Lost(s, f) {
      MessageArrives(run, f);
    }
    if longer: seq<State> :| IsRun(longer) && run <= longer && longer[|longer| - 1].js.next > f {
      assert longer[m] == s;
      if Lost(s, f) {
        LostMessageStalls(longer, m, |longer| - 1, f);
      } else if !s.owner || !s.js.alive {
        DownStaysDown(longer, m, |longer| - 1);
      }
    }
  }

  /** What a move does to its message, from the outcome of the operation: the owner gone, the post refused, the closure discarded, the script failed. */
  predicate Loses(s: State, move: Move) {
    match move
    case PostInline => !s.owner
    case PostFetch => !s.owner
    case PostRefused => true
    case Discarded => true
    case RunScript(evalOk) => !s.owner || !evalOk
    case _ => false
  }

  /** Exactly which moves lose a message. */
  lemma WhenAMoveLoses(run: seq<State>, n: nat, i: Index, move: Move)
    requires IsRun(run) && n < |run| && i in run[n].transit && CanMove(run[n].transit[i], move) && !Lost(run[n], i)
    ensures Lost(Do(run[n], Advance(i, move)), i) <==> Loses(run[n], move)
  {
    RunInv(run, n);
  }

  // End notifications, counted along the steps of a run.

  /** `steps` are the steps that `run` takes. */
  ghost predicate Traced(run: seq<State>, steps: seq<Step>) {
    && |run| == |steps| + 1 && run[0] == INITIAL
    && forall k: nat :: TracedAt(run, steps, k)
  }

  ghost predicate TracedAt(run: seq<State>, steps: seq<Step>, k: nat)
    requires |run| == |steps| + 1
  {
    k < |steps| ==> Enabled(run[k], steps[k]) && run[k + 1] == Do(run[k], steps[k])
  }

  lemma TracedFront(run: seq<State>, steps: seq<Step>)
    requires Traced(run, steps) && steps != []
    ensures var m := |steps| - 1;
      && Traced(run[..m + 1], steps[..m])
      && Enabled(run[m], steps[m]) && run[m + 1] == Do(run[m], steps[m])
  {
    var m := |steps| - 1;
    var front, init := run[..m + 1], steps[..m];
    forall k: nat ensures TracedAt(front, init, k) {
      assert TracedAt(run, steps, k);
    }
    assert TracedAt(run, steps, m);
  }

  lemma TracedOn(run: seq<State>, steps: seq<Step>, s: State, step: Step, s': State)
    requires Traced(run, steps) && s == run[|steps|] && Enabled(s, step) && s' == Do(s, step)
    ensures Traced(run + [s'], steps + [step])
  {
    var longer, more := run + [s'], steps + [step];
    forall k: nat ensures TracedAt(longer, more, k) {
      assert TracedAt(run, steps, k);
    }
  }

  lemma FrontIsRun(run: seq<State>)
    requires IsRun(run) && |run| > 1
    ensures IsRun(run[..|run| - 1])
  {
    var front := run[..|run| - 1];
    forall k: nat ensures StepAt(front, k) {
      assert StepAt(run, k);
    }
  }

  /** Every run has its steps. */
  lemma {:induction false} RunIsTraced(run: seq<State>) returns (steps: seq<Step>)
    requires IsRun(run)
    ensures Traced(run, steps)
    decreases |run|
  {
    var m := |run| - 1;
    if m == 0 {
      steps := [];
    } else {
      FrontIsRun(run);
      var front := RunIsTraced(run[..m]);
      assert StepAt(run, m - 1);
      var step :| Enabled(run[m - 1], step) && run[m] == Do(run[m - 1], step);
      TracedOn(run[..m], front, run[m - 1], step, run[m]);
      assert run[..m] + [run[m]] == run;
      steps := front + [step];
    }
  }

  /** The step loses message `f`. */
  predicate LosesAt(s: State, step: Step, f: Index) {
    match step
    case Reserve(message) => message == None && f == |s.sent|     // it does not serialise
    case Advance(i, move) => i == f && Loses(s, move)
    case OtherTakes(id) => f in s.transit && HasId(s.transit[f]) && s.transit[f].id == id
    case RunData(i) => i == f && !s.js.registered                 // the page has closed the channel
    case OwnerDropped => f in s.transit && OnPage(s.transit[f])
    case _ => false
  }

  lemma StepLoses(s: State, step: Step, f: Index)
    requires Inv(s) && Enabled(s, step)
    ensures Lost(Do(s, step), f) <==> Lost(s, f) || LosesAt(s, step, f)
  {
    if Lost(s, f) {
      StepStaysLost(s, step, f);
    } else if step.Advance? && step.i in s.transit && f in s.transit && step.i != f {
      OthersAreNotLost(s, step.i, step.move, f);
    } else if f in s.transit {
      StillCarried(s, step, f);
    } else if step.Reserve? {
      ReserveKeepsPage(s.sent, s.js, s.arrived, step.message);
    }
  }

  lemma StillCarried(s: State, step: Step, f: Index)
    requires Inv(s) && Enabled(s, step) && f in s.transit && !Lost(s, f) && (step.Advance? ==> step.i == f)
    ensures Lost(Do(s, step), f) <==> LosesAt(s, step, f)
  {
    assert Carries(s.sent, s.store.origin, f, s.transit[f]);
    match step
    case Advance(_, _) =>
    case OtherStores(_) =>
      assert DataInv(s, s.store.next);
    case OtherTakes(_) =>
    case RunData(i) =>
    case _ =>
  }

  lemma OthersAreNotLost(s: State, i: Index, move: Move, f: Index)
    requires Inv(s) && i in s.transit && CanMove(s.transit[i], move) && f in s.transit && i != f && !Lost(s, f)
    ensures !Lost(Do(s, Advance(i, move)), f)
  {
    assert Carries(s.sent, s.store.origin, f, s.transit[f]);
    assert Carries(s.sent, s.store.origin, i, s.transit[i]);
    if HasId(s.transit[f]) {
      assert DataInv(s, s.transit[f].id);
    }
  }

  ghost predicate LostBy(run: seq<State>, steps: seq<Step>, k: nat, f: Index)
    requires |run| == |steps| + 1
  {
    k < |steps| && LosesAt(run[k], steps[k], f)
  }

  /**
   Exactly which messages are lost: in every run, those for which one of the steps names a
   reason. Every other message given an index is under way with its payload, or has arrived.
   */
  lemma {:induction false} WhenAMessageIsLost(run: seq<State>, steps: seq<Step>, f: Index)
    requires Traced(run, steps)
    ensures Lost(run[|steps|], f) <==> exists k: nat :: LostBy(run, steps, k, f)
    decreases |steps|
  {
    if steps != [] {
      var m := |steps| - 1;
      var front, init := run[..m + 1], steps[..m];
      TracedFront(run, steps);
      WhenAMessageIsLost(front, init, f);
      TracedIsRun(front, init);
      RunInv(front, m);
      StepLoses(run[m], steps[m], f);
      assert LosesAt(run[m], steps[m], f) <==> LostBy(run, steps, m, f);
      forall k: nat ensures k != m ==> (LostBy(run, steps, k, f) <==> LostBy(front, init, k, f)) {
      }
    }
  }

  lemma TracedIsRun(run: seq<State>, steps: seq<Step>)
    requires Traced(run, steps)
    ensures IsRun(run)
  {
    forall i: nat ensures StepAt(run, i) {
      assert TracedAt(run, steps, i);
    }
  }

  function Reserves(steps: seq<Step>): nat {
    if steps == [] then 0
    else Reserves(steps[..|steps| - 1]) + if steps[|steps| - 1].Reserve? then 1 else 0
  }

  /** How many end notifications were sent when exactly `x` messages had been. */
  function EndsSent(steps: seq<Step>, x: nat): nat {
    if steps == [] then 0
    else
      var front := steps[..|steps| - 1];
      EndsSent(front, x) + if steps[|steps| - 1].SendEnd? && OwnerDropped !in front && Reserves(front) == x then 1 else 0
  }

  function EndsRun(steps: seq<Step>, x: nat): nat {
    if steps == [] then 0
    else EndsRun(steps[..|steps| - 1], x) + if steps[|steps| - 1] == RunEnd(x) then 1 else 0
  }

  lemma StepCounts(s: State, step: Step, x: nat)
    requires Enabled(s, step)
    ensures var s' := Do(s, step);
      && |s'.sent| == |s.sent| + (if step.Reserve? then 1 else 0)
      && (s'.owner <==> s.owner && step != OwnerDropped)
      && s'.ends[x] + (if step == RunEnd(x) then 1 else 0)
         == s.ends[x] + (if step.SendEnd? && s.owner && |s.sent| == x then 1 else 0)
  {
  }

  /**
   Every end notification carries the number of messages sent before it, and reaches the
   page once: of those with index `x`, under way are exactly those sent and not yet run.
   */
  lemma {:induction false} EndsCarryTheCount(run: seq<State>, steps: seq<Step>, x: nat)
    requires Traced(run, steps)
    ensures var s := run[|steps|];
      && |s.sent| == Reserves(steps) && (s.owner <==> OwnerDropped !in steps)
      && s.ends[x] + EndsRun(steps, x) == EndsSent(steps, x)
    decreases |steps|
  {
    if steps != [] {
      var m := |steps| - 1;
      TracedFront(run, steps);
      EndsCarryTheCount(run[..m + 1], steps[..m], x);
      StepCounts(run[m], steps[m], x);
      assert steps == steps[..m] + [steps[m]];
    }
  }

  // Runs in which something goes wrong.

  /** A large message has been posted and the page is fetching it. */
  lemma FetchingRun(m: Message) returns (run: seq<State>)
    ensures IsRun(run)
    ensures run[|run| - 1] == State([Some(m)], map[0 := Fetching(0)], multiset{},
                                    Store(map[0 := m], 1, map[0 := m], map[0 := 0], map[], map[]), true, NEW, {})
  {
    run := [INITIAL];
    run := Extend(run, Reserve(Some(m)));
    run := Extend(run, Advance(0, StoreData));
    run := Extend(run, Advance(0, PostFetch));
    run := Extend(run, Advance(0, RunScript(true)));
  }

  /** The owner is dropped while the page fetches: the payload stays, and nobody is left to ask for it. */
  lemma DropWhileFetchingLeaks(m: Message) returns (run: seq<State>)
    ensures IsRun(run)
    ensures var s := run[|run| - 1];
      !s.owner && s.store.data == map[0 := m] && !Known(s, 0) && Forgotten(run, |run| - 1, 0)
  {
    run := FetchingRun(m);
    var s := run[|run| - 1];
    assert s.transit[0] == Fetching(0);
    run := Extend(run, OwnerDropped);
    assert run[|run| - 1].transit == map[];
    WhenAPayloadIsForgotten(run, |run| - 1, 0);
  }

  /** Two small messages are in the page, and neither callback has run yet. */
  lemma BothInPageRun(first: Message, second: Message) returns (run: seq<State>)
    ensures IsRun(run)
    ensures run[|run| - 1] == State([Some(first), Some(second)], map[0 := InPage(first), 1 := InPage(second)],
                                    multiset{}, INITIAL.store, true, NEW, {})
  {
    run := [INITIAL];
    run := Extend(run, Reserve(Some(first)));
    run := Extend(run, Reserve(Some(second)));
    run := Extend(run, Advance(0, PostInline));
    run := Extend(run, Advance(1, PostInline));
    run := Extend(run, Advance(0, RunScript(true)));
    run := Extend(run, Advance(1, RunScript(true)));
  }

  /** The second message overtakes the first, whose handler closes the channel: the handler is called once more. */
  lemma HandlerIsCalledAfterClose(v: Value, second: Message) returns (run: seq<State>)
    ensures IsRun(run)
    ensures var consumed := run[|run| - 1].js.consumed;
      |consumed| == 2 && consumed[1].message == second && consumed[1].handled && !consumed[1].open
  {
    var first := Message(v, Reaction(true, false));
    run := BothInPageRun(first, second);
    run := Extend(run, RunData(1));
    var js := run[|run| - 1].js;
    assert js == NEW.(pending := map[1 := second]);
    run := Extend(run, RunData(0));
    var js1 := Hand(js, first);
    assert run[|run| - 1].js == Drain(js1);
    HandNextFacts(js1);
    assert HandNext(js1).next !in HandNext(js1).pending;
  }
}
