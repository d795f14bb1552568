/**
 The receiving end of a channel: the JavaScript `Channel` class that the page
 gets injected, its reorder buffer, and the callback registry it lives in.
 */
module JsChannel {
  import opened Wrappers

  type Value = int

  /** What the installed `onmessage` handler does synchronously when it is given a message: `close()`, `onmessage = null`, both or neither. */
  datatype Reaction = Reaction(closes: bool, removes: bool)

  datatype Message = Message(value: Value, reaction: Reaction)

  /** The object passed to `runCallback`. */
  datatype Raw = Data(message: Message, index: nat) | End(index: nat)

  /** A message taken off the channel: whether a handler saw it, and whether the channel was still open. */
  datatype Consumed = Consumed(message: Message, handled: bool, open: bool)

  datatype Js = Js(
    next: nat,                     // _nextMessageIndex
    pending: map<nat, Message>,    // _pendingMessages
    endIndex: Option<nat>,         // _messageEndIndex
    alive: bool,                   // _alive
    registered: bool,              // its id is in the registry
    handler: bool,                 // _onmessage is set
    consumed: seq<Consumed>)       // everything taken so far, in order

  const NEW := Js(0, map[], None, true, true, true, [])

  /** `close()` */
  function Close(js: Js): Js {
    if js.alive then js.(alive := false, registered := false) else js
  }

  /** Hand one message over and step to the next index. */
  function Hand(js: Js, m: Message): Js {
    var js1 := js.(consumed := js.consumed + [Consumed(m, js.handler, js.alive)], next := js.next + 1);
    if !js.handler then js1
    else (if m.reaction.closes then Close(js1) else js1).(handler := !m.reaction.removes)
  }

  /** `_drainPendingMessages` */
  function Drain(js: Js): Js
    decreases |js.pending|
  {
    if js.next in js.pending then
      Drain(Hand(js.(pending := js.pending - {js.next}), js.pending[js.next]))
    else if js.endIndex.Some? && js.next >= js.endIndex.value && !js.alive then js.(registered := false)
    else js
  }

  /** `runCallback(id, raw)` */
  function Receive(js: Js, raw: Raw): Js {
    if !js.registered then js
    else match raw
      case End(index) =>
        var js1 := Drain(js.(endIndex := Some(index)));
        if !js1.alive then js1.(registered := false) else js1
      case Data(message, index) =>
        if index == js.next then Drain(Hand(js, message))
        else js.(pending := js.pending[index := message])
  }

  // What a drain does.

  /** Index `i` belongs to the gapless run of buffered messages that starts at `n`. */
  predicate InRun(pending: map<nat, Message>, n: nat, i: nat) {
    n <= i && forall k: nat | n <= k <= i :: k in pending
  }

  /** A drain takes exactly the run of buffered messages that starts at the next index, in index order. */
  ghost predicate DrainedTo(js: Js, r: Js) {
    && js.next <= r.next && r.next !in js.pending
    && (forall i: nat | js.next <= i < r.next :: i in js.pending)
    && (forall i: nat :: i in r.pending <==> i in js.pending && !(js.next <= i < r.next))
    && (forall i | i in r.pending :: r.pending[i] == js.pending[i])
    && js.consumed <= r.consumed
    && |r.consumed| == |js.consumed| + (r.next - js.next)
    && (forall k | |js.consumed| <= k < |r.consumed| ::
          r.consumed[k].message == js.pending[js.next + (k - |js.consumed|)])
    && r.endIndex == js.endIndex
  }

  /** One iteration of the drain loop. */
  function HandNext(js: Js): Js
    requires js.next in js.pending
  {
    Hand(js.(pending := js.pending - {js.next}), js.pending[js.next])
  }

  lemma HandNextFacts(js: Js)
    requires js.next in js.pending
    ensures var js1 := HandNext(js);
      && js1.next == js.next + 1 && js1.pending == js.pending - {js.next} && js1.endIndex == js.endIndex
      && js1.consumed == js.consumed + [Consumed(js.pending[js.next], js.handler, js.alive)]
      && ((js.alive <==> js.registered) ==> (js1.alive <==> js1.registered))
      && Drain(js) == Drain(js1)
  {
  }

  lemma DrainedToStep(js: Js, js1: Js, r: Js, handled: bool, open: bool)
    requires js.next in js.pending
    requires js1.next == js.next + 1 && js1.pending == js.pending - {js.next} && js1.endIndex == js.endIndex
    requires js1.consumed == js.consumed + [Consumed(js.pending[js.next], handled, open)]
    requires DrainedTo(js1, r)
    ensures DrainedTo(js, r)
  {
    assert r.consumed[|js.consumed|] == js1.consumed[|js.consumed|];
    forall i: nat | js.next <= i < r.next ensures i in js.pending {
      assert i > js.next ==> i in js1.pending;
    }
  }

  lemma {:induction false} DrainTakesTheBufferedRun(js: Js)
    ensures DrainedTo(js, Drain(js))
    ensures (js.alive <==> js.registered) ==> (Drain(js).alive <==> Drain(js).registered)
    decreases |js.pending|
  {
    if js.next in js.pending {
      HandNextFacts(js);
      DrainTakesTheBufferedRun(HandNext(js));
      DrainedToStep(js, HandNext(js), Drain(js), js.handler, js.alive);
    }
  }

  /** Nothing the page buffered can remove the handler. */
  predicate NeverRemoved(pending: map<nat, Message>) {
    forall i | i in pending :: !pending[i].reaction.removes
  }

  /** With a handler that stays, every message taken is handled. */
  lemma {:induction false} DrainHandles(js: Js)
    requires js.handler && NeverRemoved(js.pending)
    ensures Drain(js).handler
    ensures forall k | |js.consumed| <= k < |Drain(js).consumed| :: Drain(js).consumed[k].handled
    decreases |js.pending|
  {
    if js.next in js.pending {
      HandNextFacts(js);
      DrainHandles(HandNext(js));
      DrainTakesTheBufferedRun(HandNext(js));
      assert Drain(js).consumed[|js.consumed|] == HandNext(js).consumed[|js.consumed|];
    }
  }

  /** A drain that begins on a closed channel hands everything over as closed. */
  lemma {:induction false} DrainClosed(js: Js)
    requires !js.alive
    ensures !Drain(js).alive
    ensures forall k | |js.consumed| <= k < |Drain(js).consumed| :: !Drain(js).consumed[k].open
    decreases |js.pending|
  {
    if js.next in js.pending {
      HandNextFacts(js);
      DrainClosed(HandNext(js));
      DrainTakesTheBufferedRun(HandNext(js));
      assert Drain(js).consumed[|js.consumed|] == HandNext(js).consumed[|js.consumed|];
    }
  }

  /** Without a handler nothing is handled. */
  lemma {:induction false} DrainUnhandled(js: Js)
    requires !js.handler
    ensures forall k | |js.consumed| <= k < |Drain(js).consumed| :: !Drain(js).consumed[k].handled
    decreases |js.pending|
  {
    if js.next in js.pending {
      HandNextFacts(js);
      DrainUnhandled(HandNext(js));
      DrainTakesTheBufferedRun(HandNext(js));
      assert Drain(js).consumed[|js.consumed|] == HandNext(js).consumed[|js.consumed|];
    }
  }

  /** No message taken from `a` to `b` was handled by a handler that removes itself. */
  predicate NoRemoval(consumed: seq<Consumed>, a: nat, b: nat)
    requires b <= |consumed|
  {
    forall k | a <= k < b :: consumed[k].handled ==> !consumed[k].message.reaction.removes
  }

  /** None was handled by a handler that closes the channel. */
  predicate NoClose(consumed: seq<Consumed>, a: nat, b: nat)
    requires b <= |consumed|
  {
    forall k | a <= k < b :: consumed[k].handled ==> !consumed[k].message.reaction.closes
  }

  /**
   Everything that handlers do, and when, read off what was taken: a message is handled
   as long as no handler has removed itself, and the channel is open as long as none has
   closed it.
   */
  ghost predicate Obeyed(js: Js, r: Js) {
    var n := |js.consumed|;
    && n <= |r.consumed|
    && (forall k | n <= k < |r.consumed| ::
          && (r.consumed[k].handled <==> js.handler && NoRemoval(r.consumed, n, k))
          && (r.consumed[k].open <==> js.alive && NoClose(r.consumed, n, k)))
    && (r.handler <==> js.handler && NoRemoval(r.consumed, n, |r.consumed|))
    && (r.alive <==> js.alive && NoClose(r.consumed, n, |r.consumed|))
  }

  lemma ObeyedAtOnce(js: Js, m: Message)
    ensures Obeyed(js, Hand(js, m))
  {
    var r, n := Hand(js, m), |js.consumed|;
    assert r.consumed[n] == Consumed(m, js.handler, js.alive);
  }

  lemma ObeyedInTurn(js: Js, js1: Js, r: Js)
    requires Obeyed(js, js1) && Obeyed(js1, r) && js1.consumed <= r.consumed
    ensures Obeyed(js, r)
  {
    var n, m := |js.consumed|, |js1.consumed|;
    assert forall k | n <= k < m :: r.consumed[k] == js1.consumed[k];
    forall k | n <= k < m
      ensures NoRemoval(r.consumed, n, k) <==> NoRemoval(js1.consumed, n, k)
      ensures NoClose(r.consumed, n, k) <==> NoClose(js1.consumed, n, k)
    {
    }
    forall k | m <= k <= |r.consumed|
      ensures NoRemoval(r.consumed, n, k) <==> NoRemoval(js1.consumed, n, m) && NoRemoval(r.consumed, m, k)
      ensures NoClose(r.consumed, n, k) <==> NoClose(js1.consumed, n, m) && NoClose(r.consumed, m, k)
    {
    }
  }

  lemma {:induction false} DrainObeys(js: Js)
    ensures Obeyed(js, Drain(js))
    decreases |js.pending|
  {
    if js.next in js.pending {
      var rest := js.(pending := js.pending - {js.next});
      HandNextFacts(js);
      DrainObeys(HandNext(js));
      DrainTakesTheBufferedRun(HandNext(js));
      ObeyedAtOnce(rest, js.pending[js.next]);
      ObeyedInTurn(rest, HandNext(js), Drain(js));
    }
  }

  /** No handler was called for anything that `r` consumed beyond `js` once the channel was closed. */
  predicate NothingAfterClose(js: Js, r: Js) {
    forall k | |js.consumed| <= k < |r.consumed| :: r.consumed[k].handled ==> r.consumed[k].open
  }

  /** The handler is still installed when message `i` of the buffered run is taken. */
  predicate HandlerReaches(js: Js, i: nat)
    requires InRun(js.pending, js.next, i)
  {
    js.handler && forall k: nat | js.next <= k < i :: !js.pending[k].reaction.removes
  }

  /** Some message of the buffered run is handled, its handler closes the channel and stays, and its successor is buffered too. */
  ghost predicate ClosesBeforeBuffered(js: Js) {
    exists i: nat :: ClosesAt(js, i)
  }

  predicate ClosesAt(js: Js, i: nat) {
    && InRun(js.pending, js.next, i) && HandlerReaches(js, i)
    && js.pending[i].reaction == Reaction(true, false) && i + 1 in js.pending
  }

  lemma RunStep(pending: map<nat, Message>, n: nat, i: nat)
    requires n in pending && i > n
    ensures InRun(pending, n, i) <==> InRun(pending - {n}, n + 1, i)
  {
    var rest := pending - {n};
    assert forall k: nat | k > n :: k in pending <==> k in rest;
  }

  /** The first message of the run closes the channel. */
  lemma DrainFromCloser(js: Js)
    requires js.alive && js.handler && js.next in js.pending && js.pending[js.next].reaction == Reaction(true, false)
    ensures NothingAfterClose(js, Drain(js)) <==> js.next + 1 !in js.pending
  {
    var js1, r := HandNext(js), Drain(js);
    HandNextFacts(js);
    DrainTakesTheBufferedRun(js1);
    DrainClosed(js1);
    assert r.consumed[|js.consumed|] == js1.consumed[|js.consumed|];
    if js.next + 1 in js.pending {
      assert js1.next in js1.pending && js1.handler;
      HandNextFacts(js1);
      DrainTakesTheBufferedRun(HandNext(js1));
      assert r.consumed[|js.consumed| + 1] == HandNext(js1).consumed[|js.consumed| + 1];
    }
  }

  /** It does not: the question is passed on to the rest of the run. */
  lemma DrainPastKeeper(js: Js)
    requires js.alive && js.next in js.pending
    ensures NothingAfterClose(js, Drain(js)) <==> NothingAfterClose(HandNext(js), Drain(HandNext(js)))
  {
    var js1, r := HandNext(js), Drain(js);
    HandNextFacts(js);
    DrainTakesTheBufferedRun(js1);
    assert r.consumed[|js.consumed|] == js1.consumed[|js.consumed|];
  }

  /**
   The drain loop does not look at `_alive`. Hence a handler that closes the channel is
   called again afterwards, exactly if it closes on a message whose successor was already
   buffered and does not uninstall itself along with it.
   */
  lemma {:induction false} WhenDrainRespectsClose(js: Js)
    requires js.alive
    ensures NothingAfterClose(js, Drain(js)) <==> !ClosesBeforeBuffered(js)
    decreases |js.pending|
  {
    var n := js.next;
    if !js.handler {
      DrainUnhandled(js);
    } else if n in js.pending {
      var js1 := HandNext(js);
      if js.pending[n].reaction == Reaction(true, false) {
        DrainFromCloser(js);
        CloserIsFirst(js);
      } else {
        if js1.alive {
          WhenDrainRespectsClose(js1);
        } else {
          DrainUnhandled(js1);
        }
        DrainPastKeeper(js);
        CloseSeenByRest(js);
      }
    }
  }

  lemma CloserIsFirst(js: Js)
    requires js.handler && js.next in js.pending && js.pending[js.next].reaction == Reaction(true, false)
    ensures js.next + 1 in js.pending <==> ClosesBeforeBuffered(js)
  {
    if js.next + 1 in js.pending {
      assert ClosesAt(js, js.next);
    }
  }

  lemma ClosesLater(js: Js, i: nat)
    requires js.handler && js.next in js.pending && i > js.next
    ensures ClosesAt(js, i) <==> ClosesAt(HandNext(js), i)
  {
    var n, rest := js.next, js.pending - {js.next};
    RunStep(js.pending, n, i);
    if InRun(js.pending, n, i) {
      assert forall k: nat | n < k <= i :: js.pending[k] == rest[k];
      assert HandNext(js).handler <==> !js.pending[n].reaction.removes;
    }
  }

  lemma CloseSeenByRest(js: Js)
    requires js.handler && js.next in js.pending && js.pending[js.next].reaction != Reaction(true, false)
    ensures ClosesBeforeBuffered(js) <==> ClosesBeforeBuffered(HandNext(js))
  {
    if i: nat :| ClosesAt(js, i) {
      ClosesLater(js, i);
    }
    if i: nat :| ClosesAt(HandNext(js), i) {
      ClosesLater(js, i);
    }
  }

  /** Delivering the awaited message at once is the same as buffering it and draining. */
  lemma ReceiveIsBufferAndDrain(js: Js, m: Message, index: nat)
    requires js.alive && js.registered && js.next !in js.pending
    ensures Receive(js, Data(m, index)) == Drain(js.(pending := js.pending[index := m]))
  {
    var js1 := js.(pending := js.pending[index := m]);
    if index == js.next {
      assert js1.pending - {js.next} == js.pending;
      HandNextFacts(js1);
    }
  }

  /** The same for one arrival on an open channel. */
  lemma WhenReceiveRespectsClose(js: Js, m: Message, index: nat)
    requires js.alive && js.registered && js.next !in js.pending
    ensures NothingAfterClose(js, Receive(js, Data(m, index)))
       <==> !ClosesBeforeBuffered(js.(pending := js.pending[index := m]))
  {
    ReceiveIsBufferAndDrain(js, m, index);
    WhenDrainRespectsClose(js.(pending := js.pending[index := m]));
  }

  /** The same for one callback: what handlers do takes effect, and nothing else closes the channel or removes the handler. */
  lemma ReceiveObeys(js: Js, raw: Raw)
    requires (js.alive <==> js.registered) && js.next !in js.pending
    ensures Obeyed(js, Receive(js, raw))
  {
    if js.registered && raw.Data? {
      if raw.index == js.next {
        var js1 := js.(pending := js.pending[raw.index := raw.message]);
        ReceiveIsBufferAndDrain(js, raw.message, raw.index);
        DrainObeys(js1);
      }
    } else {
      EndIsOnlyRecorded(js, 0);
    }
  }

  /**
   An end notification is only recorded: whatever it says, it delivers nothing and never
   removes the channel from the registry. Only the page's own `close()` does.
   */
  lemma EndIsOnlyRecorded(js: Js, index: nat)
    requires (js.alive <==> js.registered) && js.next !in js.pending
    ensures Receive(js, End(index)) == if js.registered then js.(endIndex := Some(index)) else js
  {
  }

  /** `window.__WXP_INTERNALS__` */
  class Internals {
    var callbackIdCounter: nat
    var callbacks: set<nat>
    var channels: set<nat>

    /** Ids in use were all handed out by the counter. */
    ghost predicate Valid()
      reads this
    {
      && (forall id | id in callbacks :: id < callbackIdCounter)
      && (forall id | id in channels :: id < callbackIdCounter)
    }

    constructor ()
      ensures Valid() && callbacks == {} && channels == {}
    {
      callbackIdCounter, callbacks, channels := 0, {}, {};
    }

    /** `transformCallback`: the id was never used before. */
    method TransformCallback() returns (id: nat)
      requires Valid()
      modifies this
      ensures Valid() && id !in old(callbacks) && id !in old(channels) && id >= old(callbackIdCounter)
      ensures callbacks == old(callbacks) + {id} && channels == old(channels)
    {
      id := callbackIdCounter;
      callbackIdCounter := callbackIdCounter + 1;
      callbacks := callbacks + {id};
    }

    method Delete(id: nat)
      requires Valid()
      modifies this
      ensures Valid() && callbacks == old(callbacks) - {id} && channels == old(channels) - {id}
    {
      callbacks := callbacks - {id};
      channels := channels - {id};
    }
  }

  class Channel {
    const internals: Internals
    var id: nat
    var nextMessageIndex: nat
    var pendingMessages: map<nat, Message>
    var messageEndIndex: Option<nat>
    var alive: bool
    var onmessage: bool
    ghost var consumed: seq<Consumed>

    ghost function View(): Js
      reads this, internals
    {
      Js(nextMessageIndex, pendingMessages, messageEndIndex, alive, id in internals.callbacks, onmessage, consumed)
    }

    /** Other entries of the registry are none of this channel's business. */
    twostate predicate OthersKept()
      reads this, internals
    {
      && id == old(id)
      && internals.callbacks - {id} == old(internals.callbacks) - {id}
      && internals.channels - {id} == old(internals.channels) - {id}
    }

    constructor (i: Internals)
      requires i.Valid()
      modifies i
      ensures internals == i && i.Valid() && View() == NEW
      ensures id !in old(i.callbacks) && i.callbacks == old(i.callbacks) + {id} && i.channels == old(i.channels) + {id}
    {
      internals := i;
      nextMessageIndex, pendingMessages, messageEndIndex := 0, map[], None;
      alive, onmessage, consumed := true, true, [];
      new;
      id := i.TransformCallback();
      i.channels := i.channels + {id};
    }

    method CloseChannel()
      requires internals.Valid()
      modifies this, internals
      ensures internals.Valid() && OthersKept()
      ensures View() == Close(old(View()))
    {
      if alive {
        alive := false;
        internals.Delete(id);
      }
    }

    /** Call the handler, which may act on the channel, and step to the next index. */
    method HandOver(message: Message)
      requires internals.Valid()
      modifies this, internals
      ensures internals.Valid() && OthersKept()
      ensures View() == Hand(old(View()), message)
    {
      consumed := consumed + [Consumed(message, onmessage, alive)];
      if onmessage {
        if message.reaction.closes {
          CloseChannel();
        }
        if message.reaction.removes {
          onmessage := false;
        }
      }
      nextMessageIndex := nextMessageIndex + 1;
    }

    method DrainPendingMessages()
      requires internals.Valid()
      modifies this, internals
      ensures internals.Valid() && OthersKept()
      ensures View() == Drain(old(View()))
    {
      while nextMessageIndex in pendingMessages
        invariant internals.Valid() && OthersKept()
        invariant Drain(View()) == Drain(old(View()))
        decreases |pendingMessages|
      {
        ghost var before := View();
        HandNextFacts(before);
        var message := pendingMessages[nextMessageIndex];
        pendingMessages := pendingMessages - {nextMessageIndex};
        HandOver(message);
        assert View() == HandNext(before);
      }
      if messageEndIndex.Some? && nextMessageIndex >= messageEndIndex.value {
        if !alive {
          internals.Delete(id);
        }
      }
    }

    /** `runCallback` for the id of this channel. */
    method RunCallback(raw: Raw)
      requires internals.Valid()
      modifies this, internals
      ensures internals.Valid() && OthersKept()
      ensures View() == Receive(old(View()), raw)
    {
      if id !in internals.callbacks {
        return;
      }
      match raw
      case End(index) =>
        messageEndIndex := Some(index);
        DrainPendingMessages();
        if !alive {
          internals.Delete(id);
        }
      case Data(message, index) =>
        if index == nextMessageIndex {
          HandOver(message);
          DrainPendingMessages();
        } else {
          pendingMessages := pendingMessages[index := message];
        }
    }
  }
}
