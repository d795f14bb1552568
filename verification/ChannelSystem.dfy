/**
 A channel end to end: any number of Rust threads sending on clones of one
 channel, the two delivery routes with the process-wide payload store between
 them, which other channels use too, the page, and the WebView owner, whose drop
 destroys the page.

 One step is one atomic operation. Messages under way may overtake each other
 freely; any step may fail where the program can.
 */
module ChannelSystem {
  import opened Wrappers
  import opened JsChannel

  type Index = nat
  type DataId = nat

  /** Where the message with a given index is between `fetch_add` and the page's callback. */
  datatype Transit =
    | Reserved(message: Message)      // the index was taken
    | Stored(id: DataId)              // large payload put into the store; about to post the fetch
    | Queued(message: Message)        // inline script posted to the run loop
    | QueuedFetch(id: DataId)         // fetch script posted to the run loop
    | Fetching(id: DataId)            // the page was told to fetch
    | InPage(message: Message)        // the page holds the payload; callback about to run

  /** CHANNEL_DATA_STORE and CHANNEL_DATA_COUNTER, with what became of each payload. */
  datatype Store = Store(
    data: map<DataId, Message>,
    next: nat,
    stored: map<DataId, Message>,     // what was put in under each id
    origin: map<DataId, Index>,       // the message of this channel that a payload belongs to
    departures: map<DataId, nat>,     // how often it left the store
    cleanups: map<DataId, nat>)       // how often the abandoned-post cleanup of this channel ran for it

  datatype State = State(
    sent: seq<Option<Message>>,       // by index; None where serialisation failed
    transit: map<Index, Transit>,
    ends: multiset<nat>,              // end notifications under way
    store: Store,
    owner: bool,                      // the WxpWebView is alive
    js: Js,
    arrived: set<Index>)              // callbacks that found the channel registered

  const INITIAL := State([], map[], multiset{}, Store(map[], 0, map[], map[], map[], map[]), true, NEW, {})

  /** The next operation on a message under way. */
  datatype Move =
    | PostInline
    | StoreData
    | PostFetch
    // `send` returned false without queueing the closure. If only its second token read refuses, it
    // returns false too, but the closure stays queued: that is PostInline or PostFetch.
    | PostRefused
    | RunScript(evalOk: bool)         // the posted closure runs
    | Discarded                       // the run loop is torn down with the closure still queued
    | Serve                           // the custom protocol answers the page's fetch

  datatype Step =
    | Reserve(message: Option<Message>)  // fetch_add, then serialise
    | Advance(i: Index, move: Move)
    | OtherStores(payload: Message)      // another channel stores a payload
    | OtherTakes(id: DataId)             // anything else in the process fetches an id or cleans it up
    | RunData(i: Index)                  // runCallback with the message
    | SendEnd                            // a clone is dropped, or `close`
    | RunEnd(index: nat)                 // runCallback with the end notification
    | OwnerDropped                       // the WebView and its page are destroyed
    | PageCloses                         // channel.close() from page code
    | PageSetsHandler(on: bool)          // the onmessage setter

  predicate CanMove(t: Transit, move: Move) {
    match move
    case PostInline => t.Reserved?
    case StoreData => t.Reserved?
    case PostFetch => t.Stored?
    case PostRefused => t.Stored? || t.Reserved?
    case RunScript(_) => t.Queued? || t.QueuedFetch?
    case Discarded => t.Queued? || t.QueuedFetch?
    case Serve => t.Fetching?
  }

  predicate Enabled(s: State, step: Step) {
    match step
    case Advance(i, move) => i in s.transit && CanMove(s.transit[i], move)
    case RunData(i) => i in s.transit && s.transit[i].InPage?
    case RunEnd(index) => s.owner && index in s.ends
    case OwnerDropped => s.owner
    case PageCloses => s.owner
    case PageSetsHandler(_) => s.owner
    case _ => true
  }

  predicate HasId(t: Transit) { t.Stored? || t.QueuedFetch? || t.Fetching? }

  function Count(m: map<DataId, nat>, id: DataId): nat {
    if id in m then m[id] else 0
  }

  /** `HashMap::remove` on the store. */
  function Remove(st: Store, id: DataId): Store {
    if id in st.data
    then st.(data := st.data - {id}, departures := st.departures[id := Count(st.departures, id) + 1])
    else st
  }

  /** The cleanup that `send_large_data` hands to the post. */
  function Cleanup(st: Store, id: DataId): Store {
    var st1 := Remove(st, id);
    st1.(cleanups := st1.cleanups[id := Count(st1.cleanups, id) + 1])
  }

  /** A counter value is taken and a payload stored under it. */
  function Put(st: Store, m: Message): Store {
    st.(data := st.data[st.next := m], stored := st.stored[st.next := m], next := st.next + 1)
  }

  /** Only the page holds the message; it goes down with it. */
  predicate OnPage(t: Transit) { t.Fetching? || t.InPage? }

  /** Where the message is afterwards; None when nothing carries it any more. */
  function NextTransit(owner: bool, st: Store, t: Transit, move: Move): Option<Transit>
    requires CanMove(t, move)
  {
    match move
    case PostInline => if owner then Some(Queued(t.message)) else None
    case StoreData => Some(Stored(st.next))
    case PostFetch => if owner then Some(QueuedFetch(t.id)) else None
    case RunScript(evalOk) =>
      if !owner || !evalOk then None
      else Some(if t.Queued? then InPage(t.message) else Fetching(t.id))
    case Serve => if t.id in st.data then Some(InPage(st.data[t.id])) else None // else 404, logged by the page
    case _ => None
  }

  function NextStore(owner: bool, st: Store, i: Index, t: Transit, move: Move): Store
    requires CanMove(t, move)
  {
    match move
    case PostInline => st
    case StoreData => Put(st, t.message).(origin := st.origin[st.next := i])
    case PostFetch => if owner then st else Cleanup(st, t.id)
    case PostRefused => st
    case RunScript(evalOk) => if t.QueuedFetch? && !owner then Cleanup(st, t.id) else st
    case Discarded => st
    case Serve => Remove(st, t.id)
  }

  function Update(transit: map<Index, Transit>, i: Index, t: Option<Transit>): map<Index, Transit> {
    if t.Some? then transit[i := t.value] else transit - {i}
  }

  function Do(s: State, step: Step): State
    requires Enabled(s, step)
  {
    match step
    case Reserve(message) =>
      s.(sent := s.sent + [message],
         transit := if message.Some? then s.transit[|s.sent| := Reserved(message.value)] else s.transit)
    case Advance(i, move) =>
      s.(transit := Update(s.transit, i, NextTransit(s.owner, s.store, s.transit[i], move)),
         store := NextStore(s.owner, s.store, i, s.transit[i], move))
    case OtherStores(payload) => s.(store := Put(s.store, payload))
    case OtherTakes(id) => s.(store := Remove(s.store, id))
    case RunData(i) =>
      s.(transit := s.transit - {i},
         js := Receive(s.js, Data(s.transit[i].message, i)),
         arrived := if s.js.registered then s.arrived + {i} else s.arrived)
    case SendEnd => if s.owner then s.(ends := s.ends + multiset{|s.sent|}) else s
    case RunEnd(index) => s.(ends := s.ends - multiset{index}, js := Receive(s.js, End(index)))
    case OwnerDropped =>
      s.(owner := false, transit := map i | i in s.transit && !OnPage(s.transit[i]) :: s.transit[i])
    case PageCloses => s.(js := Close(s.js))
    case PageSetsHandler(on) => s.(js := s.js.(handler := on))
  }

  ghost predicate Next(s: State, s': State) {
    exists step: Step :: Enabled(s, step) && s' == Do(s, step)
  }

  ghost predicate StepAt(run: seq<State>, i: nat) {
    i + 1 < |run| ==> Next(run[i], run[i + 1])
  }

  ghost predicate IsRun(run: seq<State>) {
    run != [] && run[0] == INITIAL && forall i: nat :: StepAt(run, i)
  }

  // The page: what it consumed and buffers is what was sent under those indices.

  ghost predicate SentAs(sent: seq<Option<Message>>, i: Index, m: Message) {
    i < |sent| && sent[i] == Some(m)
  }

  /** What a page may hold before it drains its buffer. */
  ghost predicate Buffering(sent: seq<Option<Message>>, js: Js, arrived: set<Index>) {
    && (js.alive <==> js.registered)
    && js.next == |js.consumed|
    && (forall k: nat | k < js.next :: SentAs(sent, k, js.consumed[k].message))
    && (forall k: nat | k in js.pending :: k >= js.next && SentAs(sent, k, js.pending[k]))
    && (forall k: nat :: k in arrived <==> k < js.next || k in js.pending)
  }

  ghost predicate PageInv(sent: seq<Option<Message>>, js: Js, arrived: set<Index>) {
    Buffering(sent, js, arrived) && js.next !in js.pending
  }

  /** Message `i` under way as `t`: it was sent, has not arrived, and carries its own payload or its own id. */
  ghost predicate Carries(sent: seq<Option<Message>>, origin: map<DataId, Index>, i: Index, t: Transit) {
    && i < |sent| && sent[i].Some?
    && if HasId(t) then t.id in origin && origin[t.id] == i else t.message == sent[i].value
  }

  ghost predicate TransitInv(s: State) {
    forall i: nat | i in s.transit ::
      i !in s.arrived && Carries(s.sent, s.store.origin, i, s.transit[i]) && (OnPage(s.transit[i]) ==> s.owner)
  }

  // The payload store.

  /** Some closure or script under way still knows the payload. */
  predicate Referenced(transit: map<Index, Transit>, id: DataId, i: Index) {
    i in transit && HasId(transit[i]) && transit[i].id == id
  }

  /** The books on payload `id`, whosever it is. */
  ghost predicate Booked(st: Store, id: DataId) {
    && id in st.stored
    && (id in st.data ==> st.data[id] == st.stored[id])
    && Count(st.departures, id) == (if id in st.data then 0 else 1)
    && Count(st.cleanups, id) <= 1
    && (Count(st.cleanups, id) == 1 ==> id !in st.data)
  }

  /** Payload `id` belongs to message `i` of this channel; a cleanup is the last that is heard of it. */
  ghost predicate OwnBooked(sent: seq<Option<Message>>, transit: map<Index, Transit>, st: Store, id: DataId, i: Index) {
    && id in st.stored && SentAs(sent, i, st.stored[id])
    && (Count(st.cleanups, id) == 1 ==> !Referenced(transit, id, i))
  }

  ghost predicate DataInv(s: State, id: DataId) {
    if id < s.store.next then
      && Booked(s.store, id)
      && (id in s.store.origin ==> OwnBooked(s.sent, s.transit, s.store, id, s.store.origin[id]))
    else
      && id !in s.store.origin && id !in s.store.data && id !in s.store.stored
      && Count(s.store.departures, id) == 0 && Count(s.store.cleanups, id) == 0
  }

  ghost predicate StoreInv(s: State) {
    forall id: nat :: DataInv(s, id)
  }

  ghost predicate Inv(s: State) {
    PageInv(s.sent, s.js, s.arrived) && TransitInv(s) && StoreInv(s)
  }

  lemma DrainKeepsPage(sent: seq<Option<Message>>, js: Js, arrived: set<Index>)
    requires Buffering(sent, js, arrived)
    ensures PageInv(sent, Drain(js), arrived)
  {
    var r := Drain(js);
    DrainTakesTheBufferedRun(js);
    forall k: nat | k < r.next ensures SentAs(sent, k, r.consumed[k].message) {
      if k < js.next {
        assert r.consumed[k] == js.consumed[k];
      } else {
        assert k in js.pending && SentAs(sent, k, js.pending[k]);
      }
    }
  }

  /** The page side of one arrival, whatever it sets off. */
  lemma ArrivalKeepsPage(sent: seq<Option<Message>>, js: Js, arrived: set<Index>, i: Index, m: Message)
    requires PageInv(sent, js, arrived) && js.registered && i !in arrived && SentAs(sent, i, m)
    ensures PageInv(sent, Receive(js, Data(m, i)), arrived + {i})
  {
    ReceiveIsBufferAndDrain(js, m, i);
    DrainKeepsPage(sent, js.(pending := js.pending[i := m]), arrived + {i});
  }

  lemma EndKeepsPage(sent: seq<Option<Message>>, js: Js, arrived: set<Index>, index: nat)
    requires PageInv(sent, js, arrived)
    ensures PageInv(sent, Receive(js, End(index)), arrived)
  {
  }

  lemma ReserveKeepsPage(sent: seq<Option<Message>>, js: Js, arrived: set<Index>, message: Option<Message>)
    requires PageInv(sent, js, arrived)
    ensures PageInv(sent + [message], js, arrived) && |sent| !in arrived
  {
    forall k: nat | k in arrived ensures k < |sent| {
      if k < js.next {
        assert SentAs(sent, k, js.consumed[k].message);
      } else {
        assert SentAs(sent, k, js.pending[k]);
      }
    }
  }

  lemma StepKeepsPage(s: State, step: Step)
    requires PageInv(s.sent, s.js, s.arrived) && TransitInv(s) && Enabled(s, step)
    ensures PageInv(Do(s, step).sent, Do(s, step).js, Do(s, step).arrived)
  {
    match step
    case RunData(i) =>
      if s.js.registered {
        ArrivalKeepsPage(s.sent, s.js, s.arrived, i, s.transit[i].message);
      }
    case RunEnd(index) => EndKeepsPage(s.sent, s.js, s.arrived, index);
    case Reserve(message) => ReserveKeepsPage(s.sent, s.js, s.arrived, message);
    case PageCloses =>
    case PageSetsHandler(on) =>
    case Advance(i, move) =>
    case _ =>
  }

  /** A move takes a message from one faithful carrier to the next, and leaves the others' ids alone. */
  lemma MoveCarries(s: State, i: Index, move: Move)
    requires i in s.transit && CanMove(s.transit[i], move)
    requires Carries(s.sent, s.store.origin, i, s.transit[i])
    requires HasId(s.transit[i]) ==> DataInv(s, s.transit[i].id)
    ensures var t := NextTransit(s.owner, s.store, s.transit[i], move);
      t.Some? ==> Carries(s.sent, NextStore(s.owner, s.store, i, s.transit[i], move).origin, i, t.value)
  {
  }

  lemma OriginGrows(s: State, i: Index, move: Move)
    requires i in s.transit && CanMove(s.transit[i], move) && s.store.next !in s.store.origin
    ensures var origin := NextStore(s.owner, s.store, i, s.transit[i], move).origin;
      forall id: nat | id in s.store.origin :: id in origin && origin[id] == s.store.origin[id]
  {
  }

  lemma StepKeepsTransit(s: State, step: Step)
    requires Inv(s) && Enabled(s, step)
    ensures TransitInv(Do(s, step))
  {
    match step
    case Reserve(message) => ReserveKeepsPage(s.sent, s.js, s.arrived, message);
    case Advance(i, move) =>
      assert DataInv(s, s.store.next);
      OriginGrows(s, i, move);
      MoveCarries(s, i, move);
    case OtherStores(_) =>
    case OtherTakes(_) =>
    case RunData(i) =>
    case _ =>
  }

  /** The books stay right under every move, for the payload moved and for every other. */
  lemma MoveKeepsBooks(transit: map<Index, Transit>, owner: bool, st: Store, i: Index, move: Move, id: DataId)
    requires i in transit && CanMove(transit[i], move) && Booked(st, id) && id < st.next
    requires HasId(transit[i]) && transit[i].id == id ==> Count(st.cleanups, id) == 0
    ensures Booked(NextStore(owner, st, i, transit[i], move), id)
  {
  }

  lemma MoveKeepsOwnBooks(sent: seq<Option<Message>>, transit: map<Index, Transit>, owner: bool, st: Store,
                          i: Index, move: Move, id: DataId, j: Index)
    requires i in transit && CanMove(transit[i], move)
    requires HasId(transit[i]) && transit[i].id == id ==> i == j
    requires OwnBooked(sent, transit, st, id, j) && id < st.next
    requires Count(st.cleanups, id) <= 1
    ensures OwnBooked(sent, Update(transit, i, NextTransit(owner, st, transit[i], move)),
                      NextStore(owner, st, i, transit[i], move), id, j)
  {
  }

  lemma MoveKeepsData(s: State, i: Index, move: Move, id: DataId)
    requires i in s.transit && CanMove(s.transit[i], move) && Carries(s.sent, s.store.origin, i, s.transit[i])
    requires DataInv(s, id) && (HasId(s.transit[i]) ==> s.transit[i].id < s.store.next)
    ensures DataInv(Do(s, Advance(i, move)), id)
  {
    if id < s.store.next {
      MoveKeepsBooks(s.transit, s.owner, s.store, i, move, id);
      if id in s.store.origin {
        MoveKeepsOwnBooks(s.sent, s.transit, s.owner, s.store, i, move, id, s.store.origin[id]);
      }
    }
  }

  lemma StepKeepsData(s: State, step: Step, id: DataId)
    requires TransitInv(s) && StoreInv(s) && Enabled(s, step)
    ensures DataInv(Do(s, step), id)
  {
    assert DataInv(s, id);
    match step
    case Reserve(message) =>
    case Advance(i, move) =>
      assert HasId(s.transit[i]) ==> DataInv(s, s.transit[i].id);
      MoveKeepsData(s, i, move, id);
    case OtherStores(_) =>
    case OtherTakes(_) =>
    case RunData(i) =>
    case _ =>
  }

  lemma StepInv(s: State, step: Step)
    requires Inv(s) && Enabled(s, step)
    ensures Inv(Do(s, step))
  {
    StepKeepsPage(s, step);
    StepKeepsTransit(s, step);
    forall id: nat ensures DataInv(Do(s, step), id) {
      StepKeepsData(s, step, id);
    }
  }

  lemma {:induction false} RunInv(run: seq<State>, i: nat)
    requires IsRun(run) && i < |run|
    ensures Inv(run[i])
  {
    if i > 0 {
      RunInv(run, i - 1);
      assert StepAt(run, i - 1);
      var step :| Enabled(run[i - 1], step) && run[i] == Do(run[i - 1], step);
      StepInv(run[i - 1], step);
    }
  }
}
