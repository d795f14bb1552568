/**
 The thread-local queue that serializes WebView2 controller creations. A task
 either completes on the spot (its view is gone, or a native call fails) and
 then recurses into `complete_controller_creation`, or it stays in flight until
 its completion callback comes.
 */
module ControllerQueue {

  /** `sync`: starting the task completes it at once. A failing creation call never invokes its callback. */
  datatype Creation = Creation(id: nat, sync: bool)

  /** `inFlight`: started, callback still to come. `started`: every task ever started, in order. */
  datatype Queue = Queue(active: bool, pending: seq<Creation>, inFlight: seq<Creation>, started: seq<Creation>)

  const EMPTY := Queue(false, [], [], [])

  /** The boxed task runs. */
  function Start(q: Queue, task: Creation): Queue
    decreases |q.pending|, 1
  {
    var q1 := q.(started := q.started + [task]);
    if task.sync then Complete(q1) else q1.(inFlight := q1.inFlight + [task])
  }

  function Complete(q: Queue): Queue
    decreases |q.pending|, 0
  {
    if q.pending == [] then q.(active := false)
    else Start(q.(pending := q.pending[1..]), q.pending[0])
  }

  function Enqueue(q: Queue, task: Creation): Queue {
    if q.active then q.(pending := q.pending + [task])
    else Start(q.(active := true), task)
  }

  datatype Event =
    | Enqueued(task: Creation)
    | CallbackCame(index: nat)     // the completion callback of one of the creations in flight

  predicate Possible(q: Queue, e: Event) {
    e.CallbackCame? ==> e.index < |q.inFlight|
  }

  function On(q: Queue, e: Event): Queue
    requires Possible(q, e)
  {
    match e
    case Enqueued(task) => Enqueue(q, task)
    case CallbackCame(i) => Complete(q.(inFlight := q.inFlight[..i] + q.inFlight[i + 1..]))
  }

  /** The number of leading tasks that complete on the spot. */
  function SyncPrefix(tasks: seq<Creation>): (n: nat)
    ensures n <= |tasks|
    ensures forall i | 0 <= i < n :: tasks[i].sync
    ensures n < |tasks| ==> !tasks[n].sync
  {
    if tasks == [] || !tasks[0].sync then 0 else 1 + SyncPrefix(tasks[1..])
  }

  /** Every pending task up to and including the first that stays in flight is started; the rest waits. */
  function Drained(q: Queue): Queue {
    var n := SyncPrefix(q.pending);
    if n < |q.pending|
    then Queue(q.active, q.pending[n + 1..], q.inFlight + [q.pending[n]], q.started + q.pending[..n + 1])
    else Queue(false, [], q.inFlight, q.started + q.pending)
  }

  lemma DrainedSkipsSync(q: Queue)
    requires q.pending != [] && q.pending[0].sync
    ensures Drained(q.(pending := q.pending[1..], started := q.started + [q.pending[0]])) == Drained(q)
  {
  }

  /**
   One completion, however deep it recurses, starts in order every pending task
   up to and including the first that does not complete on the spot. With no
   such task everything pending is started and the queue falls idle.
   */
  lemma {:induction false} CompleteDrains(q: Queue)
    ensures Complete(q) == Drained(q)
    decreases |q.pending|
  {
    if q.pending != [] {
      var head := q.pending[0];
      if head.sync {
        CompleteDrains(q.(pending := q.pending[1..], started := q.started + [head]));
        DrainedSkipsSync(q);
      } else {
        assert q.pending[..1] == [head];
      }
    } else {
      assert q.started + [] == q.started;
    }
  }

  /** Busy exactly while one creation is in flight; idle means nothing is waiting. */
  ghost predicate Inv(q: Queue) {
    && |q.inFlight| == (if q.active then 1 else 0)
    && (q.active ==> q.started != [] && q.inFlight == [q.started[|q.started| - 1]] && !q.inFlight[0].sync)
    && (!q.active ==> q.pending == [])
  }

  lemma EventInv(q: Queue, e: Event)
    requires Inv(q) && Possible(q, e)
    ensures Inv(On(q, e))
    ensures On(q, e).started + On(q, e).pending ==
              q.started + q.pending + (if e.Enqueued? then [e.task] else [])
  {
    match e
    case Enqueued(task) =>
      if q.active {
        assert q.started + (q.pending + [task]) == q.started + q.pending + [task];
      } else {
        CompleteDrains(q.(active := true, started := q.started + [task]));
        assert q.started + [] == q.started;
      }
    case CallbackCame(i) =>
      var q1 := q.(inFlight := q.inFlight[..i] + q.inFlight[i + 1..]);
      assert q1.inFlight == [];
      CompleteDrains(q1);
      var n := SyncPrefix(q.pending);
      if n < |q.pending| {
        assert q.started + q.pending[..n + 1] + q.pending[n + 1..] == q.started + q.pending;
      }
  }

  ghost predicate IsHistory(events: seq<Event>)
    decreases |events|, 0
  {
    events == [] || (IsHistory(events[..|events| - 1])
                     && Possible(After(events[..|events| - 1]), events[|events| - 1]))
  }

  ghost function After(events: seq<Event>): Queue
    requires IsHistory(events)
    decreases |events|, 1
  {
    if events == [] then EMPTY else On(After(events[..|events| - 1]), events[|events| - 1])
  }

  /** The tasks enqueued so far, oldest first. */
  function Requested(events: seq<Event>): seq<Creation> {
    if events == [] then []
    else
      var e := events[|events| - 1];
      Requested(events[..|events| - 1]) + (if e.Enqueued? then [e.task] else [])
  }

  /**
   Over any history of enqueues and callbacks: at most one creation is in flight,
   the queue is never idle while work is pending, and tasks start in exactly the
   order in which they were enqueued.
   */
  lemma {:induction false} OneAtATimeInOrder(events: seq<Event>)
    requires IsHistory(events)
    ensures var q := After(events);
      && |q.inFlight| <= 1
      && (q.pending != [] ==> |q.inFlight| == 1)
      && q.started + q.pending == Requested(events)
      && (forall t | t in q.inFlight :: !t.sync && q.started != [] && t == q.started[|q.started| - 1])
    ensures Inv(After(events))
  {
    if events != [] {
      OneAtATimeInOrder(events[..|events| - 1]);
      EventInv(After(events[..|events| - 1]), events[|events| - 1]);
    }
  }

  class WebView2ControllerCreationQueue {
    var active: bool
    var pending: seq<Creation>
    var inFlight: seq<Creation>
    var started: seq<Creation>

    ghost function View(): Queue
      reads this
    {
      Queue(active, pending, inFlight, started)
    }

    constructor ()
      ensures View() == EMPTY
    {
      active, pending, inFlight, started := false, [], [], [];
    }

    method EnqueueControllerCreation(task: Creation)
      modifies this
      ensures View() == Enqueue(old(View()), task)
    {
      if active {
        pending := pending + [task];
      } else {
        active := true;
        RunTask(task);
      }
    }

    method CompleteControllerCreation()
      modifies this
      ensures View() == Complete(old(View()))
      decreases |pending|, 0
    {
      if pending != [] {
        var task := pending[0];
        pending := pending[1..];
        RunTask(task);
      } else {
        active := false;
      }
    }

    method RunTask(task: Creation)
      modifies this
      ensures View() == Start(old(View()), task)
      decreases |pending|, 1
    {
      started := started + [task];
      if task.sync {
        CompleteControllerCreation();
      } else {
        inFlight := inFlight + [task];
      }
    }
  }
}
