/**
 The GTK drag-and-drop controller: four signal handlers and the idle callbacks
 that one of them queues, and the language of events that reaches the user.
 */
module DragDrop {
  import opened Wrappers

  type Path = string
  type Position = (int, int)

  datatype Phase = Entered | Leaving | Left

  datatype DragDropEvent =
    | Enter(paths: seq<Path>, position: Position)
    | Over(position: Position)
    | Drop(paths: seq<Path>, position: Position)
    | Leave

  /** `idle` counts the idle callbacks queued by drag-leave and not yet run. */
  datatype Controller = Controller(phase: Phase, paths: Option<seq<Path>>, position: Position, idle: nat)

  const NEW := Controller(Left, None, (0, 0), 0)

  datatype Signal =
    | DataReceived(info: nat, received: seq<Path>)
    | Motion(at: Position)
    | DragDropped(at: Position)
    | DragLeave
    | Idle

  datatype Reaction = Reaction(next: Controller, emitted: Option<DragDropEvent>)

  function React(c: Controller, s: Signal): Reaction {
    match s
    case DataReceived(info, received) =>
      if info == 2 then Reaction(c.(phase := Entered, paths := Some(received)), Some(Enter(received, c.position)))
      else Reaction(c, None)
    case Motion(at) =>
      if c.phase == Entered then Reaction(c, Some(Over(at)))
      else Reaction(c.(position := at), None)
    case DragDropped(at) =>
      if c.phase == Leaving && c.paths.Some?
      then Reaction(c.(phase := Left, paths := None), Some(Drop(c.paths.value, at)))
      else Reaction(c, None)
    case DragLeave =>
      if c.phase != Left then Reaction(c.(phase := Leaving, idle := c.idle + 1), None)
      else Reaction(c, None)
    case Idle =>
      if c.idle == 0 then Reaction(c, None) // nothing queued, nothing runs
      else if c.phase == Leaving then Reaction(c.(phase := Left, idle := c.idle - 1), Some(Leave))
      else Reaction(c.(idle := c.idle - 1), None)
  }

  function After(signals: seq<Signal>): Controller {
    if signals == [] then NEW else React(After(signals[..|signals| - 1]), signals[|signals| - 1]).next
  }

  /** What signal `i` makes the user's handler see. */
  function Emitted(signals: seq<Signal>, i: nat): Option<DragDropEvent>
    requires i < |signals|
  {
    React(After(signals[..i]), signals[i]).emitted
  }

  /** What one emission makes of the open drag. */
  function Opened(open: Option<seq<Path>>, emitted: Option<DragDropEvent>): Option<seq<Path>> {
    match emitted
    case Some(Enter(paths, _)) => Some(paths)
    case Some(Drop(_, _)) => None
    case Some(Leave) => None
    case _ => open
  }

  /**
   Read off the events alone: the paths of the drag that is open after the first
   `n` signals, that is, of the latest Enter with no Drop or Leave since.
   */
  function OpenDrag(signals: seq<Signal>, n: nat): Option<seq<Path>>
    requires n <= |signals|
  {
    if n == 0 then None else Opened(OpenDrag(signals, n - 1), Emitted(signals, n - 1))
  }

  lemma AfterPrefix(signals: seq<Signal>, n: nat)
    requires n < |signals|
    ensures After(signals[..n + 1]) == React(After(signals[..n]), signals[n]).next
  {
    assert signals[..n + 1][..n] == signals[..n];
  }

  /** The controller is outside Left exactly while a drag is open, and then stores its paths. */
  predicate Tracks(c: Controller, open: Option<seq<Path>>) {
    (c.phase != Left <==> open.Some?) && (c.phase != Left ==> c.paths == open)
  }

  lemma ReactTracks(c: Controller, s: Signal, open: Option<seq<Path>>)
    requires Tracks(c, open)
    ensures Tracks(React(c, s).next, Opened(open, React(c, s).emitted))
  {
  }

  lemma {:induction false} ControllerTracksOpenDrag(signals: seq<Signal>, n: nat)
    requires n <= |signals|
    ensures Tracks(After(signals[..n]), OpenDrag(signals, n))
  {
    if n > 0 {
      ControllerTracksOpenDrag(signals, n - 1);
      AfterPrefix(signals, n - 1);
      ReactTracks(After(signals[..n - 1]), signals[n - 1], OpenDrag(signals, n - 1));
    }
  }

  /**
   For every sequence of signals: an Over, a Drop or a Leave is only ever seen
   inside an open drag, a Drop carries the paths of that drag, and Drop and Leave close it.
   */
  lemma TraceIsWellFormed(signals: seq<Signal>, i: nat)
    requires i < |signals|
    ensures match Emitted(signals, i)
      case Some(Over(_)) => OpenDrag(signals, i).Some? && OpenDrag(signals, i + 1) == OpenDrag(signals, i)
      case Some(Drop(paths, _)) => OpenDrag(signals, i) == Some(paths) && OpenDrag(signals, i + 1) == None
      case Some(Leave) => OpenDrag(signals, i).Some? && OpenDrag(signals, i + 1) == None
      case Some(Enter(paths, _)) => OpenDrag(signals, i + 1) == Some(paths)
      case None => OpenDrag(signals, i + 1) == OpenDrag(signals, i)
  {
    ControllerTracksOpenDrag(signals, i);
  }

  /** Signal `j` emits an Enter with these paths, and up to `n` nothing but Over follows. */
  ghost predicate OpenedAt(signals: seq<Signal>, j: nat, n: nat, paths: seq<Path>)
    requires n <= |signals|
  {
    && j < n
    && Emitted(signals, j).Some? && Emitted(signals, j).value.Enter? && Emitted(signals, j).value.paths == paths
    && forall k | j < k < n :: Emitted(signals, k).None? || Emitted(signals, k).value.Over?
  }

  lemma OpenedStays(signals: seq<Signal>, j: nat, n: nat, paths: seq<Path>)
    requires n < |signals| && OpenedAt(signals, j, n, paths)
    requires Emitted(signals, n).None? || Emitted(signals, n).value.Over?
    ensures OpenedAt(signals, j, n + 1, paths)
  {
  }

  lemma OpenDragStep(signals: seq<Signal>, n: nat)
    requires n < |signals| && OpenDrag(signals, n + 1).Some?
    ensures var last := Emitted(signals, n);
      if last.Some? && last.value.Enter? then OpenDrag(signals, n + 1) == Some(last.value.paths)
      else (last.None? || last.value.Over?) && OpenDrag(signals, n + 1) == OpenDrag(signals, n)
  {
  }

  /** An open drag is announced by an Enter that nothing has closed since. */
  lemma {:induction false} OpenDragHasEnter(signals: seq<Signal>, n: nat)
    requires n <= |signals| && OpenDrag(signals, n).Some?
    ensures exists j: nat :: OpenedAt(signals, j, n, OpenDrag(signals, n).value)
  {
    var paths, last := OpenDrag(signals, n).value, Emitted(signals, n - 1);
    OpenDragStep(signals, n - 1);
    if last.Some? && last.value.Enter? {
      assert OpenedAt(signals, n - 1, n, paths);
    } else {
      OpenDragHasEnter(signals, n - 1);
      var j: nat :| OpenedAt(signals, j, n - 1, paths);
      OpenedStays(signals, j, n - 1, paths);
    }
  }

  // The same history read off the signals.

  /** The latest files were received after the latest leave. */
  predicate Hovering(signals: seq<Signal>, n: nat)
    requires n <= |signals|
  {
    if n == 0 then false
    else match signals[n - 1]
      case DataReceived(info, _) => info == 2 || Hovering(signals, n - 1)
      case DragLeave => false
      case _ => Hovering(signals, n - 1)
  }

  /** Where the pointer was last seen while nothing hovered. */
  function EntryPosition(signals: seq<Signal>, n: nat): Position
    requires n <= |signals|
  {
    if n == 0 then (0, 0)
    else if signals[n - 1].Motion? && !Hovering(signals, n - 1) then signals[n - 1].at
    else EntryPosition(signals, n - 1)
  }

  /** Idle callbacks that the leaves of open drags have queued and that have not run. */
  function IdleQueued(signals: seq<Signal>, n: nat): nat
    requires n <= |signals|
  {
    if n == 0 then 0
    else
      var queued := IdleQueued(signals, n - 1);
      match signals[n - 1]
      case DragLeave => if OpenDrag(signals, n - 1).Some? then queued + 1 else queued
      case Idle => if queued > 0 then queued - 1 else 0
      case _ => queued
  }

  lemma {:induction false} EnteredIsHovering(signals: seq<Signal>, n: nat)
    requires n <= |signals|
    ensures After(signals[..n]).phase == Entered <==> Hovering(signals, n)
  {
    if n > 0 {
      EnteredIsHovering(signals, n - 1);
      AfterPrefix(signals, n - 1);
    }
  }

  lemma {:induction false} PositionIsEntry(signals: seq<Signal>, n: nat)
    requires n <= |signals|
    ensures After(signals[..n]).position == EntryPosition(signals, n)
  {
    if n > 0 {
      PositionIsEntry(signals, n - 1);
      EnteredIsHovering(signals, n - 1);
      AfterPrefix(signals, n - 1);
    }
  }

  lemma {:induction false} IdleIsQueued(signals: seq<Signal>, n: nat)
    requires n <= |signals|
    ensures After(signals[..n]).idle == IdleQueued(signals, n)
  {
    if n > 0 {
      IdleIsQueued(signals, n - 1);
      ControllerTracksOpenDrag(signals, n - 1);
      AfterPrefix(signals, n - 1);
    }
  }

  /**
   Exactly what the user sees, from the signals alone. Over follows the pointer while
   files hover; Drop and Leave need an open drag that GTK has announced to be leaving,
   and whichever comes first takes it.
   */
  lemma WhatIsEmitted(signals: seq<Signal>, i: nat)
    requires i < |signals|
    ensures var leaving := OpenDrag(signals, i).Some? && !Hovering(signals, i);
      Emitted(signals, i) ==
        match signals[i]
        case DataReceived(info, received) => if info == 2 then Some(Enter(received, EntryPosition(signals, i))) else None
        case Motion(at) => if Hovering(signals, i) then Some(Over(at)) else None
        case DragDropped(at) => if leaving then Some(Drop(OpenDrag(signals, i).value, at)) else None
        case DragLeave => None
        case Idle => if leaving && IdleQueued(signals, i) > 0 then Some(Leave) else None
  {
    ControllerTracksOpenDrag(signals, i);
    EnteredIsHovering(signals, i);
    PositionIsEntry(signals, i);
    IdleIsQueued(signals, i);
  }

  /** A drag that GTK leaves without a drop is closed in the end: its idle callback is still to run. */
  lemma {:induction false} LeavingIsFinished(signals: seq<Signal>, n: nat)
    requires n <= |signals| && OpenDrag(signals, n).Some? && !Hovering(signals, n)
    ensures IdleQueued(signals, n) > 0
  {
    WhatIsEmitted(signals, n - 1);
    if OpenDrag(signals, n - 1).Some? && !Hovering(signals, n - 1) {
      LeavingIsFinished(signals, n - 1);
    }
  }

  lemma Push(signals: seq<Signal>, signal: Signal)
    ensures After(signals + [signal]) == React(After(signals), signal).next
    ensures Emitted(signals + [signal], |signals|) == React(After(signals), signal).emitted
  {
    assert (signals + [signal])[..|signals|] == signals;
  }

  /** `signals` is everything the controller was sent; all that is said above about histories holds of the object. */
  class DragDropController {
    var phase: Phase
    var paths: Option<seq<Path>>
    var position: Position
    var idle: nat
    ghost var signals: seq<Signal>

    ghost predicate Valid()
      reads this
    {
      Controller(phase, paths, position, idle) == After(signals)
    }

    constructor ()
      ensures Valid() && signals == []
    {
      phase, paths, position, idle := Left, None, (0, 0), 0;
      signals := [];
    }

    method OnDataReceived(info: nat, received: seq<Path>) returns (event: Option<DragDropEvent>)
      requires Valid()
      modifies this
      ensures Valid() && signals == old(signals) + [DataReceived(info, received)]
      ensures event == Emitted(signals, |old(signals)|)
    {
      Push(signals, DataReceived(info, received));
      signals := signals + [DataReceived(info, received)];
      event := None;
      if info == 2 {
        phase := Entered;
        event := Some(Enter(received, position));
        paths := Some(received);
      }
    }

    method OnMotion(at: Position) returns (event: Option<DragDropEvent>)
      requires Valid()
      modifies this
      ensures Valid() && signals == old(signals) + [Motion(at)]
      ensures event == Emitted(signals, |old(signals)|)
    {
      Push(signals, Motion(at));
      signals := signals + [Motion(at)];
      event := None;
      if phase == Entered {
        event := Some(Over(at));
      } else {
        position := at;
      }
    }

    method OnDrop(at: Position) returns (event: Option<DragDropEvent>)
      requires Valid()
      modifies this
      ensures Valid() && signals == old(signals) + [DragDropped(at)]
      ensures event == Emitted(signals, |old(signals)|)
    {
      Push(signals, DragDropped(at));
      signals := signals + [DragDropped(at)];
      event := None;
      if phase == Leaving {
        var taken := paths;
        paths := None;
        if taken.Some? {
          phase := Left;
          event := Some(Drop(taken.value, at));
        }
      }
    }

    method OnLeave()
      requires Valid()
      modifies this
      ensures Valid() && signals == old(signals) + [DragLeave]
      ensures Emitted(signals, |old(signals)|) == None
    {
      Push(signals, DragLeave);
      signals := signals + [DragLeave];
      if phase != Left {
        phase := Leaving;
        idle := idle + 1;
      }
    }

    /** One of the queued idle callbacks runs. */
    method OnIdle() returns (event: Option<DragDropEvent>)
      requires Valid() && idle > 0
      modifies this
      ensures Valid() && signals == old(signals) + [Idle]
      ensures event == Emitted(signals, |old(signals)|)
    {
      Push(signals, Idle);
      signals := signals + [Idle];
      event := None;
      idle := idle - 1;
      if phase == Leaving {
        phase := Left;
        event := Some(Leave);
      }
    }
  }
}
