/**
 What a timer scheduler did, as a log, and what a legal log promises. Both
 platform schedulers keep their log legal; the promises are proved here once.
 */
module TimerLog {

  type Handle = nat

  /** Nanoseconds on the monotone clock. */
  type Instant = nat

  datatype Event =
    | Scheduled(h: Handle, deadline: Instant)
    | Unscheduled(h: Handle)
    | Extracted(h: Handle, at: Instant)   // a drain took the timer out, to run it later in the same drain
    | Fired(h: Handle, at: Instant)       // its callback starts

  /** Handles that were handed out. */
  function Known(log: seq<Event>): set<Handle> {
    if log == [] then {}
    else
      var last := log[|log| - 1];
      Known(log[..|log| - 1]) + if last.Scheduled? then {last.h} else {}
  }

  /** Timers waiting for their deadline. */
  function Registered(log: seq<Event>): map<Handle, Instant> {
    if log == [] then map[]
    else
      var r := Registered(log[..|log| - 1]);
      match log[|log| - 1]
      case Scheduled(h, d) => r[h := d]
      case Unscheduled(h) => r - {h}
      case Extracted(h, _) => r - {h}
      case Fired(h, _) => r - {h}
  }

  /** Timers extracted and not yet run, with their deadlines. */
  function Taken(log: seq<Event>): map<Handle, Instant> {
    if log == [] then map[]
    else
      var front := log[..|log| - 1];
      match log[|log| - 1]
      case Extracted(h, _) => if h in Registered(front) then Taken(front)[h := Registered(front)[h]] else Taken(front)
      case Fired(h, _) => Taken(front) - {h}
      case _ => Taken(front)
  }

  /** The rule each event obeys when it is appended. */
  predicate MayAppend(log: seq<Event>, e: Event) {
    match e
    case Scheduled(h, _) => h !in Known(log)
    case Unscheduled(_) => true
    case Extracted(h, at) => h in Registered(log) && Registered(log)[h] <= at
    case Fired(h, at) =>
      (h in Taken(log) && Taken(log)[h] <= at) || (h in Registered(log) && Registered(log)[h] <= at)
  }

  predicate Legal(log: seq<Event>) {
    log == [] || (Legal(log[..|log| - 1]) && MayAppend(log[..|log| - 1], log[|log| - 1]))
  }

  lemma AppendKeepsLegal(log: seq<Event>, e: Event)
    requires Legal(log) && MayAppend(log, e)
    ensures Legal(log + [e])
    ensures Known(log + [e]) == Known(log) + (if e.Scheduled? then {e.h} else {})
    ensures Registered(log + [e]) == (if e.Scheduled? then Registered(log)[e.h := e.deadline] else Registered(log) - {e.h})
    ensures Taken(log + [e]) == (if e.Extracted? then Taken(log)[e.h := Registered(log)[e.h]]
                                 else if e.Fired? then Taken(log) - {e.h} else Taken(log))
  {
  }

  lemma {:induction false} PrefixIsLegal(log: seq<Event>, n: nat)
    requires Legal(log) && n <= |log|
    ensures Legal(log[..n])
  {
    if n < |log| {
      PrefixIsLegal(log[..|log| - 1], n);
      assert log[..|log| - 1][..n] == log[..n];
    } else {
      assert log[..n] == log;
    }
  }

  lemma NextPrefix(log: seq<Event>, n: nat)
    requires Legal(log) && n < |log|
    ensures log[..n + 1][..n] == log[..n]
    ensures Legal(log[..n]) && MayAppend(log[..n], log[n])
  {
    PrefixIsLegal(log, n + 1);
    assert log[..n + 1][..n] == log[..n];
  }

  lemma {:induction false} StatesAreKnown(log: seq<Event>)
    requires Legal(log)
    ensures Registered(log).Keys + Taken(log).Keys <= Known(log)
    ensures Registered(log).Keys !! Taken(log).Keys
  {
    if log != [] {
      StatesAreKnown(log[..|log| - 1]);
    }
  }

  /** A handle that is handed out and neither waiting nor taken never comes back. */
  lemma {:induction false} GoneStaysGone(log: seq<Event>, n: nat, m: nat, h: Handle)
    requires Legal(log) && n <= m <= |log|
    requires h in Known(log[..n]) && h !in Registered(log[..n]) && h !in Taken(log[..n])
    ensures h in Known(log[..m]) && h !in Registered(log[..m]) && h !in Taken(log[..m])
  {
    if n < m {
      GoneStaysGone(log, n, m - 1, h);
      NextPrefix(log, m - 1);
    }
  }

  /** A taken handle stays taken until it fires. */
  lemma {:induction false} TakenUntilFired(log: seq<Event>, n: nat, m: nat, h: Handle)
    requires Legal(log) && n <= m <= |log| && h in Taken(log[..n])
    requires forall k | n <= k < m :: !(log[k].Fired? && log[k].h == h)
    ensures h in Taken(log[..m]) && Taken(log[..m])[h] == Taken(log[..n])[h]
  {
    if n < m {
      StatesAreKnown(log[..m - 1]) by { PrefixIsLegal(log, m - 1); }
      TakenUntilFired(log, n, m - 1, h);
      NextPrefix(log, m - 1);
    }
  }

  /** Each scheduled callback runs at most once. */
  lemma FiresAtMostOnce(log: seq<Event>, i: nat, k: nat)
    requires Legal(log) && i < k < |log|
    requires log[i].Fired? && log[k].Fired?
    ensures log[i].h != log[k].h
  {
    var h := log[i].h;
    NextPrefix(log, i);
    StatesAreKnown(log[..i]);
    GoneStaysGone(log, i + 1, k, h);
    NextPrefix(log, k);
  }

  /** A handle is handed out once. */
  lemma {:induction false} ScheduledOnce(log: seq<Event>, i: nat, k: nat)
    requires Legal(log) && i < |log| && k < |log|
    requires log[i].Scheduled? && log[k].Scheduled? && log[i].h == log[k].h
    ensures i == k
  {
    if i != k {
      var first, last := if i < k then i else k, if i < k then k else i;
      KnownFrom(log, first, last);
      NextPrefix(log, last);
    }
  }

  lemma {:induction false} KnownFrom(log: seq<Event>, i: nat, n: nat)
    requires i < n <= |log| && log[i].Scheduled?
    ensures log[i].h in Known(log[..n])
  {
    assert log[..n][..n - 1] == log[..n - 1];
    if i < n - 1 {
      KnownFrom(log, i, n - 1);
    }
  }

  /** `j` is where the timer was scheduled, with deadline `d`; nothing unscheduled or fired it before `n`. */
  ghost predicate WaitsSince(log: seq<Event>, j: nat, n: nat, h: Handle, d: Instant) {
    && j < n <= |log| && log[j] == Scheduled(h, d)
    && forall k | j < k < n :: log[k].h != h || log[k].Extracted?
  }

  ghost predicate Waits(log: seq<Event>, n: nat, h: Handle, d: Instant) {
    exists j: nat :: WaitsSince(log, j, n, h, d)
  }

  lemma {:induction false} RegisteredWaits(log: seq<Event>, n: nat, h: Handle)
    requires Legal(log) && n <= |log| && h in Registered(log[..n])
    ensures Waits(log, n, h, Registered(log[..n])[h])
  {
    NextPrefix(log, n - 1);
    if log[n - 1].Scheduled? && log[n - 1].h == h {
      assert WaitsSince(log, n - 1, n, h, log[n - 1].deadline);
    } else {
      RegisteredWaits(log, n - 1, h);
      var d := Registered(log[..n])[h];
      var j: nat :| WaitsSince(log, j, n - 1, h, d);
      assert WaitsSince(log, j, n, h, d);
    }
  }

  /** What a drain extracted was waiting when it was extracted. */
  lemma {:induction false} TakenWaited(log: seq<Event>, n: nat, h: Handle)
    requires Legal(log) && n <= |log| && h in Taken(log[..n])
    ensures exists k: nat :: k < n && log[k].Extracted? && log[k].h == h && Waits(log, k, h, Taken(log[..n])[h])
  {
    NextPrefix(log, n - 1);
    if log[n - 1].Extracted? && log[n - 1].h == h {
      RegisteredWaits(log, n - 1, h);
    } else {
      TakenWaited(log, n - 1, h);
    }
  }

  /**
   A callback that fires was scheduled before, its deadline has passed, and between
   scheduling and firing (or the extraction that leads to it) nobody unscheduled it.
   */
  lemma NeverBeforeDeadline(log: seq<Event>, i: nat)
    requires Legal(log) && i < |log| && log[i].Fired?
    ensures exists k: nat, d: nat ::
      && Waits(log, k, log[i].h, d) && d <= log[i].at
      && (k == i || (k < i && log[k].Extracted? && log[k].h == log[i].h))
  {
    var h := log[i].h;
    NextPrefix(log, i);
    if h in Taken(log[..i]) && Taken(log[..i])[h] <= log[i].at {
      TakenWaited(log, i, h);
    } else {
      RegisteredWaits(log, i, h);
    }
  }

  /**
   After a timer is unscheduled its callback still fires only if a drain had
   extracted it before; and while extracted, unscheduling does not stop it.
   */
  lemma UnscheduleStopsUnlessExtracted(log: seq<Event>, i: nat, k: nat)
    requires Legal(log) && i < k < |log|
    requires log[i].Unscheduled? && log[i].h in Known(log[..i])
    ensures log[k].Fired? && log[k].h == log[i].h ==> log[i].h in Taken(log[..i])
    ensures log[i].h in Taken(log[..i]) && (forall m | i < m < k :: !(log[m].Fired? && log[m].h == log[i].h)) ==>
              MayAppend(log[..k], Fired(log[i].h, Taken(log[..i])[log[i].h]))
  {
    var h := log[i].h;
    NextPrefix(log, i);
    if h !in Taken(log[..i]) {
      GoneStaysGone(log, i + 1, k, h);
      NextPrefix(log, k);
    } else if forall m | i < m < k :: !(log[m].Fired? && log[m].h == h) {
      TakenUntilFired(log, i, k, h);
    }
  }

  /** Event `m` starts the callback of `h`. */
  predicate FiresAt(log: seq<Event>, m: nat, h: Handle)
    requires m < |log|
  {
    log[m].Fired? && log[m].h == h
  }

  /** Once nothing is extracted any more, exactly the unscheduled timers that were extracted then have fired since. */
  lemma UnscheduledFiresIfExtracted(log: seq<Event>, k: nat)
    requires Legal(log) && k < |log| && Taken(log) == map[]
    requires log[k].Unscheduled? && log[k].h in Known(log[..k])
    ensures (exists m: nat :: k < m < |log| && FiresAt(log, m, log[k].h)) <==> log[k].h in Taken(log[..k])
  {
    var h := log[k].h;
    assert log[..|log|] == log;
    if m: nat :| k < m < |log| && FiresAt(log, m, h) {
      UnscheduleStopsUnlessExtracted(log, k, m);
    } else if h in Taken(log[..k]) {
      forall m | k <= m < |log| ensures !(log[m].Fired? && log[m].h == h) {
        assert m > k ==> !FiresAt(log, m, h);
      }
      TakenUntilFired(log, k, |log|, h);
    }
  }

  /** A scheduler that takes each timer out of the map only to fire it at once (win32). */
  predicate NeverExtracts(log: seq<Event>) {
    forall i | 0 <= i < |log| :: !log[i].Extracted?
  }

  lemma {:induction false} NothingTakenWithoutExtraction(log: seq<Event>)
    requires NeverExtracts(log)
    ensures Taken(log) == map[]
  {
    if log != [] {
      NothingTakenWithoutExtraction(log[..|log| - 1]);
    }
  }
}
