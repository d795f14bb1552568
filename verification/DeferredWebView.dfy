/**
 A WebView2 view that exists before its native controller does. Requests made
 meanwhile are remembered and replayed by `finish_create_controller`; the view
 must end up as if the controller had been there all along.
 */
module DeferredWebView {
  import opened Wrappers

  datatype Size = Size(width: int, height: int)
  datatype Position = Position(x: int, y: int)
  datatype Navigation = Url(url: string) | UrlWithHeaders(url: string, headers: seq<(string, string)>) | Html(html: string)

  /** What the native side has been told so far. */
  datatype Native = Native(
    window: (Size, Position),       // SetWindowPos on the container
    shown: bool,                    // ShowWindow on the container
    bounds: Option<Size>,           // SetBounds on the controller
    visible: Option<bool>,          // SetIsVisible on the controller
    navigations: seq<Navigation>,   // Navigate, NavigateToString, …, in order
    closes: nat)                    // Close on the controller

  datatype View = View(
    alive: bool,
    visible: bool,
    ready: bool,                    // controller, webview and env are set
    pendingBounds: Option<(Size, Position)>,
    pendingNavigation: Option<Navigation>,
    native: Native)

  /** The attributes a view is created with. */
  datatype Attributes = Attributes(window: (Size, Position), visible: bool, navigation: Option<Navigation>)

  datatype Request =
    | SetBounds(size: Size, position: Position)
    | SetVisible(on: bool)
    | Load(navigation: Navigation)

  datatype Event =
    | Host(request: Request)
    | DropOwner
    | Finish(initOk: bool, during: seq<Event>) // controller arrives; `during`: host events while it is initialized

  function Create(a: Attributes): View {
    View(true, a.visible, false, None, None, Native(a.window, a.visible, None, None, [], 0))
  }

  function OnRequest(v: View, r: Request): View {
    var n := v.native;
    match r
    case SetBounds(size, position) =>
      if v.ready then v.(native := n.(bounds := Some(size), window := (size, position)))
      else v.(pendingBounds := Some((size, position)), native := n.(window := (size, position)))
    case SetVisible(on) =>
      v.(visible := on, native := n.(shown := on, visible := if v.ready then Some(on) else n.visible))
    case Load(navigation) =>
      if v.ready then v.(native := n.(navigations := n.navigations + [navigation]))
      else v.(pendingNavigation := Some(navigation))
  }

  function CloseController(v: View): View {
    v.(native := v.native.(closes := v.native.closes + 1))
  }

  /** `Drop for InnerWebView`. */
  function OnDrop(v: View): View {
    var v1 := v.(alive := false, ready := false);
    if v.ready then CloseController(v1) else v1
  }

  /** The part of `init_webview` that a later observer can see. */
  function InitWebView(v: View, visible: bool, navigation: Option<Navigation>): View {
    v.(native := v.native.(visible := Some(visible),
                           navigations := v.native.navigations + (if navigation.Some? then [navigation.value] else [])))
  }

  /** The tail of `finish_create_controller`: publish the controller and replay what was requested. */
  function Replay(v: View): View {
    var n := v.native.(shown := v.visible, visible := Some(v.visible));
    var n := if v.pendingBounds.None? then n
             else n.(bounds := Some(v.pendingBounds.value.0), window := v.pendingBounds.value);
    var n := if v.pendingNavigation.None? then n
             else n.(navigations := n.navigations + [v.pendingNavigation.value]);
    v.(ready := true, pendingBounds := None, pendingNavigation := None, native := n)
  }

  /** While a controller is being initialized only the host acts: no second controller arrives. */
  predicate HostOnly(events: seq<Event>) {
    forall e | e in events :: !e.Finish?
  }

  /** Requests need a living owner, and an owner is dropped once. */
  function OnHost(v: View, e: Event): View
    requires !e.Finish?
  {
    if !v.alive then v else if e.Host? then OnRequest(v, e.request) else OnDrop(v)
  }

  function OnHostAll(v: View, events: seq<Event>): View
    requires HostOnly(events)
  {
    if events == [] then v else OnHost(OnHostAll(v, events[..|events| - 1]), events[|events| - 1])
  }

  /** `finish_create_controller`. */
  function OnFinish(v: View, a: Attributes, initOk: bool, during: seq<Event>): View
    requires HostOnly(during)
  {
    if !v.alive then CloseController(v)
    else
      var v1 := OnHostAll(InitWebView(v, v.visible, a.navigation), during);
      if !initOk || !v1.alive then CloseController(v1) else Replay(v1)
  }

  // The reference: a view whose controller was there from the start.

  function ReadyView(a: Attributes): View {
    Replay(InitWebView(Create(a), a.visible, a.navigation))
  }

  function ApplyAll(v: View, requests: seq<Request>): View {
    if requests == [] then v else OnRequest(ApplyAll(v, requests[..|requests| - 1]), requests[|requests| - 1])
  }

  function LastOf(navigations: seq<Navigation>): Option<Navigation> {
    if navigations == [] then None else Some(navigations[|navigations| - 1])
  }

  /** What the user ends up looking at. */
  datatype Outcome = Outcome(window: (Size, Position), shown: bool, bounds: Option<Size>, visible: Option<bool>,
                             page: Option<Navigation>)

  function Observe(v: View): Outcome {
    var n := v.native;
    Outcome(n.window, n.shown, n.bounds, n.visible, LastOf(n.navigations))
  }

  function Requests(events: seq<Event>): seq<Request> {
    if events == [] then []
    else
      var e := events[|events| - 1];
      Requests(events[..|events| - 1]) + (if e.Host? then [e.request] else [])
  }

  predicate NoDrop(events: seq<Event>) {
    forall e | e in events :: e.Host?
  }

  lemma {:induction false} ApplyAllConcat(v: View, a: seq<Request>, b: seq<Request>)
    ensures ApplyAll(v, a + b) == ApplyAll(ApplyAll(v, a), b)
  {
    if b == [] {
      assert a + b == a;
    } else {
      assert (a + b)[..|a + b| - 1] == a + b[..|b| - 1];
      ApplyAllConcat(v, a, b[..|b| - 1]);
    }
  }

  /** The relation between a view still waiting for its controller and the reference view. */
  ghost predicate Waiting(v: View, r: View, navigation: Option<Navigation>) {
    && v.alive && !v.ready && r.ready && r.alive
    && r.native.window == v.native.window
    && r.native.shown == r.visible == v.visible == v.native.shown
    && r.native.visible == Some(v.visible)
    && (v.pendingBounds.Some? ==> r.native.bounds == Some(v.pendingBounds.value.0) && r.native.window == v.pendingBounds.value)
    && (v.pendingBounds.None? ==> r.native.bounds.None? && v.native.bounds.None?)
    && LastOf(r.native.navigations) == (if v.pendingNavigation.Some? then v.pendingNavigation else navigation)
  }

  lemma WaitingStep(v: View, r: View, navigation: Option<Navigation>, request: Request)
    requires Waiting(v, r, navigation)
    ensures Waiting(OnRequest(v, request), OnRequest(r, request), navigation)
    ensures OnRequest(v, request).native.navigations == v.native.navigations
  {
  }

  lemma RequestsPush(events: seq<Event>)
    requires events != [] && NoDrop(events)
    ensures var front := events[..|events| - 1]; var e := events[|events| - 1];
      NoDrop(front) && e.Host? && Requests(events) == Requests(front) + [e.request]
      && forall r :: ApplyAll(r, Requests(events)) == OnRequest(ApplyAll(r, Requests(front)), e.request)
  {
  }

  lemma {:induction false} WaitingKept(v: View, r: View, navigation: Option<Navigation>, events: seq<Event>)
    requires Waiting(v, r, navigation) && NoDrop(events)
    ensures Waiting(OnHostAll(v, events), ApplyAll(r, Requests(events)), navigation)
    ensures OnHostAll(v, events).native.navigations == v.native.navigations
  {
    if events != [] {
      var front := events[..|events| - 1];
      RequestsPush(events);
      WaitingKept(v, r, navigation, front);
      WaitingStep(OnHostAll(v, front), ApplyAll(r, Requests(front)), navigation, events[|events| - 1].request);
    }
  }

  lemma ReadyStep(v: View, r: View, request: Request)
    requires v.ready && r.ready && Observe(v) == Observe(r)
    ensures OnRequest(v, request).ready && OnRequest(v, request).alive == v.alive && OnRequest(r, request).ready
    ensures Observe(OnRequest(v, request)) == Observe(OnRequest(r, request))
  {
  }

  /** Two ready views that look the same keep looking the same. */
  lemma {:induction false} ReadyKept(v: View, r: View, events: seq<Event>)
    requires v.alive && v.ready && r.ready && Observe(v) == Observe(r) && NoDrop(events)
    ensures OnHostAll(v, events).ready && OnHostAll(v, events).alive && ApplyAll(r, Requests(events)).ready
    ensures Observe(OnHostAll(v, events)) == Observe(ApplyAll(r, Requests(events)))
  {
    if events != [] {
      var front := events[..|events| - 1];
      RequestsPush(events);
      ReadyKept(v, r, front);
      ReadyStep(OnHostAll(v, front), ApplyAll(r, Requests(front)), events[|events| - 1].request);
    }
  }

  /**
   Deferring is invisible: whatever was requested before, while and after the
   controller was finished, container position and visibility, controller bounds
   and visibility, and the page are those of a view that was ready from the start
   and saw every request in order.
   */
  lemma DeferredRefinesReady(a: Attributes, before: seq<Event>, during: seq<Event>, after: seq<Event>)
    requires NoDrop(before) && NoDrop(during) && NoDrop(after)
    ensures var finished := OnFinish(OnHostAll(Create(a), before), a, true, during);
      Observe(OnHostAll(finished, after))
      == Observe(ApplyAll(ReadyView(a), Requests(before) + Requests(during) + Requests(after)))
  {
    var v0, r0 := Create(a), ReadyView(a);
    assert Waiting(v0, r0, a.navigation);
    WaitingKept(v0, r0, a.navigation, before);
    var v1, r1 := OnHostAll(v0, before), ApplyAll(r0, Requests(before));
    var v2 := InitWebView(v1, v1.visible, a.navigation);
    assert LastOf(v2.native.navigations) == a.navigation;
    WaitingKept(v2, r1, a.navigation, during);
    var v3, r3 := OnHostAll(v2, during), ApplyAll(r1, Requests(during));
    assert Observe(Replay(v3)) == Observe(r3);
    ReadyKept(Replay(v3), r3, after);
    ApplyAllConcat(r0, Requests(before), Requests(during));
    ApplyAllConcat(r0, Requests(before) + Requests(during), Requests(after));
  }

  // What the user ends up looking at, from the requests alone.

  function LastVisible(requests: seq<Request>, first: bool): bool {
    if requests == [] then first
    else
      var last := requests[|requests| - 1];
      if last.SetVisible? then last.on else LastVisible(requests[..|requests| - 1], first)
  }

  function LastBounds(requests: seq<Request>): Option<(Size, Position)> {
    if requests == [] then None
    else
      var last := requests[|requests| - 1];
      if last.SetBounds? then Some((last.size, last.position)) else LastBounds(requests[..|requests| - 1])
  }

  function LastLoad(requests: seq<Request>, first: Option<Navigation>): Option<Navigation> {
    if requests == [] then first
    else
      var last := requests[|requests| - 1];
      if last.Load? then Some(last.navigation) else LastLoad(requests[..|requests| - 1], first)
  }

  /** The last request of each kind decides; what was never asked for is as the view was created. */
  function Wanted(a: Attributes, requests: seq<Request>): Outcome {
    var bounds, visible := LastBounds(requests), LastVisible(requests, a.visible);
    Outcome(if bounds.Some? then bounds.value else a.window, visible,
            if bounds.Some? then Some(bounds.value.0) else None, Some(visible), LastLoad(requests, a.navigation))
  }

  /** What one request does to a ready view. */
  lemma ReadyViewObeysOne(v: View, r: Request)
    requires v.ready
    ensures OnRequest(v, r).ready
    ensures var o := Observe(v);
      Observe(OnRequest(v, r)) ==
        match r
        case SetBounds(size, position) => o.(window := (size, position), bounds := Some(size))
        case SetVisible(on) => o.(shown := on, visible := Some(on))
        case Load(navigation) => o.(page := Some(navigation))
  {
  }

  lemma {:induction false} ReadyViewObeys(a: Attributes, requests: seq<Request>)
    ensures ApplyAll(ReadyView(a), requests).ready
    ensures Observe(ApplyAll(ReadyView(a), requests)) == Wanted(a, requests)
  {
    if requests != [] {
      var front := requests[..|requests| - 1];
      ReadyViewObeys(a, front);
      ReadyViewObeysOne(ApplyAll(ReadyView(a), front), requests[|requests| - 1]);
    }
  }

  /** Whenever the controller comes, the user sees what the last request of each kind asked for. */
  lemma DeferredObeysLastRequests(a: Attributes, before: seq<Event>, during: seq<Event>, after: seq<Event>)
    requires NoDrop(before) && NoDrop(during) && NoDrop(after)
    ensures Observe(OnHostAll(OnFinish(OnHostAll(Create(a), before), a, true, during), after))
            == Wanted(a, Requests(before) + Requests(during) + Requests(after))
  {
    DeferredRefinesReady(a, before, during, after);
    ReadyViewObeys(a, Requests(before) + Requests(during) + Requests(after));
  }

  // Closing.

  predicate Delivered(events: seq<Event>) {
    events != [] && (events[|events| - 1].Finish? || Delivered(events[..|events| - 1]))
  }

  predicate InitFailed(events: seq<Event>) {
    events != [] && ((events[|events| - 1].Finish? && !events[|events| - 1].initOk) || InitFailed(events[..|events| - 1]))
  }

  /** At most one controller is ever delivered to a view. */
  predicate IsHistory(events: seq<Event>) {
    events != [] ==>
      var front, e := events[..|events| - 1], events[|events| - 1];
      IsHistory(front) && (e.Finish? ==> HostOnly(e.during) && !Delivered(front))
  }

  function After(a: Attributes, events: seq<Event>): View
    requires IsHistory(events)
  {
    if events == [] then Create(a)
    else
      var v, e := After(a, events[..|events| - 1]), events[|events| - 1];
      if e.Finish? then OnFinish(v, a, e.initOk, e.during) else OnHost(v, e)
  }

  lemma {:induction false} HostNeverCloses(v: View, events: seq<Event>)
    requires !v.ready && HostOnly(events)
    ensures var v' := OnHostAll(v, events);
      !v'.ready && v'.native.closes == v.native.closes && (!v.alive ==> v' == v)
  {
    if events != [] {
      HostNeverCloses(v, events[..|events| - 1]);
    }
  }

  /** `closes` and `ready` as they must be once `delivered` and `failed` tell whether a controller came and was refused. */
  predicate Accounted(v: View, delivered: bool, failed: bool) {
    && (failed ==> delivered)
    && v.native.closes == (if delivered && (failed || !v.alive) then 1 else 0)
    && (v.ready <==> delivered && !failed && v.alive)
  }

  lemma FinishAccounted(v: View, a: Attributes, initOk: bool, during: seq<Event>)
    requires HostOnly(during) && Accounted(v, false, false)
    ensures Accounted(OnFinish(v, a, initOk, during), true, !initOk)
  {
    if v.alive {
      HostNeverCloses(InitWebView(v, v.visible, a.navigation), during);
    }
  }

  /**
   In every history a delivered controller is closed at most once, and it is closed
   exactly if its initialization failed or its owner is gone; otherwise the view
   uses it. Nothing is closed before a controller was delivered.
   */
  lemma {:induction false} ClosedExactlyOnce(a: Attributes, events: seq<Event>)
    requires IsHistory(events)
    ensures Accounted(After(a, events), Delivered(events), InitFailed(events))
  {
    if events != [] {
      var front, e := events[..|events| - 1], events[|events| - 1];
      ClosedExactlyOnce(a, front);
      if e.Finish? {
        FinishAccounted(After(a, front), a, e.initOk, e.during);
      }
    }
  }

  lemma Push(a: Attributes, events: seq<Event>, e: Event)
    requires IsHistory(events) && (e.Finish? ==> HostOnly(e.during) && !Delivered(events))
    ensures IsHistory(events + [e])
    ensures After(a, events + [e]) ==
              if e.Finish? then OnFinish(After(a, events), a, e.initOk, e.during) else OnHost(After(a, events), e)
  {
    assert (events + [e])[..|events|] == events;
  }

  /** `events` is everything that happened to the view; all that is said above about histories holds of the object. */
  class InnerWebView {
    const attributes: Attributes
    var alive: bool
    var visible: bool
    var ready: bool
    var pendingBounds: Option<(Size, Position)>
    var pendingNavigation: Option<Navigation>
    var native: Native
    ghost var events: seq<Event>

    ghost predicate Valid()
      reads this
    {
      IsHistory(events) && State() == After(attributes, events)
    }

    ghost function State(): View
      reads this
    {
      View(alive, visible, ready, pendingBounds, pendingNavigation, native)
    }

    constructor (a: Attributes)
      ensures attributes == a && Valid() && events == []
    {
      attributes, events := a, [];
      alive, visible, ready := true, a.visible, false;
      pendingBounds, pendingNavigation := None, None;
      native := Native(a.window, a.visible, None, None, [], 0);
    }

    method SetBoundsInner(size: Size, position: Position)
      modifies this
      ensures State() == OnRequest(old(State()), SetBounds(size, position))
    {
      if ready {
        native := native.(bounds := Some(size));
        native := native.(window := (size, position));
        return;
      }
      pendingBounds := Some((size, position));
      native := native.(window := (size, position));
    }

    method SetVisibility(on: bool)
      modifies this
      ensures State() == OnRequest(old(State()), SetVisible(on))
    {
      visible := on;
      native := native.(shown := on);
      if ready {
        native := native.(visible := Some(on));
      }
    }

    method LoadPage(navigation: Navigation)
      modifies this
      ensures State() == OnRequest(old(State()), Load(navigation))
    {
      if ready {
        native := native.(navigations := native.navigations + [navigation]);
      } else {
        pendingNavigation := Some(navigation);
      }
    }

    method DropOwner()
      modifies this
      ensures State() == OnDrop(old(State()))
    {
      alive := false;
      var controller := ready;
      ready := false;
      if controller {
        native := native.(closes := native.closes + 1);
      }
    }

    method HostEvents(events: seq<Event>)
      requires HostOnly(events)
      modifies this
      ensures State() == OnHostAll(old(State()), events)
    {
      var i := 0;
      while i < |events|
        invariant 0 <= i <= |events|
        invariant State() == OnHostAll(old(State()), events[..i])
      {
        assert events[..i + 1][..i] == events[..i];
        assert HostOnly(events[..i + 1]);
        if alive {
          if events[i].Host? {
            match events[i].request
            case SetBounds(size, position) => SetBoundsInner(size, position);
            case SetVisible(on) => SetVisibility(on);
            case Load(navigation) => LoadPage(navigation);
          } else {
            DropOwner();
          }
        }
        i := i + 1;
      }
      assert events[..i] == events;
    }

    method Init()
      modifies this
      ensures State() == InitWebView(old(State()), old(visible), attributes.navigation)
    {
      if attributes.navigation.Some? {
        native := native.(navigations := native.navigations + [attributes.navigation.value]);
      } else {
        assert native.navigations + [] == native.navigations;
      }
      native := native.(visible := Some(visible));
    }

    method PublishAndReplay()
      modifies this
      ensures State() == Replay(old(State()))
    {
      ready := true;
      var bounds, navigation := pendingBounds, pendingNavigation;
      pendingBounds, pendingNavigation := None, None;
      native := native.(shown := visible);
      native := native.(visible := Some(visible));
      if bounds.Some? {
        native := native.(bounds := Some(bounds.value.0));
        native := native.(window := bounds.value);
      }
      if navigation.Some? {
        native := native.(navigations := native.navigations + [navigation.value]);
      }
    }

    method FinishCreateController(initOk: bool, during: seq<Event>)
      requires HostOnly(during)
      modifies this
      ensures State() == OnFinish(old(State()), attributes, initOk, during)
    {
      if !alive {
        native := native.(closes := native.closes + 1);
        return;
      }
      Init();
      HostEvents(during);
      if !initOk || !alive {
        native := native.(closes := native.closes + 1);
        return;
      }
      PublishAndReplay();
    }

    /** A request, the drop of the owner, or the one controller that ever arrives. */
    method Deliver(e: Event)
      requires Valid() && (e.Finish? ==> HostOnly(e.during) && !Delivered(events))
      modifies this
      ensures Valid() && events == old(events) + [e]
    {
      ghost var before := events;
      Push(attributes, before, e);
      if e.Finish? {
        FinishCreateController(e.initOk, e.during);
      } else {
        HostEvents([e]);
        assert [e][..0] == [];
      }
      events := before + [e];
    }
  }
}
