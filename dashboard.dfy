/**
 * The same-page event bus (`window.addEventListener` / `dispatchEvent`) and
 * the dashboard page wired onto it.
 *
 * A publication runs every registered handler for the event's name, in
 * registration order, synchronously. What a handler triggers afterwards (the
 * tool panels' `tool-panel-expanded` publication from their effect, the
 * weather card's network request) is returned to the caller rather than run.
 */
module Dashboard {
  import opened Wrappers
  import opened Events
  import opened Storage
  import ToolPanel
  import ModernTasks
  import NewIndex
  import ClockWidget
  import WeatherWidget

  /** A registered handler set, by the widget instance that registered it. */
  datatype Listener =
    | ToolPanelListener(tool: ToolPanel.Panel)
    | TasksListener(tasks: ModernTasks.Panel)
    | PageListener(page: NewIndex.Page)
    | ClockListener(clock: ClockWidget.Clock)
    | WeatherListener(weather: WeatherWidget.Widget)

  function Obj(l: Listener): object {
    match l
    case ToolPanelListener(p) => p
    case TasksListener(p) => p
    case PageListener(p) => p
    case ClockListener(c) => c
    case WeatherListener(w) => w
  }

  /** The event names each widget registers a handler for. */
  function Names(l: Listener): set<string> {
    match l
    case ToolPanelListener(_) => {"expandPanel"}
    case TasksListener(_) => {"expandPanel"}
    case PageListener(_) => {"userNameChanged", "clockTypeChanged", "themeChanged", "advancedFeaturesChanged"}
    case ClockListener(_) => {"clockTypeChanged", "userNameChanged"}
    case WeatherListener(_) => {"weatherLocationChanged"}
  }

  /** The part of a widget's state its handlers set. */
  datatype View =
    | ToolView(category: string, position: string, expanded: bool)
    | TasksView(expanded: bool)
    | PageView(userName: string, clockStyle: string, theme: string, advanced: bool, bookmarksOpen: bool)
    | ClockView(isDigital: bool, name: string)
    | WeatherView(location: Option<string>, useCustom: bool)

  function ViewOf(l: Listener): View
    reads Obj(l)
  {
    match l
    case ToolPanelListener(p) => ToolView(p.category, p.position, p.isExpanded)
    case TasksListener(p) => TasksView(p.isExpanded)
    case PageListener(p) => PageView(p.userName, p.clockStyle, p.theme, p.advancedFeaturesEnabled, p.isBookmarksOpen)
    case ClockListener(c) => ClockView(c.isDigital, c.userName)
    case WeatherListener(w) => WeatherView(w.customLocation, w.useCustomLocation)
  }

  /** What one delivery of `e` does to a widget's view; events it has no handler for change nothing. */
  function Deliver(v: View, e: Event): View {
    match (v, e)
    case (ToolView(c, p, x), ExpandPanel(target)) => ToolView(c, p, ToolPanel.ExpandedAfter(c, x, target))
    case (TasksView(x), ExpandPanel(target)) => TasksView(ModernTasks.ExpandedAfter(x, target))
    case (PageView(_, s, t, a, o), UserNameChanged(n)) => PageView(n, s, t, a, o)
    case (PageView(n, _, t, a, o), ClockTypeChanged(d)) => PageView(n, NewIndex.ClockStyleFor(d), t, a, o)
    case (PageView(n, s, _, a, o), ThemeChanged(theme)) => PageView(n, s, NewIndex.ThemeModeFor(theme), a, o)
    case (PageView(n, s, t, _, o), AdvancedFeaturesChanged(b)) => PageView(n, s, t, b, o)
    case (ClockView(_, n), ClockTypeChanged(d)) => ClockView(d, n)
    case (ClockView(d, _), UserNameChanged(n)) => ClockView(d, n)
    case (WeatherView(_, _), WeatherLocationChanged(l, u)) => WeatherView(Some(l), u)
    case _ => v
  }

  /** The `tool-panel-expanded` publication a delivery triggers: a tool panel that opens announces itself. */
  function FollowUp(v: View, e: Event): Option<Event> {
    if v.ToolView? && !v.expanded && Deliver(v, e).expanded then Some(ToolPanelExpanded(v.category, v.position))
    else None
  }

  /** An optional event as a list of zero or one events. */
  function Listed(o: Option<Event>): seq<Event> {
    match o
    case Some(f) => [f]
    case None => []
  }

  /** The follow-ups of delivering `e` to the views in order. */
  function FollowUps(views: seq<View>, e: Event): seq<Event> {
    if views == [] then []
    else FollowUps(views[..|views| - 1], e) + Listed(FollowUp(views[|views| - 1], e))
  }

  /** One more delivery adds that delivery's follow-up at the end. */
  lemma FollowUpsStep(views: seq<View>, i: nat, e: Event)
    requires i < |views|
    ensures FollowUps(views[..i + 1], e) == FollowUps(views[..i], e) + Listed(FollowUp(views[i], e))
  {
    assert views[..i + 1][..i] == views[..i];
  }

  /** The views of a list of registered widgets. */
  function ViewsOf(ls: seq<Listener>): (r: seq<View>)
    reads set l | l in ls :: Obj(l)
    ensures |r| == |ls|
    ensures forall i :: 0 <= i < |ls| ==> r[i] == ViewOf(ls[i])
  {
    if ls == [] then [] else ViewsOf(ls[..|ls| - 1]) + [ViewOf(ls[|ls| - 1])]
  }

  /** A delivery changes a widget only for the names it registered. */
  lemma DeliverOnlyRegistered(l: Listener, v: View, e: Event)
    requires v == ViewOf(l)
    requires Name(e) !in Names(l)
    ensures Deliver(v, e) == v
  {
  }

  /**
   * After any `expandPanel`, every open tool panel is the one named by the
   * event; with distinct categories, at most one tool panel is open.
   */
  lemma ExpandPanelExclusive(views: seq<View>, c: string)
    requires forall i, j :: 0 <= i < j < |views| && views[i].ToolView? && views[j].ToolView? ==> views[i].category != views[j].category
    ensures forall i :: 0 <= i < |views| && views[i].ToolView? && Deliver(views[i], ExpandPanel(c)).expanded ==> views[i].category == c
    ensures forall i, j :: (0 <= i < |views| && 0 <= j < |views| && views[i].ToolView? && views[j].ToolView? &&
                            Deliver(views[i], ExpandPanel(c)).expanded && Deliver(views[j], ExpandPanel(c)).expanded) ==> i == j
  {
  }

  /** An `expandPanel` for a tool category leaves an open tasks panel open. */
  lemma TasksPanelStaysOpen(c: string)
    requires c != "tasks" && c != "none"
    ensures Deliver(TasksView(true), ExpandPanel(c)) == TasksView(true)
  {
    ModernTasks.NotExclusive(c);
  }

  /** `expandPanel` for 'none' closes every tool panel (whose category is not 'none') and the tasks panel. */
  lemma NoneClosesAll(v: View)
    requires v.ToolView? ==> v.category != "none"
    ensures (v.ToolView? || v.TasksView?) ==> !Deliver(v, ExpandPanel("none")).expanded
  {
  }

  /** No widget handles `tool-panel-expanded`, so the follow-ups of a publication change nothing. */
  lemma ToolPanelExpandedUnheard(v: View, category: string, position: string)
    ensures Deliver(v, ToolPanelExpanded(category, position)) == v
    ensures FollowUp(v, ToolPanelExpanded(category, position)) == None
  {
  }

  /** A follow-up is only ever a `tool-panel-expanded` announcement. */
  lemma {:induction false} FollowUpsAreAnnouncements(views: seq<View>, e: Event)
    ensures forall f :: f in FollowUps(views, e) ==> f.ToolPanelExpanded?
    ensures !e.ExpandPanel? ==> FollowUps(views, e) == []
  {
    if views != [] {
      FollowUpsAreAnnouncements(views[..|views| - 1], e);
    }
  }

  class Bus {
    var listeners: seq<Listener>

    /** Each registered widget instance appears once. */
    ghost predicate Valid()
      reads this
    {
      Distinct(listeners)
    }

    ghost function Objects(): set<object>
      reads this
    {
      set l | l in listeners :: Obj(l)
    }

    constructor ()
      ensures listeners == [] && Valid()
    {
      listeners := [];
    }

    /** A set of widgets registering their handlers one after another. */
    constructor Registering(ls: seq<Listener>)
      requires Distinct(ls)
      ensures listeners == ls && Valid()
    {
      listeners := ls;
    }

    /** A widget's mount effect registering its handlers. */
    method Subscribe(l: Listener)
      requires Valid() && Obj(l) !in Objects()
      modifies this
      ensures listeners == old(listeners) + [l] && Valid()
    {
      listeners := listeners + [l];
    }

    /** `window.dispatchEvent(e)`: every handler registered for the event's name runs, in order. */
    method Publish(e: Event, now: int, geo: WeatherWidget.Geolocation)
      returns (followUps: seq<Event>, requests: seq<WeatherWidget.Request>)
      requires Valid()
      modifies Objects()
      ensures listeners == old(listeners)
      ensures forall i :: 0 <= i < |listeners| ==> ViewOf(listeners[i]) == Deliver(old(ViewOf(listeners[i])), e)
      ensures followUps == FollowUps(old(ViewsOf(listeners)), e)
      ensures forall r :: r in requests ==> (e.WeatherLocationChanged? &&
                                             r == WeatherWidget.ChangeRequest(e.location, e.useCustomLocation, geo))
    {
      forall l | l in listeners
        ensures Obj(l) != this
      {
        NotTheBus(l, this);
      }
      followUps, requests := PublishTo(listeners, e, now, geo);
    }
  }

  /** A registered widget is never the bus itself, so a publication cannot change the registrations. */
  lemma NotTheBus(l: Listener, b: Bus)
    ensures Obj(l) != b
  {
    match l
    case ToolPanelListener(p) =>
    case TasksListener(p) =>
    case PageListener(p) =>
    case ClockListener(c) =>
    case WeatherListener(w) =>
  }

  /** Two different entries of the list are different widget instances. */
  ghost predicate Distinct(ls: seq<Listener>) {
    forall i, j :: 0 <= i < j < |ls| ==> Obj(ls[i]) != Obj(ls[j])
  }

  /** Every request is the weather card's reaction to a `weatherLocationChanged` event `e`. */
  predicate ChangeRequests(requests: seq<WeatherWidget.Request>, e: Event, geo: WeatherWidget.Geolocation) {
    forall r :: r in requests ==> e.WeatherLocationChanged? &&
                                  r == WeatherWidget.ChangeRequest(e.location, e.useCustomLocation, geo)
  }

  /** The delivery loop of a publication over the registered handlers `ls`. */
  method PublishTo(ls: seq<Listener>, e: Event, now: int, geo: WeatherWidget.Geolocation)
    returns (followUps: seq<Event>, requests: seq<WeatherWidget.Request>)
    requires Distinct(ls)
    modifies set l | l in ls :: Obj(l)
    ensures forall i :: 0 <= i < |ls| ==> ViewOf(ls[i]) == Deliver(old(ViewOf(ls[i])), e)
    ensures followUps == FollowUps(old(ViewsOf(ls)), e)
    ensures ChangeRequests(requests, e, geo)
  {
    ghost var before := ViewsOf(ls);
    followUps := [];
    requests := [];
    var i := 0;
    while i < |ls|
      invariant 0 <= i <= |ls|
      invariant forall j :: 0 <= j < i ==> ViewOf(ls[j]) == Deliver(before[j], e)
      invariant forall j :: i <= j < |ls| ==> ViewOf(ls[j]) == before[j]
      invariant followUps == FollowUps(before[..i], e)
      invariant ChangeRequests(requests, e, geo)
    {
      var f, r := DeliverAt(ls, i, e, now, geo);
      FollowUpsStep(before, i, e);
      followUps := followUps + Listed(f);
      if r.Some? {
        requests := requests + [r.value];
      }
      i := i + 1;
    }
    assert before[..i] == before;
  }

  /** Delivers `e` to the `i`-th registered widget; the other widgets, being other instances, are untouched. */
  method DeliverAt(ls: seq<Listener>, i: nat, e: Event, now: int, geo: WeatherWidget.Geolocation)
    returns (followUp: Option<Event>, request: Option<WeatherWidget.Request>)
    requires Distinct(ls) && i < |ls|
    modifies Obj(ls[i])
    ensures ViewOf(ls[i]) == Deliver(old(ViewOf(ls[i])), e)
    ensures forall j :: 0 <= j < |ls| && j != i ==> ViewOf(ls[j]) == old(ViewOf(ls[j]))
    ensures followUp == FollowUp(old(ViewOf(ls[i])), e)
    ensures request.Some? ==> (e.WeatherLocationChanged? &&
                               request.value == WeatherWidget.ChangeRequest(e.location, e.useCustomLocation, geo))
  {
    followUp, request := DeliverTo(ls[i], e, now, geo);
    forall j | 0 <= j < |ls| && j != i
      ensures ViewOf(ls[j]) == old(ViewOf(ls[j]))
    {
      assert Obj(ls[j]) != Obj(ls[i]);
    }
  }

  /** Runs one widget's handler for `e`, if it registered one. */
  method DeliverTo(l: Listener, e: Event, now: int, geo: WeatherWidget.Geolocation)
    returns (followUp: Option<Event>, request: Option<WeatherWidget.Request>)
    modifies Obj(l)
    ensures ViewOf(l) == Deliver(old(ViewOf(l)), e)
    ensures followUp == FollowUp(old(ViewOf(l)), e)
    ensures request.Some? ==> (e.WeatherLocationChanged? &&
                               request.value == WeatherWidget.ChangeRequest(e.location, e.useCustomLocation, geo))
  {
    followUp := None;
    request := None;
    match l
    case ToolPanelListener(p) =>
      if e.ExpandPanel? {
        followUp := p.HandlePanelExpand(e.category);
      }
    case TasksListener(p) =>
      if e.ExpandPanel? {
        p.HandlePanelExpand(e.category);
      }
    case PageListener(p) =>
      match e {
        case UserNameChanged(n) => p.HandleUserNameChange(n);
        case ClockTypeChanged(d) => p.HandleClockTypeChange(d);
        case ThemeChanged(t) => p.HandleThemeChange(t);
        case AdvancedFeaturesChanged(b) => p.HandleAdvancedFeaturesChange(b);
        case _ =>
      }
    case ClockListener(c) =>
      match e {
        case ClockTypeChanged(d) => c.HandleClockTypeChange(d);
        case UserNameChanged(n) => c.HandleUserNameChange(n);
        case _ =>
      }
    case WeatherListener(w) =>
      if e.WeatherLocationChanged? {
        var r := w.HandleLocationChange(e.location, e.useCustomLocation, geo, now);
        if r != WeatherWidget.NoRequest {
          request := Some(r);
        }
      }
  }

  /**
   * The dashboard page as mounted: the widgets that register `window`
   * handlers, all on one store, registered in the order their mount effects
   * run (children first, in document order, then the page itself).
   */
  class Board {
    const store: Store
    const weather: WeatherWidget.Widget
    const tasks: ModernTasks.Panel
    const ai: ToolPanel.Panel
    const social: ToolPanel.Panel
    const google: ToolPanel.Panel
    const microsoft: ToolPanel.Panel
    const page: NewIndex.Page
    const bus: Bus

    function Registered(): seq<Listener> {
      [WeatherListener(weather), TasksListener(tasks), ToolPanelListener(ai), ToolPanelListener(social),
       ToolPanelListener(google), ToolPanelListener(microsoft), PageListener(page)]
    }

    ghost predicate Valid()
      reads this, bus
    {
      bus.listeners == Registered() && Distinct(Registered()) &&
      ai.category == "ai" && social.category == "social" && google.category == "google" && microsoft.category == "microsoft"
    }

    /**
     * The page's widgets, each mounted once on `store`, registering their
     * handlers in mount order.
     */
    constructor (store: Store, weather: WeatherWidget.Widget, tasks: ModernTasks.Panel, ai: ToolPanel.Panel,
                 social: ToolPanel.Panel, google: ToolPanel.Panel, microsoft: ToolPanel.Panel, page: NewIndex.Page)
      requires ai.category == "ai" && social.category == "social" && google.category == "google" && microsoft.category == "microsoft"
      requires ai != social && ai != google && ai != microsoft && social != google && social != microsoft && google != microsoft
      ensures Valid() && this.store == store
      ensures this.weather == weather && this.tasks == tasks && this.page == page
      ensures this.ai == ai && this.social == social && this.google == google && this.microsoft == microsoft
    {
      this.store := store;
      this.weather, this.tasks, this.ai, this.social, this.google, this.microsoft, this.page :=
        weather, tasks, ai, social, google, microsoft, page;
      var ls := [WeatherListener(weather), TasksListener(tasks), ToolPanelListener(ai), ToolPanelListener(social),
                 ToolPanelListener(google), ToolPanelListener(microsoft), PageListener(page)];
      SevenDistinct(ls, weather, tasks, ai, social, google, microsoft, page);
      bus := new Bus.Registering(ls);
    }

    /**
     * A mouse-down outside every panel: the page closes its bookmarks overlay
     * and publishes `expandPanel` for 'none', which closes all four tool panels
     * and the tasks panel; nothing opens, so nothing is announced.
     */
    method ClickOutside(now: int, geo: WeatherWidget.Geolocation) returns (followUps: seq<Event>)
      requires Valid()
      modifies weather, tasks, ai, social, google, microsoft, page
      ensures Valid()
      ensures !page.isBookmarksOpen
      ensures !ai.isExpanded && !social.isExpanded && !google.isExpanded && !microsoft.isExpanded && !tasks.isExpanded
      ensures followUps == []
    {
      var ls := bus.listeners;
      Covered(ls, {weather, tasks, ai, social, google, microsoft, page});
      var published := page.MouseDown(false);
      ghost var closed := ViewsOf(ls);
      assert BoardShape(closed);
      var requests;
      followUps, requests := bus.Publish(published.value, now, geo);
      ghost var after := ViewsOf(ls);
      BoardExpand(closed, after, "none");
      BoardAnnouncements(closed, "none");
      assert after[1] == ViewOf(ls[1]) && after[6] == ViewOf(ls[6]);
    }

    /** An `expandPanel` for one of the tool categories: that panel flips, the other three close. */
    method ExpandTool(c: string, now: int, geo: WeatherWidget.Geolocation) returns (followUps: seq<Event>)
      requires Valid()
      modifies weather, tasks, ai, social, google, microsoft, page
      ensures Valid()
      ensures ai.isExpanded == (c == "ai" && !old(ai.isExpanded))
      ensures social.isExpanded == (c == "social" && !old(social.isExpanded))
      ensures google.isExpanded == (c == "google" && !old(google.isExpanded))
      ensures microsoft.isExpanded == (c == "microsoft" && !old(microsoft.isExpanded))
      ensures tasks.isExpanded == ModernTasks.ExpandedAfter(old(tasks.isExpanded), c)
      ensures |followUps| <= 1
    {
      var ls := bus.listeners;
      Covered(ls, {weather, tasks, ai, social, google, microsoft, page});
      ghost var before := ViewsOf(ls);
      assert BoardShape(before);
      var requests;
      followUps, requests := bus.Publish(ExpandPanel(c), now, geo);
      ghost var after := ViewsOf(ls);
      BoardExpand(before, after, c);
      BoardAnnouncements(before, c);
      assert after[1] == ViewOf(ls[1]) && after[2] == ViewOf(ls[2]) && after[3] == ViewOf(ls[3]);
      assert after[4] == ViewOf(ls[4]) && after[5] == ViewOf(ls[5]);
    }
  }

  /** The board's registrations as views: the weather card, the tasks panel, the four tool panels in order, the page. */
  ghost predicate BoardShape(vs: seq<View>) {
    |vs| == 7 && vs[0].WeatherView? && vs[1].TasksView? &&
    vs[2].ToolView? && vs[2].category == "ai" && vs[3].ToolView? && vs[3].category == "social" &&
    vs[4].ToolView? && vs[4].category == "google" && vs[5].ToolView? && vs[5].category == "microsoft" &&
    vs[6].PageView?
  }

  /** What `expandPanel` does to one view: tool panels and the tasks panel react, the other widgets do not. */
  lemma DeliverExpand(v: View, c: string)
    ensures v.ToolView? ==> Deliver(v, ExpandPanel(c)) == v.(expanded := ToolPanel.ExpandedAfter(v.category, v.expanded, c))
    ensures v.TasksView? ==> Deliver(v, ExpandPanel(c)) == TasksView(ModernTasks.ExpandedAfter(v.expanded, c))
    ensures !v.ToolView? && !v.TasksView? ==> Deliver(v, ExpandPanel(c)) == v
  {
  }

  /**
   * One `expandPanel` for `c` delivered to the board: the named tool panel
   * flips, the other three close, the tasks panel follows its own rule and
   * the page is untouched.
   */
  lemma BoardExpand(before: seq<View>, after: seq<View>, c: string)
    requires BoardShape(before)
    requires |after| == 7 && forall i :: 0 <= i < 7 ==> after[i] == Deliver(before[i], ExpandPanel(c))
    ensures after[1] == TasksView(ModernTasks.ExpandedAfter(before[1].expanded, c))
    ensures after[2] == before[2].(expanded := c == "ai" && !before[2].expanded)
    ensures after[3] == before[3].(expanded := c == "social" && !before[3].expanded)
    ensures after[4] == before[4].(expanded := c == "google" && !before[4].expanded)
    ensures after[5] == before[5].(expanded := c == "microsoft" && !before[5].expanded)
    ensures after[6] == before[6]
  {
    DeliverExpand(before[1], c);
    DeliverExpand(before[2], c);
    DeliverExpand(before[3], c);
    DeliverExpand(before[4], c);
    DeliverExpand(before[5], c);
    DeliverExpand(before[6], c);
  }

  /** On the board at most one panel announces itself after an `expandPanel`, and none after 'none'. */
  lemma BoardAnnouncements(before: seq<View>, c: string)
    requires BoardShape(before)
    ensures |FollowUps(before, ExpandPanel(c))| <= 1
    ensures c == "none" ==> FollowUps(before, ExpandPanel(c)) == []
  {
    AtMostOneAnnouncement(before, c);
    if c == "none" {
      NoFollowUpOnNone(before);
    }
  }

  /** Seven widget instances known pairwise different, registered in this order, are distinct. */
  lemma SevenDistinct(ls: seq<Listener>, o0: object, o1: object, o2: object, o3: object, o4: object, o5: object, o6: object)
    requires |ls| == 7
    requires Obj(ls[0]) == o0 && Obj(ls[1]) == o1 && Obj(ls[2]) == o2 && Obj(ls[3]) == o3
    requires Obj(ls[4]) == o4 && Obj(ls[5]) == o5 && Obj(ls[6]) == o6
    requires o0 != o1 && o0 != o2 && o0 != o3 && o0 != o4 && o0 != o5 && o0 != o6
    requires o1 != o2 && o1 != o3 && o1 != o4 && o1 != o5 && o1 != o6
    requires o2 != o3 && o2 != o4 && o2 != o5 && o2 != o6
    requires o3 != o4 && o3 != o5 && o3 != o6
    requires o4 != o5 && o4 != o6 && o5 != o6
    ensures Distinct(ls)
  {
  }

  /** A frame given as a set of objects covers every registered widget in it. */
  lemma Covered(ls: seq<Listener>, objs: set<object>)
    requires forall k :: 0 <= k < |ls| ==> Obj(ls[k]) in objs
    ensures (set l | l in ls :: Obj(l)) <= objs
  {
  }

  /** Closing everything opens nothing, so no panel announces itself. */
  lemma {:induction false} NoFollowUpOnNone(views: seq<View>)
    requires forall i :: 0 <= i < |views| && views[i].ToolView? ==> views[i].category != "none"
    ensures FollowUps(views, ExpandPanel("none")) == []
  {
    if views != [] {
      NoFollowUpOnNone(views[..|views| - 1]);
    }
  }

  /** With distinct tool categories, one `expandPanel` makes at most one panel announce itself. */
  lemma {:induction false} AtMostOneAnnouncement(views: seq<View>, c: string)
    requires forall i, j :: 0 <= i < j < |views| && views[i].ToolView? && views[j].ToolView? ==> views[i].category != views[j].category
    ensures |FollowUps(views, ExpandPanel(c))| <= 1
    ensures forall f :: f in FollowUps(views, ExpandPanel(c)) ==> f.ToolPanelExpanded? && f.category == c
  {
    if views != [] {
      var init := views[..|views| - 1];
      AtMostOneAnnouncement(init, c);
      var last := views[|views| - 1];
      if FollowUp(last, ExpandPanel(c)).Some? && FollowUps(init, ExpandPanel(c)) != [] {
        NoAnnouncementFrom(init, c);
        assert false;
      }
    }
  }

  lemma {:induction false} NoAnnouncementFrom(views: seq<View>, c: string)
    requires forall i :: 0 <= i < |views| && views[i].ToolView? ==> views[i].category != c
    ensures FollowUps(views, ExpandPanel(c)) == []
  {
    if views != [] {
      NoAnnouncementFrom(views[..|views| - 1], c);
    }
  }
}
