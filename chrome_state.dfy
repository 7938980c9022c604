/** The shell's chrome as values: the descriptor registered for a route,
    what the chrome elements look like, and what a route change and a click on
    the search button do to them. The classes in module Chrome are proved
    against these functions. */
module ChromeState {
  import opened Wrappers

  /** The descriptor registered for a route. `currentTab` is the id of the tab
      to mark active; absent or empty leaves the tabs' marks alone. */
  datatype RouteState = RouteState(
    backlink: bool,
    subtitle: bool,
    search: bool,
    showTabs: bool,
    currentTab: Option<string>)

  /** `options.currentTab` is truthy. */
  predicate SelectsTab(o: RouteState) {
    o.currentTab.Some? && o.currentTab.value != ""
  }

  /** A tab: its id, whether it carries `hidden`, whether it carries `activetab`. */
  datatype TabView = TabView(id: string, hidden: bool, active: bool)

  /** The chrome: `hidden` on the backlink, the subtitle and the search form,
      the tabs, and the shell's `_currentState` (`None` is the initial `{}`). */
  datatype ShellView = ShellView(
    backlinkHidden: bool,
    subtitleHidden: bool,
    searchHidden: bool,
    tabs: seq<TabView>,
    current: Option<RouteState>)

  /** `this._currentState.showTabs || false`. */
  function ShowTabs(current: Option<RouteState>): (show: bool)
    ensures current.None? ==> !show
    ensures current.Some? ==> (show <==> current.value.showTabs)
  {
    current.Some? && current.value.showTabs
  }

  /** `_updateTab(tab, options)`. */
  function RouteTab(t: TabView, o: RouteState): (r: TabView)
    ensures r.id == t.id
    ensures r.hidden <==> !o.showTabs
    ensures SelectsTab(o) ==> (r.active <==> t.id == o.currentTab.value)
    ensures !SelectsTab(o) ==> r.active == t.active
  {
    TabView(t.id, !o.showTabs, if SelectsTab(o) then t.id == o.currentTab.value else t.active)
  }

  function RouteTabs(tabs: seq<TabView>, o: RouteState): (r: seq<TabView>)
    ensures |r| == |tabs|
    ensures forall i :: 0 <= i < |tabs| ==> r[i] == RouteTab(tabs[i], o)
  {
    if tabs == [] then [] else [RouteTab(tabs[0], o)] + RouteTabs(tabs[1..], o)
  }

  /** `onRouteChange`, once the descriptor `o` has been looked up. */
  function AfterRoute(v: ShellView, o: RouteState): (r: ShellView)
    ensures r.current == Some(o)
    ensures r.backlinkHidden <==> !o.backlink
    ensures r.subtitleHidden <==> !o.subtitle
    ensures r.searchHidden <==> !o.search
    ensures |r.tabs| == |v.tabs|
    ensures forall i :: 0 <= i < |r.tabs| ==> r.tabs[i].id == v.tabs[i].id && (r.tabs[i].hidden <==> !o.showTabs)
    ensures SelectsTab(o) ==> forall i :: 0 <= i < |r.tabs| ==> (r.tabs[i].active <==> r.tabs[i].id == o.currentTab.value)
    ensures !SelectsTab(o) ==> forall i :: 0 <= i < |r.tabs| ==> r.tabs[i].active == v.tabs[i].active
  {
    ShellView(!o.backlink, !o.subtitle, !o.search, RouteTabs(v.tabs, o), Some(o))
  }

  /** Tabs hidden or shown together, marks kept. */
  function ShowAllTabs(tabs: seq<TabView>, visible: bool): (r: seq<TabView>)
    ensures |r| == |tabs|
    ensures forall i :: 0 <= i < |tabs| ==> r[i] == tabs[i].(hidden := !visible)
  {
    if tabs == [] then [] else [tabs[0].(hidden := !visible)] + ShowAllTabs(tabs[1..], visible)
  }

  /** The shell's `onShowForm` callback: every tab hidden. */
  function AfterShowForm(v: ShellView): (r: ShellView)
    ensures r.(tabs := v.tabs) == v && |r.tabs| == |v.tabs|
    ensures forall i :: 0 <= i < |r.tabs| ==> r.tabs[i] == v.tabs[i].(hidden := true)
  {
    v.(tabs := ShowAllTabs(v.tabs, false))
  }

  /** The shell's `onHideForm` callback: tabs as the current route says. */
  function AfterHideForm(v: ShellView): (r: ShellView)
    ensures r.(tabs := v.tabs) == v && |r.tabs| == |v.tabs|
    ensures forall i :: 0 <= i < |r.tabs| ==>
      r.tabs[i] == v.tabs[i].(hidden := v.current.None? || !v.current.value.showTabs)
  {
    v.(tabs := ShowAllTabs(v.tabs, ShowTabs(v.current)))
  }

  /** A click on the search button of the shell: the form's `hidden` flips and
      the matching callback runs. */
  function AfterClick(v: ShellView): (r: ShellView)
    ensures r.searchHidden == !v.searchHidden
    ensures r.backlinkHidden == v.backlinkHidden && r.subtitleHidden == v.subtitleHidden
    ensures r.current == v.current && |r.tabs| == |v.tabs|
    ensures forall i :: 0 <= i < |r.tabs| ==> r.tabs[i].id == v.tabs[i].id && r.tabs[i].active == v.tabs[i].active
    ensures forall i :: 0 <= i < |r.tabs| ==> (r.tabs[i].hidden <==> v.searchHidden || !ShowTabs(v.current))
  {
    if v.searchHidden then AfterShowForm(v.(searchHidden := false))
    else AfterHideForm(v.(searchHidden := true))
  }

  datatype Callback = NoCallback | ShowFormCallback | HideFormCallback

  /** What a click does besides flipping the form: the default action is
      prevented, the input is focused when the form opens, and at most one
      callback runs (none without options). */
  datatype ClickEffect = ClickEffect(defaultPrevented: bool, inputFocused: bool, callback: Callback)

  function ClickEffectOf(formHidden: bool, hasOptions: bool): (e: ClickEffect)
    ensures e.defaultPrevented
    ensures e.inputFocused <==> formHidden
    ensures !hasOptions ==> e.callback == NoCallback
    ensures hasOptions ==> e.callback == (if formHidden then ShowFormCallback else HideFormCallback)
  {
    ClickEffect(true, formHidden,
      if !hasOptions then NoCallback else if formHidden then ShowFormCallback else HideFormCallback)
  }

  // ---------------------------------------------------------------------
  // Properties

  /** Applying the same route twice gives the chrome of applying it once. */
  lemma AfterRouteIdempotent(v: ShellView, o: RouteState)
    ensures AfterRoute(AfterRoute(v, o), o) == AfterRoute(v, o)
  {
    var once := AfterRoute(v, o);
    var twice := AfterRoute(once, o);
    assert twice.tabs == once.tabs;
  }

  /** When the route names a tab, the chrome after the change does not depend
      on the chrome before it (beyond the tabs' ids). */
  lemma AfterRouteForgetsPast(v1: ShellView, v2: ShellView, o: RouteState)
    requires SelectsTab(o) && |v1.tabs| == |v2.tabs|
    requires forall i :: 0 <= i < |v1.tabs| ==> v1.tabs[i].id == v2.tabs[i].id
    ensures AfterRoute(v1, o) == AfterRoute(v2, o)
  {
    var r1, r2 := AfterRoute(v1, o), AfterRoute(v2, o);
    assert r1.tabs == r2.tabs;
  }

  /** Two clicks restore the form's `hidden` flag. */
  lemma TwoClicksRestoreForm(v: ShellView)
    ensures AfterClick(AfterClick(v)).searchHidden == v.searchHidden
  {
  }

  /** Opening then closing the form, without a route change in between,
      leaves the tabs as the current route says. */
  lemma OpenCloseShowsRouteTabs(v: ShellView)
    requires v.searchHidden
    ensures var r := AfterClick(AfterClick(v));
      r.searchHidden && forall i :: 0 <= i < |r.tabs| ==> (r.tabs[i].hidden <==> !ShowTabs(v.current))
  {
  }

  /** After a route change that hides the search form, opening and closing
      it gives back exactly the chrome of the route change. */
  lemma OpenCloseAfterRoute(v: ShellView, o: RouteState)
    requires !o.search
    ensures AfterClick(AfterClick(AfterRoute(v, o))) == AfterRoute(v, o)
  {
    var r := AfterRoute(v, o);
    var back := AfterClick(AfterClick(r));
    assert back.tabs == r.tabs;
  }

  /** Closing the form before any route change hides every tab. */
  lemma CloseBeforeAnyRoute(v: ShellView)
    requires v.current.None? && !v.searchHidden
    ensures forall i :: 0 <= i < |v.tabs| ==> AfterClick(v).tabs[i].hidden
  {
  }
}
