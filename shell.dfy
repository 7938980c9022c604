/** The client-side shell: the chrome elements it owns, the route →
    descriptor map it applies on navigation, and the search button that
    shares the `#search` form with it. */
module Chrome {
  import opened Wrappers
  import opened ChromeState

  /** A chrome element of the page, reduced to its id and two classes. */
  class ChromeElement {
    const id: string
    var hidden: bool   // carries the class `hidden`
    var active: bool   // carries the class `activetab`

    constructor (id: string, hidden: bool, active: bool)
      ensures this.id == id && this.hidden == hidden && this.active == active
    {
      this.id := id;
      this.hidden := hidden;
      this.active := active;
    }

    ghost function Tab(): TabView
      reads this
    {
      TabView(id, hidden, active)
    }
  }

  ghost function Tabs(tabs: seq<ChromeElement>): (r: seq<TabView>)
    reads set t | t in tabs
    ensures |r| == |tabs|
    ensures forall i :: 0 <= i < |tabs| ==> r[i] == tabs[i].Tab()
  {
    if tabs == [] then [] else [tabs[0].Tab()] + Tabs(tabs[1..])
  }

  /** The backlink, subtitle, search form and tabs are different elements. */
  ghost predicate DistinctChrome(backlink: ChromeElement, subtitle: ChromeElement,
                                 search: ChromeElement, tabs: seq<ChromeElement>)
  {
    && backlink != subtitle && backlink != search && subtitle != search
    && backlink !in tabs && subtitle !in tabs && search !in tabs
    && forall i, j :: 0 <= i < j < |tabs| ==> tabs[i] != tabs[j]
  }

  class Shell {
    const backlink: ChromeElement   // #backlink
    const subtitle: ChromeElement   // #subtitle
    const search: ChromeElement     // #search, shared with the search button
    const tabs: seq<ChromeElement>  // #newest, #score in document order
    var states: map<string, RouteState>
    var currentState: Option<RouteState>
    var searchButton: SearchButton?

    ghost predicate Chrome() {
      DistinctChrome(backlink, subtitle, search, tabs)
    }

    ghost predicate Valid()
      reads this
    {
      Chrome() && searchButton != null && searchButton.form == search && searchButton.options == this
    }

    ghost function View(): ShellView
      reads this, backlink, subtitle, search, set t | t in tabs
    {
      ShellView(backlink.hidden, subtitle.hidden, search.hidden, Tabs(tabs), currentState)
    }

    /** The shell starts with no route registered and `_currentState = {}`,
        and wires a search button on the same `#search` form to its callbacks. */
    constructor (backlink: ChromeElement, subtitle: ChromeElement,
                 search: ChromeElement, tabs: seq<ChromeElement>)
      requires DistinctChrome(backlink, subtitle, search, tabs)
      ensures Valid() && fresh(searchButton)
      ensures this.backlink == backlink && this.subtitle == subtitle
      ensures this.search == search && this.tabs == tabs
      ensures states == map[] && currentState == None
    {
      this.backlink := backlink;
      this.subtitle := subtitle;
      this.search := search;
      this.tabs := tabs;
      states := map[];
      currentState := None;
      searchButton := null;
      new;
      searchButton := new SearchButton(search, this);
    }

    /** Registers (or replaces) the descriptor of one route. */
    method SetStateForRoute(route: string, shellState: RouteState)
      modifies this`states
      ensures states == old(states)[route := shellState]
      ensures route in states && states[route] == shellState
      ensures forall r :: r != route ==> (r in states <==> r in old(states))
      ensures forall r :: r != route && r in states ==> states[r] == old(states)[r]
    {
      states := states[route := shellState];
    }

    /** `_showElement`: only the element's `hidden` class changes. */
    method ShowElement(element: ChromeElement, visible: bool)
      modifies element`hidden
      ensures element.hidden == !visible
    {
      if visible {
        element.hidden := false;
        return;
      }
      element.hidden := true;
    }

    /** `_updateTab`. */
    method UpdateTab(tab: ChromeElement, options: RouteState)
      modifies tab
      ensures tab.Tab() == RouteTab(old(tab.Tab()), options)
    {
      ShowElement(tab, options.showTabs);
      if !SelectsTab(options) {
        return;
      }
      if tab.id == options.currentTab.value {
        tab.active := true;
        return;
      }
      tab.active := false;
    }

    /** A click on the shell's own search button: the shared form flips and
        the tabs follow through the shell's callbacks. */
    method ClickSearch() returns (effect: ClickEffect)
      requires Valid()
      modifies search, set t | t in tabs
      ensures Valid()
      ensures effect == ClickEffectOf(old(search.hidden), true)
      ensures View() == AfterClick(old(View()))
    {
      effect := searchButton.Click();
    }

    /** Applies the descriptor of a registered route to the chrome. */
    method OnRouteChange(route: string)
      requires Chrome() && route in states
      modifies this`currentState, backlink, subtitle, search, set t | t in tabs
      ensures states == old(states)
      ensures View() == AfterRoute(old(View()), states[route])
    {
      var options := states[route];
      currentState := Some(options);
      ShowElement(backlink, options.backlink);
      ShowElement(subtitle, options.subtitle);
      ShowElement(search, options.search);
      var i := 0;
      while i < |tabs|
        invariant 0 <= i <= |tabs|
        invariant forall k :: 0 <= k < i ==> tabs[k].Tab() == RouteTab(old(tabs[k].Tab()), options)
        invariant forall k :: i <= k < |tabs| ==> tabs[k].Tab() == old(tabs[k].Tab())
        invariant backlink.hidden == !options.backlink && subtitle.hidden == !options.subtitle
        invariant search.hidden == !options.search && currentState == Some(options)
      {
        UpdateTab(tabs[i], options);
        i := i + 1;
      }
      assert Tabs(tabs) == RouteTabs(old(Tabs(tabs)), options);
    }

    /** Sets every tab's visibility, leaving their marks alone. */
    method ShowTabs(visible: bool)
      requires Chrome()
      modifies set t | t in tabs
      ensures View() == old(View()).(tabs := ShowAllTabs(old(View()).tabs, visible))
    {
      var i := 0;
      while i < |tabs|
        invariant 0 <= i <= |tabs|
        invariant forall k :: 0 <= k < i ==> tabs[k].Tab() == old(tabs[k].Tab()).(hidden := !visible)
        invariant forall k :: i <= k < |tabs| ==> tabs[k].Tab() == old(tabs[k].Tab())
      {
        ShowElement(tabs[i], visible);
        i := i + 1;
      }
      assert Tabs(tabs) == ShowAllTabs(old(Tabs(tabs)), visible);
    }

    /** The `onShowForm` callback handed to the search button. */
    method OnShowForm()
      requires Chrome()
      modifies set t | t in tabs
      ensures View() == AfterShowForm(old(View()))
    {
      ShowTabs(false);
    }

    /** The `onHideForm` callback handed to the search button. */
    method OnHideForm()
      requires Chrome()
      modifies set t | t in tabs
      ensures View() == AfterHideForm(old(View()))
    {
      ShowTabs(currentState.Some? && currentState.value.showTabs);
    }
  }

  /** The search toggle. `options` is the shell whose callbacks it calls, or
      null when it was built without options. */
  class SearchButton {
    const form: ChromeElement   // #search
    const options: Shell?

    constructor (form: ChromeElement, options: Shell?)
      ensures this.form == form && this.options == options
    {
      this.form := form;
      this.options := options;
    }

    ghost predicate Valid() {
      options != null ==> options.search == form && options.Chrome()
    }

    /** The click handler. */
    method Click() returns (effect: ClickEffect)
      requires Valid()
      modifies form, if options != null then set t | t in options.tabs else {}
      ensures effect == ClickEffectOf(old(form.hidden), options != null)
      ensures form.hidden == !old(form.hidden)
      ensures options != null ==> options.View() == AfterClick(old(options.View()))
    {
      effect := ClickEffectOf(form.hidden, options != null);
      if form.hidden {
        form.hidden := false;
        if options != null {
          options.OnShowForm();
        }
        return;
      }
      form.hidden := true;
      if options != null {
        options.OnHideForm();
      }
    }
  }
}
