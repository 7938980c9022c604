/** The page-wide signal broadcast: the browser's `online`, `offline` and
    `userchange` events write the new value into the dataset of every aware
    element and dispatch `change` to it, which runs the element's listeners
    (module Projection). Also the start-up steps that stamp initial datasets,
    write the banner text and bind the auth button. */
module Broadcast {
  import opened Wrappers
  import opened Projection

  /** Everything of an element that the broadcast and its listeners change. */
  datatype ElementState = ElementState(dataset: Dataset, look: Look, labelBound: bool, changes: nat)

  /** `dispatchEvent(new CustomEvent('change'))`: the listeners run; `changes`
      counts the events dispatched to the element. */
  function Dispatched(m: Markup, st: ElementState, probe: map<string, int>): ElementState {
    st.(look := OnChange(m, st.labelBound, st.dataset, probe, st.look), changes := st.changes + 1)
  }

  /** The `online`/`offline` handler, on one element. */
  function ReceiveOnline(m: Markup, st: ElementState, online: bool, probe: map<string, int>): (r: ElementState)
    ensures r.dataset.signedin == st.dataset.signedin && r.labelBound == st.labelBound
    ensures r.changes == st.changes + (if OnlineAware(m) then 1 else 0)
    ensures OnlineAware(m) ==> r.dataset.online == Some(Stringify(online))
    ensures OnlineAware(m) ==> r.look == OnChange(m, st.labelBound, r.dataset, probe, st.look)
    ensures !OnlineAware(m) ==> r == st
  {
    if OnlineAware(m) then Dispatched(m, st.(dataset := st.dataset.(online := Some(Stringify(online)))), probe)
    else st
  }

  /** The `userchange` handler, on one element. */
  function ReceiveSignedin(m: Markup, st: ElementState, signedin: bool, probe: map<string, int>): (r: ElementState)
    ensures r.dataset.online == st.dataset.online && r.labelBound == st.labelBound
    ensures r.changes == st.changes + (if SignedinAware(m) then 1 else 0)
    ensures SignedinAware(m) ==> r.dataset.signedin == Some(Stringify(signedin))
    ensures SignedinAware(m) ==> r.look == OnChange(m, st.labelBound, r.dataset, probe, st.look)
    ensures !SignedinAware(m) ==> r == st
  {
    if SignedinAware(m) then Dispatched(m, st.(dataset := st.dataset.(signedin := Some(Stringify(signedin)))), probe)
    else st
  }

  /** setupSignedinAware on one element: both-aware elements start offline and signed out. */
  function StampSignedinAware(m: Markup, st: ElementState): (r: ElementState)
    ensures r.look == st.look && r.labelBound == st.labelBound && r.changes == st.changes
    ensures BothAware(m) ==> ParseFlag(r.dataset.online) == Some(false) && ParseFlag(r.dataset.signedin) == Some(false)
    ensures !BothAware(m) ==> r.dataset == st.dataset
  {
    if BothAware(m) then st.(dataset := Signals(false, false)) else st
  }

  /** setupOnlineAware on one element: the banner's text becomes 'Offline'. */
  function StampBanner(m: Markup, st: ElementState): (r: ElementState)
    ensures r.dataset == st.dataset && r.labelBound == st.labelBound && r.changes == st.changes
    ensures r.look == st.look.(text := r.look.text)
    ensures r.look.text == (if IsBanner(m) then "Offline" else st.look.text)
  {
    if IsBanner(m) then st.(look := st.look.(text := "Offline")) else st
  }

  /** setupSignin on the auth button: the label listener is attached and runs once. */
  function BindLabel(st: ElementState): (r: ElementState)
    ensures r.labelBound && (r.look.text == "Logout" <==> st.dataset.signedin == Some("true"))
    ensures st.dataset.signedin != Some("true") ==> r.look.text == "Login"
    ensures r.look == st.look.(text := r.look.text)
    ensures r.dataset == st.dataset && r.changes == st.changes
  {
    st.(labelBound := true, look := st.look.(text := AuthLabel(st.dataset.signedin)))
  }

  // ---------------------------------------------------------------------
  // Properties of one delivery

  /** An online-aware element reads back the broadcast value and gets one more
      `change`; other elements are untouched. */
  lemma OnlineDelivered(m: Markup, st: ElementState, online: bool, probe: map<string, int>)
    ensures var r := ReceiveOnline(m, st, online, probe);
      OnlineAware(m) ==>
        && ParseFlag(r.dataset.online) == Some(online)
        && r.dataset.signedin == st.dataset.signedin
        && r.changes == st.changes + 1
        && r.look == OnChange(m, st.labelBound, r.dataset, probe, st.look)
    ensures !OnlineAware(m) ==> ReceiveOnline(m, st, online, probe) == st
  {
  }

  lemma SignedinDelivered(m: Markup, st: ElementState, signedin: bool, probe: map<string, int>)
    ensures var r := ReceiveSignedin(m, st, signedin, probe);
      SignedinAware(m) ==>
        && ParseFlag(r.dataset.signedin) == Some(signedin)
        && r.dataset.online == st.dataset.online
        && r.changes == st.changes + 1
        && r.look == OnChange(m, st.labelBound, r.dataset, probe, st.look)
    ensures !SignedinAware(m) ==> ReceiveSignedin(m, st, signedin, probe) == st
  {
  }

  /** No duplicate suppression: the same value broadcast twice leaves the
      dataset as once, but dispatches `change` twice. */
  lemma RepeatedOnlineStillDispatches(m: Markup, st: ElementState, online: bool, probe: map<string, int>)
    requires OnlineAware(m)
    ensures var once := ReceiveOnline(m, st, online, probe);
      var twice := ReceiveOnline(m, once, online, probe);
      twice.dataset == once.dataset && twice.changes == st.changes + 2
  {
  }

  /** After a connectivity and a sign-in broadcast, in either order, a
      both-aware element's dataset holds both signals, and a both-aware button
      other than the auth button is enabled iff online and signed in. */
  lemma BothSignalsReachElement(m: Markup, st: ElementState, online: bool, signedin: bool,
                                probe: map<string, int>)
    requires BothAware(m)
    ensures var r := ReceiveSignedin(m, ReceiveOnline(m, st, online, probe), signedin, probe);
      r.dataset == Signals(online, signedin)
      && (m.tag == "button" && m.id != AuthButtonId ==> r.look.disabled == (!online || !signedin))
    ensures var r := ReceiveOnline(m, ReceiveSignedin(m, st, signedin, probe), online, probe);
      r.dataset == Signals(online, signedin)
      && (m.tag == "button" && m.id != AuthButtonId ==> r.look.disabled == (!online || !signedin))
  {
    var a := ReceiveOnline(m, st, online, probe);
    var r1 := ReceiveSignedin(m, a, signedin, probe);
    assert r1.dataset == Signals(online, signedin);
    if m.tag == "button" && m.id != AuthButtonId {
      OtherButtonsNeedBoth(m, a.labelBound, online, signedin, probe, a.look);
    }
    var b := ReceiveSignedin(m, st, signedin, probe);
    var r2 := ReceiveOnline(m, b, online, probe);
    assert r2.dataset == Signals(online, signedin);
    if m.tag == "button" && m.id != AuthButtonId {
      OtherButtonsNeedBoth(m, b.labelBound, online, signedin, probe, b.look);
    }
  }

  /** At start-up, before any sign-in callback, a both-aware element sees the
      browser's connectivity and "signed out". */
  lemma StartSeesSignedOut(m: Markup, st: ElementState, navigatorOnline: bool, probe: map<string, int>)
    requires BothAware(m)
    ensures ReceiveOnline(m, StampSignedinAware(m, StampBanner(m, st)), navigatorOnline, probe).dataset
            == Signals(navigatorOnline, false)
  {
  }

  /** Once the auth provider is ready, a signed-in-aware auth button reads
      'Logout' exactly when the user is signed in. */
  lemma ReadyLabelFollowsUser(m: Markup, st: ElementState, signedIn: bool, probe: map<string, int>)
    requires SignedinAware(m)
    ensures BindLabel(ReceiveSignedin(m, st, signedIn, probe)).look.text == "Logout" <==> signedIn
  {
  }

  // ---------------------------------------------------------------------
  // The page

  /** An element of the page; `markup` decides which listeners it has. */
  class AwareElement {
    const markup: Markup
    var dataset: Dataset
    var look: Look
    var labelBound: bool   // the auth-button label listener is attached
    var changes: nat       // `change` events dispatched to it

    constructor (markup: Markup, look: Look)
      ensures this.markup == markup && this.look == look
      ensures dataset == Dataset(None, None) && !labelBound && changes == 0
    {
      this.markup := markup;
      this.look := look;
      dataset := Dataset(None, None);
      labelBound := false;
      changes := 0;
    }

    ghost function State(): ElementState
      reads this
    {
      ElementState(dataset, look, labelBound, changes)
    }
  }

  /** The `#idToken` input of the submission form. */
  class TokenInput {
    var value: string

    constructor (value: string)
      ensures this.value == value
    {
      this.value := value;
    }
  }

  /** The signed-in user as the auth provider reports it. */
  datatype User = User(signedIn: bool, idToken: string)

  /** The index of the first element with the given id (`getElementById`). */
  function FirstWithId(elements: seq<AwareElement>, id: string): (k: Option<nat>)
    ensures k.Some? ==> k.value < |elements| && elements[k.value].markup.id == id
    ensures k.Some? ==> forall j :: 0 <= j < k.value ==> elements[j].markup.id != id
    ensures k.None? ==> forall j :: 0 <= j < |elements| ==> elements[j].markup.id != id
  {
    if elements == [] then None
    else if elements[0].markup.id == id then Some(0)
    else match FirstWithId(elements[1..], id)
      case None => None
      case Some(j) => Some(j + 1)
  }

  class Page {
    const elements: seq<AwareElement>   // the document's elements, in document order
    const idTokenInput: TokenInput?     // present iff the page has `#pwaForm`

    constructor (elements: seq<AwareElement>, idTokenInput: TokenInput?)
      requires forall i, j :: 0 <= i < j < |elements| ==> elements[i] != elements[j]
      ensures this.elements == elements && this.idTokenInput == idTokenInput
      ensures Valid()
    {
      this.elements := elements;
      this.idTokenInput := idTokenInput;
    }

    /** Distinct DOM nodes. */
    ghost predicate Valid() {
      forall i, j :: 0 <= i < j < |elements| ==> elements[i] != elements[j]
    }

    /** `document.getElementById('auth-button')`. */
    method FindAuthButton() returns (k: Option<nat>)
      ensures k.Some? ==> k.value < |elements| && elements[k.value].markup.id == AuthButtonId
      ensures k.Some? ==> forall j :: 0 <= j < k.value ==> elements[j].markup.id != AuthButtonId
      ensures k.None? ==> forall j :: 0 <= j < |elements| ==> elements[j].markup.id != AuthButtonId
    {
      var i := 0;
      while i < |elements|
        invariant 0 <= i <= |elements|
        invariant forall j :: 0 <= j < i ==> elements[j].markup.id != AuthButtonId
      {
        if elements[i].markup.id == AuthButtonId {
          return Some(i);
        }
        i := i + 1;
      }
      return None;
    }

    /** Dispatches `change` to one element. */
    method Dispatch(e: AwareElement, probe: map<string, int>)
      modifies e
      ensures e.State() == Dispatched(e.markup, old(e.State()), probe)
    {
      e.look := OnChange(e.markup, e.labelBound, e.dataset, probe, e.look);
      e.changes := e.changes + 1;
    }

    /** The `online` (true) and `offline` (false) handlers: every online-aware
        element gets the value and a `change`, whether or not it changed. */
    method BroadcastOnline(online: bool, probe: map<string, int>)
      requires Valid()
      modifies set e | e in elements
      ensures forall i :: 0 <= i < |elements| ==>
        elements[i].State() == ReceiveOnline(elements[i].markup, old(elements[i].State()), online, probe)
    {
      var i := 0;
      while i < |elements|
        invariant 0 <= i <= |elements|
        invariant forall k :: 0 <= k < i ==>
          elements[k].State() == ReceiveOnline(elements[k].markup, old(elements[k].State()), online, probe)
        invariant forall k :: i <= k < |elements| ==> elements[k].State() == old(elements[k].State())
      {
        var e := elements[i];
        if OnlineAware(e.markup) {
          e.dataset := e.dataset.(online := Some(Stringify(online)));
          Dispatch(e, probe);
        }
        i := i + 1;
      }
    }

    /** The `userchange` handler: the token input (if the page has the form)
        gets the token or '', then every signed-in-aware element gets the
        value and a `change`. */
    method OnUserChange(user: User, probe: map<string, int>)
      requires Valid()
      modifies set e | e in elements, if idTokenInput != null then {idTokenInput} else {}
      ensures idTokenInput != null ==> idTokenInput.value == (if user.signedIn then user.idToken else "")
      ensures forall i :: 0 <= i < |elements| ==>
        elements[i].State() == ReceiveSignedin(elements[i].markup, old(elements[i].State()), user.signedIn, probe)
    {
      if idTokenInput != null {
        idTokenInput.value := if user.signedIn then user.idToken else "";
      }
      var i := 0;
      while i < |elements|
        invariant 0 <= i <= |elements|
        invariant idTokenInput != null ==> idTokenInput.value == (if user.signedIn then user.idToken else "")
        invariant forall k :: 0 <= k < i ==>
          elements[k].State() == ReceiveSignedin(elements[k].markup, old(elements[k].State()), user.signedIn, probe)
        invariant forall k :: i <= k < |elements| ==> elements[k].State() == old(elements[k].State())
      {
        var e := elements[i];
        if SignedinAware(e.markup) {
          e.dataset := e.dataset.(signedin := Some(Stringify(user.signedIn)));
          Dispatch(e, probe);
        }
        i := i + 1;
      }
    }

    /** setupOnlineAware: the banner text; the listeners themselves are part
        of each element's markup. */
    method SetupOnlineAware()
      requires Valid()
      modifies set e | e in elements
      ensures forall i :: 0 <= i < |elements| ==>
        elements[i].State() == StampBanner(elements[i].markup, old(elements[i].State()))
    {
      var i := 0;
      while i < |elements|
        invariant 0 <= i <= |elements|
        invariant forall k :: 0 <= k < i ==>
          elements[k].State() == StampBanner(elements[k].markup, old(elements[k].State()))
        invariant forall k :: i <= k < |elements| ==> elements[k].State() == old(elements[k].State())
      {
        var e := elements[i];
        if IsBanner(e.markup) {
          e.look := e.look.(text := "Offline");
        }
        i := i + 1;
      }
    }

    /** setupSignedinAware: both-aware elements start offline and signed out. */
    method SetupSignedinAware()
      requires Valid()
      modifies set e | e in elements
      ensures forall i :: 0 <= i < |elements| ==>
        elements[i].State() == StampSignedinAware(elements[i].markup, old(elements[i].State()))
    {
      var i := 0;
      while i < |elements|
        invariant 0 <= i <= |elements|
        invariant forall k :: 0 <= k < i ==>
          elements[k].State() == StampSignedinAware(elements[k].markup, old(elements[k].State()))
        invariant forall k :: i <= k < |elements| ==> elements[k].State() == old(elements[k].State())
      {
        var e := elements[i];
        if BothAware(e.markup) {
          e.dataset := Signals(false, false);
        }
        i := i + 1;
      }
    }

    /** The synchronous start-up: setupOnlineAware, setupSignedinAware, then
        the `online` or `offline` event for the browser's current state. */
    method Start(navigatorOnline: bool, probe: map<string, int>)
      requires Valid()
      modifies set e | e in elements
      ensures forall i :: 0 <= i < |elements| ==>
        elements[i].State() == ReceiveOnline(elements[i].markup,
          StampSignedinAware(elements[i].markup, StampBanner(elements[i].markup, old(elements[i].State()))),
          navigatorOnline, probe)
    {
      SetupOnlineAware();
      SetupSignedinAware();
      BroadcastOnline(navigatorOnline, probe);
    }

    /** setupSignin, once the auth provider is ready: the auth button's label
        listener is attached and run once. Without an auth button nothing
        changes. */
    method SetupSignin()
      requires Valid()
      modifies set e | e in elements
      ensures forall i :: 0 <= i < |elements| ==>
        elements[i].State() == (if FirstWithId(elements, AuthButtonId) == Some(i)
                                then BindLabel(old(elements[i].State()))
                                else old(elements[i].State()))
    {
      var k := FindAuthButton();
      assert k == FirstWithId(elements, AuthButtonId);
      if k.Some? {
        var b := elements[k.value];
        b.labelBound := true;
        b.look := b.look.(text := AuthLabel(b.dataset.signedin));
      }
    }

    /** The auth provider is ready (the body of setupSignin's promise): the
        current user is broadcast first, and only then is the auth button's
        label listener attached and run. */
    method OnAuthReady(user: User, probe: map<string, int>)
      requires Valid()
      modifies set e | e in elements, if idTokenInput != null then {idTokenInput} else {}
      ensures idTokenInput != null ==> idTokenInput.value == (if user.signedIn then user.idToken else "")
      ensures forall i :: 0 <= i < |elements| ==>
        var r := ReceiveSignedin(elements[i].markup, old(elements[i].State()), user.signedIn, probe);
        elements[i].State() == (if FirstWithId(elements, AuthButtonId) == Some(i) then BindLabel(r) else r)
    {
      OnUserChange(user, probe);
      SetupSignin();
    }

    /** A click on the auth button. Its click listener is attached together
        with the label listener, so a button whose label is not bound yet
        takes no action; neither does a disabled button. Otherwise it signs
        out iff its dataset says signed in. */
    method AuthButtonClick() returns (action: Option<AuthAction>)
      ensures var k := FirstWithId(elements, AuthButtonId);
        action.Some? <==> k.Some? && elements[k.value].labelBound && !elements[k.value].look.disabled
      ensures action.Some? ==>
        var b := elements[FirstWithId(elements, AuthButtonId).value];
        (action.value == SignOut <==> b.dataset.signedin == Some("true"))
    {
      var k := FindAuthButton();
      assert k == FirstWithId(elements, AuthButtonId);
      if k.None? {
        return None;
      }
      var b := elements[k.value];
      if !b.labelBound || b.look.disabled {
        return None;
      }
      action := Some(AuthClick(b.dataset.signedin));
    }
  }
}
