/** The per-element projection of the two page-wide signals, connectivity
    and sign-in, onto what an element shows: the `change` listeners attached
    at start-up, as functions of the element's markup, its dataset and what
    it showed before. */
module Projection {
  import opened Wrappers

  /** What the listeners are chosen by: lower-case tag name, id, classes, href. */
  datatype Markup = Markup(tag: string, id: string, classes: set<string>, href: Option<string>)

  /** `dataset.online` and `dataset.signedin`; `None` when never written. */
  datatype Dataset = Dataset(online: Option<string>, signedin: Option<string>)

  /** What the listeners write: `disabled`, `style.opacity`, whether `onclick`
      cancels the default action, `style.display == 'block'`, and the text. */
  datatype Look = Look(disabled: bool, opacity: real, clickSuppressed: bool, displayBlock: bool, text: string)

  const OnlineAwareClass: string := "gulliver-online-aware"
  const SignedinAwareClass: string := "gulliver-signedin-aware"
  const AuthButtonId: string := "auth-button"

  predicate OnlineAware(m: Markup) { OnlineAwareClass in m.classes }
  predicate SignedinAware(m: Markup) { SignedinAwareClass in m.classes }
  predicate BothAware(m: Markup) { OnlineAware(m) && SignedinAware(m) }
  /** `div.button.gulliver-online-aware` */
  predicate IsButtonDiv(m: Markup) { m.tag == "div" && "button" in m.classes && OnlineAware(m) }
  /** `a.card-pwa.gulliver-online-aware` */
  predicate IsCard(m: Markup) { m.tag == "a" && "card-pwa" in m.classes && OnlineAware(m) }
  /** `div.offline-status.gulliver-online-aware` */
  predicate IsBanner(m: Markup) { m.tag == "div" && "offline-status" in m.classes && OnlineAware(m) }

  /** `JSON.stringify(b)` */
  function Stringify(b: bool): string {
    if b then "true" else "false"
  }

  /** `JSON.parse` of a dataset entry. Only the two strings `Stringify` writes
      give a value; `None` is a parse that throws (an entry never written),
      which ends that listener without effect. */
  function ParseFlag(v: Option<string>): (r: Option<bool>)
    ensures r.Some? ==> v == Some(Stringify(r.value))
  {
    if v == Some("true") then Some(true)
    else if v == Some("false") then Some(false)
    else None
  }

  lemma ParseStringify(b: bool)
    ensures ParseFlag(Some(Stringify(b))) == Some(b)
  {
  }

  /** Opacity 1, clicks allowed. */
  function Active(l: Look): Look { l.(opacity := 1.0, clickSuppressed := false) }
  /** Opacity 0.5, clicks cancelled. */
  function Inactive(l: Look): Look { l.(opacity := 0.5, clickSuppressed := true) }

  /** The listener of `div.button` elements. */
  function ButtonDivRule(online: bool, l: Look): (r: Look)
    ensures r.disabled == l.disabled && r.displayBlock == l.displayBlock && r.text == l.text
    ensures online ==> r.opacity == 1.0 && !r.clickSuppressed
    ensures !online ==> r.opacity == 0.5 && r.clickSuppressed
  {
    if online then Active(l) else Inactive(l)
  }

  /** The listener of card links: active when online; offline, a link with an
      href is probed with a HEAD request (`probe` maps an href to the status
      of its response; an href missing from it is a request that rejected),
      and one without an href is left alone. */
  function CardRule(online: bool, href: Option<string>, probe: map<string, int>, l: Look): (r: Look)
    ensures r.disabled == l.disabled && r.displayBlock == l.displayBlock && r.text == l.text
    ensures online ==> r.opacity == 1.0 && !r.clickSuppressed
    ensures !online && (href.None? || href.value == "" || href.value !in probe) ==> r == l
    ensures !online && href.Some? && href.value != "" && href.value in probe ==>
      if probe[href.value] == 200 then r.opacity == 1.0 && !r.clickSuppressed
      else r.opacity == 0.5 && r.clickSuppressed
  {
    if online then Active(l)
    else if href.None? || href.value == "" || href.value !in probe then l
    else if probe[href.value] == 200 then Active(l)
    else Inactive(l)
  }

  /** The listener of the offline banner. Opacity 1 and `display: block` are
      set before the dataset is read. */
  function BannerRule(online: Option<bool>, l: Look): (r: Look)
    ensures r.displayBlock
    ensures r.opacity == (if online == Some(true) then 0.0 else 1.0)
    ensures r.disabled == l.disabled && r.clickSuppressed == l.clickSuppressed && r.text == l.text
  {
    var shown := l.(opacity := 1.0, displayBlock := true);
    if online == Some(true) then shown.(opacity := 0.0) else shown
  }

  /** The listener of elements aware of both signals, by tag. */
  function BothAwareRule(m: Markup, online: bool, signedin: bool, l: Look): (r: Look)
    ensures r.displayBlock == l.displayBlock && r.text == l.text
    ensures m.tag == "button" ==>
      && r.opacity == l.opacity && r.clickSuppressed == l.clickSuppressed
      && (r.disabled <==> !online || (m.id != AuthButtonId && !signedin))
    ensures m.tag == "div" ==>
      && r.disabled == l.disabled
      && (if online && signedin then r.opacity == 1.0 && !r.clickSuppressed
          else r.opacity == 0.5 && r.clickSuppressed)
  {
    if m.tag == "button" then
      if m.id == AuthButtonId then l.(disabled := !online) else l.(disabled := !online || !signedin)
    else if m.tag == "div" then
      if online && signedin then Active(l) else Inactive(l)
    else l
  }

  /** The auth button's label. */
  function AuthLabel(signedin: Option<string>): (caption: string)
    ensures caption == "Logout" <==> signedin == Some("true")
    ensures caption == "Logout" || caption == "Login"
  {
    if signedin == Some("true") then "Logout" else "Login"
  }

  datatype AuthAction = SignIn | SignOut

  /** A click on the auth button signs out iff the dataset says signed in. */
  function AuthClick(signedin: Option<string>): (a: AuthAction)
    ensures a == SignOut <==> AuthLabel(signedin) == "Logout"
  {
    if signedin == Some("true") then SignOut else SignIn
  }

  /** One `change` event: the element's listeners, in the order they were
      attached (online-aware ones, then the both-aware one, then the auth
      label once sign-in is set up). A listener whose parse throws does
      nothing; the others still run. */
  function OnChange(m: Markup, labelBound: bool, ds: Dataset, probe: map<string, int>, l: Look): (r: Look)
    ensures r.text == (if labelBound then AuthLabel(ds.signedin) else l.text)
    ensures !OnlineAware(m) ==> r == l.(text := r.text)
    ensures ParseFlag(ds.online).None? && !IsBanner(m) ==> r == l.(text := r.text)
    ensures IsBanner(m) ==> r.displayBlock
  {
    var online := ParseFlag(ds.online);
    var signedin := ParseFlag(ds.signedin);
    var l1 := if IsButtonDiv(m) && online.Some? then ButtonDivRule(online.value, l) else l;
    var l2 := if IsCard(m) && online.Some? then CardRule(online.value, m.href, probe, l1) else l1;
    var l3 := if IsBanner(m) then BannerRule(online, l2) else l2;
    var l4 := if BothAware(m) && online.Some? && signedin.Some?
              then BothAwareRule(m, online.value, signedin.value, l3) else l3;
    if labelBound then l4.(text := AuthLabel(ds.signedin)) else l4
  }

  /** The dataset both broadcasts write, as a function of the two signals. */
  function Signals(online: bool, signedin: bool): Dataset {
    Dataset(Some(Stringify(online)), Some(Stringify(signedin)))
  }

  // ---------------------------------------------------------------------
  // Properties of the projection

  /** The auth button is enabled exactly when online, whatever the sign-in state. */
  lemma AuthButtonFollowsOnline(m: Markup, labelBound: bool, online: bool, signedin: bool,
                                probe: map<string, int>, l: Look)
    requires BothAware(m) && m.tag == "button" && m.id == AuthButtonId
    ensures OnChange(m, labelBound, Signals(online, signedin), probe, l).disabled == !online
  {
  }

  /** Any other both-aware button is enabled exactly when online and signed in. */
  lemma OtherButtonsNeedBoth(m: Markup, labelBound: bool, online: bool, signedin: bool,
                             probe: map<string, int>, l: Look)
    requires BothAware(m) && m.tag == "button" && m.id != AuthButtonId
    ensures OnChange(m, labelBound, Signals(online, signedin), probe, l).disabled == (!online || !signedin)
  {
  }

  /** A both-aware div is active exactly when online and signed in, whatever
      else it is (a `div.button` or the banner too). */
  lemma BothAwareDivNeedsBoth(m: Markup, labelBound: bool, online: bool, signedin: bool,
                              probe: map<string, int>, l: Look)
    requires BothAware(m) && m.tag == "div"
    ensures var r := OnChange(m, labelBound, Signals(online, signedin), probe, l);
      (r.opacity == 1.0 && !r.clickSuppressed) <==> online && signedin
    ensures var r := OnChange(m, labelBound, Signals(online, signedin), probe, l);
      !(online && signedin) ==> r.opacity == 0.5 && r.clickSuppressed
  {
  }

  /** Both-aware elements other than buttons and divs are left alone by the
      both-aware listener. */
  lemma BothAwareOtherTagsUntouched(m: Markup, online: bool, signedin: bool, l: Look)
    requires m.tag != "button" && m.tag != "div"
    ensures BothAwareRule(m, online, signedin, l) == l
  {
  }

  /** A `div.button` aware of connectivity only is active exactly when online. */
  lemma ButtonDivFollowsOnline(m: Markup, ds: Dataset, online: bool, probe: map<string, int>, l: Look)
    requires IsButtonDiv(m) && !SignedinAware(m) && !IsBanner(m)
    requires ds.online == Some(Stringify(online))
    ensures var r := OnChange(m, false, ds, probe, l);
      (r.opacity == 1.0 && !r.clickSuppressed) <==> online
    ensures var r := OnChange(m, false, ds, probe, l);
      !online ==> r.opacity == 0.5 && r.clickSuppressed
  {
  }

  /** The banner is always displayed; it is transparent when online and
      opaque when offline. */
  lemma BannerShowsOffline(m: Markup, ds: Dataset, online: bool, probe: map<string, int>, l: Look)
    requires IsBanner(m) && !SignedinAware(m)
    requires ds.online == Some(Stringify(online))
    ensures var r := OnChange(m, false, ds, probe, l);
      r.displayBlock && r.opacity == (if online then 0.0 else 1.0)
  {
  }

  /** A card link is active when online; offline it is active iff the probe
      answered 200, inactive on any other status, and unchanged without an
      href or when the probe request rejected. */
  lemma CardFollowsProbe(m: Markup, ds: Dataset, online: bool, probe: map<string, int>, l: Look)
    requires IsCard(m) && !SignedinAware(m)
    requires ds.online == Some(Stringify(online))
    ensures var r := OnChange(m, false, ds, probe, l);
      && (online ==> r == Active(l))
      && (!online && m.href.Some? && m.href.value in probe && m.href.value != "" ==>
            ((r.opacity == 1.0 && !r.clickSuppressed) <==> probe[m.href.value] == 200))
      && (!online && (m.href.None? || m.href.value == "") ==> r == l)
      && (!online && m.href.Some? && m.href.value != "" && m.href.value !in probe ==> r == l)
      && (!online && m.href.Some? && m.href.value in probe && m.href.value != "" && probe[m.href.value] != 200 ==>
            r.opacity == 0.5 && r.clickSuppressed)
  {
  }

  /** Offline, every both-aware button is disabled, the auth button included,
      whatever the sign-in state. */
  lemma OfflineDisablesButtons(m: Markup, labelBound: bool, signedin: bool,
                               probe: map<string, int>, l: Look)
    requires BothAware(m) && m.tag == "button"
    ensures OnChange(m, labelBound, Signals(false, signedin), probe, l).disabled
  {
  }

  /** Once sign-in is set up, the auth button's label tracks the dataset. */
  lemma LabelTracksSignin(m: Markup, online: bool, signedin: bool, probe: map<string, int>, l: Look)
    ensures OnChange(m, true, Signals(online, signedin), probe, l).text == (if signedin then "Logout" else "Login")
  {
  }
}
