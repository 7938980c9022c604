# PWA Directory: list paging, submission messages, shell chrome and online/sign-in signals

PWA Directory is a catalogue of Progressive Web Apps: an Express server renders
paged lists of entries and a submission form, and a small client script drives
the page chrome and reacts to connectivity and sign-in. This project models
three deterministic parts of it in Dafny and proves what they promise.

1. **Server, list pages** (`ListView`). `setupListViewState` turns the raw
   query parameters (`query`, `page`, `sort`, `start`, `limit`,
   `contentOnly`) into a view state with permissive defaults:
   `parseInt(x, 10) || default`, so NaN and 0 both fall back.
   `setupListViewArguments` derives the display fields: the paging links,
   the sort order omitted when it is the default, the two sort flags, and
   `startPwa`. JavaScript's `parseInt(s, 10)`, `trim` and the regular
   expression classes `\s` and `.` are modelled in `JsText`.
2. **Server, POST /pwas/add** (`AddPwa`). The pure steps of the handler:
   - normalising the manifest URL (trim, then `http://` becomes `https://`);
   - the message for a missing URL or token;
   - the table from numeric rejection codes to messages;
   - stripping `ERROR:<white space><message>.` from array entries and
     joining them with `", "`;
   - the handler's response as a function of the submission and of how
     verifying and saving ended.
3. **Client, shell chrome** (`ChromeState`, `Chrome`). Class `Shell` keeps a
   route-to-descriptor map and the current descriptor. On a route change it
   shows or hides the backlink, the subtitle, the `#search` form and the two
   tabs, and moves the `activetab` mark. Class `SearchButton` toggles the
   same `#search` form and calls back into the shell to hide the tabs or to
   restore them. The classes are proved against the value-level functions of
   `ChromeState`.
4. **Client, signals** (`Projection`, `Broadcast`). Connectivity and sign-in
   events write `"true"`/`"false"` into the dataset of every aware element
   and dispatch `change` to each. The element's `change` listeners project
   the dataset onto `disabled`, opacity, click suppression, display and the
   auth button's label. Class `Page` holds the document's elements in
   document order and runs the broadcast loops and the start-up steps.

Collaborators whose code is outside the model are inputs:
- the page of entries the catalogue or the search index returns (`ListPage`);
- how verifying the token and saving ended (`SaveOutcome`);
- the HEAD probe of a card link, as a map from href to response status.

Three behaviours of the code worth knowing:
- the page number is not clamped to 1 or more, so negative values pass
  through (and from page -1 the next-page link carries 0, which falls back
  to page 1);
- `previousPageNumber` is 0 on page 1 and `false` only on page 2;
- a broadcast dispatches `change` even when the value did not change.

## Model

| member | source | states |
|---|---|---|
| JsText.TrimSpec | controllers/pwa.js:137 | `trim` yields a string with no white space at either end, and the input is that string with white space before and after it |
| JsText.Trim | controllers/pwa.js:137 | `s.trim()`: no longer than `s` and without trailing white space (`TrimSpec` gives both ends and the padding) |
| JsText.TrimOfPadded | controllers/pwa.js:137 | trimming a trimmed string padded with white space gives back exactly that string |
| JsText.TrimIdempotent | controllers/pwa.js:137 | trimming twice is trimming once |
| JsText.ParseIntReadsDecimal | controllers/pwa.js:47-50 | `parseInt(s, 10)` skips leading white space, takes an optional sign, reads the decimal digits and ignores what follows them |
| JsText.ParseInt | controllers/pwa.js:47-50 | `parseInt(s, 10)` gives a number iff, after leading white space and at most one sign, a decimal digit follows; NaN otherwise |
| JsText.ParseIntReadsDigits | controllers/pwa.js:47-50 | `parseInt(s, 10)` reads any run of digits, leading zeros included, with its sign, after leading white space and before a non-digit |
| JsText.ParseIntLeadingZeros | controllers/pwa.js:47-50 | "007" parses to 7 and "00" to 0 (which then falls back) |
| JsText.ParseIntDecimal | controllers/pwa.js:47-50 | `parseInt` reads back the decimal spelling of any natural number |
| JsText.ParseIntWithoutDigits | controllers/pwa.js:47-50 | a string with no decimal digit parses to NaN |
| JsText.DecimalValue | controllers/pwa.js:47-50 | the digits of a number's decimal spelling have that number as their value |
| ListView.IntOr | controllers/pwa.js:47-50 | `parseInt(raw, 10) \|\| fallback`: an absent, unparsable or zero parameter gives the fallback; otherwise the parsed, non-zero value |
| ListView.StringOr | controllers/pwa.js:48 | `raw \|\| fallback`: an absent or empty string gives the fallback; otherwise the value itself |
| ListView.SetupListViewState | controllers/pwa.js:34-53 | without `query`: main page, no backlink, no search and no search query; with `query`, even empty: backlink, search and the query verbatim; page, start and limit are the parsed values, negative ones included, unless the parameter is absent, unparsable or zero, in which case they are 1, (page-1)*32 and 32 respectively, each parameter on its own; the sort order is a non-empty `sort` as given and "newest" otherwise; `end` is the page number times 32 |
| ListView.DefaultsWhenMalformed | controllers/pwa.js:47-51 | absent, unparsable or zero numbers and an absent or empty sort give page 1, "newest", start 0, limit 32, end 32 |
| ListView.StartFollowsPage | controllers/pwa.js:47-51 | a page ±p given without a start, positive or negative, gives that page, start (±p-1)*32 and end ±p*32 |
| ListView.ExplicitStartWins | controllers/pwa.js:49 | an explicit non-zero start, negative or not, is used as given, whatever the page |
| ListView.PageThreeStartsAt64 | controllers/pwa.js:47-49 | page "3" without a start gives start 64 |
| ListView.SetupListViewArguments | controllers/pwa.js:58-78 | there is a previous page iff the page number exceeds 1; the next page is one more; the previous-page number is `false` exactly at page 2 and one less otherwise; the sort order is `false` exactly when it is "newest" and otherwise kept; "show newest" is set iff the order is "newest" and "show score" iff it is "score", so never both; `startPwa` is start plus 1; entries, more-flag and query fields pass through |
| ListView.SortOrderRoundTrip | controllers/pwa.js:48-68 | feeding the displayed sort order back as the `sort` parameter resolves to the same sort order |
| ListView.NextPageLink | controllers/pwa.js:47-65 | from any page other than -1, negative pages included, the next-page number, fed back as `page`, resolves to the following page |
| ListView.PreviousPageLink | controllers/pwa.js:47-66 | from any page above 1, the previous-page link resolves to the page before, also at page 2 where it carries no number |
| ListView.NextPageLinkFromMinusOne | controllers/pwa.js:47-65 | from page -1 the next-page link carries 0, which falls back to page 1 |
| ListView.FirstPagePreviousIsZero | controllers/pwa.js:64-66 | page 1 has no previous page and its previous-page number is 0 |
| AddPwa.NormalizeManifestUrl | controllers/pwa.js:137-140 | the URL is trimmed; a leading `http://` becomes `https://` and any other URL is left as trimmed; the result never starts with `http://` |
| AddPwa.NormalizeIdempotent | controllers/pwa.js:137-140 | normalising a normalised URL changes nothing |
| AddPwa.NormalizeIgnoresPadding | controllers/pwa.js:137-140 | white space around a URL does not change its normal form |
| AddPwa.MissingFieldMessage | controllers/pwa.js:144-149 | no message iff the URL is non-empty and a non-empty token is present; "no manifest provided" for an empty URL, "user not logged in" for a missing token |
| AddPwa.CodeMessage | controllers/pwa.js:164-180 | each of the four named codes has a message and any other number has none |
| AddPwa.CodeMessagesDistinct | controllers/pwa.js:166-177 | different named codes give different messages, whatever the URL |
| AddPwa.MatchErrorEntry | controllers/pwa.js:186 | a match means the entry is `ERROR:`, at least one white-space character, the capture, and a final period; the capture does not start with white space and holds no line terminator |
| AddPwa.MatchErrorEntryCaptures | controllers/pwa.js:186-187 | every entry of that shape matches and captures its message |
| AddPwa.StripEntry | controllers/pwa.js:185-188 | an entry becomes its capture when it matches and stays verbatim otherwise |
| AddPwa.StripEntries | controllers/pwa.js:185-188 | every entry is stripped, position by position |
| AddPwa.FormatEntries | controllers/pwa.js:184-190 | an empty array formats to ""; otherwise the text starts with the first entry's stripped message |
| AddPwa.JoinAppend | controllers/pwa.js:188 | joining a concatenation is joining the two halves with the separator between them |
| AddPwa.FormatEntriesAppend | controllers/pwa.js:184-190 | the formatted messages of a list are those of its two halves in order, joined by ", " |
| AddPwa.FormatSingleEntry | controllers/pwa.js:184-190 | one entry formats to its stripped form |
| AddPwa.RejectionMessage | controllers/pwa.js:163-190 | a named code shows its message and an unknown number none; an array shows its entries stripped and joined by ", "; any other value is shown as it is |
| AddPwa.AddPwa | controllers/pwa.js:136-199 | a redirect happens iff the normalised URL is non-empty, the token is present and the save succeeded, and it goes to the base URL, "/" and the new id; the form is shown again with the normalised URL; a missing field shows its missing-field message; the rejection is passed on, with its number, iff both fields are present and the save failed with an unknown numeric code |
| AddPwa.MissingFieldIgnoresSave | controllers/pwa.js:144-152 | with a field missing, the response is the form and does not depend on verifying or saving |
| AddPwa.RejectionShownOnForm | controllers/pwa.js:163-197 | with both fields present, a rejection other than an unknown number is shown on the form as its message |
| AddPwa.MissingTokenIsNotLoggedIn | controllers/pwa.js:144-149 | a non-empty URL with a missing token is reported as "user not logged in", whatever saving would do |
| AddPwa.BlankUrlIsMissing | controllers/pwa.js:137-149 | a URL of white space only is reported as "no manifest provided" |
| ChromeState.ShowTabs | public/js/shell.js:35 | before any route change tabs are not shown on hiding the form; afterwards they are shown iff the current descriptor shows tabs |
| ChromeState.RouteTab | public/js/shell.js:52-63 | a tab is hidden iff the descriptor hides tabs; with a current tab set, it is marked iff its id is the current tab; otherwise its mark is kept |
| ChromeState.RouteTabs | public/js/shell.js:71 | every tab is updated by the same descriptor, position by position |
| ChromeState.AfterRoute | public/js/shell.js:65-72 | the descriptor becomes current; backlink, subtitle and search form are hidden iff the descriptor's flag is off; every tab is hidden iff `showTabs` is off; with a current tab exactly the tab with that id is marked; without one the marks are unchanged |
| ChromeState.ShowAllTabs | public/js/shell.js:31-36 | every tab gets the same visibility and keeps its mark |
| ChromeState.AfterShowForm | public/js/shell.js:31-33 | the `onShowForm` callback hides every tab, marks kept, and changes nothing else |
| ChromeState.AfterHideForm | public/js/shell.js:34-36 | the `onHideForm` callback hides each tab iff there is no current descriptor or it does not show tabs, marks kept, and changes nothing else |
| ChromeState.AfterClick | public/js/search-button.js:35-49 | the form's hidden flag flips; other chrome and the marks are unchanged; afterwards each tab is hidden iff the form was hidden or the current descriptor does not show tabs |
| ChromeState.ClickEffectOf | public/js/search-button.js:36-48 | the default action is always prevented; the input is focused iff the form was hidden; without options no callback runs, otherwise exactly the show or the hide callback |
| ChromeState.AfterRouteIdempotent | public/js/shell.js:44-72 | applying the same route twice gives the chrome of applying it once |
| ChromeState.AfterRouteForgetsPast | public/js/shell.js:52-72 | when the route names a tab, the chrome after the change does not depend on the chrome before it |
| ChromeState.TwoClicksRestoreForm | public/js/search-button.js:37-48 | two clicks restore the form's hidden flag |
| ChromeState.OpenCloseShowsRouteTabs | public/js/search-button.js:35-49 | opening then closing the form leaves each tab hidden iff the current route does not show tabs |
| ChromeState.OpenCloseAfterRoute | public/js/shell.js:31-72 | after a route that hides the form, opening and closing it gives back exactly the chrome of the route change |
| ChromeState.CloseBeforeAnyRoute | public/js/shell.js:22-35 | closing the form before any route change hides every tab |
| Chrome.Shell.constructor | public/js/shell.js:21-38 | no route is registered, there is no current descriptor, and a fresh search button on the same `#search` form calls back into this shell |
| Chrome.Shell.SetStateForRoute | public/js/shell.js:40-42 | the route maps to the new descriptor, overwriting an old one; every other route is unaffected |
| Chrome.Shell.ShowElement | public/js/shell.js:44-50 | only the given element's `hidden` flag changes, to the opposite of `visible` |
| Chrome.Shell.UpdateTab | public/js/shell.js:52-63 | the tab ends as `RouteTab` of its old state |
| Chrome.Shell.ClickSearch | public/js/search-button.js:35-49 | a click on the shell's own search button flips the shared form, gives `ClickEffectOf` the old flag with callbacks, and leaves the chrome as `AfterClick` of the old chrome |
| Chrome.Shell.OnRouteChange | public/js/shell.js:65-72 | for a registered route, the chrome ends as `AfterRoute` of the old chrome with that route's descriptor; the route map is unchanged |
| Chrome.Shell.ShowTabs | public/js/shell.js:31-36 | every tab's visibility is set, marks and other chrome unchanged |
| Chrome.Shell.OnShowForm | public/js/shell.js:31-33 | the chrome ends as `AfterShowForm` of the old chrome: every tab hidden |
| Chrome.Shell.OnHideForm | public/js/shell.js:34-36 | the chrome ends as `AfterHideForm` of the old chrome: tabs as the current descriptor says, hidden before any route |
| Chrome.SearchButton.Click | public/js/search-button.js:35-49 | the shared form's hidden flag flips; the effect is `ClickEffectOf` the old flag; with a shell, the shell's chrome ends as `AfterClick` of the old chrome |
| Projection.ParseFlag | public/js/gulliver.es6.js:106-107 | a dataset entry parses to a boolean only when it is that boolean's stringification |
| Projection.ParseStringify | public/js/gulliver.es6.js:57-107 | parsing what the broadcast writes gives back the boolean |
| Projection.OnChange | public/js/gulliver.es6.js:105-229 | one `change` event on an element: only the bound label listener writes the text; an element outside the online-aware class only has its label updated; an unparsable online entry leaves everything but the banner and the label as it was; the banner is always displayed |
| Projection.ButtonDivRule | public/js/gulliver.es6.js:139-148 | the `div.button` listener: opacity 1 with clicks allowed when online, opacity 0.5 with clicks cancelled offline; nothing else changes |
| Projection.CardRule | public/js/gulliver.es6.js:152-176 | the card listener: active when online; offline, active on a 200 probe, opacity 0.5 with clicks cancelled on any other status, and unchanged without an href or when the probe rejected; nothing else changes |
| Projection.BothAwareRule | public/js/gulliver.es6.js:105-127 | the both-aware listener: a button is disabled iff offline, or signed out unless it is the auth button; a div is active iff online and signed in, else opacity 0.5 with clicks cancelled; text and display are untouched |
| Projection.BannerRule | public/js/gulliver.es6.js:181-190 | the banner is displayed, with opacity 0 when the dataset says online and 1 otherwise; nothing else changes |
| Projection.AuthLabel | public/js/gulliver.es6.js:223-227 | the label is "Logout" iff the dataset's signed-in entry is "true", else "Login" |
| Projection.AuthClick | public/js/gulliver.es6.js:232-241 | a click signs out iff the label reads "Logout", and signs in otherwise |
| Projection.AuthButtonFollowsOnline | public/js/gulliver.es6.js:110-112 | the both-aware auth button is disabled iff offline, whatever the sign-in state |
| Projection.OtherButtonsNeedBoth | public/js/gulliver.es6.js:113-114 | any other both-aware button is disabled iff offline or signed out |
| Projection.BothAwareDivNeedsBoth | public/js/gulliver.es6.js:117-125 | a both-aware div is active iff online and signed in, and otherwise has opacity 0.5 with clicks cancelled |
| Projection.BothAwareOtherTagsUntouched | public/js/gulliver.es6.js:126 | the both-aware listener leaves tags other than buttons and divs alone |
| Projection.ButtonDivFollowsOnline | public/js/gulliver.es6.js:137-148 | an online-aware `div.button` is active iff online, and offline has opacity 0.5 with clicks cancelled |
| Projection.BannerShowsOffline | public/js/gulliver.es6.js:178-192 | the banner is always displayed, transparent online and opaque offline |
| Projection.CardFollowsProbe | public/js/gulliver.es6.js:150-176 | a card link is active when online; offline it is active iff its HEAD probe answered 200, has opacity 0.5 with clicks cancelled on any other status, and is unchanged without an href or when the probe rejected |
| Projection.OfflineDisablesButtons | public/js/gulliver.es6.js:109-115 | offline, every both-aware button is disabled, the auth button included |
| Projection.LabelTracksSignin | public/js/gulliver.es6.js:223-229 | once sign-in is set up, a `change` sets the label from the signed-in signal |
| Broadcast.BindLabel | public/js/gulliver.es6.js:221-230 | binding the auth button attaches its label listener and sets the label to "Logout" iff the dataset says signed in and to "Login" otherwise; the rest of the look, the dataset and the event count are unchanged |
| Broadcast.ReceiveOnline | public/js/gulliver.es6.js:53-69 | the connectivity broadcast on one element: an online-aware element gets the stringified value and one `change`, and its look becomes what its listeners make of the new dataset; any other element is unchanged; the sign-in entry and the label binding are untouched |
| Broadcast.ReceiveSignedin | public/js/gulliver.es6.js:88-92 | the sign-in broadcast on one element: a signed-in-aware element gets the stringified value and one `change`, and its look becomes what its listeners make of the new dataset; any other element is unchanged; the online entry and the label binding are untouched |
| Broadcast.StampSignedinAware | public/js/gulliver.es6.js:102-104 | a both-aware element's dataset is set to read offline and signed out, without a `change`; other elements keep their dataset; looks are untouched |
| Broadcast.StampBanner | public/js/gulliver.es6.js:180 | the banner's text becomes "Offline", nothing else changes; other elements are unchanged |
| Broadcast.OnlineDelivered | public/js/gulliver.es6.js:53-69 | an online-aware element reads back the broadcast value, keeps its signed-in entry, gets exactly one more `change`, and its look is what its listeners make of the new dataset; other elements are untouched |
| Broadcast.SignedinDelivered | public/js/gulliver.es6.js:88-92 | the same for the sign-in broadcast and signed-in-aware elements |
| Broadcast.RepeatedOnlineStillDispatches | public/js/gulliver.es6.js:53-60 | the same value broadcast twice leaves the dataset as once but dispatches `change` twice |
| Broadcast.BothSignalsReachElement | public/js/gulliver.es6.js:53-114 | after a connectivity and a sign-in broadcast, in either order, a both-aware element holds both signals, and a both-aware button other than the auth button is disabled iff offline or signed out |
| Broadcast.StartSeesSignedOut | public/js/gulliver.es6.js:292-303 | at start-up a both-aware element sees the browser's connectivity and "signed out" |
| Broadcast.ReadyLabelFollowsUser | public/js/gulliver.es6.js:210-230 | once the auth provider is ready, a signed-in-aware auth button reads "Logout" iff the user is signed in |
| Broadcast.FirstWithId | public/js/gulliver.es6.js:221 | the index of the first element with the id, or none when no element has it |
| Broadcast.AwareElement.constructor | public/js/gulliver.es6.js:55 | an aware element as the page's markup provides it, before any script runs (no `data-online` or `data-signedin` attribute, see "## Left out"): an empty dataset, no label listener and no `change` received |
| Broadcast.TokenInput.constructor | public/js/gulliver.es6.js:77-78 | the input holds the given value |
| Broadcast.Page.constructor | public/js/gulliver.es6.js:55 | the page holds the given, distinct elements in document order and the token input of the form, if any |
| Broadcast.Page.FindAuthButton | public/js/gulliver.es6.js:221 | `getElementById`: the first element whose id is `auth-button`, or none when no element has that id |
| Broadcast.Page.Dispatch | public/js/gulliver.es6.js:58 | one element's listeners run and its event count grows by one |
| Broadcast.Page.BroadcastOnline | public/js/gulliver.es6.js:53-69 | every element ends as `ReceiveOnline` of its old state: online-aware ones get the value and a `change`, the others are unchanged |
| Broadcast.Page.OnUserChange | public/js/gulliver.es6.js:71-93 | the form's token input, if the page has the form, gets the token when signed in and "" otherwise; every element ends as `ReceiveSignedin` of its old state |
| Broadcast.Page.SetupOnlineAware | public/js/gulliver.es6.js:178-180 | the banner's text becomes "Offline"; other elements are unchanged |
| Broadcast.Page.SetupSignedinAware | public/js/gulliver.es6.js:100-104 | both-aware elements start offline and signed out; other elements are unchanged |
| Broadcast.Page.Start | public/js/gulliver.es6.js:292-303 | each element ends as stamped by the two set-up steps, then given the browser's connectivity |
| Broadcast.Page.SetupSignin | public/js/gulliver.es6.js:221-230 | the first `auth-button` gets its label listener and a label from its dataset; every other element, and the whole page without an auth button, is unchanged |
| Broadcast.Page.OnAuthReady | public/js/gulliver.es6.js:208-230 | the current user is broadcast first, then the auth button is bound, so its first label reflects that user |
| Broadcast.Page.AuthButtonClick | public/js/gulliver.es6.js:232-241 | a click acts iff there is an auth button whose listeners are attached and which is not disabled, and it signs out iff that button's dataset says signed in |

## Left out

- Express routing, `render`, `res.send`, the redirect itself and the error middleware (controllers/pwa.js:85-110, 206-268): HTTP plumbing. `AddPwa.AddPwa` returns the response as a value.
- `GET /pwas/add` and `renderOnePwa` with its Lighthouse JSON parsing: not part of this model.
- The catalogue, the search index, token verification, Lighthouse and the page metadata (`pwaLib`, `libPwaIndex`, `verifyIdToken`, `lighthouseLib`, `libMetadata`) are not part of this model. Their results are inputs, and the metadata fields merged into the template arguments are not modelled.
- The `Pwa` model is not part of this model; the URL in the invalid-URL message is taken to be the normalised URL the entry was built from.
- A body without `manifestUrl` makes `trim` throw; the model takes the URL as a string.
- JsText.ParseIntReadsDecimal: `parseInt` is modelled on unbounded integers; the rounding of numbers beyond 2^53 is not modelled, and -0 is returned as 0 (both are falsy for `||`). Array-valued query parameters are not modelled.
- The regular expression is modelled by its meaning: `AddPwa.MatchErrorEntry` states the decomposition of a match rather than running a matcher.
- The `fetch` HEAD probe is asynchronous; the model takes its status as an input, a map from href to status, and an href missing from the map is a probe that rejected, which leaves the element unchanged.
- CSS transition strings, timing, and the order in which asynchronous callbacks interleave with later events: each handler runs to completion at once.
- Chrome.SearchButton.Click: focusing the search input is recorded as a flag in the effect only.
- The shell's router reference, the `#search-input` and `#search-button` lookups, and `_setupSearchElements`, which is never called.
- The Google sign-in library (`authInit`, `currentUser.listen`, `signIn`, `signOut`): the user is an input, and a click's call to the library is returned as an `AuthAction`.
- Service-worker registration, Firebase messaging, Google Analytics, `setupConfig` and the save-button double-submit guard: browser or foreign APIs.
- Broadcast.Page.OnUserChange: the token input is taken to exist whenever the page has the submission form, as the page's markup provides.
- The document is taken to be static after start-up: the elements of a `Page` are fixed. An element inserted later would receive the broadcasts' dataset writes but none of the listeners attached at start-up, which the model does not capture.
- The chrome elements are taken to exist: a missing `#backlink`, `#subtitle`, `#search` or tab would make `querySelector` return null and `_showElement` throw, which the model does not capture.
- Aware elements are taken to carry no `data-online` or `data-signedin` attribute in their markup: their datasets start empty, so an entry other than "true" or "false" (which `JSON.parse` could read as a number or `null`) never occurs, and `Projection.ParseFlag` treats it as a parse that throws.
- Logging to the console.
