/** The pure steps of the handler that submits a new catalog entry
    (POST /pwas/add): normalising the manifest URL, rejecting a submission
    with a missing field, and turning a rejection from the token verifier or
    the catalog into the message shown on the form. */
module AddPwa {
  import opened Wrappers
  import opened JsText

  const PlainScheme: string := "http://"
  const SecureScheme: string := "https://"

  /** Trim, then rewrite a leading `http://` to `https://`. */
  function NormalizeManifestUrl(raw: string): (url: string)
    ensures Trimmed(url)
    ensures !StartsWith(url, PlainScheme)
    ensures StartsWith(Trim(raw), PlainScheme) ==> url == SecureScheme + Trim(raw)[|PlainScheme|..]
    ensures !StartsWith(Trim(raw), PlainScheme) ==> url == Trim(raw)
  {
    TrimSpec(raw);
    var t := Trim(raw);
    if StartsWith(t, PlainScheme) then
      var url := SecureScheme + t[|PlainScheme|..];
      assert url[4] != PlainScheme[4];
      url
    else t
  }

  /** Normalising an already normalised URL changes nothing. */
  lemma NormalizeIdempotent(raw: string)
    ensures NormalizeManifestUrl(NormalizeManifestUrl(raw)) == NormalizeManifestUrl(raw)
  {
    var url := NormalizeManifestUrl(raw);
    assert [] + url + [] == url;
    TrimOfPadded([], url, []);
  }

  /** A URL with only white space around it normalises like the bare URL. */
  lemma NormalizeIgnoresPadding(front: string, url: string, back: string)
    requires AllWhite(front) && AllWhite(back) && Trimmed(url)
    ensures NormalizeManifestUrl(front + url + back) == NormalizeManifestUrl(url)
  {
    TrimOfPadded(front, url, back);
    TrimOfPadded([], url, []);
    assert [] + url + [] == url;
  }

  // ---------------------------------------------------------------------
  // Missing fields

  /** `!idToken`: an absent or empty token is missing. */
  predicate HasToken(idToken: Option<string>) {
    idToken.Some? && idToken.value != ""
  }

  /** The message for a submission lacking a URL or a token, if it lacks one. */
  function MissingFieldMessage(url: string, idToken: Option<string>): (m: Option<string>)
    ensures m.None? <==> url != "" && HasToken(idToken)
    ensures url == "" ==> m == Some("no manifest provided")
    ensures url != "" && !HasToken(idToken) ==> m == Some("user not logged in")
  {
    if url == "" || !HasToken(idToken) then
      Some(if url != "" then "user not logged in" else "no manifest provided")
    else None
  }

  // ---------------------------------------------------------------------
  // Rejections

  /** The numeric codes the catalog rejects with: four named constants and
      any other number. */
  datatype ErrorCode =
    | ManifestInvalidUrl
    | MissingUserInformation
    | ManifestUrlMissing
    | NotAPwa
    | OtherCode(n: int)

  /** What the verify-and-save chain rejects with: a number, an array of
      strings, or anything else (shown on the form as it is). */
  datatype Rejection =
    | Code(code: ErrorCode)
    | Entries(entries: seq<string>)
    | Other(message: string)

  /** The message for a named code; `None` for any other number. */
  function CodeMessage(code: ErrorCode, url: string): (m: Option<string>)
    ensures m.None? <==> code.OtherCode?
  {
    match code
    case ManifestInvalidUrl => Some("pwa.manifestUrl [" + url + "] is not a valid URL")
    case MissingUserInformation => Some("Missing user information")
    case ManifestUrlMissing => Some("Missing manifestUrl")
    case NotAPwa => Some("pwa is not an instance of Pwa")
    case OtherCode(_) => None
  }

  /** Different named codes give different messages, whatever the URL. */
  lemma CodeMessagesDistinct(c1: ErrorCode, c2: ErrorCode, url: string)
    requires !c1.OtherCode? && !c2.OtherCode? && c1 != c2
    ensures CodeMessage(c1, url) != CodeMessage(c2, url)
  {
    var prefix := "pwa.manifestUrl [";
    var invalid := prefix + url + "] is not a valid URL";
    assert invalid[..4] == "pwa.";
    assert invalid[|invalid| - 3..] == "URL";
  }

  /** The capture of `/^ERROR:\s+(.*)\.$/`, if the entry matches: the text
      after `ERROR:` and its white space, before the final period. The greedy
      `\s+` takes all the white space, and `.` matches no line terminator. */
  function MatchErrorEntry(e: string): (m: Option<string>)
    ensures m.Some? ==> |e| >= 8 + |m.value| && e[..6] == "ERROR:" && e[|e| - 1] == '.'
    ensures m.Some? ==>
      var w := e[6..|e| - 1 - |m.value|];
      && e == "ERROR:" + w + m.value + "."
      && |w| >= 1 && AllWhite(w)
      && (m.value == [] || !IsWhite(m.value[0]))
      && (forall i :: 0 <= i < |m.value| ==> !IsLineTerminator(m.value[i]))
  {
    if |e| >= 7 && e[..6] == "ERROR:" && e[|e| - 1] == '.' then
      var body := e[6..|e| - 1];
      var k := LeadingWhite(body);
      var rest := body[k..];
      if k >= 1 && (forall i :: 0 <= i < |rest| ==> !IsLineTerminator(rest[i])) then
        assert e == e[..6] + body[..k] + rest + [e[|e| - 1]];
        Some(rest)
      else None
    else None
  }

  /** Every entry of the documented shape is matched, capturing the message. */
  lemma MatchErrorEntryCaptures(w: string, msg: string)
    requires |w| >= 1 && AllWhite(w)
    requires msg == [] || !IsWhite(msg[0])
    requires forall i :: 0 <= i < |msg| ==> !IsLineTerminator(msg[i])
    ensures MatchErrorEntry("ERROR:" + w + msg + ".") == Some(msg)
  {
    var e := "ERROR:" + w + msg + ".";
    assert e[..6] == "ERROR:";
    assert e[6..|e| - 1] == w + msg;
    LeadingWhiteOfPadded(w, msg);
    assert (w + msg)[|w|..] == msg;
  }

  /** One entry as shown: the captured message, or the entry verbatim. */
  function StripEntry(e: string): (r: string)
    ensures MatchErrorEntry(e).Some? ==> r == MatchErrorEntry(e).value
    ensures MatchErrorEntry(e).None? ==> r == e
  {
    match MatchErrorEntry(e)
    case Some(m) => m
    case None => e
  }

  /** `parts.join(sep)`. */
  function Join(parts: seq<string>, sep: string): string {
    if |parts| == 0 then ""
    else if |parts| == 1 then parts[0]
    else parts[0] + sep + Join(parts[1..], sep)
  }

  /** Joining two non-empty lists is joining their joins. */
  lemma {:induction false} JoinAppend(a: seq<string>, b: seq<string>, sep: string)
    requires |a| >= 1 && |b| >= 1
    ensures Join(a + b, sep) == Join(a, sep) + sep + Join(b, sep)
  {
    if |a| == 1 {
      assert (a + b)[1..] == b;
    } else {
      assert (a + b)[1..] == a[1..] + b;
      JoinAppend(a[1..], b, sep);
    }
  }

  function StripEntries(entries: seq<string>): (r: seq<string>)
    ensures |r| == |entries|
    ensures forall i :: 0 <= i < |entries| ==> r[i] == StripEntry(entries[i])
  {
    if entries == [] then [] else [StripEntry(entries[0])] + StripEntries(entries[1..])
  }

  /** The array form of a rejection as one message: entries stripped, in
      order, joined with ", ". */
  function FormatEntries(entries: seq<string>): (r: string)
    ensures entries == [] ==> r == ""
    ensures |entries| >= 1 ==> StripEntry(entries[0]) <= r
  {
    Join(StripEntries(entries), ", ")
  }

  /** Formatting respects the order of entries: the messages of a longer list
      are those of its two halves, one after the other. */
  lemma FormatEntriesAppend(a: seq<string>, b: seq<string>)
    requires |a| >= 1 && |b| >= 1
    ensures FormatEntries(a + b) == FormatEntries(a) + ", " + FormatEntries(b)
  {
    assert StripEntries(a + b) == StripEntries(a) + StripEntries(b);
    JoinAppend(StripEntries(a), StripEntries(b), ", ");
  }

  lemma FormatSingleEntry(e: string)
    ensures FormatEntries([e]) == StripEntry(e)
  {
  }

  /** The message shown for a rejection; `None` when the handler passes the
      rejection on to the error middleware instead (an unknown number). */
  function RejectionMessage(reason: Rejection, url: string): (m: Option<string>)
    ensures m.None? <==> reason.Code? && reason.code.OtherCode?
    ensures reason.Code? ==> m == CodeMessage(reason.code, url)
    ensures reason.Entries? ==> m == Some(FormatEntries(reason.entries))
    ensures reason.Other? ==> m == Some(reason.message)
  {
    match reason
    case Code(code) => CodeMessage(code, url)
    case Entries(entries) => Some(FormatEntries(entries))
    case Other(message) => Some(message)
  }

  // ---------------------------------------------------------------------
  // The handler

  datatype Submission = Submission(manifestUrl: string, idToken: Option<string>)

  /** How verifying the token and saving the entry ended. */
  datatype SaveOutcome = Saved(id: string) | Failed(reason: Rejection)

  datatype AddResponse =
    | FormWithError(manifestUrl: string, error: string)
    | RedirectTo(location: string)
    | PassOn(code: int)

  /** POST /add: the form again with a message, a redirect to the new entry,
      or an unknown numeric code handed to the error middleware. The outcome
      of verifying and saving matters only when both fields are present. */
  function AddPwa(sub: Submission, baseUrl: string, save: SaveOutcome): (resp: AddResponse)
    ensures resp.FormWithError? ==> resp.manifestUrl == NormalizeManifestUrl(sub.manifestUrl)
    ensures var url := NormalizeManifestUrl(sub.manifestUrl);
      MissingFieldMessage(url, sub.idToken).Some? ==>
        resp == FormWithError(url, MissingFieldMessage(url, sub.idToken).value)
    ensures resp.RedirectTo? <==>
      NormalizeManifestUrl(sub.manifestUrl) != "" && HasToken(sub.idToken) && save.Saved?
    ensures resp.RedirectTo? ==> resp.location == baseUrl + "/" + save.id
    ensures resp.PassOn? <==>
      && NormalizeManifestUrl(sub.manifestUrl) != "" && HasToken(sub.idToken)
      && save.Failed? && save.reason.Code? && save.reason.code.OtherCode?
    ensures resp.PassOn? ==> save == Failed(Code(OtherCode(resp.code)))
  {
    var url := NormalizeManifestUrl(sub.manifestUrl);
    match MissingFieldMessage(url, sub.idToken)
    case Some(message) => FormWithError(url, message)
    case None =>
      match save
      case Saved(id) => RedirectTo(baseUrl + "/" + id)
      case Failed(reason) =>
        match RejectionMessage(reason, url)
        case Some(message) => FormWithError(url, message)
        case None => PassOn(reason.code.n)
  }

  /** A submission without a URL or a token never reaches the verifier: the
      response does not depend on what verifying and saving would do. */
  lemma MissingFieldIgnoresSave(sub: Submission, baseUrl: string, s1: SaveOutcome, s2: SaveOutcome)
    requires NormalizeManifestUrl(sub.manifestUrl) == "" || !HasToken(sub.idToken)
    ensures AddPwa(sub, baseUrl, s1) == AddPwa(sub, baseUrl, s2)
    ensures AddPwa(sub, baseUrl, s1).FormWithError?
  {
  }

  /** With both fields present, a rejection is shown on the form as its
      message, unless it is an unknown number. */
  lemma RejectionShownOnForm(sub: Submission, baseUrl: string, reason: Rejection)
    requires NormalizeManifestUrl(sub.manifestUrl) != "" && HasToken(sub.idToken)
    requires !(reason.Code? && reason.code.OtherCode?)
    ensures AddPwa(sub, baseUrl, Failed(reason))
            == FormWithError(NormalizeManifestUrl(sub.manifestUrl),
                             RejectionMessage(reason, NormalizeManifestUrl(sub.manifestUrl)).value)
  {
  }

  /** A URL with a missing token is reported as "user not logged in". */
  lemma MissingTokenIsNotLoggedIn(sub: Submission, baseUrl: string, save: SaveOutcome)
    requires NormalizeManifestUrl(sub.manifestUrl) != "" && !HasToken(sub.idToken)
    ensures AddPwa(sub, baseUrl, save)
            == FormWithError(NormalizeManifestUrl(sub.manifestUrl), "user not logged in")
  {
  }

  /** A URL of white space only is reported as missing, before the token. */
  lemma BlankUrlIsMissing(sub: Submission, baseUrl: string, save: SaveOutcome)
    requires AllWhite(sub.manifestUrl)
    ensures AddPwa(sub, baseUrl, save) == FormWithError("", "no manifest provided")
  {
    assert sub.manifestUrl + [] + [] == sub.manifestUrl;
    TrimOfPadded(sub.manifestUrl, [], []);
  }
}
