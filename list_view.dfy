/** Server side of the list pages: turning raw query parameters into a view
    state (setupListViewState) and a view state plus one fetched page of
    entries into the arguments handed to the list template
    (setupListViewArguments). */
module ListView {
  import opened Wrappers
  import opened JsText

  const ListPageSize: int := 32
  const DefaultPageNumber: int := 1
  const DefaultSortOrder: string := "newest"

  /** The query string parameters the list routes read; `None` is `undefined`. */
  datatype Query = Query(
    query: Option<string>,
    page: Option<string>,
    sort: Option<string>,
    start: Option<string>,
    limit: Option<string>,
    contentOnly: Option<string>)

  datatype ViewState = ViewState(
    mainPage: bool,
    backlink: bool,
    search: bool,
    searchQuery: Option<string>,
    contentOnly: Option<string>,
    pageNumber: int,
    sortOrder: string,
    start: int,
    limit: int,
    end: int)

  /** `parseInt(raw, 10) || fallback`: NaN and zero both give the fallback. */
  function IntOr(raw: Option<string>, fallback: int): (r: int)
    ensures FallsBack(raw) ==> r == fallback
    ensures !FallsBack(raw) ==> ParseInt(raw.value) == Some(r) && r != 0
  {
    match raw
    case None => fallback
    case Some(s) =>
      match ParseInt(s)
      case None => fallback
      case Some(n) => if n != 0 then n else fallback
  }

  /** `raw || fallback` on a string parameter: absent and empty give the fallback. */
  function StringOr(raw: Option<string>, fallback: string): (r: string)
    ensures r == fallback || (raw == Some(r) && r != "")
    ensures raw.Some? && raw.value != "" ==> r == raw.value
  {
    if raw.Some? && raw.value != "" then raw.value else fallback
  }

  /** setupListViewState: permissive defaulting, never an error. */
  function SetupListViewState(q: Query): (vs: ViewState)
    ensures vs.mainPage <==> q.query.None?
    ensures vs.backlink <==> q.query.Some?
    ensures vs.search <==> q.query.Some?
    ensures vs.searchQuery == q.query
    ensures vs.contentOnly == q.contentOnly
    ensures vs.pageNumber != 0 && vs.limit != 0 && vs.sortOrder != ""
    ensures vs.pageNumber == (if FallsBack(q.page) then DefaultPageNumber else ParseInt(q.page.value).value)
    ensures vs.start == (if FallsBack(q.start) then (vs.pageNumber - 1) * ListPageSize else ParseInt(q.start.value).value)
    ensures vs.limit == (if FallsBack(q.limit) then ListPageSize else ParseInt(q.limit.value).value)
    ensures q.sort.Some? && q.sort.value != "" ==> vs.sortOrder == q.sort.value
    ensures q.sort.None? || q.sort == Some("") ==> vs.sortOrder == DefaultSortOrder
    ensures vs.end == vs.pageNumber * ListPageSize
  {
    var pageNumber := IntOr(q.page, DefaultPageNumber);
    ViewState(
      mainPage := q.query.None?,
      backlink := q.query.Some?,
      search := q.query.Some?,
      searchQuery := q.query,
      contentOnly := q.contentOnly,
      pageNumber := pageNumber,
      sortOrder := StringOr(q.sort, DefaultSortOrder),
      start := IntOr(q.start, (pageNumber - 1) * ListPageSize),
      limit := IntOr(q.limit, ListPageSize),
      end := pageNumber * ListPageSize)
  }

  /** A numeric parameter that falls back: absent, not a number, or zero. */
  predicate FallsBack(raw: Option<string>) {
    raw.None? || ParseInt(raw.value).None? || ParseInt(raw.value) == Some(0)
  }

  /** Malformed or absent paging and sorting parameters give the documented
      defaults: page 1, newest first, window 0..32. */
  lemma DefaultsWhenMalformed(q: Query)
    requires FallsBack(q.page) && FallsBack(q.start) && FallsBack(q.limit)
    requires q.sort.None? || q.sort == Some("")
    ensures var vs := SetupListViewState(q);
      vs.pageNumber == 1 && vs.sortOrder == "newest" && vs.start == 0
      && vs.limit == 32 && vs.end == 32
  {
  }

  /** A page number given without a start derives the window from it; a
      negative page passes through unchanged. */
  lemma StartFollowsPage(q: Query, sign: string, p: nat)
    requires IsSign(sign) && p >= 1 && q.page == Some(sign + Decimal(p)) && FallsBack(q.start)
    ensures var vs := SetupListViewState(q);
      vs.pageNumber == Signed(sign, p) && vs.start == (Signed(sign, p) - 1) * 32 && vs.end == Signed(sign, p) * 32
  {
    ReadsSigned(sign, p);
    assert !FallsBack(q.page);
  }

  /** An explicit non-zero start wins over the one derived from the page
      number, negative or not. */
  lemma ExplicitStartWins(q: Query, sign: string, s: nat)
    requires IsSign(sign) && s >= 1 && q.start == Some(sign + Decimal(s))
    ensures SetupListViewState(q).start == Signed(sign, s)
  {
    ReadsSigned(sign, s);
    assert !FallsBack(q.start);
  }

  /** A signed decimal parameter is read as its value, which is not zero. */
  lemma ReadsSigned(sign: string, n: nat)
    requires IsSign(sign) && n >= 1
    ensures ParseInt(sign + Decimal(n)) == Some(Signed(sign, n)) && Signed(sign, n) != 0
  {
    ParseIntReadsDecimal([], sign, n, []);
    assert [] + sign + Decimal(n) + [] == sign + Decimal(n);
  }

  lemma PageThreeStartsAt64(q: Query)
    requires q.page == Some("3") && q.start.None?
    ensures SetupListViewState(q).start == 64
  {
    assert Decimal(3) == "3";
    assert "" + Decimal(3) == "3";
    StartFollowsPage(q, "", 3);
  }

  // ---------------------------------------------------------------------
  // setupListViewArguments

  /** One page of entries as the catalog or the search index returns it. */
  datatype ListPage<T> = ListPage(pwas: seq<T>, hasMore: bool)

  /** `previousPageNumber`: `false` (the link carries no page number) or a number. */
  datatype PageLink = NoPageNumber | PageNumber(n: int)

  datatype ListArguments<T> = ListArguments(
    title: string,
    description: string,
    pwas: seq<T>,
    hasNextPage: bool,
    hasPreviousPage: bool,
    nextPageNumber: int,
    previousPageNumber: PageLink,
    currentPageNumber: int,
    sortOrder: Option<string>,
    showNewest: bool,
    showScore: bool,
    startPwa: int,
    mainPage: bool,
    search: bool,
    backlink: bool,
    searchQuery: Option<string>,
    contentOnly: Option<string>)

  /** setupListViewArguments; `sortOrder == None` is the template's `false`. */
  function SetupListViewArguments<T>(vs: ViewState, result: ListPage<T>): (a: ListArguments<T>)
    ensures a.pwas == result.pwas && a.hasNextPage == result.hasMore
    ensures a.hasPreviousPage <==> vs.pageNumber > 1
    ensures a.nextPageNumber == vs.pageNumber + 1 && a.currentPageNumber == vs.pageNumber
    ensures a.previousPageNumber == NoPageNumber <==> vs.pageNumber == 2
    ensures a.previousPageNumber.PageNumber? ==> a.previousPageNumber.n == vs.pageNumber - 1
    ensures a.sortOrder.None? <==> vs.sortOrder == DefaultSortOrder
    ensures a.sortOrder.Some? ==> a.sortOrder.value == vs.sortOrder
    ensures a.showNewest <==> a.sortOrder.None?
    ensures a.showScore <==> vs.sortOrder == "score"
    ensures !(a.showNewest && a.showScore)
    ensures a.startPwa == vs.start + 1
    ensures a.mainPage == vs.mainPage && a.search == vs.search && a.backlink == vs.backlink
    ensures a.searchQuery == vs.searchQuery && a.contentOnly == vs.contentOnly
  {
    ListArguments(
      title := "PWA Directory",
      description := "PWA Directory: A Directory of Progressive Web Apps",
      pwas := result.pwas,
      hasNextPage := result.hasMore,
      hasPreviousPage := vs.pageNumber > 1,
      nextPageNumber := vs.pageNumber + 1,
      previousPageNumber := if vs.pageNumber == 2 then NoPageNumber else PageNumber(vs.pageNumber - 1),
      currentPageNumber := vs.pageNumber,
      sortOrder := if vs.sortOrder == DefaultSortOrder then None else Some(vs.sortOrder),
      showNewest := vs.sortOrder == "newest",
      showScore := vs.sortOrder == "score",
      startPwa := vs.start + 1,
      mainPage := vs.mainPage,
      search := vs.search,
      backlink := vs.backlink,
      searchQuery := vs.searchQuery,
      contentOnly := vs.contentOnly)
  }

  /** The `page` parameter a link built from a page link carries. */
  function PageParam(link: PageLink): Option<string> {
    match link
    case NoPageNumber => None
    case PageNumber(n) => Some(if n >= 0 then Decimal(n) else "-" + Decimal(-n))
  }

  /** Omit-if-default loses nothing: feeding the displayed sort order back as
      the `sort` parameter resolves to the same sort order. */
  lemma SortOrderRoundTrip<T>(q: Query, result: ListPage<T>)
    ensures var vs := SetupListViewState(q);
      var a := SetupListViewArguments(vs, result);
      SetupListViewState(q.(sort := a.sortOrder)).sortOrder == vs.sortOrder
  {
  }

  /** From any page p other than -1, negative pages included, following the
      next-page link lands on page p + 1. */
  lemma NextPageLink<T>(q: Query, result: ListPage<T>)
    requires SetupListViewState(q).pageNumber != -1
    ensures var vs := SetupListViewState(q);
      var a := SetupListViewArguments(vs, result);
      SetupListViewState(q.(page := PageParam(PageNumber(a.nextPageNumber)))).pageNumber == vs.pageNumber + 1
  {
    var n := SetupListViewState(q).pageNumber + 1;
    if n > 0 {
      assert "" + Decimal(n) == Decimal(n);
      assert PageParam(PageNumber(n)) == Some("" + Decimal(n));
      ReadsSigned("", n);
      assert IntOr(Some("" + Decimal(n)), DefaultPageNumber) == n;
    } else {
      assert PageParam(PageNumber(n)) == Some("-" + Decimal(-n));
      ReadsSigned("-", -n);
      assert IntOr(Some("-" + Decimal(-n)), DefaultPageNumber) == n;
    }
  }

  /** From any page p > 1, following the previous-page link lands on page
      p - 1; at page 2 the link carries no page number and the default, page 1,
      applies. */
  lemma PreviousPageLink<T>(q: Query, result: ListPage<T>)
    requires SetupListViewState(q).pageNumber > 1
    ensures var vs := SetupListViewState(q);
      var a := SetupListViewArguments(vs, result);
      SetupListViewState(q.(page := PageParam(a.previousPageNumber))).pageNumber == vs.pageNumber - 1
  {
    var p := SetupListViewState(q).pageNumber;
    if p == 2 {
      assert IntOr(None, DefaultPageNumber) == 1;
    } else {
      assert PageParam(PageNumber(p - 1)) == Some(Decimal(p - 1));
      ParseIntDecimal(p - 1);
      assert IntOr(Some(Decimal(p - 1)), DefaultPageNumber) == p - 1;
    }
  }

  /** The one page the next-page link does not follow: from page -1 it
      carries 0, which falls back to page 1 rather than landing on page 0. */
  lemma NextPageLinkFromMinusOne<T>(q: Query, result: ListPage<T>)
    requires q.page == Some("-1")
    ensures var vs := SetupListViewState(q);
      var a := SetupListViewArguments(vs, result);
      && vs.pageNumber == -1
      && PageParam(PageNumber(a.nextPageNumber)) == Some("0")
      && SetupListViewState(q.(page := PageParam(PageNumber(a.nextPageNumber)))).pageNumber == 1
  {
    ParseIntReadsDecimal([], "-", 1, []);
    assert [] + "-" + Decimal(1) + [] == "-1";
    ParseIntDecimal(0);
    assert Decimal(0) == "0";
  }

  /** Page 1 has no previous page, yet its `previousPageNumber` is 0, not `false`. */
  lemma FirstPagePreviousIsZero<T>(vs: ViewState, result: ListPage<T>)
    requires vs.pageNumber == 1
    ensures var a := SetupListViewArguments(vs, result);
      !a.hasPreviousPage && a.previousPageNumber == PageNumber(0)
  {
  }
}
