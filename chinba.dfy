/**
 * The chinba (scheduling poll) events list page: the date summary of an
 * event, its badges, the status filter and page number, how that state is
 * written to and restored from the URL, and the parameters of the list request.
 */
module ChinbaPage {
  import opened Wrappers
  import opened Decimal
  import opened Query
  import opened Pagination
  import opened Badges

  /** The status filter options. */
  const StatusOptions: set<string> := {"all", "active", "completed", "expired"}

  /** Rows per page. */
  const PageSize: nat := 10

  /** The text between the first date and the number of further dates ("and"). */
  const Besides: string := " 외 "

  /** The unit after the number of further dates ("days"). */
  const Days: string := "일"

  /** The dates column: "-" for none, the date for one, else the first date and how many more. */
  function FormatDates(dates: seq<string>): (r: string)
    ensures |dates| == 0 ==> r == "-"
    ensures |dates| == 1 ==> r == dates[0]
    ensures |dates| >= 1 ==> |r| >= |dates[0]| && r[..|dates[0]|] == dates[0]
    ensures |dates| >= 2 ==> var k := |dates[0]| + |Besides|;
              |r| > k + 1 && r[..k] == dates[0] + Besides && r[|r| - 1] == '일'
              && r[k] != '0' && AllDigits(r[k..|r| - 1]) && DigitsValue(r[k..|r| - 1]) == |dates| - 1
  {
    if |dates| == 0 then "-"
    else
      var first := dates[0];
      if |dates| == 1 then first
      else
        var count := NatToString(|dates| - 1);
        DigitsValueOfNatToString(|dates| - 1);
        var r := first + Besides + count + Days;
        assert r[|first| + |Besides|..|r| - 1] == count;
        r
  }

  /** Where the first space of a text is (its length when it has none). */
  function FirstSpace(s: string): (i: nat)
    ensures i <= |s|
  {
    if s == [] || s[0] == ' ' then 0 else 1 + FirstSpace(s[1..])
  }

  /** A space-free word followed by a space: the first space is right after the word. */
  lemma {:induction false} FirstSpaceAfterWord(x: string, xs: string)
    requires ' ' !in x && |xs| > 0 && xs[0] == ' '
    ensures FirstSpace(x + xs) == |x|
  {
    if x == [] {
      assert x + xs == xs;
    } else {
      assert (x + xs)[0] == x[0];
      assert (x + xs)[1..] == x[1..] + xs;
      FirstSpaceAfterWord(x[1..], xs);
    }
  }

  /** Two space-free words that each run up to a space in the same text are the same word. */
  lemma SpaceFreePrefix(x: string, xs: string, y: string, ys: string)
    requires ' ' !in x && ' ' !in y
    requires |xs| > 0 && xs[0] == ' ' && |ys| > 0 && ys[0] == ' '
    requires x + xs == y + ys
    ensures x == y
  {
    FirstSpaceAfterWord(x, xs);
    FirstSpaceAfterWord(y, ys);
    assert x == (x + xs)[..|x|];
    assert y == (y + ys)[..|y|];
  }

  /**
   * The summary keeps what it shows: for dates written without spaces (as ISO
   * dates are), two non-empty lists with the same summary have the same first
   * date and the same length.
   */
  lemma FormatDatesDeterminesFirstAndCount(a: seq<string>, b: seq<string>)
    requires |a| >= 1 && |b| >= 1
    requires ' ' !in a[0] && ' ' !in b[0]
    requires FormatDates(a) == FormatDates(b)
    ensures a[0] == b[0] && |a| == |b|
  {
    var r := FormatDates(a);
    if |a| >= 2 && |b| >= 2 {
      assert r == a[0] + (Besides + NatToString(|a| - 1) + Days);
      assert r == b[0] + (Besides + NatToString(|b| - 1) + Days);
      SpaceFreePrefix(a[0], Besides + NatToString(|a| - 1) + Days, b[0], Besides + NatToString(|b| - 1) + Days);
      var k := |a[0]| + |Besides|;
      assert r[k..|r| - 1] == NatToString(|a| - 1);
      assert r[k..|r| - 1] == NatToString(|b| - 1);
      NatToStringInjective(|a| - 1, |b| - 1);
    }
  }

  /** The status badges; an unknown status is shown as in progress. */
  const StatusLabels: map<string, Badge> := map[
    "active" := Badge("진행중", Default),
    "completed" := Badge("종료", Secondary),
    "expired" := Badge("만료", Outline)
  ]

  function StatusBadge(status: string): (b: Badge)
    ensures status in StatusLabels ==> b == StatusLabels[status]
    ensures status !in StatusLabels ==> b == Badge("진행중", Default)
  {
    LookupOr(StatusLabels, status, "active")
  }

  /** The creator column: `nickname || 'User #' + id`. */
  function CreatorLabel(nickname: Option<string>, creatorId: nat): (r: string)
    ensures r != ""
    ensures nickname.Some? && nickname.value != "" ==> r == nickname.value
    ensures !(nickname.Some? && nickname.value != "") ==>
              |r| > 6 && r[..6] == "User #" && AllDigits(r[6..]) && DigitsValue(r[6..]) == creatorId
              && (r[6] != '0' || r == "User #0")
  {
    if nickname.Some? && nickname.value != "" then nickname.value
    else
      var id := NatToString(creatorId);
      DigitsValueOfNatToString(creatorId);
      assert ("User #" + id)[6..] == id;
      "User #" + id
  }

  /** Creators without a nickname are told apart by their id. */
  lemma AnonymousCreatorsDistinct(m: nat, n: nat)
    requires m != n
    ensures CreatorLabel(None, m) != CreatorLabel(None, n)
  {
  }

  /** The state of the page that its URL keeps. */
  datatype ChinbaState = ChinbaState(page: int, status: string)

  /** The URL query for a state: the page only past page 1, the status only when not "all". */
  function EncodeChinbaQuery(s: ChinbaState): (q: Params)
    ensures "page" in q <==> s.page > 1
    ensures "status" in q <==> s.status != "all"
    ensures q.Keys <= {"page", "status"}
  {
    PageEntry(s.page) + (if s.status != "all" then map["status" := s.status] else map[])
  }

  /** The state the page starts in for a URL query. */
  function DecodeChinbaQuery(q: Params): (s: ChinbaState)
    ensures s.page != 0 && s.status != ""
  {
    ChinbaState(PageParam(q), GetOr(q, "status", "all"))
  }

  /** Restoring the URL the page wrote gives back the state, from page 1 on. */
  lemma ChinbaQueryRoundTrip(s: ChinbaState)
    requires s.page >= 1 && s.status != ""
    ensures DecodeChinbaQuery(EncodeChinbaQuery(s)) == s
  {
    var rest: Params := if s.status != "all" then map["status" := s.status] else map[];
    assert EncodeChinbaQuery(s) == rest + PageEntry(s.page);
    PageParamRoundTrip(s.page, rest);
  }

  /** The list request: rows to skip and the limit always, the status only when it is not "all". */
  function ChinbaRequest(s: ChinbaState, limit: nat): (r: map<string, ParamValue>)
    ensures "skip" in r && r["skip"] == Number((s.page - 1) * limit)
    ensures "limit" in r && r["limit"] == Number(limit)
    ensures "status" in r <==> s.status != "all"
    ensures "status" in r ==> r["status"] == Text(s.status)
    ensures r.Keys <= {"skip", "limit", "status"}
  {
    var base := map["skip" := Number(Skip(s.page, limit)), "limit" := Number(limit)];
    if s.status != "all" then base["status" := Text(s.status)] else base
  }

  /** Reloading after the URL sync requests the same rows with the same filter. */
  lemma ReloadRequestsSameRows(s: ChinbaState, limit: nat)
    requires s.page >= 1 && s.status != ""
    ensures ChinbaRequest(DecodeChinbaQuery(EncodeChinbaQuery(s)), limit) == ChinbaRequest(s, limit)
  {
    ChinbaQueryRoundTrip(s);
  }

  /**
   * The page's own state: what the URL keeps, plus the fixed page size. The
   * methods are the page's event handlers; each sets what the handler sets.
   */
  class ChinbaView {
    var page: int
    var statusFilter: string
    const limit: nat

    ghost predicate Valid()
      reads this
    {
      statusFilter != ""
    }

    function State(): ChinbaState
      reads this
    {
      ChinbaState(page, statusFilter)
    }

    /** The initial state, restored from the URL query. */
    constructor FromQuery(q: Params)
      ensures Valid() && State() == DecodeChinbaQuery(q) && limit == PageSize
    {
      page := PageParam(q);
      statusFilter := GetOr(q, "status", "all");
      limit := PageSize;
    }

    /** Choosing a status filter: the filter changes and the page goes back to 1. */
    method HandleStatusFilterChange(value: string)
      requires Valid() && value in StatusOptions
      modifies this
      ensures Valid()
      ensures State() == ChinbaState(1, value)
    {
      statusFilter := value;
      page := 1;
    }

    /** The "previous" button, shown only when there is more than one page and disabled on page 1 and before it. */
    method GoPrev(totalPages: int)
      requires Valid() && PagerShown(totalPages) && !PrevDisabled(page)
      modifies this
      ensures Valid()
      ensures State() == old(State()).(page := PrevPage(old(page)))
    {
      page := if 1 >= page - 1 then 1 else page - 1;
    }

    /** The "next" button, shown only when there is more than one page and disabled on the last page and after it. */
    method GoNext(totalPages: int)
      requires Valid() && PagerShown(totalPages) && !NextDisabled(page, totalPages)
      modifies this
      ensures Valid()
      ensures State() == old(State()).(page := NextPage(old(page), totalPages))
    {
      page := if totalPages <= page + 1 then totalPages else page + 1;
    }

    /** A page-number button, shown only when there is more than one page. */
    method GoTo(p: int, totalPages: int)
      requires Valid() && PagerShown(totalPages) && Num(p) in PageWindow(page, totalPages)
      modifies this
      ensures Valid()
      ensures State() == old(State()).(page := p)
    {
      WindowNumbersInRange(page, totalPages, p);
      page := p;
    }

    /** The URL sync: the query is built parameter by parameter. */
    method SyncUrl() returns (q: Params)
      ensures q == EncodeChinbaQuery(State())
    {
      q := map[];
      if page > 1 {
        q := q["page" := NatToString(page)];
      }
      if statusFilter != "all" {
        q := q["status" := statusFilter];
      }
    }

    /** The parameters of the list request. */
    method RequestParams() returns (params: map<string, ParamValue>)
      ensures params == ChinbaRequest(State(), limit)
    {
      var skip := (page - 1) * limit;
      params := map["skip" := Number(skip), "limit" := Number(limit)];
      if statusFilter != "all" {
        params := params["status" := Text(statusFilter)];
      }
    }
  }
}
