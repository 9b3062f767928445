/**
 * The users list page of the admin console: its sort toggle, its filters and
 * page number, how that state is written to and restored from the URL, the
 * parameters of the list request, and the badges of the table.
 */
module UsersPage {
  import opened Wrappers
  import opened Decimal
  import opened Query
  import opened Pagination
  import opened Badges

  /** One entry of the table's sort state: a column and whether it sorts descending. */
  datatype SortEntry = SortEntry(id: string, desc: bool)

  const DefaultSortColumn: string := "created_at"

  /** Newest sign-ups first. */
  const DefaultSort: seq<SortEntry> := [SortEntry(DefaultSortColumn, true)]

  /** The headers that toggle sorting. */
  const SortableColumns: set<string> := {"email", "nickname", "created_at"}

  /** The user-type tabs and the role filter options. */
  const UserTypeTabs: set<string> := {"all", "student", "mentor"}
  const RoleOptions: set<string> := {"all", "user", "admin", "super_admin"}

  /** Rows per page. */
  const PageSize: nat := 10

  /** `sorting.find(s => s.id === column)`: the first entry for `column`, if any. */
  function FindSort(sorting: seq<SortEntry>, column: string): (r: Option<SortEntry>)
    ensures r.None? <==> forall i :: 0 <= i < |sorting| ==> sorting[i].id != column
    ensures r.Some? ==> exists i :: 0 <= i < |sorting| && sorting[i] == r.value && r.value.id == column
                          && forall j :: 0 <= j < i ==> sorting[j].id != column
  {
    if sorting == [] then None
    else if sorting[0].id == column then Some(sorting[0])
    else
      var r := FindSort(sorting[1..], column);
      assert r.Some? ==> exists i :: 0 <= i < |sorting[1..]| && sorting[1..][i] == r.value
                          && forall j :: 0 <= j < i ==> sorting[1..][j].id != column;
      assert r.Some? ==> exists i :: 0 <= i < |sorting| && sorting[i] == r.value
                          && forall j :: 0 <= j < i ==> sorting[j].id != column by {
        if r.Some? {
          var i :| 0 <= i < |sorting[1..]| && sorting[1..][i] == r.value
                   && forall j :: 0 <= j < i ==> sorting[1..][j].id != column;
          assert sorting[i + 1] == r.value;
          assert forall j :: 0 <= j < i + 1 ==> sorting[j].id != column by {
            forall j | 0 <= j < i + 1 ensures sorting[j].id != column {
              if j > 0 { assert sorting[j] == sorting[1..][j - 1]; }
            }
          }
        }
      }
      r
  }

  /** The arrow drawn beside a sortable header. */
  datatype Arrow = Unsorted | Down | Up

  /** The arrow of `column`: down when it sorts descending, up when ascending, neutral otherwise. */
  function HeaderArrow(sorting: seq<SortEntry>, column: string): (a: Arrow)
    ensures a == Unsorted <==> forall i :: 0 <= i < |sorting| ==> sorting[i].id != column
    ensures a != Unsorted ==> exists i :: 0 <= i < |sorting| && sorting[i].id == column && (a == Down <==> sorting[i].desc)
  {
    match FindSort(sorting, column)
    case None => Unsorted
    case Some(e) => if e.desc then Down else Up
  }

  /**
   * The arrow a click on a header leads to: neutral, then down, then up, then
   * back to what the default sort shows for that column.
   */
  function NextArrow(a: Arrow, column: string): (b: Arrow)
    ensures b != a
    ensures b == Unsorted ==> a == Up && column != DefaultSortColumn
  {
    match a
    case Unsorted => Down
    case Down => Up
    case Up => if column == DefaultSortColumn then Down else Unsorted
  }

  /**
   * A click on the header of `column`: an unsorted column sorts descending, a
   * descending one ascending, and an ascending one gives way to the default.
   */
  function ToggleSort(prev: seq<SortEntry>, column: string): (r: seq<SortEntry>)
    ensures |r| == 1
    ensures r[0].id == column || r == DefaultSort
    ensures HeaderArrow(r, column) == NextArrow(HeaderArrow(prev, column), column)
    ensures forall other :: other != column && other != DefaultSortColumn ==> HeaderArrow(r, other) == Unsorted
  {
    match FindSort(prev, column)
    case None => [SortEntry(column, true)]
    case Some(current) =>
      if current.desc then [SortEntry(column, false)] else DefaultSort
  }

  /** Three clicks on a column other than the default one return to the default sort. */
  lemma ToggleCycle(prev: seq<SortEntry>, column: string)
    requires column != DefaultSortColumn && HeaderArrow(prev, column) == Unsorted
    ensures ToggleSort(prev, column) == [SortEntry(column, true)]
    ensures ToggleSort(ToggleSort(prev, column), column) == [SortEntry(column, false)]
    ensures ToggleSort(ToggleSort(ToggleSort(prev, column), column), column) == DefaultSort
  {
  }

  /** Two clicks on the default column from the default sort return to it. */
  lemma DefaultColumnCycle()
    ensures ToggleSort(DefaultSort, DefaultSortColumn) == [SortEntry(DefaultSortColumn, false)]
    ensures ToggleSort(ToggleSort(DefaultSort, DefaultSortColumn), DefaultSortColumn) == DefaultSort
  {
  }

  /** The state of the page that its URL keeps. */
  datatype UsersState = UsersState(page: int, userType: string, role: string, sorting: seq<SortEntry>)

  /** The states the page can be in after loading: filters set, one sort entry on a named column. */
  predicate WellFormed(s: UsersState) {
    s.userType != "" && s.role != "" && |s.sorting| == 1 && s.sorting[0].id != ""
  }

  /** The sort parameters: written unless the state is the default sort (or has no entry). */
  function SortEntries(sorting: seq<SortEntry>): (q: Params)
    ensures ("sort" in q) == ("order" in q)
    ensures "sort" in q <==> |sorting| > 0 && sorting[0] != SortEntry(DefaultSortColumn, true)
    ensures q.Keys <= {"sort", "order"}
  {
    if |sorting| > 0 && (sorting[0].id != DefaultSortColumn || !sorting[0].desc) then
      map["sort" := sorting[0].id, "order" := if sorting[0].desc then "desc" else "asc"]
    else map[]
  }

  /** The URL query for a state: every parameter is left out when it holds its default. */
  function EncodeUsersQuery(s: UsersState): (q: Params)
    ensures "page" in q <==> s.page > 1
    ensures "user_type" in q <==> s.userType != "all"
    ensures "role" in q <==> s.role != "all"
    ensures q.Keys <= {"page", "user_type", "role", "sort", "order"}
  {
    PageEntry(s.page) + FilterEntries(s)
  }

  /** The initial sort: a non-empty `sort` parameter, descending unless `order` is "asc"; else the default. */
  function SortParam(q: Params): (r: seq<SortEntry>)
    ensures |r| == 1 && r[0].id != ""
    ensures "sort" in q && q["sort"] != "" ==>
              r[0].id == q["sort"] && (r[0].desc <==> !("order" in q && q["order"] == "asc"))
    ensures !("sort" in q && q["sort"] != "") ==> r == DefaultSort
  {
    var sort := GetOr(q, "sort", "");
    if sort != "" then [SortEntry(sort, Get(q, "order") != Some("asc"))] else DefaultSort
  }

  /** The state the page starts in for a URL query. */
  function DecodeUsersQuery(q: Params): (s: UsersState)
    ensures WellFormed(s) && s.page != 0
  {
    UsersState(PageParam(q), GetOr(q, "user_type", "all"), GetOr(q, "role", "all"), SortParam(q))
  }

  /** The parameters after `page`, in the order the sync sets them. */
  function FilterEntries(s: UsersState): (q: Params)
    ensures "page" !in q
    ensures "user_type" in q <==> s.userType != "all"
    ensures "user_type" in q ==> q["user_type"] == s.userType
    ensures "role" in q <==> s.role != "all"
    ensures "role" in q ==> q["role"] == s.role
    ensures forall k :: k in SortEntries(s.sorting) ==> k in q && q[k] == SortEntries(s.sorting)[k]
    ensures "sort" !in SortEntries(s.sorting) ==> "sort" !in q
  {
    (if s.userType != "all" then map["user_type" := s.userType] else map[])
    + (if s.role != "all" then map["role" := s.role] else map[])
    + SortEntries(s.sorting)
  }

  /** A parameter set only when `cond` holds. */
  function SetIf(q: Params, cond: bool, key: string, value: string): Params {
    if cond then q[key := value] else q
  }

  lemma SetIfIsUnion(q: Params, cond: bool, key: string, value: string)
    ensures SetIf(q, cond, key, value) == q + (if cond then map[key := value] else map[])
  {
  }

  lemma UnionAssoc(a: Params, b: Params, c: Params)
    ensures a + b + c == a + (b + c)
  {
  }

  /** Setting `page`, `user_type` and `role` one after another gives the union of their entries. */
  lemma FilterSteps(s: UsersState)
    ensures var q1 := if s.page > 1 then map[]["page" := NatToString(s.page)] else map[];
            SetIf(SetIf(q1, s.userType != "all", "user_type", s.userType), s.role != "all", "role", s.role)
            == PageEntry(s.page)
               + (if s.userType != "all" then map["user_type" := s.userType] else map[])
               + (if s.role != "all" then map["role" := s.role] else map[])
  {
    var q1 := if s.page > 1 then map[]["page" := NatToString(s.page)] else map[];
    assert q1 == PageEntry(s.page);
    SetIfIsUnion(q1, s.userType != "all", "user_type", s.userType);
    SetIfIsUnion(SetIf(q1, s.userType != "all", "user_type", s.userType), s.role != "all", "role", s.role);
  }

  /** Setting `sort` and then `order` when the sort is not the default adds the sort entries. */
  lemma SortStep(q: Params, sorting: seq<SortEntry>)
    ensures var sorted := |sorting| > 0 && (sorting[0].id != DefaultSortColumn || !sorting[0].desc);
            var withSort := if sorted then q["sort" := sorting[0].id] else q;
            (if sorted then withSort["order" := if sorting[0].desc then "desc" else "asc"] else withSort)
            == q + SortEntries(sorting)
  {
  }

  /** The URL query is what setting its parameters one after another, as the sync does, produces. */
  lemma EncodeUsersQueryBySteps(s: UsersState)
    ensures var sorted := |s.sorting| > 0 && (s.sorting[0].id != DefaultSortColumn || !s.sorting[0].desc);
            var q1 := if s.page > 1 then map[]["page" := NatToString(s.page)] else map[];
            var q3 := SetIf(SetIf(q1, s.userType != "all", "user_type", s.userType), s.role != "all", "role", s.role);
            var q4 := if sorted then q3["sort" := s.sorting[0].id] else q3;
            var q5 := if sorted then q4["order" := if s.sorting[0].desc then "desc" else "asc"] else q4;
            EncodeUsersQuery(s) == q5
  {
    var q1 := if s.page > 1 then map[]["page" := NatToString(s.page)] else map[];
    var q3 := SetIf(SetIf(q1, s.userType != "all", "user_type", s.userType), s.role != "all", "role", s.role);
    var ut := if s.userType != "all" then map["user_type" := s.userType] else map[];
    var r := if s.role != "all" then map["role" := s.role] else map[];
    FilterSteps(s);
    SortStep(q3, s.sorting);
    UnionAssoc(PageEntry(s.page) + ut, r, SortEntries(s.sorting));
    UnionAssoc(PageEntry(s.page), ut, r + SortEntries(s.sorting));
    UnionAssoc(ut, r, SortEntries(s.sorting));
  }

  /** The restored sort is the one the sync wrote. */
  lemma SortRoundTrip(s: UsersState, q: Params)
    requires WellFormed(s)
    requires forall k :: k in SortEntries(s.sorting) ==> k in q && q[k] == SortEntries(s.sorting)[k]
    requires "sort" !in SortEntries(s.sorting) ==> "sort" !in q
    ensures SortParam(q) == s.sorting
  {
    var e := s.sorting[0];
    if e != SortEntry(DefaultSortColumn, true) {
      assert q["sort"] == e.id && q["order"] == (if e.desc then "desc" else "asc");
    }
  }

  /** Restoring the URL the page wrote gives back the state, for every well-formed state from page 1 on. */
  lemma UsersQueryRoundTrip(s: UsersState)
    requires WellFormed(s) && s.page >= 1
    ensures DecodeUsersQuery(EncodeUsersQuery(s)) == s
  {
    var q := EncodeUsersQuery(s);
    var rest := FilterEntries(s);
    assert q == rest + PageEntry(s.page);
    PageParamRoundTrip(s.page, rest);
    assert GetOr(q, "user_type", "all") == s.userType;
    assert GetOr(q, "role", "all") == s.role;
    SortRoundTrip(s, q);
  }

  /** After the first URL sync, reloading the page restores the same state, unless the URL held a negative page. */
  lemma ReloadKeepsState(q: Params)
    requires DecodeUsersQuery(q).page >= 1
    ensures DecodeUsersQuery(EncodeUsersQuery(DecodeUsersQuery(q))) == DecodeUsersQuery(q)
  {
    UsersQueryRoundTrip(DecodeUsersQuery(q));
  }

  /**
   * The list request for a state: page and limit always; each filter only
   * when it is not "all"; the sort whenever there is a sort entry, the default
   * one included.
   */
  function UsersRequest(s: UsersState, limit: nat): (r: map<string, ParamValue>)
    ensures "page" in r && r["page"] == Number(s.page)
    ensures "limit" in r && r["limit"] == Number(limit)
    ensures "role" in r <==> s.role != "all"
    ensures "user_type" in r <==> s.userType != "all"
    ensures "role" in r ==> r["role"] == Text(s.role)
    ensures "user_type" in r ==> r["user_type"] == Text(s.userType)
    ensures "sort" in r <==> |s.sorting| > 0
    ensures "order" in r <==> |s.sorting| > 0
    ensures |s.sorting| > 0 ==> r["sort"] == Text(s.sorting[0].id)
    ensures |s.sorting| > 0 ==> (r["order"] == Text("desc") <==> s.sorting[0].desc)
    ensures |s.sorting| > 0 ==> r["order"] in {Text("desc"), Text("asc")}
    ensures r.Keys <= {"page", "limit", "role", "user_type", "sort", "order"}
  {
    var base := map["page" := Number(s.page), "limit" := Number(limit)];
    var withRole := if s.role != "all" then base["role" := Text(s.role)] else base;
    var withType := if s.userType != "all" then withRole["user_type" := Text(s.userType)] else withRole;
    if |s.sorting| > 0 then
      withType["sort" := Text(s.sorting[0].id)]["order" := Text(if s.sorting[0].desc then "desc" else "asc")]
    else withType
  }

  /** The request and the URL agree on the filters: each is sent exactly when it is in the URL, with the same value. */
  lemma RequestFiltersMatchUrl(s: UsersState, limit: nat)
    ensures var r := UsersRequest(s, limit);
            var q := EncodeUsersQuery(s);
            forall k :: k in {"role", "user_type"} ==>
              (k in r <==> k in q) && (k in q ==> r[k] == Text(q[k]))
  {
  }

  /** When the URL carries a sort, the request sends the same column and direction. */
  lemma RequestSortMatchesUrl(s: UsersState, limit: nat)
    ensures var r := UsersRequest(s, limit);
            var q := EncodeUsersQuery(s);
            forall k :: k in {"sort", "order"} ==> k in q ==> k in r && r[k] == Text(q[k])
  {
    var r := UsersRequest(s, limit);
    var q := EncodeUsersQuery(s);
    forall k | k in {"sort", "order"} && k in q
      ensures k in r && r[k] == Text(q[k])
    {
      assert k in SortEntries(s.sorting);
      assert q[k] == SortEntries(s.sorting)[k];
    }
  }

  /** The role badges; an unknown role is shown as a plain user. */
  const RoleLabels: map<string, Badge> := map[
    "user" := Badge("일반", Default),
    "admin" := Badge("관리자", Secondary),
    "super_admin" := Badge("최고관리자", Destructive)
  ]

  function RoleBadge(role: string): (b: Badge)
    ensures role in RoleLabels ==> b == RoleLabels[role]
    ensures role !in RoleLabels ==> b == Badge("일반", Default)
  {
    LookupOr(RoleLabels, role, "user")
  }

  /** The user-type badges; an unknown type is shown as a student. */
  const UserTypeLabels: map<string, Badge> := map[
    "student" := Badge("학생", Default),
    "mentor" := Badge("선배", Secondary)
  ]

  function UserTypeBadge(userType: string): (b: Badge)
    ensures userType in UserTypeLabels ==> b == UserTypeLabels[userType]
    ensures userType !in UserTypeLabels ==> b == Badge("학생", Default)
  {
    LookupOr(UserTypeLabels, userType, "student")
  }

  /** The state column: active only for the flag value 1. */
  function ActiveBadge(isActive: int): (b: Badge)
    ensures b.variant == Default <==> isActive == 1
    ensures b.text == (if isActive == 1 then "활성" else "비활성")
  {
    if isActive == 1 then Badge("활성", Default) else Badge("비활성", Secondary)
  }

  /** The nickname column: `nickname || '-'`. */
  function NicknameCell(nickname: Option<string>): (r: string)
    ensures r != ""
    ensures nickname.Some? && nickname.value != "" ==> r == nickname.value
    ensures !(nickname.Some? && nickname.value != "") ==> r == "-"
  {
    match nickname
    case Some(n) => if n != "" then n else "-"
    case None => "-"
  }

  /** A cell other than `-` shows the user's own nickname. */
  lemma NicknameCellReadBack(nickname: Option<string>)
    requires NicknameCell(nickname) != "-"
    ensures nickname == Some(NicknameCell(nickname))
  {
  }

  /**
   * The page's own state: what the URL keeps, plus the fixed page size. The
   * methods are the page's event handlers; each sets what the handler sets.
   */
  class UsersView {
    var page: int
    var userTypeTab: string
    var roleFilter: string
    var sorting: seq<SortEntry>
    const limit: nat

    ghost predicate Valid()
      reads this
    {
      WellFormed(State())
    }

    function State(): UsersState
      reads this
    {
      UsersState(page, userTypeTab, roleFilter, sorting)
    }

    /** The initial state, restored from the URL query. */
    constructor FromQuery(q: Params)
      ensures Valid() && State() == DecodeUsersQuery(q) && limit == PageSize
    {
      page := PageParam(q);
      userTypeTab := GetOr(q, "user_type", "all");
      roleFilter := GetOr(q, "role", "all");
      var sort := Get(q, "sort");
      var order := Get(q, "order");
      if sort.Some? && sort.value != "" {
        sorting := [SortEntry(sort.value, order != Some("asc"))];
      } else {
        sorting := DefaultSort;
      }
      limit := PageSize;
    }

    /** Choosing a user-type tab: the tab changes and the page goes back to 1. */
    method HandleUserTypeChange(value: string)
      requires Valid() && value in UserTypeTabs
      modifies this
      ensures Valid()
      ensures State() == old(State()).(userType := value, page := 1)
    {
      userTypeTab := value;
      page := 1;
    }

    /** Choosing a role filter: the filter changes and the page goes back to 1. */
    method HandleRoleFilterChange(value: string)
      requires Valid() && value in RoleOptions
      modifies this
      ensures Valid()
      ensures State() == old(State()).(role := value, page := 1)
    {
      roleFilter := value;
      page := 1;
    }

    /** A click on a sortable header: the sort toggles and the page goes back to 1. */
    method HandleSortToggle(column: string)
      requires Valid() && column in SortableColumns
      modifies this
      ensures Valid()
      ensures State() == old(State()).(sorting := ToggleSort(old(sorting), column), page := 1)
    {
      sorting := ToggleSort(sorting, column);
      page := 1;
    }

    /** The "previous" button, shown only when there is more than one page and disabled on page 1 and before it. */
    method GoPrev(totalPages: int)
      requires Valid() && PagerShown(totalPages) && !PrevDisabled(page)
      modifies this
      ensures Valid()
      ensures State() == old(State()).(page := PrevPage(old(page)))
    {
      page := if 1 >= page - 1 then 1 else page - 1;
    }

    /** The "next" button, shown only when there is more than one page and disabled on the last page and after it. */
    method GoNext(totalPages: int)
      requires Valid() && PagerShown(totalPages) && !NextDisabled(page, totalPages)
      modifies this
      ensures Valid()
      ensures State() == old(State()).(page := NextPage(old(page), totalPages))
    {
      page := if totalPages <= page + 1 then totalPages else page + 1;
    }

    /** A page-number button, shown only when there is more than one page. */
    method GoTo(p: int, totalPages: int)
      requires Valid() && PagerShown(totalPages) && Num(p) in PageWindow(page, totalPages)
      modifies this
      ensures Valid()
      ensures State() == old(State()).(page := p)
    {
      WindowNumbersInRange(page, totalPages, p);
      page := p;
    }

    /** The URL sync: the query is built parameter by parameter. */
    method SyncUrl() returns (q: Params)
      ensures q == EncodeUsersQuery(State())
    {
      q := map[];
      if page > 1 {
        q := q["page" := NatToString(page)];
      }
      if userTypeTab != "all" {
        q := q["user_type" := userTypeTab];
      }
      if roleFilter != "all" {
        q := q["role" := roleFilter];
      }
      if |sorting| > 0 && (sorting[0].id != DefaultSortColumn || !sorting[0].desc) {
        q := q["sort" := sorting[0].id];
        q := q["order" := if sorting[0].desc then "desc" else "asc"];
      }
      EncodeUsersQueryBySteps(State());
    }

    /** The parameters of the list request, set field by field. */
    method RequestParams() returns (params: map<string, ParamValue>)
      ensures params == UsersRequest(State(), limit)
    {
      params := map["page" := Number(page), "limit" := Number(limit)];
      if roleFilter != "all" {
        params := params["role" := Text(roleFilter)];
      }
      if userTypeTab != "all" {
        params := params["user_type" := Text(userTypeTab)];
      }
      if |sorting| > 0 {
        params := params["sort" := Text(sorting[0].id)];
        params := params["order" := Text(if sorting[0].desc then "desc" else "asc")];
      }
    }
  }
}
