# Admin console list pages, board table and side menu — a Dafny model

This project models the logic of a Next.js admin console. The rendering is not modelled. It covers:

- **The pager** shared by the users list and the chinba (scheduling poll) events list:
  - the row of page buttons, with `...` markers for the gaps, built by pushing onto an array in loops;
  - the page count `Math.ceil(total / limit)`;
  - the previous/next clamps;
  - the offset `(page - 1) * limit` of a page.
- **The users list page**:
  - the three-step sort toggle of its headers;
  - the user-type tab and the role filter, which send the page back to 1;
  - how page, filters and sort are written to the URL query (defaults left out) and restored from it on load;
  - the list request's parameters;
  - the role, user-type, active-flag and nickname cells.
- **The chinba events page**:
  - the date summary `first 외 n일` of an event;
  - the status and creator cells;
  - the status filter;
  - the URL round trip;
  - the `skip`/`limit`/`status` request.
- **The board table** (`BOARD_MAP`):
  - 65 notice boards, each with a name and one of four categories;
  - `getBoardName`;
  - the selector options `BOARD_OPTIONS`;
  - `CATEGORIES`.
- **The side menu**: its three items and the rule that highlights the item for the current path.

Modules:

- `Wrappers`: `Option`, standing for `null`/`undefined`.
- `Decimal`: `String(n)` and `Number(s)` on decimal digit strings.
- `Query`: a `URLSearchParams` as a `map<string, string>`, with `get`, `get(k) || fallback` and the page parameter.
- `Badges`: the `table[key] || table.fallback` lookup of the label tables.
- `Pagination`, `UsersPage`, `ChinbaPage`, `Boards`, `Sidebar`: one per part above.

How the model is built:

- The two pages' state lives in the classes `UsersPage.UsersView` and `ChinbaPage.ChinbaView`. Their methods are the event handlers and effects of the page component:
  - each handler updates the fields its setters update;
  - `SyncUrl` builds the query step by step, as the effect does;
  - `RequestParams` builds the request parameters the same way.
- Each of these methods is proved equal to a specification function:
  - `EncodeUsersQuery` / `DecodeUsersQuery`, `UsersRequest`;
  - `EncodeChinbaQuery` / `DecodeChinbaQuery`, `ChinbaRequest`.
- The round-trip and agreement lemmas are stated about those functions.
- The pager builder is the method `Pagination.BuildPageWindow`, with the pushes and loops of the source. It is proved equal to the function `Pagination.PageWindow`, whose shape is established by lemmas.

## Model

| member | source | states |
|---|---|---|
| Decimal.NatToString | app/users/page.tsx:92 | `String(page)` for a page number: a non-empty digit string with no leading zero (except `"0"` itself) |
| Decimal.JsNumber | app/users/page.tsx:78 | `Number(s)` on the texts it reads as integers: a digit string (the empty one included, as 0) gives its value, after a `+` the same value, after a `-` its negation; every other text is NaN (`None`), and a negative result comes only from a leading `-` |
| Decimal.DigitsValueOfNatToString | app/users/page.tsx:78 | reading the digits `String(n)` wrote gives back `n` |
| Decimal.NumberOfString | app/users/page.tsx:78 | `Number(String(n)) == n` for every non-negative `n` |
| Decimal.NatToStringInjective | app/chinba/page.tsx:44 | different counts are written differently, so the count in a summary identifies the number of dates |
| Query.Get | app/users/page.tsx:83-84 | `searchParams.get(key)`: a value exactly when the key is present, and that key's value |
| Query.GetOr | app/users/page.tsx:80-81 | `get(key) \|\| fallback`: the value when present and non-empty, the fallback otherwise (absent or empty) |
| Query.PageParam | app/users/page.tsx:78 | `Number(get('page')) \|\| 1`: never 0; 1 when the parameter is absent, NaN or 0 (`""` and `"0"` included); any other present value gives the number it reads as, signed ones included (`-2` gives -2, `+5` gives 5) |
| Query.PageEntry | app/users/page.tsx:92 | the `page` parameter is written exactly when the page is past 1, and nothing else is written |
| Query.PageParamRoundTrip | app/chinba/page.tsx:62-69 | for every page from 1 on, reading back the page parameter the sync wrote gives the page, whatever other parameters the query holds |
| Badges.LookupOr | app/users/page.tsx:187 | `table[key] \|\| table[fallback]`: the key's entry when it has one, otherwise the fallback's entry, so always one of the table's badges (for keys that are not inherited object properties, see Left out) |
| Pagination.Run | app/users/page.tsx:376 | the buttons `lo..hi`: `hi - lo + 1` of them (none when `lo > hi`) |
| Pagination.RunAt | app/users/page.tsx:376 | the k-th button of a run `lo..hi` is page `lo + k` |
| Pagination.PageWindow | app/users/page.tsx:373-385 | the pager for more than 7 pages starts with page 1 and ends with the last page (its full shape is stated by the lemmas below) |
| Pagination.BuildPageWindow | app/users/page.tsx:373-385 | the pushes and loops of the pager builder produce exactly `PageWindow(page, totalPages)` |
| Pagination.SmallWindowIsEveryPage | app/users/page.tsx:375-376 | with at most 7 pages, the pager is the buttons 1..totalPages in order, with no `...` |
| Pagination.LargeWindowAt | app/users/page.tsx:377-385 | the pager for more than 7 pages, position by position: 1, an optional `...`, the middle run, an optional `...`, the last page |
| Pagination.LargeWindowIncreases | app/users/page.tsx:377-385 | in the pager for more than 7 pages the page numbers strictly increase |
| Pagination.LargeWindowGaps | app/users/page.tsx:377-385 | in the pager for more than 7 pages, adjacent numbers are consecutive, every `...` stands between two numbers with a real gap, and `...` appears only at the second or second-to-last position |
| Pagination.WindowShape | app/chinba/page.tsx:284-296 | for any page and page count: the numbers strictly increase (no duplicates), gaps and only gaps are marked, at most 7 entries, at most one `...` on each side |
| Pagination.WindowShowsPage | app/users/page.tsx:377-384 | for a page in range, the pager starts with 1, ends with totalPages and shows the page and its neighbours in range |
| Pagination.EllipsisPlacement | app/users/page.tsx:379-383 | with more than 7 pages: a leading `...` exactly when page > 3, a trailing one exactly when page < totalPages - 2 |
| Pagination.CurrentPageHighlightedOnce | app/users/page.tsx:386-395 | the current page (in range) is on exactly one button, the one drawn highlighted |
| Pagination.WindowNumbersInRange | app/users/page.tsx:395 | every page button names a page in 1..totalPages, so clicking it keeps the page in range |
| Pagination.TotalPages | app/users/page.tsx:154 | `Math.ceil(total / limit)`: the fewest pages of `limit` rows that hold all rows |
| Pagination.PageCount | app/chinba/page.tsx:101 | 0 before any response, else the ceiling of `total / per_page` |
| Pagination.Skip | app/chinba/page.tsx:78 | `(page - 1) * limit`: never negative for a page from 1 on |
| Pagination.PrevPage | app/users/page.tsx:368-369 | `Math.max(1, p - 1)`: at least 1, exactly `p - 1` when the button is enabled, never past `p` from page 1 on |
| Pagination.NextPage | app/chinba/page.tsx:316-317 | `Math.min(totalPages, p + 1)`: at most totalPages, exactly `p + 1` when the button is enabled, and it stays in `[1, totalPages]` when `p` starts there |
| Pagination.SkipAdjacent | app/chinba/page.tsx:78 | page 1 skips 0 rows and each page starts where the previous ends |
| Pagination.SkipDisjoint | app/chinba/page.tsx:78 | two different pages request disjoint row ranges |
| Pagination.RowOnPage | app/chinba/page.tsx:78-79 | every row lies within the range of page `i / limit + 1` |
| UsersPage.FindSort | app/users/page.tsx:145 | `prev.find(s => s.id === column)`: none exactly when no entry has the column, otherwise the first entry that has it |
| UsersPage.HeaderArrow | app/users/page.tsx:48-60 | the header shows no arrow exactly when no sort entry is for the column; otherwise the arrow points down exactly when that entry is descending |
| UsersPage.NextArrow | app/users/page.tsx:143-149 | a click always changes a header's arrow, and a column loses its arrow only from up, never the default `created_at` |
| UsersPage.ToggleSort | app/users/page.tsx:143-149 | the toggle always leaves one entry, for the column or the default `created_at desc`; the column's arrow advances unsorted → down → up → (default); no other column is shown sorted except through the default |
| UsersPage.ToggleCycle | app/users/page.tsx:146-148 | from unsorted, three clicks give desc, then asc, then the default `created_at desc` |
| UsersPage.DefaultColumnCycle | app/users/page.tsx:147-148 | on the default sort, a click on `created_at` gives ascending and a second click returns to the default |
| UsersPage.SortEntries | app/users/page.tsx:95-99 | `sort` and `order` are written together, exactly when the sort is not the default `created_at desc` |
| UsersPage.EncodeUsersQuery | app/users/page.tsx:91-99 | `page` is written only past 1, `user_type`/`role` only when not `all`, and no other keys |
| UsersPage.FilterEntries | app/users/page.tsx:93-99 | after `page`: `user_type` exactly when not `all`, `role` exactly when not `all`, each with the state's value, then the sort entries |
| UsersPage.EncodeUsersQueryBySteps | app/users/page.tsx:91-99 | setting the parameters one after another, in the effect's order, produces exactly the encoded query |
| UsersPage.SortRoundTrip | app/users/page.tsx:82-87 | the sort restored from a query holding the written sort entries is the state's one sort entry |
| UsersPage.SortParam | app/users/page.tsx:82-87 | the restored sort is one entry: with a non-empty `sort` parameter, that column, descending unless `order` is exactly `asc`; otherwise the default `created_at desc` |
| UsersPage.DecodeUsersQuery | app/users/page.tsx:78-87 | every restored state has both filters set, one sort entry and a non-zero page |
| UsersPage.UsersQueryRoundTrip | app/users/page.tsx:78-99 | restoring the URL written for a state gives back that state, for page ≥ 1, non-empty filters and one sort entry |
| UsersPage.ReloadKeepsState | app/users/page.tsx:78-101 | once the URL has been synced, a reload restores the same state (for a non-negative page) |
| UsersPage.UsersRequest | app/users/page.tsx:107-117 | page and limit always; role and user_type exactly when not `all`, each with the filter's value; sort and order together exactly when there is a sort entry, sort with its column and order `desc` exactly when it is descending, else `asc` |
| UsersPage.RequestFiltersMatchUrl | app/users/page.tsx:93-113 | the request carries a filter exactly when the URL does, with the same value |
| UsersPage.RequestSortMatchesUrl | app/users/page.tsx:95-116 | whenever the URL carries `sort`/`order`, the request sends the same column and the same direction |
| UsersPage.RoleBadge | app/users/page.tsx:187 | a known role shows its badge; an unknown one shows the `user` badge (일반) |
| UsersPage.UserTypeBadge | app/users/page.tsx:196 | a known type shows its badge; an unknown one shows the `student` badge (학생) |
| UsersPage.ActiveBadge | app/users/page.tsx:204-209 | 활성 with the default style exactly when the flag is 1, 비활성 otherwise |
| UsersPage.NicknameCell | app/users/page.tsx:180 | `nickname \|\| '-'`: the nickname when it is present and non-empty, exactly `-` otherwise |
| UsersPage.NicknameCellReadBack | app/users/page.tsx:180 | a cell showing anything other than `-` shows the user's own nickname |
| UsersPage.UsersView.FromQuery | app/users/page.tsx:78-87 | the initial state is `DecodeUsersQuery` of the URL query, with limit 10 |
| UsersPage.UsersView.HandleUserTypeChange | app/users/page.tsx:133-136 | the tab becomes the chosen one, the page becomes 1, nothing else changes |
| UsersPage.UsersView.HandleRoleFilterChange | app/users/page.tsx:138-141 | the role filter becomes the chosen one, the page becomes 1, nothing else changes |
| UsersPage.UsersView.HandleSortToggle | app/users/page.tsx:143-151 | the sort becomes `ToggleSort` of the old sort, the page becomes 1, nothing else changes |
| UsersPage.UsersView.GoPrev | app/users/page.tsx:363-369 | on a shown pager with the button enabled (page past 1), the page becomes `PrevPage` of the old page, nothing else changes |
| UsersPage.UsersView.GoNext | app/users/page.tsx:403-406 | on a shown pager with the button enabled (page before the last), the page becomes `NextPage` of the old page, nothing else changes |
| UsersPage.UsersView.GoTo | app/users/page.tsx:363-395 | on a shown pager, a page button sets the page to its number, nothing else changes |
| UsersPage.UsersView.SyncUrl | app/users/page.tsx:90-99 | the query built set by set equals `EncodeUsersQuery` of the current state |
| UsersPage.UsersView.RequestParams | app/users/page.tsx:107-117 | the parameters built field by field equal `UsersRequest` of the current state |
| ChinbaPage.FormatDates | app/chinba/page.tsx:40-45 | `-` for no dates, the date itself for one; for more, the first date, then ` 외 `, then a decimal number without leading zero whose value is the number of further dates, then 일 |
| ChinbaPage.FirstSpaceAfterWord | app/chinba/page.tsx:44 | in `first + ' 외 …'` with a space-free first date, the first space follows the date |
| ChinbaPage.SpaceFreePrefix | app/chinba/page.tsx:44 | two space-free dates each followed by a space in the same text are equal |
| ChinbaPage.FormatDatesDeterminesFirstAndCount | app/chinba/page.tsx:40-45 | for dates without spaces, equal summaries of non-empty lists mean the same first date and the same number of dates |
| ChinbaPage.StatusBadge | app/chinba/page.tsx:118 | a known status shows its badge; an unknown one shows the `active` badge (진행중) |
| ChinbaPage.CreatorLabel | app/chinba/page.tsx:136 | the nickname when it is present and non-empty, else `User #` followed by decimal digits without leading zero whose value is the creator's id (`User #0` for id 0) |
| ChinbaPage.AnonymousCreatorsDistinct | app/chinba/page.tsx:136 | creators without a nickname get different labels for different ids |
| ChinbaPage.EncodeChinbaQuery | app/chinba/page.tsx:68-70 | `page` only past 1, `status` only when not `all`, and no other keys |
| ChinbaPage.DecodeChinbaQuery | app/chinba/page.tsx:62-64 | the restored state has a non-zero page and a non-empty status |
| ChinbaPage.ChinbaQueryRoundTrip | app/chinba/page.tsx:62-70 | restoring the URL written for a state gives back `(page, status)` for page ≥ 1 |
| ChinbaPage.ChinbaRequest | app/chinba/page.tsx:78-80 | skip is `(page - 1) * limit`, limit always, status exactly when not `all` and then with the filter's value |
| ChinbaPage.ReloadRequestsSameRows | app/chinba/page.tsx:62-80 | reloading after the URL sync requests the same rows with the same filter |
| ChinbaPage.ChinbaView.FromQuery | app/chinba/page.tsx:62-64 | the initial state is `DecodeChinbaQuery` of the URL query, with limit 10 |
| ChinbaPage.ChinbaView.HandleStatusFilterChange | app/chinba/page.tsx:95-98 | the status becomes the chosen one and the page becomes 1 |
| ChinbaPage.ChinbaView.GoPrev | app/chinba/page.tsx:274-280 | on a shown pager with the button enabled (page past 1), the page becomes `PrevPage` of the old page, nothing else changes |
| ChinbaPage.ChinbaView.GoNext | app/chinba/page.tsx:314-317 | on a shown pager with the button enabled (page before the last), the page becomes `NextPage` of the old page, nothing else changes |
| ChinbaPage.ChinbaView.GoTo | app/chinba/page.tsx:274-306 | on a shown pager, a page button sets the page to its number, nothing else changes |
| ChinbaPage.ChinbaView.SyncUrl | app/chinba/page.tsx:67-70 | the query built set by set equals `EncodeChinbaQuery` of the current state |
| ChinbaPage.ChinbaView.RequestParams | app/chinba/page.tsx:78-80 | the parameters built step by step equal `ChinbaRequest` of the current state |
| Boards.UniversityBoardsShape | lib/constants.ts:9-20 | the university boards' codes start with `home_`, every name is non-empty, every category is 전북대 |
| Boards.CollegeBoardsShape | lib/constants.ts:22-38 | the college boards' codes start with `college_`, every name is non-empty, every category is 단과대 |
| Boards.DepartmentBoardsShape | lib/constants.ts:40-77 | the department boards' codes start with `dept_`, every name is non-empty, every category is 학과 |
| Boards.AgencyBoardsShape | lib/constants.ts:79-80 | the agency board's code starts with `agency_`, its name is non-empty, its category is 사업단 |
| Boards.BoardCodesUnique | lib/constants.ts:8-81 | no code is declared twice in the literal, so no entry is silently overridden |
| Boards.EntryAt | lib/constants.ts:8-81 | entry `i` has a non-empty name and the category of its section, in `CATEGORIES` order |
| Boards.MapOf | lib/constants.ts:8 | every key of the object a literal builds comes from one of its entries |
| Boards.MapOfAt | lib/constants.ts:8 | with no code repeated, the object holds every entry exactly as declared |
| Boards.BoardMapHoldsEntries | lib/constants.ts:8-81 | every declared code is a key of `BOARD_MAP` with its declared meta, and there are no other keys |
| Boards.BoardMapMeta | lib/constants.ts:1-6 | every board in the map has a non-empty name and a category listed in `CATEGORIES` |
| Boards.GetBoardName | lib/constants.ts:86-88 | a known code gives its board's (non-empty) name; an unknown code is returned unchanged |
| Boards.BoardOptions | lib/constants.ts:93-97 | one option per declared board, the i-th option carrying the i-th declared code (declaration order, which `Object.entries` keeps) |
| Boards.OptionsAgreeWithMap | lib/constants.ts:93-97 | each option's name and category are the map's entry for its code, and `getBoardName(o.code) == o.name` |
| Boards.OneOptionPerBoard | lib/constants.ts:93-97 | a code has an option exactly when it is a key of the map, and no two options share a code |
| Boards.OptionsGroupedByCategory | lib/constants.ts:92-99 | options come grouped by category in the order of `CATEGORIES`, and every category has at least one option |
| Sidebar.ActiveIffWithinRoute | app/_components/AppSidebar.tsx:56 | an item is highlighted exactly when the path is its route or continues it with `/` |
| Sidebar.ExactRouteActive | app/_components/AppSidebar.tsx:56 | the item of the current route is highlighted |
| Sidebar.SubRouteActive | app/_components/AppSidebar.tsx:56 | any path below an item's route highlights it |
| Sidebar.NoPathNothingActive | app/_components/AppSidebar.tsx:56 | with no path, nothing is highlighted |
| Sidebar.IsActive | app/_components/AppSidebar.tsx:56 | an item is highlighted only when there is a path and it starts with the item's route |
| Sidebar.UsersRouteExamples | app/_components/AppSidebar.tsx:20-24 | `/users/5` highlights the users item, `/usersX` does not |
| Sidebar.DistinctRoutesExclusive | app/_components/AppSidebar.tsx:56 | two routes that differ right after the leading `/` are never highlighted together |
| Sidebar.AtMostOneActive | app/_components/AppSidebar.tsx:20-24 | for any path (or none), at most one of the three menu items is highlighted |

## Left out

- Data loading is not modelled. This covers `loadUsers`/`loadEvents`, `useEffect` scheduling, Suspense and the loading state. These are asynchronous network calls and React scheduling; the request parameters they send are modelled.
- `router.replace` and the URL string are not modelled. The query is a map from parameter name to value: percent-encoding, parameter order and the `?` are left out.
- Rendering is not modelled. This covers JSX, icons, CSS classes and `@tanstack/react-table`, including its in-page search box, which filters only the rows already loaded. The date column's `format(..., 'yyyy-MM-dd')` uses the date-fns library and is left out.
- The notices page, `lib/api.ts`, `lib/auth.ts`, the OAuth callback page, `middleware.ts`, the layouts and the dashboard are not part of this model. They are plumbing and rendering with no logic of their own.
- Logout in the side menu is not modelled; it clears local storage and navigates.
- The poll detail page's availability heatmap (`app/chinba/[id]/_components/ScheduleHeatmap.tsx`) is not part of this model.
- Decimal.JsNumber: models `Number(s)` only on decimal digit strings, bare or after one `+` or `-`. Leading or trailing whitespace, fractions, exponents, `0x` and `Infinity` are all mapped to NaN, which `|| 1` turns into page 1. In JavaScript some of them give other numbers (`Number(" 3")` is 3, `Number("2.5")` is 2.5). Pages are whole numbers here.
- Pagination.TotalPages: requires a positive page size. `Math.ceil(total / 0)` would be `Infinity` or `NaN`. The model assumes the server never sends a zero `per_page`; nothing in the pages checks it.
- Pagination.PageWindow: takes integer page counts. The page count is `Math.ceil` of a quotient, so it is always a whole number.
- The pager handlers (`GoPrev`, `GoNext`, `GoTo` of both views) require the pager to be shown (more than one page) and the button to be enabled, as the buttons exist and react only then. The state invariant does not bound the page from below: a URL such as `?page=-2` gives page -2, which the source also keeps, and there the "previous" button is disabled.
- UsersPage.UsersQueryRoundTrip: holds for page ≥ 1 only. A negative page restored from a hand-written URL is not written back, so a reload gives page 1.
- Boards.GetBoardName: treats `BOARD_MAP` as a plain map. In JavaScript a code such as `constructor` or `toString` finds a property on `Object.prototype`. `getBoardName('constructor')` then returns `"Object"` (the function's own `name`), not the code. The model returns such codes unchanged.
- Badges.LookupOr: treats a label table as a plain map. In JavaScript a key such as `constructor` or `toString` finds a function on `Object.prototype`. That function is truthy, so `|| table.fallback` is skipped and the badge shows `undefined` text and style. This affects `RoleBadge`, `UserTypeBadge` and `StatusBadge`. The model gives such keys the fallback badge.
- Numbers are unbounded integers here; in JavaScript they are doubles. `String(n)` writes exponent form from 1e21 on, and `page + 1` rounds past 2^53. The model does not capture either.
- `URLSearchParams` can hold a key more than once, and `get` then returns the first value (`?page=2&page=3` is page 2). A `map` holds one value per key, so the model does not capture repeated keys.
- Boards.BoardOptions: follows the declaration order. `Object.entries` also lists keys in insertion order, because no board code is an array index.
- The filter handlers take values from the tab and select options (`UserTypeTabs`, `RoleOptions`, `StatusOptions`, `SortableColumns`), the only values those widgets emit.
