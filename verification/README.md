# Scoped repledge listing — a Dafny model

This project models the part of the loan-ledger administration tool that
lists *repledges* (loans re-pledged to a bank) under branch-level tenant
isolation. Three source files make up that engine:

- `src/lib/branchFilter.ts` decides whether a database query gets a
  `branch_id = <id>` predicate. An admin, or a missing user or branch,
  leaves the query alone. Any other user is restricted to their branch.
  Modelled in `BranchFilter.dfy`. A query is a table of rows with a
  nullable `branch_id`, plus the list of `branch_id` equality predicates
  added so far. Executing it keeps, in table order, the rows matching
  every predicate; a NULL `branch_id` matches none.
- `src/hooks/useRepledgeDetails.ts` is the client-side strategy. It
  fetches every repledge in scope, then applies four filter stages in
  memory: search, bank, status and date. It then cuts a 10-row page.
  Modelled in `RepledgeDetails.dfy`. The filter, the slice and the page
  count are functions. The hook's state (`repledges`, `loading`, the
  criteria, `currentPage`) is the class `RepledgeDetailsHook`.
- `src/hooks/useRepledgeDataDetails.ts` is the server-side strategy. It
  builds the parameters of the remote `search_repledge_details` call and
  reads the total count off the first returned row. Modelled in
  `RepledgeData.dfy`. The parameters and the count are functions. The
  hook's state (`data`, `loading`, `error`, `totalCount`) is the class
  `RepledgeDataHook`.

Support modules:

- `Wrappers.dfy` holds `Option`, used for nullable values.
- `Seqs.dfy` holds the order-preserving `Filter` (JavaScript's
  `Array.prototype.filter`) and the subsequence relation.
- `Text.dfy` holds `toLowerCase`, `includes` and `trim`.

Each asynchronous fetch is split in two methods. `StartFetch` is what
runs before the `await`; it returns the query (client side) or the
parameters (server side) it sends. `FinishFetch(response)` is what runs after it;
the database or remote response is its parameter. Dates are whole day
numbers already truncated to local midnight. The date presets read
today, today's weekday (Sunday is 0), the first day of the month and
the first day of the year from a `DateAnchors` value the caller supplies.

## Behaviour worth knowing

- The page count is 0 when nothing matches (`TotalPages`).
- The page goes back to 1 only when the *length* of the filtered list
  changes, not on every criteria change (`SyncPage`,
  `PageResetIsKeyedOnLength`).
- `applyBranchFilter` leaves the query unrestricted when the user or the
  branch is missing, rather than refusing (`NoUserDisagreement`).
- Only the effects check that a user and a branch are present before
  fetching (`OnAuthChange`, `OnDependenciesChange`). Both hooks also
  export the fetch without that check as `refetch`; in the model that
  is `StartFetch` followed by `FinishFetch`. A client-side `refetch`
  with no user sends the query with no branch predicate at all, so the
  model's table is read unrestricted (`NoUserFetchesEverything`); what a
  database-side policy would then return is outside the code. A
  server-side `refetch` with no branch sends no branch filter
  (`NoBranchUnscoped`).
- There is no sequence number and no discarding of stale responses. The
  last `FinishFetch` to run wins.
- The server-side count is 0 for a page past the end, even when there
  are matches (`CountFromRemotePage`).
- For an empty branch id, the remote call is sent no branch filter,
  while `applyBranchFilter` would add `branch_id = ''`
  (`EmptyBranchIdUnscoped`).

## Model

| member | source | states |
|---|---|---|
| BranchFilter.ApplyBranchFilter | src/lib/branchFilter.ts:16-30 | a missing user or branch, or an admin, leaves the query unchanged; otherwise exactly one predicate `branch_id = branch.id` is appended and the table is kept |
| BranchFilter.ShouldFilterByBranch | src/lib/branchFilter.ts:32-34 | false exactly for a present user whose role is "admin"; true for a missing user |
| BranchFilter.GetBranchId | src/lib/branchFilter.ts:36-38 | the branch id when the branch is present and its id non-empty, otherwise null |
| BranchFilter.ExecuteAddedEq | src/lib/branchFilter.ts:29 | executing a query with one more branch predicate is filtering the old result by that branch |
| BranchFilter.BranchIsolation | src/lib/branchFilter.ts:29 | for a non-admin user with a branch, every row the scoped query returns has that branch's id |
| BranchFilter.NeverWidens | src/lib/branchFilter.ts:16-30 | the scoped result is always an order-preserving subsequence of the unscoped result |
| BranchFilter.ScopedTableIsBranchRows | src/lib/branchFilter.ts:29 | a scoped read of a table returns exactly the branch's rows, in table order |
| BranchFilter.UnfilteredIsTable | src/lib/branchFilter.ts:21-27 | a query left unrestricted returns its whole table |
| BranchFilter.ShouldFilterAgreesWhenSignedIn | src/lib/branchFilter.ts:25-34 | with a user and a branch present, `shouldFilterByBranch` is true exactly when `applyBranchFilter` changes the query |
| BranchFilter.NoUserDisagreement | src/lib/branchFilter.ts:21-34 | with no user, `shouldFilterByBranch` says filter while `applyBranchFilter` leaves the query unrestricted |
| Seqs.Filter | src/hooks/useRepledgeDetails.ts:144-187 | the result keeps only elements of the input that satisfy the predicate, loses none that do, and is no longer than the input |
| Seqs.FilterCounts | src/hooks/useRepledgeDetails.ts:144-187 | filtering keeps every copy of a passing element and no copy of a failing one |
| Seqs.FilterIsSubsequence | src/hooks/useRepledgeDetails.ts:144-187 | a filter result is an order-preserving subsequence of its input |
| Seqs.FilterFilter | src/hooks/useRepledgeDetails.ts:144-187 | two chained filters equal one filter by the conjunction |
| Text.LowerChar | src/hooks/useRepledgeDetails.ts:146 | ASCII upper-case letters map to their lower-case forms; every other character is unchanged |
| Text.Lower | src/hooks/useRepledgeDetails.ts:146-152 | lower-casing keeps the length and maps each character |
| Text.ContainsAt | src/hooks/useRepledgeDetails.ts:149-152 | `includes` holds exactly when the pattern occurs at some offset of the text |
| Text.TrimStart | src/hooks/useRepledgeDataDetails.ts:41 | the result is a suffix of the input, everything dropped is whitespace, and the result does not start with whitespace |
| Text.TrimEnd | src/hooks/useRepledgeDataDetails.ts:41 | the result is a prefix of the input, everything dropped is whitespace, and the result does not end with whitespace |
| Text.Trim | src/hooks/useRepledgeDataDetails.ts:41 | the result occurs in the input with only whitespace before and after it, and has no whitespace at either end |
| Text.TrimIdempotent | src/hooks/useRepledgeDataDetails.ts:41 | trimming twice is trimming once |
| Text.TrimEmptyIff | src/hooks/useRepledgeDataDetails.ts:41 | a string trims to empty exactly when it is all whitespace |
| RepledgeDetails.FirstCustomer | src/hooks/useRepledgeDetails.ts:117 | the customer is the loan's first nested customer when there is one, otherwise null |
| RepledgeDetails.ToDetails | src/hooks/useRepledgeDetails.ts:115-119 | null data gives the empty list; otherwise each fetched row, in order, is kept with its loan and its first customer |
| RepledgeDetails.FetchedRowsAreIsolated | src/hooks/useRepledgeDetails.ts:109-121 | when the database answers the scoped query of a non-admin user, every listed record has the user's branch id |
| RepledgeDetails.FetchQuery | src/hooks/useRepledgeDetails.ts:75-109 | the fetch reads the whole table; it carries exactly the predicate on the user's branch for a signed-in non-admin with a branch, and none otherwise |
| RepledgeDetails.ShouldFetch | src/hooks/useRepledgeDetails.ts:130 | the effect fetches iff a user and a branch are present; then branch filtering is wanted exactly for a non-admin |
| RepledgeDetails.NoUserFetchesEverything | src/hooks/useRepledgeDetails.ts:109-111 | a fetch with no user signed in (the unguarded `refetch`) carries no branch predicate, so the query answers with the whole table |
| RepledgeDetails.AdminFetchesEverything | src/hooks/useRepledgeDetails.ts:109-111 | for an admin the fetched rows are the whole table, in order |
| RepledgeDetails.MatchesSearch | src/hooks/useRepledgeDetails.ts:145-153 | the empty term matches every record; a non-empty term matches only a record with a customer, a loan or a repledge number |
| RepledgeDetails.MatchesBank | src/hooks/useRepledgeDetails.ts:155 | "all" passes every record; any other filter passes only records whose bank id equals it, so a record with no bank passes only "all" |
| RepledgeDetails.MatchesStatus | src/hooks/useRepledgeDetails.ts:156 | "All" passes every record; any other filter passes only records whose status equals it |
| RepledgeDetails.PresetAdmits | src/hooks/useRepledgeDetails.ts:173-186 | on a consistent calendar today passes every preset; "Today" admits only today; a date no earlier than today, the month start and the year start passes every preset, and fails "Today" only when it is later than today |
| RepledgeDetails.MatchesDate | src/hooks/useRepledgeDetails.ts:157-187 | no date filter passes every record; with both bounds set only dated records inside the range pass; an undated record passes only with no bound set |
| RepledgeDetails.PassesAll | src/hooks/useRepledgeDetails.ts:144-187 | the initial criteria pass every record; a passing record meets the date stage and the bank and status filters when they are set |
| RepledgeDetails.FilteredRepledges | src/hooks/useRepledgeDetails.ts:144-187 | the filtered list is no longer than the fetched list, and each of its records was fetched and passes the date stage |
| RepledgeDetails.FilteredIsConjunction | src/hooks/useRepledgeDetails.ts:144-187 | the four chained stages equal one filter by their conjunction |
| RepledgeDetails.FilteredMembers | src/hooks/useRepledgeDetails.ts:144-187 | a record is listed iff it was fetched and passes the search, bank (`"all"` or equal id), status (`"All"` or equal) and date stages; the list keeps the fetched order |
| RepledgeDetails.FilteredKeepsCopies | src/hooks/useRepledgeDetails.ts:144-187 | a passing record is listed as many times as it was fetched, a failing one not at all |
| RepledgeDetails.InitialCriteriaKeepAll | src/hooks/useRepledgeDetails.ts:62-67 | with the initial criteria every fetched record is listed, in order |
| RepledgeDetails.SearchIgnoresCase | src/hooks/useRepledgeDetails.ts:146-153 | a search term and its lower-cased form match the same records |
| RepledgeDetails.SearchNarrows | src/hooks/useRepledgeDetails.ts:146-153 | a record matching a longer term also matches every prefix of it |
| RepledgeDetails.FoundByRepledgeNo | src/hooks/useRepledgeDetails.ts:152 | a record is found by its own repledge number |
| RepledgeDetails.NothingToSearch | src/hooks/useRepledgeDetails.ts:146-153 | missing fields never match: a record without customer, loan or repledge number matches only the empty term |
| RepledgeDetails.SearchRule | src/hooks/useRepledgeDetails.ts:146-153 | a non-empty term matches a record iff its lower-cased form occurs at some offset of the lower-cased name, the raw mobile number, the lower-cased loan number or the lower-cased repledge number, each only when present |
| RepledgeDetails.UndatedRecord | src/hooks/useRepledgeDetails.ts:158-160 | an undated record passes iff the preset is "All" and both range bounds are empty |
| RepledgeDetails.ExplicitRangeOverridesPreset | src/hooks/useRepledgeDetails.ts:165-171 | with both bounds set, a dated record passes iff start <= date <= end, whatever the preset |
| RepledgeDetails.PresetWhenRangeIncomplete | src/hooks/useRepledgeDetails.ts:173-186 | with a bound missing, "Today" needs equality with today; "This Week", "This Month" and "This Year" need a date at or after the week's Sunday, the 1st of the month and Jan 1; "All" and unknown presets pass |
| RepledgeDetails.PresetsNest | src/hooks/useRepledgeDetails.ts:139-142 | on a consistent calendar, today is in this week and this month, and this month is in this year |
| RepledgeDetails.PresetsOpenEnded | src/hooks/useRepledgeDetails.ts:178-183 | the week, month and year presets have no upper bound |
| RepledgeDetails.TodayExample | src/hooks/useRepledgeDetails.ts:176-177 | of a record dated today and one dated yesterday, the "Today" preset lists only the first |
| RepledgeDetails.SliceIndex | src/hooks/useRepledgeDetails.ts:192 | a slice index is clamped to the list; a negative index counts from the end |
| RepledgeDetails.Slice | src/hooks/useRepledgeDetails.ts:192 | `slice` is the contiguous window between the resolved indices, empty when they cross |
| RepledgeDetails.Paginate | src/hooks/useRepledgeDetails.ts:190-193 | a page has at most 10 rows; for a page number p >= 1 it is rows `[(p-1)*10, (p-1)*10+10)` clamped to the list |
| RepledgeDetails.TotalPages | src/hooks/useRepledgeDetails.ts:195 | the page count is the least number of 10-row pages covering the list; it is 0 exactly when the list is empty |
| RepledgeDetails.PageNonEmptyIff | src/hooks/useRepledgeDetails.ts:190-195 | page p >= 1 has rows iff p <= the page count |
| RepledgeDetails.RowOnItsPage | src/hooks/useRepledgeDetails.ts:190-193 | row k of the list is row k mod 10 of page k div 10 + 1 |
| RepledgeDetails.NonPositivePages | src/hooks/useRepledgeDetails.ts:191-192 | page 0 is empty; page -1 is the ten rows before the last ten |
| RepledgeDetails.TwentyThreeRows | src/hooks/useRepledgeDetails.ts:190-195 | 23 rows make 3 pages of 10, 10 and 3 rows, and page 4 is empty |
| RepledgeDetails.RepledgeDetailsHook.constructor | src/hooks/useRepledgeDetails.ts:60-68 | the hook starts with no records, loading, the initial criteria and page 1 |
| RepledgeDetails.RepledgeDetailsHook.Filtered | src/hooks/useRepledgeDetails.ts:135-188 | the filtered list keeps the fetched order and holds exactly the fetched records that pass all four stages |
| RepledgeDetails.RepledgeDetailsHook.PageRows | src/hooks/useRepledgeDetails.ts:190-202 | the page shown has at most 10 rows, each fetched and passing all four stages |
| RepledgeDetails.RepledgeDetailsHook.TotalCount | src/hooks/useRepledgeDetails.ts:220 | the count is at most the fetched count, and 0 iff no fetched record passes all stages |
| RepledgeDetails.RepledgeDetailsHook.StartFetch | src/hooks/useRepledgeDetails.ts:72-109 | loading is set and the query sent is the repledges table scoped by `applyBranchFilter` for the given user and branch; called directly, this is the unguarded `refetch` |
| RepledgeDetails.RepledgeDetailsHook.FinishFetch | src/hooks/useRepledgeDetails.ts:111-126 | success wholly replaces the records by the mapped rows; an error keeps them; loading is cleared on both paths |
| RepledgeDetails.RepledgeDetailsHook.OnAuthChange | src/hooks/useRepledgeDetails.ts:129-133 | a query is sent iff both a user and a branch are present, and it is then the branch-scoped query for them |
| RepledgeDetails.RepledgeDetailsHook.SetCriteria | src/hooks/useRepledgeDetails.ts:62-67 | the filter state becomes the given criteria |
| RepledgeDetails.RepledgeDetailsHook.SetCurrentPage | src/hooks/useRepledgeDetails.ts:68 | the current page becomes the given number |
| RepledgeDetails.RepledgeDetailsHook.SyncPage | src/hooks/useRepledgeDetails.ts:197-199 | the page becomes 1 iff the filtered length differs from the last one seen; otherwise the page is kept |
| RepledgeDetails.StatusFilterExample | src/hooks/useRepledgeDetails.ts:156 | with one "Active" and one "Closed" record, the "Active" filter lists exactly the first and the "Closed" filter exactly the second, so both lists have length 1 (the page itself is not stated here) |
| RepledgeDetails.GuardedFetchListsOwnBranch | src/hooks/useRepledgeDetails.ts:72-133 | after the effect's fetch for a signed-in non-admin, answered with the rows of the query the hook sent, the hook holds only records of the user's branch |
| RepledgeDetails.OneRecordPerStatus | src/hooks/useRepledgeDetails.ts:156 | a hook holding one "Active" and one "Closed" undated record lists exactly one record under either status filter |
| RepledgeDetails.ActiveOnPageTwo | src/hooks/useRepledgeDetails.ts:197-199 | after fetching the two records, filtering by "Active" and running the page-reset effect, the effect has seen length 1 and the user can be on page 2 |
| RepledgeDetails.PageResetIsKeyedOnLength | src/hooks/useRepledgeDetails.ts:197-199 | switching the status filter from "Active" to "Closed" on page 2 keeps page 2, because the filtered length stays 1 |
| RepledgeData.NonEmptyOrNull | src/hooks/useRepledgeDataDetails.ts:45-46 | a date parameter is null iff its string is empty, and passed through otherwise |
| RepledgeData.BranchIdFilter | src/hooks/useRepledgeDataDetails.ts:47 | null for an admin; otherwise the branch id, or null when the branch or its id is missing or empty |
| RepledgeData.BuildParams | src/hooks/useRepledgeDataDetails.ts:40-48 | search term trimmed; page and page size passed through; bank null iff "all"; dates null iff empty; branch as `BranchIdFilter` |
| RepledgeData.DefaultRequestParams | src/hooks/useRepledgeDataDetails.ts:21-48 | with the default arguments the call asks for page 1 of 10 rows, with an empty term and no bank or date filter |
| RepledgeData.NoBranchUnscoped | src/hooks/useRepledgeDataDetails.ts:47 | with no branch the call carries no branch filter, whoever the user is |
| RepledgeData.SearchTermIsTrimmed | src/hooks/useRepledgeDataDetails.ts:41 | the term sent has no surrounding whitespace, and pre-trimming the input changes nothing |
| RepledgeData.BlankSearchIsEmpty | src/hooks/useRepledgeDataDetails.ts:41 | a whitespace-only term is sent as the empty term |
| RepledgeData.ScopeAgreesWithBranchFilter | src/hooks/useRepledgeDataDetails.ts:47 | for a non-empty branch id, the remote branch parameter is null iff `applyBranchFilter` leaves the query unchanged, and otherwise names the id it adds |
| RepledgeData.EmptyBranchIdUnscoped | src/hooks/useRepledgeDataDetails.ts:47 | for a non-admin with an empty branch id, the remote call is unscoped while `applyBranchFilter` adds `branch_id = ''` |
| RepledgeData.NonAdminSendsBranchId | src/hooks/useRepledgeDataDetails.ts:47 | a non-admin whose branch has an id always sends that id as the branch parameter |
| RepledgeData.RowsOrEmpty | src/hooks/useRepledgeDataDetails.ts:60 | null rows become the empty list; otherwise the rows are kept |
| RepledgeData.ExtractTotalCount | src/hooks/useRepledgeDataDetails.ts:63-68 | 0 for no rows; otherwise the first row's count (0 when absent), and no later row matters |
| RepledgeData.ErrorMessage | src/hooks/useRepledgeDataDetails.ts:71 | an `Error`'s own message, or "An error occurred" for anything else thrown |
| RepledgeData.RemotePage | src/hooks/useRepledgeDataDetails.ts:50-54 | the page the remote side is expected to return: row i is match `(pageNum-1)*pageSize + i` stamped with the number of matches, and the length is the clamped window's |
| RepledgeData.CountFromRemotePage | src/hooks/useRepledgeDataDetails.ts:63-68 | when the remote side honours its contract, the count read is the number of matches for a page in range, and 0 for a page past the end |
| RepledgeData.RepledgeDataHook.constructor | src/hooks/useRepledgeDataDetails.ts:29-32 | the hook starts with no rows, loading, no error and count 0 |
| RepledgeData.RepledgeDataHook.StartFetch | src/hooks/useRepledgeDataDetails.ts:35-48 | loading is set, the error is cleared, and the parameters are built |
| RepledgeData.RepledgeDataHook.FinishFetch | src/hooks/useRepledgeDataDetails.ts:56-76 | success replaces the rows and reads the count off them, keeping the error; failure stores the message and keeps rows and count; loading is cleared on both paths |
| RepledgeData.RepledgeDataHook.OnDependenciesChange | src/hooks/useRepledgeDataDetails.ts:79-83 | parameters are sent, with loading set and the error cleared, iff a user and a branch are present |

## Left out

- The database reads are not modelled; their results are parameters. This covers `supabase.from(...).select(...)` and `supabase.rpc('search_repledge_details', ...)`. The remote procedure's own filtering is unknown. `RemotePage` states only the paging and count contract it is expected to honour.
- Ordering by `created_at` descending is done by the database and is not modelled. The table passed to a query stands for the rows already in that order.
- JavaScript `Date` parsing is not modelled. Neither are time zones (`setHours(0,0,0,0)` in local time) or calendar arithmetic. Dates are day numbers, and "today" and its anchors are parameters. An unparsable date string (`Invalid Date`, which fails every comparison) is not modelled.
- Text.LowerChar: lower-cases ASCII letters only, not the full Unicode mapping of `toLowerCase`.
- In `RepledgeDetails.RepledgeEntry`, the columns the code passes through untouched are not modelled. These are amounts, interest rates, validity, timestamps other than `date` and the `close_repledges` relation. The customer's photo URL is kept as a field but never read.
- `RepledgeData.SearchRow` keeps every column of the server-side row type except `amount` as a field. Apart from `total_count`, which gives the count, these fields are passed through and never read. `amount` is not modelled.
- Page numbers and page sizes are integers in the model. In JavaScript they are numbers: a fractional or `NaN` page passed to the exported `setCurrentPage` (or as `page`) reaches `slice`, which truncates it (`NaN` becomes 0). That case is not modelled.
- Strings are sequences of Unicode scalar values, not of UTF-16 code units. The length of a string holding characters outside the Basic Multilingual Plane differs from JavaScript's, and lone surrogates cannot be represented.
- React scheduling is not modelled: effect and memo timing, re-renders, and the interleaving of overlapping fetches. Each fetch is the pair `StartFetch`/`FinishFetch`, and calls happen in the order given.
- RepledgeDetails.FirstCustomer: assumes the embedded `customers` of a loan arrives as an array, as `customers?.[0]` expects. The loan type declares a `customer_id`, which makes the embed to-one. The database would then return an object, `customers?.[0]` would be undefined, and `customer` would always be null. The object shape is not modelled.
- `console.error` logging is not modelled.
- The individual `setSearch`, `setBankFilter`, `setStatusFilter`, `setDateFilter`, `setStartDate` and `setEndDate` setters are modelled together as `SetCriteria`, which replaces the whole filter state.
- `app.tsx`, `src/pages/RedirectBasedOnAuth.tsx` and `src/screens/Login/auth/ProtectedRoute.tsx` are routing and rendering. They are not part of this model.
