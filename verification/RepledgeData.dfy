/** The server-side repledge search (src/hooks/useRepledgeDataDetails.ts):
    build the parameters of the remote `search_repledge_details` call,
    hand filtering and pagination to it, and read the total count off the
    first row it returns. */
module RepledgeData {
  import opened Wrappers
  import opened Text
  import opened BranchFilter

  /** One row the remote search returns; `totalCount` is its optional
      `total_count` column. */
  datatype SearchRow = SearchRow(
    id: string,
    loanId: Option<string>,
    loanNo: Option<string>,
    reNo: Option<string>,
    createdAt: Option<string>,
    status: Option<string>,
    bankName: Option<string>,
    customerName: Option<string>,
    customerPhoto: Option<string>,
    customerMobile: Option<string>,
    totalCount: Option<int>)

  /** The hook's arguments. */
  datatype SearchRequest = SearchRequest(
    searchTerm: string,
    page: int,
    itemsPerPage: int,
    bankFilter: string,
    startDate: string,
    endDate: string)

  /** The hook's argument defaults. */
  const DefaultRequest: SearchRequest := SearchRequest("", 1, 10, "all", "", "")

  /** The parameters of the remote call; None is `null`. */
  datatype SearchParams = SearchParams(
    searchTerm: string,
    pageNum: int,
    pageSize: int,
    bankIdFilter: Option<string>,
    startDateFilter: Option<string>,
    endDateFilter: Option<string>,
    branchIdFilter: Option<string>)

  /** What was thrown: an `Error` object with its message, or anything else. */
  datatype Thrown = ErrorObject(message: string) | OtherValue

  /** The remote call's outcome: rows (possibly null) or a thrown failure. */
  datatype SearchResponse = Answered(rows: Option<seq<SearchRow>>) | Failed(thrown: Thrown)

  const FallbackMessage: string := "An error occurred"

  /** A string parameter that JavaScript's truthiness turns to null when empty. */
  function NonEmptyOrNull(s: string): (r: Option<string>)
    ensures r.None? <==> s == ""
    ensures r.Some? ==> r.value == s
  {
    if s == "" then None else Some(s)
  }

  /** The branch parameter: null for an admin, otherwise the branch's id,
      or null when the branch or its id is missing or empty. */
  function BranchIdFilter(user: Option<User>, branch: Option<Branch>): (r: Option<string>)
    ensures user.Some? && user.value.role == "admin" ==> r.None?
    ensures !(user.Some? && user.value.role == "admin") ==>
      (r.Some? <==> branch.Some? && branch.value.id != "") &&
      (r.Some? ==> r.value == branch.value.id)
  {
    if user.Some? && IsAdmin(user.value) then None else GetBranchId(branch)
  }

  /** The `params` object of `fetchRepledgeData`. */
  function BuildParams(req: SearchRequest, user: Option<User>, branch: Option<Branch>): (p: SearchParams)
    ensures p.searchTerm == Trim(req.searchTerm)
    ensures p.pageNum == req.page && p.pageSize == req.itemsPerPage
    ensures p.bankIdFilter.None? <==> req.bankFilter == "all"
    ensures p.bankIdFilter.Some? ==> p.bankIdFilter.value == req.bankFilter
    ensures p.startDateFilter.None? <==> req.startDate == ""
    ensures p.startDateFilter.Some? ==> p.startDateFilter.value == req.startDate
    ensures p.endDateFilter.None? <==> req.endDate == ""
    ensures p.endDateFilter.Some? ==> p.endDateFilter.value == req.endDate
    ensures p.branchIdFilter == BranchIdFilter(user, branch)
  {
    SearchParams(
      Trim(req.searchTerm),
      req.page,
      req.itemsPerPage,
      if req.bankFilter != "all" then Some(req.bankFilter) else None,
      NonEmptyOrNull(req.startDate),
      NonEmptyOrNull(req.endDate),
      BranchIdFilter(user, branch))
  }

  /** With the hook's default arguments the call asks for page 1 of 10
      rows with an empty term and no bank or date filter. */
  lemma DefaultRequestParams(user: Option<User>, branch: Option<Branch>)
    ensures BuildParams(DefaultRequest, user, branch)
         == SearchParams("", 1, 10, None, None, None, BranchIdFilter(user, branch))
  {
  }

  /** The unguarded `refetch` with no branch sends no branch filter, so the
      remote search is unrestricted for any user. */
  lemma NoBranchUnscoped(req: SearchRequest, user: Option<User>)
    ensures BuildParams(req, user, None).branchIdFilter.None?
  {
  }

  /** The search term sent has no surrounding whitespace, and padding the
      term with whitespace does not change it. */
  lemma SearchTermIsTrimmed(req: SearchRequest, user: Option<User>, branch: Option<Branch>)
    ensures var t := BuildParams(req, user, branch).searchTerm;
      t == [] || (!IsJsWhitespace(t[0]) && !IsJsWhitespace(t[|t| - 1]))
    ensures BuildParams(req.(searchTerm := Trim(req.searchTerm)), user, branch) == BuildParams(req, user, branch)
  {
    TrimIdempotent(req.searchTerm);
  }

  /** A blank search term (whitespace only) is sent as the empty term. */
  lemma BlankSearchIsEmpty(req: SearchRequest, user: Option<User>, branch: Option<Branch>)
    requires forall i :: 0 <= i < |req.searchTerm| ==> IsJsWhitespace(req.searchTerm[i])
    ensures BuildParams(req, user, branch).searchTerm == ""
  {
    TrimEmptyIff(req.searchTerm);
  }

  /** Once a user and a branch with a non-empty id are present (when the
      hook fetches), the remote branch parameter scopes exactly as
      `applyBranchFilter` does: null when the query is left unrestricted,
      the branch id when one `branch_id` predicate is added. */
  lemma ScopeAgreesWithBranchFilter<T>(q: Query<T>, user: User, branch: Branch)
    requires branch.id != ""
    ensures BranchIdFilter(Some(user), Some(branch)).None? <==> ApplyBranchFilter(q, Some(user), Some(branch)) == q
    ensures BranchIdFilter(Some(user), Some(branch)).Some? ==>
      ApplyBranchFilter(q, Some(user), Some(branch)).branchEqs
        == q.branchEqs + [BranchIdFilter(Some(user), Some(branch)).value]
  {
    if !IsAdmin(user) {
      assert |ApplyBranchFilter(q, Some(user), Some(branch)).branchEqs| == |q.branchEqs| + 1;
    }
  }

  /** The two scopings part ways on an empty branch id: the remote search
      is sent no branch filter, so it is unrestricted, while
      `applyBranchFilter` would still add `branch_id = ''`. */
  lemma EmptyBranchIdUnscoped<T>(q: Query<T>, user: User, branch: Branch)
    requires !IsAdmin(user) && branch.id == ""
    ensures BranchIdFilter(Some(user), Some(branch)).None?
    ensures ApplyBranchFilter(q, Some(user), Some(branch)).branchEqs == q.branchEqs + [""]
  {
  }

  /** The returned rows, with a null result read as no rows. */
  function RowsOrEmpty(rows: Option<seq<SearchRow>>): (r: seq<SearchRow>)
    ensures rows.None? ==> r == []
    ensures rows.Some? ==> r == rows.value
  {
    rows.GetOr([])
  }

  /** The total count read off a result: the first row's `total_count`
      (0 when it is absent or 0), and 0 for an empty result. Rows after the
      first are never consulted. */
  function ExtractTotalCount(rows: seq<SearchRow>): (n: int)
    ensures rows == [] ==> n == 0
    ensures rows != [] ==> n == ExtractTotalCount(rows[..1])
    ensures rows != [] && rows[0].totalCount.None? ==> n == 0
    ensures rows != [] && rows[0].totalCount.Some? ==> n == rows[0].totalCount.value
  {
    if |rows| > 0 then rows[0].totalCount.GetOr(0) else 0
  }

  /** The message stored on failure: the `Error`'s own message, or the
      fallback text for anything else thrown. */
  function ErrorMessage(thrown: Thrown): (m: string)
    ensures thrown.ErrorObject? ==> m == thrown.message
    ensures thrown.OtherValue? ==> m == FallbackMessage
  {
    match thrown
    case ErrorObject(message) => message
    case OtherValue => FallbackMessage
  }

  // ---------------------------------------------------------------------
  // The remote side's contract

  /** The offset of page `pageNum` (counted from 1) in the full list of
      matches: `(pageNum - 1) * pageSize`. */
  function PageStart(pageNum: int, pageSize: nat): nat
    requires pageNum >= 1
  {
    (pageNum - 1) * pageSize
  }

  /** The page the remote search is expected to return for the full list of
      matches: rows `[PageStart, PageStart + pageSize)` of the matches, each
      stamped with the number of matches. */
  function RemotePage(matches: seq<SearchRow>, pageNum: int, pageSize: nat): (r: seq<SearchRow>)
    requires pageNum >= 1
    ensures var start := PageStart(pageNum, pageSize);
      |r| == (if start >= |matches| then 0
              else if start + pageSize <= |matches| then pageSize
              else |matches| - start)
    ensures forall i :: 0 <= i < |r| ==> r[i].totalCount == Some(|matches|)
    ensures var start := PageStart(pageNum, pageSize);
      forall i :: 0 <= i < |r| ==>
        start + i < |matches| && r[i] == matches[start + i].(totalCount := Some(|matches|))
  {
    var start := PageStart(pageNum, pageSize);
    if start >= |matches| then []
    else
      var n := if start + pageSize <= |matches| then pageSize else |matches| - start;
      seq(n, i requires 0 <= i < n => matches[start + i].(totalCount := Some(|matches|)))
  }

  /** If the remote side honours its contract, the count read off a page
      within range is the number of matches; a page past the end (or an
      empty page size) reports 0, although there may be matches. */
  lemma CountFromRemotePage(matches: seq<SearchRow>, pageNum: int, pageSize: nat)
    requires pageNum >= 1
    ensures ExtractTotalCount(RemotePage(matches, pageNum, pageSize))
        == if PageStart(pageNum, pageSize) < |matches| && pageSize > 0 then |matches| else 0
  {
    var r := RemotePage(matches, pageNum, pageSize);
    if PageStart(pageNum, pageSize) < |matches| && pageSize > 0 {
      assert |r| > 0;
      assert r[0].totalCount == Some(|matches|);
    }
  }

  // ---------------------------------------------------------------------
  // The hook's state

  /** The state `useRepledgeData` keeps between renders. */
  class RepledgeDataHook {
    var data: seq<SearchRow>
    var loading: bool
    var error: Option<string>
    var totalCount: int

    /** The first render: no rows, loading, no error, count 0. */
    constructor ()
      ensures data == [] && loading && error == None && totalCount == 0
    {
      data := [];
      loading := true;
      error := None;
      totalCount := 0;
    }

    /** The part of `fetchRepledgeData` before its `await`: loading is
        shown, the last error is cleared, and the call's parameters are
        built. */
    method StartFetch(req: SearchRequest, user: Option<User>, branch: Option<Branch>) returns (params: SearchParams)
      modifies this`loading, this`error
      ensures loading && error == None
      ensures params == BuildParams(req, user, branch)
    {
      loading := true;
      error := None;
      params := BuildParams(req, user, branch);
    }

    /** The part after the `await`: on success the rows are wholly replaced
        and the count is read off the first one; on failure the message is
        stored and the rows and count are kept; loading ends on both paths. */
    method FinishFetch(response: SearchResponse)
      modifies this`data, this`totalCount, this`error, this`loading
      ensures !loading
      ensures response.Answered? ==>
        data == RowsOrEmpty(response.rows) && totalCount == ExtractTotalCount(data) && error == old(error)
      ensures response.Failed? ==>
        data == old(data) && totalCount == old(totalCount) && error == Some(ErrorMessage(response.thrown))
    {
      match response {
        case Answered(rows) =>
          var transformed := RowsOrEmpty(rows);
          data := transformed;
          if |transformed| > 0 {
            totalCount := transformed[0].totalCount.GetOr(0);
          } else {
            totalCount := 0;
          }
        case Failed(thrown) =>
          error := Some(ErrorMessage(thrown));
      }
      loading := false;
    }

    /** The effect on the hook's arguments, user and branch: a fetch starts
        only when both a user and a branch are present. */
    method OnDependenciesChange(req: SearchRequest, user: Option<User>, branch: Option<Branch>)
      returns (sent: Option<SearchParams>)
      modifies this`loading, this`error
      ensures sent.Some? <==> user.Some? && branch.Some?
      ensures sent.Some? ==> sent.value == BuildParams(req, user, branch) && loading && error == None
      ensures sent.None? ==> loading == old(loading) && error == old(error)
    {
      if user.Some? && branch.Some? {
        var params := StartFetch(req, user, branch);
        sent := Some(params);
      } else {
        sent := None;
      }
    }
  }

  /** A fetch by a signed-in non-admin whose branch has an id is always
      scoped to that branch. */
  lemma NonAdminSendsBranchId(req: SearchRequest, user: User, branch: Branch)
    requires !IsAdmin(user) && branch.id != ""
    ensures BuildParams(req, Some(user), Some(branch)).branchIdFilter == Some(branch.id)
  {
  }
}
