/** The client-side repledge listing (src/hooks/useRepledgeDetails.ts):
    fetch every repledge the user's branch may see, then search, filter
    and paginate the list in memory.

    Dates are whole day numbers: a record's date, the range bounds and the
    calendar anchors (today, today's weekday, the first day of this month
    and of this year) are all given already truncated to local midnight. */
module RepledgeDetails {
  import opened Wrappers
  import opened Seqs
  import opened Text
  import opened BranchFilter

  type Day = int

  datatype Customer = Customer(id: string, name: Option<string>, mobileNo: Option<string>, photoUrl: Option<string>)

  /** The joined `loans` relation, with its own nested `customers`. */
  datatype Loan = Loan(id: string, loanNo: Option<string>, customerId: string, customers: Option<seq<Customer>>)

  datatype Bank = Bank(id: string, name: string)

  /** One row of the `repledges` read, with its joins; `date` is None when
      the column is null or empty. */
  datatype RepledgeEntry = RepledgeEntry(
    id: string,
    loanId: Option<string>,
    repledgeNo: Option<string>,
    date: Option<Day>,
    status: string,
    bankId: Option<string>,
    branchId: Option<string>,
    loans: Option<Loan>,
    banks: Option<Bank>)

  /** A listed record: the fetched row plus the `customer` and `loan`
      shortcuts the hook adds to it. */
  datatype RepledgeDetail = RepledgeDetail(entry: RepledgeEntry, customer: Option<Customer>, loan: Option<Loan>)

  /** What the database answers to the fetch: rows (possibly null) or an error. */
  datatype FetchResponse = Fetched(data: Option<seq<RepledgeEntry>>) | FetchFailed(message: string)

  /** The filter state the hook keeps; `startDate`/`endDate` are None for
      the empty string. */
  datatype Criteria = Criteria(
    search: string,
    bankFilter: string,
    statusFilter: string,
    dateFilter: string,
    startDate: Option<Day>,
    endDate: Option<Day>)

  /** The calendar facts the date presets need, read from the clock by the
      caller. */
  datatype DateAnchors = DateAnchors(today: Day, weekday: int, startOfMonth: Day, startOfYear: Day)

  const ItemsPerPage: nat := 10

  const InitialCriteria: Criteria := Criteria("", "all", "All", "All", None, None)

  /** Anchors that a real calendar produces: Sunday is weekday 0, and the
      year starts no later than the month, which starts no later than today. */
  predicate ConsistentAnchors(a: DateAnchors) {
    0 <= a.weekday <= 6 && a.startOfYear <= a.startOfMonth <= a.today
  }

  // ---------------------------------------------------------------------
  // Fetching

  /** The table as the query sees it: each row scoped by its own `branch_id`. */
  function ScopedRows(table: seq<RepledgeEntry>): (r: seq<Row<RepledgeEntry>>)
    ensures |r| == |table|
    ensures forall i :: 0 <= i < |r| ==> r[i].payload == table[i] && r[i].branchId == table[i].branchId
  {
    seq(|table|, i requires 0 <= i < |table| => Row(table[i].branchId, table[i]))
  }

  /** The query `fetchRepledges` sends: every repledge, branch-scoped. */
  function FetchQuery(table: seq<RepledgeEntry>, user: Option<User>, branch: Option<Branch>): (q: Query<RepledgeEntry>)
    ensures q.table == ScopedRows(table)
    ensures user.Some? && branch.Some? && !IsAdmin(user.value) ==> q.branchEqs == [branch.value.id]
    ensures !(user.Some? && branch.Some? && !IsAdmin(user.value)) ==> q.branchEqs == []
  {
    ApplyBranchFilter(From(ScopedRows(table)), user, branch)
  }

  /** The rows of a query result. */
  function Payloads(rows: seq<Row<RepledgeEntry>>): (r: seq<RepledgeEntry>)
    ensures |r| == |rows|
    ensures forall i :: 0 <= i < |r| ==> r[i] == rows[i].payload
  {
    seq(|rows|, i requires 0 <= i < |rows| => rows[i].payload)
  }

  /** The customer shortcut: the first customer nested in the loan, if any. */
  function FirstCustomer(loans: Option<Loan>): (r: Option<Customer>)
    ensures r.Some? <==> loans.Some? && loans.value.customers.Some? && |loans.value.customers.value| > 0
    ensures r.Some? ==> r.value == loans.value.customers.value[0]
  {
    if loans.Some? && loans.value.customers.Some? && |loans.value.customers.value| > 0
    then Some(loans.value.customers.value[0])
    else None
  }

  /** The result mapping of `fetchRepledges`: a null result is the empty
      list; otherwise each row, in order, gains its first customer and its
      loan. */
  function ToDetails(data: Option<seq<RepledgeEntry>>): (r: seq<RepledgeDetail>)
    ensures data.None? ==> r == []
    ensures data.Some? ==> |r| == |data.value|
    ensures data.Some? ==> forall i :: 0 <= i < |r| ==>
      r[i].entry == data.value[i] && r[i].loan == data.value[i].loans &&
      r[i].customer == FirstCustomer(data.value[i].loans)
  {
    match data
    case None => []
    case Some(rows) =>
      seq(|rows|, i requires 0 <= i < |rows| => RepledgeDetail(rows[i], FirstCustomer(rows[i].loans), rows[i].loans))
  }

  /** The effects' guard: a fetch is issued only with a user and a branch. */
  predicate ShouldFetch(user: Option<User>, branch: Option<Branch>): (b: bool)
    ensures b <==> user.Some? && branch.Some?
    ensures b ==> ShouldFilterByBranch(user) == !IsAdmin(user.value)
  {
    user.Some? && branch.Some?
  }

  /** Tenant isolation of the client-side listing: when the database
      answers the scoped query for a non-admin user, every listed record
      belongs to the user's branch. */
  lemma FetchedRowsAreIsolated(table: seq<RepledgeEntry>, user: User, branch: Branch)
    requires !IsAdmin(user)
    ensures var listed := ToDetails(Some(Payloads(Execute(FetchQuery(table, Some(user), Some(branch))))));
      forall d :: d in listed ==> d.entry.branchId == Some(branch.id)
  {
    var q := From(ScopedRows(table));
    var rows := Execute(ApplyBranchFilter(q, Some(user), Some(branch)));
    BranchIsolation(q, user, branch);
    forall i | 0 <= i < |rows| ensures rows[i].payload.branchId == Some(branch.id) {
      assert rows[i] in rows;
      assert rows[i] in ScopedRows(table);
    }
  }

  /** For an admin the client-side listing holds the whole table, in order. */
  lemma AdminFetchesEverything(table: seq<RepledgeEntry>, user: User, branch: Option<Branch>)
    requires IsAdmin(user)
    ensures Payloads(Execute(FetchQuery(table, Some(user), branch))) == table
  {
    UnfilteredIsTable(ScopedRows(table));
  }

  /** The unguarded `refetch` with no user signed in sends the query
      unrestricted: the listing holds the whole table, every branch's rows. */
  lemma NoUserFetchesEverything(table: seq<RepledgeEntry>, branch: Option<Branch>)
    ensures Payloads(Execute(FetchQuery(table, None, branch))) == table
  {
    NoUserDisagreement(From(ScopedRows(table)), branch);
    UnfilteredIsTable(ScopedRows(table));
  }

  // ---------------------------------------------------------------------
  // The four filter stages

  /** Stage 1: the lower-cased search term is empty or occurs in the
      lower-cased customer name, the raw mobile number, the lower-cased loan
      number or the lower-cased repledge number; a missing field never
      matches. */
  predicate MatchesSearch(rep: RepledgeDetail, search: string): (b: bool)
    ensures search == "" ==> b
    ensures b && search != "" ==> rep.customer.Some? || rep.loan.Some? || rep.entry.repledgeNo.Some?
  {
    var s := Lower(search);
    || s == ""
    || (rep.customer.Some? && rep.customer.value.name.Some? && Contains(Lower(rep.customer.value.name.value), s))
    || (rep.customer.Some? && rep.customer.value.mobileNo.Some? && Contains(rep.customer.value.mobileNo.value, s))
    || (rep.loan.Some? && rep.loan.value.loanNo.Some? && Contains(Lower(rep.loan.value.loanNo.value), s))
    || (rep.entry.repledgeNo.Some? && Contains(Lower(rep.entry.repledgeNo.value), s))
  }

  /** Stage 2: the bank filter is "all" or equals the record's bank id. */
  predicate MatchesBank(rep: RepledgeDetail, bankFilter: string): (b: bool)
    ensures bankFilter == "all" ==> b
    ensures b && bankFilter != "all" ==> rep.entry.bankId.Some? && rep.entry.bankId.value == bankFilter
    ensures rep.entry.bankId.None? ==> (b <==> bankFilter == "all")
  {
    bankFilter == "all" || rep.entry.bankId == Some(bankFilter)
  }

  /** Stage 3: the status filter is "All" or equals the record's status. */
  predicate MatchesStatus(rep: RepledgeDetail, statusFilter: string): (b: bool)
    ensures statusFilter == "All" ==> b
    ensures b && statusFilter != "All" ==> rep.entry.status == statusFilter
  {
    statusFilter == "All" || rep.entry.status == statusFilter
  }

  /** The named date presets; an unknown name admits every date. */
  predicate PresetAdmits(dateFilter: string, d: Day, a: DateAnchors): (b: bool)
    ensures ConsistentAnchors(a) && d == a.today ==> b
    ensures b && dateFilter == "Today" ==> d == a.today
    ensures d >= a.today && d >= a.startOfMonth && d >= a.startOfYear && a.weekday >= 0 ==> (b <==> dateFilter != "Today" || d == a.today)
  {
    if dateFilter == "Today" then d == a.today
    else if dateFilter == "This Week" then d >= a.today - a.weekday
    else if dateFilter == "This Month" then d >= a.startOfMonth
    else if dateFilter == "This Year" then d >= a.startOfYear
    else true
  }

  /** Stage 4: an undated record passes only when no date filter is set at
      all; a dated one is checked against the explicit range when both
      bounds are set, and against the preset otherwise. */
  predicate MatchesDate(rep: RepledgeDetail, c: Criteria, a: DateAnchors): (b: bool)
    ensures c.dateFilter == "All" && c.startDate.None? && c.endDate.None? ==> b
    ensures b && c.startDate.Some? && c.endDate.Some? ==>
      rep.entry.date.Some? && c.startDate.value <= rep.entry.date.value <= c.endDate.value
    ensures b && rep.entry.date.None? ==> c.startDate.None? && c.endDate.None?
  {
    match rep.entry.date
    case None => c.dateFilter == "All" && c.startDate.None? && c.endDate.None?
    case Some(d) =>
      if c.startDate.Some? && c.endDate.Some? then c.startDate.value <= d <= c.endDate.value
      else PresetAdmits(c.dateFilter, d, a)
  }

  /** The conjunction of the four stages. */
  predicate PassesAll(rep: RepledgeDetail, c: Criteria, a: DateAnchors): (b: bool)
    ensures c == InitialCriteria ==> b
    ensures b ==> MatchesDate(rep, c, a)
    ensures b && c.bankFilter != "all" ==> rep.entry.bankId == Some(c.bankFilter)
    ensures b && c.statusFilter != "All" ==> rep.entry.status == c.statusFilter
  {
    && MatchesSearch(rep, c.search)
    && MatchesBank(rep, c.bankFilter)
    && MatchesStatus(rep, c.statusFilter)
    && MatchesDate(rep, c, a)
  }

  /** `filteredRepledges`: the chain of four `.filter` calls. */
  function FilteredRepledges(reps: seq<RepledgeDetail>, c: Criteria, a: DateAnchors): (r: seq<RepledgeDetail>)
    ensures |r| <= |reps|
    ensures forall i :: 0 <= i < |r| ==> r[i] in reps && MatchesDate(r[i], c, a)
  {
    var bySearch := Filter((rep: RepledgeDetail) => MatchesSearch(rep, c.search), reps);
    var byBank := Filter((rep: RepledgeDetail) => MatchesBank(rep, c.bankFilter), bySearch);
    var byStatus := Filter((rep: RepledgeDetail) => MatchesStatus(rep, c.statusFilter), byBank);
    Filter((rep: RepledgeDetail) => MatchesDate(rep, c, a), byStatus)
  }

  /** The chain is one filter by the conjunction: the filtered list is
      exactly the records passing all four stages, in their fetched order. */
  lemma FilteredIsConjunction(reps: seq<RepledgeDetail>, c: Criteria, a: DateAnchors)
    ensures FilteredRepledges(reps, c, a) == Filter((rep: RepledgeDetail) => PassesAll(rep, c, a), reps)
  {
    var search := (rep: RepledgeDetail) => MatchesSearch(rep, c.search);
    var bank := (rep: RepledgeDetail) => MatchesBank(rep, c.bankFilter);
    var status := (rep: RepledgeDetail) => MatchesStatus(rep, c.statusFilter);
    var date := (rep: RepledgeDetail) => MatchesDate(rep, c, a);
    var sb := (rep: RepledgeDetail) => search(rep) && bank(rep);
    var sbs := (rep: RepledgeDetail) => sb(rep) && status(rep);
    FilterFilter(bank, search, sb, reps);
    FilterFilter(status, sb, sbs, reps);
    FilterFilter(date, sbs, (rep: RepledgeDetail) => PassesAll(rep, c, a), reps);
  }

  /** Membership in the filtered list, stage by stage, and its order. */
  lemma FilteredMembers(reps: seq<RepledgeDetail>, c: Criteria, a: DateAnchors)
    ensures IsSubsequence(FilteredRepledges(reps, c, a), reps)
    ensures forall rep :: rep in FilteredRepledges(reps, c, a) <==>
      && rep in reps
      && MatchesSearch(rep, c.search)
      && (c.bankFilter == "all" || rep.entry.bankId == Some(c.bankFilter))
      && (c.statusFilter == "All" || rep.entry.status == c.statusFilter)
      && MatchesDate(rep, c, a)
  {
    FilteredIsConjunction(reps, c, a);
    FilterIsSubsequence((rep: RepledgeDetail) => PassesAll(rep, c, a), reps);
    forall rep | rep in reps && PassesAll(rep, c, a)
      ensures rep in FilteredRepledges(reps, c, a)
    {
      var i :| 0 <= i < |reps| && reps[i] == rep;
    }
  }

  /** Duplicates are kept: a record that passes appears in the filtered
      list as often as it was fetched, one that fails not at all. Together
      with FilteredMembers this determines the filtered list. */
  lemma FilteredKeepsCopies(reps: seq<RepledgeDetail>, c: Criteria, a: DateAnchors)
    ensures forall i :: 0 <= i < |reps| ==>
      multiset(FilteredRepledges(reps, c, a))[reps[i]]
        == if PassesAll(reps[i], c, a) then multiset(reps)[reps[i]] else 0
  {
    FilteredIsConjunction(reps, c, a);
    FilterCounts((rep: RepledgeDetail) => PassesAll(rep, c, a), reps);
  }

  /** With the hook's initial criteria nothing is filtered out. */
  lemma {:induction false} InitialCriteriaKeepAll(reps: seq<RepledgeDetail>, a: DateAnchors)
    ensures FilteredRepledges(reps, InitialCriteria, a) == reps
  {
    FilteredIsConjunction(reps, InitialCriteria, a);
    AllPass(reps, InitialCriteria, a);
  }

  lemma {:induction false} AllPass(reps: seq<RepledgeDetail>, c: Criteria, a: DateAnchors)
    requires c == InitialCriteria
    ensures Filter((rep: RepledgeDetail) => PassesAll(rep, c, a), reps) == reps
  {
    if reps != [] {
      AllPass(reps[1..], c, a);
      assert reps == [reps[0]] + reps[1..];
    }
  }

  // ---------------------------------------------------------------------
  // Properties of the search stage

  /** Searching is case-insensitive: a term and its lower-cased form match
      the same records. */
  lemma SearchIgnoresCase(rep: RepledgeDetail, search: string)
    ensures MatchesSearch(rep, search) == MatchesSearch(rep, Lower(search))
  {
    LowerIdempotent(search);
  }

  lemma {:induction false} LowerAppend(s: string, t: string)
    ensures Lower(s + t) == Lower(s) + Lower(t)
  {
    assert forall i :: 0 <= i < |s + t| ==> (s + t)[i] == (if i < |s| then s[i] else t[i - |s|]);
  }

  lemma ContainsPrefixOfPattern(text: string, pat: string, more: string)
    requires Contains(text, pat + more)
    ensures Contains(text, pat)
  {
    ContainsAt(text, pat + more);
    ContainsAt(text, pat);
    var i :| OccursAt(text, pat + more, i);
    assert text[i..i + |pat|] == (pat + more)[..|pat|];
    assert OccursAt(text, pat, i);
  }

  /** Typing more characters can only narrow the search: a record that
      matches `term + more` also matches `term`. */
  lemma SearchNarrows(rep: RepledgeDetail, term: string, more: string)
    requires MatchesSearch(rep, term + more)
    ensures MatchesSearch(rep, term)
  {
    LowerAppend(term, more);
    var s, m := Lower(term), Lower(more);
    if s != "" {
      if rep.customer.Some? && rep.customer.value.name.Some? && Contains(Lower(rep.customer.value.name.value), s + m) {
        ContainsPrefixOfPattern(Lower(rep.customer.value.name.value), s, m);
      } else if rep.customer.Some? && rep.customer.value.mobileNo.Some? && Contains(rep.customer.value.mobileNo.value, s + m) {
        ContainsPrefixOfPattern(rep.customer.value.mobileNo.value, s, m);
      } else if rep.loan.Some? && rep.loan.value.loanNo.Some? && Contains(Lower(rep.loan.value.loanNo.value), s + m) {
        ContainsPrefixOfPattern(Lower(rep.loan.value.loanNo.value), s, m);
      } else {
        ContainsPrefixOfPattern(Lower(rep.entry.repledgeNo.value), s, m);
      }
    }
  }

  lemma ContainsItself(text: string)
    ensures Contains(text, text)
  {
    assert StartsWith(text, text);
  }

  /** A record is found by its own repledge number, in any letter case. */
  lemma FoundByRepledgeNo(rep: RepledgeDetail)
    requires rep.entry.repledgeNo.Some?
    ensures MatchesSearch(rep, rep.entry.repledgeNo.value)
  {
    ContainsItself(Lower(rep.entry.repledgeNo.value));
  }

  /** A record without customer, loan and repledge number matches only the
      empty search. */
  lemma NothingToSearch(rep: RepledgeDetail, search: string)
    requires rep.customer.None? && rep.loan.None? && rep.entry.repledgeNo.None?
    ensures MatchesSearch(rep, search) <==> search == ""
  {
  }

  /** `field` is present and `pat` occurs in it at some offset. */
  ghost predicate FoundIn(field: Option<string>, pat: string) {
    field.Some? && exists i :: OccursAt(field.value, pat, i)
  }

  /** The search rule, stated against `OccursAt`: a non-empty term matches a
      record exactly when its lower-cased form occurs in the lower-cased
      customer name, the raw mobile number, the lower-cased loan number or
      the lower-cased repledge number, each counted only when present. */
  lemma SearchRule(rep: RepledgeDetail, search: string)
    requires search != ""
    ensures MatchesSearch(rep, search) <==>
      || (rep.customer.Some? && rep.customer.value.name.Some? &&
          FoundIn(Some(Lower(rep.customer.value.name.value)), Lower(search)))
      || (rep.customer.Some? && FoundIn(rep.customer.value.mobileNo, Lower(search)))
      || (rep.loan.Some? && rep.loan.value.loanNo.Some? &&
          FoundIn(Some(Lower(rep.loan.value.loanNo.value)), Lower(search)))
      || (rep.entry.repledgeNo.Some? && FoundIn(Some(Lower(rep.entry.repledgeNo.value)), Lower(search)))
  {
    var s := Lower(search);
    assert s != "";
    if rep.customer.Some? && rep.customer.value.name.Some? {
      ContainsAt(Lower(rep.customer.value.name.value), s);
    }
    if rep.customer.Some? && rep.customer.value.mobileNo.Some? {
      ContainsAt(rep.customer.value.mobileNo.value, s);
    }
    if rep.loan.Some? && rep.loan.value.loanNo.Some? {
      ContainsAt(Lower(rep.loan.value.loanNo.value), s);
    }
    if rep.entry.repledgeNo.Some? {
      ContainsAt(Lower(rep.entry.repledgeNo.value), s);
    }
  }

  // ---------------------------------------------------------------------
  // Properties of the date stage

  /** An undated record passes only when no date filter of any kind is set. */
  lemma UndatedRecord(rep: RepledgeDetail, c: Criteria, a: DateAnchors)
    requires rep.entry.date.None?
    ensures MatchesDate(rep, c, a) <==> c.dateFilter == "All" && c.startDate.None? && c.endDate.None?
  {
  }

  /** With both bounds set, a dated record passes exactly when it lies in
      the inclusive range, whatever the preset says. */
  lemma ExplicitRangeOverridesPreset(rep: RepledgeDetail, c: Criteria, a: DateAnchors, preset: string)
    requires rep.entry.date.Some? && c.startDate.Some? && c.endDate.Some?
    ensures MatchesDate(rep, c, a) <==> c.startDate.value <= rep.entry.date.value <= c.endDate.value
    ensures MatchesDate(rep, c, a) == MatchesDate(rep, c.(dateFilter := preset), a)
  {
  }

  /** With at most one bound set, a dated record is judged by the preset
      alone; a lone bound is ignored. */
  lemma PresetWhenRangeIncomplete(rep: RepledgeDetail, c: Criteria, a: DateAnchors)
    requires rep.entry.date.Some? && (c.startDate.None? || c.endDate.None?)
    ensures var d := rep.entry.date.value;
      && (c.dateFilter == "All" ==> MatchesDate(rep, c, a))
      && (c.dateFilter == "Today" ==> (MatchesDate(rep, c, a) <==> d == a.today))
      && (c.dateFilter == "This Week" ==> (MatchesDate(rep, c, a) <==> d >= a.today - a.weekday))
      && (c.dateFilter == "This Month" ==> (MatchesDate(rep, c, a) <==> d >= a.startOfMonth))
      && (c.dateFilter == "This Year" ==> (MatchesDate(rep, c, a) <==> d >= a.startOfYear))
      && (c.dateFilter !in {"All", "Today", "This Week", "This Month", "This Year"} ==> MatchesDate(rep, c, a))
  {
  }

  /** On a real calendar the presets nest: today lies in this week and in
      this month, and this month lies in this year. */
  lemma PresetsNest(d: Day, a: DateAnchors)
    requires ConsistentAnchors(a)
    ensures PresetAdmits("Today", d, a) ==> PresetAdmits("This Week", d, a) && PresetAdmits("This Month", d, a)
    ensures PresetAdmits("This Month", d, a) ==> PresetAdmits("This Year", d, a)
  {
  }

  /** The presets have no upper bound: a later date passes whenever an
      earlier one does (so future-dated records pass "This Week", "This
      Month" and "This Year"). */
  lemma PresetsOpenEnded(f: string, d: Day, later: Day, a: DateAnchors)
    requires f != "Today" && d <= later && PresetAdmits(f, d, a)
    ensures PresetAdmits(f, later, a)
  {
  }

  /** Example: with the "Today" preset and nothing else, of a
      record dated today and one dated yesterday only the first is listed. */
  lemma TodayExample(r1: RepledgeDetail, r2: RepledgeDetail, a: DateAnchors)
    requires r1.entry.date == Some(a.today) && r2.entry.date == Some(a.today - 1)
    ensures FilteredRepledges([r1, r2], InitialCriteria.(dateFilter := "Today"), a) == [r1]
  {
    var c := InitialCriteria.(dateFilter := "Today");
    FilteredIsConjunction([r1, r2], c, a);
    assert [r1, r2][1..] == [r2];
  }

  // ---------------------------------------------------------------------
  // Pagination

  /** How `Array.prototype.slice` resolves an index against length `len`:
      a negative index counts from the end; the result is clamped to
      `[0, len]`. */
  function SliceIndex(i: int, len: nat): (r: nat)
    ensures r <= len
    ensures 0 <= i ==> r == if i < len then i else len
    ensures i < 0 ==> r == if len + i < 0 then 0 else len + i
  {
    if i < 0 then (if len + i < 0 then 0 else len + i)
    else if i < len then i else len
  }

  /** `s.slice(start, end)`. */
  function Slice<T>(s: seq<T>, start: int, end: int): (r: seq<T>)
    ensures SliceIndex(start, |s|) < SliceIndex(end, |s|) ==> r == s[SliceIndex(start, |s|)..SliceIndex(end, |s|)]
    ensures SliceIndex(end, |s|) <= SliceIndex(start, |s|) ==> r == []
  {
    var from, to := SliceIndex(start, |s|), SliceIndex(end, |s|);
    if from < to then s[from..to] else []
  }

  /** `paginatedRepledges`: the rows of page `currentPage` (1-based). */
  function Paginate<T>(xs: seq<T>, currentPage: int): (r: seq<T>)
    ensures |r| <= ItemsPerPage
    ensures currentPage >= 1 ==>
      var start := (currentPage - 1) * ItemsPerPage;
      r == xs[if start < |xs| then start else |xs|..if start + ItemsPerPage < |xs| then start + ItemsPerPage else |xs|]
  {
    var start := (currentPage - 1) * ItemsPerPage;
    Slice(xs, start, start + ItemsPerPage)
  }

  /** The page count: `count / 10` rounded up, the fewest pages holding
      `count` rows, which is 0 when there are none. */
  function TotalPages(count: nat): (r: nat)
    ensures r * ItemsPerPage >= count
    ensures r > 0 ==> (r - 1) * ItemsPerPage < count
    ensures r == 0 <==> count == 0
  {
    (count + ItemsPerPage - 1) / ItemsPerPage
  }

  /** A page is non-empty exactly when its number is between 1 and the
      page count. */
  lemma PageNonEmptyIff<T>(xs: seq<T>, p: int)
    requires p >= 1
    ensures Paginate(xs, p) != [] <==> p <= TotalPages(|xs|)
  {
  }

  /** Row `k` of the list is row `k % 10` of page `k / 10 + 1`. */
  lemma RowOnItsPage<T>(xs: seq<T>, k: nat)
    requires k < |xs|
    ensures |Paginate(xs, k / ItemsPerPage + 1)| > k % ItemsPerPage
    ensures Paginate(xs, k / ItemsPerPage + 1)[k % ItemsPerPage] == xs[k]
  {
  }

  /** Page 0 is empty; page -1 slices from the end (JavaScript's negative
      slice indices), so it is the ten rows before the last ten. */
  lemma NonPositivePages<T>(xs: seq<T>)
    ensures Paginate(xs, 0) == []
    ensures |xs| >= 20 ==> Paginate(xs, -1) == xs[|xs| - 20..|xs| - 10]
  {
  }

  /** Example: 23 rows make 3 pages of 10, 10 and 3 rows. */
  lemma TwentyThreeRows<T>(xs: seq<T>)
    requires |xs| == 23
    ensures TotalPages(|xs|) == 3
    ensures |Paginate(xs, 1)| == 10 && |Paginate(xs, 2)| == 10 && |Paginate(xs, 3)| == 3
    ensures Paginate(xs, 4) == []
  {
  }

  // ---------------------------------------------------------------------
  // The hook's state

  /** The state `useRepledgeDetails` keeps between renders. */
  class RepledgeDetailsHook {
    var repledges: seq<RepledgeDetail>
    var loading: bool
    var criteria: Criteria
    var currentPage: int
    /** The filtered length the page-reset effect last ran with. */
    var seenFilteredLength: nat

    /** The first render: nothing fetched, loading, initial criteria, page 1. */
    constructor ()
      ensures repledges == [] && loading && criteria == InitialCriteria
      ensures currentPage == 1 && seenFilteredLength == 0
    {
      repledges := [];
      loading := true;
      criteria := InitialCriteria;
      currentPage := 1;
      seenFilteredLength := 0;
    }

    /** `filteredRepledges` for the current state. */
    function Filtered(a: DateAnchors): (r: seq<RepledgeDetail>)
      reads this
      ensures IsSubsequence(r, repledges)
      ensures forall x :: x in r <==> x in repledges && PassesAll(x, criteria, a)
    {
      FilteredMembers(repledges, criteria, a);
      FilteredRepledges(repledges, criteria, a)
    }

    /** The hook's `repledges` output: the current page of the filtered list. */
    function PageRows(a: DateAnchors): (r: seq<RepledgeDetail>)
      reads this
      ensures |r| <= ItemsPerPage
      ensures forall x :: x in r ==> x in repledges && PassesAll(x, criteria, a)
    {
      FilteredMembers(repledges, criteria, a);
      Paginate(Filtered(a), currentPage)
    }

    /** The hook's `totalCount` output: the filtered length, not the fetched one. */
    function TotalCount(a: DateAnchors): (n: nat)
      reads this
      ensures n <= |repledges|
      ensures n == 0 <==> forall x :: x in repledges ==> !PassesAll(x, criteria, a)
    {
      FilteredMembers(repledges, criteria, a);
      |Filtered(a)|
    }

    /** The part of `fetchRepledges` before its `await`: loading is shown
        and the query is built over `table` (the database's repledges) and
        scoped by `applyBranchFilter`; the query sent is returned. */
    method StartFetch(table: seq<RepledgeEntry>, user: Option<User>, branch: Option<Branch>)
      returns (q: Query<RepledgeEntry>)
      modifies this`loading
      ensures loading
      ensures q == FetchQuery(table, user, branch)
    {
      loading := true;
      q := ApplyBranchFilter(From(ScopedRows(table)), user, branch);
    }

    /** The part of `fetchRepledges` after its `await`: on success the list
        is wholly replaced by the mapped rows, on error it is kept; loading
        ends on both paths. */
    method FinishFetch(response: FetchResponse)
      modifies this`repledges, this`loading
      ensures !loading
      ensures response.Fetched? ==> repledges == ToDetails(response.data)
      ensures response.FetchFailed? ==> repledges == old(repledges)
    {
      match response {
        case Fetched(data) =>
          repledges := ToDetails(data);
        case FetchFailed(_) =>
      }
      loading := false;
    }

    /** The effect on `[user, branch]`: a fetch starts only when both are
        present, and then sends the scoped query. */
    method OnAuthChange(table: seq<RepledgeEntry>, user: Option<User>, branch: Option<Branch>)
      returns (sent: Option<Query<RepledgeEntry>>)
      modifies this`loading
      ensures sent.Some? <==> ShouldFetch(user, branch)
      ensures sent.Some? ==> sent.value == FetchQuery(table, user, branch)
      ensures loading == (sent.Some? || old(loading))
    {
      if ShouldFetch(user, branch) {
        var q := StartFetch(table, user, branch);
        sent := Some(q);
      } else {
        sent := None;
      }
    }

    /** One of the `setX` mutators of the filter state. */
    method SetCriteria(c: Criteria)
      modifies this`criteria
      ensures criteria == c
    {
      criteria := c;
    }

    /** `setCurrentPage`, exported to the page's controls. */
    method SetCurrentPage(p: int)
      modifies this`currentPage
      ensures currentPage == p
    {
      currentPage := p;
    }

    /** The effect on `[filteredRepledges.length]`: back to page 1 when the
        filtered length differs from the one the effect last saw, and only then. */
    method SyncPage(a: DateAnchors)
      modifies this`currentPage, this`seenFilteredLength
      ensures seenFilteredLength == |Filtered(a)|
      ensures |Filtered(a)| != old(seenFilteredLength) ==> currentPage == 1
      ensures |Filtered(a)| == old(seenFilteredLength) ==> currentPage == old(currentPage)
    {
      var n := |Filtered(a)|;
      if n != seenFilteredLength {
        currentPage := 1;
      }
      seenFilteredLength := n;
    }
  }

  /** With one "Active" and one "Closed" undated record, filtering by
      either status lists exactly one record. */
  lemma StatusFilterExample(active: RepledgeDetail, closed: RepledgeDetail, a: DateAnchors)
    requires active.entry.status == "Active" && closed.entry.status == "Closed"
    requires active.entry.date.None? && closed.entry.date.None?
    ensures FilteredRepledges([active, closed], InitialCriteria.(statusFilter := "Active"), a) == [active]
    ensures FilteredRepledges([active, closed], InitialCriteria.(statusFilter := "Closed"), a) == [closed]
  {
    assert [active, closed][1..] == [closed];
    FilteredIsConjunction([active, closed], InitialCriteria.(statusFilter := "Active"), a);
    FilteredIsConjunction([active, closed], InitialCriteria.(statusFilter := "Closed"), a);
  }

  /** After the effect's fetch for a signed-in non-admin, answered by the
      database with the rows of the query it sent, the hook holds only
      records of the user's branch. */
  method GuardedFetchListsOwnBranch(hook: RepledgeDetailsHook, table: seq<RepledgeEntry>, user: User, branch: Branch)
    requires !IsAdmin(user)
    modifies hook
    ensures forall d :: d in hook.repledges ==> d.entry.branchId == Some(branch.id)
  {
    var sent := hook.OnAuthChange(table, Some(user), Some(branch));
    hook.FinishFetch(Fetched(Some(Payloads(Execute(sent.value)))));
    FetchedRowsAreIsolated(table, user, branch);
  }

  /** The hook holding one "Active" and one "Closed" undated record lists
      exactly one of them under either status filter. */
  lemma OneRecordPerStatus(hook: RepledgeDetailsHook, active: RepledgeEntry, closed: RepledgeEntry, a: DateAnchors)
    requires active.status == "Active" && closed.status == "Closed"
    requires active.date.None? && closed.date.None?
    requires hook.repledges == ToDetails(Some([active, closed]))
    requires hook.criteria.statusFilter == "Active" || hook.criteria.statusFilter == "Closed"
    requires hook.criteria == InitialCriteria.(statusFilter := hook.criteria.statusFilter)
    ensures |hook.Filtered(a)| == 1
  {
    var reps := hook.repledges;
    assert reps == [reps[0], reps[1]];
    StatusFilterExample(reps[0], reps[1], a);
  }

  /** A hook that has fetched one "Active" and one "Closed" undated record,
      filters by "Active", has run its page-reset effect and then moved to
      page 2. */
  method ActiveOnPageTwo(active: RepledgeEntry, closed: RepledgeEntry, a: DateAnchors)
    returns (hook: RepledgeDetailsHook)
    requires active.status == "Active" && closed.status == "Closed"
    requires active.date.None? && closed.date.None?
    ensures fresh(hook)
    ensures hook.repledges == ToDetails(Some([active, closed]))
    ensures hook.criteria == InitialCriteria.(statusFilter := "Active")
    ensures hook.seenFilteredLength == 1 && hook.currentPage == 2
  {
    hook := new RepledgeDetailsHook();
    hook.FinishFetch(Fetched(Some([active, closed])));
    hook.SetCriteria(InitialCriteria.(statusFilter := "Active"));
    OneRecordPerStatus(hook, active, closed, a);
    hook.SyncPage(a);
    hook.SetCurrentPage(2);
  }

  /** A criteria change that keeps the filtered length keeps the page:
      switching the status filter from "Active" to "Closed" while on page 2
      leaves the user on page 2. */
  method PageResetIsKeyedOnLength(active: RepledgeEntry, closed: RepledgeEntry, a: DateAnchors)
    returns (pageAfterSwitch: int)
    requires active.status == "Active" && closed.status == "Closed"
    requires active.date.None? && closed.date.None?
    ensures pageAfterSwitch == 2
  {
    var hook := ActiveOnPageTwo(active, closed, a);
    hook.SetCriteria(InitialCriteria.(statusFilter := "Closed"));
    OneRecordPerStatus(hook, active, closed, a);
    hook.SyncPage(a);
    pageAfterSwitch := hook.currentPage;
  }
}
