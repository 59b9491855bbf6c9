/** Branch scoping of queries (src/lib/branchFilter.ts).

    A query is modelled as the table it reads plus the `branch_id`
    equality predicates added to it so far; executing it keeps, in table
    order, the rows that satisfy every predicate. As in SQL, a row whose
    `branch_id` is NULL satisfies no equality predicate. */
module BranchFilter {
  import opened Wrappers
  import opened Seqs

  datatype User = User(id: string, username: string, fullName: string, role: string)

  datatype Branch = Branch(id: string, name: string, code: string)

  /** A table row as far as scoping is concerned: its nullable `branch_id`
      and everything else, which scoping does not look at. */
  datatype Row<T> = Row(branchId: Option<string>, payload: T)

  datatype Query<T> = Query(table: seq<Row<T>>, branchEqs: seq<string>)

  const AdminRole: string := "admin"

  predicate IsAdmin(user: User) {
    user.role == AdminRole
  }

  /** The query reading `table` with no predicate yet. */
  function From<T>(table: seq<Row<T>>): Query<T> {
    Query(table, [])
  }

  /** `row` satisfies every `branch_id = id` predicate in `eqs`. */
  predicate MatchesAll<T>(row: Row<T>, eqs: seq<string>) {
    forall i :: 0 <= i < |eqs| ==> row.branchId == Some(eqs[i])
  }

  /** The rows the database returns for `q`, in table order. */
  function Execute<T>(q: Query<T>): seq<Row<T>> {
    Filter((row: Row<T>) => MatchesAll(row, q.branchEqs), q.table)
  }

  /** `applyBranchFilter`: an admin, or a missing user or branch, leaves the
      query as it is; any other user gets one `branch_id = branch.id`
      predicate added. */
  function ApplyBranchFilter<T>(q: Query<T>, user: Option<User>, branch: Option<Branch>): (r: Query<T>)
    ensures user.None? || branch.None? ==> r == q
    ensures user.Some? && IsAdmin(user.value) ==> r == q
    ensures user.Some? && branch.Some? && !IsAdmin(user.value) ==>
      r.table == q.table && r.branchEqs == q.branchEqs + [branch.value.id]
  {
    if user.None? || branch.None? then q
    else if IsAdmin(user.value) then q
    else q.(branchEqs := q.branchEqs + [branch.value.id])
  }

  /** `shouldFilterByBranch`: false exactly for a present admin user; a
      missing user yields true. */
  function ShouldFilterByBranch(user: Option<User>): (r: bool)
    ensures !r <==> user.Some? && user.value.role == "admin"
    ensures user.None? ==> r
  {
    !(user.Some? && IsAdmin(user.value))
  }

  /** `getBranchId`: the branch's id when the branch is present and its id
      is not the empty string (which JavaScript treats as false), else null. */
  function GetBranchId(branch: Option<Branch>): (r: Option<string>)
    ensures r.Some? <==> branch.Some? && branch.value.id != ""
    ensures r.Some? ==> r.value == branch.value.id && r.value != ""
  {
    if branch.Some? && branch.value.id != "" then Some(branch.value.id) else None
  }

  /** Adding one predicate to a query filters the old result by it. */
  lemma {:induction false} ExecuteAddedEq<T>(q: Query<T>, id: string)
    ensures Execute(q.(branchEqs := q.branchEqs + [id]))
         == Filter((row: Row<T>) => row.branchId == Some(id), Execute(q))
  {
    var q' := q.(branchEqs := q.branchEqs + [id]);
    forall row: Row<T>
      ensures MatchesAll(row, q'.branchEqs) == (MatchesAll(row, q.branchEqs) && row.branchId == Some(id))
    {
      if MatchesAll(row, q.branchEqs) && row.branchId == Some(id) {
        forall i | 0 <= i < |q'.branchEqs| ensures row.branchId == Some(q'.branchEqs[i]) {
          if i < |q.branchEqs| {
            assert q'.branchEqs[i] == q.branchEqs[i];
          }
        }
      }
      if MatchesAll(row, q'.branchEqs) {
        assert row.branchId == Some(q'.branchEqs[|q.branchEqs|]);
        forall i | 0 <= i < |q.branchEqs| ensures row.branchId == Some(q.branchEqs[i]) {
          assert q'.branchEqs[i] == q.branchEqs[i];
        }
      }
    }
    FilterFilter((row: Row<T>) => row.branchId == Some(id),
                 (row: Row<T>) => MatchesAll(row, q.branchEqs),
                 (row: Row<T>) => MatchesAll(row, q'.branchEqs),
                 q.table);
  }

  /** Tenant isolation: for a non-admin user with a branch, every row the
      scoped query returns belongs to that branch. */
  lemma BranchIsolation<T>(q: Query<T>, user: User, branch: Branch)
    requires !IsAdmin(user)
    ensures forall row :: row in Execute(ApplyBranchFilter(q, Some(user), Some(branch))) ==>
      row.branchId == Some(branch.id)
  {
    ExecuteAddedEq(q, branch.id);
  }

  /** The filter never widens a query: the scoped result is the unscoped
      result with some rows deleted, in the same order. */
  lemma NeverWidens<T>(q: Query<T>, user: Option<User>, branch: Option<Branch>)
    ensures IsSubsequence(Execute(ApplyBranchFilter(q, user, branch)), Execute(q))
  {
    if user.Some? && branch.Some? && !IsAdmin(user.value) {
      ExecuteAddedEq(q, branch.value.id);
      FilterIsSubsequence((row: Row<T>) => row.branchId == Some(branch.value.id), Execute(q));
    } else {
      FilterIsSubsequence((row: Row<T>) => MatchesAll(row, q.branchEqs), q.table);
      SubsequenceReflexive(Execute(q));
    }
  }

  /** A scoped query over a fresh table returns exactly that branch's rows,
      in table order: no row of the branch is lost. */
  lemma ScopedTableIsBranchRows<T>(table: seq<Row<T>>, user: User, branch: Branch)
    requires !IsAdmin(user)
    ensures Execute(ApplyBranchFilter(From(table), Some(user), Some(branch)))
         == Filter((row: Row<T>) => row.branchId == Some(branch.id), table)
  {
    ExecuteAddedEq(From(table), branch.id);
    UnfilteredIsTable(table);
  }

  /** A query with no predicate returns its whole table. */
  lemma {:induction false} UnfilteredIsTable<T>(table: seq<Row<T>>)
    ensures Execute(From(table)) == table
  {
    if table != [] {
      UnfilteredIsTable(table[1..]);
    }
  }

  lemma {:induction false} SubsequenceReflexive<T>(s: seq<T>)
    ensures IsSubsequence(s, s)
  {
    if s != [] {
      SubsequenceReflexive(s[1..]);
    }
  }

  /** `shouldFilterByBranch` agrees with `applyBranchFilter` once a user and
      a branch are both present, which is when the hooks fetch. */
  lemma ShouldFilterAgreesWhenSignedIn<T>(q: Query<T>, user: User, branch: Branch)
    ensures ShouldFilterByBranch(Some(user)) <==> ApplyBranchFilter(q, Some(user), Some(branch)) != q
  {
    if !IsAdmin(user) {
      assert |ApplyBranchFilter(q, Some(user), Some(branch)).branchEqs| == |q.branchEqs| + 1;
    }
  }

  /** Without a signed-in user the two disagree: `shouldFilterByBranch`
      says filter, `applyBranchFilter` leaves the query unrestricted. */
  lemma NoUserDisagreement<T>(q: Query<T>, branch: Option<Branch>)
    ensures ShouldFilterByBranch(None) && ApplyBranchFilter(q, None, branch) == q
  {
  }
}
