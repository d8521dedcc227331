/**
 * The dashboard routes over one month window: the organization's totals (overview), its
 * entries newest first (report), each approved member's totals (comparison), and the totals
 * with a per-member grouping (summary). `month` and `year` are the query parameters after
 * numeric coercion.
 */
module Dashboard {
  import opened Wrappers
  import opened Http
  import opened Entities
  import opened Rows
  import opened Schemas
  import opened Middleware
  import opened Store
  import opened Ledger
  import opened Expenses

  /** The caller's organization, when the caller has a row and the row has one. */
  function OrgOf(users: map<UserId, User>, auth: Response<Payload>): (r: Option<OrgId>)
    ensures r.Some? <==> auth.Ok? && auth.value.id in users && users[auth.value.id].organizationId.Some?
    ensures r.Some? ==> Some(r.value) == users[auth.value.id].organizationId
  {
    if auth.Ok? && auth.value.id in users then users[auth.value.id].organizationId else None
  }

  // ---------------------------------------------------------------- overview

  datatype MonthTotals = MonthTotals(totalIncome: real, totalExpense: real, month: int, year: int)

  /** The overview route: an approved caller with an organization gets its month's totals. */
  function Overview(st: Store, auth: Response<Payload>, month: int, year: int): (r: Response<MonthTotals>)
    reads st
    requires st.Valid()
    ensures auth.Err? ==> r == Err(auth.status, auth.body)
    ensures auth.Ok? && !(OrgOf(st.users, auth).Some? && st.users[auth.value.id].status == Approved) ==>
      r == Err(FORBIDDEN, Message("Unauthorized"))
    ensures r.Ok? <==> OrgOf(st.users, auth).Some? && st.users[auth.value.id].status == Approved
    ensures r.Ok? ==>
      var es := OrgMonth(st.expenses, OrgOf(st.users, auth).value, year, month);
      && r.value.month == month && r.value.year == year
      && Totals(r.value.totalIncome, r.value.totalExpense) == OverviewTotals(es)
      && Totals(r.value.totalIncome, r.value.totalExpense) == SummaryTotals(es)
      && r.value.totalIncome >= 0.0 && r.value.totalExpense >= 0.0
      && r.value.totalIncome + r.value.totalExpense == Sum(es)
      && (r.value.totalIncome == 0.0 && r.value.totalExpense == 0.0 <==> es == [])
  {
    if auth.Err? then Err(auth.status, auth.body)
    else
      var org := OrgOf(st.users, auth);
      if !(org.Some? && st.users[auth.value.id].status == Approved) then Err(FORBIDDEN, Message("Unauthorized"))
      else
        var es := OrgMonth(st.expenses, org.value, year, month);
        var totals := OverviewTotals(es);
        StoredTotals(st, es);
        Ok(MonthTotals(totals.income, totals.expense, month, year))
  }

  /** Entries drawn from the ledger: the two reports agree, their totals are non-negative and add up. */
  lemma StoredTotals(st: Store, es: seq<Expense>)
    requires st.Valid()
    requires forall e :: e in es ==> e in st.expenses
    ensures var t := OverviewTotals(es);
      && t == SummaryTotals(es)
      && t.income >= 0.0 && t.expense >= 0.0 && t.income + t.expense == Sum(es)
      && (t.income == 0.0 && t.expense == 0.0 <==> es == [])
  {
    assert OnlyListedKinds(es) && forall e :: e in es ==> e.amount > 0.0 by {
      forall e | e in es ensures (e.kind == INCOME || e.kind == EXPENSE) && e.amount > 0.0 {
        var i :| 0 <= i < |st.expenses| && st.expenses[i] == e;
      }
    }
    SummaryMatchesOverview(es);
    KindsSplitSum(es, INCOME);
    SumOfPositives(es);
    SumOfPositives(Where(es, OfKind(INCOME)));
    SumOfPositives(Where(es, NotOfKind(INCOME)));
  }

  // ---------------------------------------------------------------- report

  /** A report entry with its author's name and its category row (`include: { user, category }`). */
  datatype ReportRow = ReportRow(entry: Expense, userName: string, category: Option<Category>)

  datatype MonthReport = MonthReport(month: int, year: int, expenses: seq<ReportRow>)

  function HasId(id: CategoryId): Category -> bool
  {
    (c: Category) => c.id == id
  }

  /** The category row an entry refers to, if it refers to one. */
  function CategoryById(categories: seq<Category>, id: Option<CategoryId>): (r: Option<Category>)
    ensures r.Some? <==> id.Some? && exists c :: c in categories && c.id == id.value
    ensures r.Some? ==> r.value in categories && r.value.id == id.value
  {
    if id.None? then None
    else
      var i := FirstWhere(categories, HasId(id.value));
      if i < |categories| then Some(categories[i]) else None
  }

  /** Category ids are unique, so the row found is the one with that id. */
  lemma CategoryByIdFinds(st: Store, c: Category)
    requires st.Valid()
    requires c in st.categories
    ensures CategoryById(st.categories, Some(c.id)) == Some(c)
  {
    var r := CategoryById(st.categories, Some(c.id)).value;
    var i :| 0 <= i < |st.categories| && st.categories[i] == c;
    var j :| 0 <= j < |st.categories| && st.categories[j] == r;
  }

  /** The entries `es` with their includes. */
  function ReportRows(es: seq<Expense>, users: map<UserId, User>, categories: seq<Category>): (rows: seq<ReportRow>)
    requires forall e :: e in es ==> e.userId in users
    ensures |rows| == |es|
    ensures forall i :: 0 <= i < |es| ==>
      rows[i] == ReportRow(es[i], users[es[i].userId].name, CategoryById(categories, es[i].categoryId))
  {
    seq(|es|, i requires 0 <= i < |es| => ReportRow(es[i], users[es[i].userId].name, CategoryById(categories, es[i].categoryId)))
  }

  /** A report row without its category is the summary query's row for the same entry. */
  function WithoutCategories(rows: seq<ReportRow>): (s: seq<SummaryRow>)
    ensures |s| == |rows|
    ensures forall i :: 0 <= i < |rows| ==> s[i] == SummaryRow(rows[i].entry, rows[i].userName)
  {
    seq(|rows|, i requires 0 <= i < |rows| => SummaryRow(rows[i].entry, rows[i].userName))
  }

  /** The report route: a caller with an organization gets its month's entries, newest first. */
  function Report(st: Store, auth: Response<Payload>, month: int, year: int): (r: Response<MonthReport>)
    reads st
    requires st.Valid()
    ensures auth.Err? ==> r == Err(auth.status, auth.body)
    ensures auth.Ok? && OrgOf(st.users, auth).None? ==> r == Err(FORBIDDEN, Message("Unauthorized"))
    ensures r.Ok? <==> OrgOf(st.users, auth).Some?
    ensures r.Ok? ==>
      var es := OrgMonth(st.expenses, OrgOf(st.users, auth).value, year, month);
      var entries := EntriesOf(WithoutCategories(r.value.expenses));
      && r.value.month == month && r.value.year == year
      && SortedBy(entries, NewestFirst())
      && multiset(entries) == multiset(es)
      && (forall e :: e in entries <==> e in st.expenses && Some(e.organizationId) == OrgOf(st.users, auth)
                                        && Calendar.InMonth(e.date, year, month))
      && forall row :: row in r.value.expenses ==>
        && row.entry.userId in st.users && row.userName == st.users[row.entry.userId].name
        && row.category == CategoryById(st.categories, row.entry.categoryId)
  {
    if auth.Err? then Err(auth.status, auth.body)
    else
      var org := OrgOf(st.users, auth);
      if org.None? then Err(FORBIDDEN, Message("Unauthorized"))
      else
        var es := OrgMonth(st.expenses, org.value, year, month);
        NewestFirstIsPreorder();
        SortKeepsElements(es, NewestFirst());
        var sorted := SortBy(es, NewestFirst());
        AuthorsExist(st, sorted);
        ReportRowsFacts(sorted, st.users, st.categories);
        Ok(MonthReport(month, year, ReportRows(sorted, st.users, st.categories)))
  }

  /** Every entry drawn from the ledger has an author row. */
  lemma AuthorsExist(st: Store, es: seq<Expense>)
    requires st.Valid()
    requires forall e :: e in es ==> e in st.expenses
    ensures forall e :: e in es ==> e.userId in st.users
  {
    forall e | e in es ensures e.userId in st.users {
      var i :| 0 <= i < |st.expenses| && st.expenses[i] == e;
    }
  }

  /** The report rows keep the entries in order, each with its author's name and its category. */
  lemma ReportRowsFacts(es: seq<Expense>, users: map<UserId, User>, categories: seq<Category>)
    requires forall e :: e in es ==> e.userId in users
    ensures WithoutCategories(ReportRows(es, users, categories)) == SummaryRows(es, users)
    ensures EntriesOf(WithoutCategories(ReportRows(es, users, categories))) == es
    ensures forall row :: row in ReportRows(es, users, categories) ==>
      && row.entry.userId in users && row.userName == users[row.entry.userId].name
      && row.category == CategoryById(categories, row.entry.categoryId)
  {
    var rows := ReportRows(es, users, categories);
    assert WithoutCategories(rows) == SummaryRows(es, users);
    assert EntriesOf(WithoutCategories(rows)) == es;
    forall row | row in rows
      ensures row.entry.userId in users && row.userName == users[row.entry.userId].name
      ensures row.category == CategoryById(categories, row.entry.categoryId)
    {
      var i :| 0 <= i < |rows| && rows[i] == row;
      assert es[i] in es;
    }
  }

  // ---------------------------------------------------------------- comparison

  /** One element of the comparison route's answer. */
  datatype MemberComparison = MemberComparison(memberId: UserId, name: string, income: real, expense: real)

  /** `where: { organizationId, status: 'APPROVED' }`. */
  function ApprovedIn(org: Option<OrgId>): User -> bool
  {
    (u: User) => u.organizationId == org && u.status == Approved
  }

  /** A member's line: INCOME and EXPENSE amounts among the member's entries of the window. */
  function ComparisonOf(window: seq<Expense>): User -> MemberComparison
  {
    (u: User) => MemberComparison(u.id, u.name, MemberSumOfKind(window, u.id, INCOME), MemberSumOfKind(window, u.id, EXPENSE))
  }

  /**
   * The comparison route: a caller with an organization gets one line per approved member of
   * it, in table order. A member's entries are taken from the whole window, whatever
   * organization they were recorded in.
   */
  function Comparison(st: Store, auth: Response<Payload>, month: int, year: int): (r: Response<seq<MemberComparison>>)
    reads st
    requires st.Valid()
    ensures auth.Err? ==> r == Err(auth.status, auth.body)
    ensures auth.Ok? && OrgOf(st.users, auth).None? ==> r == Err(FORBIDDEN, Message("Unauthorized"))
    ensures r.Ok? <==> OrgOf(st.users, auth).Some?
    ensures r.Ok? ==>
      var members := UsersWhere(st.users, st.userIds, ApprovedIn(OrgOf(st.users, auth)));
      var window := Where(st.expenses, DatedIn(year, month));
      && |r.value| == |members|
      && (forall i :: 0 <= i < |members| ==>
            && r.value[i].memberId == members[i] && r.value[i].name == st.users[members[i]].name
            && r.value[i].income == MemberSumOfKind(window, members[i], INCOME)
            && r.value[i].expense == MemberSumOfKind(window, members[i], EXPENSE))
      && forall id :: id in members <==>
           id in st.users && st.users[id].organizationId == OrgOf(st.users, auth) && st.users[id].status == Approved
  {
    if auth.Err? then Err(auth.status, auth.body)
    else
      var org := OrgOf(st.users, auth);
      if org.None? then Err(FORBIDDEN, Message("Unauthorized"))
      else
        var members := UsersWhere(st.users, st.userIds, ApprovedIn(org));
        Ok(Project(st.users, members, ComparisonOf(Where(st.expenses, DatedIn(year, month)))))
  }

  /** A member with no entry in the window gets zero income and zero expense. */
  lemma IdleMemberGetsZeros(st: Store, auth: Response<Payload>, month: int, year: int, i: nat)
    requires st.Valid()
    requires Comparison(st, auth, month, year).Ok? && i < |Comparison(st, auth, month, year).value|
    requires var line := Comparison(st, auth, month, year).value[i];
      forall e :: e in st.expenses && e.userId == line.memberId ==> !Calendar.InMonth(e.date, year, month)
    ensures Comparison(st, auth, month, year).value[i].income == 0.0
    ensures Comparison(st, auth, month, year).value[i].expense == 0.0
  {
    var uid := Comparison(st, auth, month, year).value[i].memberId;
    var window := Where(st.expenses, DatedIn(year, month));
    NoEntriesNoSums(window, uid, INCOME);
    NoEntriesNoSums(window, uid, EXPENSE);
  }

  function IncomeColumn(lines: seq<MemberComparison>): real
  {
    if lines == [] then 0.0 else lines[0].income + IncomeColumn(lines[1..])
  }

  function ExpenseColumn(lines: seq<MemberComparison>): real
  {
    if lines == [] then 0.0 else lines[0].expense + ExpenseColumn(lines[1..])
  }

  lemma {:induction false} ColumnsAreKindSums(lines: seq<MemberComparison>, window: seq<Expense>, uids: seq<UserId>)
    requires |lines| == |uids|
    requires forall i :: 0 <= i < |uids| ==>
      lines[i].income == MemberSumOfKind(window, uids[i], INCOME) && lines[i].expense == MemberSumOfKind(window, uids[i], EXPENSE)
    ensures IncomeColumn(lines) == KindSumsOver(window, uids, INCOME)
    ensures ExpenseColumn(lines) == KindSumsOver(window, uids, EXPENSE)
  {
    if uids != [] {
      ColumnsAreKindSums(lines[1..], window, uids[1..]);
    }
  }

  /** The window's entries of the kind `kind` in the organization `org`, taken two ways. */
  lemma {:induction false} SameEntries(es: seq<Expense>, org: OrgId, uids: seq<UserId>, year: int, month: int, kind: string)
    requires forall e :: e in es && Calendar.InMonth(e.date, year, month) ==> (e.userId in uids <==> e.organizationId == org)
    ensures Where(Where(Where(es, DatedIn(year, month)), OfKind(kind)), UserAmong(uids)) ==
            Where(OrgMonth(es, org, year, month), OfKind(kind))
  {
    var window := Where(es, DatedIn(year, month));
    WhereCommutes(window, OfKind(kind), UserAmong(uids));
    WhereAgree(window, UserAmong(uids), OfOrganization(org));
    WhereCommutes(es, DatedIn(year, month), OfOrganization(org));
  }

  /**
   * When the approved members' entries of the month are exactly the organization's entries
   * of the month, the comparison's columns add up to the overview's totals.
   */
  lemma ComparisonAddsUp(st: Store, auth: Response<Payload>, month: int, year: int)
    requires st.Valid()
    requires Comparison(st, auth, month, year).Ok?
    requires var members := UsersWhere(st.users, st.userIds, ApprovedIn(OrgOf(st.users, auth)));
      forall e :: e in st.expenses && Calendar.InMonth(e.date, year, month) ==>
        (e.userId in members <==> Some(e.organizationId) == OrgOf(st.users, auth))
    ensures var totals := OverviewTotals(OrgMonth(st.expenses, OrgOf(st.users, auth).value, year, month));
      var lines := Comparison(st, auth, month, year).value;
      IncomeColumn(lines) == totals.income && ExpenseColumn(lines) == totals.expense
  {
    var org := OrgOf(st.users, auth).value;
    var members := UsersWhere(st.users, st.userIds, ApprovedIn(OrgOf(st.users, auth)));
    var window := Where(st.expenses, DatedIn(year, month));
    var lines := Comparison(st, auth, month, year).value;
    ColumnsAreKindSums(lines, window, members);
    KindSumsPartition(window, members, INCOME);
    KindSumsPartition(window, members, EXPENSE);
    SameEntries(st.expenses, org, members, year, month, INCOME);
    SameEntries(st.expenses, org, members, year, month, EXPENSE);
  }

  // ---------------------------------------------------------------- summary

  datatype SummaryReport = SummaryReport(month: int, year: int, totals: Totals, byMember: map<UserId, MemberTotals>)

  /** The entries `es` with their authors' names (`select: { user: { name } }`). */
  function SummaryRows(es: seq<Expense>, users: map<UserId, User>): (rows: seq<SummaryRow>)
    requires forall e :: e in es ==> e.userId in users
    ensures |rows| == |es|
    ensures forall i :: 0 <= i < |es| ==> rows[i] == SummaryRow(es[i], users[es[i].userId].name)
  {
    seq(|es|, i requires 0 <= i < |es| => SummaryRow(es[i], users[es[i].userId].name))
  }

  /**
   * The summary route. The query is checked first; the window is the calendar month it
   * names (the year is at least 2000, so no two-digit mapping applies).
   */
  method Summary(st: Store, auth: Response<Payload>, month: Option<int>, year: Option<int>) returns (r: Response<SummaryReport>)
    requires st.Valid()
    ensures auth.Err? ==> r == Err(auth.status, auth.body)
    ensures auth.Ok? && ParseMonthQuery(month, year).None? ==> r == Err(BAD_REQUEST, FieldErrors)
    ensures auth.Ok? && ParseMonthQuery(month, year).Some? && OrgOf(st.users, auth).None? ==>
      r == Err(BAD_REQUEST, Message("No organization"))
    ensures r.Ok? <==> auth.Ok? && ParseMonthQuery(month, year).Some? && OrgOf(st.users, auth).Some?
    ensures r.Ok? ==>
      var es := OrgMonth(st.expenses, OrgOf(st.users, auth).value, year.value, month.value);
      && r.value.month == month.value && r.value.year == year.value
      && r.value.totals == SummaryTotals(es) && r.value.totals == OverviewTotals(es)
      && (forall k :: k in r.value.byMember <==> exists e :: e in es && e.userId == k)
      && (forall k :: k in r.value.byMember ==>
            && k in st.users
            && r.value.byMember[k] == MemberTotals(
                 st.users[k].name, MemberSumOfKind(es, k, INCOME), MemberSumOfOtherKinds(es, k, INCOME)))
      && (forall uids :: Enumerates(uids, r.value.byMember) ==>
            && IncomesOver(r.value.byMember, uids) == r.value.totals.income
            && ExpensesOver(r.value.byMember, uids) == r.value.totals.expense)
      && (es == [] ==> r.value.totals == Totals(0.0, 0.0) && r.value.byMember == map[])
  {
    if auth.Err? {
      return Err(auth.status, auth.body);
    }
    var query := ParseMonthQuery(month, year);
    if query.None? {
      return Err(BAD_REQUEST, FieldErrors);
    }
    var org := OrgOf(st.users, auth);
    if org.None? {
      return Err(BAD_REQUEST, Message("No organization"));
    }
    var (m, y) := query.value;
    var es := OrgMonth(st.expenses, org.value, y, m);
    AuthorsExist(st, es);
    var rows := SummaryRows(es, st.users);
    var totals, byMember := Aggregate(rows);
    SummaryRowsFacts(es, st.users, rows);
    StoredTotals(st, es);
    r := Ok(SummaryReport(m, y, totals, byMember));
  }

  /** The rows carry the entries and their authors' names, so grouping them groups the entries. */
  lemma SummaryRowsFacts(es: seq<Expense>, users: map<UserId, User>, rows: seq<SummaryRow>)
    requires forall e :: e in es ==> e.userId in users
    requires rows == SummaryRows(es, users)
    ensures EntriesOf(rows) == es
    ensures forall k :: k in AuthorsOf(rows) <==> exists e :: e in es && e.userId == k
    ensures forall k :: k in AuthorsOf(rows) ==> k in users && rows[FirstRowOf(rows, k)].userName == users[k].name
  {
    assert EntriesOf(rows) == es;
    forall k ensures k in AuthorsOf(rows) <==> exists e :: e in es && e.userId == k {
      if exists e :: e in es && e.userId == k {
        var e :| e in es && e.userId == k;
        var i :| 0 <= i < |es| && es[i] == e;
        assert rows[i] in rows;
      }
    }
  }
}
