/**
 * The ledger's arithmetic: which entries a report looks at, how their amounts add up, and
 * the summary report's grouping loop. Amounts are exact reals (no floating-point rounding).
 */
module Ledger {
  import opened Calendar
  import opened Entities
  import opened Rows

  // ---------------------------------------------------------------- selecting entries

  function OfKind(kind: string): Expense -> bool
  {
    (e: Expense) => e.kind == kind
  }

  function NotOfKind(kind: string): Expense -> bool
  {
    (e: Expense) => e.kind != kind
  }

  function ByUser(uid: UserId): Expense -> bool
  {
    (e: Expense) => e.userId == uid
  }

  function UserAmong(uids: seq<UserId>): Expense -> bool
  {
    (e: Expense) => e.userId in uids
  }

  function OfOrganization(org: OrgId): Expense -> bool
  {
    (e: Expense) => e.organizationId == org
  }

  /** `date: { gte: MonthStart(year, month), lt: MonthStart(year, month + 1) }`. */
  function DatedIn(year: int, month: int): Expense -> bool
  {
    (e: Expense) => InMonth(e.date, year, month)
  }

  /** The entries of one organization in one month window: the dashboard routes' `where` clause. */
  function OrgMonth(es: seq<Expense>, org: OrgId, year: int, month: int): (r: seq<Expense>)
    ensures forall e :: e in r <==> e in es && e.organizationId == org && InMonth(e.date, year, month)
  {
    Where(Where(es, OfOrganization(org)), DatedIn(year, month))
  }

  // ---------------------------------------------------------------- adding amounts

  /** `reduce((s, e) => s + e.amount, 0)`: the amounts added from left to right. */
  function Sum(es: seq<Expense>): real
  {
    if es == [] then 0.0 else Sum(es[..|es| - 1]) + es[|es| - 1].amount
  }

  lemma SumSnoc(es: seq<Expense>, e: Expense)
    ensures Sum(es + [e]) == Sum(es) + e.amount
  {
    assert (es + [e])[..|es|] == es;
  }

  /** Amounts the expense route accepts are positive, so every sum of recorded entries is non-negative. */
  lemma {:induction false} SumOfPositives(es: seq<Expense>)
    requires forall e :: e in es ==> e.amount > 0.0
    ensures Sum(es) >= 0.0
    ensures Sum(es) == 0.0 <==> es == []
  {
    if es != [] {
      assert forall e :: e in es[..|es| - 1] ==> e in es;
      SumOfPositives(es[..|es| - 1]);
    }
  }

  /** Every entry is income or not: the two summary totals add up to the sum of all amounts. */
  lemma {:induction false} KindsSplitSum(es: seq<Expense>, kind: string)
    ensures Sum(Where(es, OfKind(kind))) + Sum(Where(es, NotOfKind(kind))) == Sum(es)
  {
    if es != [] {
      var init, e := es[..|es| - 1], es[|es| - 1];
      assert es == init + [e];
      KindsSplitSum(init, kind);
      WhereSnoc(init, e, OfKind(kind));
      WhereSnoc(init, e, NotOfKind(kind));
      if e.kind == kind {
        SumSnoc(Where(init, OfKind(kind)), e);
      } else {
        SumSnoc(Where(init, NotOfKind(kind)), e);
      }
    }
  }

  // ---------------------------------------------------------------- report totals

  datatype Totals = Totals(income: real, expense: real)

  /** The summary report's totals: INCOME amounts, and the amounts of every other kind. */
  function SummaryTotals(es: seq<Expense>): Totals
  {
    Totals(Sum(Where(es, OfKind(INCOME))), Sum(Where(es, NotOfKind(INCOME))))
  }

  /** The overview report's totals: INCOME amounts, and EXPENSE amounts. */
  function OverviewTotals(es: seq<Expense>): Totals
  {
    Totals(Sum(Where(es, OfKind(INCOME))), Sum(Where(es, OfKind(EXPENSE))))
  }

  predicate OnlyListedKinds(es: seq<Expense>)
  {
    forall e :: e in es ==> e.kind == INCOME || e.kind == EXPENSE
  }

  /** The two reports agree whenever every entry is INCOME or EXPENSE. */
  lemma SummaryMatchesOverview(es: seq<Expense>)
    requires OnlyListedKinds(es)
    ensures SummaryTotals(es) == OverviewTotals(es)
  {
    WhereAgree(es, NotOfKind(INCOME), OfKind(EXPENSE));
  }

  /** A month without entries reports zero totals. */
  lemma EmptyTotals()
    ensures SummaryTotals([]) == Totals(0.0, 0.0)
    ensures OverviewTotals([]) == Totals(0.0, 0.0)
  {
  }

  // ---------------------------------------------------------------- per-member sums

  /** A member's amounts of kind `kind`: `member.expenses.filter(e => e.type === kind)`, added up. */
  function MemberSumOfKind(es: seq<Expense>, uid: UserId, kind: string): real
  {
    Sum(Where(Where(es, ByUser(uid)), OfKind(kind)))
  }

  /** A member's amounts of every kind but `kind`. */
  function MemberSumOfOtherKinds(es: seq<Expense>, uid: UserId, kind: string): real
  {
    Sum(Where(Where(es, ByUser(uid)), NotOfKind(kind)))
  }

  /** A member with no entries among `es` has zero sums. */
  lemma {:induction false} NoEntriesNoSums(es: seq<Expense>, uid: UserId, kind: string)
    requires forall e :: e in es ==> e.userId != uid
    ensures MemberSumOfKind(es, uid, kind) == 0.0
    ensures MemberSumOfOtherKinds(es, uid, kind) == 0.0
  {
    WhereNone(es, ByUser(uid));
  }

  /** The sum, over the members `uids`, of each member's amounts among `es`. */
  function SumPerUser(es: seq<Expense>, uids: seq<UserId>): real
  {
    if uids == [] then 0.0 else Sum(Where(es, ByUser(uids[0]))) + SumPerUser(es, uids[1..])
  }

  lemma {:induction false} SumPerUserSnoc(es: seq<Expense>, e: Expense, uids: seq<UserId>)
    requires Distinct(uids)
    ensures SumPerUser(es + [e], uids) == SumPerUser(es, uids) + if e.userId in uids then e.amount else 0.0
  {
    if uids != [] {
      assert Distinct(uids[1..]);
      SumPerUserSnoc(es, e, uids[1..]);
      WhereSnoc(es, e, ByUser(uids[0]));
      if e.userId == uids[0] {
        SumSnoc(Where(es, ByUser(uids[0])), e);
        assert e.userId !in uids[1..];
      }
      assert e.userId in uids <==> e.userId == uids[0] || e.userId in uids[1..];
    }
  }

  /** Grouping by member partitions the entries: the members' sums add up to the sum of their entries. */
  lemma {:induction false} GroupingPartitions(es: seq<Expense>, uids: seq<UserId>)
    requires Distinct(uids)
    ensures SumPerUser(es, uids) == Sum(Where(es, UserAmong(uids)))
  {
    if es == [] {
      ZeroPerUser(uids);
    } else {
      var init, e := es[..|es| - 1], es[|es| - 1];
      assert es == init + [e];
      GroupingPartitions(init, uids);
      SumPerUserSnoc(init, e, uids);
      SumWhereSnoc(init, e, UserAmong(uids));
    }
  }

  lemma {:induction false} ZeroPerUser(uids: seq<UserId>)
    ensures SumPerUser([], uids) == 0.0
  {
    if uids != [] { ZeroPerUser(uids[1..]); }
  }

  /** When every entry's author is among `uids`, the members' sums add up to the whole. */
  lemma GroupingCovers(es: seq<Expense>, uids: seq<UserId>)
    requires Distinct(uids)
    requires forall e :: e in es ==> e.userId in uids
    ensures SumPerUser(es, uids) == Sum(es)
  {
    GroupingPartitions(es, uids);
    WhereAgree(es, UserAmong(uids), (e: Expense) => true);
    WhereEverything(es);
  }

  lemma {:induction false} WhereEverything(es: seq<Expense>)
    ensures Where(es, (e: Expense) => true) == es
  {
    if es != [] {
      WhereEverything(es[..|es| - 1]);
      assert es == es[..|es| - 1] + [es[|es| - 1]];
    }
  }

  /** Grouping by kind and then by member, or by member and then by kind, gives the same sums. */
  lemma MemberSumsAddUp(es: seq<Expense>, uids: seq<UserId>)
    requires Distinct(uids)
    requires forall e :: e in es ==> e.userId in uids
    ensures KindSumsOver(es, uids, INCOME) == Sum(Where(es, OfKind(INCOME)))
    ensures OtherKindSumsOver(es, uids, INCOME) == Sum(Where(es, NotOfKind(INCOME)))
  {
    PerUserCommutes(es, uids, INCOME);
    GroupingCovers(Where(es, OfKind(INCOME)), uids);
    GroupingCovers(Where(es, NotOfKind(INCOME)), uids);
  }

  /** The members' sums of kind `kind`, added over `uids`. */
  function KindSumsOver(es: seq<Expense>, uids: seq<UserId>, kind: string): real
  {
    if uids == [] then 0.0 else MemberSumOfKind(es, uids[0], kind) + KindSumsOver(es, uids[1..], kind)
  }

  /** The members' sums of every kind but `kind`, added over `uids`. */
  function OtherKindSumsOver(es: seq<Expense>, uids: seq<UserId>, kind: string): real
  {
    if uids == [] then 0.0 else MemberSumOfOtherKinds(es, uids[0], kind) + OtherKindSumsOver(es, uids[1..], kind)
  }

  lemma {:induction false} PerUserCommutes(es: seq<Expense>, uids: seq<UserId>, kind: string)
    ensures KindSumsOver(es, uids, kind) == SumPerUser(Where(es, OfKind(kind)), uids)
    ensures OtherKindSumsOver(es, uids, kind) == SumPerUser(Where(es, NotOfKind(kind)), uids)
  {
    if uids != [] {
      PerUserCommutes(es, uids[1..], kind);
      WhereCommutes(es, ByUser(uids[0]), OfKind(kind));
      WhereCommutes(es, ByUser(uids[0]), NotOfKind(kind));
    }
  }

  /** The members' sums of one kind add up to the amounts of that kind the members wrote. */
  lemma KindSumsPartition(es: seq<Expense>, uids: seq<UserId>, kind: string)
    requires Distinct(uids)
    ensures KindSumsOver(es, uids, kind) == Sum(Where(Where(es, OfKind(kind)), UserAmong(uids)))
  {
    PerUserCommutes(es, uids, kind);
    GroupingPartitions(Where(es, OfKind(kind)), uids);
  }

  // ---------------------------------------------------------------- the summary report's loop

  /** A row of the summary query: an entry and its author's name. */
  datatype SummaryRow = SummaryRow(entry: Expense, userName: string)

  /** One value of the summary's `byMember` record. */
  datatype MemberTotals = MemberTotals(name: string, income: real, expense: real)

  function EntriesOf(rows: seq<SummaryRow>): (es: seq<Expense>)
    ensures |es| == |rows|
    ensures forall i :: 0 <= i < |rows| ==> es[i] == rows[i].entry
  {
    seq(|rows|, i requires 0 <= i < |rows| => rows[i].entry)
  }

  /** The authors of the rows: the keys `byMember` must end up with. */
  function AuthorsOf(rows: seq<SummaryRow>): set<UserId>
  {
    set r | r in rows :: r.entry.userId
  }

  /** The position of the first row written by `uid`. */
  function FirstRowOf(rows: seq<SummaryRow>, uid: UserId): (i: nat)
    requires uid in AuthorsOf(rows)
    ensures i < |rows| && rows[i].entry.userId == uid
    ensures forall j :: 0 <= j < i ==> rows[j].entry.userId != uid
  {
    if rows[0].entry.userId == uid then 0
    else
      assert uid in AuthorsOf(rows[1..]) by {
        var r :| r in rows && r.entry.userId == uid;
        var k :| 0 <= k < |rows| && rows[k] == r;
        assert rows[1..][k - 1] == r;
      }
      1 + FirstRowOf(rows[1..], uid)
  }

  /** `uids` lists the keys of `byMember`, each once. */
  ghost predicate Enumerates(uids: seq<UserId>, byMember: map<UserId, MemberTotals>)
  {
    Distinct(uids) && forall k :: k in uids <==> k in byMember
  }

  function IncomesOver(byMember: map<UserId, MemberTotals>, uids: seq<UserId>): real
    requires forall k :: k in uids ==> k in byMember
  {
    if uids == [] then 0.0 else byMember[uids[0]].income + IncomesOver(byMember, uids[1..])
  }

  function ExpensesOver(byMember: map<UserId, MemberTotals>, uids: seq<UserId>): real
    requires forall k :: k in uids ==> k in byMember
  {
    if uids == [] then 0.0 else byMember[uids[0]].expense + ExpensesOver(byMember, uids[1..])
  }

  /** What the loop's `byMember[k]` holds once it has seen the entries `es`. */
  predicate HoldsMemberSums(byMember: map<UserId, MemberTotals>, es: seq<Expense>)
  {
    forall k :: k in byMember ==>
      byMember[k].income == MemberSumOfKind(es, k, INCOME) &&
      byMember[k].expense == MemberSumOfOtherKinds(es, k, INCOME)
  }

  lemma {:induction false} OverKeys(byMember: map<UserId, MemberTotals>, es: seq<Expense>, uids: seq<UserId>)
    requires HoldsMemberSums(byMember, es)
    requires forall k :: k in uids ==> k in byMember
    ensures IncomesOver(byMember, uids) == KindSumsOver(es, uids, INCOME)
    ensures ExpensesOver(byMember, uids) == OtherKindSumsOver(es, uids, INCOME)
  {
    if uids != [] { OverKeys(byMember, es, uids[1..]); }
  }

  /** One more entry: the totals grow by its amount, on the side its kind selects. */
  lemma StepTotals(es: seq<Expense>, e: Expense)
    ensures SummaryTotals(es + [e]) ==
      if e.kind == INCOME then SummaryTotals(es).(income := SummaryTotals(es).income + e.amount)
      else SummaryTotals(es).(expense := SummaryTotals(es).expense + e.amount)
  {
    SumWhereSnoc(es, e, OfKind(INCOME));
    SumWhereSnoc(es, e, NotOfKind(INCOME));
  }

  /** One more entry: its author's sums grow by its amount, nobody else's change. */
  lemma StepSums(es: seq<Expense>, e: Expense, k: UserId)
    ensures MemberSumOfKind(es + [e], k, INCOME) ==
      MemberSumOfKind(es, k, INCOME) + if e.userId == k && e.kind == INCOME then e.amount else 0.0
    ensures MemberSumOfOtherKinds(es + [e], k, INCOME) ==
      MemberSumOfOtherKinds(es, k, INCOME) + if e.userId == k && e.kind != INCOME then e.amount else 0.0
  {
    WhereSnoc(es, e, ByUser(k));
    var mine := Where(es, ByUser(k));
    if e.userId == k {
      assert Where(es + [e], ByUser(k)) == mine + [e];
      SumWhereSnoc(mine, e, OfKind(INCOME));
      SumWhereSnoc(mine, e, NotOfKind(INCOME));
    } else {
      assert Where(es + [e], ByUser(k)) == mine;
    }
  }

  /** The sum of the entries satisfying `p` grows by a new entry's amount exactly when it satisfies `p`. */
  lemma SumWhereSnoc(es: seq<Expense>, e: Expense, p: Expense -> bool)
    ensures Sum(Where(es + [e], p)) == Sum(Where(es, p)) + if p(e) then e.amount else 0.0
  {
    WhereSnoc(es, e, p);
    if p(e) { SumSnoc(Where(es, p), e); }
  }

  /** The keys and names of `byMember` after the first `i` rows: one key per author, named at its first row. */
  ghost predicate KeyedByAuthors(rows: seq<SummaryRow>, i: nat, byMember: map<UserId, MemberTotals>)
    requires i <= |rows|
  {
    && byMember.Keys == AuthorsOf(rows[..i])
    && (forall k :: k in byMember ==> k in AuthorsOf(rows) && FirstRowOf(rows, k) < i)
    && (forall k :: k in byMember ==> byMember[k].name == rows[FirstRowOf(rows, k)].userName)
  }

  /** What the summary loop has built after its first `i` rows. */
  ghost predicate Built(rows: seq<SummaryRow>, i: nat, totals: Totals, byMember: map<UserId, MemberTotals>)
  {
    && i <= |rows|
    && totals == SummaryTotals(EntriesOf(rows[..i]))
    && KeyedByAuthors(rows, i, byMember)
    && HoldsMemberSums(byMember, EntriesOf(rows[..i]))
  }

  /** One iteration of the summary loop on the totals. */
  function AbsorbTotals(totals: Totals, row: SummaryRow): Totals
  {
    if row.entry.kind == INCOME then totals.(income := totals.income + row.entry.amount)
    else totals.(expense := totals.expense + row.entry.amount)
  }

  /** One iteration of the summary loop on `byMember`. */
  function AbsorbMember(byMember: map<UserId, MemberTotals>, row: SummaryRow): map<UserId, MemberTotals>
  {
    var key, amount := row.entry.userId, row.entry.amount;
    var m := if key in byMember then byMember else byMember[key := MemberTotals(row.userName, 0.0, 0.0)];
    if row.entry.kind == INCOME then m[key := m[key].(income := m[key].income + amount)]
    else m[key := m[key].(expense := m[key].expense + amount)]
  }

  /** The rows seen so far grow by one row: their entries by its entry, their authors by its author. */
  lemma {:induction false} OneMoreRow(rows: seq<SummaryRow>, i: nat)
    requires i < |rows|
    ensures EntriesOf(rows[..i + 1]) == EntriesOf(rows[..i]) + [rows[i].entry]
    ensures AuthorsOf(rows[..i + 1]) == AuthorsOf(rows[..i]) + {rows[i].entry.userId}
    ensures rows[i].entry.userId in AuthorsOf(rows)
  {
    assert rows[..i + 1] == rows[..i] + [rows[i]];
    assert rows[i] in rows;
  }

  /** A key the loop has not met before row `i` has its first row at `i`. */
  lemma {:induction false} FirstMeeting(rows: seq<SummaryRow>, i: nat)
    requires i < |rows|
    requires rows[i].entry.userId !in AuthorsOf(rows[..i])
    requires rows[i].entry.userId in AuthorsOf(rows)
    ensures FirstRowOf(rows, rows[i].entry.userId) == i
  {
    var key := rows[i].entry.userId;
    forall j | 0 <= j < i ensures rows[j].entry.userId != key {
      assert rows[..i][j] == rows[j];
    }
  }

  lemma AbsorbTotalsStep(seen: seq<Expense>, totals: Totals, row: SummaryRow)
    requires totals == SummaryTotals(seen)
    ensures AbsorbTotals(totals, row) == SummaryTotals(seen + [row.entry])
  {
    StepTotals(seen, row.entry);
  }

  /** One iteration adds the row's author as a key, named after the row if new, and renames nobody. */
  lemma AbsorbMemberNames(byMember: map<UserId, MemberTotals>, row: SummaryRow)
    ensures AbsorbMember(byMember, row).Keys == byMember.Keys + {row.entry.userId}
    ensures forall k :: k in byMember ==> AbsorbMember(byMember, row)[k].name == byMember[k].name
    ensures row.entry.userId !in byMember ==> AbsorbMember(byMember, row)[row.entry.userId].name == row.userName
  {
  }

  lemma AbsorbKeysStep(rows: seq<SummaryRow>, i: nat, byMember: map<UserId, MemberTotals>)
    requires i < |rows|
    requires KeyedByAuthors(rows, i, byMember)
    ensures KeyedByAuthors(rows, i + 1, AbsorbMember(byMember, rows[i]))
  {
    var key := rows[i].entry.userId;
    var m := AbsorbMember(byMember, rows[i]);
    OneMoreRow(rows, i);
    AbsorbMemberNames(byMember, rows[i]);
    if key !in byMember {
      FirstMeeting(rows, i);
    }
    forall k | k in m ensures k in AuthorsOf(rows) && FirstRowOf(rows, k) < i + 1
      && m[k].name == rows[FirstRowOf(rows, k)].userName
    {
      if k in byMember {
        assert m[k].name == byMember[k].name;
      }
    }
  }

  /** One iteration adds the row's amount to its author's income or expense and to nothing else. */
  lemma AbsorbMemberSums(byMember: map<UserId, MemberTotals>, row: SummaryRow)
    ensures forall k :: k in byMember && k != row.entry.userId ==> AbsorbMember(byMember, row)[k] == byMember[k]
    ensures var key, m := row.entry.userId, AbsorbMember(byMember, row);
      var was := if key in byMember then byMember[key] else MemberTotals(row.userName, 0.0, 0.0);
      && key in m
      && m[key].income == was.income + (if row.entry.kind == INCOME then row.entry.amount else 0.0)
      && m[key].expense == was.expense + (if row.entry.kind != INCOME then row.entry.amount else 0.0)
  {
  }

  /** The row's author ends up with the sums of the entries seen so far and the row's entry. */
  lemma AbsorbAuthorSums(seen: seq<Expense>, byMember: map<UserId, MemberTotals>, row: SummaryRow)
    requires HoldsMemberSums(byMember, seen)
    requires row.entry.userId !in byMember ==> forall e :: e in seen ==> e.userId != row.entry.userId
    ensures row.entry.userId in AbsorbMember(byMember, row)
    ensures AbsorbMember(byMember, row)[row.entry.userId].income == MemberSumOfKind(seen + [row.entry], row.entry.userId, INCOME)
    ensures AbsorbMember(byMember, row)[row.entry.userId].expense == MemberSumOfOtherKinds(seen + [row.entry], row.entry.userId, INCOME)
  {
    var key := row.entry.userId;
    var was := if key in byMember then byMember[key] else MemberTotals(row.userName, 0.0, 0.0);
    assert was.income == MemberSumOfKind(seen, key, INCOME) && was.expense == MemberSumOfOtherKinds(seen, key, INCOME) by {
      if key !in byMember {
        NoEntriesNoSums(seen, key, INCOME);
      }
    }
    AbsorbMemberSums(byMember, row);
    StepSums(seen, row.entry, key);
  }

  lemma AbsorbSumsStep(seen: seq<Expense>, byMember: map<UserId, MemberTotals>, row: SummaryRow)
    requires HoldsMemberSums(byMember, seen)
    requires row.entry.userId !in byMember ==> forall e :: e in seen ==> e.userId != row.entry.userId
    ensures HoldsMemberSums(AbsorbMember(byMember, row), seen + [row.entry])
  {
    var exp, key := row.entry, row.entry.userId;
    var m := AbsorbMember(byMember, row);
    AbsorbMemberNames(byMember, row);
    AbsorbAuthorSums(seen, byMember, row);
    forall k | k in m && k != key ensures
      && m[k].income == MemberSumOfKind(seen + [exp], k, INCOME)
      && m[k].expense == MemberSumOfOtherKinds(seen + [exp], k, INCOME)
    {
      AbsorbMemberSums(byMember, row);
      StepSums(seen, exp, k);
      assert m[k] == byMember[k];
    }
  }

  lemma AbsorbStep(rows: seq<SummaryRow>, i: nat, totals: Totals, byMember: map<UserId, MemberTotals>)
    requires i < |rows|
    requires Built(rows, i, totals, byMember)
    ensures Built(rows, i + 1, AbsorbTotals(totals, rows[i]), AbsorbMember(byMember, rows[i]))
  {
    var seen := EntriesOf(rows[..i]);
    OneMoreRow(rows, i);
    AbsorbTotalsStep(seen, totals, rows[i]);
    AbsorbKeysStep(rows, i, byMember);
    if rows[i].entry.userId !in byMember {
      forall e | e in seen ensures e.userId != rows[i].entry.userId {
        var j :| 0 <= j < |seen| && seen[j] == e;
        assert rows[..i][j] in rows[..i];
      }
    }
    AbsorbSumsStep(seen, byMember, rows[i]);
  }

  /** Once the loop has seen every row, the members' sums add up to the totals. */
  lemma Finished(rows: seq<SummaryRow>, totals: Totals, byMember: map<UserId, MemberTotals>)
    requires Built(rows, |rows|, totals, byMember)
    ensures totals == SummaryTotals(EntriesOf(rows))
    ensures byMember.Keys == AuthorsOf(rows)
    ensures forall k :: k in byMember ==>
      byMember[k] == MemberTotals(
        rows[FirstRowOf(rows, k)].userName,
        MemberSumOfKind(EntriesOf(rows), k, INCOME),
        MemberSumOfOtherKinds(EntriesOf(rows), k, INCOME))
    ensures forall uids :: Enumerates(uids, byMember) ==>
      IncomesOver(byMember, uids) == totals.income && ExpensesOver(byMember, uids) == totals.expense
  {
    assert rows[..|rows|] == rows;
    forall uids | Enumerates(uids, byMember)
      ensures IncomesOver(byMember, uids) == totals.income && ExpensesOver(byMember, uids) == totals.expense
    {
      var es := EntriesOf(rows);
      OverKeys(byMember, es, uids);
      forall e | e in es ensures e.userId in uids {
        var j :| 0 <= j < |es| && es[j] == e;
        assert rows[j] in rows;
      }
      MemberSumsAddUp(es, uids);
    }
  }

  /** The body of the summary route's loop: one row added to the totals and to its author's record. */
  method AbsorbRow(totals: Totals, byMember: map<UserId, MemberTotals>, row: SummaryRow)
    returns (totals': Totals, byMember': map<UserId, MemberTotals>)
    ensures totals' == AbsorbTotals(totals, row)
    ensures byMember' == AbsorbMember(byMember, row)
  {
    totals', byMember' := totals, byMember;
    var exp := row.entry;
    var key := exp.userId;
    if key !in byMember' {
      byMember' := byMember'[key := MemberTotals(row.userName, 0.0, 0.0)];
    }
    if exp.kind == INCOME {
      totals' := totals'.(income := totals'.income + exp.amount);
      byMember' := byMember'[key := byMember'[key].(income := byMember'[key].income + exp.amount)];
    } else {
      totals' := totals'.(expense := totals'.expense + exp.amount);
      byMember' := byMember'[key := byMember'[key].(expense := byMember'[key].expense + exp.amount)];
    }
  }

  /**
   * The summary route's `for` loop: the totals, and one `byMember` record per author created
   * at the author's first row with zero sums and that row's name. The members' sums add up
   * to the totals, whatever order the keys are listed in.
   */
  method Aggregate(rows: seq<SummaryRow>) returns (totals: Totals, byMember: map<UserId, MemberTotals>)
    ensures totals == SummaryTotals(EntriesOf(rows))
    ensures byMember.Keys == AuthorsOf(rows)
    ensures forall k :: k in byMember ==>
      byMember[k] == MemberTotals(
        rows[FirstRowOf(rows, k)].userName,
        MemberSumOfKind(EntriesOf(rows), k, INCOME),
        MemberSumOfOtherKinds(EntriesOf(rows), k, INCOME))
    ensures forall uids :: Enumerates(uids, byMember) ==>
      IncomesOver(byMember, uids) == totals.income && ExpensesOver(byMember, uids) == totals.expense
    ensures rows == [] ==> totals == Totals(0.0, 0.0) && byMember == map[]
  {
    totals := Totals(0.0, 0.0);
    byMember := map[];
    for i := 0 to |rows|
      invariant Built(rows, i, totals, byMember)
    {
      AbsorbStep(rows, i, totals, byMember);
      totals, byMember := AbsorbRow(totals, byMember, rows[i]);
    }
    Finished(rows, totals, byMember);
  }
}
