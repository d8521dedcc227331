/**
 * The expense routes: record an entry in the caller's organization, and list the caller's
 * own entries, newest first.
 */
module Expenses {
  import opened Wrappers
  import opened Http
  import opened Calendar
  import opened Entities
  import opened Rows
  import opened Schemas
  import opened Middleware
  import opened Store
  import opened Ledger

  /** `value || undefined`: an empty text is not stored. */
  function NonEmpty(t: Option<string>): (r: Option<string>)
    ensures r.Some? <==> t.Some? && t.value != ""
    ensures r.Some? ==> r == t
  {
    if t.Some? && t.value != "" then t else None
  }

  /** The category reference names a row of the category table, or is absent. */
  predicate CategoryExists(categories: seq<Category>, categoryId: Option<CategoryId>)
  {
    categoryId.None? || exists c :: c in categories && c.id == categoryId.value
  }

  /** The entry the expense route stores for `input`, sent by `user`. */
  function EntryOf(id: ExpenseId, user: User, input: ExpenseInput): Expense
    requires user.organizationId.Some?
  {
    Expense(id, user.id, user.organizationId.value, input.amount, input.kind, input.date,
      NonEmpty(input.categoryId), NonEmpty(input.customCategory), input.note, input.receiptUrl)
  }

  /**
   * The expense route. The caller is checked before the body is parsed. `newId` is the
   * generated id; `parseDate` is as for the schema. A category id with
   * no category row violates the reference and fails unhandled.
   */
  method RecordExpense(st: Store, auth: Response<Payload>, body: ExpenseBody,
                       parseDate: string -> Option<Date>, newId: ExpenseId) returns (r: Response<Expense>)
    requires st.Valid()
    requires forall i :: 0 <= i < |st.expenses| ==> st.expenses[i].id != newId
    modifies st
    ensures st.Valid()
    ensures r.Err? ==> unchanged(st)
    ensures auth.Err? ==> r == Err(auth.status, auth.body)
    ensures && auth.Ok?
            && !(auth.value.id in old(st.users) && old(st.users)[auth.value.id].status == Approved
                 && old(st.users)[auth.value.id].organizationId.Some?)
      ==> r == Err(FORBIDDEN, Message("Unauthorized"))
    ensures && auth.Ok? && auth.value.id in old(st.users) && old(st.users)[auth.value.id].status == Approved
            && old(st.users)[auth.value.id].organizationId.Some? && ParseExpense(body, parseDate).None?
      ==> r == Err(BAD_REQUEST, FieldErrors)
    ensures && auth.Ok? && auth.value.id in old(st.users) && old(st.users)[auth.value.id].status == Approved
            && old(st.users)[auth.value.id].organizationId.Some? && ParseExpense(body, parseDate).Some?
            && !CategoryExists(old(st.categories), NonEmpty(ParseExpense(body, parseDate).value.categoryId))
      ==> r == Err(INTERNAL_ERROR, Unhandled)
    ensures r.Ok? <==>
      && auth.Ok? && auth.value.id in old(st.users) && old(st.users)[auth.value.id].status == Approved
      && old(st.users)[auth.value.id].organizationId.Some? && ParseExpense(body, parseDate).Some?
      && CategoryExists(old(st.categories), NonEmpty(ParseExpense(body, parseDate).value.categoryId))
    ensures r.Ok? ==>
      var user := old(st.users)[auth.value.id];
      && r.value == EntryOf(newId, user, ParseExpense(body, parseDate).value)
      && r.value.userId == auth.value.id && Some(r.value.organizationId) == user.organizationId
      && st.expenses == old(st.expenses) + [r.value]
      && st.users == old(st.users) && st.userIds == old(st.userIds)
      && st.orgs == old(st.orgs) && st.categories == old(st.categories)
    ensures r.Ok? && body.date.Absent? ==> r.value.date == parseDate(SCHEMA_DATE).value
  {
    if auth.Err? {
      return Err(auth.status, auth.body);
    }
    var caller := auth.value.id;
    if caller !in st.users || st.users[caller].status != Approved || st.users[caller].organizationId.None? {
      return Err(FORBIDDEN, Message("Unauthorized"));
    }
    var parsed := ParseExpense(body, parseDate);
    if parsed.None? {
      return Err(BAD_REQUEST, FieldErrors);
    }
    var entry := EntryOf(newId, st.users[caller], parsed.value);
    if !CategoryExists(st.categories, entry.categoryId) {
      return Err(INTERNAL_ERROR, Unhandled);
    }
    ghost var expenses0 := st.expenses;
    st.expenses := st.expenses + [entry];
    AddExpenseKeepsValid(st, expenses0, entry);
    r := Ok(entry);
  }

  /** `orderBy: { date: 'desc' }`. */
  function NewestFirst(): (Expense, Expense) -> bool
  {
    (a: Expense, b: Expense) => NotAfter(b.date, a.date)
  }

  lemma NewestFirstIsPreorder()
    ensures TotalPreorder(NewestFirst())
  {
    forall a: Expense, b: Expense, c: Expense | NewestFirst()(a, b) && NewestFirst()(b, c)
      ensures NewestFirst()(a, c)
    {
      NotAfterTransitive(c.date, b.date, a.date);
    }
  }

  /** The my-expenses route: every entry the caller sent, newest first. The user row is not consulted. */
  function MyExpenses(st: Store, auth: Response<Payload>): (r: Response<seq<Expense>>)
    reads st
    ensures auth.Err? ==> r == Err(auth.status, auth.body)
    ensures r.Ok? <==> auth.Ok?
    ensures r.Ok? ==>
      && SortedBy(r.value, NewestFirst())
      && multiset(r.value) == multiset(Where(st.expenses, ByUser(auth.value.id)))
      && forall e :: e in r.value <==> e in st.expenses && e.userId == auth.value.id
  {
    if auth.Err? then Err(auth.status, auth.body)
    else
      var mine := Where(st.expenses, ByUser(auth.value.id));
      NewestFirstIsPreorder();
      SortKeepsElements(mine, NewestFirst());
      Ok(SortBy(mine, NewestFirst()))
  }

  /** A recorded entry is listed by its author's next query, and nothing else new is. */
  method RecordThenList(st: Store, auth: Response<Payload>, body: ExpenseBody,
                        parseDate: string -> Option<Date>, newId: ExpenseId)
    returns (recorded: Response<Expense>, listed: Response<seq<Expense>>)
    requires st.Valid()
    requires forall i :: 0 <= i < |st.expenses| ==> st.expenses[i].id != newId
    modifies st
    ensures st.Valid()
    ensures recorded.Ok? ==> listed.Ok? && recorded.value in listed.value
    ensures recorded.Ok? ==> forall e :: e in listed.value ==> e == recorded.value || e in old(st.expenses)
  {
    recorded := RecordExpense(st, auth, body, parseDate, newId);
    listed := MyExpenses(st, auth);
  }

  /**
   * Two entries recorded one after the other, neither with a `date`, carry the same date,
   * whoever sends them and whatever the store holds in between.
   */
  method UndatedEntriesShareDate(st: Store, auth1: Response<Payload>, body1: ExpenseBody, newId1: ExpenseId,
                                 auth2: Response<Payload>, body2: ExpenseBody, newId2: ExpenseId,
                                 parseDate: string -> Option<Date>)
    returns (first: Response<Expense>, second: Response<Expense>)
    requires st.Valid()
    requires forall i :: 0 <= i < |st.expenses| ==> st.expenses[i].id != newId1 && st.expenses[i].id != newId2
    requires newId1 != newId2
    modifies st
    ensures st.Valid()
    ensures body1.date.Absent? && body2.date.Absent? && first.Ok? && second.Ok? ==>
      first.value.date == second.value.date
  {
    first := RecordExpense(st, auth1, body1, parseDate, newId1);
    second := RecordExpense(st, auth2, body2, parseDate, newId2);
  }
}
