# Family expense tracker: a verified model of the backend routes

The system is a household ("family") expense tracker. Users register and log in. A user
founds an organization (a household), or joins one with its referral code and waits to be
approved. Approved members record income and expense entries, and the dashboard routes
report an organization's month: totals, a per-member grouping, a per-member comparison and
the entries themselves. Categories are the nine default ones, which a seed script upserts,
plus each organization's own.

The model turns the database into one object, `Store.Store`, whose fields are the four
tables. The routes that write are methods that update those fields in place. The routes
that only read are functions over the store, except the summary route: it is a method,
because its grouping is a loop. Each route's answer is a `Response`: either
the JSON body, or an HTTP status with an error body. An exception that escapes a handler
(`schema.parse` on a bad body, an update of a missing row, a violated unique or foreign
key) is the answer `Err(500, Unhandled)`. Every route except register and login begins
with `authMiddleware`. For those routes the model passes the middleware's outcome in as `auth`, and a failure is forwarded unchanged.

Modules, in dependency order:
- `Wrappers`: option values.
- `Http`: responses and status codes.
- `Text`: prefix test, JavaScript `split`/`join` on one character, character-code order,
  decimal numerals.
- `Rows`: the ORM's `where`, `findFirst` and `orderBy`, with insertion sort by a total
  preorder.
- `Calendar`: dates, and JavaScript's `new Date(year, month - 1, 1)` with its month carry
  and its two-digit years.
- `Entities`: the table rows.
- `Ledger`: month windows, sums, and the summary route's grouping loop.
- `Schemas`: the request-body validators.
- `Middleware`: the Bearer header.
- `Upload`: the file-type whitelist, and the storage key.
- `Store`: the tables and their consistency invariant.
- `Accounts`: register and login.
- `Households`: create, join, approve member and pending members.
- `Admin`: members, approve and regenerate referral.
- `Categories`: create, list and seed.
- `Expenses`: record, and my entries.
- `Dashboard`: overview, report, comparison and summary.

`Store.Valid` is the invariant every writing route keeps:
- user rows are keyed by their ids;
- memberships and owners refer to existing rows;
- a PARENT role comes with an organization;
- organization ids are non-empty;
- referral codes, category ids, category names and expense ids are unique;
- every category's and every entry's organization exists;
- every amount is positive, and every kind is INCOME or EXPENSE.

Values the database, the clock or a library would produce are parameters, constrained only
as far as the source relies on them:
- generated ids (fresh);
- nanoid codes (8 or 10 characters, collisions fail with 500);
- the insertion time;
- date parsing;
- e-mail and cuid format checks;
- password hashing and comparison;
- token signing and verification;
- the storage service.

Behaviours of the code that the model keeps, although they may surprise a reader:
- Register and login answer with the whole user row, stored hash included.
- The two "parent" tests differ. The approve-member and pending-members routes read the
  role field; the admin routes and `isParent` test ownership. Joining another organization
  demotes an owner's role while the ownership stays.
- The admin approve route approves any user, in any organization.
- Report and comparison do not check the caller's status.
- Comparison sums each approved member's entries of the month in every organization, not
  only in the caller's.
- A missing `month`/`year` query value is `Number(null) = 0`. The window then starts in
  December 1899, because years 0..99 are read as 1900..1999.
- The expense schema's default date is fixed when the module loads. Every request that
  omits `date` gets the same date. The model makes this text one constant,
  `Schemas.SCHEMA_DATE`, whose value (the load time) is left open.
- A category id that names no category violates the foreign key and fails with 500.
- A second category with a taken name violates name uniqueness and fails with 500.

## Model

| member | source | states |
|---|---|---|
| `Middleware.Authenticate` | lib/authMiddleware.ts:4-19 | a missing header, or one that does not start with exactly "Bearer ", gives 401 "Unauthorized"; otherwise the payload that `verify` decodes from the token, or 403 "Invalid token" |
| `Middleware.TokenIsSecondField` | lib/authMiddleware.ts:11 | the token is the text after "Bearer " up to the next space, or to the end |
| `Middleware.TokenRoundTrip` | lib/authMiddleware.ts:7-11 | a header built as "Bearer " plus a token without spaces passes the prefix test and yields that token |
| `Middleware.AuthenticateBearer` | lib/authMiddleware.ts:7-15 | for such a header the outcome depends on `verify(token)` alone |
| `Middleware.SchemeIsCaseSensitive` | lib/authMiddleware.ts:7-8 | a lower-case "bearer " scheme is refused with 401 whatever follows |
| `Middleware.DoubleSpaceGivesEmptyToken` | lib/authMiddleware.ts:11 | "Bearer" followed by two spaces yields the empty token |
| `Middleware.TokenOf` | lib/authMiddleware.ts:11 | `authHeader.split(' ')[1]` on a Bearer header; the token holds no space |
| `Text.JoinSplit` | lib/authMiddleware.ts:11 | joining the pieces of `split(sep)` with `sep` gives back the string |
| `Text.SplitJoin` | lib/authMiddleware.ts:11 | splitting a join of separator-free pieces gives back the pieces |
| `Text.LexLeTotal` | app/api/category/route.ts:54 | any two names compare in character-code order |
| `Text.LexLeTransitive` | app/api/category/route.ts:54 | character-code order on names chains |
| `Text.LexLeAntisymmetric` | app/api/category/route.ts:54 | two names that are each at most the other are equal |
| `Text.Decimal` | app/api/upload/route.ts:30 | the printed timestamp is a non-empty digit string with no leading zero |
| `Text.DecimalRoundTrip` | app/api/upload/route.ts:30 | the printed timestamp reads back as the same number |
| `Text.Split` | lib/authMiddleware.ts:11 | `split(sep)`: at least one piece, none holding the separator; `JoinSplit` and `SplitJoin` prove `Join` its inverse |
| `Calendar.MonthStart` | app/api/dashboard/overview/route.ts:19-20 | the first instant of a real month; for months 1..12 it is that month of the year, with two-digit years read as 19xx |
| `Calendar.NextMonthStart` | app/api/dashboard/overview/route.ts:19-20 | the window's end (month + 1) is the first instant of the month after its start, across a year end too |
| `Calendar.InMonthIff` | app/api/dashboard/report/route.ts:13-24 | a date is in `[start, end)` exactly when it falls in the start's calendar month |
| `Calendar.FullYear` | app/api/dashboard/overview/route.ts:19-20 | the Date constructor's year rule: 0..99 is read as 1900..1999, any other year is kept |
| `Calendar.InMonth` | app/api/dashboard/overview/route.ts:19-25 | `date: { gte: fromDate, lt: toDate }` with `fromDate = new Date(year, month - 1, 1)` and `toDate = new Date(year, month, 1)` |
| `Rows.FirstWhere` | app/api/auth/login/route.ts:23-27 | `findFirst`: the first position satisfying the condition, with none before it, or none at all |
| `Rows.Where` | app/api/expense/my/route.ts:11-12 | a `where` filter keeps exactly the rows satisfying it |
| `Rows.SortBy` | app/api/expense/my/route.ts:13 | `orderBy`: the result is sorted by the order and is a permutation of the input |
| `Ledger.OrgMonth` | app/api/dashboard/overview/route.ts:22-26 | the dashboard `where`: exactly the entries of the organization dated in the month window |
| `Ledger.SumOfPositives` | app/api/dashboard/overview/route.ts:29-30 | a sum of positive amounts is non-negative, and zero exactly when there is nothing to add |
| `Ledger.KindsSplitSum` | app/api/dashboard/summary/route.ts:79-85 | the INCOME sum plus the sum of every other kind is the sum of all amounts |
| `Ledger.SummaryMatchesOverview` | app/api/dashboard/summary/route.ts:79-85 | when every kind is INCOME or EXPENSE, the summary's totals (INCOME and everything else) equal the overview's (INCOME and EXPENSE) |
| `Ledger.EmptyTotals` | app/api/dashboard/summary/route.ts:62-65 | no entries give totals {0, 0} in both reports |
| `Ledger.NoEntriesNoSums` | app/api/dashboard/comparison/route.ts:46-47 | a member without entries has zero sums of every kind |
| `Ledger.GroupingPartitions` | app/api/dashboard/summary/route.ts:69-86 | over distinct members, the per-member sums add up to the sum of the entries those members wrote |
| `Ledger.GroupingCovers` | app/api/dashboard/summary/route.ts:69-86 | when every entry's author is listed, the per-member sums add up to the whole sum |
| `Ledger.PerUserCommutes` | app/api/dashboard/summary/route.ts:79-85 | filtering by kind then grouping by member gives the same sums as grouping then filtering |
| `Ledger.MemberSumsAddUp` | app/api/dashboard/summary/route.ts:79-85 | the members' income sums add up to the INCOME total, and their other sums add up to the other total |
| `Ledger.KindSumsPartition` | app/api/dashboard/comparison/route.ts:45-55 | the members' sums of one kind add up to that kind's amounts written by those members |
| `Ledger.FirstRowOf` | app/api/dashboard/summary/route.ts:71-76 | the row where an author's record is created is that author's first row |
| `Ledger.StepTotals` | app/api/dashboard/summary/route.ts:79-85 | one more entry adds its amount to the income total when it is INCOME, and otherwise to the expense total |
| `Ledger.StepSums` | app/api/dashboard/summary/route.ts:79-85 | one more entry adds its amount to its author's income or expense sum, and to nobody else's |
| `Ledger.AbsorbMemberNames` | app/api/dashboard/summary/route.ts:70-77 | one iteration adds the row's author as a key, names a new key after the row, and renames nobody |
| `Ledger.AbsorbMemberSums` | app/api/dashboard/summary/route.ts:79-85 | one iteration changes only the row's author's record, on the side its kind selects |
| `Ledger.AbsorbStep` | app/api/dashboard/summary/route.ts:69-86 | one iteration keeps the loop invariant: totals, keys, names and sums of the rows seen so far |
| `Ledger.Finished` | app/api/dashboard/summary/route.ts:69-86 | after the last row the invariant gives the totals, the keys, each record, and per-member sums that add up to the totals |
| `Ledger.AbsorbRow` | app/api/dashboard/summary/route.ts:70-85 | the loop body updates the totals and `byMember` by one row |
| `Ledger.Aggregate` | app/api/dashboard/summary/route.ts:62-86 | the loop's totals are the summary totals; its keys are exactly the authors; each record holds the first row's name and the author's sums; the sums add up to the totals in any key order; no rows give {0, 0} and no keys |
| `Ledger.Sum` | app/api/dashboard/overview/route.ts:29-30 | `reduce((sum, e) => sum + e.amount, 0)`: the amounts added left to right from 0 |
| `Ledger.SummaryTotals` | app/api/dashboard/summary/route.ts:79-85 | the summary's totals: the INCOME amounts, and the amounts of every other kind |
| `Ledger.OverviewTotals` | app/api/dashboard/overview/route.ts:29-30 | the overview's totals: the INCOME amounts and the EXPENSE amounts |
| `Ledger.MemberSumOfKind` | app/api/dashboard/comparison/route.ts:46-47 | one member's entries of one kind, added up |
| `Ledger.AbsorbTotals` | app/api/dashboard/summary/route.ts:79-85 | one loop iteration on `totals`: an INCOME row's amount goes to income, any other row's to expense |
| `Ledger.AbsorbMember` | app/api/dashboard/summary/route.ts:70-85 | one loop iteration on `byMember`: an author's first row creates `{ name, 0, 0 }`, then the amount goes to that author's income or expense |
| `Schemas.ParseRegistration` | app/api/auth/register/route.ts:7-20 | parsing succeeds exactly when the e-mail (if any) is well-formed, the phone (if any) has 10 to 15 characters, the name at least 2 and the password at least 6 |
| `Schemas.RegistrationRoundTrip` | app/api/auth/register/route.ts:7-12 | every registration the rules allow is accepted and parses back to itself |
| `Schemas.ParseLogin` | app/api/auth/login/route.ts:7-19 | the parsed credentials are the body's e-mail, phone and password, and the password has at least 6 characters |
| `Schemas.LoginRulesAreRegisterRules` | app/api/auth/login/route.ts:7-11 | login accepts a body exactly when register accepts it with a valid name |
| `Schemas.ParseName` | app/api/organization/route.ts:7-17 | a name is accepted exactly when it is a string of at least 2 characters, and is kept as given |
| `Schemas.ParseReferralCode` | app/api/organization/join/route.ts:6-16 | a referral code is accepted exactly when it is a string of at least 6 characters |
| `Schemas.ParseExpense` | app/api/expense/route.ts:6-14 | accepted exactly when the amount is positive, the kind is INCOME or EXPENSE, the date (given or defaulted) parses, and the optional fields are strings; the fields are kept as given |
| `Schemas.DefaultDateIsFixed` | app/api/expense/route.ts:9 | two requests that omit the date get the same date, the parse of the one load-time text `SCHEMA_DATE` |
| `Schemas.ParseMonthQuery` | app/api/dashboard/summary/route.ts:6-23 | accepted exactly when the month is 1..12 and the year is at least 2000 |
| `Schemas.Falsy` | app/api/auth/register/route.ts:24 | `!email`: the value is absent or the empty string |
| `Upload.AllowedTypeIff` | app/api/upload/route.ts:9-12 | a file type is allowed exactly when it is image/jpeg, image/png or application/pdf |
| `Upload.StorageKey` | app/api/upload/route.ts:30 | the storage key starts with the user id and a slash |
| `Upload.StorageKeyParts` | app/api/upload/route.ts:30 | the key reads back as user id, timestamp and file name |
| `Upload.StorageKeyInjective` | app/api/upload/route.ts:30 | for user ids without '/', as generated ids are, two uploads with different users, times or names never share a key |
| `Upload.UploadRoute` | app/api/upload/route.ts:15-43 | an auth failure is forwarded; a schema violation gives 400 with no upload; otherwise one upload with resource type "auto" to folder family-expense under the storage key, whose result is the answer, or 500 "Failed to upload file" |
| `Store.UpdateUserKeepsValid` | app/api/organization/approve-member/route.ts:32-37 | rewriting one user row under its own id, with an existing organization if any, keeps the tables consistent |
| `Store.AddUserKeepsValid` | app/api/auth/register/route.ts:40-49 | inserting a new member row with no organization keeps the tables consistent |
| `Store.UpdateOrgKeepsValid` | app/api/admin/regenerate-referral/route.ts:19-22 | replacing one organization's code with one no other organization uses keeps the tables consistent |
| `Store.AddCategoryKeepsValid` | app/api/category/route.ts:26-32 | appending a category with a new id and a new name keeps the tables consistent |
| `Store.AddExpenseKeepsValid` | app/api/expense/route.ts:34-46 | appending an entry with a new id, existing author and organization, positive amount and listed kind keeps the tables consistent |
| `Store.UsersWhere` | app/api/admin/members/route.ts:16-17 | `findMany` on users: exactly the ids whose rows satisfy the condition, each once |
| `Store.Project` | app/api/admin/members/route.ts:18-26 | `select`: one projected value per row, in order, and nothing else |
| `Store.IsParentIff` | lib/isParent.ts:3-9 | `isParent` holds exactly when the user exists and owns some organization; an unknown id is never a parent |
| `Store.IsParentIgnoresUserFields` | lib/isParent.ts:4-9 | rewriting user rows (role, status, organization) never changes `isParent` |
| `Store.IsParent` | lib/isParent.ts:3-10 | the user row exists and owns at least one organization |
| `Accounts.FindByContact` | app/api/auth/login/route.ts:23-27 | no result exactly when no user matches; otherwise the first matching user in table order |
| `Accounts.UniqueEmailFindsOwner` | app/api/auth/login/route.ts:23-27 | an e-mail no other user has finds its owner |
| `Accounts.Register` | app/api/auth/register/route.ts:14-51 | 400 "Invalid data", "Email or phone required" or "User already exists" in that order, with nothing stored; success exactly when the body parses, has a contact, and no user matches it; then one new PENDING MEMBER row without organization, holding the hash, appended to the table; only 400s fail |
| `Accounts.Login` | app/api/auth/login/route.ts:13-41 | 400 on invalid data; 404 when nobody matches; 401 when the found user's hash (or "") does not match; when it matches, the first matching user in table order with a token signed over `{ id }`; a success always names a matching user; it reads the store only |
| `Accounts.Matches` | app/api/auth/login/route.ts:23-27 | the lookup condition: the e-mail is given and equal, or the phone is given and equal |
| `Households.CreateOrganization` | app/api/organization/route.ts:11-39 | 400 on a bad name; 500 when the caller has no row or the code is taken; success exactly when none of these fail; then the organization owned by the caller is added and the caller becomes its APPROVED PARENT, and nothing else changes; afterwards both parent tests hold |
| `Households.FoundingKeepsValid` | app/api/organization/route.ts:22-37 | the organization's creation and the caller's promotion keep the tables consistent, and make the caller a parent by both tests |
| `Households.FoundingKeepsTables` | app/api/organization/route.ts:22-37 | the tables, taken one by one, stay consistent when a user founds an organization |
| `Households.Join` | app/api/organization/join/route.ts:10-38 | 400 on a short code; 404 on an unknown code; 500 when the caller has no row; success exactly when none of these fail; then only the caller's row changes, to that organization, PENDING and MEMBER, and the answer is its id; ownership is unchanged and the role test fails |
| `Households.CodeNamesOneOrganization` | app/api/organization/join/route.ts:20-22 | a referral code names at most one organization |
| `Households.ApproveMember` | app/api/organization/approve-member/route.ts:10-40 | a body without a string `memberId` throws (500); a caller whose role is not PARENT gets 403; a member who is missing or in another organization gets 400; success exactly when none of these fail; then only the member's status changes, to APPROVED |
| `Households.PendingMembers` | app/api/organization/pending-members/route.ts:5-32 | only a caller whose role is PARENT passes; the answer is exactly the contacts (no password) of the PENDING users of the caller's organization, one per user |
| `Households.FoundThenJoinElsewhere` | app/api/organization/join/route.ts:28-35 | when the caller has a row, the name parses, the new code is free and the other code names an existing organization, both routes succeed, and the caller is then a parent by ownership but not by role |
| `Households.ContactOf` | app/api/organization/pending-members/route.ts:21-26 | the selected columns: id, name, e-mail and phone |
| `Households.PendingOf` | app/api/organization/pending-members/route.ts:17-20 | the organization is the caller's and the status is PENDING |
| `Admin.JoinedNoLaterIsPreorder` | app/api/admin/members/route.ts:27 | ordering by creation time is a total preorder |
| `Admin.Members` | app/api/admin/members/route.ts:6-30 | 403 unless the caller owns an organization; 400 without a current organization; otherwise exactly the members of the caller's current organization, without passwords, oldest first |
| `Admin.Approve` | app/api/admin/approve/route.ts:11-27 | 403 unless the caller owns an organization, before the body is read; 400 unless the id is a cuid; otherwise only the target's status changes, to APPROVED, in any organization; a missing target gives 500 |
| `Admin.RegenerateReferral` | app/api/admin/regenerate-referral/route.ts:7-24 | 403 unless the caller owns an organization; 400 without a current organization; 500 when another organization already has the new code; success exactly when none of these fail; then only that organization's code changes, to the new code, which is returned; the old code then names no organization |
| `Admin.MemberViewOf` | app/api/admin/members/route.ts:18-26 | the selected columns: id, name, e-mail, phone, role, status and creation time |
| `Admin.JoinedNoLater` | app/api/admin/members/route.ts:27 | `orderBy: { createdAt: 'asc' }` |
| `Categories.CreateCategory` | app/api/category/route.ts:11-34 | 400 on a bad name, before the caller is checked; 403 unless the caller exists, has an organization and is APPROVED; otherwise the non-default category of the caller's organization is appended; a taken name fails with 500 |
| `Categories.ByNameIsPreorder` | app/api/category/route.ts:54 | ordering by name is a total preorder |
| `Categories.ListCategories` | app/api/category/route.ts:38-57 | 403 unless the caller exists and is APPROVED; otherwise exactly the default categories and those of the caller's organization, sorted by name |
| `Categories.NoOrganizationSeesDefaults` | app/api/category/route.ts:47-53 | an approved caller without an organization sees exactly the default categories |
| `Categories.SeedKeepsRows` | prisma/seed.ts:18-27 | the seed keeps every existing row in place and appends only default rows without organization for listed names |
| `Categories.SeedCoversNames` | prisma/seed.ts:6-27 | after the seed every listed name has a category |
| `Categories.SeedOfPresentNames` | prisma/seed.ts:19-21 | upserting names that are all present changes nothing |
| `Categories.SeedIdempotent` | prisma/seed.ts:18-27 | a second run leaves the table as the first left it |
| `Categories.SeedLeavesOthers` | prisma/seed.ts:18-27 | a category with an unlisted name is kept exactly when it was there before |
| `Categories.UpsertKeepsTable` | prisma/seed.ts:19-26 | one upsert with a fresh id keeps category ids and names unique |
| `Categories.Seed` | prisma/seed.ts:5-27 | the loop leaves the table as the nine upserts in order would, every default name present, and the other tables unchanged |
| `Categories.VisibleTo` | app/api/category/route.ts:47-53 | `OR: [{ isDefault: true }, { organizationId }]` |
| `Categories.Upsert` | prisma/seed.ts:19-26 | a taken name leaves the table as it is (`update: {}`); otherwise one default row without organization is appended |
| `Categories.Seeded` | prisma/seed.ts:18-27 | the upserts of the listed names, one after the other, in order |
| `Expenses.NonEmpty` | app/api/expense/route.ts:41-42 | an empty string is stored as absent; any other value is kept |
| `Expenses.RecordExpense` | app/api/expense/route.ts:16-48 | 403 unless the caller exists, is APPROVED and has an organization, before the body is parsed; 400 on a bad body; 500 on an unknown category id; otherwise exactly one entry is appended, holding the caller's id and organization and the parsed fields; an omitted date is the parse of `SCHEMA_DATE` |
| `Expenses.NewestFirstIsPreorder` | app/api/expense/my/route.ts:13 | ordering by date, newest first, is a total preorder |
| `Expenses.MyExpenses` | app/api/expense/my/route.ts:7-16 | an auth failure is forwarded; otherwise exactly the caller's entries, in every organization, newest first |
| `Expenses.RecordThenList` | app/api/expense/my/route.ts:11-14 | a recorded entry appears in its author's next listing, and nothing else new does |
| `Expenses.CategoryExists` | app/api/expense/route.ts:41 | the category reference is absent or names a category row: the foreign key |
| `Expenses.EntryOf` | app/api/expense/route.ts:34-46 | the created row: the caller's id and organization, the parsed amount, kind and date, an empty category id or custom category dropped, note and receipt as given |
| `Expenses.NewestFirst` | app/api/expense/my/route.ts:13 | `orderBy: { date: 'desc' }`: the first entry is not earlier than the second |
| `Expenses.UndatedEntriesShareDate` | app/api/expense/route.ts:9 | two entries recorded one after the other, both without a date, carry the same date |
| `Dashboard.OrgOf` | app/api/dashboard/report/route.ts:16-17 | the caller's organization, present exactly when the caller has a row with one |
| `Dashboard.Overview` | app/api/dashboard/overview/route.ts:6-37 | 403 unless the caller has an organization and is APPROVED; otherwise the INCOME and EXPENSE sums of the organization's month, which equal the summary's totals, are non-negative, add up to the month's sum and are both zero exactly when it has no entries; month and year echoed |
| `Dashboard.StoredTotals` | app/api/dashboard/overview/route.ts:29-30 | for entries from the ledger the two reports' totals agree, are non-negative, add up, and are zero exactly on no entries |
| `Dashboard.CategoryById` | app/api/dashboard/report/route.ts:28 | `include: { category }`: a category with the entry's id, present exactly when one exists |
| `Dashboard.CategoryByIdFinds` | app/api/dashboard/report/route.ts:28 | since category ids are unique, the row found is the category with that id |
| `Dashboard.ReportRows` | app/api/dashboard/report/route.ts:26-29 | each entry, in order, with its author's name and its category |
| `Dashboard.ReportRowsFacts` | app/api/dashboard/report/route.ts:26-31 | the report rows list the entries unchanged, each with its author's name and its category; without the categories they are the summary query's rows |
| `Dashboard.Report` | app/api/dashboard/report/route.ts:5-34 | 403 without an organization; otherwise exactly the organization's entries of the month, newest first, each with its author's name and category; month and year echoed |
| `Dashboard.Comparison` | app/api/dashboard/comparison/route.ts:12-58 | 403 without an organization; otherwise one line per APPROVED member of the caller's organization, in table order, with id, name, and the INCOME and EXPENSE sums of the member's entries in the month |
| `Dashboard.IdleMemberGetsZeros` | app/api/dashboard/comparison/route.ts:46-47 | a member without entries in the month gets income 0 and expense 0 |
| `Dashboard.ColumnsAreKindSums` | app/api/dashboard/comparison/route.ts:45-55 | the income and expense columns add up to the members' kind sums |
| `Dashboard.SameEntries` | app/api/dashboard/comparison/route.ts:28-36 | when the members' entries of the month are the organization's, both routes look at the same entries |
| `Dashboard.ComparisonAddsUp` | app/api/dashboard/comparison/route.ts:45-55 | then the comparison's columns add up to the overview's totals |
| `Dashboard.SummaryRows` | app/api/dashboard/summary/route.ts:49-60 | each entry, in order, with its author's name |
| `Dashboard.SummaryRowsFacts` | app/api/dashboard/summary/route.ts:49-60 | the rows list the entries unchanged, their authors are the entries' authors, and each author's first row carries its name |
| `Dashboard.Summary` | app/api/dashboard/summary/route.ts:11-94 | 400 on a bad query; 400 "No organization"; otherwise totals equal to the summary totals (and the overview totals) of the organization's month; one record per author, with the author's name and sums; member sums that add up to the totals; zeros and no records for an empty month |
| `Dashboard.ApprovedIn` | app/api/dashboard/comparison/route.ts:29 | the organization is the caller's and the status is APPROVED |
| `Dashboard.ComparisonOf` | app/api/dashboard/comparison/route.ts:45-55 | a member's line: id, name, and the INCOME and EXPENSE sums of the member's entries in the window |

## Left out

- Password hashing, token signing, token verification and token expiry are parameters.
  The token helper `lib/jwt.ts` is not modelled.
- The storage service, the clock, nanoid's randomness and the database's id generation
  are parameters. The model constrains only their lengths and freshness.
- Floating point: amounts are exact reals, so rounding in the JavaScript sums is not
  modelled.
- Query numbers: `Number(...)` on the dashboard query is taken to give an integer. NaN,
  fractions and overflow are not modelled. In the summary route, coercion to NaN is the
  absent value.
- Time zones: every date is read in one local time. In particular, the summary route's
  `new Date("YYYY-M-01")` is read as the start of the calendar month. The engine parses
  months 10 to 12 in that text as UTC midnight and months 1 to 9 as local midnight.
- An invalid date: the summary route with a year above 9999 builds a date text the engine
  may not parse, and that path is not modelled.
- String lengths: zod counts UTF-16 code units; the model counts characters.
- Ordering: names sort in character-code order, not by the database collation. Rows that
  `findFirst`/`findMany` return without `orderBy` come in insertion order. Equal dates or
  creation times keep their relative input order.
- The database schema file is not part of this model. Unique category names, unique
  referral codes and the foreign keys are inferred from the seed's `upsert` on `name`,
  the join route's `findUnique` on `referralCode`, and the relations the routes include.
- Concurrency and atomicity: each route runs alone. The organization route's two writes
  are one step. When the caller has no row, the first write already fails on the owner's
  foreign key.
- The lookup `OR: [{ email }, { phone }]` of login and register is read as dropping an
  omitted field, so it matches a user on whichever of the two was given. This is how the
  model takes the ORM's treatment of `{ email: undefined }`; the ORM is not modelled.
- Malformed request bodies: `await req.json()` on a body that is not JSON throws, and every
  POST route then fails with 500. The model starts from the decoded JSON value.
- Logging (`console.log`) and the JSON encoding of answers are not modelled.
- The seed script's disconnect and process exit are not modelled.
- Well-formed dates: a `Calendar.Date` month outside 1..12, or an offset past the end of
  its month, is not excluded. The parsed date is a parameter, and the elapsed time has no
  unit in the model. Such a date is compared field by field, not as a point in time.
