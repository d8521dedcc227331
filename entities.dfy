/** The rows of the four tables: users, organizations (households), categories and ledger entries. */
module Entities {
  import opened Wrappers
  import opened Calendar

  type UserId = string
  type OrgId = string
  type CategoryId = string
  type ExpenseId = string

  datatype Role = Member | Parent
  datatype Status = Pending | Approved

  /** `password` is the stored hash; the column is nullable. `createdAt` is the insertion time. */
  datatype User = User(
    id: UserId,
    name: string,
    email: Option<string>,
    phone: Option<string>,
    password: Option<string>,
    role: Role,
    status: Status,
    organizationId: Option<OrgId>,
    createdAt: int)

  datatype Organization = Organization(id: OrgId, name: string, referralCode: string, ownerId: UserId)

  /** A global default category has no organization; an organization's own has `isDefault == false`. */
  datatype Category = Category(id: CategoryId, name: string, isDefault: bool, organizationId: Option<OrgId>)

  /** The kinds the expense route accepts; the summary report treats every other kind as spending. */
  const INCOME := "INCOME"
  const EXPENSE := "EXPENSE"

  /** A ledger entry. `kind` is the `type` column. */
  datatype Expense = Expense(
    id: ExpenseId,
    userId: UserId,
    organizationId: OrgId,
    amount: real,
    kind: string,
    date: Date,
    categoryId: Option<CategoryId>,
    customCategory: Option<string>,
    note: Option<string>,
    receiptUrl: Option<string>)
}
