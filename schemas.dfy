/**
 * The request-body schemas. A body field is modelled by what the validator can see of it:
 * absent, a string, a number, or any other JSON value. The e-mail and cuid format checks
 * of the validator library are parameters (`isEmail`, `isCuid`).
 */
module Schemas {
  import opened Wrappers
  import opened Calendar
  import opened Entities

  datatype Json = Absent | Str(s: string) | Num(x: real) | OtherValue

  /** A field declared `z.string()` with extra rules `ok`: present, a string, and accepted. */
  predicate RequiredText(v: Json, ok: string -> bool)
  {
    v.Str? && ok(v.s)
  }

  /** A field declared `z.string().….optional()`: absent, or a string the rules accept. */
  predicate OptionalText(v: Json, ok: string -> bool)
  {
    v.Absent? || (v.Str? && ok(v.s))
  }

  /** The value an optional string field parses to. */
  function TextOf(v: Json): Option<string>
  {
    if v.Str? then Some(v.s) else None
  }

  /** `z.string().min(n)`. */
  function AtLeast(n: nat): string -> bool
  {
    (s: string) => |s| >= n
  }

  /** `z.string().min(10).max(15)`: the phone rule. */
  function PhoneLength(): string -> bool
  {
    (s: string) => 10 <= |s| <= 15
  }

  function AnyText(): string -> bool
  {
    (s: string) => true
  }

  /** A JSON value the truthiness test `!x` counts as false: absent or the empty string. */
  predicate Falsy(v: Option<string>)
  {
    v.None? || v.value == ""
  }

  // ---------------------------------------------------------------- register and login

  datatype RegisterBody = RegisterBody(email: Json, phone: Json, name: Json, password: Json)
  datatype Registration = Registration(email: Option<string>, phone: Option<string>, name: string, password: string)

  /** The field rules of `registerSchema`. */
  predicate RegistrationRules(r: Registration, isEmail: string -> bool)
  {
    && (r.email.Some? ==> isEmail(r.email.value))
    && (r.phone.Some? ==> 10 <= |r.phone.value| <= 15)
    && |r.name| >= 2
    && |r.password| >= 6
  }

  /** `registerSchema.safeParse(body)`. */
  function ParseRegistration(body: RegisterBody, isEmail: string -> bool): (r: Option<Registration>)
    ensures r.Some? <==>
      && (body.email.Absent? || (body.email.Str? && isEmail(body.email.s)))
      && (body.phone.Absent? || (body.phone.Str? && 10 <= |body.phone.s| <= 15))
      && body.name.Str? && |body.name.s| >= 2
      && body.password.Str? && |body.password.s| >= 6
    ensures r.Some? ==> RegistrationRules(r.value, isEmail)
  {
    if OptionalText(body.email, isEmail) && OptionalText(body.phone, PhoneLength())
      && RequiredText(body.name, AtLeast(2)) && RequiredText(body.password, AtLeast(6))
    then Some(Registration(TextOf(body.email), TextOf(body.phone), body.name.s, body.password.s))
    else None
  }

  /** The body a client sends for a registration: absent fields stay absent. */
  function RegisterBodyOf(r: Registration): RegisterBody
  {
    RegisterBody(
      if r.email.Some? then Str(r.email.value) else Absent,
      if r.phone.Some? then Str(r.phone.value) else Absent,
      Str(r.name), Str(r.password))
  }

  /** Every registration the rules allow is accepted, and parses back to itself. */
  lemma RegistrationRoundTrip(r: Registration, isEmail: string -> bool)
    requires RegistrationRules(r, isEmail)
    ensures ParseRegistration(RegisterBodyOf(r), isEmail) == Some(r)
  {
  }

  datatype LoginBody = LoginBody(email: Json, phone: Json, password: Json)
  datatype Credentials = Credentials(email: Option<string>, phone: Option<string>, password: string)

  /** `loginSchema.safeParse(body)`. */
  function ParseLogin(body: LoginBody, isEmail: string -> bool): (r: Option<Credentials>)
    ensures r.Some? ==> r.value.email == TextOf(body.email) && r.value.phone == TextOf(body.phone)
    ensures r.Some? ==> body.password.Str? && r.value.password == body.password.s && |r.value.password| >= 6
  {
    if OptionalText(body.email, isEmail) && OptionalText(body.phone, PhoneLength())
      && RequiredText(body.password, AtLeast(6))
    then Some(Credentials(TextOf(body.email), TextOf(body.phone), body.password.s))
    else None
  }

  /** Login applies register's rules to the fields the two share. */
  lemma LoginRulesAreRegisterRules(body: LoginBody, name: string, isEmail: string -> bool)
    requires |name| >= 2
    ensures ParseLogin(body, isEmail).Some? <==>
      ParseRegistration(RegisterBody(body.email, body.phone, Str(name), body.password), isEmail).Some?
  {
  }

  // ---------------------------------------------------------------- one-field bodies

  /** `z.object({ name: z.string().min(2) })`: the organization and category schemas. */
  function ParseName(name: Json): (r: Option<string>)
    ensures r.Some? <==> name.Str? && |name.s| >= 2
    ensures r.Some? ==> r.value == name.s
  {
    if RequiredText(name, AtLeast(2)) then Some(name.s) else None
  }

  /** `z.object({ referralCode: z.string().min(6) })`: the join schema. */
  function ParseReferralCode(code: Json): (r: Option<string>)
    ensures r.Some? <==> code.Str? && |code.s| >= 6
    ensures r.Some? ==> r.value == code.s
  {
    if RequiredText(code, AtLeast(6)) then Some(code.s) else None
  }

  // ---------------------------------------------------------------- the expense schema

  datatype ExpenseBody = ExpenseBody(
    amount: Json, kind: Json, date: Json,
    categoryId: Json, customCategory: Json, note: Json, receiptUrl: Json)

  datatype ExpenseInput = ExpenseInput(
    amount: real, kind: string, date: Date,
    categoryId: Option<string>, customCategory: Option<string>, note: Option<string>, receiptUrl: Option<string>)

  /**
   * The timestamp text `expenseSchema`'s default is computed from, once, when the module
   * loads. It is one fixed value for the life of the server; which instant it names is not
   * modelled.
   */
  const SCHEMA_DATE: string

  /**
   * `expenseSchema`: a request that omits `date` gets `SCHEMA_DATE`. `parseDate` is the date
   * parser (`None` where it yields NaN); the stored date is what `new Date(date)` gives, the
   * same value.
   */
  function ParseExpense(body: ExpenseBody, parseDate: string -> Option<Date>): (r: Option<ExpenseInput>)
    ensures r.Some? <==>
      && body.amount.Num? && body.amount.x > 0.0
      && body.kind.Str? && (body.kind.s == INCOME || body.kind.s == EXPENSE)
      && (body.date.Absent? || body.date.Str?)
      && parseDate(if body.date.Str? then body.date.s else SCHEMA_DATE).Some?
      && OptionalText(body.categoryId, AnyText()) && OptionalText(body.customCategory, AnyText())
      && OptionalText(body.note, AnyText()) && OptionalText(body.receiptUrl, AnyText())
    ensures r.Some? ==>
      && r.value.amount == body.amount.x && r.value.kind == body.kind.s
      && r.value.date == parseDate(if body.date.Absent? then SCHEMA_DATE else body.date.s).value
      && r.value.categoryId == TextOf(body.categoryId) && r.value.customCategory == TextOf(body.customCategory)
      && r.value.note == TextOf(body.note) && r.value.receiptUrl == TextOf(body.receiptUrl)
  {
    var dateText := if body.date.Absent? then Str(SCHEMA_DATE) else body.date;
    if && body.amount.Num? && body.amount.x > 0.0
       && body.kind.Str? && body.kind.s in [INCOME, EXPENSE]
       && dateText.Str? && parseDate(dateText.s).Some?
       && OptionalText(body.categoryId, AnyText()) && OptionalText(body.customCategory, AnyText())
       && OptionalText(body.note, AnyText()) && OptionalText(body.receiptUrl, AnyText())
    then Some(ExpenseInput(body.amount.x, body.kind.s, parseDate(dateText.s).value,
      TextOf(body.categoryId), TextOf(body.customCategory), TextOf(body.note), TextOf(body.receiptUrl)))
    else None
  }

  /**
   * Two requests that both omit `date` get the same date, however far apart they are sent:
   * the date of the schema's load, not of the request.
   */
  lemma DefaultDateIsFixed(b1: ExpenseBody, b2: ExpenseBody, parseDate: string -> Option<Date>)
    requires b1.date.Absent? && b2.date.Absent?
    requires ParseExpense(b1, parseDate).Some? && ParseExpense(b2, parseDate).Some?
    ensures ParseExpense(b1, parseDate).value.date == ParseExpense(b2, parseDate).value.date
    ensures ParseExpense(b1, parseDate).value.date == parseDate(SCHEMA_DATE).value
  {
  }

  // ---------------------------------------------------------------- the summary query

  /**
   * `querySchema`: `month` and `year` are the query parameters after numeric coercion
   * (`None` where coercion gives NaN).
   */
  function ParseMonthQuery(month: Option<int>, year: Option<int>): (r: Option<(int, int)>)
    ensures r.Some? <==> month.Some? && 1 <= month.value <= 12 && year.Some? && year.value >= 2000
    ensures r.Some? ==> r.value == (month.value, year.value)
  {
    match (month, year)
    case (Some(m), Some(y)) => if 1 <= m <= 12 && y >= 2000 then Some((m, y)) else None
    case _ => None
  }
}
