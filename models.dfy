/** The entities of the application (the files under src/shared/models). Records whose
    identifier is assigned by a repository are split into the identifier and
    the caller-supplied part (`info`), which is what `Omit<T, 'id'>` passes in. */
module Models {
  import opened Wrappers

  /** A month as `Date.getMonth()` returns it: 0 (January) to 11 (December). */
  type MonthIndex = m: int | 0 <= m <= 11

  /** A calendar instant: year, month 0–11, day of month, milliseconds into the day. */
  datatype Date = Date(year: int, month: MonthIndex, day: int, millis: int)

  /** `a.getTime() <= b.getTime()`: the lexicographic order on the fields. */
  predicate NotAfter(a: Date, b: Date) {
    || a.year < b.year
    || (a.year == b.year && a.month < b.month)
    || (a.year == b.year && a.month == b.month && a.day < b.day)
    || (a.year == b.year && a.month == b.month && a.day == b.day && a.millis <= b.millis)
  }

  /** `TransactionTargetType`: 'account' | 'card'. */
  datatype TargetType = AccountTarget | CardTarget

  datatype ExpenseInfo = ExpenseInfo(
    amount: real,
    description: string,
    executionDate: Date,
    budgetId: string,
    paymentMethod: TargetType,
    creditCardId: Option<string>,
    paymentAccountId: Option<string>)

  datatype Expense = Expense(id: string, info: ExpenseInfo)

  datatype IncomeInfo = IncomeInfo(
    amount: real,
    description: Option<string>,
    receiptDate: Date,
    targetType: TargetType,
    receivingAccountId: Option<string>,
    receivingCreditCardId: Option<string>)

  datatype Income = Income(id: string, info: IncomeInfo)

  /** `IExpense | IIncome`, with the discriminant made explicit: the
      application tells an expense by the presence of `executionDate`. */
  datatype Transaction = Exp(expense: Expense) | Inc(income: Income)

  /** `isExpense`: 'executionDate' in t. */
  function IsExpense(t: Transaction): bool { t.Exp? }

  function IsIncome(t: Transaction): bool { t.Inc? }

  /** `getDate`: the execution date of an expense, the receipt date of an income. */
  function DateOf(t: Transaction): Date {
    match t
    case Exp(e) => e.info.executionDate
    case Inc(i) => i.info.receiptDate
  }

  function AmountOf(t: Transaction): real {
    match t
    case Exp(e) => e.info.amount
    case Inc(i) => i.info.amount
  }

  function TransactionId(t: Transaction): string {
    match t
    case Exp(e) => e.id
    case Inc(i) => i.id
  }

  function ExpenseId(e: Expense): string { e.id }
  function IncomeId(i: Income): string { i.id }

  /** `IBudgetCycle.type`. A stored value outside the four known tags is kept
      as `Unrecognized` (the data is parsed JSON). */
  datatype CycleType = Monthly | BiMonthly | Yearly | Custom | Unrecognized(tag: string)

  datatype CycleUnit = MonthUnit | YearUnit

  /** A number key of parsed JSON: absent from the object, stored as null,
      or a number. Template literals render the first two as "undefined"
      and "null". */
  datatype JsonNumber = Missing | Null | Num(n: int)

  datatype Cycle = Cycle(kind: CycleType, customValue: JsonNumber, customUnit: Option<CycleUnit>)

  datatype Importance = High | Medium | Low

  datatype BudgetInfo = BudgetInfo(
    name: string,
    description: Option<string>,
    cycle: Cycle,
    amount: real,
    isAccumulating: bool,
    importance: Importance)

  datatype Budget = Budget(id: string, info: BudgetInfo)

  function BudgetId(b: Budget): string { b.id }

  datatype Category = Bank | DigitalWallet | OtherCategory

  datatype AccountType = AccountType(id: string, name: string, logoUrl: Option<string>, category: Category)

  datatype AccountInfo = AccountInfo(name: string, accountType: Option<AccountType>, ownerIds: seq<string>)

  datatype Account = Account(id: string, info: AccountInfo)

  function AccountId(a: Account): string { a.id }

  datatype CardStatus = Active | Inactive

  datatype CancellationReason = Cancelled | Expired | LostOrStolen | OtherReason

  /** What the card form supplies (`Omit<ICreditCard, 'id' | 'status'>`).
      `isVirtual` None is "not specified"; `expiryDate` is the `MM/YY` text. */
  datatype CardDetails = CardDetails(
    displayName: string,
    monthlyChargeDate: int,
    chargeAccountId: string,
    isVirtual: Option<bool>,
    expiryDate: Option<string>)

  datatype CreditCard = CreditCard(
    id: string,
    details: CardDetails,
    status: CardStatus,
    cancellationReason: Option<CancellationReason>,
    cancellationNote: Option<string>)

  function CardId(c: CreditCard): string { c.id }

  datatype User = User(
    id: string,
    firstName: string,
    lastName: Option<string>,
    dateOfBirth: Option<Date>,
    nickname: Option<string>)
}
