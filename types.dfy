/** The records and enumerations of the bookkeeping application (types.ts).
    Amounts are JavaScript numbers, modelled as exact reals; the `date` and
    `deadline` strings are modelled as the calendar dates they denote. */
module Types {

  datatype TransactionType = Income | Expense

  datatype GoalType = ShortTerm | LongTerm

  datatype LiabilityType = Loan | Debt | Special

  /** A calendar date (the `YYYY-MM-DD` strings of the source). */
  datatype Date = Date(year: int, month: int, day: int)

  datatype Transaction = Transaction(
    id: string,
    kind: TransactionType,
    amount: real,
    category: string,
    date: Date,
    note: string)

  /** `Omit<Transaction, 'id'>`: what a caller supplies; the store adds the id. */
  datatype TransactionDraft = TransactionDraft(
    kind: TransactionType,
    amount: real,
    category: string,
    date: Date,
    note: string)
  {
    function WithId(id: string): Transaction
    {
      Transaction(id, kind, amount, category, date, note)
    }
  }

  datatype Goal = Goal(
    id: string,
    title: string,
    targetAmount: real,
    currentAmount: real,
    deadline: Date,
    kind: GoalType)

  /** `Omit<Goal, 'id'>`. */
  datatype GoalDraft = GoalDraft(
    title: string,
    targetAmount: real,
    currentAmount: real,
    deadline: Date,
    kind: GoalType)
  {
    function WithId(id: string): Goal
    {
      Goal(id, title, targetAmount, currentAmount, deadline, kind)
    }
  }

  /** A debt; there is no `amount` field, only the total and what has been paid. */
  datatype Liability = Liability(
    id: string,
    title: string,
    totalAmount: real,
    paidAmount: real,
    kind: LiabilityType)

  /** `Omit<Liability, 'id'>`. */
  datatype LiabilityDraft = LiabilityDraft(
    title: string,
    totalAmount: real,
    paidAmount: real,
    kind: LiabilityType)
  {
    function WithId(id: string): Liability
    {
      Liability(id, title, totalAmount, paidAmount, kind)
    }
  }

  /** The whole application state; transactions are kept newest first. */
  datatype FinancialState = FinancialState(
    bankBalance: real,
    monthlyInstallment: real,
    monthlyFatherSupport: real,
    transactions: seq<Transaction>,
    goals: seq<Goal>,
    liabilities: seq<Liability>)
}
