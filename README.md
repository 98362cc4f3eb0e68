# Amar Hisab bookkeeping core, in Dafny

This project models the bookkeeping core of a single-page personal finance
app. The user records income and expense transactions, savings goals and
debts. The app keeps one `FinancialState` and rebuilds it on every change.
The model covers five parts of it:

- **`types.dfy`, module `Types`** (`types.ts`): the records and enumerations.
  A transaction type is `Income | Expense`, a goal type `ShortTerm | LongTerm`,
  and a liability type `Loan | Debt | Special`. Each is a datatype with exactly
  these constructors, so "not income" means expense. `Liability` has no `amount`
  field. `FinancialState` holds the balance, the two monthly targets and three
  lists. Amounts are exact `real`s and dates are `Date(year, month, day)`.
- **`store.dfy`, module `Store`** (`App.tsx`): the seed state and the seven
  `prev => next` updates, each a function `FinancialState -> FinancialState`.
  The fresh `Date.now()` id and today's date are parameters.
- **`bookkeeping.dfy`, module `Bookkeeping`**: the balance invariant. Start from
  the seed, never use the manual balance override, and give every new
  transaction a fresh id. Then the bank balance always equals the signed sum of
  the surviving transactions. Adding a transaction and deleting it restores the
  state exactly. With a duplicated id the invariant breaks (see the example
  lemma).
- **`dashboard.dfy`, module `Dashboard`** (`components/Dashboard.tsx`): the
  current-month filter, monthly income and expense, the net flow, remaining
  debt, father transfers, special debts, the debt cards, the goal tiles and the
  balance slider.
- **`goals.dfy`, module `Goals`** (`components/GoalSection.tsx`): the
  short-term/long-term split and a goal card's progress. The text shows the
  unclamped percentage; the bar is clamped at 100.
- **`modal.dfy`, module `Modal`** (`components/AddDataModal.tsx`): the dialog's
  form state as a class with setter methods, the quick-access debt buttons, and
  the submit dispatch. A submit becomes at most one store call.

Helper modules: `Lists` (the `filter`, `find` and `reduce` combinators),
`Text` (`String.prototype.includes`), `Ratio` (JavaScript's `a / b * 100` with
an unguarded zero denominator, and `Math.min(x, 100)`), and `Wrappers`
(`Option`).

Two behaviours of the code are worth stating:

- `recordDebtPayment` with an id that no liability has is not a no-op. It still
  books a 'ঋণ শোধ' expense with the fallback note and lowers the balance
  (`App.tsx:68-85`). Only the liability list stays as it was.
- Progress percentages are clamped only from above (`Math.min(…, 100)`), and
  a negative amount gives a negative percentage. For goals, a zero target
  gives +∞ for a positive amount (the bar and the dashboard tiles show 100,
  the card text shows Infinity), −∞ for a negative amount (`Math.min` passes
  it through), and NaN for a zero amount. `Ratio.Quotient` models those cases.
  For debt cards, the `||` fallback listed under "Left out" applies before
  the division, so a zero total is not modelled as the code shows it.

## Model

| member | source | states |
|---|---|---|
| `Store.Seed` | App.tsx:25-44 | with nothing saved: balance 0, installment 10000, father support 5000, no transactions or goals, and exactly the special debts sd-toma 'তমা' 120000, sd-mama 'মামা' 70000, sd-kisti 'কিস্তি' 100000, all unpaid |
| `Store.AddTransaction` | App.tsx:50-57 | prepends exactly one transaction with the given fields and the fresh id; the balance moves by +amount for income and −amount for expense; nothing else changes |
| `Store.PayLiabilities` | App.tsx:61-66 | every liability with the id gets `amount` added to `paidAmount`; every other liability, the length and the order are unchanged |
| `Store.RepaymentNote` | App.tsx:68-69 | the note is the first matching liability's title followed by ' পরিশোধ', or the fallback 'ঋণ শোধ' when no liability matches |
| `Store.RecordDebtPayment` | App.tsx:59-87 | pays down the matching liabilities and always prepends one 'ঋণ শোধ' expense of the amount; the balance drops by the amount even when no liability matches; the settings and goals are unchanged |
| `Store.AddGoal` | App.tsx:89-92 | appends the goal, with the fresh id, at the end of the list; nothing else changes |
| `Store.AddLiability` | App.tsx:94-97 | appends the liability, with the fresh id, at the end of the list; nothing else changes |
| `Store.UpdateBankBalance` | App.tsx:99-101 | overwrites only the bank balance |
| `Store.UpdateSettings` | App.tsx:103-109 | overwrites only the monthly installment and father-support targets |
| `Store.DeleteItem` | App.tsx:111-124 | removes every record of the kind with the id and keeps every copy of every other record, in order; a transaction delete reverses the balance effect of the first such transaction; an unknown id changes nothing; goal and liability deletes leave the balance and the transactions alone |
| `Store.BalanceAfterDelete` | App.tsx:115-116 | the balance loses the signed amount of the first transaction with the id, and is unchanged when no transaction has it |
| `Store.DropTransactions` | App.tsx:117 | keeps, in order and with their multiplicity, exactly the transactions without the id; an absent id leaves the list as it was |
| `Store.DropGoals` | App.tsx:119 | keeps, in order and with their multiplicity, exactly the goals without the id; an absent id leaves the list as it was |
| `Store.DropLiabilities` | App.tsx:121 | keeps, in order and with their multiplicity, exactly the liabilities without the id; an absent id leaves the list as it was |
| `Bookkeeping.DeleteUndoesFound` | App.tsx:115-117 | with unique ids, filtering out an id lowers the signed sum by exactly the signed amount of the transaction `find` returns |
| `Bookkeeping.UniqueIdsFilter` | App.tsx:117 | filtering out an id keeps transaction ids unique |
| `Bookkeeping.DeleteKeepsBalanced` | App.tsx:111-124 | every delete preserves "balance = signed sum of transactions, ids unique" |
| `Bookkeeping.ApplyKeepsBalanced` | App.tsx:50-124 | every store operation except the manual balance override preserves that invariant when it is given a fresh id |
| `Bookkeeping.RunKeepsBalanced` | App.tsx:50-124 | any sequence of such operations with fresh ids preserves the invariant |
| `Bookkeeping.SeedRunIsBalanced` | App.tsx:25-124 | from the seed, after any such sequence, the bank balance equals the signed sum of the current transactions |
| `Bookkeeping.AddThenDeleteRestores` | App.tsx:50-117 | adding a transaction with a fresh id and then deleting that id gives back exactly the prior state |
| `Bookkeeping.DuplicateIdsBreakBalance` | App.tsx:115-117 | with two transactions sharing an id, a delete removes both but reverses only one, so the balance no longer matches the transactions |
| `Text.Contains` | components/Dashboard.tsx:47 | `includes` holds exactly when the substring occurs at some position (the empty string occurs everywhere) |
| `Ratio.Percent` | components/Dashboard.tsx:102 | `part / whole * 100`: finite for a non-zero denominator, at most 100 exactly when part ≤ whole (whole > 0), non-negative exactly when part ≥ 0; a zero denominator gives +∞, −∞ or NaN by the sign of the numerator |
| `Ratio.AtMost100` | components/Dashboard.tsx:102 | `Math.min(q, 100)` is never above 100, is exactly `q` when `q` ≤ 100, is 100 for larger values and +∞, and passes NaN and −∞ through |
| `Dashboard.CurrentMonthTransactions` | components/Dashboard.tsx:23-31 | the order-preserving subsequence of transactions whose year and month are those of now, each kept with its multiplicity |
| `Dashboard.Tally` | components/Dashboard.tsx:33-39 | the fold adds exactly the income amounts to `income` and every other amount to `expense` |
| `Dashboard.LedgerSplits` | components/Dashboard.tsx:33-39 | the signed sum of transactions is the income sum minus the expense sum |
| `Dashboard.MonthlyStats` | components/Dashboard.tsx:33-39 | monthly income is the sum of this month's income amounts, monthly expense the sum of the others, and together they are the total of the month's amounts |
| `Dashboard.NetFlow` | components/Dashboard.tsx:77 | the shown flow, income − expense, is the month's signed sum |
| `Dashboard.Remaining` | components/Dashboard.tsx:99-101 | what is left on a debt is negative exactly when it is overpaid |
| `Dashboard.TotalRemainingDebt` | components/Dashboard.tsx:41-43 | Σ(total − paid): never negative while no debt is overpaid, at most the sum of the totals while no payment is negative; `PaymentLowersRemainingDebt` and `SeedRemainingDebt` state how a payment moves it and its seed value |
| `Dashboard.PaymentLowersRemainingDebt` | components/Dashboard.tsx:41-43 | paying against an id that one liability has lowers the total remaining debt by exactly the amount; against an id none has it leaves it unchanged |
| `Dashboard.RecordDebtPaymentRemainingDebt` | App.tsx:61-66 | a `recordDebtPayment` matching one liability lowers the dashboard's remaining debt by exactly the amount paid; an unknown id leaves it unchanged |
| `Dashboard.SeedIdsUnique` | App.tsx:30-34 | each seeded id belongs to exactly one seeded liability |
| `Dashboard.SeedRemainingDebt` | components/Dashboard.tsx:41-43 | the seed's total remaining debt is 290000 |
| `Dashboard.SeedPaymentExample` | App.tsx:59-87 | paying 5000 to 'sd-mama' from the seed leaves 285000 owed, balance −5000, and one 5000 expense at the head of the list |
| `Dashboard.FatherTransfersThisMonth` | components/Dashboard.tsx:45-49 | with no negative amount, lies between 0 and the month's total; `FatherTransfersAfterAdd` states which transactions it counts |
| `Dashboard.FatherTransfersAfterAdd` | components/Dashboard.tsx:45-49 | a new transaction raises the father-transfer sum by its amount exactly when it is dated this month and its category or note contains 'আব্বু'; otherwise the sum is unchanged |
| `Dashboard.AnyKeyword` | components/Dashboard.tsx:52 | the `some` test holds exactly when the title contains one of the keywords |
| `Dashboard.SpecialDebts` | components/Dashboard.tsx:51-53 | keeps, in order and with their multiplicity, exactly the liabilities that are of type special or whose title contains 'তমা', 'মামা' or 'কিস্তি' |
| `Dashboard.SeedSpecialDebts` | components/Dashboard.tsx:51-53 | all three seeded liabilities show as special debts, in seed order |
| `Dashboard.DebtCardOf` | components/Dashboard.tsx:98-102 | debt progress never exceeds 100, lies in [0, 100] for a positive total and non-negative payment, is 100 on overpayment; the remaining figure is negative exactly on overpayment |
| `Dashboard.GoalTiles` | components/Dashboard.tsx:180-181 | at most the first four goals are shown, in order, each with its progress capped at 100 |
| `Dashboard.SliderValue` | components/Dashboard.tsx:83 | the slider position is the balance, capped at 2000000 |
| `Dashboard.MonthExample` | components/Dashboard.tsx:33-39 | income 1000 then expense 400 this month, from the seed: income 1000, expense 400, flow 600, balance 600 |
| `Goals.ShortTermGoals` | components/GoalSection.tsx:54 | the short-term goals, in their order and with their multiplicity |
| `Goals.LongTermGoals` | components/GoalSection.tsx:55 | the long-term goals, in their order and with their multiplicity |
| `Goals.GoalSectionsPartition` | components/GoalSection.tsx:54-55 | every goal lands in exactly one section, and together the sections hold every goal exactly once |
| `Goals.GoalProgress` | components/GoalSection.tsx:13 | the text percentage is unclamped: above 100 exactly when the current amount exceeds the target (positive target) |
| `Goals.GoalBarWidth` | components/GoalSection.tsx:41 | the bar width is at most 100 and equals the progress whenever the progress is at most 100 |
| `Goals.OverfundedGoalExample` | components/GoalSection.tsx:13-41 | a goal at 150 of 100 reads 150% in text with a full bar |
| `Goals.ZeroTargetGoalExample` | components/GoalSection.tsx:13-41 | a zero target reads +∞, −∞ or NaN by the sign of the current amount; the bar shows 100 for +∞ and passes −∞ and NaN through |
| `Goals.DeleteFromCard` | components/GoalSection.tsx:20-21 | a card's delete removes every goal with that card's id and keeps every other goal in order with all its copies; nothing is added and the rest of the state, targets included, is unchanged |
| `Modal.Dispatch` | components/AddDataModal.tsx:45-64 | a submit makes at most one store call and closes exactly when it makes one; the transaction tab adds the form's transaction; the father tab adds an expense 'পিতার জন্য' with the fixed note; the repayment tab with no liability chosen does nothing; with one it records the payment; the settings tab updates both targets |
| `Modal.ModalForm.constructor` | components/AddDataModal.tsx:29-38 | a new dialog opens on the transaction tab with an empty expense of category 'সাধারণ' dated today, no liability chosen, and the current targets in the settings; the category invariant holds |
| `Modal.ModalForm.SetFormType` | components/AddDataModal.tsx:94-97 | a tab button changes only the mode |
| `Modal.ModalForm.SetTransactionType` | components/AddDataModal.tsx:106 | the type select changes only the transaction's type; the category stays the default |
| `Modal.ModalForm.SetTransactionAmount` | components/AddDataModal.tsx:110 | the amount input (also the father tab's, line 166) changes only the amount; the category stays the default |
| `Modal.ModalForm.SetTransactionNote` | components/AddDataModal.tsx:115 | the note input changes only the note; the category stays the default |
| `Modal.ModalForm.SetTransactionDate` | components/AddDataModal.tsx:119 | the date input changes only the date; the category stays the default |
| `Modal.ModalForm.SetRepaymentLiability` | components/AddDataModal.tsx:135 | the liability select changes only the chosen id |
| `Modal.ModalForm.SetRepaymentAmount` | components/AddDataModal.tsx:148 | the repayment amount input changes only that amount |
| `Modal.ModalForm.SetInstallment` | components/AddDataModal.tsx:175 | the installment input changes only the installment target |
| `Modal.ModalForm.SetFatherSupport` | components/AddDataModal.tsx:179 | the father-support input changes only the father-support target |
| `Modal.ModalForm.HandleQuickDebtSelect` | components/AddDataModal.tsx:40-43 | sets the chosen liability, switches to the repayment tab, and keeps the amount entered |
| `Modal.ModalForm.HandleSubmit` | components/AddDataModal.tsx:45-64 | the handler's chain of tests yields the dispatch of the current form; a transaction-tab submit always carries the default category 'সাধারণ', since no input edits it |
| `Modal.SubmissionKeepsBalanced` | components/AddDataModal.tsx:45-64 | whatever the form holds, a submit keeps the bank balance equal to the signed sum of the transactions |
| `Modal.FatherNoteMentionsFather` | components/AddDataModal.tsx:56 | the father tab's fixed note contains 'আব্বু' |
| `Modal.FatherSubmissionCounted` | components/AddDataModal.tsx:51-58 | a father transfer is an expense of category 'পিতার জন্য', and the dashboard's father sum for its month grows by exactly its amount |
| `Modal.RepaymentSubmission` | components/AddDataModal.tsx:59-63 | a repayment with a chosen liability is exactly `recordDebtPayment(id, amount)`; it lowers the balance by the amount and, for a unique id, the remaining debt by the amount |
| `Modal.QuickIdsAreSeeded` | components/AddDataModal.tsx:78-86 | the three quick-access ids are exactly the seeded liability ids, in order, each unique in the seed |
| `Modal.QuickPaymentFromSeed` | components/AddDataModal.tsx:40-43 | quick-selecting a seeded debt and submitting from the seed leaves 290000 minus the amount owed |

## Left out

- Persistence: loading from and saving to `localStorage` with `JSON.parse` and `JSON.stringify` is browser I/O and a library serialiser. Only the seed used when nothing is saved is modelled.
- The AI summaries (`components/AIAnalystHero.tsx`, `components/StrategySection.tsx`, `components/AISummary.tsx`) are network calls to a foreign service. They only read the state.
- `Date.now()` ids, `new Date()` and time zones: the fresh id, today's date and the (year, month) of now are parameters. Dates are year/month/day triples, so the zero-based `getMonth()` and the date-string parsing are not modelled.
- `Number(...)` coercion of form text, `NaN` from bad input and floating-point rounding: amounts are exact reals, and form fields hold the numbers the coercion would give (an empty amount is 0).
- The `(l.totalAmount || l.amount)` and `(l.paidAmount || 0)` fallbacks read an undeclared field and treat 0 as missing. Only `totalAmount` and `paidAmount` are modelled, so a debt with a zero total gets a finite progress in the model, while the code divides by `undefined` and shows NaN.
- Rendering: `components/TransactionList.tsx` (sign and colour, unconnected search and filter inputs), `components/LiabilitySection.tsx`, `toLocaleString` and `toFixed` formatting, and the React hooks.
- The dialog's `onAddGoal` and `onAddLiability` props: `handleSubmit` never calls them, so the dispatch has no such call.
- `Bookkeeping.SeedRunIsBalanced` excludes the manual balance override, which deliberately breaks the invariant. It also assumes every new transaction gets a fresh id; the code relies on `Date.now()` for that.
