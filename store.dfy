/** The financial state store (App.tsx): the seed state and the seven state
    transitions, each a `prev => next` update that rebuilds the state.
    `Date.now().toString()` ids and today's date are parameters. */
module Store {
  import opened Wrappers
  import opened Lists
  import opened Types

  /** Category (and fallback note) of the expense a debt payment books. */
  const RepaymentCategory: string := "ঋণ শোধ"
  /** Appended to the liability's title to form the note of that expense. */
  const PaidSuffix: string := " পরিশোধ"

  /** What `deleteItem` is asked to delete. */
  datatype ItemKind = TransactionItem | GoalItem | LiabilityItem

  function TransactionHasId(id: string): Transaction -> bool { (t: Transaction) => t.id == id }
  function TransactionLacksId(id: string): Transaction -> bool { (t: Transaction) => t.id != id }
  function GoalLacksId(id: string): Goal -> bool { (g: Goal) => g.id != id }
  function LiabilityHasId(id: string): Liability -> bool { (l: Liability) => l.id == id }
  function LiabilityLacksId(id: string): Liability -> bool { (l: Liability) => l.id != id }

  /** The effect of one transaction on the bank balance. */
  function SignedAmount(t: Transaction): real
  {
    if t.kind == Income then t.amount else -t.amount
  }

  /** The signed sum of a list of transactions: income counts +, expense -. */
  function Ledger(ts: seq<Transaction>): real
  {
    Sum(ts, SignedAmount)
  }

  /** How far the bank balance is from what the transactions explain. */
  function Drift(s: FinancialState): real
  {
    s.bankBalance - Ledger(s.transactions)
  }

  /** The three special debts seeded when nothing is saved. */
  function SeedLiabilities(): seq<Liability>
  {
    [ Liability("sd-toma", "তমা", 120000.0, 0.0, Special),
      Liability("sd-mama", "মামা", 70000.0, 0.0, Special),
      Liability("sd-kisti", "কিস্তি", 100000.0, 0.0, Special) ]
  }

  /** The initial state when no saved data exists. */
  function Seed(): (s: FinancialState)
    ensures s.bankBalance == 0.0 && s.bankBalance == Ledger(s.transactions)
    ensures s.monthlyInstallment == 10000.0 && s.monthlyFatherSupport == 5000.0
    ensures s.transactions == [] && s.goals == []
    ensures |s.liabilities| == 3
    ensures s.liabilities[0].id == "sd-toma" && s.liabilities[0].title == "তমা" && s.liabilities[0].totalAmount == 120000.0
    ensures s.liabilities[1].id == "sd-mama" && s.liabilities[1].title == "মামা" && s.liabilities[1].totalAmount == 70000.0
    ensures s.liabilities[2].id == "sd-kisti" && s.liabilities[2].title == "কিস্তি" && s.liabilities[2].totalAmount == 100000.0
    ensures forall l :: l in s.liabilities ==> l.paidAmount == 0.0 && l.kind == Special
  {
    FinancialState(0.0, 10000.0, 5000.0, [], [], SeedLiabilities())
  }

  /** `addTransaction`: prepend the transaction and move the balance by its signed amount. */
  function AddTransaction(s: FinancialState, t: TransactionDraft, freshId: string): (r: FinancialState)
    ensures r.transactions == [t.WithId(freshId)] + s.transactions
    ensures r.bankBalance == s.bankBalance + SignedAmount(t.WithId(freshId))
    ensures Drift(r) == Drift(s)
    ensures r.(transactions := s.transactions, bankBalance := s.bankBalance) == s
  {
    var newT := t.WithId(freshId);
    s.(transactions := [newT] + s.transactions,
       bankBalance := if t.kind == Income then s.bankBalance + t.amount else s.bankBalance - t.amount)
  }

  /** The `map` of `recordDebtPayment`: every liability with the id gets `amount` more paid. */
  function PayLiabilities(ls: seq<Liability>, id: string, amount: real): (r: seq<Liability>)
    ensures |r| == |ls|
    ensures forall i :: 0 <= i < |ls| ==>
      r[i] == if ls[i].id == id then ls[i].(paidAmount := ls[i].paidAmount + amount) else ls[i]
  {
    if ls == [] then []
    else
      var l := if ls[0].id == id then ls[0].(paidAmount := ls[0].paidAmount + amount) else ls[0];
      [l] + PayLiabilities(ls[1..], id, amount)
  }

  /** The note of the booked expense: the first matching liability's title, or the fallback. */
  function RepaymentNote(ls: seq<Liability>, id: string): (note: string)
    ensures (forall l :: l in ls ==> l.id != id) ==> note == RepaymentCategory
    ensures forall i :: 0 <= i < |ls| && ls[i].id == id && (forall j :: 0 <= j < i ==> ls[j].id != id) ==>
      note == ls[i].title + PaidSuffix
  {
    match Find(ls, LiabilityHasId(id))
    case Some(l) => l.title + PaidSuffix
    case None =>
      assert forall i :: 0 <= i < |ls| ==> ls[i] in ls;
      RepaymentCategory
  }

  /** `recordDebtPayment`: pay down the matching liabilities and always book one expense.
      An id that matches nothing still books the expense and lowers the balance. */
  function RecordDebtPayment(s: FinancialState, liabilityId: string, amount: real,
                             freshId: string, today: Date): (r: FinancialState)
    ensures |r.liabilities| == |s.liabilities|
    ensures forall i :: 0 <= i < |s.liabilities| ==>
      r.liabilities[i] == if s.liabilities[i].id == liabilityId
                          then s.liabilities[i].(paidAmount := s.liabilities[i].paidAmount + amount)
                          else s.liabilities[i]
    ensures (forall l :: l in s.liabilities ==> l.id != liabilityId) ==> r.liabilities == s.liabilities
    ensures |r.transactions| == |s.transactions| + 1 && r.transactions[1..] == s.transactions
    ensures r.transactions[0].note == RepaymentNote(s.liabilities, liabilityId)
    ensures var t := r.transactions[0];
      t.id == freshId && t.kind == Expense && t.amount == amount &&
      t.category == RepaymentCategory && t.date == today
    ensures r.bankBalance == s.bankBalance - amount
    ensures Drift(r) == Drift(s)
    ensures r.(liabilities := s.liabilities, transactions := s.transactions, bankBalance := s.bankBalance) == s
  {
    var newT := Transaction(freshId, Expense, amount, RepaymentCategory, today,
                            RepaymentNote(s.liabilities, liabilityId));
    var r := s.(liabilities := PayLiabilities(s.liabilities, liabilityId, amount),
                transactions := [newT] + s.transactions,
                bankBalance := s.bankBalance - amount);
    assert r.transactions[1..] == s.transactions;
    assert (forall l :: l in s.liabilities ==> l.id != liabilityId) ==> r.liabilities == s.liabilities;
    r
  }

  /** `addGoal`: append the goal; nothing else changes. */
  function AddGoal(s: FinancialState, g: GoalDraft, freshId: string): (r: FinancialState)
    ensures |r.goals| == |s.goals| + 1 && r.goals[..|s.goals|] == s.goals
    ensures r.goals[|s.goals|] == g.WithId(freshId)
    ensures r.(goals := s.goals) == s
  {
    s.(goals := s.goals + [g.WithId(freshId)])
  }

  /** `addLiability`: append the liability; nothing else changes. */
  function AddLiability(s: FinancialState, l: LiabilityDraft, freshId: string): (r: FinancialState)
    ensures |r.liabilities| == |s.liabilities| + 1 && r.liabilities[..|s.liabilities|] == s.liabilities
    ensures r.liabilities[|s.liabilities|] == l.WithId(freshId)
    ensures r.(liabilities := s.liabilities) == s
  {
    s.(liabilities := s.liabilities + [l.WithId(freshId)])
  }

  /** `updateBankBalance`: the manual override, which bypasses the ledger. */
  function UpdateBankBalance(s: FinancialState, amount: real): (r: FinancialState)
    ensures r.bankBalance == amount
    ensures r.(bankBalance := s.bankBalance) == s
  {
    s.(bankBalance := amount)
  }

  /** `updateSettings`: overwrite the two monthly targets. */
  function UpdateSettings(s: FinancialState, installment: real, fatherSupport: real): (r: FinancialState)
    ensures r.monthlyInstallment == installment && r.monthlyFatherSupport == fatherSupport
    ensures r.(monthlyInstallment := s.monthlyInstallment, monthlyFatherSupport := s.monthlyFatherSupport) == s
  {
    s.(monthlyInstallment := installment, monthlyFatherSupport := fatherSupport)
  }

  /** The balance after deleting transaction `id`: the first one found is undone. */
  function BalanceAfterDelete(s: FinancialState, id: string): (b: real)
    ensures forall i :: 0 <= i < |s.transactions| && s.transactions[i].id == id &&
                        (forall j :: 0 <= j < i ==> s.transactions[j].id != id) ==>
              b == s.bankBalance - SignedAmount(s.transactions[i])
    ensures (forall t :: t in s.transactions ==> t.id != id) ==> b == s.bankBalance
  {
    var ts := s.transactions;
    match Find(ts, TransactionHasId(id))
    case Some(t) =>
      var k :| 0 <= k < |ts| && ts[k] == t && TransactionHasId(id)(ts[k]) &&
               forall j :: 0 <= j < k ==> !TransactionHasId(id)(ts[j]);
      assert forall i :: 0 <= i < |ts| && ts[i].id == id && (forall j :: 0 <= j < i ==> ts[j].id != id) ==> i == k by {
        forall i | 0 <= i < |ts| && ts[i].id == id && (forall j :: 0 <= j < i ==> ts[j].id != id) ensures i == k {
          assert TransactionHasId(id)(ts[i]);
        }
      }
      if t.kind == Income then s.bankBalance - t.amount else s.bankBalance + t.amount
    case None =>
      assert forall i :: 0 <= i < |ts| ==> ts[i] in ts;
      s.bankBalance
  }

  /** The transaction `filter` of `deleteItem`: every copy of every other transaction stays, in order. */
  function DropTransactions(ts: seq<Transaction>, id: string): (r: seq<Transaction>)
    ensures Subsequence(r, ts)
    ensures forall t :: t in r <==> t in ts && t.id != id
    ensures forall t :: multiset(r)[t] == if t.id != id then multiset(ts)[t] else 0
    ensures (forall t :: t in ts ==> t.id != id) ==> r == ts
  {
    Filter(ts, TransactionLacksId(id))
  }

  /** The goal `filter` of `deleteItem`. */
  function DropGoals(gs: seq<Goal>, id: string): (r: seq<Goal>)
    ensures Subsequence(r, gs)
    ensures forall g :: g in r <==> g in gs && g.id != id
    ensures forall g :: multiset(r)[g] == if g.id != id then multiset(gs)[g] else 0
    ensures (forall g :: g in gs ==> g.id != id) ==> r == gs
  {
    Filter(gs, GoalLacksId(id))
  }

  /** The liability `filter` of `deleteItem`. */
  function DropLiabilities(ls: seq<Liability>, id: string): (r: seq<Liability>)
    ensures Subsequence(r, ls)
    ensures forall l :: l in r <==> l in ls && l.id != id
    ensures forall l :: multiset(r)[l] == if l.id != id then multiset(ls)[l] else 0
    ensures (forall l :: l in ls ==> l.id != id) ==> r == ls
  {
    Filter(ls, LiabilityLacksId(id))
  }

  /** `deleteItem`: drop every record of the given kind that has the id; a
      transaction delete also undoes the first such transaction's effect on the balance. */
  function DeleteItem(s: FinancialState, kind: ItemKind, id: string): (r: FinancialState)
    ensures kind == TransactionItem ==>
      && Subsequence(r.transactions, s.transactions)
      && (forall t :: t in r.transactions <==> t in s.transactions && t.id != id)
      && (forall t :: multiset(r.transactions)[t] == if t.id != id then multiset(s.transactions)[t] else 0)
      && (forall i :: 0 <= i < |s.transactions| && s.transactions[i].id == id &&
                      (forall j :: 0 <= j < i ==> s.transactions[j].id != id) ==>
            r.bankBalance == s.bankBalance - SignedAmount(s.transactions[i]))
      && r.(transactions := s.transactions, bankBalance := s.bankBalance) == s
    ensures kind == GoalItem ==>
      && Subsequence(r.goals, s.goals)
      && (forall g :: g in r.goals <==> g in s.goals && g.id != id)
      && (forall g :: multiset(r.goals)[g] == if g.id != id then multiset(s.goals)[g] else 0)
      && r.(goals := s.goals) == s
    ensures kind == LiabilityItem ==>
      && Subsequence(r.liabilities, s.liabilities)
      && (forall l :: l in r.liabilities <==> l in s.liabilities && l.id != id)
      && (forall l :: multiset(r.liabilities)[l] == if l.id != id then multiset(s.liabilities)[l] else 0)
      && r.(liabilities := s.liabilities) == s
    ensures kind == TransactionItem && (forall t :: t in s.transactions ==> t.id != id) ==> r == s
    ensures kind == GoalItem && (forall g :: g in s.goals ==> g.id != id) ==> r == s
    ensures kind == LiabilityItem && (forall l :: l in s.liabilities ==> l.id != id) ==> r == s
  {
    match kind
    case TransactionItem =>
      s.(transactions := DropTransactions(s.transactions, id), bankBalance := BalanceAfterDelete(s, id))
    case GoalItem => s.(goals := DropGoals(s.goals, id))
    case LiabilityItem => s.(liabilities := DropLiabilities(s.liabilities, id))
  }
}
