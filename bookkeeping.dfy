/** The balance invariant of the store (App.tsx:55, 84, 115-117): starting from
    the seed and never using the manual balance override, the bank balance is
    the signed sum of the surviving transactions, provided transaction ids are
    unique (the source relies on `Date.now()` for that). */
module Bookkeeping {
  import opened Wrappers
  import opened Lists
  import opened Types
  import opened Store

  /** No two transactions share an id. */
  predicate UniqueIds(ts: seq<Transaction>)
  {
    ts == [] || ((forall t :: t in ts[1..] ==> t.id != ts[0].id) && UniqueIds(ts[1..]))
  }

  /** The balance is explained by the transactions, and their ids are unique. */
  predicate Balanced(s: FinancialState)
  {
    s.bankBalance == Ledger(s.transactions) && UniqueIds(s.transactions)
  }

  /** Every store operation except `updateBankBalance`, with its fresh id and date. */
  datatype Op =
    | AddTransactionOp(draft: TransactionDraft, freshId: string)
    | RecordDebtPaymentOp(liabilityId: string, amount: real, freshId: string, today: Date)
    | AddGoalOp(goal: GoalDraft, freshId: string)
    | AddLiabilityOp(liability: LiabilityDraft, freshId: string)
    | UpdateSettingsOp(installment: real, fatherSupport: real)
    | DeleteItemOp(kind: ItemKind, id: string)

  function Apply(s: FinancialState, op: Op): FinancialState
  {
    match op
    case AddTransactionOp(d, id) => AddTransaction(s, d, id)
    case RecordDebtPaymentOp(l, a, id, today) => RecordDebtPayment(s, l, a, id, today)
    case AddGoalOp(g, id) => AddGoal(s, g, id)
    case AddLiabilityOp(l, id) => AddLiability(s, l, id)
    case UpdateSettingsOp(i, f) => UpdateSettings(s, i, f)
    case DeleteItemOp(k, id) => DeleteItem(s, k, id)
  }

  /** The operations applied one after another, as successive `setState` updates. */
  function Run(s: FinancialState, ops: seq<Op>): FinancialState
    decreases |ops|
  {
    if ops == [] then s else Run(Apply(s, ops[0]), ops[1..])
  }

  /** An operation that creates a transaction uses an id no current transaction has. */
  predicate FreshFor(s: FinancialState, op: Op)
  {
    (op.AddTransactionOp? || op.RecordDebtPaymentOp?) ==>
      forall t :: t in s.transactions ==> t.id != op.freshId
  }

  predicate FreshAlong(s: FinancialState, ops: seq<Op>)
    decreases |ops|
  {
    ops == [] || (FreshFor(s, ops[0]) && FreshAlong(Apply(s, ops[0]), ops[1..]))
  }

  /** Filtering out one id keeps the remaining ids unique. */
  lemma {:induction false} UniqueIdsFilter(ts: seq<Transaction>, id: string)
    requires UniqueIds(ts)
    ensures UniqueIds(Filter(ts, TransactionLacksId(id)))
  {
    if ts != [] {
      UniqueIdsFilter(ts[1..], id);
    }
  }

  /** With unique ids, removing id `id` takes out exactly the transaction `find` returns. */
  lemma {:induction false} DeleteUndoesFound(ts: seq<Transaction>, id: string)
    requires UniqueIds(ts)
    ensures Ledger(Filter(ts, TransactionLacksId(id))) ==
      match Find(ts, TransactionHasId(id))
      case Some(t) => Ledger(ts) - SignedAmount(t)
      case None => Ledger(ts)
  {
    if ts != [] {
      if ts[0].id == id {
        assert forall t :: t in ts[1..] ==> TransactionLacksId(id)(t);
        assert Filter(ts, TransactionLacksId(id)) == ts[1..];
      } else {
        DeleteUndoesFound(ts[1..], id);
        var f := Filter(ts[1..], TransactionLacksId(id));
        assert ([ts[0]] + f)[1..] == f;
      }
    }
  }

  lemma DeleteKeepsBalanced(s: FinancialState, kind: ItemKind, id: string)
    requires Balanced(s)
    ensures Balanced(DeleteItem(s, kind, id))
  {
    if kind == TransactionItem {
      DeleteUndoesFound(s.transactions, id);
      UniqueIdsFilter(s.transactions, id);
    }
  }

  /** One operation with a fresh id keeps the state balanced. */
  lemma ApplyKeepsBalanced(s: FinancialState, op: Op)
    requires Balanced(s) && FreshFor(s, op)
    ensures Balanced(Apply(s, op))
  {
    match op
    case AddTransactionOp(d, id) =>
      var r := AddTransaction(s, d, id);
      assert r.transactions[1..] == s.transactions;
    case RecordDebtPaymentOp(l, a, id, today) =>
      var r := RecordDebtPayment(s, l, a, id, today);
      assert r.transactions == [r.transactions[0]] + s.transactions;
    case DeleteItemOp(k, id) => DeleteKeepsBalanced(s, k, id);
    case _ =>
  }

  /** Any run of operations with fresh ids keeps the state balanced. */
  lemma {:induction false} RunKeepsBalanced(s: FinancialState, ops: seq<Op>)
    requires Balanced(s) && FreshAlong(s, ops)
    ensures Balanced(Run(s, ops))
    decreases |ops|
  {
    if ops != [] {
      ApplyKeepsBalanced(s, ops[0]);
      RunKeepsBalanced(Apply(s, ops[0]), ops[1..]);
    }
  }

  /** From the seed, the bank balance always equals the signed sum of the current transactions. */
  lemma SeedRunIsBalanced(ops: seq<Op>)
    requires FreshAlong(Seed(), ops)
    ensures Run(Seed(), ops).bankBalance == Ledger(Run(Seed(), ops).transactions)
  {
    RunKeepsBalanced(Seed(), ops);
  }

  /** Adding a transaction with a fresh id and deleting it again restores the state exactly. */
  lemma AddThenDeleteRestores(s: FinancialState, t: TransactionDraft, freshId: string)
    requires forall x :: x in s.transactions ==> x.id != freshId
    ensures DeleteItem(AddTransaction(s, t, freshId), TransactionItem, freshId) == s
  {
    var a := AddTransaction(s, t, freshId);
    assert Filter(a.transactions, TransactionLacksId(freshId)) == s.transactions by {
      assert forall x :: x in s.transactions ==> TransactionLacksId(freshId)(x);
      assert Filter(s.transactions, TransactionLacksId(freshId)) == s.transactions;
    }
  }

  /** Two income transactions sharing the id "1", with a balance they explain. */
  function DuplicateIdState(): FinancialState
  {
    var t := Transaction("1", Income, 10.0, "", Date(2024, 1, 1), "");
    FinancialState(20.0, 0.0, 0.0, [t, t], [], [])
  }

  /** Why the invariant needs unique ids: deleting a shared id removes both
      transactions but reverses only the first one's effect. */
  lemma DuplicateIdsBreakBalance()
    ensures DuplicateIdState().bankBalance == Ledger(DuplicateIdState().transactions)
    ensures var r := DeleteItem(DuplicateIdState(), TransactionItem, "1");
      r.bankBalance == 10.0 && r.transactions == [] && Ledger(r.transactions) == 0.0
  {
    var s := DuplicateIdState();
    assert s.transactions[1..] == [s.transactions[1]];
  }
}
