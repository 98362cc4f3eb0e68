/** The figures on the dashboard (components/Dashboard.tsx), recomputed from
    the state on every render. "Now" is given as a (year, month) pair. */
module Dashboard {
  import opened Lists
  import opened Text
  import opened Ratio
  import opened Types
  import opened Store
  import opened Goals

  /** The balance slider's upper end. */
  const SliderMax: real := 2000000.0
  /** The marker that identifies a transfer to the father. */
  const FatherMarker: string := "আব্বু"
  /** Titles that make a liability a special debt whatever its type. */
  const SpecialKeywords: seq<string> := ["তমা", "মামা", "কিস্তি"]

  function Amount(t: Transaction): real { t.amount }

  function IsIncome(t: Transaction): bool { t.kind == Income }
  function IsNotIncome(t: Transaction): bool { t.kind != Income }

  /** The transaction is dated in the given month of the given year. */
  function DatedIn(year: int, month: int): Transaction -> bool
  {
    (t: Transaction) => t.date.year == year && t.date.month == month
  }

  /** `currentMonthTransactions`: this month's transactions, in list order. */
  function CurrentMonthTransactions(ts: seq<Transaction>, year: int, month: int): (r: seq<Transaction>)
    ensures Subsequence(r, ts)
    ensures forall t :: t in r <==> t in ts && t.date.year == year && t.date.month == month
    ensures forall t :: multiset(r)[t] == if t.date.year == year && t.date.month == month then multiset(ts)[t] else 0
  {
    Filter(ts, DatedIn(year, month))
  }

  /** The accumulator of `monthlyStats`. */
  datatype Stats = Stats(income: real, expense: real)

  /** The `reduce` of `monthlyStats`: income amounts go to `income`, every other
      amount to `expense`. */
  function Tally(acc: Stats, ts: seq<Transaction>): (r: Stats)
    ensures r.income == acc.income + Sum(Filter(ts, IsIncome), Amount)
    ensures r.expense == acc.expense + Sum(Filter(ts, IsNotIncome), Amount)
    decreases |ts|
  {
    if ts == [] then acc
    else
      var t := ts[0];
      var next := if t.kind == Income then acc.(income := acc.income + t.amount)
                  else acc.(expense := acc.expense + t.amount);
      assert t.kind == Income ==> Filter(ts, IsIncome)[1..] == Filter(ts[1..], IsIncome);
      assert t.kind != Income ==> Filter(ts, IsNotIncome)[1..] == Filter(ts[1..], IsNotIncome);
      Tally(next, ts[1..])
  }

  /** `monthlyStats` over this month's transactions: the income sum, the expense
      sum, and together every amount of the month. */
  function MonthlyStats(s: FinancialState, year: int, month: int): (st: Stats)
    ensures var m := CurrentMonthTransactions(s.transactions, year, month);
      && st.income == Sum(Filter(m, IsIncome), Amount)
      && st.expense == Sum(Filter(m, IsNotIncome), Amount)
      && st.income + st.expense == Sum(m, Amount)
  {
    var m := CurrentMonthTransactions(s.transactions, year, month);
    SumFilterPartition(m, Amount, IsIncome, IsNotIncome);
    Tally(Stats(0.0, 0.0), m)
  }

  /** The "monthly flow" figure, income minus expense: the month's signed sum. */
  function NetFlow(s: FinancialState, year: int, month: int): (r: real)
    ensures r == Ledger(CurrentMonthTransactions(s.transactions, year, month))
  {
    var st := MonthlyStats(s, year, month);
    LedgerSplits(CurrentMonthTransactions(s.transactions, year, month));
    st.income - st.expense
  }

  /** The signed sum splits into the income sum minus the expense sum. */
  lemma {:induction false} LedgerSplits(ts: seq<Transaction>)
    ensures Ledger(ts) == Sum(Filter(ts, IsIncome), Amount) - Sum(Filter(ts, IsNotIncome), Amount)
  {
    if ts != [] {
      LedgerSplits(ts[1..]);
      if ts[0].kind == Income {
        assert Filter(ts, IsIncome)[1..] == Filter(ts[1..], IsIncome);
      } else {
        assert Filter(ts, IsNotIncome)[1..] == Filter(ts[1..], IsNotIncome);
      }
    }
  }

  /** What is left to pay on one liability; negative once it is overpaid. */
  function Remaining(l: Liability): (r: real)
    ensures r < 0.0 <==> l.paidAmount > l.totalAmount
  {
    l.totalAmount - l.paidAmount
  }

  function TotalAmount(l: Liability): real { l.totalAmount }

  /** `totalRemainingDebt`: never negative while no debt is overpaid, and never
      above the sum of the totals while no payment is negative. */
  function TotalRemainingDebt(ls: seq<Liability>): (r: real)
    ensures (forall i :: 0 <= i < |ls| ==> ls[i].paidAmount <= ls[i].totalAmount) ==> r >= 0.0
    ensures (forall i :: 0 <= i < |ls| ==> ls[i].paidAmount >= 0.0) ==> r <= Sum(ls, TotalAmount)
  {
    if ls == [] then 0.0 else Remaining(ls[0]) + TotalRemainingDebt(ls[1..])
  }

  /** How many liabilities carry the id. */
  function CountId(ls: seq<Liability>, id: string): (n: nat)
    ensures n == 0 <==> forall l :: l in ls ==> l.id != id
    ensures n <= |ls|
  {
    if ls == [] then 0
    else (if ls[0].id == id then 1 else 0) + CountId(ls[1..], id)
  }

  /** A payment against an id no liability has leaves the remaining debt as it was;
      against an id exactly one liability has, it lowers it by exactly the amount. */
  lemma {:induction false} PaymentLowersRemainingDebt(ls: seq<Liability>, id: string, amount: real)
    ensures CountId(ls, id) == 0 ==> TotalRemainingDebt(PayLiabilities(ls, id, amount)) == TotalRemainingDebt(ls)
    ensures CountId(ls, id) == 1 ==> TotalRemainingDebt(PayLiabilities(ls, id, amount)) == TotalRemainingDebt(ls) - amount
  {
    if ls != [] {
      var rest := PayLiabilities(ls[1..], id, amount);
      var p := PayLiabilities(ls, id, amount);
      PaymentLowersRemainingDebt(ls[1..], id, amount);
      assert p[1..] == rest;
      assert TotalRemainingDebt(p) == Remaining(p[0]) + TotalRemainingDebt(rest);
      if ls[0].id == id {
        assert Remaining(p[0]) == Remaining(ls[0]) - amount;
      } else {
        assert p[0] == ls[0];
      }
    }
  }

  /** `recordDebtPayment` against an id that exactly one liability has lowers the
      remaining debt by exactly the amount paid; against an unknown id it leaves it as it was. */
  lemma RecordDebtPaymentRemainingDebt(s: FinancialState, id: string, amount: real, freshId: string, today: Date)
    ensures var r := RecordDebtPayment(s, id, amount, freshId, today);
      && (CountId(s.liabilities, id) == 1 ==>
            TotalRemainingDebt(r.liabilities) == TotalRemainingDebt(s.liabilities) - amount)
      && (CountId(s.liabilities, id) == 0 ==>
            TotalRemainingDebt(r.liabilities) == TotalRemainingDebt(s.liabilities))
  {
    PaymentLowersRemainingDebt(s.liabilities, id, amount);
  }

  /** Each seeded special debt is the only liability of the seed with its id. */
  lemma SeedIdsUnique()
    ensures CountId(Seed().liabilities, "sd-toma") == 1
    ensures CountId(Seed().liabilities, "sd-mama") == 1
    ensures CountId(Seed().liabilities, "sd-kisti") == 1
  {
    var ls := Seed().liabilities;
    assert ls[1..][1..][1..] == [];
  }

  /** The seed owes 120000 + 70000 + 100000. */
  lemma SeedRemainingDebt()
    ensures TotalRemainingDebt(Seed().liabilities) == 290000.0
  {
    var ls := Seed().liabilities;
    assert ls[1..][1..][1..] == [];
  }

  /** Paying 5000 towards "mama" from the seed: 285000 left, balance -5000, and
      one 5000 expense at the head of the list. */
  lemma SeedPaymentExample(freshId: string, today: Date)
    ensures var r := RecordDebtPayment(Seed(), "sd-mama", 5000.0, freshId, today);
      && TotalRemainingDebt(r.liabilities) == 285000.0
      && r.bankBalance == -5000.0
      && |r.transactions| == 1
      && r.transactions[0].kind == Expense && r.transactions[0].amount == 5000.0
  {
    SeedIdsUnique();
    SeedRemainingDebt();
    RecordDebtPaymentRemainingDebt(Seed(), "sd-mama", 5000.0, freshId, today);
  }

  /** The transaction's category or note mentions the father. */
  predicate MentionsFather(t: Transaction)
  {
    Contains(t.category, FatherMarker) || Contains(t.note, FatherMarker)
  }

  /** `fatherTransfersThisMonth`: part of the month's total, when no amount is negative. */
  function FatherTransfersThisMonth(s: FinancialState, year: int, month: int): (r: real)
    ensures (forall t :: t in s.transactions ==> t.amount >= 0.0) ==>
      0.0 <= r <= Sum(CurrentMonthTransactions(s.transactions, year, month), Amount)
  {
    var m := CurrentMonthTransactions(s.transactions, year, month);
    var r := Sum(Filter(m, MentionsFather), Amount);
    assert (forall t :: t in s.transactions ==> t.amount >= 0.0) ==> 0.0 <= r <= Sum(m, Amount) by {
      if forall t :: t in s.transactions ==> t.amount >= 0.0 {
        assert forall i :: 0 <= i < |m| ==> m[i] in m;
        SumFilterBounds(m, Amount, MentionsFather);
      }
    }
    r
  }

  /** A new transaction raises the father-transfer sum by its amount exactly when it
      is dated this month and mentions the father, and leaves it as it was otherwise. */
  lemma FatherTransfersAfterAdd(s: FinancialState, d: TransactionDraft, freshId: string, year: int, month: int)
    ensures var r := AddTransaction(s, d, freshId);
      var t := d.WithId(freshId);
      FatherTransfersThisMonth(r, year, month) ==
        FatherTransfersThisMonth(s, year, month) +
        (if t.date.year == year && t.date.month == month && MentionsFather(t) then t.amount else 0.0)
  {
    var t := d.WithId(freshId);
    var r := AddTransaction(s, d, freshId);
    assert r.transactions == [t] + s.transactions;
    var m := CurrentMonthTransactions(s.transactions, year, month);
    if DatedIn(year, month)(t) {
      assert CurrentMonthTransactions(r.transactions, year, month) == [t] + m;
      if MentionsFather(t) {
        assert Filter([t] + m, MentionsFather)[1..] == Filter(m, MentionsFather);
      } else {
        assert Filter([t] + m, MentionsFather) == Filter(m, MentionsFather);
      }
    } else {
      assert CurrentMonthTransactions(r.transactions, year, month) == m;
    }
  }

  /** The title contains one of the keywords (`keywords.some(k => title.includes(k))`). */
  function AnyKeyword(title: string, keywords: seq<string>): (r: bool)
    ensures r <==> exists i :: 0 <= i < |keywords| && Contains(title, keywords[i])
  {
    if keywords == [] then false
    else if Contains(title, keywords[0]) then true
    else
      var r := AnyKeyword(title, keywords[1..]);
      assert r ==> exists i :: 0 <= i < |keywords| && Contains(title, keywords[i]) by {
        if r {
          var i :| 0 <= i < |keywords[1..]| && Contains(title, keywords[1..][i]);
          assert Contains(title, keywords[i + 1]);
        }
      }
      assert !r ==> forall i :: 1 <= i < |keywords| ==> !Contains(title, keywords[i]) by {
        if !r {
          forall i | 1 <= i < |keywords| ensures !Contains(title, keywords[i]) {
            assert keywords[1..][i - 1] == keywords[i];
          }
        }
      }
      r
  }

  predicate IsSpecialDebt(l: Liability)
  {
    l.kind == Special || AnyKeyword(l.title, SpecialKeywords)
  }

  /** `specialDebts`: the special liabilities and those whose title names one of the
      three keywords, in list order. */
  function SpecialDebts(ls: seq<Liability>): (r: seq<Liability>)
    ensures Subsequence(r, ls)
    ensures forall l :: l in r <==>
      l in ls && (l.kind == Special || exists i :: 0 <= i < |SpecialKeywords| && Contains(l.title, SpecialKeywords[i]))
    ensures forall l :: multiset(r)[l] == if IsSpecialDebt(l) then multiset(ls)[l] else 0
  {
    Filter(ls, IsSpecialDebt)
  }

  /** All three seeded debts show on the dashboard, in seed order. */
  lemma SeedSpecialDebts()
    ensures SpecialDebts(Seed().liabilities) == Seed().liabilities
  {
  }

  /** A debt card: the clamped progress and the remaining amount. */
  datatype DebtCard = DebtCard(progress: Quotient, remaining: real)

  /** The card of one special debt: `Math.min(paid / total * 100, 100)` and `total - paid`. */
  function DebtCardOf(l: Liability): (c: DebtCard)
    ensures !c.progress.PosInfinity? && (c.progress.Finite? ==> c.progress.value <= 100.0)
    ensures l.totalAmount > 0.0 && l.paidAmount >= 0.0 ==>
      c.progress.Finite? && 0.0 <= c.progress.value <= 100.0
    ensures l.totalAmount > 0.0 && l.paidAmount > l.totalAmount ==> c.progress == Finite(100.0)
    ensures c.remaining < 0.0 <==> l.paidAmount > l.totalAmount
  {
    DebtCard(AtMost100(Percent(l.paidAmount, l.totalAmount)), Remaining(l))
  }

  /** The goal tiles: at most the first four goals, each with its clamped progress. */
  function GoalTiles(goals: seq<Goal>): (r: seq<(Goal, Quotient)>)
    ensures |r| == if |goals| < 4 then |goals| else 4
    ensures forall i :: 0 <= i < |r| ==> r[i].0 == goals[i] && r[i].1 == GoalBarWidth(goals[i])
    ensures forall i :: 0 <= i < |r| && r[i].1.Finite? ==> r[i].1.value <= 100.0
  {
    var shown := if |goals| < 4 then goals else goals[..4];
    seq(|shown|, i requires 0 <= i < |shown| => (shown[i], GoalBarWidth(shown[i])))
  }

  /** The slider's position, `Math.min(bankBalance, 2000000)`. */
  function SliderValue(balance: real): (r: real)
    ensures r <= SliderMax
    ensures r == balance || r == SliderMax
    ensures balance <= SliderMax ==> r == balance
  {
    if balance < SliderMax then balance else SliderMax
  }

  /** Income 1000 then expense 400, both dated this month, from the seed: the
      month shows income 1000, expense 400, flow 600, and the balance is 600. */
  lemma MonthExample(d: Date, id1: string, id2: string)
    ensures var s1 := AddTransaction(Seed(), TransactionDraft(Income, 1000.0, "", d, ""), id1);
      var s2 := AddTransaction(s1, TransactionDraft(Expense, 400.0, "", d, ""), id2);
      var st := MonthlyStats(s2, d.year, d.month);
      st.income == 1000.0 && st.expense == 400.0 && NetFlow(s2, d.year, d.month) == 600.0 && s2.bankBalance == 600.0
  {
    var s1 := AddTransaction(Seed(), TransactionDraft(Income, 1000.0, "", d, ""), id1);
    var s2 := AddTransaction(s1, TransactionDraft(Expense, 400.0, "", d, ""), id2);
    var m := CurrentMonthTransactions(s2.transactions, d.year, d.month);
    assert m == s2.transactions;
    assert m[1..][1..] == [];
  }
}
