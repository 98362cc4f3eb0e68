/** The goals page (components/GoalSection.tsx): the short-term/long-term split
    and each card's progress, shown unclamped as text and clamped as a bar. */
module Goals {
  import opened Lists
  import opened Ratio
  import opened Types
  import opened Store

  predicate IsShortTerm(g: Goal) { g.kind == ShortTerm }
  predicate IsLongTerm(g: Goal) { g.kind == LongTerm }

  /** The short-term section: the short-term goals, in their order. */
  function ShortTermGoals(goals: seq<Goal>): (r: seq<Goal>)
    ensures Subsequence(r, goals)
    ensures forall g :: g in r <==> g in goals && g.kind == ShortTerm
    ensures forall g :: multiset(r)[g] == if g.kind == ShortTerm then multiset(goals)[g] else 0
  {
    Filter(goals, IsShortTerm)
  }

  /** The long-term section: the long-term goals, in their order. */
  function LongTermGoals(goals: seq<Goal>): (r: seq<Goal>)
    ensures Subsequence(r, goals)
    ensures forall g :: g in r <==> g in goals && g.kind == LongTerm
    ensures forall g :: multiset(r)[g] == if g.kind == LongTerm then multiset(goals)[g] else 0
  {
    Filter(goals, IsLongTerm)
  }

  /** The two sections partition the goals: each goal is shown in exactly one,
      and no goal is lost or shown twice. */
  lemma GoalSectionsPartition(goals: seq<Goal>)
    ensures forall g :: g in goals ==> (g in ShortTermGoals(goals) <==> g !in LongTermGoals(goals))
    ensures multiset(ShortTermGoals(goals)) + multiset(LongTermGoals(goals)) == multiset(goals)
    ensures |ShortTermGoals(goals)| + |LongTermGoals(goals)| == |goals|
  {
    FilterPartition(goals, IsShortTerm, IsLongTerm);
  }

  /** The card's text percentage, `currentAmount / targetAmount * 100`, not clamped. */
  function GoalProgress(g: Goal): (r: Quotient)
    ensures g.targetAmount > 0.0 ==> r.Finite? && (r.value > 100.0 <==> g.currentAmount > g.targetAmount)
    ensures g.targetAmount > 0.0 ==> (r.value >= 0.0 <==> g.currentAmount >= 0.0)
    ensures g.targetAmount == 0.0 && g.currentAmount > 0.0 ==> r.PosInfinity?
  {
    Percent(g.currentAmount, g.targetAmount)
  }

  /** The width of the card's bar, `Math.min(progress, 100)`; the dashboard's
      goal tiles show the same clamped figure. */
  function GoalBarWidth(g: Goal): (r: Quotient)
    ensures r.Finite? ==> r.value <= 100.0
    ensures GoalProgress(g).Finite? && GoalProgress(g).value <= 100.0 ==> r == GoalProgress(g)
    ensures g.targetAmount > 0.0 && g.currentAmount > g.targetAmount ==> r == Finite(100.0)
    ensures g.targetAmount > 0.0 && g.currentAmount >= 0.0 ==> r.Finite? && 0.0 <= r.value <= 100.0
  {
    AtMost100(GoalProgress(g))
  }

  /** An over-funded goal reads above 100% in text while its bar stops at 100%. */
  lemma OverfundedGoalExample()
    ensures var g := Goal("g", "", 100.0, 150.0, Date(2025, 1, 1), ShortTerm);
      GoalProgress(g) == Finite(150.0) && GoalBarWidth(g) == Finite(100.0)
  {
  }

  /** With a zero target, the text reads +∞, −∞ or NaN by the sign of the
      current amount; the bar shows 100 for +∞ and passes the other two through. */
  lemma ZeroTargetGoalExample()
    ensures var up := Goal("g", "", 0.0, 10.0, Date(2025, 1, 1), ShortTerm);
      GoalProgress(up) == PosInfinity && GoalBarWidth(up) == Finite(100.0)
    ensures var down := Goal("g", "", 0.0, -10.0, Date(2025, 1, 1), ShortTerm);
      GoalProgress(down) == NegInfinity && GoalBarWidth(down) == NegInfinity
    ensures var none := Goal("g", "", 0.0, 0.0, Date(2025, 1, 1), ShortTerm);
      GoalProgress(none) == NaN && GoalBarWidth(none) == NaN
  {
  }

  /** A card's delete button deletes that goal by its own id, through `deleteItem('goal', id)`. */
  function DeleteFromCard(s: FinancialState, g: Goal): (r: FinancialState)
    ensures g !in r.goals && forall x :: x in r.goals ==> x.id != g.id
    ensures forall x :: x in s.goals && x.id != g.id ==> x in r.goals
    ensures r.bankBalance == s.bankBalance && r.transactions == s.transactions
    ensures r.liabilities == s.liabilities
    ensures r.(goals := s.goals) == s
    ensures Subsequence(r.goals, s.goals)
    ensures forall x :: multiset(r.goals)[x] == if x.id == g.id then 0 else multiset(s.goals)[x]
  {
    DeleteItem(s, GoalItem, g.id)
  }
}
