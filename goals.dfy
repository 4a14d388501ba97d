/**
 * The calculators of the Goal Management hub: progress towards a savings goal,
 * the projected time to reach it, the emergency-fund calculator and the four
 * figures of the "Goal Overview" card. Amounts are JavaScript numbers, modelled
 * as exact reals.
 */
module Goals {
  import opened Seqs

  datatype GoalKind = Emergency | Savings | Debt
  datatype Priority = High | Medium | Low
  datatype GoalStatus = Active | Completed | Paused

  datatype Goal = Goal(
    id: string,
    kind: GoalKind,
    title: string,
    targetAmount: real,
    currentAmount: real,
    targetDate: string,
    priority: Priority,
    status: GoalStatus)

  /** The goals the hub starts with (and, since nothing adds to the list, always shows). */
  const SampleGoals: seq<Goal> := [
    Goal("1", Emergency, "Emergency Fund", 12500.0, 8500.0, "2024-12-31", High, Active),
    Goal("2", Savings, "Vacation Fund", 5000.0, 2800.0, "2024-06-15", Medium, Active),
    Goal("3", Savings, "House Down Payment", 50000.0, 18500.0, "2025-06-01", High, Active)
  ]

  // ---------------------------------------------------------------- progress

  function Min(a: real, b: real): real { if a <= b then a else b }

  /**
   * Percentage of the target already saved, capped at 100 from above only: a
   * negative balance gives a negative percentage. The division is unguarded in
   * the source, so the target must not be 0.
   */
  function ProgressPercentage(current: real, target: real): (r: real)
    requires target != 0.0
    ensures r <= 100.0
    ensures target > 0.0 ==> (r == 100.0 <==> current >= target)
    ensures target > 0.0 && current <= target ==> r * target == current * 100.0
    ensures target > 0.0 && current < 0.0 ==> r < 0.0
  {
    var ratio := current / target * 100.0;
    assert target > 0.0 ==> (ratio >= 100.0 <==> current >= target) by {
      if target > 0.0 {
        assert ratio * target == current * 100.0;
      }
    }
    Min(ratio, 100.0)
  }

  /** For a fixed positive target, saving more never lowers the progress shown. */
  lemma ProgressMonotone(c1: real, c2: real, target: real)
    requires target > 0.0 && c1 <= c2
    ensures ProgressPercentage(c1, target) <= ProgressPercentage(c2, target)
  {
    assert c1 / target <= c2 / target by {
      assert c2 / target - c1 / target == (c2 - c1) / target;
    }
  }

  // ---------------------------------------------------------- time to goal

  /** The three shapes of the time-to-goal label: "Goal reached!", "<n> months", "<y>y <m>m". */
  datatype TimeToGoal = Reached | Months(months: nat) | YearsMonths(years: nat, months: nat)

  /** The monthly contribution assumed when the caller gives none. */
  const DefaultContribution: real := 300.0

  /** The number of months a label stands for. */
  function TotalMonths(t: TimeToGoal): nat
  {
    match t
    case Reached => 0
    case Months(n) => n
    case YearsMonths(y, m) => 12 * y + m
  }

  /** Math.ceil on a real. */
  function Ceil(x: real): (n: int)
    ensures n as real - 1.0 < x <= n as real
  {
    -((-x).Floor)
  }

  lemma MulLess(a: real, b: real, c: real)
    requires a < b && c > 0.0
    ensures a * c < b * c
  {
    assert b * c - a * c == (b - a) * c;
  }

  lemma MulAtMost(a: real, b: real, c: real)
    requires a <= b && c > 0.0
    ensures a * c <= b * c
  {
    assert b * c - a * c == (b - a) * c;
  }

  /**
   * Time to reach `target` from `current` paying `contribution` a month: reached
   * when already at or above the target; otherwise the smallest whole number of
   * months whose contributions cover the rest, shown as months up to 12 and as
   * years and months beyond.
   */
  function GetTimeToGoal(current: real, target: real, contribution: real): (r: TimeToGoal)
    requires contribution > 0.0
    ensures r == Reached <==> current >= target
    ensures r != Reached ==>
      TotalMonths(r) >= 1 &&
      (TotalMonths(r) - 1) as real * contribution < target - current <= TotalMonths(r) as real * contribution
    ensures r.Months? <==> r != Reached && TotalMonths(r) <= 12
    ensures r.YearsMonths? ==> r.years >= 1 && r.months < 12
  {
    if current >= target then Reached
    else
      var remaining := target - current;
      var months := Ceil(remaining / contribution);
      assert months >= 1;
      var q := remaining / contribution;
      assert (months - 1) as real * contribution < remaining <= months as real * contribution by {
        assert q * contribution == remaining;
        MulLess((months - 1) as real, q, contribution);
        MulAtMost(q, months as real, contribution);
      }
      if months <= 12 then Months(months)
      else YearsMonths(months / 12, months % 12)
  }

  /** The first sample goal at the default contribution: 4000 left is 14 months, shown "1y 2m". */
  lemma SampleEmergencyGoal()
    ensures ProgressPercentage(8500.0, 12500.0) == 68.0
    ensures GetTimeToGoal(8500.0, 12500.0, DefaultContribution) == YearsMonths(1, 2)
  {
    var r := GetTimeToGoal(8500.0, 12500.0, DefaultContribution);
    assert TotalMonths(r) == 14 by {
      var n := TotalMonths(r);
      assert (n - 1) as real * 300.0 < 4000.0 <= n as real * 300.0;
    }
  }

  // ------------------------------------------------- emergency-fund calculator

  /** The four choices of the "Number of Months" selector. */
  datatype MonthsChoice = Three | Six | Nine | Twelve

  function MonthsValue(c: MonthsChoice): int
  {
    match c
    case Three => 3
    case Six => 6
    case Nine => 9
    case Twelve => 12
  }

  /** What parseFloat made of the text typed into "Monthly Expenses". */
  datatype ParsedNumber = Number(value: real) | NotANumber

  /** The calculator dialog's state record. */
  datatype EmergencyCalculator = EmergencyCalculator(monthlyExpenses: real, months: int, isOpen: bool)

  const InitialCalculator: EmergencyCalculator := EmergencyCalculator(4200.0, 6, false)

  /** The three ways the dialog replaces its state: opening/closing, typing an amount, picking a month count. */
  datatype CalculatorEvent = OpenChanged(open: bool) | ExpensesTyped(parsed: ParsedNumber) | MonthsPicked(choice: MonthsChoice)

  /** `parseFloat(text) || 0`: a failed parse (NaN, which is falsy) becomes 0. */
  function OrZero(p: ParsedNumber): real
  {
    match p
    case NotANumber => 0.0
    case Number(v) => v
  }

  /** One state replacement `{ ...prev, field: value }`: exactly one field changes. */
  function Step(c: EmergencyCalculator, e: CalculatorEvent): (r: EmergencyCalculator)
    ensures r.isOpen == (if e.OpenChanged? then e.open else c.isOpen)
    ensures r.monthlyExpenses == (if e.ExpensesTyped? then OrZero(e.parsed) else c.monthlyExpenses)
    ensures r.months == (if e.MonthsPicked? then MonthsValue(e.choice) else c.months)
  {
    match e
    case OpenChanged(open) => c.(isOpen := open)
    case ExpensesTyped(p) => c.(monthlyExpenses := OrZero(p))
    case MonthsPicked(choice) => c.(months := MonthsValue(choice))
  }

  /** The state after a sequence of events, applied in order. */
  function Run(c: EmergencyCalculator, events: seq<CalculatorEvent>): EmergencyCalculator
  {
    if events == [] then c else Step(Run(c, events[..|events| - 1]), events[|events| - 1])
  }

  predicate OfferedMonths(m: int) { m == 3 || m == 6 || m == 9 || m == 12 }

  /** Whatever the user does in the dialog, the month count stays one the selector offers. */
  lemma {:induction false} RunKeepsOfferedMonths(events: seq<CalculatorEvent>)
    ensures OfferedMonths(Run(InitialCalculator, events).months)
  {
    if events != [] {
      RunKeepsOfferedMonths(events[..|events| - 1]);
    }
  }

  /** The "Recommended Emergency Fund": monthly expenses times the number of months. */
  function RecommendedFund(c: EmergencyCalculator): (r: real)
    ensures c.monthlyExpenses >= 0.0 && c.months >= 0 ==> r >= 0.0
    ensures c.months > 0 ==> (r == 0.0 <==> c.monthlyExpenses == 0.0)
  {
    c.monthlyExpenses * c.months as real
  }

  /** The fund grows in proportion to the number of months: twice the months, twice the fund. */
  lemma FundProportionalToMonths(expenses: real, m: int)
    ensures RecommendedFund(EmergencyCalculator(expenses, 2 * m, false))
         == 2.0 * RecommendedFund(EmergencyCalculator(expenses, m, false))
  {
  }

  /** The dialog's opening state recommends 4200 x 6 = 25200, and a failed parse recommends 0. */
  lemma InitialFund()
    ensures RecommendedFund(InitialCalculator) == 25200.0
    ensures RecommendedFund(Step(InitialCalculator, ExpensesTyped(NotANumber))) == 0.0
  {
  }

  /**
   * Typing into "Monthly Expenses" in any state: text that does not parse as a
   * number shows a fund of 0, and a number `v` shows `v` times the months chosen.
   */
  lemma TypedExpensesFund(c: EmergencyCalculator, v: real)
    ensures RecommendedFund(Step(c, ExpensesTyped(NotANumber))) == 0.0
    ensures RecommendedFund(Step(c, ExpensesTyped(Number(v)))) == v * c.months as real
    ensures Step(c, ExpensesTyped(NotANumber)).months == c.months
  {
  }

  // ------------------------------------------------------------- overview

  predicate IsActive(g: Goal) { g.status == Active }
  function TargetOf(g: Goal): real { g.targetAmount }
  function SavedOf(g: Goal): real { g.currentAmount }
  function OutstandingOf(g: Goal): real { g.targetAmount - g.currentAmount }

  /** "Active Goals": how many goals have status active. */
  function ActiveGoals(goals: seq<Goal>): (r: nat)
    ensures r <= |goals|
    ensures r == |goals| <==> forall g :: g in goals ==> g.status == Active
  {
    FilterKeepsAll(goals, IsActive);
    |Filter(goals, IsActive)|
  }

  /** "Total Target": the sum of target amounts. */
  function TotalTarget(goals: seq<Goal>): (r: real)
    ensures (forall g :: g in goals ==> g.targetAmount >= 0.0) ==> r >= 0.0
  {
    SumOf(goals, TargetOf)
  }

  /** "Total Saved": the sum of current amounts. */
  function TotalSaved(goals: seq<Goal>): (r: real)
    ensures (forall g :: g in goals ==> g.currentAmount >= 0.0) ==> r >= 0.0
  {
    SumOf(goals, SavedOf)
  }

  /** "Remaining": the sum of target minus current, one goal at a time. */
  function Remaining(goals: seq<Goal>): real
  {
    SumOf(goals, OutstandingOf)
  }

  /**
   * Remaining is Total Target minus Total Saved; it goes negative exactly when
   * more has been saved than targeted (no goal is clamped at its target).
   */
  lemma RemainingIsTargetMinusSaved(goals: seq<Goal>)
    ensures Remaining(goals) == TotalTarget(goals) - TotalSaved(goals)
    ensures Remaining(goals) < 0.0 <==> TotalSaved(goals) > TotalTarget(goals)
  {
    SumOfAdd(goals, OutstandingOf, SavedOf, TargetOf);
  }

  /** A goal saved past its target alone makes Remaining negative. */
  lemma OvershootMakesRemainingNegative(g: Goal)
    requires g.currentAmount > g.targetAmount
    ensures Remaining([g]) < 0.0
  {
    assert [g][..0] == [];
    assert SumOf([g], OutstandingOf) == SumOf([], OutstandingOf) + OutstandingOf(g);
  }

  /** The Overview card over the sample goals: 3 active, 67500 targeted, 29800 saved, 37700 to go. */
  lemma SampleOverview()
    ensures ActiveGoals(SampleGoals) == 3
    ensures TotalTarget(SampleGoals) == 67500.0
    ensures TotalSaved(SampleGoals) == 29800.0
    ensures Remaining(SampleGoals) == 37700.0
  {
    var s := SampleGoals;
    assert s[..2][..1] == s[..1] && s[..1][..0] == [];
    assert s[..|s| - 1] == s[..2] && s[..2][..|s[..2]| - 1] == s[..1] && s[..1][..|s[..1]| - 1] == [];
    assert SumOf(s[..1], TargetOf) == 12500.0;
    assert SumOf(s[..2], TargetOf) == 17500.0;
    assert SumOf(s[..1], SavedOf) == 8500.0;
    assert SumOf(s[..2], SavedOf) == 11300.0;
    FilterKeepsAll(s, IsActive);
    RemainingIsTargetMinusSaved(s);
  }
}
