/** The planning view (views/Planning.tsx): months left to a goal's deadline,
    the monthly saving it needs, the verdicts the view shows against the
    monthly savings capacity, the progress percentage, and the new-goal form.
    The clock is a parameter: `(nowYear, nowMonth)` is the current calendar
    month, months numbered 1 to 12. */
module Planning {
  import opened Wrappers
  import opened Types

  // ---------------------------------------------------------------------------
  // Months to the deadline
  // ---------------------------------------------------------------------------

  /** `(targetYear - nowYear) * 12 - nowMonth + targetMonth`: the calendar
      distance in months, ignoring the day. */
  function MonthSpan(nowYear: nat, nowMonth: nat, target: Date): int
  {
    (target.year - nowYear) * 12 - nowMonth + target.month
  }

  /** The month `k` months after `(year, month)`. */
  function AddMonths(year: nat, month: nat, k: nat): (r: (nat, nat))
    requires 1 <= month <= 12
    ensures 1 <= r.1 <= 12
  {
    var t := year * 12 + (month - 1) + k;
    (t / 12, t % 12 + 1)
  }

  /** The span is the number of months to step from now to the deadline's
      month: stepping that many months lands on it. */
  lemma MonthSpanReachesDeadline(nowYear: nat, nowMonth: nat, target: Date)
    requires 1 <= nowMonth <= 12 && 1 <= target.month <= 12
    requires MonthSpan(nowYear, nowMonth, target) >= 0
    ensures AddMonths(nowYear, nowMonth, MonthSpan(nowYear, nowMonth, target) as nat) == (target.year, target.month)
  {
    var t := nowYear * 12 + (nowMonth - 1) + MonthSpan(nowYear, nowMonth, target);
    assert t == target.year * 12 + (target.month - 1);
  }

  /** `Math.max(1, months)`: the months left, never fewer than one. */
  function MonthsUntil(nowYear: nat, nowMonth: nat, target: Date): (m: int)
    ensures m >= 1
    ensures m >= MonthSpan(nowYear, nowMonth, target)
    ensures m == MonthSpan(nowYear, nowMonth, target) || m == 1
  {
    var months := MonthSpan(nowYear, nowMonth, target);
    if months > 1 then months else 1
  }

  /** `remaining / months`: the saving per month that closes the gap in time. */
  function RequiredMonthly(remaining: real, months: int): (r: real)
    requires months >= 1
    ensures r * months as real == remaining
  {
    remaining / months as real
  }

  // ---------------------------------------------------------------------------
  // The verdicts
  // ---------------------------------------------------------------------------

  /** What the add-goal simulation says. */
  datatype Preview = Covered | Shortfall(gap: real)

  /** The simulation while adding a goal: covered when the capacity reaches the
      required saving, otherwise short by the difference. */
  function PreviewVerdict(surplus: real, required: real): (v: Preview)
    ensures v.Covered? <==> surplus >= required
    ensures v.Shortfall? ==> v.gap > 0.0 && surplus + v.gap == required
  {
    if surplus >= required then Covered else Shortfall(required - surplus)
  }

  /** A covered goal is reached in time by saving the capacity every month; a
      short one is not, and the gap per month is exactly what is missing. */
  lemma PreviewMeaning(remaining: real, months: int, surplus: real)
    requires months >= 1
    ensures var v := PreviewVerdict(surplus, RequiredMonthly(remaining, months));
            (v.Covered? <==> surplus * months as real >= remaining) &&
            (v.Shortfall? ==> (surplus + v.gap) * months as real == remaining)
  {
    var m := months as real;
    var req := RequiredMonthly(remaining, months);
    assert surplus >= req <==> surplus * m >= req * m;
  }

  /** What a goal with a deadline shows in the list. */
  datatype DeadlineFeedback = OnTrack | Behind(gap: real) | NoSavings

  /** The list's verdict: no savings at all, on track, or behind by `|diff|`. */
  function DeadlineVerdict(surplus: real, required: real): (f: DeadlineFeedback)
    ensures f.NoSavings? <==> surplus <= 0.0
    ensures f.OnTrack? <==> surplus > 0.0 && surplus >= required
    ensures f.Behind? ==> f.gap > 0.0 && surplus + f.gap == required
  {
    var diff := surplus - required;
    if surplus > 0.0 then
      if diff >= 0.0 then OnTrack else Behind(if diff < 0.0 then -diff else diff)
    else NoSavings
  }

  /** With a positive capacity the list and the simulation agree, gap included. */
  lemma VerdictsAgreeWithSavings(surplus: real, required: real)
    requires surplus > 0.0
    ensures PreviewVerdict(surplus, required).Covered? <==> DeadlineVerdict(surplus, required).OnTrack?
    ensures PreviewVerdict(surplus, required).Shortfall? ==>
              DeadlineVerdict(surplus, required) == Behind(PreviewVerdict(surplus, required).gap)
  {
  }

  /** With no capacity they part: a goal that needs nothing more (already
      reached) is "covered" in the simulation but "no savings" in the list. */
  lemma VerdictsDifferAtZero(required: real)
    requires required <= 0.0
    ensures PreviewVerdict(0.0, required) == Covered
    ensures DeadlineVerdict(0.0, required) == NoSavings
  {
  }

  /** `Math.ceil(x)`. */
  function Ceil(x: real): (n: int)
    ensures n as real >= x && (n - 1) as real < x
  {
    -((-x).Floor)
  }

  /** What a goal without a deadline shows: a forecast in months, or a call to
      save more when there is no capacity. (The view's "Indefinido" text is
      reached only with no capacity, where it is not shown.) */
  datatype Forecast = InMonths(months: int) | RaiseSavings

  function NoDeadlineForecast(remaining: real, surplus: real): (f: Forecast)
    ensures f.RaiseSavings? <==> surplus <= 0.0
  {
    if surplus > 0.0 then InMonths(Ceil(remaining / surplus)) else RaiseSavings
  }

  /** The forecast is the least whole number of months of saving the capacity
      that gathers what is missing. */
  lemma ForecastIsLeastMonths(remaining: real, surplus: real)
    requires surplus > 0.0
    ensures var n := NoDeadlineForecast(remaining, surplus).months;
            n as real * surplus >= remaining && (n - 1) as real * surplus < remaining
  {
    var x := remaining / surplus;
    var n := Ceil(x);
    assert NoDeadlineForecast(remaining, surplus) == InMonths(n);
    QuotientTimesDivisor(remaining, surplus);
    ScaleKeepsOrder(n as real, x, surplus);
    ScaleKeepsStrictOrder(x, (n - 1) as real, surplus);
    assert (n - 1) as real * surplus < remaining;
  }

  lemma QuotientTimesDivisor(a: real, b: real)
    requires b != 0.0
    ensures (a / b) * b == a
  {
  }

  lemma ScaleKeepsOrder(a: real, b: real, c: real)
    requires a >= b && c > 0.0
    ensures a * c >= b * c
  {
    assert a * c - b * c == (a - b) * c;
  }

  lemma ScaleKeepsStrictOrder(a: real, b: real, c: real)
    requires a > b && c > 0.0
    ensures a * c > b * c
  {
    assert a * c - b * c == (a - b) * c;
  }

  /** What the list shows under a goal. */
  datatype GoalFeedback =
    | WithDeadline(months: int, required: real, verdict: DeadlineFeedback)
    | WithoutDeadline(forecast: Forecast)

  function FeedbackFor(g: Goal, nowYear: nat, nowMonth: nat, surplus: real): (f: GoalFeedback)
    ensures g.deadline.Some? <==> f.WithDeadline?
    ensures f.WithDeadline? ==>
              (f.months >= 1 && f.required * f.months as real == g.targetAmount - g.currentAmount)
    ensures f.WithDeadline? ==>
              f.months == MonthsUntil(nowYear, nowMonth, g.deadline.value) &&
              f.verdict == DeadlineVerdict(surplus, f.required)
    ensures f.WithoutDeadline? ==>
              f.forecast == NoDeadlineForecast(g.targetAmount - g.currentAmount, surplus)
  {
    var remaining := g.targetAmount - g.currentAmount;
    match g.deadline
    case Some(d) =>
      var months := MonthsUntil(nowYear, nowMonth, d);
      var required := RequiredMonthly(remaining, months);
      WithDeadline(months, required, DeadlineVerdict(surplus, required))
    case None =>
      WithoutDeadline(NoDeadlineForecast(remaining, surplus))
  }

  // ---------------------------------------------------------------------------
  // Progress
  // ---------------------------------------------------------------------------

  /** `Math.round`: halves go up. */
  function Round(x: real): (n: int)
    ensures x - 0.5 < n as real <= x + 0.5
  {
    (x + 0.5).Floor
  }

  /** `Math.min(100, Math.round(current / target * 100))`. With a zero target
      the quotient is infinite or not a number: an infinite positive value is
      capped to 100, anything else has no percentage (`None`). */
  function Percentage(current: real, target: real): (p: Option<int>)
    ensures p.Some? ==> p.value <= 100
    ensures target != 0.0 ==> p.Some?
    ensures target == 0.0 ==> (p.Some? <==> current > 0.0)
    ensures target == 0.0 && current > 0.0 ==> p == Some(100)
    ensures target != 0.0 ==>
              var n := Round(current / target * 100.0);
              p == Some(if n < 100 then n else 100)
  {
    if target == 0.0 then
      if current > 0.0 then Some(100) else None
    else
      var r := Round(current / target * 100.0);
      Some(if r < 100 then r else 100)
  }

  /** Halves round up: 1 saved of 40 is 2.5%, shown as 3%. */
  lemma PercentageRoundsHalfUp()
    ensures Percentage(1.0, 40.0) == Some(3)
  {
    assert 1.0 / 40.0 * 100.0 == 2.5;
  }

  /** A goal whose saved amount reaches a positive target shows 100%. */
  lemma PercentageFullWhenReached(current: real, target: real)
    requires target > 0.0 && current >= target
    ensures Percentage(current, target) == Some(100)
  {
    var x := current / target;
    assert x * target == current;
    assert x >= 1.0;
  }

  /** Otherwise the percentage is the nearest whole percent of progress, and
      never negative for a non-negative saved amount. */
  lemma PercentageIsNearest(current: real, target: real)
    requires target > 0.0 && 0.0 <= current < target
    ensures Percentage(current, target).Some?
    ensures var p := Percentage(current, target).value as real;
            0.0 <= p && p - 0.5 <= current / target * 100.0 <= p + 0.5
  {
    var x := current / target;
    assert x * target == current;
    if x >= 1.0 {
      assert false;
    }
  }

  // ---------------------------------------------------------------------------
  // The new-goal form
  // ---------------------------------------------------------------------------

  /** What the add-goal simulation shows: the gap, the months, the saving per
      month and the verdict. */
  datatype Simulation = Simulation(remaining: real, months: int, requiredMonthly: real, verdict: Preview)

  /** The add-goal screen: whether it is open and what was typed. A number
      field holds `None` while empty. */
  class GoalForm {
    var isAdding: bool
    var name: string
    var amount: Option<real>
    var current: Option<real>
    var deadline: Option<Date>

    constructor ()
      ensures !isAdding && name == [] && amount == None && current == None && deadline == None
    {
      isAdding := false;
      name := [];
      amount := None;
      current := None;
      deadline := None;
    }

    method Open()
      modifies this
      ensures isAdding
      ensures name == old(name) && amount == old(amount) && current == old(current) && deadline == old(deadline)
    {
      isAdding := true;
    }

    /** "Cancelar": closes the screen and keeps what was typed. */
    method Cancel()
      modifies this
      ensures !isAdding
      ensures name == old(name) && amount == old(amount) && current == old(current) && deadline == old(deadline)
    {
      isAdding := false;
    }

    method SetFields(name: string, amount: Option<real>, current: Option<real>, deadline: Option<Date>)
      modifies this
      ensures this.name == name && this.amount == amount && this.current == current && this.deadline == deadline
      ensures isAdding == old(isAdding)
    {
      this.name := name;
      this.amount := amount;
      this.current := current;
      this.deadline := deadline;
    }

    /** The simulation, shown once an amount and a deadline are filled in. */
    function Simulate(nowYear: nat, nowMonth: nat, surplus: real): (s: Option<Simulation>)
      reads this
      ensures s.Some? <==> amount.Some? && deadline.Some?
      ensures s.Some? ==>
                (s.value.months >= 1 &&
                 s.value.remaining == amount.value - current.GetOr(0.0) &&
                 s.value.requiredMonthly * s.value.months as real == s.value.remaining &&
                 s.value.verdict == PreviewVerdict(surplus, s.value.requiredMonthly))
      ensures s.Some? ==> s.value.months == MonthsUntil(nowYear, nowMonth, deadline.value)
    {
      if amount.Some? && deadline.Some? then
        var remaining := amount.value - current.GetOr(0.0);
        var months := MonthsUntil(nowYear, nowMonth, deadline.value);
        var required := RequiredMonthly(remaining, months);
        Some(Simulation(remaining, months, required, PreviewVerdict(surplus, required)))
      else None
    }

    /** "Salvar": with a name and an amount, builds the goal (an empty saved
        amount counts as zero, the icon is "Target"), closes the screen and
        clears the form; otherwise nothing happens. */
    method Save(id: string) returns (g: Option<Goal>)
      modifies this
      ensures old(name) != [] && old(amount).Some? ==>
                g == Some(Goal(id, old(name), old(amount).value, old(current).GetOr(0.0), old(deadline), "Target")) &&
                !isAdding && name == [] && amount == None && current == None && deadline == None
      ensures !(old(name) != [] && old(amount).Some?) ==>
                g == None && isAdding == old(isAdding) && name == old(name) && amount == old(amount) &&
                current == old(current) && deadline == old(deadline)
    {
      if name != [] && amount.Some? {
        g := Some(Goal(id, name, amount.value, current.GetOr(0.0), deadline, "Target"));
        isAdding := false;
        name := [];
        amount := None;
        current := None;
        deadline := None;
      } else {
        g := None;
      }
    }
  }
}
