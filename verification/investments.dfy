/** The investments view (src/views/Investments.tsx): the compound-interest
    projection of monthly contributions, sampled every three months over five
    years, the projection for a number of years, the total monthly contribution
    and the new-investment form.

    The conversion of an annual percentage into a monthly rate,
    `(1 + a/100)^(1/12) - 1`, is a fractional power: it is the parameter
    `monthlyRate`, applied to each investment's `annualRate`. */
module Investments {
  import opened Wrappers
  import opened Types
  import opened Seqs
  import opened Text

  // ---------------------------------------------------------------------------
  // Compound growth of monthly contributions
  // ---------------------------------------------------------------------------

  /** `x` to the whole power `n`. */
  function Pow(x: real, n: nat): real
  {
    if n == 0 then 1.0 else x * Pow(x, n - 1)
  }

  /** The balance after `m` months of depositing `c` at the end of each month,
      the balance growing by the rate `r` every month. */
  function Balance(c: real, r: real, m: nat): real
  {
    if m == 0 then 0.0 else Balance(c, r, m - 1) * (1.0 + r) + c
  }

  /** The closed form the view uses, with the zero-rate case of
      `calculateProjection`: `c·m` when `r = 0`, else `c·((1+r)^m − 1)/r`. */
  function FutureValue(c: real, r: real, m: nat): real
  {
    if r == 0.0 then c * m as real else c * ((Pow(1.0 + r, m) - 1.0) / r)
  }

  /** The closed form is the balance of the savings plan, month by month. */
  lemma FutureValueIsBalance(c: real, r: real, m: nat)
    ensures FutureValue(c, r, m) == Balance(c, r, m)
  {
    if r == 0.0 {
      BalanceWithoutRate(c, m);
    } else {
      BalanceTimesRate(c, r, m);
      DivideOut(Balance(c, r, m), c, Pow(1.0 + r, m), r);
    }
  }

  lemma {:induction false} BalanceWithoutRate(c: real, m: nat)
    ensures Balance(c, 0.0, m) == c * m as real
  {
    if m > 0 {
      BalanceWithoutRate(c, m - 1);
    }
  }

  /** The savings-plan identity without division: `r · balance = c·((1+r)^m − 1)`. */
  lemma {:induction false} BalanceTimesRate(c: real, r: real, m: nat)
    ensures r * Balance(c, r, m) == c * (Pow(1.0 + r, m) - 1.0)
  {
    if m == 0 {
      assert Balance(c, r, 0) == 0.0 && Pow(1.0 + r, 0) == 1.0;
    } else {
      BalanceTimesRate(c, r, m - 1);
      BalanceTimesRateStep(c, r, m);
    }
  }

  lemma BalanceTimesRateStep(c: real, r: real, m: nat)
    requires m > 0
    requires r * Balance(c, r, m - 1) == c * (Pow(1.0 + r, m - 1) - 1.0)
    ensures r * Balance(c, r, m) == c * (Pow(1.0 + r, m) - 1.0)
  {
    var b, p := Balance(c, r, m - 1), Pow(1.0 + r, m - 1);
    GrowthStep(c, r, b, p, Balance(c, r, m), Pow(1.0 + r, m));
  }

  /** One month of the identity, on plain numbers. */
  lemma GrowthStep(c: real, r: real, b: real, p: real, b': real, p': real)
    requires r * b == c * (p - 1.0)
    requires b' == b * (1.0 + r) + c && p' == (1.0 + r) * p
    ensures r * b' == c * (p' - 1.0)
  {
    calc {
      r * b';
      r * (b * (1.0 + r) + c);
      (1.0 + r) * (r * b) + r * c;
      (1.0 + r) * (c * (p - 1.0)) + r * c;
      c * ((1.0 + r) * p - 1.0);
      c * (p' - 1.0);
    }
  }

  /** Dividing the identity by a non-zero rate, on plain numbers. */
  lemma DivideOut(b: real, c: real, p: real, r: real)
    requires r != 0.0 && r * b == c * (p - 1.0)
    ensures c * ((p - 1.0) / r) == b
  {
    assert c * ((p - 1.0) / r) * r == c * (p - 1.0);
    assert (c * ((p - 1.0) / r) - b) * r == 0.0;
  }

  /** Nothing is accumulated before the first month. */
  lemma FutureValueStartsAtZero(c: real, r: real)
    ensures FutureValue(c, r, 0) == 0.0
  {
  }

  /** With a positive rate and a non-negative contribution the balance never
      falls below what was deposited: the yield is not negative. */
  lemma {:induction false} YieldNotNegative(c: real, r: real, m: nat)
    requires c >= 0.0 && r > 0.0
    ensures FutureValue(c, r, m) >= c * m as real
  {
    BalanceAtLeastDeposits(c, r, m);
    FutureValueIsBalance(c, r, m);
  }

  lemma {:induction false} BalanceAtLeastDeposits(c: real, r: real, m: nat)
    requires c >= 0.0 && r > 0.0
    ensures Balance(c, r, m) >= c * m as real
  {
    if m > 0 {
      BalanceAtLeastDeposits(c, r, m - 1);
      var b := Balance(c, r, m - 1);
      assert b >= 0.0;
      assert b * (1.0 + r) >= b;
    }
  }

  // ---------------------------------------------------------------------------
  // Sums over the investments
  // ---------------------------------------------------------------------------

  function Contribution(inv: Investment): real
  {
    inv.monthlyContribution
  }

  /** `totalMonthlyContribution`: the contributions of all investments. */
  function TotalMonthlyContribution(invs: seq<Investment>): real
  {
    SumOf(invs, Contribution)
  }

  /** What an investment is worth after `m` months. */
  function ValueAt(monthlyRate: real -> real, m: nat): Investment -> real
  {
    (inv: Investment) => FutureValue(inv.monthlyContribution, monthlyRate(inv.annualRate), m)
  }

  /** What was deposited into an investment after `m` months. */
  function InvestedAt(m: nat): Investment -> real
  {
    (inv: Investment) => inv.monthlyContribution * m as real
  }

  /** The deposits of all investments after `m` months are `m` times the total
      monthly contribution. */
  lemma {:induction false} InvestedIsScaled(invs: seq<Investment>, m: nat)
    ensures SumOf(invs, InvestedAt(m)) == m as real * TotalMonthlyContribution(invs)
    decreases |invs|
  {
    if invs != [] {
      InvestedIsScaled(invs[..|invs| - 1], m);
    }
  }

  // ---------------------------------------------------------------------------
  // The chart: `projectionData`
  // ---------------------------------------------------------------------------

  /** One point of the chart (`yield` and `label` are reserved words here: `yieldValue` and `caption`). */
  datatype Point = Point(month: nat, total: real, invested: real, yieldValue: real, caption: string)

  /** `${Math.floor(month / 12)}a ${month % 12}m`: years and months. */
  function Label(month: nat): string
  {
    Dec(month / 12) + "a " + Dec(month % 12) + "m"
  }

  /** Distinct months get distinct labels: the digits before "a " spell the
      years and those between it and the final "m" the remaining months. */
  lemma LabelInjective(m1: nat, m2: nat)
    requires Label(m1) == Label(m2)
    ensures m1 == m2
  {
    LabelParts(Dec(m1 / 12), Dec(m1 % 12), Dec(m2 / 12), Dec(m2 % 12));
    DecReadsBack(m1 / 12);
    DecReadsBack(m2 / 12);
    DecReadsBack(m1 % 12);
    DecReadsBack(m2 % 12);
  }

  /** A label splits back into its digit strings. */
  lemma LabelParts(y1: string, k1: string, y2: string, k2: string)
    requires forall i :: 0 <= i < |y1| ==> '0' <= y1[i] <= '9'
    requires forall i :: 0 <= i < |y2| ==> '0' <= y2[i] <= '9'
    requires y1 + "a " + k1 + "m" == y2 + "a " + k2 + "m"
    ensures y1 == y2 && k1 == k2
  {
    var l := y1 + "a " + k1 + "m";
    assert l == y1 + ("a " + k1 + "m") == y2 + ("a " + k2 + "m");
    DigitsEndAtLetter(y1, "a " + k1 + "m", y2, "a " + k2 + "m");
    DigitsEndAtLetter(y2, "a " + k2 + "m", y1, "a " + k1 + "m");
    assert y1 == l[..|y1|] == y2;
    assert k1 == l[|y1| + 2..|l| - 1] == k2;
  }

  /** Two ways of writing one string as digits followed by a letter: the
      digits cannot run past the other's letter. */
  lemma DigitsEndAtLetter(y1: string, r1: string, y2: string, r2: string)
    requires forall i :: 0 <= i < |y2| ==> '0' <= y2[i] <= '9'
    requires r1 != [] && r1[0] == 'a'
    requires y1 + r1 == y2 + r2
    ensures |y2| <= |y1|
  {
    assert (y1 + r1)[|y1|] == 'a';
    assert (y2 + r2)[|y1|] == 'a';
  }

  /** The point the chart shows for month `m`. */
  function PointAt(invs: seq<Investment>, monthlyRate: real -> real, m: nat): Point
  {
    var total := SumOf(invs, ValueAt(monthlyRate, m));
    var invested := m as real * TotalMonthlyContribution(invs);
    Point(m, total, invested, total - invested, Label(m))
  }

  /** The `forEach` of `projectionData`: the value and the deposits of all
      investments after `month` months. */
  method MonthTotals(invs: seq<Investment>, monthlyRate: real -> real, month: nat)
    returns (totalAmount: real, totalInvested: real)
    ensures totalAmount == SumOf(invs, ValueAt(monthlyRate, month))
    ensures totalInvested == SumOf(invs, InvestedAt(month))
  {
    totalAmount := 0.0;
    totalInvested := 0.0;
    for k := 0 to |invs|
      invariant totalAmount == SumOf(invs[..k], ValueAt(monthlyRate, month))
      invariant totalInvested == SumOf(invs[..k], InvestedAt(month))
    {
      var inv := invs[k];
      var r := monthlyRate(inv.annualRate);
      var amount := FutureValue(inv.monthlyContribution, r, month);
      var invested := inv.monthlyContribution * month as real;
      assert invs[..k + 1][..k] == invs[..k];
      totalAmount := totalAmount + amount;
      totalInvested := totalInvested + invested;
    }
    assert invs[..|invs|] == invs;
  }

  /** `projectionData`: for every month from 0 to 60 the value and the deposits
      of all investments are summed; every third month becomes a point. No
      investment, no chart. */
  method ProjectionData(invs: seq<Investment>, monthlyRate: real -> real) returns (data: seq<Point>)
    ensures invs == [] ==> data == []
    ensures invs != [] ==> |data| == 21
    ensures forall i :: 0 <= i < |data| ==> data[i].month == 3 * i
    ensures forall i :: 0 <= i < |data| ==> data[i].total == SumOf(invs, ValueAt(monthlyRate, 3 * i))
    ensures forall i :: 0 <= i < |data| ==> data[i].invested == (3 * i) as real * TotalMonthlyContribution(invs)
    ensures forall i :: 0 <= i < |data| ==> data[i].yieldValue == data[i].total - data[i].invested
    ensures forall i :: 0 <= i < |data| ==> data[i].caption == Label(3 * i)
  {
    if |invs| == 0 {
      return [];
    }
    data := [];
    for month := 0 to 61
      invariant 3 * |data| - 3 < month <= 3 * |data|
      invariant forall i :: 0 <= i < |data| ==> data[i] == PointAt(invs, monthlyRate, 3 * i)
    {
      var totalAmount, totalInvested := MonthTotals(invs, monthlyRate, month);
      InvestedIsScaled(invs, month);
      EveryThirdMonth(month, |data|);
      if month % 3 == 0 {
        var point := Point(month, totalAmount, totalInvested, totalAmount - totalInvested, Label(month));
        assert point == PointAt(invs, monthlyRate, 3 * |data|);
        data := data + [point];
      }
    }
  }

  /** While `n` points are out, the months since the last one are fewer than
      three: a month divisible by 3 is the month of the next point. */
  lemma EveryThirdMonth(month: nat, n: nat)
    requires 3 * n - 3 < month <= 3 * n
    ensures month % 3 == 0 ==> month == 3 * n
    ensures month % 3 != 0 ==> month < 3 * n
  {
  }

  // ---------------------------------------------------------------------------
  // The chart as written: no zero-rate guard
  // ---------------------------------------------------------------------------

  /** The amount as the chart computes it, `c·((1+r)^m − 1)/r` with no zero
      test: at `r = 0` it is `0/0`, not a number (`None`). */
  function AmountAsWritten(c: real, r: real, m: nat): (a: Option<real>)
    ensures a.None? <==> r == 0.0
    ensures a.Some? ==> a.value == FutureValue(c, r, m)
  {
    if r == 0.0 then None else Some(c * ((Pow(1.0 + r, m) - 1.0) / r))
  }

  /** `totalAmount += amount` as written: one amount that is not a number makes
      the whole total not a number. */
  function TotalAsWritten(invs: seq<Investment>, monthlyRate: real -> real, m: nat): Option<real>
  {
    if invs == [] then Some(0.0)
    else
      var init := TotalAsWritten(invs[..|invs| - 1], monthlyRate, m);
      var last := invs[|invs| - 1];
      match (init, AmountAsWritten(last.monthlyContribution, monthlyRate(last.annualRate), m))
      case (Some(t), Some(a)) => Some(t + a)
      case _ => None
  }

  /** A single investment at a 0% annual rate (monthly rate 0) blanks every
      point of the chart as written, whereas the guarded formula of
      `calculateProjection` gives it its deposits. */
  lemma {:induction false} ZeroRateBlanksChart(invs: seq<Investment>, monthlyRate: real -> real, m: nat, j: nat)
    requires j < |invs| && monthlyRate(invs[j].annualRate) == 0.0
    ensures TotalAsWritten(invs, monthlyRate, m) == None
    ensures FutureValue(invs[j].monthlyContribution, 0.0, m) == invs[j].monthlyContribution * m as real
    decreases |invs|
  {
    if j < |invs| - 1 {
      ZeroRateBlanksChart(invs[..|invs| - 1], monthlyRate, m, j);
    }
  }

  /** Where no rate is zero, the chart as written and the guarded chart agree. */
  lemma {:induction false} AsWrittenAgreesOffZero(invs: seq<Investment>, monthlyRate: real -> real, m: nat)
    requires forall j :: 0 <= j < |invs| ==> monthlyRate(invs[j].annualRate) != 0.0
    ensures TotalAsWritten(invs, monthlyRate, m) == Some(SumOf(invs, ValueAt(monthlyRate, m)))
    decreases |invs|
  {
    if invs != [] {
      AsWrittenAgreesOffZero(invs[..|invs| - 1], monthlyRate, m);
    }
  }

  // ---------------------------------------------------------------------------
  // `calculateProjection`
  // ---------------------------------------------------------------------------

  /** `calculateProjection(years)`: the value of all investments after
      `years · 12` months, a zero monthly rate counting the plain deposits. */
  method CalculateProjection(invs: seq<Investment>, monthlyRate: real -> real, years: nat) returns (total: real)
    ensures total == SumOf(invs, ValueAt(monthlyRate, years * 12))
  {
    total := 0.0;
    var months := years * 12;
    for k := 0 to |invs|
      invariant total == SumOf(invs[..k], ValueAt(monthlyRate, months))
    {
      var inv := invs[k];
      var r := monthlyRate(inv.annualRate);
      assert invs[..k + 1][..k] == invs[..k];
      if r == 0.0 {
        total := total + inv.monthlyContribution * months as real;
      } else {
        total := total + inv.monthlyContribution * ((Pow(1.0 + r, months) - 1.0) / r);
      }
    }
    assert invs[..|invs|] == invs;
  }

  /** With non-negative contributions and positive rates the projection is at
      least the money deposited. */
  lemma {:induction false} ProjectionCoversDeposits(invs: seq<Investment>, monthlyRate: real -> real, m: nat)
    requires forall j :: 0 <= j < |invs| ==>
               invs[j].monthlyContribution >= 0.0 && monthlyRate(invs[j].annualRate) > 0.0
    ensures SumOf(invs, ValueAt(monthlyRate, m)) >= m as real * TotalMonthlyContribution(invs)
  {
    forall j | 0 <= j < |invs|
      ensures InvestedAt(m)(invs[j]) <= ValueAt(monthlyRate, m)(invs[j])
    {
      YieldNotNegative(invs[j].monthlyContribution, monthlyRate(invs[j].annualRate), m);
    }
    SumOfMonotone(invs, InvestedAt(m), ValueAt(monthlyRate, m));
    InvestedIsScaled(invs, m);
  }

  // ---------------------------------------------------------------------------
  // The new-investment form
  // ---------------------------------------------------------------------------

  /** The add-investment screen. The amount field holds `None` while empty;
      the rate field starts at 10 (% a year). */
  class InvestmentForm {
    var isAdding: bool
    var name: string
    var amount: Option<real>
    var rate: real

    constructor ()
      ensures !isAdding && name == [] && amount == None && rate == 10.0
    {
      isAdding := false;
      name := [];
      amount := None;
      rate := 10.0;
    }

    method Open()
      modifies this
      ensures isAdding && name == old(name) && amount == old(amount) && rate == old(rate)
    {
      isAdding := true;
    }

    /** "Cancelar": closes the screen and keeps what was typed. */
    method Cancel()
      modifies this
      ensures !isAdding && name == old(name) && amount == old(amount) && rate == old(rate)
    {
      isAdding := false;
    }

    method SetFields(name: string, amount: Option<real>, rate: real)
      modifies this
      ensures this.name == name && this.amount == amount && this.rate == rate
      ensures isAdding == old(isAdding)
    {
      this.name := name;
      this.amount := amount;
      this.rate := rate;
    }

    /** "Salvar": with a name and an amount, builds the investment started
        `today`, closes the screen and resets the form (rate back to 10);
        otherwise nothing happens. */
    method Save(id: string, today: Date) returns (inv: Option<Investment>)
      modifies this
      ensures old(name) != [] && old(amount).Some? ==>
                inv == Some(Investment(id, old(name), old(amount).value, old(rate), today)) &&
                !isAdding && name == [] && amount == None && rate == 10.0
      ensures !(old(name) != [] && old(amount).Some?) ==>
                inv == None && isAdding == old(isAdding) && name == old(name) &&
                amount == old(amount) && rate == old(rate)
    {
      if name != [] && amount.Some? {
        inv := Some(Investment(id, name, amount.value, rate, today));
        isAdding := false;
        name := [];
        amount := None;
        rate := 10.0;
      } else {
        inv := None;
      }
    }
  }
}
