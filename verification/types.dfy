/** The records of the finance app (types.ts). Money is an exact `real`; a date
    is a calendar day `(year, month, day)` with months numbered 1 to 12. */
module Types {
  import opened Wrappers

  datatype TransactionType = Income | ExpenseFixed | ExpenseVariable

  datatype Frequency = Monthly | Yearly | OneTime

  datatype TransactionStatus = Paid | Pending

  datatype PaymentMethod = CreditCard | DebitCard | Pix | Cash | Other

  datatype Category = Category(id: string, name: string, icon: string, color: string)

  datatype Date = Date(year: nat, month: nat, day: nat)

  predicate ValidDate(d: Date)
  {
    1 <= d.month <= 12 && 1 <= d.day <= 31
  }

  /** A number that grows with the date, standing in for `Date.getTime()` when
      transactions are ordered: the count of 31-day months before the day. */
  function DayRank(d: Date): int
  {
    (d.year * 12 + d.month - 1) * 31 + d.day - 1
  }

  /** On valid dates the rank orders days as the calendar does: by year, then
      month, then day. */
  lemma DayRankIsChronological(a: Date, b: Date)
    requires ValidDate(a) && ValidDate(b)
    ensures DayRank(a) < DayRank(b) <==>
              a.year < b.year || (a.year == b.year && a.month < b.month) ||
              (a.year == b.year && a.month == b.month && a.day < b.day)
  {
    var ma := a.year * 12 + a.month - 1;
    var mb := b.year * 12 + b.month - 1;
    assert ma < mb <==> a.year < b.year || (a.year == b.year && a.month < b.month);
    assert DayRank(a) < DayRank(b) <==> ma < mb || (ma == mb && a.day < b.day);
  }

  /** A transaction; `note` is the empty string when the user gave none
      (an absent note and an empty one behave alike everywhere it is read). */
  datatype Transaction = Transaction(
    id: string,
    amount: real,
    kind: TransactionType,
    category: string,
    frequency: Frequency,
    date: Date,
    note: string,
    status: TransactionStatus,
    paymentMethod: PaymentMethod)

  datatype Goal = Goal(
    id: string,
    name: string,
    targetAmount: real,
    currentAmount: real,
    deadline: Option<Date>,
    icon: string)

  /** An investment; `annualRate` is a percentage. */
  datatype Investment = Investment(
    id: string,
    name: string,
    monthlyContribution: real,
    annualRate: real,
    startDate: Date)

  datatype Totals = Totals(income: real, expenses: real, balance: real)

  datatype FinancialSummary = FinancialSummary(
    realized: Totals,
    projected: Totals,
    savingsPotential: real)
}
