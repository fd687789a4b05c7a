/** The application shell (src/App.tsx): the transaction, goal and investment
    lists it owns, the month view of the transactions and the monthly summary. */
module App {
  import opened Types
  import opened Seqs

  // ---------------------------------------------------------------------------
  // The month view: `currentMonthTransactions`
  // ---------------------------------------------------------------------------

  /** The transaction falls in the calendar month `(year, month)`. */
  predicate InMonth(tx: Transaction, year: nat, month: nat)
  {
    tx.date.year == year && tx.date.month == month
  }

  function InMonthOf(year: nat, month: nat): Transaction -> bool
  {
    tx => InMonth(tx, year, month)
  }

  /** The sort key of a transaction: later dates have larger keys. */
  function DateKey(tx: Transaction): real
  {
    DayRank(tx.date) as real
  }

  /** The transactions of the selected month, newest first. */
  function MonthTransactions(txs: seq<Transaction>, year: nat, month: nat): (r: seq<Transaction>)
    ensures forall tx :: multiset(r)[tx] == if InMonth(tx, year, month) then multiset(txs)[tx] else 0
    ensures forall i, j :: 0 <= i < j < |r| ==> DayRank(r[i].date) >= DayRank(r[j].date)
  {
    var inMonth := InMonthFilter(txs, year, month);
    var r := SortDesc(inMonth, DateKey);
    NewestFirst(r);
    r
  }

  function InMonthFilter(txs: seq<Transaction>, year: nat, month: nat): (r: seq<Transaction>)
    ensures forall tx :: multiset(r)[tx] == if InMonth(tx, year, month) then multiset(txs)[tx] else 0
  {
    FilterCounts(txs, InMonthOf(year, month));
    Filter(txs, InMonthOf(year, month))
  }

  lemma NewestFirst(r: seq<Transaction>)
    requires SortedDesc(r, DateKey)
    ensures forall i, j :: 0 <= i < j < |r| ==> DayRank(r[i].date) >= DayRank(r[j].date)
  {
    forall i, j | 0 <= i < j < |r|
      ensures DayRank(r[i].date) >= DayRank(r[j].date)
    {
      assert DateKey(r[i]) >= DateKey(r[j]);
    }
  }

  // ---------------------------------------------------------------------------
  // The monthly summary: `summary`
  // ---------------------------------------------------------------------------

  /** What a transaction adds to the projected income. */
  function IncomeAmount(tx: Transaction): real
  {
    if tx.kind == Income then tx.amount else 0.0
  }

  /** What a transaction adds to the projected expenses: every type but income. */
  function ExpenseAmount(tx: Transaction): real
  {
    if tx.kind == Income then 0.0 else tx.amount
  }

  /** What a transaction adds to the realized income: paid income only. */
  function PaidIncomeAmount(tx: Transaction): real
  {
    if tx.status == Paid then IncomeAmount(tx) else 0.0
  }

  /** What a transaction adds to the realized expenses: paid expenses only. */
  function PaidExpenseAmount(tx: Transaction): real
  {
    if tx.status == Paid then ExpenseAmount(tx) else 0.0
  }

  /** `Math.max(0, x)`. */
  function MaxZero(x: real): real
  {
    if x > 0.0 then x else 0.0
  }

  /** One pass over the month's transactions that fills the projected and the
      realized accumulators, then derives the balances and the savings potential. */
  method Summarize(txs: seq<Transaction>) returns (s: FinancialSummary)
    ensures s.projected.income == SumOf(txs, IncomeAmount)
    ensures s.projected.expenses == SumOf(txs, ExpenseAmount)
    ensures s.realized.income == SumOf(txs, PaidIncomeAmount)
    ensures s.realized.expenses == SumOf(txs, PaidExpenseAmount)
    ensures s.projected.balance == s.projected.income - s.projected.expenses
    ensures s.realized.balance == s.realized.income - s.realized.expenses
    ensures s.savingsPotential == MaxZero(s.projected.balance) && s.savingsPotential >= 0.0
  {
    var projectedIncome, projectedExpenses := 0.0, 0.0;
    var realizedIncome, realizedExpenses := 0.0, 0.0;
    for i := 0 to |txs|
      invariant projectedIncome == SumOf(txs[..i], IncomeAmount)
      invariant projectedExpenses == SumOf(txs[..i], ExpenseAmount)
      invariant realizedIncome == SumOf(txs[..i], PaidIncomeAmount)
      invariant realizedExpenses == SumOf(txs[..i], PaidExpenseAmount)
    {
      var tx := txs[i];
      assert txs[..i + 1][..i] == txs[..i];
      if tx.kind == Income {
        projectedIncome := projectedIncome + tx.amount;
      } else {
        projectedExpenses := projectedExpenses + tx.amount;
      }
      if tx.status == Paid {
        if tx.kind == Income {
          realizedIncome := realizedIncome + tx.amount;
        } else {
          realizedExpenses := realizedExpenses + tx.amount;
        }
      }
    }
    assert txs[..|txs|] == txs;
    var projected := Totals(projectedIncome, projectedExpenses, projectedIncome - projectedExpenses);
    var realized := Totals(realizedIncome, realizedExpenses, realizedIncome - realizedExpenses);
    s := FinancialSummary(realized, projected, MaxZero(projected.balance));
  }

  /** The summary is a sum over the multiset of transactions: reordering the
      month's list changes none of its four totals. */
  lemma SummaryIgnoresOrder(a: seq<Transaction>, b: seq<Transaction>)
    requires multiset(a) == multiset(b)
    ensures SumOf(a, IncomeAmount) == SumOf(b, IncomeAmount)
    ensures SumOf(a, ExpenseAmount) == SumOf(b, ExpenseAmount)
    ensures SumOf(a, PaidIncomeAmount) == SumOf(b, PaidIncomeAmount)
    ensures SumOf(a, PaidExpenseAmount) == SumOf(b, PaidExpenseAmount)
  {
    SumOfPermutation(a, b, IncomeAmount);
    SumOfPermutation(a, b, ExpenseAmount);
    SumOfPermutation(a, b, PaidIncomeAmount);
    SumOfPermutation(a, b, PaidExpenseAmount);
  }

  /** With non-negative amounts the realized view never exceeds the projected
      one: only paid transactions feed it. */
  lemma RealizedWithinProjected(txs: seq<Transaction>)
    requires forall i :: 0 <= i < |txs| ==> txs[i].amount >= 0.0
    ensures SumOf(txs, PaidIncomeAmount) <= SumOf(txs, IncomeAmount)
    ensures SumOf(txs, PaidExpenseAmount) <= SumOf(txs, ExpenseAmount)
  {
    SumOfMonotone(txs, PaidIncomeAmount, IncomeAmount);
    SumOfMonotone(txs, PaidExpenseAmount, ExpenseAmount);
  }

  // ---------------------------------------------------------------------------
  // The lists and their handlers
  // ---------------------------------------------------------------------------

  /** What the add-transaction screen hands over: a transaction without an id. */
  datatype Draft = Draft(
    amount: real,
    note: string,
    kind: TransactionType,
    category: string,
    frequency: Frequency,
    date: Date,
    status: TransactionStatus,
    paymentMethod: PaymentMethod)

  function WithId(d: Draft, id: string): Transaction
  {
    Transaction(id, d.amount, d.kind, d.category, d.frequency, d.date, d.note, d.status, d.paymentMethod)
  }

  function Flipped(s: TransactionStatus): TransactionStatus
  {
    if s == Paid then Pending else Paid
  }

  /** `handleToggleStatus`: flip paid/pending on the records with that id. */
  function ToggleStatus(txs: seq<Transaction>, id: string): (r: seq<Transaction>)
    ensures |r| == |txs|
    ensures forall i :: 0 <= i < |txs| ==> r[i].(status := txs[i].status) == txs[i]
    ensures forall i :: 0 <= i < |txs| ==> (r[i].status != txs[i].status <==> txs[i].id == id)
  {
    seq(|txs|, i requires 0 <= i < |txs| =>
      if txs[i].id == id then txs[i].(status := Flipped(txs[i].status)) else txs[i])
  }

  /** Toggling the same id twice restores the list. */
  lemma ToggleStatusTwice(txs: seq<Transaction>, id: string)
    ensures ToggleStatus(ToggleStatus(txs, id), id) == txs
  {
  }

  /** `handleDeleteTransaction` (confirmation granted): drop the records with that id. */
  function RemoveTransaction(txs: seq<Transaction>, id: string): (r: seq<Transaction>)
    ensures forall tx :: multiset(r)[tx] == if tx.id == id then 0 else multiset(txs)[tx]
    ensures IsSubsequence(r, txs)
  {
    var keep := (tx: Transaction) => tx.id != id;
    FilterCounts(txs, keep);
    Filter(txs, keep)
  }

  /** `handleDeleteInvestment`: drop the investments with that id. */
  function RemoveInvestment(invs: seq<Investment>, id: string): (r: seq<Investment>)
    ensures forall inv :: multiset(r)[inv] == if inv.id == id then 0 else multiset(invs)[inv]
    ensures IsSubsequence(r, invs)
  {
    var keep := (inv: Investment) => inv.id != id;
    FilterCounts(invs, keep);
    Filter(invs, keep)
  }

  /** The three lists the app keeps in its state. Loading them from and saving
      them to the browser's storage is not part of this model: the constructor
      takes what was loaded. */
  class Store {
    var transactions: seq<Transaction>
    var goals: seq<Goal>
    var investments: seq<Investment>

    constructor (transactions: seq<Transaction>, goals: seq<Goal>, investments: seq<Investment>)
      ensures this.transactions == transactions
      ensures this.goals == goals && this.investments == investments
    {
      this.transactions := transactions;
      this.goals := goals;
      this.investments := investments;
    }

    /** `handleAddTransaction`: the new record, with its fresh id, goes first. */
    method AddTransaction(draft: Draft, id: string)
      modifies this
      ensures transactions == [WithId(draft, id)] + old(transactions)
      ensures goals == old(goals) && investments == old(investments)
    {
      transactions := [WithId(draft, id)] + transactions;
    }

    method ToggleTransactionStatus(id: string)
      modifies this
      ensures transactions == ToggleStatus(old(transactions), id)
      ensures goals == old(goals) && investments == old(investments)
    {
      transactions := ToggleStatus(transactions, id);
    }

    method DeleteTransaction(id: string)
      modifies this
      ensures transactions == RemoveTransaction(old(transactions), id)
      ensures goals == old(goals) && investments == old(investments)
    {
      transactions := RemoveTransaction(transactions, id);
    }

    /** `handleAddGoal`: the goal goes last. */
    method AddGoal(g: Goal)
      modifies this
      ensures goals == old(goals) + [g]
      ensures transactions == old(transactions) && investments == old(investments)
    {
      goals := goals + [g];
    }

    /** `handleAddInvestment`: the investment goes last. */
    method AddInvestment(inv: Investment)
      modifies this
      ensures investments == old(investments) + [inv]
      ensures transactions == old(transactions) && goals == old(goals)
    {
      investments := investments + [inv];
    }

    method DeleteInvestment(id: string)
      modifies this
      ensures investments == RemoveInvestment(old(investments), id)
      ensures transactions == old(transactions) && goals == old(goals)
    {
      investments := RemoveInvestment(investments, id);
    }

    /** `handleResetData` (confirmation granted): every list becomes empty. */
    method Reset()
      modifies this
      ensures transactions == [] && goals == [] && investments == []
    {
      transactions, goals, investments := [], [], [];
    }
  }
}
