/** The dashboard (src/views/Dashboard.tsx): the balance card that shows the
    realized or the projected totals, and the month statement with its
    fixed/variable filter and the text of each row. */
module Dashboard {
  import opened Wrappers
  import opened Types
  import opened Seqs
  import opened Catalog
  import opened App

  datatype ViewMode = Realized | Projected

  datatype ListFilter = All | Fixed | Variable

  // ---------------------------------------------------------------------------
  // The balance card
  // ---------------------------------------------------------------------------

  /** The card's toggle button: realized and projected swap. */
  function Switched(mode: ViewMode): (r: ViewMode)
    ensures r != mode
  {
    if mode == Realized then Projected else Realized
  }

  /** `displayData`: the totals the card shows in the given mode. */
  function DisplayData(summary: FinancialSummary, mode: ViewMode): Totals
  {
    if mode == Realized then summary.realized else summary.projected
  }

  /** The caption above the balance. */
  function BalanceCaption(mode: ViewMode): string
  {
    if mode == Realized then "Saldo Realizado (Caixa)" else "Saldo Previsto (Competência)"
  }

  /** The balance is drawn in the danger colour exactly when it is negative. */
  predicate BalanceDanger(t: Totals)
  {
    t.balance < 0.0
  }

  /** On a summary built from a month's transactions the card shows, in either
      mode, a balance that is its income minus its expenses; and it is in the
      danger colour exactly when the expenses exceed the income. Under the
      cash-basis caption the totals count only paid records, under the accrual
      caption every record. */
  lemma CardBalance(txs: seq<Transaction>, s: FinancialSummary, mode: ViewMode)
    requires s.projected.income == SumOf(txs, IncomeAmount)
    requires s.projected.expenses == SumOf(txs, ExpenseAmount)
    requires s.realized.income == SumOf(txs, PaidIncomeAmount)
    requires s.realized.expenses == SumOf(txs, PaidExpenseAmount)
    requires s.projected.balance == s.projected.income - s.projected.expenses
    requires s.realized.balance == s.realized.income - s.realized.expenses
    ensures DisplayData(s, mode).balance == DisplayData(s, mode).income - DisplayData(s, mode).expenses
    ensures BalanceDanger(DisplayData(s, mode)) <==>
              (mode == Realized && SumOf(txs, PaidExpenseAmount) > SumOf(txs, PaidIncomeAmount)) ||
              (mode == Projected && SumOf(txs, ExpenseAmount) > SumOf(txs, IncomeAmount))
    ensures BalanceCaption(mode) == "Saldo Realizado (Caixa)" ==>
              DisplayData(s, mode).income == SumOf(txs, PaidIncomeAmount) &&
              DisplayData(s, mode).expenses == SumOf(txs, PaidExpenseAmount)
    ensures BalanceCaption(mode) == "Saldo Previsto (Competência)" ==>
              DisplayData(s, mode).income == SumOf(txs, IncomeAmount) &&
              DisplayData(s, mode).expenses == SumOf(txs, ExpenseAmount)
  {
  }

  // ---------------------------------------------------------------------------
  // The statement filter: `filteredTransactions`
  // ---------------------------------------------------------------------------

  /** Whether a record stays in the list under the filter. */
  predicate Kept(f: ListFilter, tx: Transaction)
  {
    match f
    case All => true
    case Fixed => tx.kind == ExpenseFixed
    case Variable => tx.kind == ExpenseVariable
  }

  function KeptBy(f: ListFilter): Transaction -> bool
  {
    (tx: Transaction) => Kept(f, tx)
  }

  /** `filteredTransactions`: the records the filter keeps, in the order given. */
  function StatementFilter(txs: seq<Transaction>, f: ListFilter): (r: seq<Transaction>)
    ensures IsSubsequence(r, txs)
    ensures forall tx :: multiset(r)[tx] == if Kept(f, tx) then multiset(txs)[tx] else 0
  {
    FilterCounts(txs, KeptBy(f));
    Filter(txs, KeptBy(f))
  }

  /** "Todos" shows the list unchanged. */
  lemma {:induction false} AllShowsEverything(txs: seq<Transaction>)
    ensures StatementFilter(txs, All) == txs
  {
    FilterKeepsAll(txs, KeptBy(All));
  }

  /** "Fixos" and "Var." show exactly the fixed, respectively the variable,
      expenses, so income never appears under either. */
  lemma FilterKeepsKind(txs: seq<Transaction>, f: ListFilter)
    requires f != All
    ensures forall i :: 0 <= i < |StatementFilter(txs, f)| ==>
              StatementFilter(txs, f)[i].kind == (if f == Fixed then ExpenseFixed else ExpenseVariable)
    ensures forall i :: 0 <= i < |txs| && txs[i].kind == (if f == Fixed then ExpenseFixed else ExpenseVariable) ==>
              txs[i] in StatementFilter(txs, f)
  {
    var r := StatementFilter(txs, f);
    forall i | 0 <= i < |r|
      ensures r[i].kind == (if f == Fixed then ExpenseFixed else ExpenseVariable)
    {
      assert r[i] in multiset(r);
    }
    forall i | 0 <= i < |txs| && txs[i].kind == (if f == Fixed then ExpenseFixed else ExpenseVariable)
      ensures txs[i] in r
    {
      assert txs[i] in multiset(txs);
      assert Kept(f, txs[i]);
    }
  }

  /** The statement of the month stays newest first whatever the filter. */
  lemma FilteredStatementIsNewestFirst(txs: seq<Transaction>, year: nat, month: nat, f: ListFilter)
    ensures var r := StatementFilter(MonthTransactions(txs, year, month), f);
            forall i, j :: 0 <= i < j < |r| ==> DayRank(r[i].date) >= DayRank(r[j].date)
  {
    var m := MonthTransactions(txs, year, month);
    var r := StatementFilter(m, f);
    assert SortedDesc(m, DateKey);
    SubsequenceSorted(r, m, DateKey);
    assert forall i, j :: 0 <= i < j < |r| ==> DateKey(r[i]) >= DateKey(r[j]);
  }

  // ---------------------------------------------------------------------------
  // One row of the statement
  // ---------------------------------------------------------------------------

  /** The payment method as the row names it. */
  function PaymentLabel(m: PaymentMethod): string
  {
    if m == CreditCard then "Crédito"
    else if m == DebitCard then "Débito"
    else if m == Pix then "Pix"
    else "Dinheiro"
  }

  /** The row agrees with the payment catalog for every method except "other",
      which the row calls "Dinheiro" (the catalog's word for cash) while the
      catalog calls it "Outro". */
  lemma PaymentLabelAgainstCatalog(i: nat)
    requires i < |PAYMENT_METHODS|
    ensures PAYMENT_METHODS[i].id != Other ==> PaymentLabel(PAYMENT_METHODS[i].id) == PAYMENT_METHODS[i].caption
    ensures PAYMENT_METHODS[i].id == Other ==> PaymentLabel(Other) == PAYMENT_METHODS[3].caption != PAYMENT_METHODS[i].caption
  {
  }

  /** The text and style a record is shown with. `title` is absent when the
      record has no note and its category is not in the catalog. */
  datatype RowView = RowView(
    title: Option<string>,
    subtitle: Option<string>,
    icon: string,
    color: string,
    sign: string,
    payment: string)

  function Row(tx: Transaction): (v: RowView)
    ensures tx.note != "" ==> v.title == Some(tx.note)
    ensures tx.note == "" ==> (v.title.Some? <==> FindCategory(tx.category).Some?)
    ensures v.title.Some? && tx.note == "" ==> v.title.value == ShortName(FindCategory(tx.category).value)
    ensures v.subtitle.Some? <==> tx.note != "" && FindCategory(tx.category).Some?
    ensures v.subtitle.Some? ==> v.subtitle.value == ShortName(FindCategory(tx.category).value)
    ensures v.sign == "+" <==> tx.kind == Income
    ensures v.sign == "-" <==> tx.kind != Income
    ensures FindCategory(tx.category).None? ==> v.icon == "HelpCircle" && v.color == "border-slate-700"
    ensures FindCategory(tx.category).Some? ==>
              v.icon == (if FindCategory(tx.category).value.icon != "" then FindCategory(tx.category).value.icon else "HelpCircle") &&
              v.color == (if FindCategory(tx.category).value.color != "" then FindCategory(tx.category).value.color else "border-slate-700")
    ensures v.payment == PaymentLabel(tx.paymentMethod)
  {
    var cat := FindCategory(tx.category);
    var short := if cat.Some? then Some(ShortName(cat.value)) else None;
    RowView(
      if tx.note != "" then Some(tx.note) else short,
      if tx.note != "" then short else None,
      if cat.Some? && cat.value.icon != "" then cat.value.icon else "HelpCircle",
      if cat.Some? && cat.value.color != "" then cat.value.color else "border-slate-700",
      if tx.kind == Income then "+" else "-",
      PaymentLabel(tx.paymentMethod))
  }

  /** Every record of the catalog's categories gets a title: its note or the
      short category name, which never contains a '/'. */
  lemma CatalogRowsHaveTitles(tx: Transaction)
    requires exists i :: 0 <= i < |CATEGORIES| && CATEGORIES[i].id == tx.category
    ensures Row(tx).title.Some?
    ensures tx.note == "" ==> '/' !in Row(tx).title.value
  {
  }

  // ---------------------------------------------------------------------------
  // The dashboard's own state
  // ---------------------------------------------------------------------------

  /** `viewMode` and `listFilter`, the two pieces of state the dashboard keeps. */
  class Screen {
    var viewMode: ViewMode
    var listFilter: ListFilter

    constructor ()
      ensures viewMode == Realized && listFilter == All
    {
      viewMode := Realized;
      listFilter := All;
    }

    method ToggleViewMode()
      modifies this
      ensures viewMode == Switched(old(viewMode)) && listFilter == old(listFilter)
    {
      viewMode := Switched(viewMode);
    }

    method SetListFilter(f: ListFilter)
      modifies this
      ensures listFilter == f && viewMode == old(viewMode)
    {
      listFilter := f;
    }

    /** The totals on the card and the records in the statement for the current state. */
    function Shown(summary: FinancialSummary, recent: seq<Transaction>): (r: (Totals, seq<Transaction>))
      reads this
      ensures r.0 == (if viewMode == Realized then summary.realized else summary.projected)
      ensures listFilter == All ==> r.1 == recent
      ensures IsSubsequence(r.1, recent)
      ensures r.1 == StatementFilter(recent, listFilter)
    {
      AllShowsEverything(recent);
      (DisplayData(summary, viewMode), StatementFilter(recent, listFilter))
    }
  }
}
