/** The analytics view (src/views/Analytics.tsx): the month-by-month ledger with
    its running balance and totals (`historyData`), and the expense breakdown by
    category (`categoryData`). */
module Analytics {
  import opened Wrappers
  import opened Types
  import opened Seqs
  import opened Text
  import opened Catalog
  import App

  // ---------------------------------------------------------------------------
  // Month keys
  // ---------------------------------------------------------------------------

  /** The bucket key of a date: `${year}-${String(month).padStart(2, '0')}`. */
  function MonthKey(d: Date): string
  {
    Dec(d.year) + "-" + Pad2(d.month)
  }

  function KeyOf(tx: Transaction): string
  {
    MonthKey(tx.date)
  }

  lemma FourDigitYear(y: nat)
    requires 1000 <= y <= 9999
    ensures |Dec(y)| == 4
  {
    assert (y / 10) / 10 == y / 100 && (y / 100) / 10 == y / 1000;
    assert |Dec(y / 1000)| == 1;
    assert Dec(y / 100) == Dec(y / 1000) + [DigitChar((y / 100) % 10)];
    assert Dec(y / 10) == Dec(y / 100) + [DigitChar((y / 10) % 10)];
    assert Dec(y) == Dec(y / 10) + [DigitChar(y % 10)];
  }

  /** For years written with four digits, the string order of the keys (what
      `Object.keys(...).sort()` uses) is the chronological order of the months. */
  lemma MonthKeyOrderIsChronological(a: Date, b: Date)
    requires 1000 <= a.year <= 9999 && 1000 <= b.year <= 9999
    requires 1 <= a.month <= 12 && 1 <= b.month <= 12
    ensures StrLt(MonthKey(a), MonthKey(b)) <==>
              a.year < b.year || (a.year == b.year && a.month < b.month)
  {
    FourDigitYear(a.year);
    FourDigitYear(b.year);
    DecOrder(a.year, b.year);
    assert MonthKey(a) == Dec(a.year) + ("-" + Pad2(a.month));
    assert MonthKey(b) == Dec(b.year) + ("-" + Pad2(b.month));
    StrLtConcat(Dec(a.year), Dec(b.year), "-" + Pad2(a.month), "-" + Pad2(b.month));
    StrLtConcat("-", "-", Pad2(a.month), Pad2(b.month));
    Pad2Order(a.month, b.month);
  }

  /** Two-digit month numbers compare as strings the way they compare as numbers. */
  lemma Pad2Order(m: nat, n: nat)
    requires m < 100 && n < 100
    ensures StrLt(Pad2(m), Pad2(n)) <==> m < n
  {
    var x1, x2 := DigitChar(m / 10), DigitChar(m % 10);
    var y1, y2 := DigitChar(n / 10), DigitChar(n % 10);
    StrLtConcat([x1], [y1], [x2], [y2]);
    assert StrLt([x1], [y1]) <==> x1 < y1 by {
      assert [x1][1..] == [] && [y1][1..] == [];
    }
    assert StrLt([x2], [y2]) <==> x2 < y2 by {
      assert [x2][1..] == [] && [y2][1..] == [];
    }
    assert Pad2(m) == [x1] + [x2] && Pad2(n) == [y1] + [y2];
    assert m == 10 * (m / 10) + m % 10;
    assert n == 10 * (n / 10) + n % 10;
  }

  /** Distinct months of valid dates get distinct keys, whatever the length of
      the year: a bucket holds exactly one calendar month. */
  lemma MonthKeyInjective(a: Date, b: Date)
    requires 1 <= a.month <= 12 && 1 <= b.month <= 12
    requires MonthKey(a) == MonthKey(b)
    ensures a.year == b.year && a.month == b.month
  {
    var da, db := Dec(a.year), Dec(b.year);
    var ka, kb := MonthKey(a), MonthKey(b);
    assert ka == da + "-" + Pad2(a.month) && kb == db + "-" + Pad2(b.month);
    assert da == ka[..|da|] && db == kb[..|db|];
    DecInjective(a.year, b.year);
    assert Pad2(a.month) == ka[|da| + 1..] && Pad2(b.month) == kb[|db| + 1..];
    assert a.month == 10 * (a.month / 10) + a.month % 10;
    assert b.month == 10 * (b.month / 10) + b.month % 10;
  }

  /** A three-digit year sorts after a four-digit one: "1000-01" comes before
      "999-01", so the ledger is chronological only within one year length. */
  lemma KeyOrderAcrossYearLengths()
    ensures StrLt(MonthKey(Date(1000, 1, 1)), MonthKey(Date(999, 1, 1)))
  {
    assert Dec(1000)[0] == '1' by {
      assert Dec(1000) == Dec(100) + [DigitChar(0)];
      assert Dec(100) == Dec(10) + [DigitChar(0)];
      assert Dec(10) == Dec(1) + [DigitChar(0)];
    }
    assert Dec(999)[0] == '9' by {
      assert Dec(999) == Dec(99) + [DigitChar(9)];
      assert Dec(99) == Dec(9) + [DigitChar(9)];
    }
  }

  // ---------------------------------------------------------------------------
  // Month buckets: `dataMap`
  // ---------------------------------------------------------------------------

  datatype Bucket = Bucket(income: real, expense: real)

  /** What a transaction adds to the income (`income`) or the expense side of the
      bucket with key `k`, when `keyOf` names each transaction's bucket: nothing
      unless it falls in that bucket. The bucket pass is stated for any key
      function; the ledger uses `KeyOf`. */
  function AmountIn(keyOf: Transaction -> string, k: string, income: bool): Transaction -> real
  {
    tx => if keyOf(tx) != k then 0.0
          else if income then App.IncomeAmount(tx) else App.ExpenseAmount(tx)
  }

  /** The bucket `k` over the transactions `txs`. */
  function BucketOf(txs: seq<Transaction>, keyOf: Transaction -> string, k: string): Bucket
  {
    Bucket(SumOf(txs, AmountIn(keyOf, k, true)), SumOf(txs, AmountIn(keyOf, k, false)))
  }

  /** The keys of the buckets that hold at least one transaction. */
  function KeySet(txs: seq<Transaction>, keyOf: Transaction -> string): (ks: set<string>)
    ensures forall i :: 0 <= i < |txs| ==> keyOf(txs[i]) in ks
  {
    if txs == [] then {} else KeySet(txs[..|txs| - 1], keyOf) + {keyOf(txs[|txs| - 1])}
  }

  /** A bucket without transactions sums to nothing on either side. */
  lemma {:induction false} EmptyBucket(txs: seq<Transaction>, keyOf: Transaction -> string, k: string, income: bool)
    requires k !in KeySet(txs, keyOf)
    ensures SumOf(txs, AmountIn(keyOf, k, income)) == 0.0
    decreases |txs|
  {
    if txs != [] {
      EmptyBucket(txs[..|txs| - 1], keyOf, k, income);
    }
  }

  lemma KeySetAppend(s: seq<Transaction>, keyOf: Transaction -> string, tx: Transaction)
    ensures KeySet(s + [tx], keyOf) == KeySet(s, keyOf) + {keyOf(tx)}
  {
    assert (s + [tx])[..|s|] == s;
  }

  /** One more transaction changes only its own bucket, on its own side. */
  lemma BucketAppend(s: seq<Transaction>, keyOf: Transaction -> string, tx: Transaction, k: string)
    ensures var b := BucketOf(s, keyOf, k);
            BucketOf(s + [tx], keyOf, k) ==
              if keyOf(tx) != k then b
              else if tx.kind == Income then b.(income := b.income + tx.amount)
              else b.(expense := b.expense + tx.amount)
  {
    assert (s + [tx])[..|s|] == s;
  }

  predicate Distinct<T(==)>(s: seq<T>)
  {
    forall i, j :: 0 <= i < j < |s| ==> s[i] != s[j]
  }

  /** The keys in ascending string order. */
  predicate StrictlyAscending(s: seq<string>)
  {
    forall i, j :: 0 <= i < j < |s| ==> StrLt(s[i], s[j])
  }

  function InsertKey(x: string, r: seq<string>): (q: seq<string>)
    requires StrictlyAscending(r) && x !in r
    ensures multiset(q) == multiset(r) + multiset{x}
    ensures StrictlyAscending(q)
  {
    if r == [] then [x]
    else if StrLt(x, r[0]) then
      KeyFirst(x, r);
      [x] + r
    else
      StrLtTotal(x, r[0]);
      assert StrictlyAscending(r[1..]) && x !in r[1..] by {
        forall i, j | 0 <= i < j < |r| - 1 ensures StrLt(r[1..][i], r[1..][j]) {
          assert r[1..][i] == r[i + 1] && r[1..][j] == r[j + 1];
        }
      }
      var rest := InsertKey(x, r[1..]);
      KeyPast(x, r, rest);
      [r[0]] + rest
  }

  /** The insertion step when `x` goes first. */
  lemma KeyFirst(x: string, r: seq<string>)
    requires r != [] && StrictlyAscending(r) && StrLt(x, r[0])
    ensures StrictlyAscending([x] + r)
  {
    forall j | 0 <= j < |r| ensures StrLt(x, r[j]) {
      if j > 0 { StrLtTransitive(x, r[0], r[j]); }
    }
    ConsAscending(x, r);
  }

  /** The insertion step when `x` goes after the first key. */
  lemma KeyPast(x: string, r: seq<string>, rest: seq<string>)
    requires r != [] && StrictlyAscending(r) && StrLt(r[0], x)
    requires multiset(rest) == multiset(r[1..]) + multiset{x} && StrictlyAscending(rest)
    ensures multiset([r[0]] + rest) == multiset(r) + multiset{x}
    ensures StrictlyAscending([r[0]] + rest)
  {
    assert r == [r[0]] + r[1..];
    HeadBelowRest(x, r, rest);
    ConsAscending(r[0], rest);
  }

  lemma HeadBelowRest(x: string, r: seq<string>, rest: seq<string>)
    requires r != [] && StrictlyAscending(r) && StrLt(r[0], x)
    requires multiset(rest) == multiset(r[1..]) + multiset{x}
    ensures forall j :: 0 <= j < |rest| ==> StrLt(r[0], rest[j])
  {
    forall j | 0 <= j < |rest| ensures StrLt(r[0], rest[j]) {
      assert rest[j] in multiset(rest);
      if rest[j] != x {
        assert rest[j] in multiset(r[1..]);
        var k :| 0 <= k < |r[1..]| && r[1..][k] == rest[j];
        assert r[k + 1] == rest[j];
      }
    }
  }

  /** A key below every key of an ascending sequence can go in front of it. */
  lemma ConsAscending(h: string, rest: seq<string>)
    requires StrictlyAscending(rest) && forall j :: 0 <= j < |rest| ==> StrLt(h, rest[j])
    ensures StrictlyAscending([h] + rest)
  {
    var q := [h] + rest;
    forall i, j | 0 <= i < j < |q| ensures StrLt(q[i], q[j]) {
      if i == 0 {
        assert q[j] == rest[j - 1];
      } else {
        assert q[i] == rest[i - 1] && q[j] == rest[j - 1];
      }
    }
  }

  /** `sort()` of distinct keys: insertion sort in string order. */
  function SortKeys(s: seq<string>): (r: seq<string>)
    requires Distinct(s)
    ensures multiset(r) == multiset(s)
    ensures StrictlyAscending(r)
  {
    if s == [] then []
    else
      assert s == [s[0]] + s[1..];
      assert s[0] !in s[1..];
      var rest := SortKeys(s[1..]);
      assert s[0] !in multiset(rest);
      InsertKey(s[0], rest)
  }

  // ---------------------------------------------------------------------------
  // The ledger: `monthlyData` and the totals
  // ---------------------------------------------------------------------------

  datatype MonthRow = MonthRow(
    key: string,
    income: real,
    expense: real,
    monthlyResult: real,
    runningBalance: real)

  datatype History = History(
    monthlyData: seq<MonthRow>,
    totalIncome: real,
    totalExpense: real,
    totalBalance: real)

  function RowIncome(r: MonthRow): real { r.income }
  function RowExpense(r: MonthRow): real { r.expense }
  function RowResult(r: MonthRow): real { r.monthlyResult }

  function RowKeys(rows: seq<MonthRow>): (ks: seq<string>)
    ensures |ks| == |rows| && forall i :: 0 <= i < |rows| ==> ks[i] == rows[i].key
  {
    seq(|rows|, i requires 0 <= i < |rows| => rows[i].key)
  }

  /** The arithmetic the view promises of its ledger: each month's result is its
      income minus its expense, the running balance is the sum of the results so
      far, and the totals sum the rows. */
  ghost predicate Ledger(h: History)
  {
    var rows := h.monthlyData;
    && (forall i :: 0 <= i < |rows| ==> rows[i].monthlyResult == rows[i].income - rows[i].expense)
    && (forall i :: 0 <= i < |rows| ==> rows[i].runningBalance == SumOf(rows[..i + 1], RowResult))
    && h.totalIncome == SumOf(rows, RowIncome)
    && h.totalExpense == SumOf(rows, RowExpense)
    && h.totalBalance == h.totalIncome - h.totalExpense
  }

  /** The `forEach` of `historyData`: one pass that fills the buckets,
      remembering the keys in the order they were first met. */
  method BucketByMonth(txs: seq<Transaction>, keyOf: Transaction -> string)
    returns (dataMap: map<string, Bucket>, seen: seq<string>)
    ensures dataMap.Keys == KeySet(txs, keyOf)
    ensures forall k :: k in dataMap ==> dataMap[k] == BucketOf(txs, keyOf, k)
    ensures Distinct(seen)
    ensures forall k :: k in seen <==> k in dataMap
  {
    dataMap := map[];
    seen := [];
    for i := 0 to |txs|
      invariant dataMap.Keys == KeySet(txs[..i], keyOf)
      invariant forall k :: k in dataMap ==> dataMap[k] == BucketOf(txs[..i], keyOf, k)
      invariant Distinct(seen)
      invariant forall k :: k in seen <==> k in dataMap
    {
      assert txs[..i + 1] == txs[..i] + [txs[i]];
      dataMap, seen := AddToBucket(dataMap, seen, txs[..i], keyOf, txs[i]);
    }
    assert txs[..|txs|] == txs;
  }

  /** One turn of the `forEach`: the transaction's amount goes to its key's
      bucket, which is created (and its key remembered) when it is new. */
  method AddToBucket(dataMap: map<string, Bucket>, seen: seq<string>, done: seq<Transaction>,
                     keyOf: Transaction -> string, tx: Transaction)
    returns (dataMap': map<string, Bucket>, seen': seq<string>)
    requires dataMap.Keys == KeySet(done, keyOf)
    requires forall k :: k in dataMap ==> dataMap[k] == BucketOf(done, keyOf, k)
    requires Distinct(seen) && forall k :: k in seen <==> k in dataMap
    ensures dataMap'.Keys == KeySet(done + [tx], keyOf)
    ensures forall k :: k in dataMap' ==> dataMap'[k] == BucketOf(done + [tx], keyOf, k)
    ensures Distinct(seen') && forall k :: k in seen' <==> k in dataMap'
  {
    var key := keyOf(tx);
    KeySetAppend(done, keyOf, tx);
    dataMap', seen' := dataMap, seen;
    if key !in dataMap' {
      EmptyBucket(done, keyOf, key, true);
      EmptyBucket(done, keyOf, key, false);
      dataMap' := dataMap'[key := Bucket(0.0, 0.0)];
      seen' := seen' + [key];
    }
    var item := dataMap'[key];
    if tx.kind == Income {
      dataMap' := dataMap'[key := item.(income := item.income + tx.amount)];
    } else {
      dataMap' := dataMap'[key := item.(expense := item.expense + tx.amount)];
    }
    forall k | k in dataMap'
      ensures dataMap'[k] == BucketOf(done + [tx], keyOf, k)
    {
      BucketAppend(done, keyOf, tx, k);
    }
  }

  /** The `map` of `historyData`: one row per key, in the given order, carrying
      the running balance. */
  method RunningRows(keys: seq<string>, dataMap: map<string, Bucket>) returns (rows: seq<MonthRow>)
    requires forall i :: 0 <= i < |keys| ==> keys[i] in dataMap
    ensures RowKeys(rows) == keys
    ensures forall i :: 0 <= i < |rows| ==>
              rows[i].income == dataMap[keys[i]].income && rows[i].expense == dataMap[keys[i]].expense
    ensures forall i :: 0 <= i < |rows| ==> rows[i].monthlyResult == rows[i].income - rows[i].expense
    ensures forall i :: 0 <= i < |rows| ==> rows[i].runningBalance == SumOf(rows[..i + 1], RowResult)
  {
    rows := [];
    var runningBalance := 0.0;
    for j := 0 to |keys|
      invariant |rows| == j
      invariant forall i :: 0 <= i < j ==> rows[i].key == keys[i]
      invariant forall i :: 0 <= i < j ==>
                  rows[i].income == dataMap[keys[i]].income && rows[i].expense == dataMap[keys[i]].expense
      invariant forall i :: 0 <= i < j ==> rows[i].monthlyResult == rows[i].income - rows[i].expense
      invariant forall i :: 0 <= i < j ==> rows[i].runningBalance == SumOf(rows[..i + 1], RowResult)
      invariant runningBalance == SumOf(rows, RowResult)
    {
      var item := dataMap[keys[j]];
      var monthlyResult := item.income - item.expense;
      runningBalance := runningBalance + monthlyResult;
      var row := MonthRow(keys[j], item.income, item.expense, monthlyResult, runningBalance);
      RunningStep(rows, row);
      rows := rows + [row];
    }
    assert RowKeys(rows) == keys;
  }

  /** Appending a row whose balance is the previous running total plus its own
      result keeps every row's balance the running total up to it. */
  lemma RunningStep(rows: seq<MonthRow>, row: MonthRow)
    requires forall i :: 0 <= i < |rows| ==> rows[i].runningBalance == SumOf(rows[..i + 1], RowResult)
    requires row.runningBalance == SumOf(rows, RowResult) + row.monthlyResult
    ensures forall i :: 0 <= i < |rows| + 1 ==>
              (rows + [row])[i].runningBalance == SumOf((rows + [row])[..i + 1], RowResult)
    ensures SumOf(rows + [row], RowResult) == row.runningBalance
  {
    var next := rows + [row];
    SumOfSnoc(rows, row, RowResult);
    forall i | 0 <= i < |rows| + 1
      ensures next[i].runningBalance == SumOf(next[..i + 1], RowResult)
    {
      if i < |rows| {
        assert next[i] == rows[i] && next[..i + 1] == rows[..i + 1];
      } else {
        assert next[..i + 1] == next;
      }
    }
  }

  /** `historyData`: buckets the transactions by month, walks the months in
      ascending key order carrying the running balance, and totals the rows. */
  method HistoryData(txs: seq<Transaction>) returns (h: History)
    ensures StrictlyAscending(RowKeys(h.monthlyData))
    ensures forall k :: k in RowKeys(h.monthlyData) <==> k in KeySet(txs, KeyOf)
    ensures forall i :: 0 <= i < |h.monthlyData| ==>
              h.monthlyData[i].income == SumOf(txs, AmountIn(KeyOf, h.monthlyData[i].key, true)) &&
              h.monthlyData[i].expense == SumOf(txs, AmountIn(KeyOf, h.monthlyData[i].key, false))
    ensures Ledger(h)
  {
    h := HistoryBy(txs, KeyOf);
  }

  /** The body of `historyData` for any way of naming a transaction's bucket. */
  method HistoryBy(txs: seq<Transaction>, keyOf: Transaction -> string) returns (h: History)
    ensures StrictlyAscending(RowKeys(h.monthlyData))
    ensures forall k :: k in RowKeys(h.monthlyData) <==> k in KeySet(txs, keyOf)
    ensures forall i :: 0 <= i < |h.monthlyData| ==>
              h.monthlyData[i].income == SumOf(txs, AmountIn(keyOf, h.monthlyData[i].key, true)) &&
              h.monthlyData[i].expense == SumOf(txs, AmountIn(keyOf, h.monthlyData[i].key, false))
    ensures Ledger(h)
  {
    var dataMap, sortedKeys := SortedBuckets(txs, keyOf);
    var rows := RunningRows(sortedKeys, dataMap);
    var totalIncome := SumOf(rows, RowIncome);
    var totalExpense := SumOf(rows, RowExpense);
    h := History(rows, totalIncome, totalExpense, totalIncome - totalExpense);
  }

  /** The buckets and `Object.keys(dataMap).sort()`. */
  method SortedBuckets(txs: seq<Transaction>, keyOf: Transaction -> string)
    returns (dataMap: map<string, Bucket>, sortedKeys: seq<string>)
    ensures StrictlyAscending(sortedKeys)
    ensures forall k :: k in sortedKeys <==> k in KeySet(txs, keyOf)
    ensures forall k :: k in sortedKeys ==> k in dataMap && dataMap[k] == BucketOf(txs, keyOf, k)
  {
    var seen;
    dataMap, seen := BucketByMonth(txs, keyOf);
    sortedKeys := SortKeys(seen);
    forall k
      ensures k in sortedKeys <==> k in dataMap
    {
      assert k in sortedKeys <==> k in multiset(seen);
    }
  }

  /** The overall balance equals the running balance of the last month, and is
      zero when there is no month at all. */
  lemma LastRunningBalanceIsTotal(h: History)
    requires Ledger(h)
    ensures h.totalBalance == if h.monthlyData == [] then 0.0
                              else h.monthlyData[|h.monthlyData| - 1].runningBalance
  {
    var rows := h.monthlyData;
    SumOfDifference(rows, RowIncome, RowExpense, RowResult);
    if rows != [] {
      assert rows[..|rows|] == rows;
    }
  }

  // ---------------------------------------------------------------------------
  // The ledger totals against the transactions
  // ---------------------------------------------------------------------------

  /** Income (`income`) or expense of one transaction, as the summary counts it. */
  function Side(income: bool): Transaction -> real
  {
    if income then App.IncomeAmount else App.ExpenseAmount
  }

  /** The income or expense total of bucket `k`. */
  function BucketTotal(txs: seq<Transaction>, keyOf: Transaction -> string, income: bool): string -> real
  {
    k => SumOf(txs, AmountIn(keyOf, k, income))
  }

  /** What one transaction contributes to bucket `k`. */
  function Contribution(tx: Transaction, keyOf: Transaction -> string, income: bool): string -> real
  {
    k => AmountIn(keyOf, k, income)(tx)
  }

  lemma {:induction false} NoContribution(keys: seq<string>, tx: Transaction, keyOf: Transaction -> string, income: bool)
    requires keyOf(tx) !in keys
    ensures SumOf(keys, Contribution(tx, keyOf, income)) == 0.0
    decreases |keys|
  {
    if keys != [] {
      NoContribution(keys[..|keys| - 1], tx, keyOf, income);
      var k := keys[|keys| - 1];
      assert keyOf(tx) != k;
      assert AmountIn(keyOf, k, income)(tx) == 0.0;
      assert Contribution(tx, keyOf, income)(k) == 0.0;
    }
  }

  /** Over keys that name the transaction's bucket exactly once, its
      contributions add up to its amount on that side. */
  lemma {:induction false} SingleContribution(keys: seq<string>, tx: Transaction, keyOf: Transaction -> string, income: bool)
    requires Distinct(keys) && keyOf(tx) in keys
    ensures SumOf(keys, Contribution(tx, keyOf, income)) == Side(income)(tx)
    decreases |keys|
  {
    var init := keys[..|keys| - 1];
    assert keys == init + [keys[|keys| - 1]];
    var c := Contribution(tx, keyOf, income);
    if keys[|keys| - 1] == keyOf(tx) {
      NoContribution(init, tx, keyOf, income);
      assert AmountIn(keyOf, keyOf(tx), income)(tx) == Side(income)(tx);
      assert c(keyOf(tx)) == Side(income)(tx);
    } else {
      SingleContribution(init, tx, keyOf, income);
      assert AmountIn(keyOf, keys[|keys| - 1], income)(tx) == 0.0;
      assert c(keys[|keys| - 1]) == 0.0;
    }
  }

  /** Summing the buckets over a list of distinct keys that covers every
      transaction's bucket gives the plain total over the transactions. */
  lemma {:induction false} BucketsPartition(keys: seq<string>, txs: seq<Transaction>, keyOf: Transaction -> string, income: bool)
    requires Distinct(keys)
    requires forall i :: 0 <= i < |txs| ==> keyOf(txs[i]) in keys
    ensures SumOf(keys, BucketTotal(txs, keyOf, income)) == SumOf(txs, Side(income))
    decreases |txs|
  {
    var total := BucketTotal(txs, keyOf, income);
    if txs == [] {
      SumOfDifference(keys, total, total, total);
    } else {
      var init := txs[..|txs| - 1];
      var last := txs[|txs| - 1];
      BucketsPartition(keys, init, keyOf, income);
      SumOfDifference(keys, total, BucketTotal(init, keyOf, income), Contribution(last, keyOf, income));
      SingleContribution(keys, last, keyOf, income);
    }
  }

  lemma {:induction false} RowsSumBuckets(rows: seq<MonthRow>, txs: seq<Transaction>)
    requires forall i :: 0 <= i < |rows| ==>
               rows[i].income == SumOf(txs, AmountIn(KeyOf, rows[i].key, true)) &&
               rows[i].expense == SumOf(txs, AmountIn(KeyOf, rows[i].key, false))
    ensures SumOf(rows, RowIncome) == SumOf(RowKeys(rows), BucketTotal(txs, KeyOf, true))
    ensures SumOf(rows, RowExpense) == SumOf(RowKeys(rows), BucketTotal(txs, KeyOf, false))
    decreases |rows|
  {
    if rows != [] {
      var init := rows[..|rows| - 1];
      RowsSumBuckets(init, txs);
      assert RowKeys(rows)[..|rows| - 1] == RowKeys(init);
    }
  }

  /** The ledger's totals are the projected income and expenses of the
      summary, taken over every transaction: bucketing by month loses and
      double-counts nothing. */
  lemma HistoryTotalsMatchSummary(txs: seq<Transaction>, h: History)
    requires StrictlyAscending(RowKeys(h.monthlyData))
    requires forall k :: k in RowKeys(h.monthlyData) <==> k in KeySet(txs, KeyOf)
    requires forall i :: 0 <= i < |h.monthlyData| ==>
               h.monthlyData[i].income == SumOf(txs, AmountIn(KeyOf, h.monthlyData[i].key, true)) &&
               h.monthlyData[i].expense == SumOf(txs, AmountIn(KeyOf, h.monthlyData[i].key, false))
    requires Ledger(h)
    ensures h.totalIncome == SumOf(txs, App.IncomeAmount)
    ensures h.totalExpense == SumOf(txs, App.ExpenseAmount)
    ensures h.totalBalance == SumOf(txs, App.IncomeAmount) - SumOf(txs, App.ExpenseAmount)
  {
    var keys := RowKeys(h.monthlyData);
    assert Distinct(keys) by {
      forall i, j | 0 <= i < j < |keys| ensures keys[i] != keys[j] {
        StrLtIrreflexive(keys[i]);
      }
    }
    RowsSumBuckets(h.monthlyData, txs);
    BucketsPartition(keys, txs, KeyOf, true);
    BucketsPartition(keys, txs, KeyOf, false);
  }

  // ---------------------------------------------------------------------------
  // Expenses by category: `categoryData`
  // ---------------------------------------------------------------------------

  function CategoryOf(tx: Transaction): string
  {
    tx.category
  }

  predicate IsExpense(tx: Transaction)
  {
    tx.kind != Income
  }

  /** What a transaction adds to the total of category `c` in the reduce. */
  function InCategory(c: string): Transaction -> real
  {
    (tx: Transaction) => if tx.category == c then tx.amount else 0.0
  }

  function Amount(tx: Transaction): real
  {
    tx.amount
  }

  /** One entry of `rawMap`: a category id and its accumulated amount. */
  datatype CategoryTotal = CategoryTotal(id: string, value: real)

  function TotalValue(e: CategoryTotal): real
  {
    e.value
  }

  function Ids(acc: seq<CategoryTotal>): (ids: seq<string>)
    ensures |ids| == |acc| && forall i :: 0 <= i < |acc| ==> ids[i] == acc[i].id
  {
    seq(|acc|, i requires 0 <= i < |acc| => acc[i].id)
  }

  /** `acc[id] = (acc[id] || 0) + amount` on the entries of a record kept in
      insertion order (a record holds each key once): an existing key keeps its
      place, a new key goes last. */
  function Upsert(acc: seq<CategoryTotal>, id: string, amount: real): (r: seq<CategoryTotal>)
    requires Distinct(Ids(acc))
    ensures Ids(r) == if id in Ids(acc) then Ids(acc) else Ids(acc) + [id]
    ensures forall i :: 0 <= i < |acc| ==>
              r[i].value == acc[i].value + (if acc[i].id == id then amount else 0.0)
    ensures id !in Ids(acc) ==> r[|acc|].value == amount
  {
    if acc == [] then
      [CategoryTotal(id, amount)]
    else
      IdsSplit(acc);
      if acc[0].id == id then
        UpsertHead(acc, amount)
      else
        var rest := Upsert(acc[1..], id, amount);
        UpsertConsIds(acc, id, rest);
        assert |rest| == |Ids(rest)|;
        UpsertConsValues(acc, id, amount, rest);
        [acc[0]] + rest
  }

  /** The ids after the step of `Upsert` past a first entry with another id. */
  lemma UpsertConsIds(acc: seq<CategoryTotal>, id: string, rest: seq<CategoryTotal>)
    requires acc != [] && acc[0].id != id
    requires Ids(acc) == [acc[0].id] + Ids(acc[1..])
    requires Ids(rest) == if id in Ids(acc[1..]) then Ids(acc[1..]) else Ids(acc[1..]) + [id]
    ensures Ids([acc[0]] + rest) == if id in Ids(acc) then Ids(acc) else Ids(acc) + [id]
  {
    IdsCons(acc[0], rest);
    var tail := Ids(acc[1..]);
    assert id in Ids(acc) <==> id in tail;
    if id !in tail {
      assert [acc[0].id] + (tail + [id]) == ([acc[0].id] + tail) + [id];
    }
  }

  /** The values after the step of `Upsert` past a first entry with another id. */
  lemma UpsertConsValues(acc: seq<CategoryTotal>, id: string, amount: real, rest: seq<CategoryTotal>)
    requires acc != [] && acc[0].id != id && |acc| - 1 <= |rest|
    requires forall i :: 0 <= i < |acc| - 1 ==>
               rest[i].value == acc[1..][i].value + (if acc[1..][i].id == id then amount else 0.0)
    requires |acc| - 1 < |rest| ==> rest[|acc| - 1].value == amount
    ensures forall i :: 0 <= i < |acc| ==>
              ([acc[0]] + rest)[i].value == acc[i].value + (if acc[i].id == id then amount else 0.0)
    ensures |acc| - 1 < |rest| ==> ([acc[0]] + rest)[|acc|].value == amount
  {
    var r := [acc[0]] + rest;
    forall i | 0 <= i < |acc|
      ensures r[i].value == acc[i].value + (if acc[i].id == id then amount else 0.0)
    {
      if i > 0 {
        assert r[i] == rest[i - 1] && acc[i] == acc[1..][i - 1];
      }
    }
  }

  /** The ids of a non-empty record are its first id followed by the others',
      which are distinct and do not repeat the first. */
  lemma IdsSplit(acc: seq<CategoryTotal>)
    requires acc != [] && Distinct(Ids(acc))
    ensures Ids(acc) == [acc[0].id] + Ids(acc[1..])
    ensures Distinct(Ids(acc[1..])) && acc[0].id !in Ids(acc[1..])
  {
    var tail := Ids(acc[1..]);
    assert Ids(acc) == [acc[0].id] + tail;
    forall i, j | 0 <= i < j < |tail| ensures tail[i] != tail[j] {
      assert tail[i] == Ids(acc)[i + 1] && tail[j] == Ids(acc)[j + 1];
    }
    forall i | 0 <= i < |tail| ensures tail[i] != acc[0].id {
      assert tail[i] == Ids(acc)[i + 1];
    }
  }

  lemma IdsCons(e: CategoryTotal, rest: seq<CategoryTotal>)
    ensures Ids([e] + rest) == [e.id] + Ids(rest)
  {
    var whole, parts := Ids([e] + rest), [e.id] + Ids(rest);
    forall i | 0 <= i < |whole| ensures whole[i] == parts[i] {
      if i > 0 {
        assert ([e] + rest)[i] == rest[i - 1];
      }
    }
  }

  /** Adding to the first entry of a record whose ids are distinct. */
  function UpsertHead(acc: seq<CategoryTotal>, amount: real): (r: seq<CategoryTotal>)
    requires acc != [] && acc[0].id !in Ids(acc[1..])
    ensures Ids(r) == Ids(acc)
    ensures |r| == |acc| && r[0].value == acc[0].value + amount
    ensures forall i :: 1 <= i < |acc| ==> r[i] == acc[i] && acc[i].id != acc[0].id
  {
    var h := acc[0].(value := acc[0].value + amount);
    SameHeadIds(acc, h);
    HeadIdUnique(acc);
    [h] + acc[1..]
  }

  lemma SameHeadIds(acc: seq<CategoryTotal>, h: CategoryTotal)
    requires acc != [] && h.id == acc[0].id
    ensures Ids([h] + acc[1..]) == Ids(acc)
  {
    IdsCons(h, acc[1..]);
    IdsCons(acc[0], acc[1..]);
    assert [acc[0]] + acc[1..] == acc;
  }

  lemma HeadIdUnique(acc: seq<CategoryTotal>)
    requires acc != [] && acc[0].id !in Ids(acc[1..])
    ensures forall i :: 1 <= i < |acc| ==> acc[i].id != acc[0].id
  {
    forall i | 1 <= i < |acc| ensures acc[i].id != acc[0].id {
      assert acc[i].id == Ids(acc[1..])[i - 1];
    }
  }

  /** Every call of the reducer adds its amount to the record exactly once. */
  lemma {:induction false} UpsertSum(acc: seq<CategoryTotal>, id: string, amount: real)
    requires Distinct(Ids(acc))
    ensures SumOf(Upsert(acc, id, amount), TotalValue) == SumOf(acc, TotalValue) + amount
    decreases |acc|
  {
    if acc != [] {
      IdsSplit(acc);
      if acc[0].id == id {
        UpsertSumAtHead(acc, id, amount);
      } else {
        UpsertSum(acc[1..], id, amount);
        UpsertSumPastHead(acc, id, amount);
      }
    }
  }

  lemma UpsertSumAtHead(acc: seq<CategoryTotal>, id: string, amount: real)
    requires acc != [] && acc[0].id == id && Distinct(Ids(acc))
    requires Ids(acc) == [acc[0].id] + Ids(acc[1..]) && acc[0].id !in Ids(acc[1..])
    ensures SumOf(Upsert(acc, id, amount), TotalValue) == SumOf(acc, TotalValue) + amount
  {
    var h' := acc[0].(value := acc[0].value + amount);
    assert Upsert(acc, id, amount) == UpsertHead(acc, amount) == [h'] + acc[1..];
    SumOfCons(h', acc[1..]);
    SumOfSplit(acc);
  }

  lemma UpsertSumPastHead(acc: seq<CategoryTotal>, id: string, amount: real)
    requires acc != [] && acc[0].id != id && Distinct(Ids(acc))
    requires Distinct(Ids(acc[1..]))
    requires SumOf(Upsert(acc[1..], id, amount), TotalValue) == SumOf(acc[1..], TotalValue) + amount
    ensures SumOf(Upsert(acc, id, amount), TotalValue) == SumOf(acc, TotalValue) + amount
  {
    var rest := Upsert(acc[1..], id, amount);
    assert Upsert(acc, id, amount) == [acc[0]] + rest;
    SumOfCons(acc[0], rest);
    SumOfSplit(acc);
  }

  lemma SumOfSplit(acc: seq<CategoryTotal>)
    requires acc != []
    ensures SumOf(acc, TotalValue) == acc[0].value + SumOf(acc[1..], TotalValue)
  {
    assert acc == [acc[0]] + acc[1..];
    SumOfCons(acc[0], acc[1..]);
  }

  lemma SumOfCons(e: CategoryTotal, rest: seq<CategoryTotal>)
    ensures SumOf([e] + rest, TotalValue) == e.value + SumOf(rest, TotalValue)
  {
    SumOfAppend([e], rest, TotalValue);
    assert SumOf([e], TotalValue) == e.value by {
      assert [e][..0] == [];
    }
  }

  lemma {:induction false} EmptyCategory(s: seq<Transaction>, c: string)
    ensures c !in KeySet(s, CategoryOf) ==> SumOf(s, InCategory(c)) == 0.0
    decreases |s|
  {
    if s != [] {
      EmptyCategory(s[..|s| - 1], c);
    }
  }

  /** The reduce runs over the expenses only; summing a category there is
      summing its expenses over all transactions. */
  lemma FilteredCategorySum(txs: seq<Transaction>, c: string)
    ensures SumOf(Filter(txs, IsExpense), InCategory(c)) == SumOf(txs, AmountIn(CategoryOf, c, false))
  {
    forall j | 0 <= j < |txs|
      ensures AmountIn(CategoryOf, c, false)(txs[j]) ==
                if IsExpense(txs[j]) then InCategory(c)(txs[j]) else 0.0
    {
      var tx := txs[j];
      var key: Transaction -> string := CategoryOf;
      assert key(tx) == tx.category;
      if tx.category == c {
        assert AmountIn(CategoryOf, c, false)(tx) == App.ExpenseAmount(tx);
      } else {
        assert AmountIn(CategoryOf, c, false)(tx) == 0.0;
      }
    }
    SumOfFilter(txs, IsExpense, InCategory(c), AmountIn(CategoryOf, c, false));
  }

  /** The `reduce` that builds `rawMap`: each category once, in order of first
      appearance, holding the sum of its amounts. */
  function RawTotals(s: seq<Transaction>): (r: seq<CategoryTotal>)
    ensures Distinct(Ids(r))
    ensures forall c :: c in Ids(r) <==> c in KeySet(s, CategoryOf)
    ensures forall i :: 0 <= i < |r| ==> r[i].value == SumOf(s, InCategory(r[i].id))
    decreases |s|
  {
    if s == [] then []
    else
      var init := s[..|s| - 1];
      var tx := s[|s| - 1];
      var acc := RawTotals(init);
      EmptyCategory(init, tx.category);
      var r := Upsert(acc, tx.category, tx.amount);
      assert forall i :: 0 <= i < |r| ==> r[i].value == SumOf(s, InCategory(r[i].id)) by {
        forall i | 0 <= i < |r|
          ensures r[i].value == SumOf(s, InCategory(r[i].id))
        {
          assert Ids(r)[i] == r[i].id;
          if i < |acc| {
            assert Ids(acc)[i] == acc[i].id;
            assert InCategory(acc[i].id)(tx) == if tx.category == acc[i].id then tx.amount else 0.0;
          } else {
            assert r[i].id == tx.category;
          }
        }
      }
      r
  }

  /** The record's values add up to the amounts reduced. */
  lemma {:induction false} RawTotalsSum(s: seq<Transaction>)
    ensures SumOf(RawTotals(s), TotalValue) == SumOf(s, Amount)
    decreases |s|
  {
    if s != [] {
      RawTotalsSum(s[..|s| - 1]);
      UpsertSum(RawTotals(s[..|s| - 1]), s[|s| - 1].category, s[|s| - 1].amount);
    }
  }

  /** The categories that have at least one expense. */
  function ExpenseCategories(txs: seq<Transaction>): set<string>
  {
    KeySet(Filter(txs, IsExpense), CategoryOf)
  }

  /** `Object.entries(rawMap)`: one entry per category with expenses. */
  function CategoryEntries(txs: seq<Transaction>): (r: seq<CategoryTotal>)
    ensures Distinct(Ids(r))
    ensures forall c :: c in Ids(r) <==> c in ExpenseCategories(txs)
    ensures forall i :: 0 <= i < |r| ==>
              r[i].value == SumOf(txs, AmountIn(CategoryOf, r[i].id, false))
    ensures SumOf(r, TotalValue) == SumOf(txs, App.ExpenseAmount)
  {
    var expenses := Filter(txs, IsExpense);
    var r := RawTotals(expenses);
    assert forall c :: SumOf(expenses, InCategory(c)) == SumOf(txs, AmountIn(CategoryOf, c, false)) by {
      forall c
        ensures SumOf(expenses, InCategory(c)) == SumOf(txs, AmountIn(CategoryOf, c, false))
      {
        FilteredCategorySum(txs, c);
      }
    }
    RawTotalsSum(expenses);
    SumOfFilter(txs, IsExpense, Amount, App.ExpenseAmount);
    r
  }

  lemma {:induction false} KeySetMembers(s: seq<Transaction>, keyOf: Transaction -> string)
    ensures forall k :: k in KeySet(s, keyOf) <==> exists i :: 0 <= i < |s| && keyOf(s[i]) == k
    decreases |s|
  {
    if s != [] {
      var init := s[..|s| - 1];
      KeySetMembers(init, keyOf);
      forall k | k in KeySet(s, keyOf)
        ensures exists i :: 0 <= i < |s| && keyOf(s[i]) == k
      {
        if k in KeySet(init, keyOf) {
          var i :| 0 <= i < |init| && keyOf(init[i]) == k;
          assert s[i] == init[i];
        }
      }
    }
  }

  /** A category has an entry exactly when some transaction that is not income
      carries it. */
  lemma ExpenseCategoriesMembers(txs: seq<Transaction>)
    ensures forall c :: c in ExpenseCategories(txs) <==>
              exists j :: 0 <= j < |txs| && IsExpense(txs[j]) && txs[j].category == c
  {
    forall c
      ensures c in ExpenseCategories(txs) <==>
                exists j :: 0 <= j < |txs| && IsExpense(txs[j]) && txs[j].category == c
    {
      if c in ExpenseCategories(txs) {
        CategoryHasExpense(txs, c);
      }
      if exists j :: 0 <= j < |txs| && IsExpense(txs[j]) && txs[j].category == c {
        var j :| 0 <= j < |txs| && IsExpense(txs[j]) && txs[j].category == c;
        ExpenseHasCategory(txs, j);
      }
    }
  }

  lemma CategoryHasExpense(txs: seq<Transaction>, c: string)
    requires c in ExpenseCategories(txs)
    ensures exists j :: 0 <= j < |txs| && IsExpense(txs[j]) && txs[j].category == c
  {
    var expenses := Filter(txs, IsExpense);
    KeySetMembers(expenses, CategoryOf);
    var i :| 0 <= i < |expenses| && CategoryOf(expenses[i]) == c;
    assert expenses[i] in txs && IsExpense(expenses[i]);
    var j :| 0 <= j < |txs| && txs[j] == expenses[i];
  }

  lemma ExpenseHasCategory(txs: seq<Transaction>, j: nat)
    requires j < |txs| && IsExpense(txs[j])
    ensures txs[j].category in ExpenseCategories(txs)
  {
    var expenses := Filter(txs, IsExpense);
    KeySetMembers(expenses, CategoryOf);
    assert txs[j] in expenses;
    var i :| 0 <= i < |expenses| && expenses[i] == txs[j];
    assert CategoryOf(expenses[i]) == txs[j].category;
  }

  /** One slice of the pie chart. */
  datatype CategorySlice = CategorySlice(name: string, value: real, color: string, rawColor: string)

  function SliceValue(sl: CategorySlice): real
  {
    sl.value
  }

  /** `cat?.name.split('/')[0] || 'Outros'`. */
  function DisplayName(cat: Option<Category>): (r: string)
    ensures r != [] && '/' !in r
    ensures cat.None? ==> r == "Outros"
    ensures cat.Some? && ShortName(cat.value) != [] ==> r == ShortName(cat.value)
  {
    match cat
    case None => "Outros"
    case Some(c) => if ShortName(c) == [] then "Outros" else ShortName(c)
  }

  /** `cat?.color || 'bg-slate-500'`. */
  function DisplayColor(cat: Option<Category>): (r: string)
    ensures r != []
    ensures cat.None? ==> r == "bg-slate-500"
    ensures cat.Some? && cat.value.color != [] ==> r == cat.value.color
  {
    match cat
    case None => "bg-slate-500"
    case Some(c) => if c.color == [] then "bg-slate-500" else c.color
  }

  /** The colour words the chart looks for in a category's colour classes, in
      the order it tries them, and the hex colour each one selects. */
  const CHART_KEYWORDS: seq<string> := ["cyan", "fuchsia", "red", "emerald", "yellow"]
  const CHART_HEXES: seq<string> := ["#06b6d4", "#d946ef", "#f43f5e", "#10b981", "#eab308"]
  /** The chart colour of a category that mentions none of the colour words. */
  const CHART_DEFAULT: string := "#8b5cf6"

  /** The colour classes mention the `k`-th colour word and none tried before it. */
  predicate FirstMention(color: string, k: nat)
    requires k < |CHART_KEYWORDS|
  {
    Contains(color, CHART_KEYWORDS[k]) && forall j :: 0 <= j < k ==> !Contains(color, CHART_KEYWORDS[j])
  }

  /** The colour words from the `i`-th on, tried in order. */
  function KeywordColor(color: string, i: nat): (r: string)
    requires i <= |CHART_KEYWORDS|
    requires forall j :: 0 <= j < i ==> !Contains(color, CHART_KEYWORDS[j])
    ensures forall k :: i <= k < |CHART_KEYWORDS| && FirstMention(color, k) ==> r == CHART_HEXES[k]
    ensures (forall k :: i <= k < |CHART_KEYWORDS| ==> !Contains(color, CHART_KEYWORDS[k])) ==> r == CHART_DEFAULT
    decreases |CHART_KEYWORDS| - i
  {
    if i == |CHART_KEYWORDS| then CHART_DEFAULT
    else if Contains(color, CHART_KEYWORDS[i]) then CHART_HEXES[i]
    else KeywordColor(color, i + 1)
  }

  /** The chart colour: the first of cyan, fuchsia, red, emerald and yellow that
      the category's colour classes mention, else violet. */
  function RawColor(cat: Option<Category>): (r: string)
    ensures r in ["#06b6d4", "#d946ef", "#f43f5e", "#10b981", "#eab308", "#8b5cf6"]
    ensures cat.None? ==> r == CHART_DEFAULT
    ensures cat.Some? ==> forall k :: 0 <= k < |CHART_KEYWORDS| && FirstMention(cat.value.color, k) ==> r == CHART_HEXES[k]
    ensures cat.Some? && (forall k :: 0 <= k < |CHART_KEYWORDS| ==> !Contains(cat.value.color, CHART_KEYWORDS[k])) ==> r == CHART_DEFAULT
    ensures cat.Some? && Contains(cat.value.color, "cyan") ==> r == "#06b6d4"
  {
    match cat
    case None => CHART_DEFAULT
    case Some(c) => KeywordColor(c.color, 0)
  }

  /** The rent category is drawn in cyan. */
  lemma RentIsCyan()
    ensures RawColor(FindCategory("rent")) == "#06b6d4"
  {
    RentEntry();
    RentColorIsCyan();
  }

  lemma RentColorIsCyan()
    ensures Contains(RENT_COLOR, "cyan")
  {
    assert RENT_COLOR[5..9] == "cyan" by {
      assert RENT_COLOR[5] == 'c' && RENT_COLOR[6] == 'y' && RENT_COLOR[7] == 'a' && RENT_COLOR[8] == 'n';
    }
    MentionsAt(RENT_COLOR, "cyan", 5);
  }

  lemma RentEntry()
    ensures FindCategory("rent") == Some(CATEGORIES[0])
  {
    assert CATEGORIES[0].id == "rent";
  }

  /** A text that holds `sub` at position `i` mentions it. */
  lemma MentionsAt(s: string, sub: string, i: nat)
    requires i + |sub| <= |s| && s[i..i + |sub|] == sub
    ensures Contains(s, sub)
  {
    assert OccursAt(s, sub, i);
    ContainsIffOccurs(s, sub);
  }

  /** The slice of a category total: its display name and colours come from
      the catalog entry with its id. */
  function Resolve(e: CategoryTotal): (sl: CategorySlice)
    ensures sl.value == e.value
    ensures sl.name == DisplayName(FindCategory(e.id))
    ensures sl.color == DisplayColor(FindCategory(e.id))
    ensures sl.rawColor == RawColor(FindCategory(e.id))
  {
    var cat := FindCategory(e.id);
    CategorySlice(DisplayName(cat), e.value, DisplayColor(cat), RawColor(cat))
  }

  function Resolved(es: seq<CategoryTotal>): (r: seq<CategorySlice>)
    ensures |r| == |es| && forall i :: 0 <= i < |es| ==> r[i] == Resolve(es[i])
  {
    seq(|es|, i requires 0 <= i < |es| => Resolve(es[i]))
  }

  lemma ResolvedSum(es: seq<CategoryTotal>)
    ensures SumOf(Resolved(es), SliceValue) == SumOf(es, TotalValue)
  {
    SumOfPointwise(Resolved(es), SliceValue, es, TotalValue);
  }

  /** `categoryData`: the resolved entries, largest expense first. */
  function CategoryData(txs: seq<Transaction>): (r: seq<CategorySlice>)
    ensures SortedDesc(r, SliceValue)
    ensures multiset(r) == multiset(Resolved(CategoryEntries(txs)))
  {
    SortDesc(Resolved(CategoryEntries(txs)), SliceValue)
  }

  /** The slices of the pie chart add up to all expenses, whatever their type. */
  lemma CategoryDataTotal(txs: seq<Transaction>)
    ensures SumOf(CategoryData(txs), SliceValue) == SumOf(txs, App.ExpenseAmount)
  {
    var es := CategoryEntries(txs);
    ResolvedSum(es);
    SumOfPermutation(CategoryData(txs), Resolved(es), SliceValue);
  }

  /** Every slice is the resolved entry of one category with expenses, and its
      value is that category's expense total. */
  lemma CategoryDataSlices(txs: seq<Transaction>)
    ensures forall sl :: sl in CategoryData(txs) ==>
              exists c :: c in ExpenseCategories(txs) && sl == Resolve(CategoryTotal(c, SumOf(txs, AmountIn(CategoryOf, c, false))))
  {
    forall sl | sl in CategoryData(txs)
      ensures exists c :: c in ExpenseCategories(txs) && sl == Resolve(CategoryTotal(c, SumOf(txs, AmountIn(CategoryOf, c, false))))
    {
      SliceOfCategory(txs, sl);
    }
  }

  lemma SliceOfCategory(txs: seq<Transaction>, sl: CategorySlice)
    requires sl in CategoryData(txs)
    ensures exists c :: c in ExpenseCategories(txs) && sl == Resolve(CategoryTotal(c, SumOf(txs, AmountIn(CategoryOf, c, false))))
  {
    var es := CategoryEntries(txs);
    MappedMember(es, Resolved(es), Resolve, CategoryData(txs), sl);
    var i :| 0 <= i < |es| && sl == Resolve(es[i]);
    var c := es[i].id;
    assert Ids(es)[i] == c;
    assert es[i] == CategoryTotal(c, SumOf(txs, AmountIn(CategoryOf, c, false)));
    assert c in ExpenseCategories(txs);
  }
}
