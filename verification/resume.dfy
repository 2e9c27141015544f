/** The "Resumo por Categoria" screen: the month selector and the per-category breakdown of one
    month's expenses. */
module Resume {
  import opened Finance
  import opened RecordStore

  // ---------------------------------------------------------------------------------------------
  // Month navigation

  datatype DateAction = Next | Prev

  /** The month after `d`; December rolls over to January of the next year. */
  function AddMonth(d: MonthYear): (r: MonthYear)
    ensures MonthNumber(r) == MonthNumber(d) + 1
  {
    if d.month == 11 then MonthYear(0, d.year + 1) else MonthYear(d.month + 1, d.year)
  }

  /** The month before `d`; January rolls back to December of the previous year. */
  function SubMonth(d: MonthYear): (r: MonthYear)
    ensures MonthNumber(r) == MonthNumber(d) - 1
  {
    if d.month == 0 then MonthYear(11, d.year - 1) else MonthYear(d.month - 1, d.year)
  }

  /** Going forward then back, or back then forward, returns to the same month. */
  lemma NavigationRoundTrip(d: MonthYear)
    ensures SubMonth(AddMonth(d)) == d
    ensures AddMonth(SubMonth(d)) == d
  {
    MonthNumberInjective(SubMonth(AddMonth(d)), d);
    MonthNumberInjective(AddMonth(SubMonth(d)), d);
  }

  /** December steps to January of the following year. */
  lemma DecemberWraps(year: int)
    ensures AddMonth(MonthYear(11, year)) == MonthYear(0, year + 1)
    ensures SubMonth(MonthYear(0, year + 1)) == MonthYear(11, year)
  {
  }

  // ---------------------------------------------------------------------------------------------
  // Selecting the month's expenses

  /** A record the summary counts: an expense dated in the selected month and year. */
  predicate IsMonthExpense(t: Transaction, selected: MonthYear)
  {
    t.kind == Negative && t.date.month == selected.month && t.date.year == selected.year
  }

  /** The records kept by the filter over the stored list, in their stored order. */
  function Expenses(records: seq<Transaction>, selected: MonthYear): (r: seq<Transaction>)
    ensures |r| <= |records|
    ensures forall t :: t in r <==> t in records && IsMonthExpense(t, selected)
  {
    if records == [] then []
    else
      (if IsMonthExpense(records[0], selected) then [records[0]] else [])
      + Expenses(records[1..], selected)
  }

  /** The filter works record by record: filtering a concatenation concatenates the filtered parts,
      so the kept records stay in their original order. */
  lemma {:induction false} ExpensesAppend(a: seq<Transaction>, b: seq<Transaction>, selected: MonthYear)
    ensures Expenses(a + b, selected) == Expenses(a, selected) + Expenses(b, selected)
  {
    if a == [] {
      assert a + b == b;
    } else {
      assert (a + b)[1..] == a[1..] + b;
      ExpensesAppend(a[1..], b, selected);
    }
  }

  /** What the filter does with a single record. */
  lemma ExpensesSingle(t: Transaction, selected: MonthYear)
    ensures Expenses([t], selected) == if IsMonthExpense(t, selected) then [t] else []
  {
  }

  /** The call on line 76 as written: `fiter` is not a member of a JavaScript array, so the call throws
      a TypeError whatever the stored list holds, and the load stops there. */
  function ExpensesAsWritten(records: seq<Transaction>, selected: MonthYear): (r: Result<seq<Transaction>>)
    ensures r.Failure?
  {
    Failure("TypeError: responseFormatted.fiter is not a function")
  }

  /** As written, even an empty store produces no summary, where the intended filter yields the
      empty list of expenses. */
  lemma FiterAbortsLoad(selected: MonthYear)
    ensures ExpensesAsWritten([], selected) != Success(Expenses([], selected))
    ensures Expenses([], selected) == []
  {
  }

  // ---------------------------------------------------------------------------------------------
  // Per-category totals

  /** The reference data for one category. */
  datatype Category = Category(key: string, name: string, color: string)

  /** One line of the breakdown; `percent` is the share of the month's expenses, rounded to a whole
      number (the currency-formatted total and the `%` string are presentation). */
  datatype CategoryRow = CategoryRow(key: string, name: string, color: string, total: nat, percent: nat)

  /** Sum of the amounts of the records whose category key is in `keys`. */
  function SpendIn(es: seq<Transaction>, keys: set<string>): (r: nat)
    ensures r <= Sum(es)
    ensures (forall t :: t in es ==> t.category in keys) ==> r == Sum(es)
    ensures (forall t :: t in es ==> t.category !in keys) ==> r == 0
  {
    if es == [] then 0
    else
      var last := es[|es| - 1];
      assert forall t :: t in es[..|es| - 1] ==> t in es;
      SpendIn(es[..|es| - 1], keys) + (if last.category in keys then last.amount else 0)
  }

  /** What the inner loop accumulates for one category: the amounts of the expenses filed under its key. */
  function CategorySpend(es: seq<Transaction>, key: string): (r: nat)
    ensures r <= Sum(es)
    ensures (forall t :: t in es ==> t.category == key) ==> r == Sum(es)
    ensures (forall t :: t in es ==> t.category != key) ==> r == 0
  {
    SpendIn(es, {key})
  }

  /** Spend over a set of keys splits into the spend over one more key and the rest. */
  lemma {:induction false} SpendSplit(es: seq<Transaction>, keys: set<string>, k: string)
    requires k !in keys
    ensures SpendIn(es, keys + {k}) == SpendIn(es, keys) + CategorySpend(es, k)
  {
    if es != [] {
      SpendSplit(es[..|es| - 1], keys, k);
    }
  }

  /** `part` as a percentage of `total`, rounded to the nearest whole number with halves rounded up,
      as `toFixed(0)` does on a non-negative number. */
  function Percent(part: nat, total: nat): (p: nat)
    requires 0 < total
    ensures (2 * p - 1) * total <= 200 * part < (2 * p + 1) * total
    ensures part <= total ==> p <= 100
  {
    var p := (200 * part + total) / (2 * total);
    RoundedShareBounds(part, total, p);
    p
  }

  /** The quotient that `Percent` takes is within half a point of the exact share. */
  lemma RoundedShareBounds(part: nat, total: nat, p: int)
    requires 0 < total && p == (200 * part + total) / (2 * total)
    ensures 0 <= p
    ensures (2 * p - 1) * total <= 200 * part < (2 * p + 1) * total
    ensures part <= total ==> p <= 100
  {
    assert 2 * total * p <= 200 * part + total < 2 * total * p + 2 * total;
    if part <= total && p > 100 {
      MulMonotone(2 * total, 101, p);
      assert false;
    }
  }

  lemma MulMonotone(a: nat, b: int, c: int)
    requires b <= c
    ensures a * b <= a * c
  {
  }

  /** The rows the per-category pass produces, specified over the categories in order: a category
      gets a row exactly when its spend is positive, and the row is appended after those of the
      categories before it. The denominator of every percent is the month's expense total. */
  function TotalByCategory(categories: seq<Category>, es: seq<Transaction>): (rows: seq<CategoryRow>)
    ensures |rows| <= |categories|
    ensures rows != [] ==> Sum(es) > 0
    ensures forall i :: 0 <= i < |rows| ==>
              0 < rows[i].total == CategorySpend(es, rows[i].key) && rows[i].total <= Sum(es)
              && rows[i].percent == Percent(rows[i].total, Sum(es)) && rows[i].percent <= 100
  {
    if categories == [] then []
    else
      var rows := TotalByCategory(categories[..|categories| - 1], es);
      var category := categories[|categories| - 1];
      var categorySum := CategorySpend(es, category.key);
      if categorySum > 0 then
        rows + [CategoryRow(category.key, category.name, category.color, categorySum,
                            Percent(categorySum, Sum(es)))]
      else rows
  }

  /** The nested `forEach` passes of `loadData`: for each category in turn, add up the amounts of
      its expenses and push a row when the sum is positive. */
  method ComputeTotalByCategory(categories: seq<Category>, expensives: seq<Transaction>, expensivesTotal: nat)
    returns (totalByCategory: seq<CategoryRow>)
    requires expensivesTotal == Sum(expensives)
    ensures totalByCategory == TotalByCategory(categories, expensives)
  {
    totalByCategory := [];
    var i := 0;
    while i < |categories|
      invariant 0 <= i <= |categories|
      invariant totalByCategory == TotalByCategory(categories[..i], expensives)
    {
      var category := categories[i];
      var categorySum := 0;
      var j := 0;
      while j < |expensives|
        invariant 0 <= j <= |expensives|
        invariant categorySum == CategorySpend(expensives[..j], category.key)
      {
        assert expensives[..j + 1][..j] == expensives[..j];
        if expensives[j].category == category.key {
          categorySum := categorySum + expensives[j].amount;
        }
        j := j + 1;
      }
      assert expensives[..j] == expensives;
      if categorySum > 0 {
        var percent := Percent(categorySum, expensivesTotal);
        totalByCategory := totalByCategory + [CategoryRow(category.key, category.name, category.color, categorySum, percent)];
      }
      assert categories[..i + 1][..i] == categories[..i];
      i := i + 1;
    }
    assert categories[..i] == categories;
  }

  // ---------------------------------------------------------------------------------------------
  // Properties of the breakdown

  /** The keys of the categories. */
  function KeySet(categories: seq<Category>): set<string>
  {
    if categories == [] then {} else KeySet(categories[..|categories| - 1]) + {categories[|categories| - 1].key}
  }

  /** A position in the list at which a key of `KeySet` occurs. */
  lemma {:induction false} KeyIndex(categories: seq<Category>, k: string) returns (i: nat)
    requires k in KeySet(categories)
    ensures i < |categories| && categories[i].key == k
  {
    var n := |categories| - 1;
    if categories[n].key == k {
      i := n;
    } else {
      i := KeyIndex(categories[..n], k);
    }
  }

  predicate DistinctKeys(categories: seq<Category>)
  {
    forall i, j :: 0 <= i < j < |categories| ==> categories[i].key != categories[j].key
  }

  /** Sum of the rows' totals. */
  function RowsTotal(rows: seq<CategoryRow>): nat
  {
    if rows == [] then 0 else RowsTotal(rows[..|rows| - 1]) + rows[|rows| - 1].total
  }

  /** Sum of the rows' percents. */
  function PercentTotal(rows: seq<CategoryRow>): nat
  {
    if rows == [] then 0 else PercentTotal(rows[..|rows| - 1]) + rows[|rows| - 1].percent
  }

  /** The rows follow the category list: row `i` is copied from category `idx[i]`, the indices
      strictly increase (so each category has at most one row, in list order), and every category
      with positive spend has a row. */
  lemma {:induction false} RowsFollowCategories(categories: seq<Category>, es: seq<Transaction>)
    returns (idx: seq<nat>)
    ensures var rows := TotalByCategory(categories, es);
            |idx| == |rows|
            && (forall i :: 0 <= i < |idx| ==>
                  (idx[i] < |categories|
                   && rows[i].key == categories[idx[i]].key
                   && rows[i].name == categories[idx[i]].name
                   && rows[i].color == categories[idx[i]].color))
            && (forall i, j :: 0 <= i < j < |idx| ==> idx[i] < idx[j])
            && (forall c :: 0 <= c < |categories| && CategorySpend(es, categories[c].key) > 0 ==> c in idx)
  {
    if categories == [] {
      idx := [];
    } else {
      var n := |categories| - 1;
      var prefix := categories[..n];
      var idx' := RowsFollowCategories(prefix, es);
      var category := categories[n];
      if CategorySpend(es, category.key) > 0 {
        idx := idx' + [n];
      } else {
        idx := idx';
      }
    }
  }

  /** Dropping the last category keeps the keys distinct, and the last key is not among the others. */
  lemma DistinctKeysPrefix(categories: seq<Category>)
    requires DistinctKeys(categories) && categories != []
    ensures DistinctKeys(categories[..|categories| - 1])
    ensures categories[|categories| - 1].key !in KeySet(categories[..|categories| - 1])
  {
    var n := |categories| - 1;
    var prefix := categories[..n];
    if categories[n].key in KeySet(prefix) {
      var i := KeyIndex(prefix, categories[n].key);
      assert false;
    }
  }

  /** One more category adds its spend to the rows' total, whether or not it gets a row. */
  lemma RowsTotalStep(categories: seq<Category>, es: seq<Transaction>)
    requires categories != []
    ensures RowsTotal(TotalByCategory(categories, es))
         == RowsTotal(TotalByCategory(categories[..|categories| - 1], es))
            + CategorySpend(es, categories[|categories| - 1].key)
  {
    var rows := TotalByCategory(categories, es);
    if rows != TotalByCategory(categories[..|categories| - 1], es) {
      assert rows[..|rows| - 1] == TotalByCategory(categories[..|categories| - 1], es);
    }
  }

  /** With distinct keys, the rows add up to the spend over the known category keys. */
  lemma {:induction false} RowsTotalIsKnownSpend(categories: seq<Category>, es: seq<Transaction>)
    requires DistinctKeys(categories)
    ensures RowsTotal(TotalByCategory(categories, es)) == SpendIn(es, KeySet(categories))
  {
    if categories == [] {
      SpendOfNoKeys(es);
    } else {
      var n := |categories| - 1;
      DistinctKeysPrefix(categories);
      RowsTotalIsKnownSpend(categories[..n], es);
      SpendSplit(es, KeySet(categories[..n]), categories[n].key);
      RowsTotalStep(categories, es);
    }
  }

  lemma {:induction false} SpendOfNoKeys(es: seq<Transaction>)
    ensures SpendIn(es, {}) == 0
  {
    if es != [] {
      SpendOfNoKeys(es[..|es| - 1]);
    }
  }

  /** The rows never account for more than the month's expenses, and account for all of them when
      every expense is filed under a known category key. */
  lemma RowsTotalBounded(categories: seq<Category>, es: seq<Transaction>)
    requires DistinctKeys(categories)
    ensures RowsTotal(TotalByCategory(categories, es)) <= Sum(es)
    ensures (forall t :: t in es ==> t.category in KeySet(categories)) ==>
              RowsTotal(TotalByCategory(categories, es)) == Sum(es)
  {
    RowsTotalIsKnownSpend(categories, es);
  }

  /** Summing the rounding bound of every row: each percent is within half a point of the exact share. */
  lemma {:induction false} PercentBounds(rows: seq<CategoryRow>, total: nat)
    requires 0 < total
    requires forall i :: 0 <= i < |rows| ==> rows[i].percent == Percent(rows[i].total, total)
    ensures (2 * PercentTotal(rows) - |rows|) * total <= 200 * RowsTotal(rows)
    ensures 200 * RowsTotal(rows) <= (2 * PercentTotal(rows) + |rows|) * total
  {
    if rows != [] {
      var n := |rows| - 1;
      var prefix := rows[..n];
      var row := rows[n];
      PercentBounds(prefix, total);
      assert row.percent == Percent(row.total, total);
      AddRoundingBounds(PercentTotal(prefix), n, RowsTotal(prefix), row.percent, row.total, total);
    }
  }

  /** Adding one row's rounding bound to the bound of the rows before it. */
  lemma AddRoundingBounds(pSum: int, n: int, sSum: int, p: int, s: int, total: int)
    requires (2 * pSum - n) * total <= 200 * sSum <= (2 * pSum + n) * total
    requires (2 * p - 1) * total <= 200 * s <= (2 * p + 1) * total
    ensures (2 * (pSum + p) - (n + 1)) * total <= 200 * (sSum + s) <= (2 * (pSum + p) + (n + 1)) * total
  {
    assert (2 * (pSum + p) - (n + 1)) * total == (2 * pSum - n) * total + (2 * p - 1) * total;
    assert (2 * (pSum + p) + (n + 1)) * total == (2 * pSum + n) * total + (2 * p + 1) * total;
  }

  /** When every expense is filed under one of the (distinctly keyed) categories, the percents add
      up to 100 up to half a point of rounding per row. */
  lemma PercentsNearHundred(categories: seq<Category>, es: seq<Transaction>)
    requires DistinctKeys(categories)
    requires forall t :: t in es ==> t.category in KeySet(categories)
    ensures var rows := TotalByCategory(categories, es);
            rows != [] ==> 200 - |rows| <= 2 * PercentTotal(rows) <= 200 + |rows|
  {
    var rows := TotalByCategory(categories, es);
    RowsTotalBounded(categories, es);
    if rows != [] {
      var total, p, n := Sum(es), PercentTotal(rows), |rows|;
      PercentBounds(rows, total);
      assert (2 * p - n - 200) * total == (2 * p - n) * total - 200 * total;
      assert (200 - 2 * p - n) * total == 200 * total - (2 * p + n) * total;
      CancelFactor(2 * p - n - 200, total);
      CancelFactor(200 - 2 * p - n, total);
    }
  }

  lemma CancelFactor(a: int, t: int)
    requires 0 < t && a * t <= 0
    ensures a <= 0
  {
    if a > 0 {
      MulMonotone(t, 1, a);
    }
  }

  // ---------------------------------------------------------------------------------------------
  // The summary of a stored list

  /** The breakdown `loadData` computes for the selected month from a user's stored list. */
  function Summary(records: seq<Transaction>, selected: MonthYear, categories: seq<Category>): (rows: seq<CategoryRow>)
    ensures records == [] ==> rows == []
    ensures |rows| <= |categories|
    ensures forall i :: 0 <= i < |rows| ==>
              0 < rows[i].total == CategorySpend(Expenses(records, selected), rows[i].key)
              && rows[i].total <= Sum(Expenses(records, selected))
  {
    TotalByCategory(categories, Expenses(records, selected))
  }

  /** Without expenses there is no row, whatever the categories. */
  lemma NoExpensesNoRows(categories: seq<Category>)
    ensures TotalByCategory(categories, []) == []
  {
  }

  /** A user with nothing stored sees an empty breakdown. */
  lemma MissingDataYieldsNoRows(storage: Storage, userId: string, selected: MonthYear, categories: seq<Category>)
    requires DataKey(userId) !in storage
    ensures Summary(Load(storage, userId), selected, categories) == []
  {
    NoExpensesNoRows(categories);
  }

  /** Registering a record for a user adds it to the end of that user's month expenses exactly when
      it is an expense of the selected month, and changes nothing that any other user sees. */
  lemma RegisteredRecordInSummary(storage: Storage, userId: string, t: Transaction, selected: MonthYear, other: string)
    requires other != userId
    ensures Expenses(Load(Append(storage, userId, t), userId), selected)
         == Expenses(Load(storage, userId), selected) + (if IsMonthExpense(t, selected) then [t] else [])
    ensures Load(Append(storage, userId, t), other) == Load(storage, other)
  {
    ExpensesAppend(Load(storage, userId), [t], selected);
    ExpensesSingle(t, selected);
    AppendIsolated(storage, userId, other, t);
  }

  /** The records of the worked example below: an income of 1000 and two expenses under "food". */
  function FoodRecords(): seq<Transaction>
  {
    var jan := MonthYear(0, 2021);
    [Transaction("1", "salary", 1000, Positive, "salary", jan),
     Transaction("2", "lunch", 10, Negative, "food", jan),
     Transaction("3", "dinner", 30, Negative, "food", jan)]
  }

  /** The example's January expenses are the two "food" records, totalling 40. */
  lemma FoodExpenses()
    ensures Expenses(FoodRecords(), MonthYear(0, 2021)) == FoodRecords()[1..]
    ensures Sum(FoodRecords()[1..]) == 40
  {
    var jan, records := MonthYear(0, 2021), FoodRecords();
    assert records[1..][1..][1..] == [];
    assert Expenses(records[1..][1..], jan) == [records[2]];
    assert Expenses(records[1..], jan) == [records[1], records[2]];
    var es := records[1..];
    assert es[..1] == [records[1]] && es[..1][..0] == [];
    assert Sum(es[..1]) == 10;
    assert Sum(es) == Sum(es[..1]) + 30;
  }

  /** Two expenses of 10 and 30 filed under "food" in the selected month, next to an income of
      1000: the total is 40 and "food" is the one row, at 100%. */
  lemma FoodScenario()
    ensures var food := Category("food", "Alimentação", "#FF872C");
            Sum(Expenses(FoodRecords(), MonthYear(0, 2021))) == 40
            && Summary(FoodRecords(), MonthYear(0, 2021), [food])
               == [CategoryRow("food", "Alimentação", "#FF872C", 40, 100)]
  {
    var food := Category("food", "Alimentação", "#FF872C");
    FoodExpenses();
    var es := FoodRecords()[1..];
    assert forall t :: t in es ==> t.category == "food";
    assert CategorySpend(es, "food") == 40;
    assert [food][..0] == [];
    assert Percent(40, 40) == 100;
  }

  // ---------------------------------------------------------------------------------------------
  // The screen state

  /** The screen's state: the selected month, the loading flag and the rows last computed. */
  class ResumeScreen {
    var selectedDate: MonthYear
    var isLoading: bool
    var totalByCategories: seq<CategoryRow>

    /** The screen opens on the current month (a parameter here), idle and empty. */
    constructor (today: MonthYear)
      ensures selectedDate == today && !isLoading && totalByCategories == []
    {
      selectedDate := today;
      isLoading := false;
      totalByCategories := [];
    }

    /** The previous/next buttons move the selection by one month and touch nothing else. */
    method HandleDateChange(action: DateAction)
      modifies this
      ensures selectedDate == (if action == Next then AddMonth(old(selectedDate)) else SubMonth(old(selectedDate)))
      ensures isLoading == old(isLoading) && totalByCategories == old(totalByCategories)
    {
      if action == Next {
        selectedDate := AddMonth(selectedDate);
      } else {
        selectedDate := SubMonth(selectedDate);
      }
    }

    /** Reads the user's list, filters the selected month's expenses, totals them and replaces the
        rows with the per-category breakdown. */
    method LoadData(storage: Storage, userId: string, categories: seq<Category>)
      modifies this
      ensures selectedDate == old(selectedDate) && !isLoading
      ensures totalByCategories == Summary(Load(storage, userId), selectedDate, categories)
    {
      isLoading := true;
      var responseFormatted := Load(storage, userId);
      var expensives := Expenses(responseFormatted, selectedDate);
      var expensivesTotal := Sum(expensives);
      var totalByCategory := ComputeTotalByCategory(categories, expensives, expensivesTotal);
      totalByCategories := totalByCategory;
      isLoading := false;
    }
  }
}
