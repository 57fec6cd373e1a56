/** The reconciliation summary printed after generation: per-category budgeted
    and spent totals folded over the allocations and the Expense rows, the
    per-category "available" figure with its OVER flag, and the global totals. */
module Report {
  import opened Wrappers
  import opened Money
  import opened Budget
  import opened Ledger

  /** The sum of the budgeted amounts of the allocations for category c. */
  function Budgeted(allocs: seq<Allocation>, c: string): int {
    if allocs == [] then 0
    else
      var L := |allocs| - 1;
      Budgeted(allocs[..L], c) + (if allocs[L].categoryName == c then allocs[L].budgeted else 0)
  }

  /** Row t is an Expense row that the spending fold adds to category c
      (rows with an empty category name are skipped). */
  predicate SpendsOn(t: Transaction, c: string) {
    t.Expense? && t.category != "" && t.category == c
  }

  /** The sum of the amounts of the Expense rows of category c. */
  function Spent(txns: seq<Transaction>, c: string): int {
    if txns == [] then 0
    else
      var L := |txns| - 1;
      Spent(txns[..L], c) + (if SpendsOn(txns[L], c) then txns[L].amount else 0)
  }

  /** Line 251: `cb[ba["categoryName"]] += Decimal(ba["budgeted"])` over all allocations. */
  method BudgetedByCategory(allocs: seq<Allocation>) returns (cb: map<string, int>)
    ensures forall c :: c in cb <==> exists i :: 0 <= i < |allocs| && allocs[i].categoryName == c
    ensures forall c :: c in cb ==> cb[c] == Budgeted(allocs, c)
  {
    cb := map[];
    for i := 0 to |allocs|
      invariant forall c :: c in cb <==> exists j :: 0 <= j < i && allocs[j].categoryName == c
      invariant forall c :: c in cb ==> cb[c] == Budgeted(allocs[..i], c)
    {
      assert allocs[..i + 1][..i] == allocs[..i];
      var cn := allocs[i].categoryName;
      var prev := if cn in cb then cb[cn] else 0;
      if cn !in cb { BudgetedNone(allocs[..i], cn); }
      cb := cb[cn := prev + allocs[i].budgeted];
    }
    assert allocs[..|allocs|] == allocs;
  }

  /** Lines 252-253: `cs[t["categoryName"]] += Decimal(t["amount"])` over the
      Expense rows that have a category name. */
  method SpentByCategory(txns: seq<Transaction>) returns (cs: map<string, int>)
    ensures forall c :: c in cs <==> exists i :: 0 <= i < |txns| && SpendsOn(txns[i], c)
    ensures forall c :: c in cs ==> cs[c] == Spent(txns, c)
  {
    cs := map[];
    for i := 0 to |txns|
      invariant forall c :: c in cs <==> exists j :: 0 <= j < i && SpendsOn(txns[j], c)
      invariant forall c :: c in cs ==> cs[c] == Spent(txns[..i], c)
    {
      assert txns[..i + 1][..i] == txns[..i];
      var t := txns[i];
      if t.Expense? && t.category != "" {
        var prev := if t.category in cs then cs[t.category] else 0;
        if t.category !in cs { SpentNone(txns[..i], t.category); }
        cs := cs[t.category := prev + t.amount];
      }
    }
    assert txns[..|txns|] == txns;
  }

  /** A category no allocation names has budgeted total 0. */
  lemma {:induction false} BudgetedNone(allocs: seq<Allocation>, c: string)
    requires forall i :: 0 <= i < |allocs| ==> allocs[i].categoryName != c
    ensures Budgeted(allocs, c) == 0
  {
    if allocs != [] {
      var L := |allocs| - 1;
      assert forall i :: 0 <= i < L ==> allocs[..L][i] == allocs[i];
      BudgetedNone(allocs[..L], c);
    }
  }

  /** A category no Expense row names has spent total 0. */
  lemma {:induction false} SpentNone(txns: seq<Transaction>, c: string)
    requires forall i :: 0 <= i < |txns| ==> !SpendsOn(txns[i], c)
    ensures Spent(txns, c) == 0
  {
    if txns != [] {
      var L := |txns| - 1;
      assert forall i :: 0 <= i < L ==> txns[..L][i] == txns[i];
      SpentNone(txns[..L], c);
    }
  }

  /** `m.get(k, Decimal("0"))`. */
  function GetOrZero(m: map<string, int>, k: string): int {
    if k in m then m[k] else 0
  }

  /** One line of the summary table. */
  datatype Row = Row(category: string, monthly: int, budgeted: int, spent: int, available: int, over: bool)

  /** Lines 261-263 for category cn. */
  function ReportRow(cn: string, cb: map<string, int>, cs: map<string, int>): Row {
    var b, s := GetOrZero(cb, cn), GetOrZero(cs, cn);
    var monthly := match Lookup(BaseBudget, cn) case Some(v) => v case None => 0;
    Row(cn, monthly, b, s, b - s, b - s < 0)
  }

  /** The categories the table lists, in its order. */
  const ReportCategories: seq<string> := [
    "Mortgage Payment", "Council Tax", "Energy", "Water", "Internet", "Mobile Phones",
    "Insurance", "Groceries", "Eating Out", "Transport", "Clothing", "Household",
    "Entertainment", "Subscriptions", "Health", "Kids", "Gifts", "Holiday Fund", "Emergency Fund"
  ]

  /** The table lists exactly the base budget's categories, in the budget's order. */
  lemma ReportCategoriesAreBaseKeys()
    ensures ReportCategories == Keys(BaseBudget)
  {
  }

  ghost predicate FoldsBudgeted(cb: map<string, int>, allocs: seq<Allocation>) {
    && (forall c :: c in cb <==> exists i :: 0 <= i < |allocs| && allocs[i].categoryName == c)
    && (forall c :: c in cb ==> cb[c] == Budgeted(allocs, c))
  }

  ghost predicate FoldsSpent(cs: map<string, int>, txns: seq<Transaction>) {
    && (forall c :: c in cs <==> exists i :: 0 <= i < |txns| && SpendsOn(txns[i], c))
    && (forall c :: c in cs ==> cs[c] == Spent(txns, c))
  }

  /** A row of the table built from the two folds reports the category's whole
      budgeted and spent sums (0 when it has none), available = budgeted - spent,
      and the OVER flag exactly when spending exceeds the budgeted sum. */
  lemma ReportRowMeaning(allocs: seq<Allocation>, txns: seq<Transaction>, cb: map<string, int>,
                         cs: map<string, int>, cn: string)
    requires FoldsBudgeted(cb, allocs) && FoldsSpent(cs, txns)
    ensures var r := ReportRow(cn, cb, cs);
      && r.budgeted == Budgeted(allocs, cn) && r.spent == Spent(txns, cn)
      && r.available == r.budgeted - r.spent
      && (r.over <==> Spent(txns, cn) > Budgeted(allocs, cn))
  {
    if cn !in cb { BudgetedNone(allocs, cn); }
    if cn !in cs { SpentNone(txns, cn); }
  }

  // ---- global totals ----

  function IncomeTotal(txns: seq<Transaction>): int {
    if txns == [] then 0
    else IncomeTotal(txns[..|txns| - 1]) + (if txns[|txns| - 1].Income? then txns[|txns| - 1].amount else 0)
  }

  function ExpenseTotal(txns: seq<Transaction>): int {
    if txns == [] then 0
    else ExpenseTotal(txns[..|txns| - 1]) + (if txns[|txns| - 1].Expense? then txns[|txns| - 1].amount else 0)
  }

  function BudgetTotal(allocs: seq<Allocation>): int {
    if allocs == [] then 0 else BudgetTotal(allocs[..|allocs| - 1]) + allocs[|allocs| - 1].budgeted
  }

  /** The four totals lines (266-271). */
  datatype Totals = Totals(income: int, budgeted: int, expenses: int, toBudgetRemaining: int, surplus: int)

  function Summary(allocs: seq<Allocation>, txns: seq<Transaction>): (s: Totals)
    ensures s.income == IncomeTotal(txns) && s.budgeted == BudgetTotal(allocs) && s.expenses == ExpenseTotal(txns)
    ensures s.toBudgetRemaining == s.income - s.budgeted && s.surplus == s.budgeted - s.expenses
  {
    var ti, tb, te := IncomeTotal(txns), BudgetTotal(allocs), ExpenseTotal(txns);
    Totals(ti, tb, te, ti - tb, tb - te)
  }

  lemma {:induction false} IncomeTotalAppend(a: seq<Transaction>, b: seq<Transaction>)
    ensures IncomeTotal(a + b) == IncomeTotal(a) + IncomeTotal(b)
    decreases |b|
  {
    if b == [] {
      assert a + b == a;
    } else {
      assert (a + b)[..|a + b| - 1] == a + b[..|b| - 1];
      IncomeTotalAppend(a, b[..|b| - 1]);
    }
  }

  /** Rows that hold no Income row add nothing to the income total. */
  lemma {:induction false} IncomeTotalNone(s: seq<Transaction>)
    requires forall i :: 0 <= i < |s| ==> !s[i].Income?
    ensures IncomeTotal(s) == 0
  {
    if s != [] {
      assert forall i :: 0 <= i < |s| - 1 ==> s[..|s| - 1][i] == s[i];
      IncomeTotalNone(s[..|s| - 1]);
    }
  }

  lemma {:induction false} BudgetTotalAppend(a: seq<Allocation>, b: seq<Allocation>)
    ensures BudgetTotal(a + b) == BudgetTotal(a) + BudgetTotal(b)
    decreases |b|
  {
    if b == [] {
      assert a + b == a;
    } else {
      assert (a + b)[..|a + b| - 1] == a + b[..|b| - 1];
      BudgetTotalAppend(a, b[..|b| - 1]);
    }
  }

  // ---- reconciliation: the table adds up to the global totals ----

  /** The budgeted column summed over the categories ks. */
  function SumBudgeted(allocs: seq<Allocation>, ks: seq<string>): int {
    if ks == [] then 0 else Budgeted(allocs, ks[0]) + SumBudgeted(allocs, ks[1..])
  }

  /** The spent column summed over the categories ks. */
  function SumSpent(txns: seq<Transaction>, ks: seq<string>): int {
    if ks == [] then 0 else Spent(txns, ks[0]) + SumSpent(txns, ks[1..])
  }

  lemma {:induction false} SumBudgetedSnoc(allocs: seq<Allocation>, ks: seq<string>)
    requires allocs != [] && Distinct(ks)
    ensures var L := |allocs| - 1;
      SumBudgeted(allocs, ks) == SumBudgeted(allocs[..L], ks) + (if allocs[L].categoryName in ks then allocs[L].budgeted else 0)
  {
    if ks != [] {
      assert Distinct(ks[1..]) by {
        forall i, j | 0 <= i < j < |ks[1..]| ensures ks[1..][i] != ks[1..][j] {
          assert ks[1..][i] == ks[i + 1] && ks[1..][j] == ks[j + 1];
        }
      }
      SumBudgetedSnoc(allocs, ks[1..]);
      assert ks[0] in ks && ks == [ks[0]] + ks[1..];
      if ks[0] == allocs[|allocs| - 1].categoryName {
        assert ks[0] !in ks[1..] by {
          forall i | 0 <= i < |ks[1..]| ensures ks[1..][i] != ks[0] { assert ks[1..][i] == ks[i + 1]; }
        }
      }
    }
  }

  lemma {:induction false} SumSpentSnoc(txns: seq<Transaction>, ks: seq<string>)
    requires txns != [] && Distinct(ks)
    ensures var L := |txns| - 1;
      SumSpent(txns, ks) == SumSpent(txns[..L], ks)
        + (if txns[L].Expense? && txns[L].category != "" && txns[L].category in ks then txns[L].amount else 0)
  {
    if ks != [] {
      assert Distinct(ks[1..]) by {
        forall i, j | 0 <= i < j < |ks[1..]| ensures ks[1..][i] != ks[1..][j] {
          assert ks[1..][i] == ks[i + 1] && ks[1..][j] == ks[j + 1];
        }
      }
      SumSpentSnoc(txns, ks[1..]);
      assert ks[0] in ks && ks == [ks[0]] + ks[1..];
      var t := txns[|txns| - 1];
      if t.Expense? && t.category == ks[0] {
        assert ks[0] !in ks[1..] by {
          forall i | 0 <= i < |ks[1..]| ensures ks[1..][i] != ks[0] { assert ks[1..][i] == ks[i + 1]; }
        }
      }
    }
  }

  /** When every allocation's category is listed (once) in ks, the budgeted
      column adds up to the global budgeted total. */
  lemma {:induction false} BudgetColumnReconciles(allocs: seq<Allocation>, ks: seq<string>)
    requires Distinct(ks)
    requires forall i :: 0 <= i < |allocs| ==> allocs[i].categoryName in ks
    ensures SumBudgeted(allocs, ks) == BudgetTotal(allocs)
  {
    if allocs == [] {
      SumBudgetedEmpty(ks);
    } else {
      var L := |allocs| - 1;
      assert forall i :: 0 <= i < L ==> allocs[..L][i] == allocs[i];
      BudgetColumnReconciles(allocs[..L], ks);
      SumBudgetedSnoc(allocs, ks);
    }
  }

  lemma {:induction false} SumBudgetedEmpty(ks: seq<string>)
    ensures SumBudgeted([], ks) == 0
  {
    if ks != [] { SumBudgetedEmpty(ks[1..]); }
  }

  lemma {:induction false} SumSpentEmpty(ks: seq<string>)
    ensures SumSpent([], ks) == 0
  {
    if ks != [] { SumSpentEmpty(ks[1..]); }
  }

  /** When every Expense row's category is listed (once) in ks and none is empty,
      the spent column adds up to the global expenses total. */
  lemma {:induction false} SpentColumnReconciles(txns: seq<Transaction>, ks: seq<string>)
    requires Distinct(ks)
    requires forall i :: 0 <= i < |txns| && txns[i].Expense? ==> txns[i].category != "" && txns[i].category in ks
    ensures SumSpent(txns, ks) == ExpenseTotal(txns)
  {
    if txns == [] {
      SumSpentEmpty(ks);
    } else {
      var L := |txns| - 1;
      assert forall i :: 0 <= i < L ==> txns[..L][i] == txns[i];
      SpentColumnReconciles(txns[..L], ks);
      SumSpentSnoc(txns, ks);
    }
  }

  /** The available column summed over the rows. */
  function SumAvailable(rows: seq<Row>): int {
    if rows == [] then 0 else rows[0].available + SumAvailable(rows[1..])
  }

  /** The table's rows (lines 258-264), one per listed category, in list order. */
  function RowsFor(ks: seq<string>, cb: map<string, int>, cs: map<string, int>): (rows: seq<Row>)
    ensures |rows| == |ks| && forall i :: 0 <= i < |ks| ==> rows[i] == ReportRow(ks[i], cb, cs)
  {
    if ks == [] then [] else [ReportRow(ks[0], cb, cs)] + RowsFor(ks[1..], cb, cs)
  }

  lemma {:induction false} AvailableSum(allocs: seq<Allocation>, txns: seq<Transaction>, cb: map<string, int>,
                                         cs: map<string, int>, ks: seq<string>)
    requires FoldsBudgeted(cb, allocs) && FoldsSpent(cs, txns)
    ensures SumAvailable(RowsFor(ks, cb, cs)) == SumBudgeted(allocs, ks) - SumSpent(txns, ks)
  {
    if ks != [] {
      ReportRowMeaning(allocs, txns, cb, cs, ks[0]);
      AvailableSum(allocs, txns, cb, cs, ks[1..]);
      assert RowsFor(ks, cb, cs)[1..] == RowsFor(ks[1..], cb, cs);
    }
  }

  /** The cross-check the summary exists for: when the listed categories cover
      every allocation and every Expense row, the table's available column adds
      up to the printed budget surplus (budgeted - expenses). */
  lemma TableReconciles(allocs: seq<Allocation>, txns: seq<Transaction>, cb: map<string, int>,
                        cs: map<string, int>, ks: seq<string>)
    requires FoldsBudgeted(cb, allocs) && FoldsSpent(cs, txns) && Distinct(ks)
    requires forall i :: 0 <= i < |allocs| ==> allocs[i].categoryName in ks
    requires forall i :: 0 <= i < |txns| && txns[i].Expense? ==> txns[i].category != "" && txns[i].category in ks
    ensures SumAvailable(RowsFor(ks, cb, cs)) == Summary(allocs, txns).surplus
  {
    AvailableSum(allocs, txns, cb, cs, ks);
    BudgetColumnReconciles(allocs, ks);
    SpentColumnReconciles(txns, ks);
  }

  // ---- one month's allocations ----

  /** One allocation per budget key: a month's allocations give each category
      exactly its month budget, and a category outside the budget none. */
  lemma {:induction false} MonthBudgeted(cats: seq<CategoryRef>, mb: Table, month: string, k: string)
    requires Distinct(Keys(mb))
    ensures Budgeted(MonthAllocations(cats, mb, month), k) == ValueOf(mb, k)
  {
    var r := MonthAllocations(cats, mb, month);
    MonthAllocationsShape(cats, mb, month);
    if k in Keys(mb) {
      var i :| 0 <= i < |mb| && mb[i].0 == k;
      LookupAt(mb, i);
      BudgetedSingle(r, i, k);
      forall j | 0 <= j < |r| && j != i ensures r[j].categoryName != k {
        assert Keys(mb)[i] != Keys(mb)[j] || i == j;
      }
    } else {
      forall j | 0 <= j < |r| ensures r[j].categoryName != k {
        assert Keys(mb)[j] == mb[j].0;
      }
      BudgetedNone(r, k);
    }
  }

  /** Only row i names k: the budgeted sum of k is row i's amount. */
  lemma {:induction false} BudgetedSingle(allocs: seq<Allocation>, i: nat, k: string)
    requires i < |allocs| && allocs[i].categoryName == k
    requires forall j :: 0 <= j < |allocs| && j != i ==> allocs[j].categoryName != k
    ensures Budgeted(allocs, k) == allocs[i].budgeted
  {
    var L := |allocs| - 1;
    assert forall j :: 0 <= j < L ==> allocs[..L][j] == allocs[j];
    if i == L {
      BudgetedNone(allocs[..L], k);
    } else {
      BudgetedSingle(allocs[..L], i, k);
    }
  }

  /** A month's allocations add up to that month's budget total. */
  lemma {:induction false} MonthBudgetTotal(cats: seq<CategoryRef>, mb: Table, month: string)
    ensures BudgetTotal(MonthAllocations(cats, mb, month)) == Total(mb)
    decreases |mb|
  {
    if mb != [] {
      var r := MonthAllocations(cats, mb, month);
      var r' := MonthAllocations(cats, mb[1..], month);
      BudgetTotalCons(r);
      assert r[1..] == r';
      MonthAllocationsShape(cats, mb, month);
      MonthBudgetTotal(cats, mb[1..], month);
    }
  }

  lemma {:induction false} BudgetTotalCons(allocs: seq<Allocation>)
    requires allocs != []
    ensures BudgetTotal(allocs) == allocs[0].budgeted + BudgetTotal(allocs[1..])
    decreases |allocs|
  {
    var L := |allocs| - 1;
    if L > 0 {
      BudgetTotalCons(allocs[..L]);
      assert allocs[..L][1..] == allocs[1..][..L - 1];
      assert allocs[..L][0] == allocs[0];
      assert allocs[1..][L - 1] == allocs[L];
    } else {
      assert allocs[..L] == [] && allocs[1..] == [];
    }
  }
}
