/** The generator's whole run: the 13-month loop over a fresh state, then the
    summary. The randomly synthesised expenses of each month arrive as input,
    so what is proved holds for every sequence of draws. */
module Script {
  import opened Wrappers
  import opened Money
  import opened Calendar
  import opened Budget
  import opened Ledger
  import opened Report

  /** February 2025 to February 2026. */
  const CoveredMonths: seq<(int, int)> := [
    (2025, 2), (2025, 3), (2025, 4), (2025, 5), (2025, 6), (2025, 7), (2025, 8),
    (2025, 9), (2025, 10), (2025, 11), (2025, 12), (2026, 1), (2026, 2)
  ]

  /** Thirteen consecutive months starting at February 2025 are the covered months. */
  lemma MonthsAreCovered(ms: seq<(int, int)>)
    requires |ms| == 13 && ms[0] == (2025, 2)
    requires forall k :: 0 <= k < |ms| - 1 ==> ms[k + 1] == NextMonth(ms[k].0, ms[k].1)
    ensures ms == CoveredMonths
  {
    assert ms[1] == NextMonth(ms[0].0, ms[0].1);
    assert ms[2] == NextMonth(ms[1].0, ms[1].1);
    assert ms[3] == NextMonth(ms[2].0, ms[2].1);
    assert ms[4] == NextMonth(ms[3].0, ms[3].1);
    assert ms[5] == NextMonth(ms[4].0, ms[4].1);
    assert ms[6] == NextMonth(ms[5].0, ms[5].1);
    assert ms[7] == NextMonth(ms[6].0, ms[6].1);
    assert ms[8] == NextMonth(ms[7].0, ms[7].1);
    assert ms[9] == NextMonth(ms[8].0, ms[8].1);
    assert ms[10] == NextMonth(ms[9].0, ms[9].1);
    assert ms[11] == NextMonth(ms[10].0, ms[10].1);
    assert ms[12] == NextMonth(ms[11].0, ms[11].1);
  }

  predicate ValidMonths(ms: seq<(int, int)>) {
    forall k :: 0 <= k < |ms| ==> 1000 <= ms[k].0 <= 9999 && 1 <= ms[k].1 <= 12
  }

  lemma CoveredMonthsValid()
    ensures ValidMonths(CoveredMonths)
  {
  }

  /** All allocation rows the month loop appends for the months ms. */
  function AllocationsFor(ms: seq<(int, int)>): seq<Allocation>
    requires ValidMonths(ms)
  {
    if ms == [] then []
    else
      var L := |ms| - 1;
      AllocationsFor(ms[..L]) + MonthAllocations(Categories, MonthBudget(ms[L].1), MonthStart(ms[L].0, ms[L].1))
  }

  /** The salaries paid for the months ms. */
  function SalaryTotal(ms: seq<(int, int)>): int {
    if ms == [] then 0 else SalaryTotal(ms[..|ms| - 1]) + SalaryCents(ms[|ms| - 1].1)
  }

  /** What the month budgets of the months ms add up to: the base total per
      month plus each month's seasonal uplift. */
  function BudgetOfMonths(ms: seq<(int, int)>): int {
    if ms == [] then 0 else BudgetOfMonths(ms[..|ms| - 1]) + BaseTotalCents + SeasonalUplift(ms[|ms| - 1].1)
  }

  /** Every Expense row of t is one of the supplied expense rows. */
  ghost predicate ExpensesFrom(t: seq<Transaction>, spending: seq<seq<Transaction>>) {
    forall i :: 0 <= i < |t| && t[i].Expense? ==>
      exists k, j :: 0 <= k < |spending| && 0 <= j < |spending[k]| && t[i] == spending[k][j]
  }

  predicate ExpenseRows(spending: seq<seq<Transaction>>) {
    forall k, i :: 0 <= k < |spending| && 0 <= i < |spending[k]| ==>
      spending[k][i].Expense? && ValidDateTime(spending[k][i].date)
  }

  lemma ExpensesFromMonth(t0: seq<Transaction>, rest: seq<Transaction>, spending: seq<seq<Transaction>>, k: nat)
    requires ExpensesFrom(t0, spending) && k < |spending|
    requires forall i :: 0 <= i < |rest| && rest[i].Expense? ==>
      exists j :: 0 <= j < |spending[k]| && rest[i] == spending[k][j]
    ensures ExpensesFrom(t0 + rest, spending)
  {
    var t := t0 + rest;
    forall i | 0 <= i < |t| && t[i].Expense?
      ensures exists k', j :: 0 <= k' < |spending| && 0 <= j < |spending[k']| && t[i] == spending[k'][j]
    {
      if i < |t0| {
        assert t[i] == t0[i];
      } else {
        assert t[i] == rest[i - |t0|];
        var j :| 0 <= j < |spending[k]| && rest[i - |t0|] == spending[k][j];
      }
    }
  }

  /** The salary row of month (yr, mo). */
  function SalaryRow(yr: int, mo: int): Transaction
    requires 2 <= yr <= 9999 && 1 <= mo <= 12
  {
    Income(SalaryCents(mo), "Employer - Salary", SalaryDate(yr, mo), "Joint Current")
  }

  /** The rows one pass of the month loop appends for month (yr, mo) after the
      rows p, given the month's supplied expense rows sp: the salary, the
      expenses, the two standing transfers, and the settlement of the month's
      credit-card spending, earlier rows included. */
  function MonthBlock(p: seq<Transaction>, yr: int, mo: int, sp: seq<Transaction>): seq<Transaction>
    requires AllDatesValid(p) && AllDatesValid(sp) && 1000 <= yr <= 9999 && 1 <= mo <= 12
  {
    [SalaryRow(yr, mo)] + sp + StandingTransferRows(yr, mo)
      + Settlement(CardSpend(p, yr, mo) + CardSpend(sp, yr, mo), yr, mo)
  }

  lemma Regroup(a: seq<Transaction>, b: seq<Transaction>, c: seq<Transaction>, d: seq<Transaction>, e: seq<Transaction>)
    ensures a + b + c + d + e == a + (b + c + d + e)
  {
  }

  /** Lines 232-234 as written: the settlement closing a month's rows pays the
      card spending of the month summed over every row written before it. */
  lemma BlockSettlement(p: seq<Transaction>, yr: int, mo: int, sp: seq<Transaction>)
    requires AllDatesValid(p) && AllDatesValid(sp) && 1000 <= yr <= 9999 && 1 <= mo <= 12
    ensures var q := p + [SalaryRow(yr, mo)] + sp + StandingTransferRows(yr, mo);
      AllDatesValid(q) && AllDatesValid(p + MonthBlock(p, yr, mo, sp))
      && p + MonthBlock(p, yr, mo, sp) == q + Settlement(CardSpend(q, yr, mo), yr, mo)
  {
    var q := p + [SalaryRow(yr, mo)] + sp + StandingTransferRows(yr, mo);
    MonthCardSpend(p, [SalaryRow(yr, mo)], sp, yr, mo);
    var st := Settlement(CardSpend(q, yr, mo), yr, mo);
    DatesAppend(q, st);
    Regroup(p, [SalaryRow(yr, mo)], sp, StandingTransferRows(yr, mo), st);
  }

  /** The transactions the month loop writes for the months ms, given each
      month's supplied expense rows. */
  function RunRows(ms: seq<(int, int)>, spending: seq<seq<Transaction>>): (t: seq<Transaction>)
    requires ValidMonths(ms) && |ms| <= |spending| && ExpenseRows(spending)
    ensures AllDatesValid(t)
  {
    if ms == [] then []
    else
      var L := |ms| - 1;
      var p := RunRows(ms[..L], spending);
      assert AllDatesValid(spending[L]);
      BlockSettlement(p, ms[L].0, ms[L].1, spending[L]);
      p + MonthBlock(p, ms[L].0, ms[L].1, spending[L])
  }

  /** Expense and Transfer rows add nothing to the income total. */
  lemma NoIncomeRows(sp: seq<Transaction>, tr: seq<Transaction>, st: seq<Transaction>)
    requires forall i :: 0 <= i < |sp| ==> sp[i].Expense?
    requires (forall i :: 0 <= i < |tr| ==> tr[i].Transfer?) && (forall i :: 0 <= i < |st| ==> st[i].Transfer?)
    ensures IncomeTotal(sp + tr + st) == 0
  {
    var rest := sp + tr + st;
    forall j | 0 <= j < |rest| ensures !rest[j].Income? {
      if j < |sp| {
        assert rest[j] == sp[j];
      } else if j < |sp| + |tr| {
        assert rest[j] == tr[j - |sp|];
      } else {
        assert rest[j] == st[j - |sp| - |tr|];
      }
    }
    IncomeTotalNone(rest);
  }

  /** A month's rows add exactly its salary to the income total. */
  lemma BlockIncome(p: seq<Transaction>, yr: int, mo: int, sp: seq<Transaction>)
    requires AllDatesValid(p) && AllDatesValid(sp) && 1000 <= yr <= 9999 && 1 <= mo <= 12
    requires forall i :: 0 <= i < |sp| ==> sp[i].Expense?
    ensures IncomeTotal(MonthBlock(p, yr, mo, sp)) == SalaryCents(mo)
  {
    var sal, tr := SalaryRow(yr, mo), StandingTransferRows(yr, mo);
    var st := Settlement(CardSpend(p, yr, mo) + CardSpend(sp, yr, mo), yr, mo);
    assert forall i :: 0 <= i < |st| ==> st[i].Transfer?;
    NoIncomeRows(sp, tr, st);
    IncomeTotalAppend([sal], sp + tr + st);
    assert IncomeTotal([sal]) == sal.amount by { assert [sal][..0] == []; }
    assert MonthBlock(p, yr, mo, sp) == [sal] + (sp + tr + st);
  }

  /** A month's rows hold no Expense row but the month's supplied ones. */
  lemma BlockExpenses(p: seq<Transaction>, yr: int, mo: int, sp: seq<Transaction>)
    requires AllDatesValid(p) && AllDatesValid(sp) && 1000 <= yr <= 9999 && 1 <= mo <= 12
    ensures var b := MonthBlock(p, yr, mo, sp);
      forall i :: 0 <= i < |b| && b[i].Expense? ==> exists j :: 0 <= j < |sp| && b[i] == sp[j]
  {
    var sal, tr := SalaryRow(yr, mo), StandingTransferRows(yr, mo);
    var st := Settlement(CardSpend(p, yr, mo) + CardSpend(sp, yr, mo), yr, mo);
    var b := MonthBlock(p, yr, mo, sp);
    assert b == [sal] + sp + tr + st;
    forall j | 1 + |sp| <= j < |b| ensures b[j].Transfer? {
      if j < 1 + |sp| + |tr| {
        assert b[j] == tr[j - 1 - |sp|];
      } else {
        assert b[j] == st[j - 1 - |sp| - |tr|];
      }
    }
    assert b[0] == sal;
    forall i | 0 <= i < |b| && b[i].Expense? ensures exists j :: 0 <= j < |sp| && b[i] == sp[j] {
      assert b[i] == sp[i - 1];
    }
  }

  /** The rows `Fixture.BookMonth` appends are the month's block. */
  lemma BookedBlock(t0: seq<Transaction>, t: seq<Transaction>, yr: int, mo: int, sp: seq<Transaction>)
    requires AllDatesValid(t0) && AllDatesValid(sp) && 1000 <= yr <= 9999 && 1 <= mo <= 12
    requires t == t0 + [SalaryRow(yr, mo)] + sp + StandingTransferRows(yr, mo)
      + Settlement(CardSpend(t0, yr, mo) + CardSpend(sp, yr, mo), yr, mo)
    ensures t == t0 + MonthBlock(t0, yr, mo, sp)
  {
    Regroup(t0, [SalaryRow(yr, mo)], sp, StandingTransferRows(yr, mo),
      Settlement(CardSpend(t0, yr, mo) + CardSpend(sp, yr, mo), yr, mo));
  }

  lemma RunRowsSnoc(ms: seq<(int, int)>, k: nat, spending: seq<seq<Transaction>>)
    requires ValidMonths(ms) && k < |ms| && k < |spending| && ExpenseRows(spending)
    ensures AllDatesValid(spending[k])
    ensures RunRows(ms[..k + 1], spending)
      == RunRows(ms[..k], spending) + MonthBlock(RunRows(ms[..k], spending), ms[k].0, ms[k].1, spending[k])
  {
    assert ms[..k + 1][..k] == ms[..k] && ms[..k + 1][k] == ms[k];
  }

  /** The run's Income rows are exactly the salaries. */
  lemma {:induction false} RunRowsIncome(ms: seq<(int, int)>, spending: seq<seq<Transaction>>)
    requires ValidMonths(ms) && |ms| <= |spending| && ExpenseRows(spending)
    ensures IncomeTotal(RunRows(ms, spending)) == SalaryTotal(ms)
  {
    if ms != [] {
      var L := |ms| - 1;
      var p := RunRows(ms[..L], spending);
      RunRowsIncome(ms[..L], spending);
      BlockIncome(p, ms[L].0, ms[L].1, spending[L]);
      IncomeTotalAppend(p, MonthBlock(p, ms[L].0, ms[L].1, spending[L]));
    }
  }

  /** Every Expense row of the run is one of the supplied rows. */
  lemma {:induction false} RunRowsExpenses(ms: seq<(int, int)>, spending: seq<seq<Transaction>>)
    requires ValidMonths(ms) && |ms| <= |spending| && ExpenseRows(spending)
    ensures ExpensesFrom(RunRows(ms, spending), spending)
  {
    if ms != [] {
      var L := |ms| - 1;
      var p := RunRows(ms[..L], spending);
      RunRowsExpenses(ms[..L], spending);
      BlockExpenses(p, ms[L].0, ms[L].1, spending[L]);
      ExpensesFromMonth(p, MonthBlock(p, ms[L].0, ms[L].1, spending[L]), spending, L);
    }
  }

  /** Every transfer moves money between two different accounts. */
  predicate TransfersBetweenAccounts(t: seq<Transaction>) {
    forall i :: 0 <= i < |t| && t[i].Transfer? ==> t[i].account != t[i].transferTo
  }

  lemma TransfersAppend(a: seq<Transaction>, b: seq<Transaction>)
    requires TransfersBetweenAccounts(a) && TransfersBetweenAccounts(b)
    ensures TransfersBetweenAccounts(a + b)
  {
    forall i | 0 <= i < |a + b| && (a + b)[i].Transfer? ensures (a + b)[i].account != (a + b)[i].transferTo {
      if i < |a| { assert (a + b)[i] == a[i]; } else { assert (a + b)[i] == b[i - |a|]; }
    }
  }

  /** A month's transfers all move money between two different accounts. */
  lemma BlockTransfers(p: seq<Transaction>, yr: int, mo: int, sp: seq<Transaction>)
    requires AllDatesValid(p) && AllDatesValid(sp) && 1000 <= yr <= 9999 && 1 <= mo <= 12
    requires forall i :: 0 <= i < |sp| ==> sp[i].Expense?
    ensures TransfersBetweenAccounts(MonthBlock(p, yr, mo, sp))
  {
    var sal, tr := [SalaryRow(yr, mo)], StandingTransferRows(yr, mo);
    var st := Settlement(CardSpend(p, yr, mo) + CardSpend(sp, yr, mo), yr, mo);
    TransfersAppend(sal, sp);
    TransfersAppend(sal + sp, tr);
    TransfersAppend(sal + sp + tr, st);
  }

  /** No transfer of the run has the same source and destination account. */
  lemma {:induction false} RunTransfers(ms: seq<(int, int)>, spending: seq<seq<Transaction>>)
    requires ValidMonths(ms) && |ms| <= |spending| && ExpenseRows(spending)
    ensures TransfersBetweenAccounts(RunRows(ms, spending))
  {
    if ms != [] {
      var L := |ms| - 1;
      var p := RunRows(ms[..L], spending);
      RunTransfers(ms[..L], spending);
      BlockTransfers(p, ms[L].0, ms[L].1, spending[L]);
      TransfersAppend(p, MonthBlock(p, ms[L].0, ms[L].1, spending[L]));
    }
  }

  lemma AllocationsStep(ms: seq<(int, int)>, k: nat)
    requires ValidMonths(ms) && k < |ms|
    ensures ValidMonths(ms[..k]) && ValidMonths(ms[..k + 1])
    ensures AllocationsFor(ms[..k + 1])
      == AllocationsFor(ms[..k]) + MonthAllocations(Categories, MonthBudget(ms[k].1), MonthStart(ms[k].0, ms[k].1))
  {
    assert ms[..k + 1][..k] == ms[..k];
  }

  lemma BudgetMonthsStep(b0: seq<BudgetMonth>, b: seq<BudgetMonth>, ms: seq<(int, int)>, k: nat)
    requires ValidMonths(ms) && k < |ms| && |b0| == k
    requires forall j :: 0 <= j < k ==> b0[j] == BudgetMonth(MonthStart(ms[j].0, ms[j].1), "")
    requires b == b0 + [BudgetMonth(MonthStart(ms[k].0, ms[k].1), "")]
    ensures |b| == k + 1 && forall j :: 0 <= j < k + 1 ==> b[j] == BudgetMonth(MonthStart(ms[j].0, ms[j].1), "")
  {
  }

  /** The budget months and allocations after the first k months of ms. */
  ghost predicate PlannedMonths(f: Fixture, ms: seq<(int, int)>, k: nat)
    requires ValidMonths(ms) && k <= |ms|
    reads f`budgetMonths, f`allocations
  {
    && |f.budgetMonths| == k
    && (forall j :: 0 <= j < k ==> f.budgetMonths[j] == BudgetMonth(MonthStart(ms[j].0, ms[j].1), ""))
    && f.allocations == AllocationsFor(ms[..k])
  }

  /** The transactions after the first k months of ms. */
  ghost predicate BookedMonths(f: Fixture, ms: seq<(int, int)>, k: nat, spending: seq<seq<Transaction>>)
    requires ValidMonths(ms) && k <= |ms| && k <= |spending| && ExpenseRows(spending)
    reads f`transactions, f`tracker
  {
    f.Valid() && f.transactions == RunRows(ms[..k], spending)
  }

  /** Lines 129-141 for month k of ms. */
  method PlanMonth(f: Fixture, ms: seq<(int, int)>, k: nat)
    requires ValidMonths(ms) && k < |ms| && PlannedMonths(f, ms, k)
    modifies f`budgetMonths, f`allocations
    ensures PlannedMonths(f, ms, k + 1)
  {
    var (yr, mo) := ms[k];
    var b0 := f.budgetMonths;
    f.AddBudgetMonth(yr, mo);
    AllocationsStep(ms, k);
    BudgetMonthsStep(b0, f.budgetMonths, ms, k);
  }

  /** Lines 144-234 for month k of ms. */
  method BookMonthOf(f: Fixture, ms: seq<(int, int)>, k: nat, spending: seq<seq<Transaction>>)
    requires ValidMonths(ms) && k < |ms| && k < |spending| && ExpenseRows(spending)
    requires BookedMonths(f, ms, k, spending)
    modifies f`transactions, f`tracker
    ensures BookedMonths(f, ms, k + 1, spending)
  {
    var (yr, mo) := ms[k];
    var t0 := f.transactions;
    RunRowsSnoc(ms, k, spending);
    f.BookMonth(yr, mo, spending[k]);
    BookedBlock(t0, f.transactions, yr, mo, spending[k]);
  }

  /** One pass of the month loop, for month k of ms. */
  method GenerateMonth(f: Fixture, ms: seq<(int, int)>, k: nat, spending: seq<seq<Transaction>>)
    requires ValidMonths(ms) && k < |ms| && k < |spending| && ExpenseRows(spending)
    requires PlannedMonths(f, ms, k) && BookedMonths(f, ms, k, spending)
    modifies f
    ensures PlannedMonths(f, ms, k + 1) && BookedMonths(f, ms, k + 1, spending)
  {
    PlanMonth(f, ms, k);
    BookMonthOf(f, ms, k, spending);
  }

  /** The state the month loop leaves for the months ms: one marker and the
      allocations per month, and exactly the rows `RunRows` lists. */
  ghost predicate Generated(f: Fixture, ms: seq<(int, int)>, spending: seq<seq<Transaction>>)
    requires ValidMonths(ms) && |ms| <= |spending| && ExpenseRows(spending)
    reads f
  {
    && f.Valid()
    && |f.budgetMonths| == |ms|
    && (forall k :: 0 <= k < |ms| ==> f.budgetMonths[k] == BudgetMonth(MonthStart(ms[k].0, ms[k].1), ""))
    && f.allocations == AllocationsFor(ms)
    && f.transactions == RunRows(ms, spending)
  }

  /** Lines 128-234 run over a fresh state with the supplied expense rows. */
  method Generate(f: Fixture, spending: seq<seq<Transaction>>) returns (ms: seq<(int, int)>)
    requires f.Valid() && f.budgetMonths == [] && f.allocations == [] && f.transactions == []
    requires |spending| == 13 && ExpenseRows(spending)
    modifies f
    ensures ms == CoveredMonths && ValidMonths(ms) && Generated(f, ms, spending)
    ensures IncomeTotal(f.transactions) == SalaryTotal(ms)
    ensures ExpensesFrom(f.transactions, spending)
  {
    ms := MonthsList();
    assert ms[..0] == [];
    for k := 0 to 13
      invariant PlannedMonths(f, ms, k) && BookedMonths(f, ms, k, spending)
    {
      GenerateMonth(f, ms, k, spending);
    }
    assert ms[..13] == ms;
    RunRowsIncome(ms, spending);
    RunRowsExpenses(ms, spending);
    MonthsAreCovered(ms);
  }

  // ---- the figures the summary prints for the covered months ----

  /** One month's allocations add up to that month's budget total. */
  lemma MonthRowsTotal(yr: int, mo: int)
    requires 1000 <= yr <= 9999 && 1 <= mo <= 12
    ensures BudgetTotal(MonthAllocations(Categories, MonthBudget(mo), MonthStart(yr, mo))) == BaseTotalCents + SeasonalUplift(mo)
  {
    MonthBudgetTotal(Categories, MonthBudget(mo), MonthStart(yr, mo));
    MonthTotal(mo);
  }

  lemma {:induction false} AllocationsTotal(ms: seq<(int, int)>)
    requires ValidMonths(ms)
    ensures BudgetTotal(AllocationsFor(ms)) == BudgetOfMonths(ms)
  {
    if ms != [] {
      var L := |ms| - 1;
      MonthRowsTotal(ms[L].0, ms[L].1);
      BudgetTotalAppend(AllocationsFor(ms[..L]), MonthAllocations(Categories, MonthBudget(ms[L].1), MonthStart(ms[L].0, ms[L].1)));
      AllocationsTotal(ms[..L]);
    }
  }

  lemma SalaryStep(ms: seq<(int, int)>, k: nat)
    requires k < |ms|
    ensures SalaryTotal(ms[..k + 1]) == SalaryTotal(ms[..k]) + SalaryCents(ms[k].1)
  {
    assert ms[..k + 1][..k] == ms[..k];
  }

  lemma BudgetStep(ms: seq<(int, int)>, k: nat)
    requires k < |ms|
    ensures BudgetOfMonths(ms[..k + 1]) == BudgetOfMonths(ms[..k]) + BaseTotalCents + SeasonalUplift(ms[k].1)
  {
    assert ms[..k + 1][..k] == ms[..k];
  }

  /** Income over the covered months: 11 salaries of 3800.00, 4100.00 in June
      and 4350.00 in December, 50250.00 in all. */
  lemma CoveredSalaries()
    ensures SalaryTotal(CoveredMonths) == 5025000
  {
    var ms := CoveredMonths;
    assert ms[..0] == [];
    SalaryStep(ms, 0); SalaryStep(ms, 1); SalaryStep(ms, 2); SalaryStep(ms, 3); SalaryStep(ms, 4);
    SalaryStep(ms, 5); SalaryStep(ms, 6); SalaryStep(ms, 7); SalaryStep(ms, 8); SalaryStep(ms, 9);
    SalaryStep(ms, 10); SalaryStep(ms, 11); SalaryStep(ms, 12);
    assert ms[..13] == ms;
  }

  /** Budgeted over the covered months: 13 times 3750.00 plus the winter and
      December overrides (40.00 + 45.00 + 200.00 + 50.00 + 40.00), 49125.00 in all. */
  lemma CoveredBudget()
    ensures BudgetOfMonths(CoveredMonths) == 4912500
  {
    var ms := CoveredMonths;
    assert ms[..0] == [];
    BudgetStep(ms, 0); BudgetStep(ms, 1); BudgetStep(ms, 2); BudgetStep(ms, 3); BudgetStep(ms, 4);
    BudgetStep(ms, 5); BudgetStep(ms, 6); BudgetStep(ms, 7); BudgetStep(ms, 8); BudgetStep(ms, 9);
    BudgetStep(ms, 10); BudgetStep(ms, 11); BudgetStep(ms, 12);
    assert ms[..13] == ms;
  }

  /** The supplied expenses are all filed under categories the table lists. */
  predicate ReportedSpending(spending: seq<seq<Transaction>>) {
    forall k, i :: 0 <= k < |spending| && 0 <= i < |spending[k]| ==>
      spending[k][i].Expense? && spending[k][i].category != "" && spending[k][i].category in ReportCategories
  }

  /** ReportCategories has no repeated name. */
  lemma ReportCategoriesDistinct()
    ensures Distinct(ReportCategories)
  {
    ReportCategoriesAreBaseKeys();
    BaseKeysDistinct();
  }

  /** Every allocation in allocs is for one of names. */
  ghost predicate AllocatedIn(allocs: seq<Allocation>, names: seq<string>) {
    forall i :: 0 <= i < |allocs| ==> allocs[i].categoryName in names
  }

  lemma AllocatedInAppend(a: seq<Allocation>, b: seq<Allocation>, names: seq<string>)
    requires AllocatedIn(a, names) && AllocatedIn(b, names)
    ensures AllocatedIn(a + b, names)
  {
    forall i | 0 <= i < |a + b| ensures (a + b)[i].categoryName in names {
      if i < |a| { assert (a + b)[i] == a[i]; } else { assert (a + b)[i] == b[i - |a|]; }
    }
  }

  /** A month's allocations are for the keys of the table they come from. */
  lemma AllocationsOfKeys(cats: seq<CategoryRef>, mb: Table, month: string)
    ensures AllocatedIn(MonthAllocations(cats, mb, month), Keys(mb))
  {
    var m := MonthAllocations(cats, mb, month);
    MonthAllocationsShape(cats, mb, month);
    forall i | 0 <= i < |m| ensures m[i].categoryName in Keys(mb) {
      assert Keys(mb)[i] == mb[i].0;
    }
  }

  /** A month's allocations are for base-budget categories. */
  lemma MonthAllocationsReported(yr: int, mo: int)
    requires 1000 <= yr <= 9999 && 1 <= mo <= 12
    ensures AllocatedIn(MonthAllocations(Categories, MonthBudget(mo), MonthStart(yr, mo)), Keys(BaseBudget))
  {
    AllocationsOfKeys(Categories, MonthBudget(mo), MonthStart(yr, mo));
    MonthBudgetKeys(mo);
  }

  /** Every allocation of the covered months is for a base-budget category. */
  lemma {:induction false} AllocationsReported(ms: seq<(int, int)>)
    requires ValidMonths(ms)
    ensures AllocatedIn(AllocationsFor(ms), Keys(BaseBudget))
  {
    if ms != [] {
      var L := |ms| - 1;
      AllocationsReported(ms[..L]);
      MonthAllocationsReported(ms[L].0, ms[L].1);
      AllocatedInAppend(AllocationsFor(ms[..L]),
        MonthAllocations(Categories, MonthBudget(ms[L].1), MonthStart(ms[L].0, ms[L].1)), Keys(BaseBudget));
    }
  }

  /** Every allocation in allocs is for a leaf category, with its parent. */
  ghost predicate LeafAllocations(allocs: seq<Allocation>) {
    forall i :: 0 <= i < |allocs| ==> LeafAllocation(allocs[i])
  }

  lemma LeafAllocationsAppend(a: seq<Allocation>, b: seq<Allocation>)
    requires LeafAllocations(a) && LeafAllocations(b)
    ensures LeafAllocations(a + b)
  {
    forall i | 0 <= i < |a + b| ensures LeafAllocation((a + b)[i]) {
      if i < |a| { assert (a + b)[i] == a[i]; } else { assert (a + b)[i] == b[i - |a|]; }
    }
  }

  /** A month's allocations each carry the parent of a leaf category of their name. */
  lemma MonthAllocationsLeaves(yr: int, mo: int)
    requires 1000 <= yr <= 9999 && 1 <= mo <= 12
    ensures LeafAllocations(MonthAllocations(Categories, MonthBudget(mo), MonthStart(yr, mo)))
  {
    var mb := MonthBudget(mo);
    var m := MonthAllocations(Categories, mb, MonthStart(yr, mo));
    MonthAllocationsShape(Categories, mb, MonthStart(yr, mo));
    MonthBudgetKeys(mo);
    forall i | 0 <= i < |m| ensures LeafAllocation(m[i]) {
      assert Keys(mb)[i] == mb[i].0;
      BaseKeyParent(i, m[i]);
    }
  }

  /** Every allocation of the months ms matches a leaf category of the table
      with exactly the parent it carries. */
  lemma {:induction false} AllocationsLeaves(ms: seq<(int, int)>)
    requires ValidMonths(ms)
    ensures LeafAllocations(AllocationsFor(ms))
  {
    if ms != [] {
      var L := |ms| - 1;
      AllocationsLeaves(ms[..L]);
      MonthAllocationsLeaves(ms[L].0, ms[L].1);
      LeafAllocationsAppend(AllocationsFor(ms[..L]),
        MonthAllocations(Categories, MonthBudget(ms[L].1), MonthStart(ms[L].0, ms[L].1)));
    }
  }

  /** row is the table line of category c over allocs and txns: its monthly
      figure, its budgeted and spent sums, their difference, and OVER exactly
      when spending exceeds the budget. */
  ghost predicate RowReports(row: Row, c: string, allocs: seq<Allocation>, txns: seq<Transaction>) {
    && row.category == c && row.monthly == ValueOf(BaseBudget, c)
    && row.budgeted == Budgeted(allocs, c) && row.spent == Spent(txns, c)
    && row.available == row.budgeted - row.spent
    && (row.over <==> row.spent > row.budgeted)
  }

  /** rows is the printed table over allocs and txns: one line per listed
      category, in order. */
  ghost predicate RowsReport(rows: seq<Row>, allocs: seq<Allocation>, txns: seq<Transaction>) {
    |rows| == |ReportCategories| && forall i :: 0 <= i < |rows| ==> RowReports(rows[i], ReportCategories[i], allocs, txns)
  }

  lemma RowsMeaning(allocs: seq<Allocation>, txns: seq<Transaction>, cb: map<string, int>, cs: map<string, int>)
    requires FoldsBudgeted(cb, allocs) && FoldsSpent(cs, txns)
    ensures RowsReport(RowsFor(ReportCategories, cb, cs), allocs, txns)
  {
    var rows := RowsFor(ReportCategories, cb, cs);
    forall i | 0 <= i < |rows| ensures RowReports(rows[i], ReportCategories[i], allocs, txns) {
      ReportRowMeaning(allocs, txns, cb, cs, ReportCategories[i]);
    }
  }

  /** The printed totals of a generated run. */
  lemma RunTotals(ms: seq<(int, int)>, allocs: seq<Allocation>, txns: seq<Transaction>)
    requires ms == CoveredMonths && ValidMonths(ms)
    requires allocs == AllocationsFor(ms) && IncomeTotal(txns) == SalaryTotal(ms)
    ensures var s := Summary(allocs, txns);
      s.income == 5025000 && s.budgeted == 4912500 && s.toBudgetRemaining == 112500
  {
    CoveredSalaries();
    CoveredBudget();
    AllocationsTotal(ms);
  }

  /** When the supplied expenses are all filed under listed categories, the
      table's available column adds up to the printed surplus. */
  lemma RunReconciles(ms: seq<(int, int)>, allocs: seq<Allocation>, txns: seq<Transaction>,
                      spending: seq<seq<Transaction>>, cb: map<string, int>, cs: map<string, int>)
    requires ValidMonths(ms) && allocs == AllocationsFor(ms) && ExpensesFrom(txns, spending)
    requires FoldsBudgeted(cb, allocs) && FoldsSpent(cs, txns) && ReportedSpending(spending)
    ensures SumAvailable(RowsFor(ReportCategories, cb, cs)) == Summary(allocs, txns).surplus
  {
    ReportCategoriesDistinct();
    AllocationsReported(ms);
    ReportCategoriesAreBaseKeys();
    forall i | 0 <= i < |txns| && txns[i].Expense?
      ensures txns[i].category != "" && txns[i].category in ReportCategories
    {
      var k, j :| 0 <= k < |spending| && 0 <= j < |spending[k]| && txns[i] == spending[k][j];
    }
    TableReconciles(allocs, txns, cb, cs, ReportCategories);
  }

  /** Lines 250-271: the summary's folds, its table and its totals, over the
      generated allocations and transactions. */
  method Tabulate(allocs: seq<Allocation>, txns: seq<Transaction>)
    returns (cb: map<string, int>, cs: map<string, int>, rows: seq<Row>, totals: Totals)
    ensures FoldsBudgeted(cb, allocs) && FoldsSpent(cs, txns)
    ensures rows == RowsFor(ReportCategories, cb, cs) && totals == Summary(allocs, txns)
  {
    cb := BudgetedByCategory(allocs);
    cs := SpentByCategory(txns);
    rows := RowsFor(ReportCategories, cb, cs);
    totals := Summary(allocs, txns);
  }

  /** Lines 250-271 over the covered months' allocations and rows: the printed
      totals, each row's sums over the whole run, and the reconciliation of the
      table when every expense is filed under a listed category. */
  method Summarise(ms: seq<(int, int)>, allocs: seq<Allocation>, txns: seq<Transaction>, spending: seq<seq<Transaction>>)
    returns (rows: seq<Row>, totals: Totals)
    requires ms == CoveredMonths && ValidMonths(ms) && allocs == AllocationsFor(ms)
    requires IncomeTotal(txns) == SalaryTotal(ms) && ExpensesFrom(txns, spending)
    ensures totals == Summary(allocs, txns)
    ensures totals.income == 5025000 && totals.budgeted == 4912500 && totals.toBudgetRemaining == 112500
    ensures RowsReport(rows, allocs, txns)
    ensures ReportedSpending(spending) ==> SumAvailable(rows) == totals.surplus
  {
    var cb, cs;
    cb, cs, rows, totals := Tabulate(allocs, txns);
    RunTotals(ms, allocs, txns);
    RowsMeaning(allocs, txns, cb, cs);
    if ReportedSpending(spending) {
      RunReconciles(ms, allocs, txns, spending, cb, cs);
    }
  }

  /** The whole script: the month loop, then the summary folds, table and totals.
      Income, budgeted and to-budget figures do not depend on the draws; each
      row reports its category's sums over the whole run; and when every
      expense is filed under a listed category the table's available column
      adds up to the printed surplus. */
  method Run(spending: seq<seq<Transaction>>) returns (f: Fixture, rows: seq<Row>, totals: Totals)
    requires |spending| == 13 && ExpenseRows(spending)
    ensures fresh(f) && ValidMonths(CoveredMonths) && Generated(f, CoveredMonths, spending)
    ensures TransfersBetweenAccounts(f.transactions) && LeafAllocations(f.allocations)
    ensures totals == Summary(f.allocations, f.transactions)
    ensures totals.income == 5025000 && totals.budgeted == 4912500 && totals.toBudgetRemaining == 112500
    ensures RowsReport(rows, f.allocations, f.transactions)
    ensures ReportedSpending(spending) ==> SumAvailable(rows) == totals.surplus
  {
    f := new Fixture();
    var ms := Generate(f, spending);
    RunTransfers(ms, spending);
    AllocationsLeaves(ms);
    rows, totals := Summarise(ms, f.allocations, f.transactions, spending);
  }
}
