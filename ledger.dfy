/** The generator's state: the budget-month, allocation and transaction lists
    and the payee tracker, with the script's helpers `track`, `exp`, `inc` and
    `xfr`, the per-month budget construction, salary, standing transfers and the
    credit-card settlement. Amounts are counts of cents. */
module Ledger {
  import opened Wrappers
  import opened Money
  import opened Calendar
  import opened Budget

  /** One transaction row. Expense and Income rows carry a payee; a Transfer
      row's payee is the fixed text "Transfer". */
  datatype Transaction =
    | Expense(amount: int, payee: string, memo: string, date: DateTime, account: string,
              category: string, parent: string)
    | Income(amount: int, payee: string, date: DateTime, account: string)
    | Transfer(amount: int, date: DateTime, account: string, transferTo: string)
  {
    function PayeeName(): string {
      if Transfer? then "Transfer" else payee
    }
  }

  /** The categoryName an Expense or Income row is tracked under. */
  function CategoryOf(t: Transaction): string
    requires !t.Transfer?
  {
    if t.Expense? then t.category else "To Budget"
  }

  /** A budget-month row: the month marker and an empty note. */
  datatype BudgetMonth = BudgetMonth(month: string, note: string)

  /** What the tracker holds per payee name. */
  datatype PayeeInfo = PayeeInfo(lastDate: DateTime, count: nat, category: string)

  /** The record `track` leaves for a payee whose previous record was prev:
      a new payee starts at this date and category; the count goes up by one;
      date and category move only to a strictly later date. */
  function TrackStep(prev: Option<PayeeInfo>, date: DateTime, cat: string): (r: PayeeInfo)
    ensures r.count == (if prev.Some? then prev.value.count else 0) + 1
    ensures prev.None? ==> r.lastDate == date && r.category == cat
    ensures prev.Some? && Before(prev.value.lastDate, date) ==> r.lastDate == date && r.category == cat
    ensures prev.Some? && !Before(prev.value.lastDate, date) ==>
      r.lastDate == prev.value.lastDate && r.category == prev.value.category
  {
    var p := if prev.Some? then prev.value else PayeeInfo(date, 0, cat);
    if Before(p.lastDate, date) then PayeeInfo(date, p.count + 1, cat)
    else PayeeInfo(p.lastDate, p.count + 1, p.category)
  }

  function Find(m: map<string, PayeeInfo>, k: string): Option<PayeeInfo> {
    if k in m then Some(m[k]) else None
  }

  /** The tracker after the given transactions were appended through exp/inc/xfr. */
  function TrackerOf(txns: seq<Transaction>): map<string, PayeeInfo> {
    if txns == [] then map[]
    else
      var prev := TrackerOf(txns[..|txns| - 1]);
      var t := txns[|txns| - 1];
      if t.Transfer? then prev
      else prev[t.payee := TrackStep(Find(prev, t.payee), t.date, CategoryOf(t))]
  }

  /** Row i is an Expense or Income row of payee n. */
  predicate IsUse(txns: seq<Transaction>, i: int, n: string) {
    0 <= i < |txns| && !txns[i].Transfer? && txns[i].payee == n
  }

  /** How many Expense and Income rows name payee n. */
  function UseCount(txns: seq<Transaction>, n: string): nat {
    if txns == [] then 0
    else UseCount(txns[..|txns| - 1], n) + (if IsUse(txns, |txns| - 1, n) then 1 else 0)
  }

  /** Row i is the first Expense or Income row of payee n dated r.lastDate, and
      its category is r.category. */
  ghost predicate FirstLatest(txns: seq<Transaction>, n: string, r: PayeeInfo, i: int) {
    && IsUse(txns, i, n) && txns[i].date == r.lastDate && CategoryOf(txns[i]) == r.category
    && forall j :: 0 <= j < i && IsUse(txns, j, n) ==> Before(txns[j].date, r.lastDate)
  }

  /** r counts the rows of payee n, no row of n is later than r.lastDate, and
      r's date and category are those of the first row at that latest date. */
  ghost predicate Summarizes(txns: seq<Transaction>, n: string, r: PayeeInfo) {
    && r.count == UseCount(txns, n)
    && (forall i :: IsUse(txns, i, n) ==> !Before(r.lastDate, txns[i].date))
    && exists i :: FirstLatest(txns, n, r, i)
  }

  /** The tracker m is right about payee n for rows txns. */
  ghost predicate Describes(txns: seq<Transaction>, n: string, m: map<string, PayeeInfo>) {
    && (n in m <==> exists i :: IsUse(txns, i, n))
    && (n !in m ==> UseCount(txns, n) == 0)
    && (n in m ==> Summarizes(txns, n, m[n]))
  }

  lemma UsesOfPrefix(txns: seq<Transaction>, n: string)
    requires txns != []
    ensures forall i :: 0 <= i < |txns| - 1 ==>
      txns[i] == txns[..|txns| - 1][i] && (IsUse(txns, i, n) <==> IsUse(txns[..|txns| - 1], i, n))
  {
  }

  /** A row that does not use payee n leaves what is known about n as it was. */
  lemma StepOther(txns: seq<Transaction>, n: string)
    requires txns != [] && !IsUse(txns, |txns| - 1, n)
    requires Describes(txns[..|txns| - 1], n, TrackerOf(txns[..|txns| - 1]))
    ensures Describes(txns, n, TrackerOf(txns))
  {
    var p := txns[..|txns| - 1];
    var m := TrackerOf(p);
    TrackerOther(txns, n);
    UsesOther(txns, n);
    if n in m {
      var i :| FirstLatest(p, n, m[n], i);
      assert FirstLatest(txns, n, m[n], i);
    }
  }

  /** The tracker's record of n is not touched by a row of another payee. */
  lemma TrackerOther(txns: seq<Transaction>, n: string)
    requires txns != [] && !IsUse(txns, |txns| - 1, n)
    ensures var m := TrackerOf(txns[..|txns| - 1]);
      (n in TrackerOf(txns) <==> n in m) && (n in m ==> TrackerOf(txns)[n] == m[n])
  {
  }

  /** A row of another payee adds no use of n. */
  lemma UsesOther(txns: seq<Transaction>, n: string)
    requires txns != [] && !IsUse(txns, |txns| - 1, n)
    ensures UseCount(txns, n) == UseCount(txns[..|txns| - 1], n)
    ensures forall i :: IsUse(txns, i, n) <==> IsUse(txns[..|txns| - 1], i, n)
  {
    UsesOfPrefix(txns, n);
  }

  /** A row of payee n steps n's record and adds one use of n. */
  lemma TrackerUse(txns: seq<Transaction>, n: string)
    requires txns != [] && IsUse(txns, |txns| - 1, n)
    ensures var p, t := TrackerOf(txns[..|txns| - 1]), txns[|txns| - 1];
      n in TrackerOf(txns) && TrackerOf(txns)[n] == TrackStep(Find(p, n), t.date, CategoryOf(t))
    ensures UseCount(txns, n) == UseCount(txns[..|txns| - 1], n) + 1
  {
  }

  /** The first row of a new payee creates its record. */
  lemma StepNew(txns: seq<Transaction>, n: string)
    requires txns != [] && IsUse(txns, |txns| - 1, n)
    requires Describes(txns[..|txns| - 1], n, TrackerOf(txns[..|txns| - 1]))
    requires n !in TrackerOf(txns[..|txns| - 1])
    ensures Describes(txns, n, TrackerOf(txns))
  {
    var L := |txns| - 1;
    UsesOfPrefix(txns, n);
    var r := TrackerOf(txns)[n];
    assert r == PayeeInfo(txns[L].date, 1, CategoryOf(txns[L]));
    forall i | IsUse(txns, i, n) ensures i == L {
    }
    BeforeIsStrictTotalOrder(r.lastDate, r.lastDate, r.lastDate);
    assert FirstLatest(txns, n, r, L);
  }

  /** A row strictly later than the payee's last date takes over date and category. */
  lemma StepLater(txns: seq<Transaction>, n: string)
    requires txns != [] && IsUse(txns, |txns| - 1, n)
    requires Describes(txns[..|txns| - 1], n, TrackerOf(txns[..|txns| - 1]))
    requires n in TrackerOf(txns[..|txns| - 1])
    requires Before(TrackerOf(txns[..|txns| - 1])[n].lastDate, txns[|txns| - 1].date)
    ensures Describes(txns, n, TrackerOf(txns))
  {
    var L := |txns| - 1;
    var p := txns[..L];
    UsesOfPrefix(txns, n);
    var r0, r := TrackerOf(p)[n], TrackerOf(txns)[n];
    assert r.lastDate == txns[L].date && r.category == CategoryOf(txns[L]);
    forall i | 0 <= i < L && IsUse(txns, i, n) ensures Before(txns[i].date, r.lastDate) {
      assert IsUse(p, i, n);
      BeforeIsStrictTotalOrder(txns[i].date, r0.lastDate, r.lastDate);
    }
    forall i | IsUse(txns, i, n) ensures !Before(r.lastDate, txns[i].date) {
      BeforeIsStrictTotalOrder(txns[i].date, r.lastDate, txns[i].date);
    }
    assert FirstLatest(txns, n, r, L);
  }

  /** A row no later than the payee's last date only adds to the count. */
  lemma StepNotLater(txns: seq<Transaction>, n: string)
    requires txns != [] && IsUse(txns, |txns| - 1, n)
    requires Describes(txns[..|txns| - 1], n, TrackerOf(txns[..|txns| - 1]))
    requires n in TrackerOf(txns[..|txns| - 1])
    requires !Before(TrackerOf(txns[..|txns| - 1])[n].lastDate, txns[|txns| - 1].date)
    ensures Describes(txns, n, TrackerOf(txns))
  {
    var L := |txns| - 1;
    var p := txns[..L];
    UsesOfPrefix(txns, n);
    TrackerUse(txns, n);
    var r0, r := TrackerOf(p)[n], TrackerOf(txns)[n];
    assert r == PayeeInfo(r0.lastDate, r0.count + 1, r0.category);
    assert r.count == UseCount(txns, n);
    var i0 :| FirstLatest(p, n, r0, i0);
    assert FirstLatest(txns, n, r, i0);
    forall i | IsUse(txns, i, n) ensures !Before(r.lastDate, txns[i].date) {
      if i < L { assert IsUse(p, i, n); }
    }
  }

  /** What the tracker means: a payee has a record exactly when some Expense or
      Income row names it; its count is the number of such rows; its last date is
      the latest of their dates; its category is that of the first such row
      carrying that latest date (a later row on the same date does not replace it). */
  lemma {:induction false} TrackerMeaning(txns: seq<Transaction>, n: string)
    ensures Describes(txns, n, TrackerOf(txns))
  {
    if txns != [] {
      var L := |txns| - 1;
      var p := txns[..L];
      TrackerMeaning(p, n);
      if !IsUse(txns, L, n) {
        StepOther(txns, n);
      } else if n !in TrackerOf(p) {
        StepNew(txns, n);
      } else if Before(TrackerOf(p)[n].lastDate, txns[L].date) {
        StepLater(txns, n);
      } else {
        StepNotLater(txns, n);
      }
    }
  }

  /** Transfers never reach the tracker: when only Transfer rows show the payee
      text "Transfer", "Transfer" gets no record, however many transfers the
      list holds. */
  lemma TransferNotTracked(txns: seq<Transaction>)
    requires forall i :: 0 <= i < |txns| && txns[i].PayeeName() == "Transfer" ==> txns[i].Transfer?
    ensures "Transfer" !in TrackerOf(txns)
  {
    TrackerMeaning(txns, "Transfer");
  }

  predicate AllDatesValid(txns: seq<Transaction>) {
    forall i :: 0 <= i < |txns| ==> ValidDateTime(txns[i].date)
  }

  /** Appending a row steps the tracker by that row alone. */
  lemma TrackerSnoc(p: seq<Transaction>, t: Transaction)
    ensures TrackerOf(p + [t]) ==
      if t.Transfer? then TrackerOf(p)
      else TrackerOf(p)[t.payee := TrackStep(Find(TrackerOf(p), t.payee), t.date, CategoryOf(t))]
  {
    assert (p + [t])[..|p|] == p;
  }

  lemma DatesAppend(a: seq<Transaction>, b: seq<Transaction>)
    requires AllDatesValid(a) && AllDatesValid(b)
    ensures AllDatesValid(a + b)
  {
    forall i | 0 <= i < |a + b| ensures ValidDateTime((a + b)[i].date) {
      if i < |a| { assert (a + b)[i] == a[i]; } else { assert (a + b)[i] == b[i - |a|]; }
    }
  }

  lemma DatesSnoc(p: seq<Transaction>, t: Transaction)
    requires AllDatesValid(p) && ValidDateTime(t.date)
    ensures AllDatesValid(p + [t])
  {
    assert forall i :: 0 <= i < |p| ==> (p + [t])[i] == p[i];
  }


  /** The settlement filter: an Expense row on "Credit Card" whose ISO date
      starts with "YYYY-MM". */
  predicate OnCardIn(t: Transaction, yr: int, mo: int)
    requires ValidDateTime(t.date) && 1000 <= yr < 10000 && 1 <= mo <= 12
  {
    t.account == "Credit Card" && StartsWith(Iso(t.date), MonthPrefix(yr, mo)) && t.Expense?
  }

  /** The settlement filter selects exactly the month's credit-card expenses. */
  lemma OnCardInMeaning(t: Transaction, yr: int, mo: int)
    requires ValidDateTime(t.date) && 1000 <= yr < 10000 && 1 <= mo <= 12
    ensures OnCardIn(t, yr, mo) <==>
      t.Expense? && t.account == "Credit Card" && t.date.year == yr && t.date.month == mo
  {
    IsoMonthPrefix(t.date, yr, mo);
  }

  /** `sum(Decimal(t["amount"]) for t in transactions if ...)`. */
  function CardSpend(txns: seq<Transaction>, yr: int, mo: int): int
    requires AllDatesValid(txns) && 1000 <= yr < 10000 && 1 <= mo <= 12
  {
    if txns == [] then 0
    else
      var L := |txns| - 1;
      CardSpend(txns[..L], yr, mo) + (if OnCardIn(txns[L], yr, mo) then txns[L].amount else 0)
  }

  /** A positive settlement sum comes from at least one credit-card expense of
      that month with a positive amount. */
  lemma {:induction false} CardSpendWitness(txns: seq<Transaction>, yr: int, mo: int)
    requires AllDatesValid(txns) && 1000 <= yr < 10000 && 1 <= mo <= 12
    requires CardSpend(txns, yr, mo) > 0
    ensures exists i :: (0 <= i < |txns| && txns[i].Expense? && txns[i].account == "Credit Card"
      && txns[i].date.year == yr && txns[i].date.month == mo && txns[i].amount > 0)
  {
    var L := |txns| - 1;
    if OnCardIn(txns[L], yr, mo) && txns[L].amount > 0 {
      OnCardInMeaning(txns[L], yr, mo);
    } else {
      CardSpendWitness(txns[..L], yr, mo);
      var i :| 0 <= i < L && txns[..L][i].Expense? && txns[..L][i].account == "Credit Card"
        && txns[..L][i].date.year == yr && txns[..L][i].date.month == mo && txns[..L][i].amount > 0;
      assert txns[i] == txns[..L][i];
    }
  }

  /** Appending rows adds their own settlement sum; a transfer adds nothing. */
  lemma {:induction false} CardSpendAppend(a: seq<Transaction>, b: seq<Transaction>, yr: int, mo: int)
    requires AllDatesValid(a) && AllDatesValid(b) && 1000 <= yr < 10000 && 1 <= mo <= 12
    ensures AllDatesValid(a + b)
    ensures CardSpend(a + b, yr, mo) == CardSpend(a, yr, mo) + CardSpend(b, yr, mo)
    decreases |b|
  {
    assert AllDatesValid(a + b) by {
      forall i | 0 <= i < |a + b| ensures ValidDateTime((a + b)[i].date) {
        if i < |a| { assert (a + b)[i] == a[i]; } else { assert (a + b)[i] == b[i - |a|]; }
      }
    }
    if b == [] {
      assert a + b == a;
    } else {
      var L := |b| - 1;
      assert (a + b)[..|a + b| - 1] == a + b[..L];
      assert (a + b)[|a + b| - 1] == b[L];
      CardSpendAppend(a, b[..L], yr, mo);
    }
  }

  /** The script's module-level state. */
  class Fixture {
    var budgetMonths: seq<BudgetMonth>
    var allocations: seq<Allocation>
    var transactions: seq<Transaction>
    var tracker: map<string, PayeeInfo>

    /** The tracker is always the one the transactions produce, and every row
        carries a date the datetime constructor accepts. */
    ghost predicate Valid()
      reads this`tracker, this`transactions
    {
      tracker == TrackerOf(transactions) && AllDatesValid(transactions)
    }

    constructor ()
      ensures Valid()
      ensures budgetMonths == [] && allocations == [] && transactions == [] && tracker == map[]
    {
      budgetMonths, allocations, transactions, tracker := [], [], [], map[];
    }

    /** `track(name, date, cat)`. */
    method Track(name: string, date: DateTime, cat: string)
      modifies this`tracker
      ensures tracker == old(tracker)[name := TrackStep(Find(old(tracker), name), date, cat)]
    {
      if name !in tracker {
        tracker := tracker[name := PayeeInfo(date, 0, cat)];
      }
      var info := tracker[name];
      info := info.(count := info.count + 1);
      if Before(info.lastDate, date) {
        info := info.(lastDate := date, category := cat);
      }
      tracker := tracker[name := info];
    }

    /** Append row t (an Expense or Income row) and track its payee. */
    method Record(t: Transaction)
      requires Valid() && !t.Transfer? && ValidDateTime(t.date)
      modifies this`transactions, this`tracker
      ensures Valid()
      ensures transactions == old(transactions) + [t]
    {
      ghost var next := tracker[t.payee := TrackStep(Find(tracker, t.payee), t.date, CategoryOf(t))];
      TrackerSnoc(transactions, t);
      assert TrackerOf(transactions + [t]) == next;
      DatesSnoc(transactions, t);
      transactions := transactions + [t];
      Track(t.payee, t.date, CategoryOf(t));
      assert tracker == next;
    }

    /** `exp(amt, payee, cat, parent, date, acct, memo)`. */
    method Exp(amt: Dec, payee: string, cat: string, parent: string, date: DateTime, acct: string, memo: string)
      requires Valid() && ValidDateTime(date)
      modifies this`transactions, this`tracker
      ensures Valid()
      ensures transactions == old(transactions) + [Expense(Cents(amt), payee, memo, date, acct, cat, parent)]
    {
      Record(Expense(Cents(amt), payee, memo, date, acct, cat, parent));
    }

    /** `inc(amt, payee, date, acct)`: income is tracked under "To Budget". */
    method Inc(amt: Dec, payee: string, date: DateTime, acct: string)
      requires Valid() && ValidDateTime(date)
      modifies this`transactions, this`tracker
      ensures Valid()
      ensures transactions == old(transactions) + [Income(Cents(amt), payee, date, acct)]
    {
      Record(Income(Cents(amt), payee, date, acct));
    }

    /** `xfr(amt, fr, to, date)`: appends a Transfer and leaves the tracker alone. */
    method Xfr(amt: Dec, fr: string, to: string, date: DateTime)
      requires Valid() && ValidDateTime(date)
      modifies this`transactions
      ensures Valid()
      ensures transactions == old(transactions) + [Transfer(Cents(amt), date, fr, to)]
      ensures tracker == old(tracker)
    {
      var t := Transfer(Cents(amt), date, fr, to);
      TrackerSnoc(transactions, t);
      DatesSnoc(transactions, t);
      transactions := transactions + [t];
    }

    /** Lines 129-141: the month's budget-month row, its merged budget, and one
        allocation per budget key. */
    method AddBudgetMonth(yr: int, mo: int)
      requires 1000 <= yr <= 9999 && 1 <= mo <= 12
      modifies this`budgetMonths, this`allocations
      ensures budgetMonths == old(budgetMonths) + [BudgetMonth(MonthStart(yr, mo), "")]
      ensures allocations == old(allocations) + MonthAllocations(Categories, MonthBudget(mo), MonthStart(yr, mo))
    {
      var mi := MonthStart(yr, mo);
      budgetMonths := budgetMonths + [BudgetMonth(mi, "")];
      var mb := BaseBudget;
      if mo in Seasonal {
        mb := PutAll(mb, Seasonal[mo]);
      }
      Allocate(mb, mi);
    }

    /** Lines 134-141: one allocation per key of mb, in key order, with the
        parent the category table gives it. */
    method Allocate(mb: Table, mi: string)
      modifies this`allocations
      ensures allocations == old(allocations) + MonthAllocations(Categories, mb, mi)
    {
      for i := 0 to |mb|
        invariant allocations == old(allocations) + MonthAllocations(Categories, mb[..i], mi)
      {
        AddAllocation(Categories, mb[i], mi);
        MonthAllocationsSnoc(Categories, mb, i, mi);
      }
      assert mb[..|mb|] == mb;
    }

    /** Lines 135-141: the allocation row for budget entry e, with the parent the
        category table cats gives it. */
    method AddAllocation(cats: seq<CategoryRef>, e: (string, int), mi: string)
      modifies this`allocations
      ensures allocations == old(allocations) + [AllocationOf(cats, e, mi)]
    {
      var (cn, a) := e;
      var p := FindParent(cats, cn);
      var al := Allocation(Cents(Dec(a, 2)), cn, ParentField(p), mi);
      allocations := allocations + [al];
    }

    /** Lines 144-148: the salary, dated the 28th of the previous month. */
    method PaySalary(yr: int, mo: int)
      requires Valid() && 2 <= yr <= 9999 && 1 <= mo <= 12
      modifies this`transactions, this`tracker
      ensures Valid()
      ensures transactions == old(transactions) + [Income(SalaryCents(mo), "Employer - Salary", SalaryDate(yr, mo), "Joint Current")]
    {
      var sm := if mo > 1 then mo - 1 else 12;
      var sy := if mo > 1 then yr else yr - 1;
      var sal := Dec(380000, 2);
      if mo == 6 {
        sal := Dec(410000, 2);
      } else if mo == 12 {
        sal := Dec(435000, 2);
      }
      Inc(sal, "Employer - Salary", DateTime(sy, sm, 28, 8, 0, 0), "Joint Current");
    }

    /** Lines 229-230: the two standing transfers out of the current account. */
    method StandingTransfers(yr: int, mo: int)
      requires Valid() && 1 <= yr <= 9999 && 1 <= mo <= 12
      modifies this`transactions
      ensures Valid() && tracker == old(tracker)
      ensures transactions == old(transactions) + StandingTransferRows(yr, mo)
    {
      var md := DayLimit(yr, mo);
      Xfr(Dec(20000, 2), "Joint Current", "Savings", DateTime(yr, mo, Min(2, md), 9, 0, 0));
      Xfr(Dec(10000, 2), "Joint Current", "ISA", DateTime(yr, mo, Min(2, md), 9, 30, 0));
    }

    /** Lines 232-234: pay off the month's credit-card expenses from the current
        account, when their sum is positive. */
    method SettleCreditCard(yr: int, mo: int)
      requires Valid() && 1000 <= yr <= 9999 && 1 <= mo <= 12
      modifies this`transactions
      ensures Valid() && tracker == old(tracker)
      ensures transactions == old(transactions) + Settlement(CardSpend(old(transactions), yr, mo), yr, mo)
    {
      var cc := CardSpend(transactions, yr, mo);
      if cc > 0 {
        CentsOfCents(cc);
        Xfr(Dec(cc, 2), "Joint Current", "Credit Card", DateTime(yr, mo, Min(20, DayLimit(yr, mo)), 10, 0, 0));
      }
    }
    /** Lines 153-226 with the random draws already made: append the month's
        synthesised expense rows through `exp`. */
    method Spend(rows: seq<Transaction>)
      requires Valid() && forall i :: 0 <= i < |rows| ==> rows[i].Expense? && ValidDateTime(rows[i].date)
      modifies this`transactions, this`tracker
      ensures Valid()
      ensures transactions == old(transactions) + rows
    {
      for i := 0 to |rows|
        invariant Valid()
        invariant transactions == old(transactions) + rows[..i]
      {
        var r := rows[i];
        CentsOfCents(r.amount);
        Exp(Dec(r.amount, 2), r.payee, r.category, r.parent, r.date, r.account, r.memo);
        assert rows[..i + 1] == rows[..i] + [r];
      }
      assert rows[..|rows|] == rows;
    }

    /** Lines 144-234 with the random draws already made: the salary, the
        month's expenses, the standing transfers and the credit-card settlement,
        whose amount is the earlier months' leftover card spending for this month
        plus this month's own. */
    method BookMonth(yr: int, mo: int, spending: seq<Transaction>)
      requires Valid() && 1000 <= yr <= 9999 && 1 <= mo <= 12
      requires forall i :: 0 <= i < |spending| ==> spending[i].Expense? && ValidDateTime(spending[i].date)
      modifies this`transactions, this`tracker
      ensures Valid()
      ensures var cc := CardSpend(old(transactions), yr, mo) + CardSpend(spending, yr, mo);
        transactions == old(transactions)
          + [Income(SalaryCents(mo), "Employer - Salary", SalaryDate(yr, mo), "Joint Current")]
          + spending + StandingTransferRows(yr, mo) + Settlement(cc, yr, mo)
    {
      ghost var t0 := transactions;
      ghost var salary := [Income(SalaryCents(mo), "Employer - Salary", SalaryDate(yr, mo), "Joint Current")];
      PaySalary(yr, mo);
      Spend(spending);
      StandingTransfers(yr, mo);
      ghost var t3 := transactions;
      assert t3 == t0 + salary + spending + StandingTransferRows(yr, mo);
      MonthCardSpend(t0, salary, spending, yr, mo);
      SettleCreditCard(yr, mo);
    }
  }

  /** Only the month's supplied expenses add to its settlement sum: the salary
      and the standing transfers add nothing. */
  lemma MonthCardSpend(t0: seq<Transaction>, salary: seq<Transaction>, spending: seq<Transaction>, yr: int, mo: int)
    requires AllDatesValid(t0) && AllDatesValid(salary) && AllDatesValid(spending)
    requires |salary| == 1 && salary[0].Income? && 1000 <= yr <= 9999 && 1 <= mo <= 12
    ensures AllDatesValid(t0 + salary + spending + StandingTransferRows(yr, mo))
    ensures CardSpend(t0 + salary + spending + StandingTransferRows(yr, mo), yr, mo)
      == CardSpend(t0, yr, mo) + CardSpend(spending, yr, mo)
  {
    var x := StandingTransferRows(yr, mo);
    assert AllDatesValid(x);
    CardSpendAppend(t0, salary, yr, mo);
    CardSpendAppend(t0 + salary, spending, yr, mo);
    CardSpendAppend(t0 + salary + spending, x, yr, mo);
    assert CardSpend(salary, yr, mo) == 0 by {
      assert salary[..0] == [];
    }
    assert CardSpend(x, yr, mo) == 0 by {
      assert x[..1][..0] == [] && x[..1] == [x[0]] && x[..|x| - 1] == x[..1];
    }
  }

  /** The two standing transfers of month (yr, mo). */
  function StandingTransferRows(yr: int, mo: int): (r: seq<Transaction>)
    ensures |r| == 2 && forall i :: 0 <= i < 2 ==>
      r[i].Transfer? && r[i].account == "Joint Current" && r[i].transferTo != r[i].account
  {
    [Transfer(20000, DateTime(yr, mo, 2, 9, 0, 0), "Joint Current", "Savings"),
     Transfer(10000, DateTime(yr, mo, 2, 9, 30, 0), "Joint Current", "ISA")]
  }

  /** The settlement rows for card spending cc: one transfer of exactly cc to
      "Credit Card" on the 20th (or the month's last generated day), when cc > 0. */
  function Settlement(cc: int, yr: int, mo: int): (r: seq<Transaction>)
    ensures |r| <= 1 && (|r| == 1 <==> cc > 0)
    ensures |r| == 1 ==> (r[0].Transfer? && r[0].amount == cc && r[0].transferTo == "Credit Card"
      && r[0].account == "Joint Current" && r[0].transferTo != r[0].account
      && r[0].date.year == yr && r[0].date.month == mo)
    ensures 1 <= yr <= 9999 && 1 <= mo <= 12 ==> AllDatesValid(r)
  {
    if cc > 0 then [Transfer(cc, DateTime(yr, mo, Min(20, DayLimit(yr, mo)), 10, 0, 0), "Joint Current", "Credit Card")]
    else []
  }

  /** The salary of month mo, in cents: higher in June and December. */
  function SalaryCents(mo: int): (c: int)
    ensures c == (if mo == 6 then 410000 else if mo == 12 then 435000 else 380000)
  {
    Cents(Dec(if mo == 6 then 410000 else if mo == 12 then 435000 else 380000, 2))
  }
}
