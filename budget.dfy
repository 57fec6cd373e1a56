/** The monthly budget: the base per-category budget (a Python dict, kept in
    insertion order), the seasonal overrides merged into it with dict.update,
    the category table's name-to-parent relation, and the allocation rows the
    month loop emits. Amounts are counts of cents. */
module Budget {
  import opened Wrappers
  import opened Money

  /** An insertion-ordered dict from category name to cents. */
  type Table = seq<(string, int)>

  function Keys(t: Table): (ks: seq<string>)
    ensures |ks| == |t| && forall i :: 0 <= i < |t| ==> ks[i] == t[i].0
  {
    seq(|t|, i requires 0 <= i < |t| => t[i].0)
  }

  predicate Distinct(s: seq<string>) {
    forall i, j :: 0 <= i < j < |s| ==> s[i] != s[j]
  }

  /** `t.get(k)`. */
  function Lookup(t: Table, k: string): (r: Option<int>)
    ensures r.Some? <==> k in Keys(t)
  {
    if t == [] then None
    else if t[0].0 == k then Some(t[0].1)
    else
      assert Keys(t) == [t[0].0] + Keys(t[1..]);
      Lookup(t[1..], k)
  }

  /** `t[k] = v`: an existing key keeps its place, a new key goes last. */
  function Put(t: Table, k: string, v: int): Table {
    if t == [] then [(k, v)]
    else if t[0].0 == k then [(k, v)] + t[1..]
    else [t[0]] + Put(t[1..], k, v)
  }

  /** An existing key keeps its place in the key order; a new key goes last. */
  lemma {:induction false} PutKeys(t: Table, k: string, v: int)
    ensures Keys(Put(t, k, v)) == if k in Keys(t) then Keys(t) else Keys(t) + [k]
  {
    if t != [] {
      KeysCons(t[0], t[1..]);
      assert t == [t[0]] + t[1..];
      if t[0].0 == k {
        KeysCons((k, v), t[1..]);
      } else {
        PutKeys(t[1..], k, v);
        KeysCons(t[0], Put(t[1..], k, v));
      }
    }
  }

  /** After `t[k] = v` the key k holds v and every other key is unchanged. */
  lemma {:induction false} PutLookup(t: Table, k: string, v: int, k': string)
    ensures Lookup(Put(t, k, v), k') == if k' == k then Some(v) else Lookup(t, k')
  {
    if t == [] {
      LookupCons((k, v), []);
    } else {
      LookupCons(t[0], t[1..]);
      assert t == [t[0]] + t[1..];
      if t[0].0 == k {
        LookupCons((k, v), t[1..]);
      } else {
        PutLookup(t[1..], k, v, k');
        LookupCons(t[0], Put(t[1..], k, v));
      }
    }
  }

  lemma KeysCons(e: (string, int), t: Table)
    ensures Keys([e] + t) == [e.0] + Keys(t)
  {
  }

  lemma LookupCons(e: (string, int), t: Table)
    ensures forall k :: Lookup([e] + t, k) == if e.0 == k then Some(e.1) else Lookup(t, k)
  {
    assert ([e] + t)[1..] == t;
  }

  /** `t.update(u)`: the entries of u put into t one after another. */
  function PutAll(t: Table, u: Table): Table
    decreases |u|
  {
    if u == [] then t else PutAll(Put(t, u[0].0, u[0].1), u[1..])
  }

  /** After an update the overriding dict's value wins; every other key keeps its value. */
  lemma {:induction false} PutAllLookup(t: Table, u: Table, k: string)
    requires Distinct(Keys(u))
    ensures Lookup(PutAll(t, u), k) == if k in Keys(u) then Lookup(u, k) else Lookup(t, k)
    decreases |u|
  {
    if u != [] {
      var t' := Put(t, u[0].0, u[0].1);
      assert Keys(u) == [u[0].0] + Keys(u[1..]);
      assert Distinct(Keys(u[1..]));
      PutLookup(t, u[0].0, u[0].1, k);
      PutAllLookup(t', u[1..], k);
    }
  }

  /** An update whose keys are all present already keeps the key order. */
  lemma {:induction false} PutAllKeys(t: Table, u: Table)
    requires forall k :: k in Keys(u) ==> k in Keys(t)
    ensures Keys(PutAll(t, u)) == Keys(t)
    decreases |u|
  {
    if u != [] {
      assert u[0].0 in Keys(u);
      assert Keys(u) == [u[0].0] + Keys(u[1..]);
      PutKeys(t, u[0].0, u[0].1);
      PutAllKeys(Put(t, u[0].0, u[0].1), u[1..]);
    }
  }

  /** `sum(t.values())`. */
  function Total(t: Table): int {
    if t == [] then 0 else t[0].1 + Total(t[1..])
  }

  /** Replacing one value changes the total by the difference. */
  lemma {:induction false} TotalReplace(t: Table, i: nat, v: int)
    requires i < |t|
    ensures Total(t[i := (t[i].0, v)]) == Total(t) - t[i].1 + v
  {
    if i > 0 {
      TotalReplace(t[1..], i - 1, v);
      assert t[i := (t[i].0, v)][1..] == t[1..][i - 1 := (t[i].0, v)];
    }
  }

  const BaseTotalCents := 375000

  /** The monthly base budget, in the script's order. */
  const BaseBudget: Table := [
    ("Mortgage Payment", 89500), ("Council Tax", 16500), ("Energy", 14000),
    ("Water", 4200), ("Internet", 3200), ("Mobile Phones", 4500),
    ("Insurance", 8500), ("Groceries", 68600), ("Eating Out", 15000),
    ("Transport", 25000), ("Clothing", 7500), ("Household", 5500),
    ("Entertainment", 7500), ("Subscriptions", 3500), ("Health", 4000),
    ("Kids", 17500), ("Gifts", 5500), ("Holiday Fund", 50000),
    ("Emergency Fund", 25000)
  ]

  /** The load-time assertion `sum(base_budget.values()) == 3750.00`. */
  predicate StartupCheck(t: Table) {
    Total(t) == BaseTotalCents
  }

  lemma TotalStep(t: Table, k: nat)
    requires k < |t|
    ensures Total(t[k..]) == t[k].1 + Total(t[k + 1..])
  {
    assert t[k..][1..] == t[k + 1..];
  }

  // The BaseTotalFrom chain sums the literal budget a few entries at a time;
  // it states nothing new and only keeps each proof small.
  lemma BaseTotalFrom15()
    ensures Total(BaseBudget[15..]) == 17500 + 5500 + 50000 + 25000
  {
    var t := BaseBudget;
    assert t[19..] == [];
    TotalStep(t, 18); TotalStep(t, 17); TotalStep(t, 16); TotalStep(t, 15);
  }

  lemma BaseTotalFrom10()
    ensures Total(BaseBudget[10..]) == 7500 + 5500 + 7500 + 3500 + 4000 + 98000
  {
    var t := BaseBudget;
    BaseTotalFrom15();
    TotalStep(t, 14); TotalStep(t, 13); TotalStep(t, 12); TotalStep(t, 11); TotalStep(t, 10);
  }

  lemma BaseTotalFrom8()
    ensures Total(BaseBudget[8..]) == 15000 + 25000 + 126000
  {
    var t := BaseBudget;
    BaseTotalFrom10();
    TotalStep(t, 9); TotalStep(t, 8);
  }

  lemma BaseTotalFrom5()
    ensures Total(BaseBudget[5..]) == 4500 + 8500 + 68600 + 166000
  {
    var t := BaseBudget;
    BaseTotalFrom8();
    TotalStep(t, 7); TotalStep(t, 6); TotalStep(t, 5);
  }

  /** The base budget passes the load-time assertion. */
  lemma BaseBudgetPassesCheck()
    ensures StartupCheck(BaseBudget)
  {
    var t := BaseBudget;
    BaseTotalFrom5();
    TotalStep(t, 4); TotalStep(t, 3); TotalStep(t, 2); TotalStep(t, 1); TotalStep(t, 0);
    assert t[0..] == t;
  }

  /** Changing any single base value without adjusting another fails the check. */
  lemma SingleChangeFailsCheck(i: nat, v: int)
    requires i < |BaseBudget| && v != BaseBudget[i].1
    ensures !StartupCheck(BaseBudget[i := (BaseBudget[i].0, v)])
  {
    BaseBudgetPassesCheck();
    TotalReplace(BaseBudget, i, v);
  }

  /** Winter energy and December gifts, by month number. */
  const Seasonal: map<int, Table> := map[
    11 := [("Energy", 18500)],
    12 := [("Energy", 19500), ("Gifts", 20000)],
    1 := [("Energy", 19000)],
    2 := [("Energy", 18000)]
  ]

  /** `mb = dict(base_budget); if mo in seasonal: mb.update(seasonal[mo])`. */
  function MonthBudget(mo: int): Table {
    if mo in Seasonal then PutAll(BaseBudget, Seasonal[mo]) else BaseBudget
  }

  lemma SeasonalKeysAreBaseKeys(mo: int)
    requires mo in Seasonal
    ensures Distinct(Keys(Seasonal[mo]))
    ensures forall k :: k in Keys(Seasonal[mo]) ==> k in Keys(BaseBudget)
  {
    assert Keys(BaseBudget)[2] == "Energy" && Keys(BaseBudget)[16] == "Gifts";
    if mo == 12 {
      assert Keys(Seasonal[mo]) == ["Energy", "Gifts"];
    } else {
      assert Keys(Seasonal[mo]) == ["Energy"];
    }
  }

  /** Every month budget has exactly the base keys, in the base order. */
  lemma MonthBudgetKeys(mo: int)
    ensures Keys(MonthBudget(mo)) == Keys(BaseBudget)
  {
    if mo in Seasonal {
      SeasonalKeysAreBaseKeys(mo);
      PutAllKeys(BaseBudget, Seasonal[mo]);
    }
  }

  /** In a month budget, a key the month's overrides list takes the override,
      every other key its base value. */
  lemma MonthBudgetShape(mo: int, k: string)
    ensures Lookup(MonthBudget(mo), k) ==
      if mo in Seasonal && k in Keys(Seasonal[mo]) then Lookup(Seasonal[mo], k) else Lookup(BaseBudget, k)
  {
    if mo in Seasonal {
      PutAllLookup(BaseBudget, Seasonal[mo], k);
    }
  }

  /** `t.get(k, Decimal("0"))`. */
  function ValueOf(t: Table, k: string): int {
    match Lookup(t, k) case Some(v) => v case None => 0
  }

  /** With distinct keys, looking up the key of entry i gives entry i's value. */
  lemma {:induction false} LookupAt(t: Table, i: nat)
    requires Distinct(Keys(t)) && i < |t|
    ensures Lookup(t, t[i].0) == Some(t[i].1)
  {
    if i > 0 {
      var t' := t[1..];
      DistinctTail(t);
      assert t[0].0 != t[i].0 by { assert Keys(t)[0] != Keys(t)[i]; }
      assert t'[i - 1] == t[i];
      LookupAt(t', i - 1);
    }
  }

  lemma DistinctTail(t: Table)
    requires t != [] && Distinct(Keys(t))
    ensures Distinct(Keys(t[1..]))
  {
    var t' := t[1..];
    forall a, b | 0 <= a < b < |t'| ensures Keys(t')[a] != Keys(t')[b] {
      assert Keys(t')[a] == Keys(t)[a + 1] && Keys(t')[b] == Keys(t)[b + 1];
    }
  }

  /** Putting an existing key replaces its entry where it stands. */
  lemma {:induction false} PutAt(t: Table, i: nat, v: int)
    requires Distinct(Keys(t)) && i < |t|
    ensures Put(t, t[i].0, v) == t[i := (t[i].0, v)]
  {
    var k := t[i].0;
    if i == 0 {
      assert t[0 := (k, v)] == [(k, v)] + t[1..];
    } else {
      var t' := t[1..];
      DistinctTail(t);
      assert t[0].0 != k by { assert Keys(t)[0] != Keys(t)[i]; }
      assert t'[i - 1] == t[i];
      PutAt(t', i - 1, v);
      assert Put(t, k, v) == [t[0]] + Put(t', k, v);
      SnocUpdate(t, i, (k, v));
    }
  }

  lemma SnocUpdate(t: Table, i: nat, e: (string, int))
    requires 0 < i < |t|
    ensures t[i := e] == [t[0]] + t[1..][i - 1 := e]
  {
  }

  /** Overriding an existing key changes the total by the difference. */
  lemma PutTotal(t: Table, k: string, v: int)
    requires Distinct(Keys(t)) && k in Keys(t)
    ensures Total(Put(t, k, v)) == Total(t) - ValueOf(t, k) + v
  {
    var i :| 0 <= i < |t| && t[i].0 == k;
    LookupAt(t, i);
    PutAt(t, i, v);
    TotalReplace(t, i, v);
  }

  /** The total change the overrides u make to t, each override against t's value. */
  function Uplift(t: Table, u: Table): int {
    if u == [] then 0 else (u[0].1 - ValueOf(t, u[0].0)) + Uplift(t, u[1..])
  }

  lemma {:induction false} UpliftPut(t: Table, k: string, v: int, u: Table)
    requires k !in Keys(u)
    ensures Uplift(Put(t, k, v), u) == Uplift(t, u)
  {
    if u != [] {
      assert Keys(u) == [u[0].0] + Keys(u[1..]);
      PutLookup(t, k, v, u[0].0);
      UpliftPut(t, k, v, u[1..]);
    }
  }

  /** A dict update over existing keys moves the total by the overrides' uplift. */
  lemma {:induction false} PutAllTotal(t: Table, u: Table)
    requires Distinct(Keys(t)) && Distinct(Keys(u))
    requires forall k :: k in Keys(u) ==> k in Keys(t)
    ensures Total(PutAll(t, u)) == Total(t) + Uplift(t, u)
    decreases |u|
  {
    if u != [] {
      var t' := Put(t, u[0].0, u[0].1);
      assert Keys(u) == [u[0].0] + Keys(u[1..]);
      assert u[0].0 in Keys(u);
      DistinctTail(u);
      assert u[0].0 !in Keys(u[1..]) by {
        forall j | 0 <= j < |u[1..]| ensures Keys(u[1..])[j] != u[0].0 {
          assert Keys(u)[j + 1] == Keys(u[1..])[j];
        }
      }
      PutTotal(t, u[0].0, u[0].1);
      PutKeys(t, u[0].0, u[0].1);
      PutAllTotal(t', u[1..]);
      UpliftPut(t, u[0].0, u[0].1, u[1..]);
    }
  }

  predicate NotIn(x: string, s: seq<string>) {
    forall j :: 0 <= j < |s| ==> s[j] != x
  }

  lemma DistinctStep(s: seq<string>, k: nat)
    requires k < |s| && NotIn(s[k], s[k + 1..]) && Distinct(s[k + 1..])
    ensures Distinct(s[k..])
  {
    var t := s[k..];
    assert t[1..] == s[k + 1..];
    forall i, j | 0 <= i < j < |t| ensures t[i] != t[j] {
      assert t[j] == t[1..][j - 1];
      if i > 0 { assert t[i] == t[1..][i - 1]; }
    }
  }

  // The BaseKeysDistinctFrom chain checks the keys a few at a time; it states
  // nothing new and only keeps each proof small.
  lemma BaseKeysDistinctFrom13()
    ensures Distinct(Keys(BaseBudget)[13..])
  {
    assert Distinct(Keys(BaseBudget)[18..]);
    DistinctStep(Keys(BaseBudget), 17);
    DistinctStep(Keys(BaseBudget), 16);
    DistinctStep(Keys(BaseBudget), 15);
    DistinctStep(Keys(BaseBudget), 14);
    DistinctStep(Keys(BaseBudget), 13);
  }

  lemma BaseKeysDistinctFrom11()
    ensures Distinct(Keys(BaseBudget)[11..])
  {
    BaseKeysDistinctFrom13();
    DistinctStep(Keys(BaseBudget), 12);
    DistinctStep(Keys(BaseBudget), 11);
  }

  lemma BaseKeysDistinctFrom9()
    ensures Distinct(Keys(BaseBudget)[9..])
  {
    BaseKeysDistinctFrom11();
    DistinctStep(Keys(BaseBudget), 10);
    DistinctStep(Keys(BaseBudget), 9);
  }

  lemma BaseKeysDistinctFrom6()
    ensures Distinct(Keys(BaseBudget)[6..])
  {
    BaseKeysDistinctFrom9();
    DistinctStep(Keys(BaseBudget), 8);
    DistinctStep(Keys(BaseBudget), 7);
    DistinctStep(Keys(BaseBudget), 6);
  }

  lemma BaseKeysDistinctFrom4()
    ensures Distinct(Keys(BaseBudget)[4..])
  {
    BaseKeysDistinctFrom6();
    DistinctStep(Keys(BaseBudget), 5);
    DistinctStep(Keys(BaseBudget), 4);
  }

  lemma BaseKeysDistinctFrom2()
    ensures Distinct(Keys(BaseBudget)[2..])
  {
    BaseKeysDistinctFrom4();
    DistinctStep(Keys(BaseBudget), 3);
    DistinctStep(Keys(BaseBudget), 2);
  }

  lemma BaseKeysDistinctFrom1()
    ensures Distinct(Keys(BaseBudget)[1..])
  {
    BaseKeysDistinctFrom2();
    DistinctStep(Keys(BaseBudget), 1);
  }

  lemma BaseKeysDistinctFrom0()
    ensures Distinct(Keys(BaseBudget)[0..])
  {
    BaseKeysDistinctFrom1();
    DistinctStep(Keys(BaseBudget), 0);
  }

  /** No name occurs twice in the base budget (a dict literal keeps the last
      of repeated keys; this one has none). */
  lemma BaseKeysDistinct()
    ensures Distinct(Keys(BaseBudget))
  {
    BaseKeysDistinctFrom0();
    assert Keys(BaseBudget)[0..] == Keys(BaseBudget);
  }

  /** A month's budget totals the base 3750.00 plus what its overrides add:
      45.00 in November, 200.00 in December, 50.00 in January, 40.00 in
      February, nothing otherwise. */
  lemma MonthTotal(mo: int)
    ensures Total(MonthBudget(mo)) == BaseTotalCents + SeasonalUplift(mo)
  {
    BaseBudgetPassesCheck();
    if mo in Seasonal {
      SeasonalTotal(mo);
      UpliftValue(mo);
    } else {
      assert mo != 11 && mo != 12 && mo != 1 && mo != 2;
    }
  }

  /** What the overrides add to a month's total. */
  function SeasonalUplift(mo: int): int {
    if mo == 11 then 4500 else if mo == 12 then 20000 else if mo == 1 then 5000 else if mo == 2 then 4000 else 0
  }

  lemma UpliftValue(mo: int)
    requires mo in Seasonal
    ensures Uplift(BaseBudget, Seasonal[mo]) == SeasonalUplift(mo)
  {
    BaseValues();
    if mo == 12 {
      UpliftTwo(BaseBudget, ("Energy", 19500), ("Gifts", 20000));
    } else if mo == 11 {
      UpliftOne(BaseBudget, ("Energy", 18500));
    } else if mo == 1 {
      UpliftOne(BaseBudget, ("Energy", 19000));
    } else {
      UpliftOne(BaseBudget, ("Energy", 18000));
    }
  }

  lemma UpliftOne(t: Table, e: (string, int))
    ensures Uplift(t, [e]) == e.1 - ValueOf(t, e.0)
  {
    assert [e][1..] == [];
  }

  lemma UpliftTwo(t: Table, e: (string, int), e': (string, int))
    ensures Uplift(t, [e, e']) == e.1 - ValueOf(t, e.0) + e'.1 - ValueOf(t, e'.0)
  {
    assert [e, e'][1..] == [e'];
    UpliftOne(t, e');
  }

  lemma SeasonalTotal(mo: int)
    requires mo in Seasonal
    ensures Total(MonthBudget(mo)) == Total(BaseBudget) + Uplift(BaseBudget, Seasonal[mo])
  {
    BaseKeysDistinct();
    SeasonalKeysAreBaseKeys(mo);
    PutAllTotal(BaseBudget, Seasonal[mo]);
  }

  /** The two base values the overrides replace. */
  lemma BaseValues()
    ensures ValueOf(BaseBudget, "Energy") == 14000 && ValueOf(BaseBudget, "Gifts") == 5500
  {
    BaseKeysDistinct();
    LookupAt(BaseBudget, 2);
    LookupAt(BaseBudget, 16);
  }

  // ---- categories and allocations ----

  /** What the allocation loop reads of an entry of the category table. */
  datatype CategoryRef = CategoryRef(name: string, isHeader: bool, parentName: Option<string>)

  const Categories: seq<CategoryRef> := [
    CategoryRef("To Budget", false, None),
    CategoryRef("Bills", true, None),
    CategoryRef("Mortgage Payment", false, Some("Bills")),
    CategoryRef("Council Tax", false, Some("Bills")),
    CategoryRef("Energy", false, Some("Bills")),
    CategoryRef("Water", false, Some("Bills")),
    CategoryRef("Internet", false, Some("Bills")),
    CategoryRef("Mobile Phones", false, Some("Bills")),
    CategoryRef("Insurance", false, Some("Bills")),
    CategoryRef("Living", true, None),
    CategoryRef("Groceries", false, Some("Living")),
    CategoryRef("Eating Out", false, Some("Living")),
    CategoryRef("Transport", false, Some("Living")),
    CategoryRef("Clothing", false, Some("Living")),
    CategoryRef("Household", false, Some("Living")),
    CategoryRef("Personal", true, None),
    CategoryRef("Entertainment", false, Some("Personal")),
    CategoryRef("Subscriptions", false, Some("Personal")),
    CategoryRef("Health", false, Some("Personal")),
    CategoryRef("Kids", false, Some("Personal")),
    CategoryRef("Gifts", false, Some("Personal")),
    CategoryRef("Savings Goals", true, None),
    CategoryRef("Holiday Fund", false, Some("Savings Goals")),
    CategoryRef("Emergency Fund", false, Some("Savings Goals"))
  ]

  /** Whether entry c of the table is one the parent search stops at for name. */
  predicate MatchesWithParent(c: CategoryRef, name: string) {
    c.name == name && c.parentName.Some?
  }

  /** The parentName of the first category named `name` that has one. */
  function FirstParent(cats: seq<CategoryRef>, name: string): (p: Option<string>)
    ensures p.Some? ==> exists i :: (0 <= i < |cats| && MatchesWithParent(cats[i], name) && cats[i].parentName == p
      && forall j :: 0 <= j < i ==> !MatchesWithParent(cats[j], name))
    ensures p.None? ==> forall i :: 0 <= i < |cats| ==> !MatchesWithParent(cats[i], name)
  {
    if cats == [] then None
    else if MatchesWithParent(cats[0], name) then cats[0].parentName
    else
      var p := FirstParent(cats[1..], name);
      assert forall i :: 1 <= i < |cats| ==> cats[i] == cats[1..][i - 1];
      assert p.Some? ==> exists i :: (0 <= i < |cats[1..]| && MatchesWithParent(cats[1..][i], name)
        && cats[1..][i].parentName == p && (forall j :: 0 <= j < i ==> !MatchesWithParent(cats[1..][j], name)));
      if p.Some? then
        var i :| 0 <= i < |cats[1..]| && MatchesWithParent(cats[1..][i], name)
          && cats[1..][i].parentName == p && (forall j :: 0 <= j < i ==> !MatchesWithParent(cats[1..][j], name));
        assert MatchesWithParent(cats[i + 1], name) && cats[i + 1].parentName == p;
        assert forall j :: 0 <= j < i + 1 ==> !MatchesWithParent(cats[j], name) by {
          forall j | 0 <= j < i + 1 ensures !MatchesWithParent(cats[j], name) {
            if j > 0 { assert cats[j] == cats[1..][j - 1]; }
          }
        }
        p
      else p
  }

  /** The inner loop of the allocation loop: scan the category table for the
      first entry with that name and a parent. */
  method FindParent(cats: seq<CategoryRef>, name: string) returns (p: Option<string>)
    ensures p == FirstParent(cats, name)
  {
    p := None;
    for i := 0 to |cats|
      invariant FirstParent(cats[i..], name) == FirstParent(cats, name)
    {
      assert cats[i..][0] == cats[i] && cats[i..][1..] == cats[i + 1..];
      if MatchesWithParent(cats[i], name) {
        p := cats[i].parentName;
        return;
      }
    }
  }

  /** One budget allocation row; categoryParent is absent when the key is. */
  datatype Allocation = Allocation(budgeted: int, categoryName: string, categoryParent: Option<string>, month: string)

  /** `if p: al["categoryParent"] = p`: an empty parent name is dropped too. */
  function ParentField(p: Option<string>): (r: Option<string>)
    ensures r.Some? <==> p.Some? && p.value != ""
    ensures r.Some? ==> r == p
  {
    if p.Some? && p.value != "" then p else None
  }

  /** The row the allocation loop appends for entry (cn, a) of the month budget. */
  function AllocationOf(cats: seq<CategoryRef>, e: (string, int), month: string): Allocation {
    Allocation(Cents(Dec(e.1, 2)), e.0, ParentField(FirstParent(cats, e.0)), month)
  }

  /** All rows the allocation loop appends for month budget mb, in key order. */
  function MonthAllocations(cats: seq<CategoryRef>, mb: Table, month: string): seq<Allocation> {
    seq(|mb|, i requires 0 <= i < |mb| => AllocationOf(cats, mb[i], month))
  }

  lemma MonthAllocationsSnoc(cats: seq<CategoryRef>, mb: Table, i: nat, month: string)
    requires i < |mb|
    ensures MonthAllocations(cats, mb[..i + 1], month)
      == MonthAllocations(cats, mb[..i], month) + [AllocationOf(cats, mb[i], month)]
  {
  }

  /** One allocation per key of the month budget, in key order, carrying its
      amount and month, and the parent the first matching category gives it
      (none when no category of that name has a non-empty parent); a parent it
      carries is the parent of a category of that name in the table. */
  lemma MonthAllocationsShape(cats: seq<CategoryRef>, mb: Table, month: string)
    ensures var r := MonthAllocations(cats, mb, month);
      && |r| == |mb|
      && forall i :: 0 <= i < |r| ==>
        && r[i].categoryName == mb[i].0 && r[i].budgeted == mb[i].1 && r[i].month == month
        && r[i].categoryParent == ParentField(FirstParent(cats, mb[i].0))
        && (r[i].categoryParent.Some? ==> exists j :: (0 <= j < |cats| && cats[j].name == mb[i].0
              && cats[j].parentName == r[i].categoryParent))
  {
    var r := MonthAllocations(cats, mb, month);
    forall i | 0 <= i < |r| ensures r[i].budgeted == mb[i].1 {
      CentsOfCents(mb[i].1);
    }
  }

  /** Every category of the table that has a parent is a leaf, not a header,
      and its parent's name is not empty. */
  lemma ParentedAreLeaves()
    ensures forall j :: 0 <= j < |Categories| && Categories[j].parentName.Some? ==>
      !Categories[j].isHeader && Categories[j].parentName.value != ""
  {
  }

  /** The position in the category table of the base budget's key i. */
  function CategoryIndex(i: nat): nat {
    if i < 7 then i + 2 else if i < 12 then i + 3 else if i < 17 then i + 4 else i + 5
  }

  /** Each base-budget key names a category of the table that has a parent. */
  lemma BaseKeysHaveParents()
    ensures forall i :: 0 <= i < |BaseBudget| ==>
      CategoryIndex(i) < |Categories| && MatchesWithParent(Categories[CategoryIndex(i)], Keys(BaseBudget)[i])
  {
  }

  /** An allocation whose category is a leaf of the table: it carries a parent,
      and the table has a non-header category of that name with exactly that
      parent. */
  ghost predicate LeafAllocation(a: Allocation) {
    && a.categoryParent.Some?
    && exists j :: (0 <= j < |Categories| && !Categories[j].isHeader
         && Categories[j].name == a.categoryName && Categories[j].parentName == a.categoryParent)
  }

  /** Over a table whose parented categories are leaves with non-empty parent
      names, a name some category has a parent for is given the parent of a
      leaf category of that name. */
  lemma ParentOfLeaf(cats: seq<CategoryRef>, k: string, c: nat)
    requires forall j :: 0 <= j < |cats| && cats[j].parentName.Some? ==>
      !cats[j].isHeader && cats[j].parentName.value != ""
    requires c < |cats| && MatchesWithParent(cats[c], k)
    ensures var p := ParentField(FirstParent(cats, k));
      p.Some? && exists j :: (0 <= j < |cats| && !cats[j].isHeader && cats[j].name == k && cats[j].parentName == p)
  {
    assert MatchesWithParent(cats[c], k);
    var p := FirstParent(cats, k);
    var j :| 0 <= j < |cats| && MatchesWithParent(cats[j], k) && cats[j].parentName == p
      && forall i :: 0 <= i < j ==> !MatchesWithParent(cats[i], k);
    assert cats[j].parentName.Some?;
    assert !cats[j].isHeader && p.value != "";
  }

  /** The allocation loop gives a base-budget key a parent, and it is the
      parent of a leaf category of that name. */
  lemma BaseKeyParent(i: nat, a: Allocation)
    requires i < |BaseBudget| && a.categoryName == Keys(BaseBudget)[i]
    requires a.categoryParent == ParentField(FirstParent(Categories, a.categoryName))
    ensures LeafAllocation(a)
  {
    BaseKeysHaveParents();
    ParentedAreLeaves();
    ParentOfLeaf(Categories, a.categoryName, CategoryIndex(i));
  }
}
