/** The dashboard's quick statistics: totals over the seed records, either
    for all gas or all fuel branches, or for the one selected branch. */
module QuickStats {
  import opened Common
  import opened Records
  import MockData

  /** The seed arrays the dashboard reads. */
  datatype Seeds = Seeds(
    branches: seq<Branch>,
    cylinders: seq<GasCylinder>,
    transactions: seq<GasTransaction>,
    products: seq<FuelProduct>,
    shifts: seq<ShiftReconciliation>)

  function MockSeeds(loadTime: int): Seeds
  {
    Seeds(MockData.MockBranches(loadTime), MockData.MockGasCylinders(loadTime),
          MockData.MockGasTransactions(loadTime), MockData.MockFuelProducts,
          MockData.MockShiftReconciliation(loadTime))
  }

  /** `xs.reduce((sum, x) => sum + f(x), 0)` */
  function Total<T>(s: seq<T>, f: T -> int): int
    decreases |s|
  {
    if s == [] then 0 else Total(s[..|s| - 1], f) + f(s[|s| - 1])
  }

  lemma TotalSnoc<T>(s: seq<T>, x: T, f: T -> int)
    ensures Total(s + [x], f) == Total(s, f) + f(x)
  {
    assert (s + [x])[..|s|] == s;
  }

  /** Totals over two filters that never both hold add up to the total over
      their disjunction. */
  lemma {:induction false} TotalFilterSplit<T(!new)>(s: seq<T>, p: T -> bool, q: T -> bool,
                                                     pq: T -> bool, f: T -> int)
    requires forall x :: x in s ==> pq(x) == (p(x) || q(x)) && !(p(x) && q(x))
    ensures Total(Filter(s, pq), f) == Total(Filter(s, p), f) + Total(Filter(s, q), f)
    decreases |s|
  {
    if s != [] {
      var init, last := s[..|s| - 1], s[|s| - 1];
      assert s == init + [last];
      TotalFilterSplit(init, p, q, pq, f);
      if pq(last) { TotalSnoc(Filter(init, pq), last, f); }
      if p(last) { TotalSnoc(Filter(init, p), last, f); }
      if q(last) { TotalSnoc(Filter(init, q), last, f); }
    }
  }

  /** A total of non-negative values is non-negative. */
  lemma {:induction false} TotalNonNegative<T>(s: seq<T>, f: T -> int)
    requires forall x :: x in s ==> f(x) >= 0
    ensures Total(s, f) >= 0
    decreases |s|
  {
    if s != [] {
      assert s[|s| - 1] in s;
      assert forall x :: x in s[..|s| - 1] ==> x in s;
      TotalNonNegative(s[..|s| - 1], f);
    }
  }

  /** Whatever a filter keeps, its total is non-negative when every value is. */
  lemma FilteredTotalNonNegative<T(!new)>(s: seq<T>, p: T -> bool, f: T -> int)
    ensures (forall x :: x in s ==> f(x) >= 0) ==> Total(Filter(s, p), f) >= 0
  {
    if forall x :: x in s ==> f(x) >= 0 {
      TotalNonNegative(Filter(s, p), f);
    }
  }

  /** A total over a filter nothing passes is zero. */
  lemma TotalOfNone<T(!new)>(s: seq<T>, p: T -> bool, f: T -> int)
    requires forall x :: x in s ==> !p(x)
    ensures Total(Filter(s, p), f) == 0
  {
  }

  // ---------------------------------------------------------------------
  // Branch id sets and the five sums
  // ---------------------------------------------------------------------

  /** `new Set(branches.filter(b => b.type === t).map(b => b.id))` */
  function BranchIdsOfType(branches: seq<Branch>, t: BranchType): (ids: set<string>)
    ensures forall b :: b in branches && b.kind == t ==> b.id in ids
    ensures forall k :: k in ids ==> exists b :: b in branches && b.kind == t && b.id == k
  {
    set b | b in branches && b.kind == t :: b.id
  }

  function SaleIn(ids: set<string>): GasTransaction -> bool
  {
    (t: GasTransaction) => t.kind == Sale && t.branchId in ids
  }

  function PurchaseIn(ids: set<string>): GasTransaction -> bool
  {
    (t: GasTransaction) => t.kind == Purchase && t.branchId in ids
  }

  function CylinderIn(ids: set<string>): GasCylinder -> bool
  {
    (c: GasCylinder) => c.branchId in ids
  }

  function ShiftIn(ids: set<string>): ShiftReconciliation -> bool
  {
    (s: ShiftReconciliation) => s.branchId in ids
  }

  function ProductIn(ids: set<string>): FuelProduct -> bool
  {
    (p: FuelProduct) => p.branchId in ids
  }

  function Amount(t: GasTransaction): int { t.amount }
  function StockValue(c: GasCylinder): int { c.quantity * c.sellingPrice }
  function ShiftSales(s: ShiftReconciliation): int { s.salesAmount }
  function ProductValue(p: FuelProduct): int { p.totalValue }

  /** Stock counts and prices that are not negative give stock values that
      are not negative. */
  lemma StockValuesNonNegative(cs: seq<GasCylinder>)
    ensures (forall c :: c in cs ==> c.quantity >= 0 && c.sellingPrice >= 0) ==>
              forall c :: c in cs ==> StockValue(c) >= 0
  {
    if forall c :: c in cs ==> c.quantity >= 0 && c.sellingPrice >= 0 {
      forall c | c in cs ensures StockValue(c) >= 0 {
        assert c.quantity >= 0 && c.sellingPrice >= 0;
      }
    }
  }

  /** `sumGasSales`: amounts of the sales of the given branches. */
  function SumGasSales(d: Seeds, ids: set<string>): (r: int)
    ensures (forall t :: t in d.transactions ==> t.amount >= 0) ==> r >= 0
  {
    FilteredTotalNonNegative(d.transactions, SaleIn(ids), Amount);
    Total(Filter(d.transactions, SaleIn(ids)), Amount)
  }

  /** `sumGasExpenses`: amounts of the purchases of the given branches. */
  function SumGasExpenses(d: Seeds, ids: set<string>): (r: int)
    ensures (forall t :: t in d.transactions ==> t.amount >= 0) ==> r >= 0
  {
    FilteredTotalNonNegative(d.transactions, PurchaseIn(ids), Amount);
    Total(Filter(d.transactions, PurchaseIn(ids)), Amount)
  }

  /** `sumGasInventory`: quantity times selling price over the cylinders. */
  function SumGasInventory(d: Seeds, ids: set<string>): (r: int)
    ensures (forall c :: c in d.cylinders ==> c.quantity >= 0 && c.sellingPrice >= 0) ==> r >= 0
  {
    StockValuesNonNegative(d.cylinders);
    FilteredTotalNonNegative(d.cylinders, CylinderIn(ids), StockValue);
    Total(Filter(d.cylinders, CylinderIn(ids)), StockValue)
  }

  /** `sumFuelSales`: sales amounts of the shifts of the given branches. */
  function SumFuelSales(d: Seeds, ids: set<string>): (r: int)
    ensures (forall s :: s in d.shifts ==> s.salesAmount >= 0) ==> r >= 0
  {
    FilteredTotalNonNegative(d.shifts, ShiftIn(ids), ShiftSales);
    Total(Filter(d.shifts, ShiftIn(ids)), ShiftSales)
  }

  /** `sumFuelInventory`: stored total values of the fuel products. */
  function SumFuelInventory(d: Seeds, ids: set<string>): (r: int)
    ensures (forall p :: p in d.products ==> p.totalValue >= 0) ==> r >= 0
  {
    FilteredTotalNonNegative(d.products, ProductIn(ids), ProductValue);
    Total(Filter(d.products, ProductIn(ids)), ProductValue)
  }

  /** With no branch ids every sum is zero. */
  lemma EmptyIdSetSumsToZero(d: Seeds)
    ensures SumGasSales(d, {}) == 0 && SumGasExpenses(d, {}) == 0 && SumGasInventory(d, {}) == 0
    ensures SumFuelSales(d, {}) == 0 && SumFuelInventory(d, {}) == 0
  {
    TotalOfNone(d.transactions, SaleIn({}), Amount);
    TotalOfNone(d.transactions, PurchaseIn({}), Amount);
    TotalOfNone(d.cylinders, CylinderIn({}), StockValue);
    TotalOfNone(d.shifts, ShiftIn({}), ShiftSales);
    TotalOfNone(d.products, ProductIn({}), ProductValue);
  }

  /** Without a branch of a type there is no id of that type. */
  lemma NoBranchOfTypeNoIds(branches: seq<Branch>, t: BranchType)
    requires forall b :: b in branches ==> b.kind != t
    ensures BranchIdsOfType(branches, t) == {}
  {
  }

  /** Every sum over two disjoint sets of branches is the sum of the sums. */
  lemma SumsAreAdditive(d: Seeds, a: set<string>, b: set<string>)
    requires a * b == {}
    ensures SumGasSales(d, a + b) == SumGasSales(d, a) + SumGasSales(d, b)
    ensures SumGasExpenses(d, a + b) == SumGasExpenses(d, a) + SumGasExpenses(d, b)
    ensures SumGasInventory(d, a + b) == SumGasInventory(d, a) + SumGasInventory(d, b)
    ensures SumFuelSales(d, a + b) == SumFuelSales(d, a) + SumFuelSales(d, b)
    ensures SumFuelInventory(d, a + b) == SumFuelInventory(d, a) + SumFuelInventory(d, b)
  {
    forall k | k in a ensures k !in b {
      assert k !in a * b;
    }
    TotalFilterSplit(d.transactions, SaleIn(a), SaleIn(b), SaleIn(a + b), Amount);
    TotalFilterSplit(d.transactions, PurchaseIn(a), PurchaseIn(b), PurchaseIn(a + b), Amount);
    TotalFilterSplit(d.cylinders, CylinderIn(a), CylinderIn(b), CylinderIn(a + b), StockValue);
    TotalFilterSplit(d.shifts, ShiftIn(a), ShiftIn(b), ShiftIn(a + b), ShiftSales);
    TotalFilterSplit(d.products, ProductIn(a), ProductIn(b), ProductIn(a + b), ProductValue);
  }

  /** Only sales count as sales and only purchases as expenses: a refill
      recorded anywhere changes neither. */
  lemma RefillsCountInNeither(d: Seeds, t: GasTransaction, ids: set<string>)
    requires t.kind == Refill
    ensures SumGasSales(d.(transactions := d.transactions + [t]), ids) == SumGasSales(d, ids)
    ensures SumGasExpenses(d.(transactions := d.transactions + [t]), ids) == SumGasExpenses(d, ids)
  {
    assert (d.transactions + [t])[..|d.transactions|] == d.transactions;
  }

  /** A sale of a counted branch adds its amount to the sales and nothing to
      the expenses; a purchase the other way round. */
  lemma SaleAndPurchaseCountOnce(d: Seeds, t: GasTransaction, ids: set<string>)
    requires t.branchId in ids && t.kind != Refill
    ensures var d' := d.(transactions := d.transactions + [t]);
      && SumGasSales(d', ids) == SumGasSales(d, ids) + (if t.kind == Sale then t.amount else 0)
      && SumGasExpenses(d', ids) == SumGasExpenses(d, ids) + (if t.kind == Purchase then t.amount else 0)
  {
    var s := d.transactions + [t];
    assert s[..|d.transactions|] == d.transactions;
    if t.kind == Sale {
      TotalSnoc(Filter(d.transactions, SaleIn(ids)), t, Amount);
    } else {
      TotalSnoc(Filter(d.transactions, PurchaseIn(ids)), t, Amount);
    }
  }

  /** With unique branch ids no id is both a gas and a fuel branch. */
  lemma GasAndFuelIdsAreDisjoint(branches: seq<Branch>)
    requires UniqueIds(branches, BranchId)
    ensures BranchIdsOfType(branches, Gas) * BranchIdsOfType(branches, Fuel) == {}
  {
    forall k | k in BranchIdsOfType(branches, Gas)
      ensures k !in BranchIdsOfType(branches, Fuel)
    {
      var g :| g in branches && g.kind == Gas && g.id == k;
      forall f | f in branches && f.id == k ensures f.kind == Gas {
        var i :| 0 <= i < |branches| && branches[i] == g;
        var j :| 0 <= j < |branches| && branches[j] == f;
        assert BranchId(branches[i]) == BranchId(branches[j]);
      }
    }
  }

  // ---------------------------------------------------------------------
  // The figures the dashboard shows
  // ---------------------------------------------------------------------

  datatype Totals = Totals(sales: int, expenses: int, inventory: int)

  /** `gasTotals`: the sums over every gas branch. */
  function GasTotals(d: Seeds): Totals
  {
    var ids := BranchIdsOfType(d.branches, Gas);
    Totals(SumGasSales(d, ids), SumGasExpenses(d, ids), SumGasInventory(d, ids))
  }

  /** With no gas branch every gas figure is zero. */
  lemma NoGasBranchNoGasTotals(d: Seeds)
    requires forall b :: b in d.branches ==> b.kind != Gas
    ensures GasTotals(d) == Totals(0, 0, 0)
  {
    NoBranchOfTypeNoIds(d.branches, Gas);
    EmptyIdSetSumsToZero(d);
  }

  /** `fuelTotals`: fuel expenses are always zero. */
  function FuelTotals(d: Seeds): (r: Totals)
    ensures r.expenses == 0
  {
    var ids := BranchIdsOfType(d.branches, Fuel);
    Totals(SumFuelSales(d, ids), 0, SumFuelInventory(d, ids))
  }

  /** `isOrgOwner`: owners and super admins see the all-branch view. */
  predicate SeesAllBranches(user: Option<User>)
  {
    user.Some? && (user.value.role == OrgOwner || user.value.role == SuperAdmin)
  }

  /** `sales - expenses` */
  function Profit(t: Totals): int { t.sales - t.expenses }

  datatype BranchFigures = BranchFigures(sales: int, expenses: int, inventory: int, profit: int)

  /** `selectedBranchId && selectedBranchType === ...` */
  predicate SelectedAs(branchId: Option<string>, branchType: Option<string>, kind: string)
  {
    branchId.Some? && branchId.value != "" && branchType == Some(kind)
  }

  /** `branchTotals`: the figures of the one selected branch, or nothing
      unless a non-empty branch id is selected with type gas or fuel. */
  function BranchTotals(d: Seeds, branchId: Option<string>, branchType: Option<string>): (r: Option<BranchFigures>)
    ensures r.Some? <==> SelectedAs(branchId, branchType, "gas") || SelectedAs(branchId, branchType, "fuel")
    ensures r.Some? ==> r.value.profit == r.value.sales - r.value.expenses
    ensures SelectedAs(branchId, branchType, "fuel") ==> r.Some? && r.value.expenses == 0
  {
    if SelectedAs(branchId, branchType, "gas") then
      var ids := {branchId.value};
      var sales, expenses := SumGasSales(d, ids), SumGasExpenses(d, ids);
      Some(BranchFigures(sales, expenses, SumGasInventory(d, ids), sales - expenses))
    else if SelectedAs(branchId, branchType, "fuel") then
      var ids := {branchId.value};
      var sales := SumFuelSales(d, ids);
      Some(BranchFigures(sales, 0, SumFuelInventory(d, ids), sales - 0))
    else None
  }

  /** What the component renders: the gas and fuel totals with their profits
      for owners and super admins, otherwise the selected branch's figures,
      or nothing when no branch is selected as gas or fuel. */
  datatype StatsView =
    | AllBranchesView(gas: Totals, gasProfit: int, fuel: Totals, fuelProfit: int)
    | BranchView(figures: BranchFigures)
    | NoView

  /** The owner view: both totals with their profits. */
  function OwnerView(d: Seeds): (v: StatsView)
    ensures v.AllBranchesView?
    ensures v.gasProfit == v.gas.sales - v.gas.expenses && v.fuel.expenses == 0 && v.fuelProfit == v.fuel.sales
  {
    var gas, fuel := GasTotals(d), FuelTotals(d);
    AllBranchesView(gas, Profit(gas), fuel, Profit(fuel))
  }

  /** The view for everyone else: the selected branch's figures, if any. */
  function SelectionView(d: Seeds, branchId: Option<string>, branchType: Option<string>): (v: StatsView)
    ensures !v.AllBranchesView?
    ensures v.BranchView? <==> SelectedAs(branchId, branchType, "gas") || SelectedAs(branchId, branchType, "fuel")
    ensures v.BranchView? ==> v.figures.profit == v.figures.sales - v.figures.expenses
  {
    var figures := BranchTotals(d, branchId, branchType);
    if figures.None? then NoView else BranchView(figures.value)
  }

  /** `QuickStats()`: the view is chosen by `isOrgOwner` first and by the
      branch selection second. */
  function QuickStatsView(d: Seeds, user: Option<User>, branchId: Option<string>,
                          branchType: Option<string>): (v: StatsView)
    ensures v.AllBranchesView? <==> SeesAllBranches(user)
    ensures v.BranchView? <==>
      !SeesAllBranches(user) && (SelectedAs(branchId, branchType, "gas") || SelectedAs(branchId, branchType, "fuel"))
    ensures v.AllBranchesView? ==>
      v.gasProfit == v.gas.sales - v.gas.expenses && v.fuel.expenses == 0 && v.fuelProfit == v.fuel.sales
    ensures v.BranchView? ==> v.figures.profit == v.figures.sales - v.figures.expenses
  {
    if SeesAllBranches(user) then OwnerView(d) else SelectionView(d, branchId, branchType)
  }

  /** The owner view ignores the branch selection entirely. */
  lemma OwnerViewIgnoresSelection(d: Seeds, user: Option<User>, id1: Option<string>, type1: Option<string>,
                                  id2: Option<string>, type2: Option<string>)
    requires SeesAllBranches(user)
    ensures QuickStatsView(d, user, id1, type1) == QuickStatsView(d, user, id2, type2)
  {
  }

  /** With two gas branches, the figures shown for each of them when it is
      selected add up to the all-gas totals. */
  lemma GasBranchFiguresAddUp(d: Seeds, x: string, y: string)
    requires x != y && x != "" && y != ""
    requires BranchIdsOfType(d.branches, Gas) == {x, y}
    ensures var fx, fy := BranchTotals(d, Some(x), Some("gas")), BranchTotals(d, Some(y), Some("gas"));
      && fx.Some? && fy.Some?
      && GasTotals(d).sales == fx.value.sales + fy.value.sales
      && GasTotals(d).expenses == fx.value.expenses + fy.value.expenses
      && GasTotals(d).inventory == fx.value.inventory + fy.value.inventory
  {
    assert x in BranchIdsOfType(d.branches, Gas) && y in BranchIdsOfType(d.branches, Gas);
    assert {x} + {y} == {x, y};
    SumsAreAdditive(d, {x}, {y});
  }

  // ---------------------------------------------------------------------
  // The seed figures
  // ---------------------------------------------------------------------

  /** The ids of a type are exactly `ids` when every branch is of that type
      just when its id is in `ids`, and every id in `ids` names a branch. */
  lemma IdsOfTypeExactly(bs: seq<Branch>, t: BranchType, ids: set<string>)
    requires forall b :: b in bs ==> (b.kind == t <==> b.id in ids)
    requires forall k :: k in ids ==> exists b :: b in bs && b.id == k
    ensures BranchIdsOfType(bs, t) == ids
  {
    forall k | k in ids ensures k in BranchIdsOfType(bs, t) {
      var b :| b in bs && b.id == k;
    }
  }

  lemma SeedIdSets(loadTime: int)
    ensures BranchIdsOfType(MockSeeds(loadTime).branches, Gas) == {"branch-1", "branch-2"}
    ensures BranchIdsOfType(MockSeeds(loadTime).branches, Fuel) == {"branch-3", "branch-4"}
  {
    var bs := MockSeeds(loadTime).branches;
    assert forall b :: b in bs ==> b == bs[0] || b == bs[1] || b == bs[2] || b == bs[3];
    assert bs[0].id == "branch-1" && bs[1].id == "branch-2";
    assert bs[2].id == "branch-3" && bs[3].id == "branch-4";
    IdsOfTypeExactly(bs, Gas, {"branch-1", "branch-2"});
    IdsOfTypeExactly(bs, Fuel, {"branch-3", "branch-4"});
  }

  /** Totals of a short concrete list, unrolled one record at a time. */
  lemma TotalOfFour<T>(s: seq<T>, f: T -> int)
    requires |s| == 4
    ensures Total(s, f) == f(s[0]) + f(s[1]) + f(s[2]) + f(s[3])
  {
    assert s[..3][..2] == s[..2];
    TotalOfThree(s[..3], f);
  }

  lemma TotalOfTwo<T>(s: seq<T>, f: T -> int)
    requires |s| == 2
    ensures Total(s, f) == f(s[0]) + f(s[1])
  {
    assert s[..1][..0] == [];
    assert Total(s[..1], f) == f(s[0]);
  }

  lemma TotalOfThree<T>(s: seq<T>, f: T -> int)
    requires |s| == 3
    ensures Total(s, f) == f(s[0]) + f(s[1]) + f(s[2])
  {
    assert s[..2][..1] == s[..1];
    assert s[..1][..0] == [];
    assert Total(s[..1], f) == f(s[0]);
    assert Total(s[..2], f) == f(s[0]) + f(s[1]);
  }

  /** Of the two seed transactions the first is the sale, the second the
      purchase, both of branch 1. */
  lemma SeedTransactionSums(loadTime: int, ids: set<string>)
    ensures var d := MockSeeds(loadTime);
      && SumGasSales(d, ids) == (if "branch-1" in ids then 110000 else 0)
      && SumGasExpenses(d, ids) == (if "branch-1" in ids then 195000 else 0)
  {
    var txs := MockData.MockGasTransactions(loadTime);
    TotalOfFilter(txs, SaleIn(ids), Amount);
    TotalOfFilter(txs, PurchaseIn(ids), Amount);
    TotalOfTwo(txs, Counted(SaleIn(ids), Amount));
    TotalOfTwo(txs, Counted(PurchaseIn(ids), Amount));
  }

  /** Cylinder stock: 2,420,000 at branch 1 and 660,000 at branch 2. */
  lemma SeedCylinderSums(loadTime: int, ids: set<string>)
    ensures SumGasInventory(MockSeeds(loadTime), ids)
         == (if "branch-1" in ids then 2420000 else 0) + (if "branch-2" in ids then 660000 else 0)
  {
    var c := MockData.MockGasCylinders(loadTime);
    var p := CylinderIn(ids);
    var f := Filter(c, p);
    TotalOfFilter(c, p, StockValue);
    TotalOfFour(c, Counted(p, StockValue));
  }

  function Counted<T>(p: T -> bool, f: T -> int): T -> int
  {
    x => if p(x) then f(x) else 0
  }

  /** A total over a filter is the total with the rejected records counted
      as zero. */
  lemma {:induction false} TotalOfFilter<T(!new)>(s: seq<T>, p: T -> bool, f: T -> int)
    ensures Total(Filter(s, p), f) == Total(s, Counted(p, f))
    decreases |s|
  {
    if s != [] {
      var init, last := s[..|s| - 1], s[|s| - 1];
      TotalOfFilter(init, p, f);
      if p(last) { TotalSnoc(Filter(init, p), last, f); }
    }
  }

  /** Fuel: 325,000 of shift sales and 6,925,000 of stock at branch 3. */
  lemma SeedFuelSums(loadTime: int, ids: set<string>)
    ensures var d := MockSeeds(loadTime);
      && SumFuelSales(d, ids) == (if "branch-3" in ids then 325000 else 0)
      && SumFuelInventory(d, ids) == (if "branch-3" in ids then 6925000 else 0)
  {
    var sh := MockData.MockShiftReconciliation(loadTime);
    TotalOfFilter(sh, ShiftIn(ids), ShiftSales);
    assert sh[..0] == [];
    var pr := MockData.MockFuelProducts;
    TotalOfFilter(pr, ProductIn(ids), ProductValue);
    TotalOfThree(pr, Counted(ProductIn(ids), ProductValue));
  }

  /** The all-branch view of the seed data: gas sales 110,000, expenses
      195,000, stock 3,080,000; fuel sales 325,000, no expenses, stock
      6,925,000; so the fuel profit equals the fuel sales. */
  lemma SeedTotals(loadTime: int)
    ensures GasTotals(MockSeeds(loadTime)) == Totals(110000, 195000, 3080000)
    ensures FuelTotals(MockSeeds(loadTime)) == Totals(325000, 0, 6925000)
    ensures Profit(GasTotals(MockSeeds(loadTime))) == -85000
    ensures Profit(FuelTotals(MockSeeds(loadTime))) == FuelTotals(MockSeeds(loadTime)).sales
  {
    SeedIdSets(loadTime);
    SeedTransactionSums(loadTime, {"branch-1", "branch-2"});
    SeedCylinderSums(loadTime, {"branch-1", "branch-2"});
    SeedFuelSums(loadTime, {"branch-3", "branch-4"});
  }

  /** Over the seed data an owner or super admin sees gas 110,000 / 195,000 /
      3,080,000 with profit -85,000 and fuel 325,000 / 0 / 6,925,000 with
      profit 325,000, whatever branch is selected. */
  lemma SeedOwnerView(loadTime: int, user: Option<User>, branchId: Option<string>, branchType: Option<string>)
    requires SeesAllBranches(user)
    ensures QuickStatsView(MockSeeds(loadTime), user, branchId, branchType)
         == AllBranchesView(Totals(110000, 195000, 3080000), -85000, Totals(325000, 0, 6925000), 325000)
  {
    SeedTotals(loadTime);
  }

  /** Selecting a seed branch shows its own figures: branch 1 its sale, its
      purchase and three cylinder stocks; branch 2 only its cylinders;
      branch 3 the shift sales and fuel stock with no expenses; branch 4
      nothing. */
  lemma SeedBranchFigures(loadTime: int)
    ensures BranchTotals(MockSeeds(loadTime), Some("branch-1"), Some("gas"))
         == Some(BranchFigures(110000, 195000, 2420000, -85000))
    ensures BranchTotals(MockSeeds(loadTime), Some("branch-2"), Some("gas"))
         == Some(BranchFigures(0, 0, 660000, 0))
    ensures BranchTotals(MockSeeds(loadTime), Some("branch-3"), Some("fuel"))
         == Some(BranchFigures(325000, 0, 6925000, 325000))
    ensures BranchTotals(MockSeeds(loadTime), Some("branch-4"), Some("fuel"))
         == Some(BranchFigures(0, 0, 0, 0))
  {
    SeedGasBranchFigures(loadTime);
    SeedFuelBranchFigures(loadTime);
  }

  lemma SeedGasBranchFigures(loadTime: int)
    ensures BranchTotals(MockSeeds(loadTime), Some("branch-1"), Some("gas"))
         == Some(BranchFigures(110000, 195000, 2420000, -85000))
    ensures BranchTotals(MockSeeds(loadTime), Some("branch-2"), Some("gas"))
         == Some(BranchFigures(0, 0, 660000, 0))
  {
    SeedTransactionSums(loadTime, {"branch-1"});
    SeedTransactionSums(loadTime, {"branch-2"});
    SeedCylinderSums(loadTime, {"branch-1"});
    SeedCylinderSums(loadTime, {"branch-2"});
  }

  lemma SeedFuelBranchFigures(loadTime: int)
    ensures BranchTotals(MockSeeds(loadTime), Some("branch-3"), Some("fuel"))
         == Some(BranchFigures(325000, 0, 6925000, 325000))
    ensures BranchTotals(MockSeeds(loadTime), Some("branch-4"), Some("fuel"))
         == Some(BranchFigures(0, 0, 0, 0))
  {
    SeedFuelSums(loadTime, {"branch-3"});
    SeedFuelSums(loadTime, {"branch-4"});
  }
}
