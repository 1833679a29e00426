/** The constant seed arrays the stores merge with, and the module-level
    daily-activity log with its save and query operations. Seed timestamps
    are taken relative to `loadTime`, the moment the module was loaded. */
module MockData {
  import opened Common
  import opened Records
  import opened Sorting

  const DayMs: int := 86400000

  /** `Object.values(mockUsers)`, in declaration order. */
  function MockUsers(loadTime: int): seq<User>
  {
    [ User("user-1", "admin@energyflow.com", "Admin User", SuperAdmin, "tenant-1",
           [], [], loadTime),
      User("user-2", "owner@gasandfuel.com", "Organization Owner", OrgOwner, "tenant-2",
           ["branch-1", "branch-2", "branch-3", "branch-4"], [Gas, Fuel], loadTime),
      User("user-3", "manager@gasplant.com", "Gas Branch Manager", GasManager, "tenant-2",
           ["branch-1", "branch-2"], [Gas], loadTime),
      User("user-4", "manager@fuelstation.com", "Fuel Station Manager", FuelManager, "tenant-2",
           ["branch-3"], [Fuel], loadTime),
      User("user-5", "staff@gasplant.com", "Sales Staff", SalesStaff, "tenant-2",
           ["branch-1"], [Gas], loadTime) ]
  }

  function MockBranches(loadTime: int): seq<Branch>
  {
    [ Branch("branch-1", "tenant-2", "Lagos Gas Plant", Gas, "Lagos, Nigeria", Active, "user-3", loadTime),
      Branch("branch-2", "tenant-2", "Ibadan Gas Plant", Gas, "Ibadan, Nigeria", Active, "user-3", loadTime),
      Branch("branch-3", "tenant-2", "Victoria Island Fuel Station", Fuel, "Lagos, Nigeria", Active, "user-4", loadTime),
      Branch("branch-4", "tenant-2", "Abuja Fuel Station", Fuel, "Abuja, Nigeria", Active, "user-4", loadTime) ]
  }

  function MockGasCylinders(loadTime: int): seq<GasCylinder>
  {
    [ GasCylinder("cyl-1", "branch-1", Kg12_5, InStock, 150, 3500, 5500, loadTime),
      GasCylinder("cyl-2", "branch-1", Kg25, InStock, 85, 6500, 9500, loadTime),
      GasCylinder("cyl-3", "branch-1", Kg50, InStock, 45, 12000, 17500, loadTime),
      GasCylinder("cyl-4", "branch-2", Kg12_5, InStock, 120, 3500, 5500, loadTime) ]
  }

  function MockGasTransactions(loadTime: int): seq<GasTransaction>
  {
    [ GasTransaction("trans-1", "branch-1", Sale, "12.5kg", 20, 110000,
                     "Regular customer sales", loadTime - DayMs),
      GasTransaction("trans-2", "branch-1", Purchase, "25kg", 30, 195000,
                     "Refill from main supplier", loadTime - 2 * DayMs) ]
  }

  const MockFuelProducts: seq<FuelProduct> :=
    [ FuelProduct("fuel-1", "branch-3", PMS, 5000, 650, 3250000),
      FuelProduct("fuel-2", "branch-3", AGO, 3000, 850, 2550000),
      FuelProduct("fuel-3", "branch-3", DPK, 1500, 750, 1125000) ]

  function MockShiftReconciliation(loadTime: int): seq<ShiftReconciliation>
  {
    [ ShiftReconciliation("shift-1", "branch-3", 1, "pump-1", 12000, 12500, 325000, 0, loadTime) ]
  }

  /** Seed branch ids are unique, and branches 1-2 are gas, 3-4 fuel. */
  lemma MockBranchesWellFormed(loadTime: int)
    ensures UniqueIds(MockBranches(loadTime), BranchId)
    ensures forall b :: b in MockBranches(loadTime) ==>
              (b.kind == Gas <==> b.id in {"branch-1", "branch-2"})
  {
    var bs := MockBranches(loadTime);
    assert forall i :: 0 <= i < |bs| ==> bs[i].id == ["branch-1", "branch-2", "branch-3", "branch-4"][i];
  }

  /** Every seed fuel product's stored total is its quantity times its price. */
  lemma MockFuelProductTotals()
    ensures forall p :: p in MockFuelProducts ==> p.totalValue == p.quantity * p.unitPrice
  {
  }

  // ---------------------------------------------------------------------
  // Daily-activity log
  // ---------------------------------------------------------------------

  /** `if (branchId)`: a branch filter is given and non-empty. */
  predicate BranchFilterApplies(branchId: Option<string>)
  {
    branchId.Some? && branchId.value != ""
  }

  /** `if (startDate && endDate)`: the date filter needs both bounds. */
  predicate DateFilterApplies(startDate: Option<int>, endDate: Option<int>)
  {
    startDate.Some? && endDate.Some?
  }

  /** Neither filter applies, so the query works on the log itself. */
  predicate Unfiltered(branchId: Option<string>, startDate: Option<int>, endDate: Option<int>)
  {
    !BranchFilterApplies(branchId) && !DateFilterApplies(startDate, endDate)
  }

  function OfBranch(branchId: string): GasDailyActivity -> bool
  {
    (a: GasDailyActivity) => a.branchId == branchId
  }

  function InDateRange(startDate: int, endDate: int): GasDailyActivity -> bool
  {
    (a: GasDailyActivity) => startDate <= a.date <= endDate
  }

  /** The records the query keeps, in log order, before sorting. */
  function Selected(log: seq<GasDailyActivity>, branchId: Option<string>,
                    startDate: Option<int>, endDate: Option<int>): seq<GasDailyActivity>
  {
    var byBranch := if BranchFilterApplies(branchId) then Filter(log, OfBranch(branchId.value)) else log;
    if DateFilterApplies(startDate, endDate)
    then Filter(byBranch, InDateRange(startDate.value, endDate.value))
    else byBranch
  }

  /** What the query returns: the selected records, latest date first. */
  function QueryResult(log: seq<GasDailyActivity>, branchId: Option<string>,
                       startDate: Option<int>, endDate: Option<int>): (r: seq<GasDailyActivity>)
    ensures SortedDesc(r, ActivityDate)
    ensures |r| <= |log|
  {
    SortDesc(Selected(log, branchId, startDate, endDate), ActivityDate)
  }

  /** A record is returned exactly when it is logged, belongs to the branch
      (if one is given) and has a date within the inclusive range (if both
      bounds are given); the result is ordered by date, latest first, and
      takes each logged record at most as often as it is logged. */
  lemma QueryResultSpec(log: seq<GasDailyActivity>, branchId: Option<string>,
                        startDate: Option<int>, endDate: Option<int>)
    ensures var r := QueryResult(log, branchId, startDate, endDate);
      && SortedDesc(r, ActivityDate)
      && multiset(r) <= multiset(log)
      && forall a :: a in r <==>
           && a in log
           && (BranchFilterApplies(branchId) ==> a.branchId == branchId.value)
           && (DateFilterApplies(startDate, endDate) ==> startDate.value <= a.date <= endDate.value)
  {
    var byBranch := if BranchFilterApplies(branchId) then Filter(log, OfBranch(branchId.value)) else log;
    if BranchFilterApplies(branchId) {
      FilterSubMultiset(log, OfBranch(branchId.value));
    }
    var sel := Selected(log, branchId, startDate, endDate);
    if DateFilterApplies(startDate, endDate) {
      FilterSubMultiset(byBranch, InDateRange(startDate.value, endDate.value));
    }
    forall a ensures a in QueryResult(log, branchId, startDate, endDate) <==> a in sel {
      SortDescMembership(sel, ActivityDate, a);
    }
  }

  /** Without a branch and a full date range the query returns the whole log. */
  lemma UnfilteredQueryIsPermutation(log: seq<GasDailyActivity>, branchId: Option<string>,
                                     startDate: Option<int>, endDate: Option<int>)
    requires Unfiltered(branchId, startDate, endDate)
    ensures multiset(QueryResult(log, branchId, startDate, endDate)) == multiset(log)
  {
  }

  /** `mockGasDailyActivities`: the module-level array behind the daily
      activities page, appended to by saves and reordered in place by an
      unfiltered query. */
  class GasDailyActivityLog {
    var activities: seq<GasDailyActivity>

    constructor ()
      ensures activities == []
    {
      activities := [];
    }

    /** `saveGasDailyActivity`: append at the end and hand the record back. */
    method Save(activity: GasDailyActivity) returns (saved: GasDailyActivity)
      modifies this
      ensures activities == old(activities) + [activity]
      ensures saved == activity
    {
      activities := activities + [activity];
      saved := activity;
    }

    /** `getGasDailyActivities`: when no filter applies, `filtered` is the
        log itself and the in-place sort reorders the log; otherwise the
        filters copy and the log is untouched. */
    method Query(branchId: Option<string>, startDate: Option<int>, endDate: Option<int>)
      returns (result: seq<GasDailyActivity>)
      modifies this
      ensures result == QueryResult(old(activities), branchId, startDate, endDate)
      ensures Unfiltered(branchId, startDate, endDate) ==> activities == result
      ensures !Unfiltered(branchId, startDate, endDate) ==> activities == old(activities)
    {
      var filtered := activities;
      if BranchFilterApplies(branchId) {
        filtered := Filter(filtered, OfBranch(branchId.value));
      }
      if DateFilterApplies(startDate, endDate) {
        filtered := Filter(filtered, InDateRange(startDate.value, endDate.value));
      }
      result := SortDesc(filtered, ActivityDate);
      if Unfiltered(branchId, startDate, endDate) {
        activities := result;
      }
    }
  }
}
