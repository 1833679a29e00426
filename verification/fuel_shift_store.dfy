/** The fuel-shift store: recorded shift reconciliations per tenant, layered
    over the seed shifts (all of them, there is no type filter), newest first. */
module FuelShiftStore {
  import opened Common
  import opened Records
  import opened Storage
  import opened Tenancy
  import opened Overlay
  import opened Sorting
  import MockData

  /** Also the legacy (untenanted) key. */
  const StoragePrefix: string := "energyflow_custom_fuel_shifts"

  function StorageKey(tenant: string): string { ScopedKey(StoragePrefix, tenant) }

  /** `getStoredFuelShifts` for a tenant, legacy fallback included. */
  function ReadStored(fm: map<string, Slot<ShiftReconciliation>>, tenant: string): seq<ShiftReconciliation>
  {
    ReadWithLegacy(fm, StorageKey(tenant), StoragePrefix)
  }

  function StoredFuelShifts(ls: LocalStorage): seq<ShiftReconciliation>
    reads ls
  {
    ReadStored(ls.fuelShifts, TenantId(ls.userEntry))
  }

  /** `saveStoredFuelShifts` */
  method SaveStoredFuelShifts(ls: LocalStorage, shifts: seq<ShiftReconciliation>)
    modifies ls`fuelShifts
    ensures ls.fuelShifts == old(ls.fuelShifts)[StorageKey(TenantId(ls.userEntry)) := Items(shifts)]
    ensures StoredFuelShifts(ls) == shifts
  {
    ls.fuelShifts := ls.fuelShifts[StorageKey(TenantId(ls.userEntry)) := Items(shifts)];
  }

  /** `getAllFuelShifts` as a function of the stored state and the seed. */
  function AllFuelShifts(fm: map<string, Slot<ShiftReconciliation>>, tenant: string,
                         seed: seq<ShiftReconciliation>): (r: seq<ShiftReconciliation>)
    ensures SortedDesc(r, ShiftCreatedAt)
    ensures |ReadStored(fm, tenant)| <= |r| <= |ReadStored(fm, tenant)| + |seed|
  {
    SortDesc(Merge(ReadStored(fm, tenant), seed, ShiftId), ShiftCreatedAt)
  }

  /** `getAllFuelShifts` */
  method GetAllFuelShifts(ls: LocalStorage, loadTime: int) returns (shifts: seq<ShiftReconciliation>)
    ensures shifts == AllFuelShifts(ls.fuelShifts, TenantId(ls.userEntry), MockData.MockShiftReconciliation(loadTime))
  {
    var stored := StoredFuelShifts(ls);
    var merged := MergeUnshadowed(stored, MockData.MockShiftReconciliation(loadTime), ShiftId);
    shifts := SortDesc(merged, ShiftCreatedAt);
  }

  /** The listing is newest first and holds every stored shift once per
      occurrence plus each seed shift whose id is not stored. */
  lemma AllFuelShiftsSpec(fm: map<string, Slot<ShiftReconciliation>>, tenant: string,
                          seed: seq<ShiftReconciliation>)
    ensures var stored, r := ReadStored(fm, tenant), AllFuelShifts(fm, tenant, seed);
      && SortedDesc(r, ShiftCreatedAt)
      && multiset(r) == multiset(stored) + multiset(Unshadowed(seed, Ids(stored, ShiftId), ShiftId))
      && multiset(stored) <= multiset(r)
      && forall s :: s in r <==> s in stored || (s in seed && s.id !in Ids(stored, ShiftId))
  {
    var stored := ReadStored(fm, tenant);
    var merged := Merge(stored, seed, ShiftId);
    assert merged == stored + Unshadowed(seed, Ids(stored, ShiftId), ShiftId);
    forall s ensures s in AllFuelShifts(fm, tenant, seed) <==> s in merged {
      SortDescMembership(merged, ShiftCreatedAt, s);
    }
  }

  /** A stored shift with the seed shift's id replaces it in the listing. */
  lemma StoredShiftShadowsSeed(fm: map<string, Slot<ShiftReconciliation>>, tenant: string,
                               seed: seq<ShiftReconciliation>, s: ShiftReconciliation)
    requires s in AllFuelShifts(fm, tenant, seed) && s.id in Ids(ReadStored(fm, tenant), ShiftId)
    ensures s in ReadStored(fm, tenant)
  {
    var merged := Merge(ReadStored(fm, tenant), seed, ShiftId);
    SortDescMembership(merged, ShiftCreatedAt, s);
    MergeShadows(ReadStored(fm, tenant), seed, ShiftId, s);
  }

  /** `addFuelShift`: prepend to the tenant's stored list. */
  function AddedStored(fm: map<string, Slot<ShiftReconciliation>>, tenant: string, shift: ShiftReconciliation)
    : (r: map<string, Slot<ShiftReconciliation>>)
    ensures ReadStored(r, tenant) == [shift] + ReadStored(fm, tenant)
  {
    fm[StorageKey(tenant) := Items([shift] + ReadStored(fm, tenant))]
  }

  method AddFuelShift(ls: LocalStorage, shift: ShiftReconciliation)
    modifies ls`fuelShifts
    ensures ls.fuelShifts == AddedStored(old(ls.fuelShifts), TenantId(ls.userEntry), shift)
  {
    var stored := StoredFuelShifts(ls);
    SaveStoredFuelShifts(ls, [shift] + stored);
  }

  /** A shift added under an id no seed shift carries joins the listing and
      nothing else changes. */
  lemma AddFuelShiftAddsOne(fm: map<string, Slot<ShiftReconciliation>>, tenant: string,
                            seed: seq<ShiftReconciliation>, shift: ShiftReconciliation)
    requires shift.id !in Ids(seed, ShiftId)
    ensures multiset(AllFuelShifts(AddedStored(fm, tenant, shift), tenant, seed))
         == multiset(AllFuelShifts(fm, tenant, seed)) + multiset{shift}
  {
    MergePrependFresh(ReadStored(fm, tenant), seed, ShiftId, shift);
  }

  /** Adding a shift for one tenant leaves every other tenant's list alone. */
  lemma AddFuelShiftIsTenantLocal(fm: map<string, Slot<ShiftReconciliation>>, tenant: string, other: string,
                                  shift: ShiftReconciliation)
    requires other != tenant
    ensures ReadStored(AddedStored(fm, tenant, shift), other) == ReadStored(fm, other)
  {
    WriteIsTenantLocal(fm, StoragePrefix, tenant, other, Items([shift] + ReadStored(fm, tenant)));
  }
}
