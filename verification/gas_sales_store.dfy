/** The gas-sales store: recorded sales per tenant, layered over the seed
    gas transactions of type sale, newest first. */
module GasSalesStore {
  import opened Common
  import opened Records
  import opened Storage
  import opened Tenancy
  import opened Overlay
  import opened Sorting
  import MockData

  /** Also the legacy (untenanted) key. */
  const StoragePrefix: string := "energyflow_custom_gas_sales"

  function StorageKey(tenant: string): string { ScopedKey(StoragePrefix, tenant) }

  /** `getStoredGasSales` for a tenant, legacy fallback included. */
  function ReadStored(gm: map<string, Slot<GasTransaction>>, tenant: string): seq<GasTransaction>
  {
    ReadWithLegacy(gm, StorageKey(tenant), StoragePrefix)
  }

  function StoredGasSales(ls: LocalStorage): seq<GasTransaction>
    reads ls
  {
    ReadStored(ls.gasSales, TenantId(ls.userEntry))
  }

  /** `saveStoredGasSales` */
  method SaveStoredGasSales(ls: LocalStorage, sales: seq<GasTransaction>)
    modifies ls`gasSales
    ensures ls.gasSales == old(ls.gasSales)[StorageKey(TenantId(ls.userEntry)) := Items(sales)]
    ensures StoredGasSales(ls) == sales
  {
    ls.gasSales := ls.gasSales[StorageKey(TenantId(ls.userEntry)) := Items(sales)];
  }

  predicate IsSale(t: GasTransaction) { t.kind == Sale }

  /** `getAllGasSales` as a function of the stored state and the seed
      transactions: stored sales, then the seed sales they do not shadow,
      sorted by creation time, newest first. */
  function AllGasSales(gm: map<string, Slot<GasTransaction>>, tenant: string,
                       seed: seq<GasTransaction>): (r: seq<GasTransaction>)
    ensures SortedDesc(r, GasTransactionCreatedAt)
    ensures |ReadStored(gm, tenant)| <= |r| <= |ReadStored(gm, tenant)| + |seed|
  {
    SortDesc(Merge(ReadStored(gm, tenant), Filter(seed, IsSale), GasTransactionId), GasTransactionCreatedAt)
  }

  /** `getAllGasSales` */
  method GetAllGasSales(ls: LocalStorage, loadTime: int) returns (sales: seq<GasTransaction>)
    ensures sales == AllGasSales(ls.gasSales, TenantId(ls.userEntry), MockData.MockGasTransactions(loadTime))
  {
    var stored := StoredGasSales(ls);
    var seedSales := Filter(MockData.MockGasTransactions(loadTime), IsSale);
    var merged := MergeUnshadowed(stored, seedSales, GasTransactionId);
    sales := SortDesc(merged, GasTransactionCreatedAt);
  }

  /** The listing is newest first and holds every stored record (whatever
      its type) once per occurrence, plus each seed sale whose id is not
      stored; seed purchases and refills never appear. */
  lemma AllGasSalesSpec(gm: map<string, Slot<GasTransaction>>, tenant: string, seed: seq<GasTransaction>)
    ensures var stored, r := ReadStored(gm, tenant), AllGasSales(gm, tenant, seed);
      && SortedDesc(r, GasTransactionCreatedAt)
      && multiset(r) == multiset(stored)
                         + multiset(Unshadowed(Filter(seed, IsSale), Ids(stored, GasTransactionId), GasTransactionId))
      && multiset(stored) <= multiset(r)
      && forall t :: t in r <==>
           t in stored || (t in seed && t.kind == Sale && t.id !in Ids(stored, GasTransactionId))
  {
    var stored := ReadStored(gm, tenant);
    var merged := Merge(stored, Filter(seed, IsSale), GasTransactionId);
    assert merged == stored + Unshadowed(Filter(seed, IsSale), Ids(stored, GasTransactionId), GasTransactionId);
    forall t ensures t in AllGasSales(gm, tenant, seed) <==> t in merged {
      SortDescMembership(merged, GasTransactionCreatedAt, t);
    }
  }

  /** With nothing stored, a seed of a sale and a non-sale lists the sale alone. */
  lemma EmptyStoreListsSaleOnly(a: GasTransaction, b: GasTransaction)
    requires a.kind == Sale && b.kind != Sale
    ensures AllGasSales(map[], GlobalTenant, [a, b]) == [a]
  {
    var seed := [a, b];
    assert Filter(seed, IsSale) == [a] by {
      assert seed[..1] == [a];
      assert [a][..0] == [];
    }
    assert ReadStored(map[], GlobalTenant) == [];
    assert Merge([], [a], GasTransactionId) == [a] by {
      assert Ids([], GasTransactionId) == {};
      FilterKeepsAll([a], NotTaken({}, GasTransactionId));
    }
    SortDescSingleton(a, GasTransactionCreatedAt);
  }

  /** With nothing stored, the listing is the seed sale alone. */
  lemma EmptyStoreListsSeedSales(loadTime: int)
    ensures AllGasSales(map[], GlobalTenant, MockData.MockGasTransactions(loadTime))
         == [MockData.MockGasTransactions(loadTime)[0]]
  {
    var seed := MockData.MockGasTransactions(loadTime);
    EmptyStoreListsSaleOnly(seed[0], seed[1]);
  }

  /** `addGasSale`: prepend to the tenant's stored list. */
  function AddedStored(gm: map<string, Slot<GasTransaction>>, tenant: string, sale: GasTransaction)
    : (r: map<string, Slot<GasTransaction>>)
    ensures ReadStored(r, tenant) == [sale] + ReadStored(gm, tenant)
  {
    gm[StorageKey(tenant) := Items([sale] + ReadStored(gm, tenant))]
  }

  method AddGasSale(ls: LocalStorage, sale: GasTransaction)
    modifies ls`gasSales
    ensures ls.gasSales == AddedStored(old(ls.gasSales), TenantId(ls.userEntry), sale)
  {
    var stored := StoredGasSales(ls);
    SaveStoredGasSales(ls, [sale] + stored);
  }

  /** A sale added under an id no seed sale carries joins the listing and
      nothing else changes: the new listing is the old one plus that sale. */
  lemma AddGasSaleAddsOne(gm: map<string, Slot<GasTransaction>>, tenant: string,
                          seed: seq<GasTransaction>, sale: GasTransaction)
    requires sale.id !in Ids(Filter(seed, IsSale), GasTransactionId)
    ensures multiset(AllGasSales(AddedStored(gm, tenant, sale), tenant, seed))
         == multiset(AllGasSales(gm, tenant, seed)) + multiset{sale}
  {
    MergePrependFresh(ReadStored(gm, tenant), Filter(seed, IsSale), GasTransactionId, sale);
  }

  /** Adding a sale for one tenant leaves every other tenant's list alone. */
  lemma AddGasSaleIsTenantLocal(gm: map<string, Slot<GasTransaction>>, tenant: string, other: string,
                                sale: GasTransaction)
    requires other != tenant
    ensures ReadStored(AddedStored(gm, tenant, sale), other) == ReadStored(gm, other)
  {
    WriteIsTenantLocal(gm, StoragePrefix, tenant, other, Items([sale] + ReadStored(gm, tenant)));
  }
}
