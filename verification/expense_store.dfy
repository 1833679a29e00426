/** The expense store: one stored list per expense type and tenant, layered
    over a seed list the caller passes in. There is no legacy key and the
    merge is not sorted. */
module ExpenseStore {
  import opened Common
  import opened Records
  import opened Storage
  import opened Tenancy
  import opened Overlay

  const StoragePrefix: string := "energyflow_expenses"

  /** `${prefix}_${type}_${tenant}` */
  function StorageKey(kind: string, tenant: string): string
  {
    ScopedKey(ScopedKey(StoragePrefix, kind), tenant)
  }

  /** `getStoredExpenses(type)`: a missing or corrupt key reads as `[]`. */
  function ReadStored(em: map<string, Slot<Expense>>, kind: string, tenant: string): seq<Expense>
  {
    ReadList(em, StorageKey(kind, tenant))
  }

  function StoredExpenses(ls: LocalStorage, kind: string): seq<Expense>
    reads ls
  {
    ReadStored(ls.expenses, kind, TenantId(ls.userEntry))
  }

  /** `saveStoredExpenses(type, items)` */
  method SaveStoredExpenses(ls: LocalStorage, kind: string, items: seq<Expense>)
    modifies ls`expenses
    ensures ls.expenses == old(ls.expenses)[StorageKey(kind, TenantId(ls.userEntry)) := Items(items)]
  {
    ls.expenses := ls.expenses[StorageKey(kind, TenantId(ls.userEntry)) := Items(items)];
  }

  /** `getAllExpenses(type, mockData)` as a function of the stored state. */
  function AllExpenses(em: map<string, Slot<Expense>>, kind: string, tenant: string,
                       seed: seq<Expense>): (r: seq<Expense>)
    ensures var stored := ReadStored(em, kind, tenant);
      |stored| <= |r| <= |stored| + |seed| && r[..|stored|] == stored
  {
    Merge(ReadStored(em, kind, tenant), seed, ExpenseId)
  }

  /** `getAllExpenses(type, mockData)` */
  method GetAllExpenses(ls: LocalStorage, kind: string, seed: seq<Expense>) returns (all: seq<Expense>)
    ensures all == AllExpenses(ls.expenses, kind, TenantId(ls.userEntry), seed)
  {
    var stored := StoredExpenses(ls, kind);
    all := MergeUnshadowed(stored, seed, ExpenseId);
  }

  /** The listing starts with the stored list exactly as stored, and holds
      the seed records whose id is not stored after it, in seed order. */
  lemma AllExpensesSpec(em: map<string, Slot<Expense>>, kind: string, tenant: string, seed: seq<Expense>)
    ensures var stored, r := ReadStored(em, kind, tenant), AllExpenses(em, kind, tenant, seed);
      && |stored| <= |r|
      && r[..|stored|] == stored
      && r[|stored|..] == Filter(seed, NotTaken(Ids(stored, ExpenseId), ExpenseId))
      && forall e :: e in r <==> e in stored || (e in seed && e.id !in Ids(stored, ExpenseId))
  {
    var stored := ReadStored(em, kind, tenant);
    var r := AllExpenses(em, kind, tenant, seed);
    assert r == stored + Filter(seed, NotTaken(Ids(stored, ExpenseId), ExpenseId));
  }

  /** `addExpense(type, e)`: prepend to that type's stored list. */
  function AddedStored(em: map<string, Slot<Expense>>, kind: string, tenant: string, e: Expense)
    : (r: map<string, Slot<Expense>>)
    ensures ReadStored(r, kind, tenant) == [e] + ReadStored(em, kind, tenant)
  {
    em[StorageKey(kind, tenant) := Items([e] + ReadStored(em, kind, tenant))]
  }

  method AddExpense(ls: LocalStorage, kind: string, e: Expense)
    modifies ls`expenses
    ensures ls.expenses == AddedStored(old(ls.expenses), kind, TenantId(ls.userEntry), e)
  {
    var stored := StoredExpenses(ls, kind);
    SaveStoredExpenses(ls, kind, [e] + stored);
  }

  /** Saving a list and reading it back gives the list. */
  lemma SaveThenRead(em: map<string, Slot<Expense>>, kind: string, tenant: string, items: seq<Expense>)
    ensures ReadStored(em[StorageKey(kind, tenant) := Items(items)], kind, tenant) == items
  {
  }

  /** An expense added under an id the seed does not carry comes first in
      the listing, ahead of everything that was listed before. */
  lemma AddExpenseListsFirst(em: map<string, Slot<Expense>>, kind: string, tenant: string,
                             seed: seq<Expense>, e: Expense)
    requires e.id !in Ids(seed, ExpenseId)
    ensures AllExpenses(AddedStored(em, kind, tenant, e), kind, tenant, seed)
         == [e] + AllExpenses(em, kind, tenant, seed)
  {
    MergePrependFresh(ReadStored(em, kind, tenant), seed, ExpenseId, e);
  }

  /** In `k + "_" + t` with no `_` in `k`, the first `_` follows `k`. */
  lemma FirstUnderscore(k: string, t: string)
    requires '_' !in k
    ensures (k + "_" + t)[|k|] == '_'
    ensures forall j :: 0 <= j < |k| ==> (k + "_" + t)[j] != '_'
  {
    forall j | 0 <= j < |k| ensures (k + "_" + t)[j] != '_' {
      assert (k + "_" + t)[j] == k[j];
    }
  }

  /** Type names without `_`: distinct (type, tenant) pairs have distinct keys. */
  lemma StorageKeyInjective(k1: string, t1: string, k2: string, t2: string)
    requires '_' !in k1 && '_' !in k2
    requires StorageKey(k1, t1) == StorageKey(k2, t2)
    ensures k1 == k2 && t1 == t2
  {
    var n := |StoragePrefix| + 1;
    var s := StorageKey(k1, t1);
    assert s == StoragePrefix + "_" + k1 + "_" + t1;
    assert s == StoragePrefix + "_" + k2 + "_" + t2;
    assert s[n..] == k1 + "_" + t1;
    assert s[n..] == k2 + "_" + t2;
    FirstUnderscore(k1, t1);
    FirstUnderscore(k2, t2);
    assert |k1| == |k2|;
    assert k1 == s[n..][..|k1|];
    assert k2 == s[n..][..|k2|];
    assert t1 == s[n + |k1| + 1..];
  }

  /** Adding an expense of one type leaves every other type's list alone,
      when neither type name contains `_`. */
  lemma AddExpenseIsTypeLocal(em: map<string, Slot<Expense>>, kind: string, other: string,
                              tenant: string, e: Expense)
    requires '_' !in kind && '_' !in other && other != kind
    ensures ReadStored(AddedStored(em, kind, tenant, e), other, tenant) == ReadStored(em, other, tenant)
  {
    if StorageKey(kind, tenant) == StorageKey(other, tenant) {
      StorageKeyInjective(kind, tenant, other, tenant);
    }
  }

  /** An underscore in the type name lets two (type, tenant) pairs share a
      key: type `gas_x` for tenant `t` and type `gas` for tenant `x_t`. */
  lemma StorageKeyCollision()
    ensures StorageKey("gas_x", "t") == StorageKey("gas", "x_t")
  {
  }
}
