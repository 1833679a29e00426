/** The browser's key-value store as the data layer sees it. A key is either
    absent or holds a raw string; for the list-valued keys the only thing
    that matters about that string is whether it parses to a JSON array. */
module Storage {
  import opened Common
  import opened Records

  /** A present list-valued key: a JSON array, or anything else (an empty
      string, text that does not parse, or JSON that is not an array). */
  datatype Slot<T> = Corrupt | Items(items: seq<T>)

  /** The raw `energyflow_user` entry. `Blank` is the empty string (falsy),
      `JsonNull` the text `null` (parses, but has no fields). */
  datatype UserEntry = Blank | Unparsable | JsonNull | UserJson(user: User)

  /** `getItem` followed by `JSON.parse` and `Array.isArray`: an absent key,
      a corrupt value and a non-array all read as the empty list. */
  function ReadList<T>(m: map<string, Slot<T>>, key: string): (r: seq<T>)
    ensures key in m && m[key].Items? ==> r == m[key].items
    ensures key !in m || m[key].Corrupt? ==> r == []
  {
    if key in m && m[key].Items? then m[key].items else []
  }

  /** `getItem(key) ?? getItem(legacy)`: the legacy key is consulted only
      when the key itself is absent; a present but corrupt key reads as `[]`. */
  function ReadWithLegacy<T>(m: map<string, Slot<T>>, key: string, legacy: string): (r: seq<T>)
    ensures key in m ==> r == ReadList(m, key)
    ensures key !in m ==> r == ReadList(m, legacy)
  {
    if key in m then ReadList(m, key) else ReadList(m, legacy)
  }

  /** `setItem(key, JSON.stringify(xs))` followed by a read of the same key
      gives `xs` back, with or without a legacy fallback. */
  lemma SavedListReadsBack<T>(m: map<string, Slot<T>>, key: string, legacy: string, xs: seq<T>)
    ensures ReadList(m[key := Items(xs)], key) == xs
    ensures ReadWithLegacy(m[key := Items(xs)], key, legacy) == xs
  {
  }

  /** A present but corrupt key reads as `[]`, whatever the legacy key holds:
      the legacy list is hidden, not recovered. */
  lemma CorruptKeyHidesLegacy<T>(m: map<string, Slot<T>>, key: string, legacy: string, v: Slot<T>)
    requires key in m && m[key].Corrupt? && key != legacy
    ensures ReadWithLegacy(m, key, legacy) == []
    ensures ReadWithLegacy(m[legacy := v], key, legacy) == []
  {
  }

  /** Once the key has been written, the legacy key no longer affects what
      is read; before that, and only then, a legacy list is read in its place. */
  lemma LegacyMattersOnlyUntilWritten<T>(m: map<string, Slot<T>>, key: string, legacy: string,
                                         xs: seq<T>, v: Slot<T>)
    requires key != legacy
    ensures ReadWithLegacy(m[key := Items(xs)][legacy := v], key, legacy) == xs
    ensures key !in m ==> ReadWithLegacy(m[legacy := v], key, legacy) == ReadList(map[legacy := v], legacy)
  {
    assert m[key := Items(xs)][legacy := v][key] == Items(xs);
  }

  /** The whole `localStorage`, one field per key space. Each key space has
      its own key prefix, so keeping them apart loses nothing. */
  class LocalStorage {
    /** `energyflow_user`, `energyflow_branch_id`, `energyflow_branch_type` */
    var userEntry: Option<UserEntry>
    var branchIdEntry: Option<string>
    var branchTypeEntry: Option<string>
    /** `energyflow_custom_branches[_<tenant>]` */
    var branches: map<string, Slot<Branch>>
    /** `energyflow_removed_branches[_<tenant>]` */
    var removedBranches: map<string, Slot<string>>
    /** `energyflow_custom_gas_sales[_<tenant>]` */
    var gasSales: map<string, Slot<GasTransaction>>
    /** `energyflow_custom_fuel_shifts[_<tenant>]` */
    var fuelShifts: map<string, Slot<ShiftReconciliation>>
    /** `energyflow_expenses_<type>_<tenant>` */
    var expenses: map<string, Slot<Expense>>
    /** `energyflow_notifications` */
    var notifications: map<string, Slot<NotificationItem>>

    /** A browser profile with nothing stored. */
    constructor ()
      ensures userEntry == None && branchIdEntry == None && branchTypeEntry == None
      ensures branches == map[] && removedBranches == map[] && gasSales == map[]
      ensures fuelShifts == map[] && expenses == map[] && notifications == map[]
    {
      userEntry, branchIdEntry, branchTypeEntry := None, None, None;
      branches, removedBranches, gasSales := map[], map[], map[];
      fuelShifts, expenses, notifications := map[], map[], map[];
    }
  }

}
