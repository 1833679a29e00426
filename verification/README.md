# EnergyFlow client data layer, in Dafny

EnergyFlow is a multi-tenant operations dashboard for gas plants and fuel
stations. Its frontend keeps all mutable data in the browser's
`localStorage`. This project models that data layer:

- **Tenant resolution.** The tenant is the `tenant_id` of the cached user. It is
  `"global"` when there is no such user.
- **Four stores.** Each store merges tenant-scoped stored records with constant
  seed records:
  - branches, with a removed-id list that hides a branch whatever its source;
  - gas sales, where only seed sales are merged and the result is newest first;
  - fuel shift reconciliations, newest first;
  - expenses, with one key per expense type and tenant.
- **Notifications.** One global list, newest first and capped at twenty, with
  "mark all read".
- **Seed data and the daily-activity log.** The seed arrays, and the in-memory
  daily-activity log with its save and filtered, sorted query.
- **Dashboard quick statistics.** Gas and fuel totals, and the figures of the
  selected branch.
- **Authentication context.** Mock login (the first seed user with the role),
  logout, branch selection, and hydration from the three stored keys.

Modules, one per source file plus shared helpers:

| file | module | models |
|---|---|---|
| `common.dfy` | `Common` | `Option`, `Array.prototype.filter`, id sets, `[...new Set(xs)]` |
| `sorting.dfy` | `Sorting` | `Array.prototype.sort` with a newest-first comparator (stable) |
| `overlay.dfy` | `Overlay` | the stored-then-unshadowed-seed merge loop shared by three stores |
| `records.dfy` | `Records` | record shapes of `types/index.ts` |
| `local_storage.dfy` | `Storage` | `localStorage` as one object with a map per key space |
| `tenancy.dfy` | `Tenancy` | `getTenantId` and `${prefix}_${tenant}` keys |
| `branch_store.dfy` | `BranchStore` | `lib/branch-store.ts` |
| `gas_sales_store.dfy` | `GasSalesStore` | `lib/gas-sales-store.ts` |
| `fuel_shift_store.dfy` | `FuelShiftStore` | `lib/fuel-shift-store.ts` |
| `expense_store.dfy` | `ExpenseStore` | `lib/expense-store.ts` |
| `notification_store.dfy` | `NotificationStore` | `lib/notification-store.ts` |
| `mock_data.dfy` | `MockData` | the seed arrays and the daily-activity log of `lib/mock-data.ts` |
| `quick_stats.dfy` | `QuickStats` | `components/dashboard/quick-stats.tsx` |
| `auth_context.dfy` | `AuthContext` | `context/auth-context.tsx` |

State that changes in place is modelled as classes:

- `Storage.LocalStorage` holds every storage key.
- `MockData.GasDailyActivityLog` is the module-level activity array.
- `AuthContext.AuthProvider` holds the React state and the storage it mirrors into.

Each store has two kinds of members:

- **Methods.** They read and write a `LocalStorage`. Each one's `ensures` ties
  the new state, or the value returned, to a pure function of the old state
  (`AllBranches`, `AddedStored`, `PushCapped`, `LoggedIn`, …).
- **Lemmas.** They prove what the source promises about those functions.

Modelling choices:

- **Stored values.** A present list-valued key is either `Items(xs)` or
  `Corrupt`. `Corrupt` stands for an empty string, text that does not parse,
  or JSON that is not an array. An absent key is one missing from the map.
  These two cases differ: `getItem(key) ?? getItem(legacy)` falls back to the
  legacy key only when the tenant key is absent.
- **Timestamps and amounts.** Timestamps and calendar dates are integers on a
  common time line. Amounts are integers.
- **Clocks.** Seed timestamps are relative to `loadTime`, the moment the seed
  module was loaded. `addNotification` takes the clock reading `now` as a
  parameter.

Facts about the code worth knowing before reading the lemmas:

- **Duplicate ids.** `addBranch` prepends without checking ids, so a listing
  can repeat an id (`BranchStore.AddBranchKeepsSameIdBranch`). Unique listed
  ids are proved only when the stored and seed lists have unique ids
  (`BranchStore.MergedUniqueIds`, `Overlay.MergeUniqueIds`).
- **Removed-id list.** Only the branch store keeps a removed-id list; the
  other stores cannot hide a seed record.
- **Validation and id assignment.** The stores neither validate nor assign
  ids: they prepend whatever they are given.
- **Corrupt tenant key.** A corrupt tenant key reads as `[]` and does not
  fall back to the legacy key (`Storage.CorruptKeyHidesLegacy`).

## Model

| member | source | states |
|---|---|---|
| Tenancy.TenantKeySpaces | lib/branch-store.ts:11-25 | two cached users share a scoped key exactly when their tenant ids resolve alike: every user without a non-empty `tenant_id` shares the `global` key, and a user whose `tenant_id` is `"global"` shares it too |
| Tenancy.ScopedKeyInjective | lib/branch-store.ts:23-25 | two tenants share a `${prefix}_${tenant}` key only if they are the same tenant |
| Tenancy.ScopedKeyIsNotLegacy | lib/branch-store.ts:8 | a tenant key is never the untenanted legacy key |
| Tenancy.WriteIsTenantLocal | lib/branch-store.ts:43-46 | saving one tenant's list leaves every other tenant's read, legacy fallback included, unchanged |
| Storage.CorruptKeyHidesLegacy | lib/branch-store.ts:31-41 | a tenant key holding something unreadable reads as `[]` whatever the legacy key holds: `??` falls back only on an absent key |
| Storage.LegacyMattersOnlyUntilWritten | lib/branch-store.ts:31-41 | once the tenant key holds a list, the legacy key no longer affects the read; before that, an absent tenant key reads the legacy key |
| Storage.SavedListReadsBack | lib/gas-sales-store.ts:37-40 | a saved list reads back unchanged, with or without a legacy fallback |
| Records.BranchTypeName | types/index.ts:3 | a branch type is stored as `"gas"` or `"fuel"` |
| Common.Filter | components/dashboard/quick-stats.tsx:30-33 | `filter` keeps an element exactly when it is in the input and satisfies the predicate; every kept element satisfies it; never longer than the input |
| Common.FilterSnoc | lib/branch-store.ts:69 | filtering one more element appends it exactly when it satisfies the predicate, so order and repeats of the input are kept |
| Common.FilterSubMultiset | lib/mock-data.ts:412-418 | a filter only drops records: its result is a sub-multiset of its input |
| Common.FilterConcat | lib/branch-store.ts:69 | filtering a concatenation is concatenating the filtered parts |
| Common.FilterFilter | lib/mock-data.ts:412-418 | two filters in a row are one filter by the conjunction |
| Common.Dedup | lib/branch-store.ts:99-101 | `[...new Set(xs)]` has no duplicates, the same members as `xs`, and is no longer |
| Common.DedupOfNoDup | lib/branch-store.ts:99-101 | de-duplicating a duplicate-free list returns it unchanged |
| Common.DedupSnocPresent | lib/branch-store.ts:99-101 | adding an id already present does not change the de-duplicated list |
| Sorting.SortDesc | lib/gas-sales-store.ts:55 | the sort returns a permutation of its input ordered by key, largest first |
| Sorting.SortDescMembership | lib/fuel-shift-store.ts:53 | sorting neither adds nor drops a record |
| Overlay.Merge | lib/expense-store.ts:40-50 | the stored list comes first, unchanged; a record is merged exactly when it is stored or is a seed record whose id is not stored |
| Overlay.MergeUnshadowed | lib/fuel-shift-store.ts:42-51 | the `forEach`/`push` loop computes `Merge` |
| Overlay.MergeShadows | lib/gas-sales-store.ts:44-53 | a merged record whose id is stored comes from storage: stored records shadow seed records |
| Overlay.MergeUniqueIds | lib/gas-sales-store.ts:42-53 | with unique ids in storage and seed, the merge has unique ids |
| Overlay.MergePrependFresh | lib/expense-store.ts:52-55 | prepending a record whose id no seed record has prepends it to the merge |
| BranchStore.MergedMembership | lib/branch-store.ts:65-76 | a branch is listed exactly when its id is not removed and it is stored, or it is a seed branch whose id is not stored |
| BranchStore.Merged | lib/branch-store.ts:65-76 | no listed branch has a removed id; the listing is no longer than the stored and seed lists together |
| BranchStore.MergeBranches | lib/branch-store.ts:69-75 | the filter and the `forEach`/`push` loop give the unremoved stored branches, then exactly the seed branches neither stored nor removed, in seed order |
| BranchStore.GetAllBranches | lib/branch-store.ts:65-76 | the filter-then-push loop returns the merge of the tenant's stored list, removed ids and seed branches |
| BranchStore.MergedUniqueIds | lib/branch-store.ts:65-76 | unique stored and seed ids give a listing with unique ids |
| BranchStore.SaveStoredBranches | lib/branch-store.ts:43-46 | only the current tenant's branch key changes and reads back as the saved list |
| BranchStore.SaveRemovedIds | lib/branch-store.ts:60-63 | only the current tenant's removed key changes and reads back as the saved ids |
| BranchStore.AddedStored | lib/branch-store.ts:78-81 | after `addBranch` the stored list is the new branch followed by the old list |
| BranchStore.AddBranch | lib/branch-store.ts:78-81 | the method's new storage is `AddedStored` of the old |
| BranchStore.ReplaceByIdKeepsIds | lib/branch-store.ts:87 | replacing by an id that is stored keeps the list of ids; by an id that is not stored changes nothing; replacing twice is replacing once |
| BranchStore.UpdateBranchIdempotent | lib/branch-store.ts:83-92 | `updateBranch` with the same branch twice stores the same list as once |
| BranchStore.UpdatedStored | lib/branch-store.ts:83-92 | an id already stored: every entry with it replaced in place, length kept; otherwise prepended; either way the update is stored |
| BranchStore.UpdateBranch | lib/branch-store.ts:83-92 | the method's new storage is `UpdatedStored` of the old |
| BranchStore.RemovedStored | lib/branch-store.ts:95-97 | every stored branch with the id is dropped and every other one kept in order |
| BranchStore.RemovedIdList | lib/branch-store.ts:99-101 | the saved removed list is duplicate-free and holds exactly the old ids plus the removed one |
| BranchStore.RemoveBranch | lib/branch-store.ts:94-102 | the method's new storage is `RemovedStored` and `RemovedIdList` of the old |
| BranchStore.RemoveBranchIdempotent | lib/branch-store.ts:94-102 | removing an id twice leaves the same storage as removing it once |
| BranchStore.RemovedIdListIdempotent | lib/branch-store.ts:99-101 | adding an id the removed list already holds saves the same removed list |
| BranchStore.RemovalOnStored | lib/branch-store.ts:69 | the stored half of the listing after a removal is the old stored half without the id |
| BranchStore.IdsAfterRemoval | lib/branch-store.ts:96 | dropping the branches with an id removes exactly that id from the stored ids |
| BranchStore.RemovalOnSeed | lib/branch-store.ts:70-74 | the seed half of the listing after a removal is the old seed half without the id |
| BranchStore.RemoveBranchHidesExactly | lib/branch-store.ts:65-102 | after `removeBranch(id)` the listing is the old listing minus the branches with that id, stored or seed |
| BranchStore.RemovedIdStaysHidden | lib/branch-store.ts:65-92 | a removed id stays hidden after `addBranch` or `updateBranch` with that id: the removed set never shrinks |
| BranchStore.AddedBranchListedFirst | lib/branch-store.ts:78-81 | a branch added under a non-removed id is listed first |
| BranchStore.AddBranchKeepsSameIdBranch | lib/branch-store.ts:78-81 | `addBranch` does not de-duplicate: a stored branch with the same id stays listed |
| BranchStore.WritesAreTenantLocal | lib/branch-store.ts:23-29 | add, update and remove leave every other tenant's stored list, removed list and listing unchanged |
| GasSalesStore.SaveStoredGasSales | lib/gas-sales-store.ts:37-40 | only the current tenant's gas-sales key changes and reads back as the saved list |
| GasSalesStore.AllGasSales | lib/gas-sales-store.ts:42-56 | the listing is sorted newest first and holds at least the stored records and at most the stored records plus the seed |
| GasSalesStore.GetAllGasSales | lib/gas-sales-store.ts:42-56 | the method returns the merge of the stored list with the seed sales, sorted newest first |
| GasSalesStore.AllGasSalesSpec | lib/gas-sales-store.ts:42-56 | newest first; the listing is, as a multiset, the stored records of any type plus the seed sales whose id is not stored; a seed record appears exactly when it is a sale whose id is not stored |
| GasSalesStore.EmptyStoreListsSaleOnly | lib/gas-sales-store.ts:42-56 | with nothing stored, a seed of one sale and one non-sale lists the sale alone |
| GasSalesStore.EmptyStoreListsSeedSales | lib/mock-data.ts:166-187 | with nothing stored the listing is the single seed sale |
| GasSalesStore.AddedStored | lib/gas-sales-store.ts:58-61 | after `addGasSale` the stored list is the new sale followed by the old list |
| GasSalesStore.AddGasSale | lib/gas-sales-store.ts:58-61 | the method's new storage is `AddedStored` of the old |
| GasSalesStore.AddGasSaleAddsOne | lib/gas-sales-store.ts:58-61 | a sale whose id is not a seed sale's joins the listing and nothing else changes |
| GasSalesStore.AddGasSaleIsTenantLocal | lib/gas-sales-store.ts:21-23 | adding a sale leaves every other tenant's list unchanged |
| FuelShiftStore.SaveStoredFuelShifts | lib/fuel-shift-store.ts:37-40 | only the current tenant's fuel-shift key changes and reads back as the saved list |
| FuelShiftStore.AllFuelShifts | lib/fuel-shift-store.ts:42-54 | the listing is sorted newest first and holds at least the stored shifts and at most the stored shifts plus the seed |
| FuelShiftStore.GetAllFuelShifts | lib/fuel-shift-store.ts:42-54 | the method returns the merge of the stored list with every seed shift, sorted newest first |
| FuelShiftStore.AllFuelShiftsSpec | lib/fuel-shift-store.ts:42-54 | newest first; the listing is, as a multiset, the stored shifts plus the seed shifts whose id is not stored; a seed shift appears exactly when its id is not stored |
| FuelShiftStore.StoredShiftShadowsSeed | lib/fuel-shift-store.ts:47-51 | a listed shift whose id is stored is the stored one |
| FuelShiftStore.AddedStored | lib/fuel-shift-store.ts:56-59 | after `addFuelShift` the stored list is the new shift followed by the old list |
| FuelShiftStore.AddFuelShift | lib/fuel-shift-store.ts:56-59 | the method's new storage is `AddedStored` of the old |
| FuelShiftStore.AddFuelShiftAddsOne | lib/fuel-shift-store.ts:56-59 | a shift whose id is not a seed id joins the listing and nothing else changes |
| FuelShiftStore.AddFuelShiftIsTenantLocal | lib/fuel-shift-store.ts:21-23 | adding a shift leaves every other tenant's list unchanged |
| ExpenseStore.SaveStoredExpenses | lib/expense-store.ts:35-38 | only the key of that type and the current tenant changes |
| ExpenseStore.AllExpenses | lib/expense-store.ts:40-50 | the stored list comes first, unchanged, followed by at most the seed list's length of records |
| ExpenseStore.GetAllExpenses | lib/expense-store.ts:40-50 | the loop returns the merge of that type's stored list with the given seed list |
| ExpenseStore.AllExpensesSpec | lib/expense-store.ts:40-50 | unsorted: the stored list exactly as stored, then the seed records whose id is not stored, in seed order |
| ExpenseStore.AddedStored | lib/expense-store.ts:52-55 | after `addExpense` that type's stored list is the new expense followed by the old list |
| ExpenseStore.AddExpense | lib/expense-store.ts:52-55 | the method's new storage is `AddedStored` of the old |
| ExpenseStore.SaveThenRead | lib/expense-store.ts:23-38 | a saved list reads back unchanged; there is no legacy key |
| ExpenseStore.AddExpenseListsFirst | lib/expense-store.ts:52-55 | an expense whose id is not a seed id is listed first, ahead of the old listing |
| ExpenseStore.FirstUnderscore | lib/expense-store.ts:19-21 | in a key built from an underscore-free type name, the first `_` after the prefix ends the type |
| ExpenseStore.StorageKeyInjective | lib/expense-store.ts:19-21 | for type names without `_`, different (type, tenant) pairs have different keys |
| ExpenseStore.AddExpenseIsTypeLocal | lib/expense-store.ts:52-55 | adding one type's expense leaves every other underscore-free type's list unchanged |
| ExpenseStore.StorageKeyCollision | lib/expense-store.ts:19-21 | a `_` in the type name lets two (type, tenant) pairs share one key |
| NotificationStore.SaveNotifications | lib/notification-store.ts:25-28 | only the single global notifications key changes and reads back as the saved list |
| NotificationStore.DecimalString | lib/notification-store.ts:33 | the rendering of the clock reading is a non-empty run of decimal digits |
| NotificationStore.DigitCharInjective | lib/notification-store.ts:33 | different digits render as different characters |
| NotificationStore.DecimalStringInjective | lib/notification-store.ts:33 | different clock readings render differently |
| NotificationStore.NotificationIdInjective | lib/notification-store.ts:33 | notifications created at different milliseconds get different `notif-…` ids |
| NotificationStore.NewItemIdsDiffer | lib/notification-store.ts:32-38 | two new items get the same id exactly when they are created at the same millisecond, whatever their titles and messages |
| NotificationStore.PushCapped | lib/notification-store.ts:39 | the new item first, then the old entries in order; length `min(old + 1, 20)` |
| NotificationStore.AddNotification | lib/notification-store.ts:30-42 | saves the capped list with the new item and returns that item |
| NotificationStore.MarkedReadChangesOnlyUnread | lib/notification-store.ts:46 | an entry is left exactly as it was if and only if it was already read |
| NotificationStore.MarkAllRead | lib/notification-store.ts:44-49 | saves and returns the list with every entry marked read |
| NotificationStore.MarkAllReadIdempotent | lib/notification-store.ts:44-49 | marking all read twice is marking all read once |
| NotificationStore.MarkAllReadOfReadList | lib/notification-store.ts:46 | a list already read is returned unchanged |
| NotificationStore.StoredCountStaysBounded | lib/notification-store.ts:30-49 | starting from at most twenty entries, adding or marking read keeps at most twenty |
| NotificationStore.FullListDropsOldest | lib/notification-store.ts:39 | with twenty or more entries, adding drops exactly the oldest beyond the cap |
| NotificationStore.AddToUnreadableStore | lib/notification-store.ts:13-23 | an absent or corrupt list reads as empty, so adding stores the new item alone |
| MockData.MockBranchesWellFormed | lib/mock-data.ts:78-119 | the seed branch ids are unique; branches 1 and 2 are gas, 3 and 4 fuel |
| MockData.MockFuelProductTotals | lib/mock-data.ts:190-215 | each seed fuel product's total value is quantity times unit price |
| MockData.QueryResult | lib/mock-data.ts:409-421 | the query is sorted by date, latest first, and no longer than the log |
| MockData.QueryResultSpec | lib/mock-data.ts:409-421 | the query is sorted by date, latest first, and is a sub-multiset of the log. A record is returned exactly when it matches the branch (when a branch is given) and lies in the inclusive date range (when both bounds are given) |
| MockData.UnfilteredQueryIsPermutation | lib/mock-data.ts:409-421 | without a branch and both dates the query is a permutation of the whole log |
| MockData.GasDailyActivityLog.constructor | lib/mock-data.ts:402 | the log starts empty |
| MockData.GasDailyActivityLog.Save | lib/mock-data.ts:404-407 | appends the record at the end and returns it unchanged |
| MockData.GasDailyActivityLog.Query | lib/mock-data.ts:409-421 | returns `QueryResult`; an unfiltered query also leaves the log itself in that sorted order (in-place sort), a filtered one leaves the log unchanged |
| QuickStats.SumGasSales | components/dashboard/quick-stats.tsx:30-33 | non-negative when every seed transaction amount is |
| QuickStats.SumGasExpenses | components/dashboard/quick-stats.tsx:35-38 | non-negative when every seed transaction amount is |
| QuickStats.SumGasInventory | components/dashboard/quick-stats.tsx:40-43 | non-negative when every seed cylinder quantity and selling price is |
| QuickStats.SumFuelSales | components/dashboard/quick-stats.tsx:45-48 | non-negative when every seed shift's sales amount is |
| QuickStats.SumFuelInventory | components/dashboard/quick-stats.tsx:50-53 | non-negative when every seed fuel product's total value is |
| QuickStats.NoGasBranchNoGasTotals | components/dashboard/quick-stats.tsx:57-61 | with no gas branch among the seeds every gas figure is zero |
| QuickStats.QuickStatsView | components/dashboard/quick-stats.tsx:21-210 | org owners and super admins see the all-branch view; anyone else sees one branch's figures exactly when a non-empty branch id is selected with type gas or fuel, else nothing; every profit is sales minus expenses and fuel expenses are zero |
| QuickStats.OwnerViewIgnoresSelection | components/dashboard/quick-stats.tsx:98-172 | the owner view does not depend on the branch selection |
| QuickStats.SeedOwnerView | components/dashboard/quick-stats.tsx:98-172 | over the seed data an owner sees gas 110,000 / 195,000 / 3,080,000 with profit −85,000 and fuel 325,000 / 0 / 6,925,000 with profit 325,000 |
| QuickStats.TotalFilterSplit | components/dashboard/quick-stats.tsx:30-53 | totals over two never-overlapping filters add up to the total over their union |
| QuickStats.TotalOfNone | components/dashboard/quick-stats.tsx:30-53 | a total over an empty selection is zero |
| QuickStats.TotalOfFilter | components/dashboard/quick-stats.tsx:30-53 | the total over a filter equals the total with rejected records counted as zero |
| QuickStats.GasAndFuelIdsAreDisjoint | components/dashboard/quick-stats.tsx:23-28 | with unique branch ids no id is in both the gas and the fuel set |
| QuickStats.EmptyIdSetSumsToZero | components/dashboard/quick-stats.tsx:30-53 | every sum over the empty id set is zero |
| QuickStats.SumsAreAdditive | components/dashboard/quick-stats.tsx:30-53 | each of the five sums over two disjoint id sets is the sum of the two sums |
| QuickStats.RefillsCountInNeither | components/dashboard/quick-stats.tsx:30-38 | a refill changes neither the sales nor the expenses |
| QuickStats.SaleAndPurchaseCountOnce | components/dashboard/quick-stats.tsx:30-38 | a sale of a counted branch adds its amount to sales only, a purchase to expenses only |
| QuickStats.FuelTotals | components/dashboard/quick-stats.tsx:62-66 | fuel expenses are always zero |
| QuickStats.BranchTotals | components/dashboard/quick-stats.tsx:68-96 | figures exist exactly when a non-empty branch id is selected with type gas or fuel; profit is sales minus expenses; fuel expenses are zero |
| QuickStats.GasBranchFiguresAddUp | components/dashboard/quick-stats.tsx:57-96 | with two gas branches, their selected-branch figures add up to the all-gas totals |
| QuickStats.IdsOfTypeExactly | components/dashboard/quick-stats.tsx:23-28 | the ids of one branch type are exactly a given set when branch type and set membership agree and every id in the set names a branch |
| QuickStats.SeedIdSets | components/dashboard/quick-stats.tsx:23-28 | over the seed branches the gas ids are branches 1 and 2, the fuel ids 3 and 4 |
| QuickStats.SeedTransactionSums | lib/mock-data.ts:166-187 | seed gas sales are 110,000 and purchases 195,000, both at branch 1 |
| QuickStats.SeedCylinderSums | lib/mock-data.ts:122-163 | seed cylinder stock is worth 2,420,000 at branch 1 and 660,000 at branch 2 |
| QuickStats.SeedFuelSums | lib/mock-data.ts:190-258 | seed fuel shift sales are 325,000 and fuel stock 6,925,000, at branch 3 |
| QuickStats.SeedTotals | components/dashboard/quick-stats.tsx:57-66 | all-branch view: gas 110,000 / 195,000 / 3,080,000 with profit −85,000; fuel 325,000 / 0 / 6,925,000 with profit equal to sales |
| QuickStats.SeedBranchFigures | components/dashboard/quick-stats.tsx:68-96 | the selected-branch figures of seed branches 1 to 4 |
| QuickStats.SeedGasBranchFigures | components/dashboard/quick-stats.tsx:68-96 | branch 1 as gas: sales 110000, expenses 195000, inventory 2420000, profit -85000; branch 2 as gas: only its 660000 of inventory |
| QuickStats.SeedFuelBranchFigures | components/dashboard/quick-stats.tsx:68-96 | branch 3 as fuel: sales and profit 325000, inventory 6925000; branch 4 as fuel: all zero |
| AuthContext.FindByRole | context/auth-context.tsx:45 | finds a user with the role exactly when one exists |
| AuthContext.FindByRoleFindsFirst | context/auth-context.tsx:45 | the user found is the first with the role |
| AuthContext.FindBranch | context/auth-context.tsx:63 | finds a branch with the id exactly when one exists |
| AuthContext.Hydrated | context/auth-context.tsx:16-35 | hydration either keeps the three keys or clears all of them, and clears them only without touching the state; it changes the user only when the user key holds a `null` or user value |
| AuthContext.LoggedIn | context/auth-context.tsx:37-72 | a role with no mock user changes nothing; otherwise the found user, under the given email, is signed in and stored; the selection is either kept whole or set to a branch id and type stored alike |
| AuthContext.LoggedOut | context/auth-context.tsx:74-81 | after logout nobody is authenticated |
| AuthContext.BranchSelected | context/auth-context.tsx:83-88 | selecting a branch leaves the user, in state and in storage, alone |
| AuthContext.LoginWithoutMockUserChangesNothing | context/auth-context.tsx:45-47 | a role with no mock user changes nothing |
| AuthContext.LoginSignsInFirstUserWithRole | context/auth-context.tsx:45-54 | login signs in and stores the first user with the role, with the given email |
| AuthContext.LoginStoresFoundUser | context/auth-context.tsx:48-54 | whatever the selection, login stores the found user under the given email |
| AuthContext.LoginWithBranchSelectsIt | context/auth-context.tsx:56-60 | a non-empty branch id with a branch type is selected exactly, in state and storage |
| AuthContext.OwnerLoginKeepsSelection | context/auth-context.tsx:56-61 | without an explicit selection, owners and super admins keep the previous selection |
| AuthContext.LoginSelectsFoundBranch | context/auth-context.tsx:61-70 | for a role other than owner or super admin, a found first assigned branch is selected with its type |
| AuthContext.StaffLoginAutoSelects | context/auth-context.tsx:61-70 | otherwise the first assigned branch and its type are selected when it exists, else the selection is kept |
| AuthContext.EveryRoleHasMockUser | lib/mock-data.ts:4-55 | every role has a seed user |
| AuthContext.SeedBranchLookup | lib/mock-data.ts:78-119 | seed branches 1 and 3 are found by id, as gas and fuel |
| AuthContext.SeedFindByRole | lib/mock-data.ts:4-55 | each role finds its seed user |
| AuthContext.SeedStaffAutoSelection | context/auth-context.tsx:61-70 | gas manager and sales staff get branch 1 as gas, the fuel manager branch 3 as fuel |
| AuthContext.SeedUserTenant | lib/mock-data.ts:4-55 | the seed super admin belongs to `tenant-1`, every other seed user to `tenant-2` |
| AuthContext.SeedLoginTenant | lib/mock-data.ts:4-55 | after login the stores use `tenant-1` for the super admin and `tenant-2` for every other role |
| AuthContext.LogoutIsIdempotent | context/auth-context.tsx:74-81 | logout clears state and all three keys, and twice is once |
| AuthContext.HydrateWithoutUserKeepsState | context/auth-context.tsx:22-27 | without a non-empty user key hydration changes nothing, so no branch is restored |
| AuthContext.HydrateParseErrorClearsKeys | context/auth-context.tsx:28-33 | an unparsable user key clears all three keys and leaves the state exactly as it was |
| AuthContext.OperationsKeepConsistency | context/auth-context.tsx:37-88 | login, logout and selecting a non-empty branch keep state and storage in agreement |
| AuthContext.ReloadRestoresSession | context/auth-context.tsx:16-35 | a signed-in, consistent session is restored exactly by hydration on the next mount |
| AuthContext.EmptyBranchIdIsLostOnReload | context/auth-context.tsx:25 | a selected empty branch id is not restored on reload |
| AuthContext.AuthProvider.constructor | context/auth-context.tsx:10-13 | first render: not mounted, no user, no selection |
| AuthContext.AuthProvider.Hydrate | context/auth-context.tsx:16-35 | the new state and keys are `Hydrated` of the old; mounted afterwards |
| AuthContext.AuthProvider.Login | context/auth-context.tsx:37-72 | the new state and keys are `LoggedIn` of the old, over the seed users and branches |
| AuthContext.AuthProvider.SetSelection | context/auth-context.tsx:57-60 | sets the branch id and type in state and storage |
| AuthContext.AuthProvider.Logout | context/auth-context.tsx:74-81 | the new state and keys are `LoggedOut` of the old |
| AuthContext.AuthProvider.SelectBranch | context/auth-context.tsx:83-88 | the new state and keys are `BranchSelected` of the old |

## Left out

- **Server-side rendering.** The `typeof window === 'undefined'` guards are not
  modelled. They only matter when rendering on the server, where every read
  returns `[]` and every write does nothing.
- **JSON serialisation.** Only two facts about a stored string are modelled:
  whether it parses to an array, and, for the user key, whether it is blank,
  unparsable, `null` or a user object. A stored user that parses to some other
  JSON value is not modelled.
- **Storage failures.** Quota and security errors thrown by `setItem` are not
  modelled.
- **ISO strings.** Dates and timestamps are integers.
  - The `new Date(...).getTime()` comparator and the string comparison of
    `YYYY-MM-DD` dates in the activity query are both integer order here. They
    agree for well-formed ISO strings.
  - An unparsable date (which gives `NaN`) is not modelled.
  - An empty date string, which is falsy, is represented by an absent bound.
- **Amounts.** Amounts, quantities and prices are integers. Floating-point
  rounding is not modelled.
- **One clock reading.** `addNotification` reads the clock twice (`Date.now()`
  and `new Date()`). The model uses one reading `now` for both. `Date.now()`
  itself is a parameter.
- **Sort stability.** `Sorting.SortDesc` is a stable insertion sort. Its
  stability is not stated as a contract; only order and permutation are proved.
- **Returned array aliasing.** The unfiltered activity query returns the
  module-level array itself. The model returns the sorted sequence and updates
  the log to the same value. Later aliasing through the returned array is not
  captured.
- **Display code.** Notably:
  - `formatMoney` and `toLocaleString`;
  - `MetricCard`;
  - the `mounted` guard that renders nothing before hydration (only the flag is
    modelled);
  - `useAuth`'s error outside a provider;
  - `sessionStorage` and `setTimeout` in pages.
- **Unused seed data.** `mockTenants`, `mockFuelPumps`, `mockTenantsExtended` and
  `mockActivityLogs` are static data that no modelled operation reads.
- **Other files.** `lib/api.ts` is not part of this model.
- **Concurrency.** Two tabs writing the same key are not modelled; the last
  write wins in the browser.
- **AuthContext.AuthProvider.Login** ignores the password argument, as the
  source does. There is no credential check to model.
