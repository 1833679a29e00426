/** The branch store: per-tenant stored branches layered over the seed
    branches, plus a per-tenant list of removed ids that hides a branch
    wherever it comes from and that no operation ever shrinks. */
module BranchStore {
  import opened Common
  import opened Records
  import opened Storage
  import opened Tenancy
  import MockData

  /** Also the legacy (untenanted) keys. */
  const StoragePrefix: string := "energyflow_custom_branches"
  const RemovedPrefix: string := "energyflow_removed_branches"

  function StorageKey(tenant: string): string { ScopedKey(StoragePrefix, tenant) }
  function RemovedKey(tenant: string): string { ScopedKey(RemovedPrefix, tenant) }

  /** `getStoredBranches` for a tenant, legacy fallback included. */
  function ReadStored(bm: map<string, Slot<Branch>>, tenant: string): seq<Branch>
  {
    ReadWithLegacy(bm, StorageKey(tenant), StoragePrefix)
  }

  /** `getRemovedIds` for a tenant, legacy fallback included. */
  function ReadRemoved(rm: map<string, Slot<string>>, tenant: string): seq<string>
  {
    ReadWithLegacy(rm, RemovedKey(tenant), RemovedPrefix)
  }

  function StoredBranches(ls: LocalStorage): seq<Branch>
    reads ls
  {
    ReadStored(ls.branches, TenantId(ls.userEntry))
  }

  function RemovedIds(ls: LocalStorage): seq<string>
    reads ls
  {
    ReadRemoved(ls.removedBranches, TenantId(ls.userEntry))
  }

  /** `saveStoredBranches`: overwrite the current tenant's key, nothing else. */
  method SaveStoredBranches(ls: LocalStorage, branches: seq<Branch>)
    modifies ls`branches
    ensures ls.branches == old(ls.branches)[StorageKey(TenantId(ls.userEntry)) := Items(branches)]
    ensures StoredBranches(ls) == branches
  {
    ls.branches := ls.branches[StorageKey(TenantId(ls.userEntry)) := Items(branches)];
  }

  /** `saveRemovedIds` */
  method SaveRemovedIds(ls: LocalStorage, ids: seq<string>)
    modifies ls`removedBranches
    ensures ls.removedBranches == old(ls.removedBranches)[RemovedKey(TenantId(ls.userEntry)) := Items(ids)]
    ensures RemovedIds(ls) == ids
  {
    ls.removedBranches := ls.removedBranches[RemovedKey(TenantId(ls.userEntry)) := Items(ids)];
  }

  // ---------------------------------------------------------------------
  // Listing
  // ---------------------------------------------------------------------

  function NotRemoved(removed: set<string>): Branch -> bool
  {
    (b: Branch) => b.id !in removed
  }

  function FreshSeed(existing: set<string>, removed: set<string>): Branch -> bool
  {
    (b: Branch) => b.id !in existing && b.id !in removed
  }

  /** The stored branches that are not removed, in stored order, then the
      seed branches that are neither stored nor removed, in seed order. */
  function Merged(stored: seq<Branch>, removed: set<string>, seed: seq<Branch>): (r: seq<Branch>)
    ensures |r| <= |stored| + |seed|
    ensures forall i :: 0 <= i < |r| ==> r[i].id !in removed
  {
    Filter(stored, NotRemoved(removed)) + Filter(seed, FreshSeed(Ids(stored, BranchId), removed))
  }

  /** A branch is listed exactly when its id is not removed and it is
      stored, or it is a seed branch whose id is not stored. */
  lemma MergedMembership(stored: seq<Branch>, removed: set<string>, seed: seq<Branch>, b: Branch)
    ensures b in Merged(stored, removed, seed) <==>
      b.id !in removed && (b in stored || (b in seed && b.id !in Ids(stored, BranchId)))
  {
    var front := Filter(stored, NotRemoved(removed));
    var back := Filter(seed, FreshSeed(Ids(stored, BranchId), removed));
    assert b in front + back <==> b in front || b in back;
  }

  /** `getAllBranches` as a function of the stored state. */
  function AllBranches(bm: map<string, Slot<Branch>>, rm: map<string, Slot<string>>,
                       tenant: string, seed: seq<Branch>): seq<Branch>
  {
    Merged(ReadStored(bm, tenant), Elements(ReadRemoved(rm, tenant)), seed)
  }

  /** `getAllBranches`: read the tenant's lists and merge them with the seed. */
  method GetAllBranches(ls: LocalStorage, loadTime: int) returns (merged: seq<Branch>)
    ensures merged == AllBranches(ls.branches, ls.removedBranches, TenantId(ls.userEntry),
                                  MockData.MockBranches(loadTime))
  {
    var stored := StoredBranches(ls);
    var removed := Elements(RemovedIds(ls));
    merged := MergeBranches(stored, removed, MockData.MockBranches(loadTime));
  }

  /** The body of `getAllBranches`: filter the stored list, then push the
      seed branches that are neither stored nor removed. */
  method MergeBranches(stored: seq<Branch>, removed: set<string>, seed: seq<Branch>) returns (merged: seq<Branch>)
    ensures merged == Merged(stored, removed, seed)
  {
    var existing := Ids(stored, BranchId);
    ghost var front := Filter(stored, NotRemoved(removed));
    ghost var keep := FreshSeed(existing, removed);
    merged := Filter(stored, NotRemoved(removed));
    var i := 0;
    while i < |seed|
      invariant 0 <= i <= |seed|
      invariant merged == front + Filter(seed[..i], keep)
    {
      FilterPushStep(front, seed, i, keep, merged);
      if seed[i].id !in existing && seed[i].id !in removed {
        merged := merged + [seed[i]];
      }
      i := i + 1;
    }
    assert seed[..i] == seed;
  }

  /** With unique ids in storage and in the seed, every listed id is unique. */
  lemma MergedUniqueIds(stored: seq<Branch>, removed: set<string>, seed: seq<Branch>)
    requires UniqueIds(stored, BranchId) && UniqueIds(seed, BranchId)
    ensures UniqueIds(Merged(stored, removed, seed), BranchId)
  {
    var existing := Ids(stored, BranchId);
    FilterUniqueIds(stored, NotRemoved(removed), BranchId);
    FilterUniqueIds(seed, FreshSeed(existing, removed), BranchId);
    ConcatUniqueIds(Filter(stored, NotRemoved(removed)), Filter(seed, FreshSeed(existing, removed)), BranchId);
  }

  // ---------------------------------------------------------------------
  // Writes
  // ---------------------------------------------------------------------

  /** `addBranch`: prepend, without looking for an existing id. */
  function AddedStored(bm: map<string, Slot<Branch>>, tenant: string, b: Branch): (r: map<string, Slot<Branch>>)
    ensures ReadStored(r, tenant) == [b] + ReadStored(bm, tenant)
  {
    bm[StorageKey(tenant) := Items([b] + ReadStored(bm, tenant))]
  }

  /** `stored.map(b => b.id === u.id ? u : b)` */
  function ReplaceById(s: seq<Branch>, u: Branch): (r: seq<Branch>)
    ensures |r| == |s|
    ensures forall i :: 0 <= i < |s| ==> (s[i].id == u.id ==> r[i] == u) && (s[i].id != u.id ==> r[i] == s[i])
  {
    seq(|s|, i requires 0 <= i < |s| => if s[i].id == u.id then u else s[i])
  }

  /** Replacing by id keeps the set of stored ids, changes nothing when no
      entry has the id, and replacing twice is replacing once. */
  lemma ReplaceByIdKeepsIds(s: seq<Branch>, u: Branch)
    ensures u.id in Ids(s, BranchId) ==> Ids(ReplaceById(s, u), BranchId) == Ids(s, BranchId)
    ensures u.id !in Ids(s, BranchId) ==> ReplaceById(s, u) == s
    ensures ReplaceById(ReplaceById(s, u), u) == ReplaceById(s, u)
  {
    var r := ReplaceById(s, u);
    forall k | k in Ids(r, BranchId) ensures k in Ids(s, BranchId) {
      var x :| x in r && x.id == k;
      var i :| 0 <= i < |r| && r[i] == x;
      assert s[i] in s && BranchId(s[i]) == k;
    }
    forall k | k in Ids(s, BranchId) ensures k in Ids(r, BranchId) {
      var x :| x in s && x.id == k;
      var i :| 0 <= i < |s| && s[i] == x;
      assert r[i] in r && BranchId(r[i]) == k;
    }
    if u.id !in Ids(s, BranchId) {
      forall i | 0 <= i < |s| ensures r[i] == s[i] {
        assert s[i] in s;
      }
    }
  }

  /** Updating a branch twice stores what updating it once stores. */
  lemma UpdateBranchIdempotent(bm: map<string, Slot<Branch>>, tenant: string, u: Branch)
    ensures UpdatedStored(UpdatedStored(bm, tenant, u), tenant, u) == UpdatedStored(bm, tenant, u)
  {
    var stored := ReadStored(bm, tenant);
    var once := UpdatedStored(bm, tenant, u);
    var after := ReadStored(once, tenant);
    assert u.id in Ids(after, BranchId);
    if u.id in Ids(stored, BranchId) {
      ReplaceByIdKeepsIds(stored, u);
      assert after == ReplaceById(stored, u);
    } else {
      assert after == [u] + stored;
      assert ReplaceById(after, u) == [u] + ReplaceById(stored, u);
      ReplaceByIdKeepsIds(stored, u);
    }
  }

  /** `updateBranch`: replace every stored branch with the same id in place,
      or prepend when the id is not stored. Either way `u` is stored. */
  function UpdatedStored(bm: map<string, Slot<Branch>>, tenant: string, u: Branch): (r: map<string, Slot<Branch>>)
    ensures var before, after := ReadStored(bm, tenant), ReadStored(r, tenant);
      && u in after
      && (u.id in Ids(before, BranchId) ==>
            && |after| == |before|
            && forall i :: 0 <= i < |before| ==>
                 (before[i].id == u.id ==> after[i] == u) && (before[i].id != u.id ==> after[i] == before[i]))
      && (u.id !in Ids(before, BranchId) ==> after == [u] + before)
  {
    var stored := ReadStored(bm, tenant);
    if u.id in Ids(stored, BranchId) then
      var next := ReplaceById(stored, u);
      var i :| 0 <= i < |stored| && stored[i].id == u.id;
      assert next[i] == u;
      bm[StorageKey(tenant) := Items(next)]
    else
      bm[StorageKey(tenant) := Items([u] + stored)]
  }

  function NotId(id: string): Branch -> bool
  {
    (b: Branch) => b.id != id
  }

  /** `removeBranch`, stored half: every stored branch with that id is dropped,
      every other one kept in order. */
  function RemovedStored(bm: map<string, Slot<Branch>>, tenant: string, id: string): (r: map<string, Slot<Branch>>)
    ensures ReadStored(r, tenant) == Filter(ReadStored(bm, tenant), NotId(id))
    ensures forall b :: b in ReadStored(r, tenant) <==> b in ReadStored(bm, tenant) && b.id != id
  {
    bm[StorageKey(tenant) := Items(Filter(ReadStored(bm, tenant), NotId(id)))]
  }

  /** `removeBranch`, removed-id half: `[...new Set(ids).add(id)]`. The saved
      list has no duplicates and holds exactly the old ids plus `id`. */
  function RemovedIdList(rm: map<string, Slot<string>>, tenant: string, id: string): (r: map<string, Slot<string>>)
    ensures NoDup(ReadRemoved(r, tenant))
    ensures Elements(ReadRemoved(r, tenant)) == Elements(ReadRemoved(rm, tenant)) + {id}
  {
    rm[RemovedKey(tenant) := Items(Dedup(ReadRemoved(rm, tenant) + [id]))]
  }

  method AddBranch(ls: LocalStorage, b: Branch)
    modifies ls`branches
    ensures ls.branches == AddedStored(old(ls.branches), TenantId(ls.userEntry), b)
  {
    var stored := StoredBranches(ls);
    SaveStoredBranches(ls, [b] + stored);
  }

  method UpdateBranch(ls: LocalStorage, updated: Branch)
    modifies ls`branches
    ensures ls.branches == UpdatedStored(old(ls.branches), TenantId(ls.userEntry), updated)
  {
    var stored := StoredBranches(ls);
    var existing := Ids(stored, BranchId);
    if updated.id in existing {
      SaveStoredBranches(ls, ReplaceById(stored, updated));
      return;
    }
    SaveStoredBranches(ls, [updated] + stored);
  }

  method RemoveBranch(ls: LocalStorage, branchId: string)
    modifies ls`branches, ls`removedBranches
    ensures ls.branches == RemovedStored(old(ls.branches), TenantId(ls.userEntry), branchId)
    ensures ls.removedBranches == RemovedIdList(old(ls.removedBranches), TenantId(ls.userEntry), branchId)
  {
    var stored := StoredBranches(ls);
    SaveStoredBranches(ls, Filter(stored, NotId(branchId)));
    var removed := RemovedIds(ls);
    SaveRemovedIds(ls, Dedup(removed + [branchId]));
  }

  // ---------------------------------------------------------------------
  // Properties
  // ---------------------------------------------------------------------

  /** Removing the same id twice leaves the same storage as removing it once. */
  lemma RemoveBranchIdempotent(bm: map<string, Slot<Branch>>, rm: map<string, Slot<string>>,
                               tenant: string, id: string)
    ensures RemovedStored(RemovedStored(bm, tenant, id), tenant, id) == RemovedStored(bm, tenant, id)
    ensures RemovedIdList(RemovedIdList(rm, tenant, id), tenant, id) == RemovedIdList(rm, tenant, id)
  {
    FilterIdempotent(ReadStored(bm, tenant), NotId(id));
    RemovedIdListIdempotent(rm, tenant, id);
  }

  /** Adding an id already in the removed list saves the same list. */
  lemma RemovedIdListIdempotent(rm: map<string, Slot<string>>, tenant: string, id: string)
    ensures RemovedIdList(RemovedIdList(rm, tenant, id), tenant, id) == RemovedIdList(rm, tenant, id)
  {
    var once := Dedup(ReadRemoved(rm, tenant) + [id]);
    ReAddKeepsSlot(rm, RemovedKey(tenant), once, id);
  }

  /** Saving the de-duplicated list plus an id it already holds rewrites the
      slot with what it already holds. */
  lemma ReAddKeepsSlot(rm: map<string, Slot<string>>, key: string, once: seq<string>, id: string)
    requires NoDup(once) && id in once
    ensures var r1 := rm[key := Items(once)];
      r1[key := Items(Dedup(ReadWithLegacy(r1, key, RemovedPrefix) + [id]))] == r1
  {
    SavedListReadsBack(rm, key, RemovedPrefix, once);
    DedupReAdd(once, id);
  }

  /** Stored half of the listing after a removal. */
  lemma RemovalOnStored(stored: seq<Branch>, removed: set<string>, id: string)
    ensures Filter(Filter(stored, NotId(id)), NotRemoved(removed + {id}))
         == Filter(Filter(stored, NotRemoved(removed)), NotId(id))
  {
    FilterFilter(stored, NotId(id), NotRemoved(removed + {id}), NotRemoved(removed + {id}));
    FilterFilter(stored, NotRemoved(removed), NotId(id), NotRemoved(removed + {id}));
  }

  /** Dropping the branches with `id` drops exactly `id` from the stored ids. */
  lemma IdsAfterRemoval(stored: seq<Branch>, id: string)
    ensures Ids(Filter(stored, NotId(id)), BranchId) == Ids(stored, BranchId) - {id}
  {
    var stored' := Filter(stored, NotId(id));
    forall k ensures k in Ids(stored', BranchId) <==> k in Ids(stored, BranchId) - {id} {
      if k in Ids(stored, BranchId) - {id} {
        var x :| x in stored && x.id == k;
        assert x in stored';
      }
    }
  }

  /** Seed half of the listing after a removal. */
  lemma RemovalOnSeed(stored: seq<Branch>, removed: set<string>, id: string, seed: seq<Branch>)
    ensures Filter(seed, FreshSeed(Ids(Filter(stored, NotId(id)), BranchId), removed + {id}))
         == Filter(Filter(seed, FreshSeed(Ids(stored, BranchId), removed)), NotId(id))
  {
    var existing := Ids(stored, BranchId);
    IdsAfterRemoval(stored, id);
    FilterExt(seed, FreshSeed(Ids(Filter(stored, NotId(id)), BranchId), removed + {id}),
              FreshSeed(existing, removed + {id}));
    FilterFilter(seed, FreshSeed(existing, removed), NotId(id), FreshSeed(existing, removed + {id}));
  }

  /** After `removeBranch(id)` the listing is the old listing without the
      branches carrying that id, whether they came from storage or the seed. */
  lemma RemoveBranchHidesExactly(bm: map<string, Slot<Branch>>, rm: map<string, Slot<string>>,
                                 tenant: string, id: string, seed: seq<Branch>)
    ensures AllBranches(RemovedStored(bm, tenant, id), RemovedIdList(rm, tenant, id), tenant, seed)
         == Filter(AllBranches(bm, rm, tenant, seed), NotId(id))
  {
    var stored := ReadStored(bm, tenant);
    var removed := Elements(ReadRemoved(rm, tenant));
    assert ReadStored(RemovedStored(bm, tenant, id), tenant) == Filter(stored, NotId(id));
    assert Elements(ReadRemoved(RemovedIdList(rm, tenant, id), tenant)) == removed + {id};
    RemovalOnStored(stored, removed, id);
    RemovalOnSeed(stored, removed, id, seed);
    FilterConcat(Filter(stored, NotRemoved(removed)), Filter(seed, FreshSeed(Ids(stored, BranchId), removed)), NotId(id));
  }

  /** A removed id stays hidden: adding or updating a branch with that id
      afterwards does not bring it back, since nothing shrinks the removed set. */
  lemma RemovedIdStaysHidden(bm: map<string, Slot<Branch>>, rm: map<string, Slot<string>>,
                             tenant: string, b: Branch, seed: seq<Branch>)
    requires b.id in ReadRemoved(rm, tenant)
    ensures forall x :: x in AllBranches(AddedStored(bm, tenant, b), rm, tenant, seed) ==> x.id != b.id
    ensures forall x :: x in AllBranches(UpdatedStored(bm, tenant, b), rm, tenant, seed) ==> x.id != b.id
  {
    var removed := Elements(ReadRemoved(rm, tenant));
    forall x | x in AllBranches(AddedStored(bm, tenant, b), rm, tenant, seed)
      ensures x.id != b.id
    {
      MergedMembership(ReadStored(AddedStored(bm, tenant, b), tenant), removed, seed, x);
    }
    forall x | x in AllBranches(UpdatedStored(bm, tenant, b), rm, tenant, seed)
      ensures x.id != b.id
    {
      MergedMembership(ReadStored(UpdatedStored(bm, tenant, b), tenant), removed, seed, x);
    }
  }

  /** A branch added under an id that is not removed is listed first. */
  lemma AddedBranchListedFirst(bm: map<string, Slot<Branch>>, rm: map<string, Slot<string>>,
                               tenant: string, b: Branch, seed: seq<Branch>)
    requires b.id !in ReadRemoved(rm, tenant)
    ensures var all := AllBranches(AddedStored(bm, tenant, b), rm, tenant, seed);
      |all| > 0 && all[0] == b
  {
    var removed := Elements(ReadRemoved(rm, tenant));
    FilterConcat([b], ReadStored(bm, tenant), NotRemoved(removed));
    assert Filter([b], NotRemoved(removed)) == [b] by {
      assert [b][..0] == [];
    }
  }

  /** `addBranch` does not deduplicate: a stored branch with the same id as the
      added one stays listed beside it. */
  lemma AddBranchKeepsSameIdBranch(bm: map<string, Slot<Branch>>, rm: map<string, Slot<string>>,
                                   tenant: string, b: Branch, old_: Branch, seed: seq<Branch>)
    requires old_ in ReadStored(bm, tenant) && old_.id == b.id
    requires b.id !in ReadRemoved(rm, tenant)
    ensures b in AllBranches(AddedStored(bm, tenant, b), rm, tenant, seed)
    ensures old_ in AllBranches(AddedStored(bm, tenant, b), rm, tenant, seed)
  {
    var stored := ReadStored(AddedStored(bm, tenant, b), tenant);
    var removed := Elements(ReadRemoved(rm, tenant));
    MergedMembership(stored, removed, seed, b);
    MergedMembership(stored, removed, seed, old_);
  }

  /** Writes for one tenant leave every other tenant's stored and removed
      lists, and so its listing, exactly as they were. */
  lemma WritesAreTenantLocal(bm: map<string, Slot<Branch>>, rm: map<string, Slot<string>>,
                             tenant: string, other: string, b: Branch, id: string, seed: seq<Branch>)
    requires other != tenant
    ensures ReadStored(AddedStored(bm, tenant, b), other) == ReadStored(bm, other)
    ensures ReadStored(UpdatedStored(bm, tenant, b), other) == ReadStored(bm, other)
    ensures ReadStored(RemovedStored(bm, tenant, id), other) == ReadStored(bm, other)
    ensures ReadRemoved(RemovedIdList(rm, tenant, id), other) == ReadRemoved(rm, other)
    ensures AllBranches(RemovedStored(bm, tenant, id), RemovedIdList(rm, tenant, id), other, seed)
         == AllBranches(bm, rm, other, seed)
  {
    var stored := ReadStored(bm, tenant);
    WriteIsTenantLocal(bm, StoragePrefix, tenant, other, Items([b] + stored));
    if b.id in Ids(stored, BranchId) {
      WriteIsTenantLocal(bm, StoragePrefix, tenant, other, Items(ReplaceById(stored, b)));
    }
    WriteIsTenantLocal(bm, StoragePrefix, tenant, other, Items(Filter(stored, NotId(id))));
    WriteIsTenantLocal(rm, RemovedPrefix, tenant, other, Items(Dedup(ReadRemoved(rm, tenant) + [id])));
  }
}
