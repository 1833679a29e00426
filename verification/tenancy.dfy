/** Tenant resolution and tenant-scoped storage keys, as repeated verbatim in
    each of the four stores. */
module Tenancy {
  import opened Common
  import opened Records
  import opened Storage

  const GlobalTenant: string := "global"

  /** The cached entry parses to a user whose `tenant_id` is non-empty. */
  predicate NamesTenant(entry: Option<UserEntry>)
  {
    entry.Some? && entry.value.UserJson? && entry.value.user.tenantId != ""
  }

  /** `getTenantId()`: the `tenant_id` of the cached user, or `"global"` when
      there is no cached user, it is blank or fails to parse (the catch also
      covers reading a field of `null`), or its `tenant_id` is empty. */
  function TenantId(entry: Option<UserEntry>): (t: string)
    ensures t != ""
    ensures NamesTenant(entry) ==> t == entry.value.user.tenantId
    ensures !NamesTenant(entry) ==> t == GlobalTenant
  {
    match entry
    case Some(UserJson(u)) => if u.tenantId != "" then u.tenantId else GlobalTenant
    case _ => GlobalTenant
  }

  /** `${prefix}_${tenant}` */
  function ScopedKey(prefix: string, tenant: string): string
  {
    prefix + "_" + tenant
  }

  /** Different tenants never share a storage key. */
  lemma ScopedKeyInjective(prefix: string, t1: string, t2: string)
    ensures ScopedKey(prefix, t1) == ScopedKey(prefix, t2) ==> t1 == t2
  {
    var k1, k2 := ScopedKey(prefix, t1), ScopedKey(prefix, t2);
    assert k1[|prefix| + 1..] == t1;
    assert k2[|prefix| + 1..] == t2;
  }

  /** Two cached user entries share a store's key space exactly when they
      resolve to the same tenant: every entry without a usable `tenant_id`
      shares the `"global"` space (with a user whose `tenant_id` is literally
      `"global"`), and two users with `tenant_id`s share it exactly when the
      ids are equal. */
  lemma TenantKeySpaces(prefix: string, e1: Option<UserEntry>, e2: Option<UserEntry>)
    ensures ScopedKey(prefix, TenantId(e1)) == ScopedKey(prefix, TenantId(e2)) <==> TenantId(e1) == TenantId(e2)
    ensures !NamesTenant(e1) && !NamesTenant(e2) ==>
              ScopedKey(prefix, TenantId(e1)) == ScopedKey(prefix, TenantId(e2))
    ensures NamesTenant(e1) && NamesTenant(e2) ==>
              (ScopedKey(prefix, TenantId(e1)) == ScopedKey(prefix, TenantId(e2))
               <==> e1.value.user.tenantId == e2.value.user.tenantId)
    ensures NamesTenant(e1) && e1.value.user.tenantId == GlobalTenant && !NamesTenant(e2) ==>
              ScopedKey(prefix, TenantId(e1)) == ScopedKey(prefix, TenantId(e2))
  {
    ScopedKeyInjective(prefix, TenantId(e1), TenantId(e2));
  }

  /** A tenant key is never the untenanted legacy key. */
  lemma ScopedKeyIsNotLegacy(prefix: string, tenant: string)
    ensures ScopedKey(prefix, tenant) != prefix
  {
    assert |ScopedKey(prefix, tenant)| > |prefix|;
  }

  /** Writing one tenant's key leaves every other tenant's read, legacy
      fallback included, exactly as it was. */
  lemma WriteIsTenantLocal<T>(m: map<string, Slot<T>>, prefix: string, tenant: string, other: string, v: Slot<T>)
    requires other != tenant
    ensures ReadWithLegacy(m[ScopedKey(prefix, tenant) := v], ScopedKey(prefix, other), prefix)
         == ReadWithLegacy(m, ScopedKey(prefix, other), prefix)
  {
    ScopedKeyInjective(prefix, tenant, other);
    ScopedKeyIsNotLegacy(prefix, tenant);
  }
}
