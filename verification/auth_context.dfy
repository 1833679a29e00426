/** The authentication context: the signed-in user and the selected branch,
    mirrored into three storage keys, with mock login, logout, branch
    selection and hydration from storage on mount. */
module AuthContext {
  import opened Common
  import opened Records
  import opened Storage
  import opened Tenancy
  import MockData

  /** The provider's React state. The branch type is the raw string, since
      hydration restores whatever text the key holds. */
  datatype Session = Session(user: Option<User>, branchId: Option<string>, branchType: Option<string>)

  /** `energyflow_user`, `energyflow_branch_id`, `energyflow_branch_type` */
  datatype Entries = Entries(user: Option<UserEntry>, branchId: Option<string>, branchType: Option<string>)

  datatype AuthState = AuthState(session: Session, entries: Entries)

  const SignedOut: Session := Session(None, None, None)
  const NoEntries: Entries := Entries(None, None, None)

  /** `!!user` */
  predicate IsAuthenticated(s: Session) { s.user.Some? }

  /** A string that is present and non-empty, i.e. truthy. */
  predicate Truthy(s: Option<string>) { s.Some? && s.value != "" }

  /** `Object.values(mockUsers).find(u => u.role === role)` */
  function FindByRole(users: seq<User>, role: UserRole): (r: Option<User>)
    ensures r.None? <==> forall u :: u in users ==> u.role != role
    ensures r.Some? ==> r.value in users && r.value.role == role
  {
    if users == [] then None
    else if users[0].role == role then Some(users[0])
    else
      assert forall u :: u in users ==> u == users[0] || u in users[1..];
      FindByRole(users[1..], role)
  }

  /** The user found is the first one with the role. */
  lemma {:induction false} FindByRoleFindsFirst(users: seq<User>, role: UserRole, i: nat)
    requires i < |users| && users[i].role == role
    requires forall j :: 0 <= j < i ==> users[j].role != role
    ensures FindByRole(users, role) == Some(users[i])
  {
    if i > 0 {
      FindByRoleFindsFirst(users[1..], role, i - 1);
    }
  }

  /** `mockBranches.find(b => b.id === id)` */
  function FindBranch(branches: seq<Branch>, id: string): (r: Option<Branch>)
    ensures r.None? <==> forall b :: b in branches ==> b.id != id
    ensures r.Some? ==> r.value in branches && r.value.id == id
  {
    if branches == [] then None
    else if branches[0].id == id then Some(branches[0])
    else
      assert forall b :: b in branches ==> b == branches[0] || b in branches[1..];
      FindBranch(branches[1..], id)
  }

  /** Set both halves of the selection, in state and in storage. */
  function WithBranch(st: AuthState, id: string, kind: string): AuthState
  {
    AuthState(st.session.(branchId := Some(id), branchType := Some(kind)),
              st.entries.(branchId := Some(id), branchType := Some(kind)))
  }

  /** `login(email, password, role, branchId?, branchType?)`. The password
      is never looked at. */
  function LoggedIn(st: AuthState, users: seq<User>, branches: seq<Branch>, email: string,
                    role: UserRole, branchId: Option<string>, branchType: Option<BranchType>): (r: AuthState)
    ensures FindByRole(users, role).None? ==> r == st
    ensures FindByRole(users, role).Some? ==>
      && r.session.user == Some(FindByRole(users, role).value.(email := email))
      && r.entries.user == Some(UserJson(r.session.user.value))
    ensures || (r.session.branchId == st.session.branchId && r.session.branchType == st.session.branchType
                && r.entries.branchId == st.entries.branchId && r.entries.branchType == st.entries.branchType)
            || (r.session.branchId.Some? && r.session.branchType.Some?
                && r.entries.branchId == r.session.branchId && r.entries.branchType == r.session.branchType)
  {
    match FindByRole(users, role)
    case None => st
    case Some(m) =>
      var u := m.(email := email);
      var signedIn := AuthState(st.session.(user := Some(u)), st.entries.(user := Some(UserJson(u))));
      if Truthy(branchId) && branchType.Some? then
        WithBranch(signedIn, branchId.value, BranchTypeName(branchType.value))
      else if role != OrgOwner && role != SuperAdmin && |m.assignedBranches| > 0 then
        match FindBranch(branches, m.assignedBranches[0])
        case None => signedIn
        case Some(b) => WithBranch(signedIn, b.id, BranchTypeName(b.kind))
      else signedIn
  }

  /** `logout()`: state and all three keys cleared. */
  function LoggedOut(st: AuthState): (r: AuthState)
    ensures !IsAuthenticated(r.session)
  {
    AuthState(SignedOut, NoEntries)
  }

  /** `selectBranch(branchId, branchType)` */
  function BranchSelected(st: AuthState, id: string, kind: BranchType): (r: AuthState)
    ensures r.session.user == st.session.user && r.entries.user == st.entries.user
  {
    WithBranch(st, id, BranchTypeName(kind))
  }

  /** Hydration restores a present, non-empty branch key into the state. */
  function Restored(s: Session, e: Entries, user: Option<User>): Session
  {
    Session(user,
            if Truthy(e.branchId) then e.branchId else s.branchId,
            if Truthy(e.branchType) then e.branchType else s.branchType)
  }

  /** The mount effect: nothing unless the user key is non-empty; a user
      entry that does not parse clears all three keys; otherwise the parsed
      value (possibly `null`) becomes the user and the branch keys are
      restored. */
  function Hydrated(st: AuthState): (r: AuthState)
    ensures r.entries == st.entries || r.entries == NoEntries
    ensures r.entries != st.entries ==> r.session == st.session
    ensures r.session.user != st.session.user ==>
      st.entries.user.Some? && (st.entries.user.value.JsonNull? || st.entries.user.value.UserJson?)
  {
    match st.entries.user
    case None => st
    case Some(Blank) => st
    case Some(Unparsable) => AuthState(st.session, NoEntries)
    case Some(JsonNull) => AuthState(Restored(st.session, st.entries, None), st.entries)
    case Some(UserJson(u)) => AuthState(Restored(st.session, st.entries, Some(u)), st.entries)
  }

  // ---------------------------------------------------------------------
  // Login
  // ---------------------------------------------------------------------

  /** A role no mock user has logs nobody in and changes nothing. */
  lemma LoginWithoutMockUserChangesNothing(st: AuthState, users: seq<User>, branches: seq<Branch>,
                                           email: string, role: UserRole,
                                           branchId: Option<string>, branchType: Option<BranchType>)
    requires forall u :: u in users ==> u.role != role
    ensures LoggedIn(st, users, branches, email, role, branchId, branchType) == st
  {
  }

  /** Login signs in the first mock user with the role, under the given
      email, and stores that same user. */
  lemma LoginSignsInFirstUserWithRole(st: AuthState, users: seq<User>, branches: seq<Branch>,
                                      email: string, role: UserRole,
                                      branchId: Option<string>, branchType: Option<BranchType>, i: nat)
    requires i < |users| && users[i].role == role
    requires forall j :: 0 <= j < i ==> users[j].role != role
    ensures var r := LoggedIn(st, users, branches, email, role, branchId, branchType);
      && r.session.user == Some(users[i].(email := email))
      && r.entries.user == Some(UserJson(users[i].(email := email)))
      && IsAuthenticated(r.session)
  {
    FindByRoleFindsFirst(users, role, i);
  }

  /** A truthy branch id together with a branch type is selected exactly. */
  lemma LoginWithBranchSelectsIt(st: AuthState, users: seq<User>, branches: seq<Branch>,
                                 email: string, role: UserRole, id: string, kind: BranchType)
    requires exists u :: u in users && u.role == role
    requires id != ""
    ensures var r := LoggedIn(st, users, branches, email, role, Some(id), Some(kind));
      && r.session.branchId == r.entries.branchId == Some(id)
      && r.session.branchType == r.entries.branchType == Some(BranchTypeName(kind))
  {
  }

  /** Without an explicit selection, owners and super admins keep whatever
      selection there was, in state and in storage. */
  lemma OwnerLoginKeepsSelection(st: AuthState, users: seq<User>, branches: seq<Branch>,
                                 email: string, role: UserRole,
                                 branchId: Option<string>, branchType: Option<BranchType>)
    requires role == OrgOwner || role == SuperAdmin
    requires !(Truthy(branchId) && branchType.Some?)
    ensures var r := LoggedIn(st, users, branches, email, role, branchId, branchType);
      && r.session.branchId == st.session.branchId && r.session.branchType == st.session.branchType
      && r.entries.branchId == st.entries.branchId && r.entries.branchType == st.entries.branchType
  {
  }

  /** Without an explicit selection, any other role gets its first assigned
      branch and that branch's type, when that branch exists; otherwise the
      selection is kept. */
  lemma StaffLoginAutoSelects(st: AuthState, users: seq<User>, branches: seq<Branch>,
                              email: string, role: UserRole,
                              branchId: Option<string>, branchType: Option<BranchType>)
    requires role != OrgOwner && role != SuperAdmin
    requires !(Truthy(branchId) && branchType.Some?)
    ensures var r := LoggedIn(st, users, branches, email, role, branchId, branchType);
      var m := FindByRole(users, role);
      && (m.Some? && |m.value.assignedBranches| > 0 && FindBranch(branches, m.value.assignedBranches[0]).Some? ==>
            var b := FindBranch(branches, m.value.assignedBranches[0]).value;
            && b in branches && b.id == m.value.assignedBranches[0]
            && r.session.branchId == r.entries.branchId == Some(b.id)
            && r.session.branchType == r.entries.branchType == Some(BranchTypeName(b.kind)))
      && (m.Some? && (|m.value.assignedBranches| == 0 || FindBranch(branches, m.value.assignedBranches[0]).None?) ==>
            && r.session.branchId == st.session.branchId && r.session.branchType == st.session.branchType
            && r.entries.branchId == st.entries.branchId && r.entries.branchType == st.entries.branchType)
  {
  }

  /** Every role has a mock user, so login with any role signs someone in. */
  lemma EveryRoleHasMockUser(loadTime: int, role: UserRole)
    ensures FindByRole(MockData.MockUsers(loadTime), role).Some?
  {
    var us := MockData.MockUsers(loadTime);
    assert us[SeedUserIndex(role)] in us;
  }

  /** The seed branches 1 and 3 are found by id, as gas and fuel. */
  lemma SeedBranchLookup(loadTime: int)
    ensures var bs := MockData.MockBranches(loadTime);
      && FindBranch(bs, "branch-1") == Some(bs[0]) && bs[0].id == "branch-1" && bs[0].kind == Gas
      && FindBranch(bs, "branch-3") == Some(bs[2]) && bs[2].id == "branch-3" && bs[2].kind == Fuel
  {
    var bs := MockData.MockBranches(loadTime);
    assert bs[1..][1..] == bs[2..];
  }

  /** Seed staff logins without an explicit branch: the gas manager and the
      sales staff get branch 1 as gas, the fuel manager branch 3 as fuel. */
  lemma SeedStaffAutoSelection(st: AuthState, loadTime: int, email: string, role: UserRole)
    requires role in {GasManager, FuelManager, SalesStaff}
    ensures var r := LoggedIn(st, MockData.MockUsers(loadTime), MockData.MockBranches(loadTime),
                              email, role, None, None);
      && r.session.branchId == Some(if role == FuelManager then "branch-3" else "branch-1")
      && r.session.branchType == Some(if role == FuelManager then "fuel" else "gas")
  {
    var users, bs := MockData.MockUsers(loadTime), MockData.MockBranches(loadTime);
    SeedFindByRole(loadTime, role);
    SeedBranchLookup(loadTime);
    var m := users[SeedUserIndex(role)];
    var b := if role == FuelManager then bs[2] else bs[0];
    assert m.assignedBranches[0] == b.id;
    LoginSelectsFoundBranch(st, users, bs, email, role, m, b);
  }

  /** The auto-selection step on its own: the found user's first assigned
      branch, once found, is selected with its type. */
  lemma LoginSelectsFoundBranch(st: AuthState, users: seq<User>, branches: seq<Branch>,
                                email: string, role: UserRole, m: User, b: Branch)
    requires role != OrgOwner && role != SuperAdmin
    requires FindByRole(users, role) == Some(m) && |m.assignedBranches| > 0
    requires FindBranch(branches, m.assignedBranches[0]) == Some(b)
    ensures var r := LoggedIn(st, users, branches, email, role, None, None);
      r.session.branchId == Some(b.id) && r.session.branchType == Some(BranchTypeName(b.kind))
  {
  }

  /** Where each role's user sits among the seed users. */
  function SeedUserIndex(role: UserRole): (i: nat)
    ensures i < 5
  {
    match role
    case SuperAdmin => 0
    case OrgOwner => 1
    case GasManager => 2
    case FuelManager => 3
    case SalesStaff => 4
  }

  /** Each role's login finds the seed user of that role. */
  lemma SeedFindByRole(loadTime: int, role: UserRole)
    ensures var users := MockData.MockUsers(loadTime);
      FindByRole(users, role) == Some(users[SeedUserIndex(role)])
  {
    var users := MockData.MockUsers(loadTime);
    var roles := [SuperAdmin, OrgOwner, GasManager, FuelManager, SalesStaff];
    assert forall j :: 0 <= j < |users| ==> users[j].role == roles[j];
    FindByRoleFindsFirst(users, role, SeedUserIndex(role));
  }

  /** After a seed login the stores work in the user's tenant: `tenant-1`
      for the super admin and `tenant-2` for everyone else. */
  lemma SeedLoginTenant(st: AuthState, loadTime: int, email: string, role: UserRole,
                        branchId: Option<string>, branchType: Option<BranchType>)
    ensures var r := LoggedIn(st, MockData.MockUsers(loadTime), MockData.MockBranches(loadTime),
                              email, role, branchId, branchType);
      TenantId(r.entries.user) == (if role == SuperAdmin then "tenant-1" else "tenant-2")
  {
    var users, bs := MockData.MockUsers(loadTime), MockData.MockBranches(loadTime);
    SeedFindByRole(loadTime, role);
    SeedUserTenant(loadTime, role);
    LoginStoresFoundUser(st, users, bs, email, role, branchId, branchType);
  }

  /** The seed user of each role belongs to `tenant-1` or `tenant-2`. */
  lemma SeedUserTenant(loadTime: int, role: UserRole)
    ensures MockData.MockUsers(loadTime)[SeedUserIndex(role)].tenantId
         == (if role == SuperAdmin then "tenant-1" else "tenant-2")
  {
  }

  /** Whatever the selection, login stores the found user under the email. */
  lemma LoginStoresFoundUser(st: AuthState, users: seq<User>, branches: seq<Branch>,
                             email: string, role: UserRole,
                             branchId: Option<string>, branchType: Option<BranchType>)
    requires FindByRole(users, role).Some?
    ensures LoggedIn(st, users, branches, email, role, branchId, branchType).entries.user
         == Some(UserJson(FindByRole(users, role).value.(email := email)))
  {
  }

  // ---------------------------------------------------------------------
  // Logout, selection, hydration
  // ---------------------------------------------------------------------

  /** Logging out twice is logging out once, whatever came before. */
  lemma LogoutIsIdempotent(st: AuthState)
    ensures LoggedOut(LoggedOut(st)) == LoggedOut(st)
    ensures LoggedOut(st).session == SignedOut && LoggedOut(st).entries == NoEntries
  {
  }

  /** No user key (or an empty one): hydration changes nothing, so a stored
      branch is not restored without a stored user. */
  lemma HydrateWithoutUserKeepsState(st: AuthState)
    requires st.entries.user.None? || st.entries.user == Some(Blank)
    ensures Hydrated(st) == st
  {
  }

  /** A user key that does not parse clears all three keys and leaves the
      state exactly as it was. */
  lemma HydrateParseErrorClearsKeys(st: AuthState)
    requires st.entries.user == Some(Unparsable)
    ensures Hydrated(st).entries == NoEntries
    ensures Hydrated(st).session == st.session
  {
  }

  /** The state and storage agree, and no stored branch key is empty. */
  predicate Consistent(st: AuthState)
  {
    && st.entries.user == (if st.session.user.Some? then Some(UserJson(st.session.user.value)) else None)
    && st.session.branchId == st.entries.branchId && st.session.branchType == st.entries.branchType
    && st.session.branchId != Some("") && st.session.branchType != Some("")
  }

  /** Login, logout and selecting a non-empty branch id keep state and
      storage in agreement (given seed branch ids that are non-empty). */
  lemma OperationsKeepConsistency(st: AuthState, users: seq<User>, branches: seq<Branch>,
                                  email: string, role: UserRole,
                                  branchId: Option<string>, branchType: Option<BranchType>,
                                  id: string, kind: BranchType)
    requires Consistent(st)
    requires forall b :: b in branches ==> b.id != ""
    requires id != ""
    ensures Consistent(LoggedIn(st, users, branches, email, role, branchId, branchType))
    ensures Consistent(LoggedOut(st))
    ensures Consistent(BranchSelected(st, id, kind))
  {
  }

  /** What a signed-in session stores, hydration on the next mount restores:
      a reload keeps the user and the selection. */
  lemma ReloadRestoresSession(st: AuthState)
    requires Consistent(st) && IsAuthenticated(st.session)
    ensures Hydrated(AuthState(SignedOut, st.entries)) == st
  {
  }

  /** Selecting an empty branch id is not restored by a reload. */
  lemma EmptyBranchIdIsLostOnReload(u: User, kind: BranchType)
    ensures var st := BranchSelected(AuthState(Session(Some(u), None, None), Entries(Some(UserJson(u)), None, None)), "", kind);
      && st.session.branchId == Some("")
      && Hydrated(AuthState(SignedOut, st.entries)).session.branchId == None
  {
  }

  // ---------------------------------------------------------------------
  // The provider
  // ---------------------------------------------------------------------

  /** `AuthProvider`: the React state, the `mounted` flag and the storage it
      mirrors into. */
  class AuthProvider {
    var mounted: bool
    var user: Option<User>
    var selectedBranchId: Option<string>
    var selectedBranchType: Option<string>
    const storage: LocalStorage
    /** When the seed data was loaded (the mock users' creation time). */
    const loadTime: int

    function State(): AuthState
      reads this, storage
    {
      AuthState(Session(user, selectedBranchId, selectedBranchType),
                Entries(storage.userEntry, storage.branchIdEntry, storage.branchTypeEntry))
    }

    /** The first render: not mounted, nobody signed in, nothing selected. */
    constructor (storage: LocalStorage, loadTime: int)
      ensures this.storage == storage && this.loadTime == loadTime
      ensures !mounted && user == None && selectedBranchId == None && selectedBranchType == None
    {
      this.storage := storage;
      this.loadTime := loadTime;
      mounted := false;
      user, selectedBranchId, selectedBranchType := None, None, None;
    }

    /** The mount effect. */
    method Hydrate()
      modifies this, storage`userEntry, storage`branchIdEntry, storage`branchTypeEntry
      ensures State() == Hydrated(old(State()))
      ensures mounted
    {
      var storedUser := storage.userEntry;
      var storedBranchId := storage.branchIdEntry;
      var storedBranchType := storage.branchTypeEntry;
      if storedUser.Some? && storedUser.value != Blank {
        match storedUser.value {
          case Unparsable =>
            storage.userEntry := None;
            storage.branchIdEntry := None;
            storage.branchTypeEntry := None;
          case JsonNull =>
            user := None;
            if Truthy(storedBranchId) { selectedBranchId := storedBranchId; }
            if Truthy(storedBranchType) { selectedBranchType := storedBranchType; }
          case UserJson(u) =>
            user := Some(u);
            if Truthy(storedBranchId) { selectedBranchId := storedBranchId; }
            if Truthy(storedBranchType) { selectedBranchType := storedBranchType; }
          case Blank =>
        }
      }
      mounted := true;
    }

    /** `login`, against the seed users and branches. */
    method Login(email: string, password: string, role: UserRole,
                 branchId: Option<string>, branchType: Option<BranchType>)
      modifies this`user, this`selectedBranchId, this`selectedBranchType
      modifies storage`userEntry, storage`branchIdEntry, storage`branchTypeEntry
      ensures State() == LoggedIn(old(State()), MockData.MockUsers(loadTime), MockData.MockBranches(loadTime),
                                   email, role, branchId, branchType)
    {
      var mockUser := FindByRole(MockData.MockUsers(loadTime), role);
      if mockUser.Some? {
        var updatedUser := mockUser.value.(email := email);
        user := Some(updatedUser);
        storage.userEntry := Some(UserJson(updatedUser));
        if Truthy(branchId) && branchType.Some? {
          SetSelection(branchId.value, BranchTypeName(branchType.value));
        } else if role != OrgOwner && role != SuperAdmin && |mockUser.value.assignedBranches| > 0 {
          var branch := FindBranch(MockData.MockBranches(loadTime), mockUser.value.assignedBranches[0]);
          if branch.Some? {
            SetSelection(branch.value.id, BranchTypeName(branch.value.kind));
          }
        }
      }
    }

    /** Set the selection in state and storage. */
    method SetSelection(id: string, kind: string)
      modifies this`selectedBranchId, this`selectedBranchType, storage`branchIdEntry, storage`branchTypeEntry
      ensures State() == WithBranch(old(State()), id, kind)
    {
      selectedBranchId := Some(id);
      selectedBranchType := Some(kind);
      storage.branchIdEntry := Some(id);
      storage.branchTypeEntry := Some(kind);
    }

    /** `logout` */
    method Logout()
      modifies this`user, this`selectedBranchId, this`selectedBranchType
      modifies storage`userEntry, storage`branchIdEntry, storage`branchTypeEntry
      ensures State() == LoggedOut(old(State()))
    {
      user, selectedBranchId, selectedBranchType := None, None, None;
      storage.userEntry := None;
      storage.branchIdEntry := None;
      storage.branchTypeEntry := None;
    }

    /** `selectBranch` */
    method SelectBranch(branchId: string, branchType: BranchType)
      modifies this`selectedBranchId, this`selectedBranchType, storage`branchIdEntry, storage`branchTypeEntry
      ensures State() == BranchSelected(old(State()), branchId, branchType)
    {
      SetSelection(branchId, BranchTypeName(branchType));
    }
  }
}
