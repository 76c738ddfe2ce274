/** The identity store behind ASP.NET Identity's `UserManager` and `RoleManager`, as the
    two core components see it: tables of rows that mutating calls append to, lookups
    over those tables, capability flags, and a trace of the mutating calls made.
    Whether a mutating call succeeds (password and name validation, duplicate checks,
    database errors) and which id a new entity receives are decided inside library code
    the core cannot see; an `Oracle` stands for those decisions. */
module IdentityStore {
  import opened Wrappers
  import opened Claims

  datatype RoleRow = RoleRow(id: string, name: string)
  datatype RoleClaimRow = RoleClaimRow(roleId: string, claim: Claim)
  datatype UserRow = UserRow(
    id: string, userName: string,
    email: Option<string>, emailConfirmed: bool,
    phoneNumber: Option<string>, phoneNumberConfirmed: bool)
  datatype UserClaimRow = UserClaimRow(userId: string, claim: Claim)
  datatype UserRoleRow = UserRoleRow(userId: string, roleName: string)

  datatype IdentityError = IdentityError(code: string, description: string)
  /** `IdentityResult`: success, or failure with its ordered error list. */
  datatype IdentityResult = Succeeded | Failed(errors: seq<IdentityError>)

  /** A mutating call, as recorded in the store's trace. */
  datatype Call =
    | MigrateCall
    | CreateRoleCall(role: RoleRow)
    | AddRoleClaimCall(roleId: string, claim: Claim)
    | CreateUserCall(user: UserRow, password: string)
    | AddClaimsCall(userId: string, claims: seq<Claim>)
    | AddToRoleCall(userId: string, roleName: string)

  /** The store's decisions: the outcome of the mutating call made when the trace has
      length `n`, and the id generated for an entity created at that point. */
  datatype Oracle = Oracle(decide: nat -> IdentityResult, freshId: nat -> string)

  /** `SupportsUserEmail`, `SupportsUserPhoneNumber`, `SupportsUserRole`. */
  datatype Capabilities = Capabilities(supportsEmail: bool, supportsPhoneNumber: bool, supportsRoles: bool)

  function RoleWithId(roles: seq<RoleRow>, id: string): (r: Option<RoleRow>)
    ensures r.Some? ==> r.value.id == id
  {
    if roles == [] then None
    else if roles[0].id == id then Some(roles[0])
    else RoleWithId(roles[1..], id)
  }

  function RoleNamed(roles: seq<RoleRow>, name: string): (r: Option<RoleRow>)
    ensures r.Some? ==> r.value.name == name
  {
    if roles == [] then None
    else if roles[0].name == name then Some(roles[0])
    else RoleNamed(roles[1..], name)
  }

  function UserNamed(users: seq<UserRow>, userName: string): (r: Option<UserRow>)
    ensures r.Some? ==> r.value.userName == userName
  {
    if users == [] then None
    else if users[0].userName == userName then Some(users[0])
    else UserNamed(users[1..], userName)
  }

  /** `FindByIdAsync` returns the first role with the id, and nothing only when none has it. */
  lemma {:induction false} RoleWithIdFindsFirst(roles: seq<RoleRow>, id: string)
    ensures var r := RoleWithId(roles, id);
      && (r.Some? ==> exists i | 0 <= i < |roles| :: roles[i] == r.value && forall j | 0 <= j < i :: roles[j].id != id)
      && (r.None? <==> forall i | 0 <= i < |roles| :: roles[i].id != id)
  {
    if roles != [] {
      RoleWithIdFindsFirst(roles[1..], id);
      assert forall i | 1 <= i < |roles| :: roles[i] == roles[1..][i - 1];
      if roles[0].id != id && RoleWithId(roles, id).Some? {
        var i :| 0 <= i < |roles[1..]| && roles[1..][i] == RoleWithId(roles, id).value
                 && forall j | 0 <= j < i :: roles[1..][j].id != id;
        assert roles[i + 1] == RoleWithId(roles, id).value;
      }
    }
  }

  /** `FindByNameAsync` on roles returns the first role with the name, and nothing only when none has it. */
  lemma {:induction false} RoleNamedFindsFirst(roles: seq<RoleRow>, name: string)
    ensures var r := RoleNamed(roles, name);
      && (r.Some? ==> exists i | 0 <= i < |roles| :: roles[i] == r.value && forall j | 0 <= j < i :: roles[j].name != name)
      && (r.None? <==> forall i | 0 <= i < |roles| :: roles[i].name != name)
  {
    if roles != [] {
      RoleNamedFindsFirst(roles[1..], name);
      assert forall i | 1 <= i < |roles| :: roles[i] == roles[1..][i - 1];
      if roles[0].name != name && RoleNamed(roles, name).Some? {
        var i :| 0 <= i < |roles[1..]| && roles[1..][i] == RoleNamed(roles, name).value
                 && forall j | 0 <= j < i :: roles[1..][j].name != name;
        assert roles[i + 1] == RoleNamed(roles, name).value;
      }
    }
  }

  /** `FindByNameAsync` on users returns the first user with the name, and nothing only when none has it. */
  lemma {:induction false} UserNamedFindsFirst(users: seq<UserRow>, userName: string)
    ensures var r := UserNamed(users, userName);
      && (r.Some? ==> exists i | 0 <= i < |users| :: users[i] == r.value && forall j | 0 <= j < i :: users[j].userName != userName)
      && (r.None? <==> forall i | 0 <= i < |users| :: users[i].userName != userName)
  {
    if users != [] {
      UserNamedFindsFirst(users[1..], userName);
      assert forall i | 1 <= i < |users| :: users[i] == users[1..][i - 1];
      if users[0].userName != userName && UserNamed(users, userName).Some? {
        var i :| 0 <= i < |users[1..]| && users[1..][i] == UserNamed(users, userName).value
                 && forall j | 0 <= j < i :: users[1..][j].userName != userName;
        assert users[i + 1] == UserNamed(users, userName).value;
      }
    }
  }

  /** A claim as the store keeps it. The store's claim tables hold only a type and a
      value, and `GetClaimsAsync` rebuilds each claim as `new Claim(type, value)`, so a
      claim reads back with a string value type whatever value type it was written with. */
  function Stored(c: Claim): (r: Claim)
    ensures r.claimType == c.claimType && r.value == c.value && r.valueType == StringValueType
    ensures r == c <==> c.valueType == StringValueType
  {
    StringClaim(c.claimType, c.value)
  }

  /** Each claim of a batch as the store keeps it, in order. */
  function StoredAll(cs: seq<Claim>): (r: seq<Claim>)
    ensures |r| == |cs|
    ensures forall i | 0 <= i < |cs| :: r[i] == Stored(cs[i])
  {
    seq(|cs|, i requires 0 <= i < |cs| => Stored(cs[i]))
  }

  /** A batch reads back unchanged exactly when every claim in it has a string value type. */
  lemma StoredAllUnchanged(cs: seq<Claim>)
    ensures StoredAll(cs) == cs <==> forall i | 0 <= i < |cs| :: cs[i].valueType == StringValueType
  {
    if forall i | 0 <= i < |cs| :: cs[i].valueType == StringValueType {
      assert forall i | 0 <= i < |cs| :: StoredAll(cs)[i] == cs[i];
    }
  }

  /** The claims recorded for the role with id `roleId`, in the order they were added, as
      `RoleManager.GetClaimsAsync` reads them back. */
  function ClaimsOfRole(rows: seq<RoleClaimRow>, roleId: string): seq<Claim> {
    if rows == [] then []
    else (if rows[0].roleId == roleId then [Stored(rows[0].claim)] else []) + ClaimsOfRole(rows[1..], roleId)
  }

  lemma {:induction false} ClaimsOfRoleAppend(a: seq<RoleClaimRow>, b: seq<RoleClaimRow>, roleId: string)
    ensures ClaimsOfRole(a + b, roleId) == ClaimsOfRole(a, roleId) + ClaimsOfRole(b, roleId)
  {
    if a == [] {
      assert a + b == b;
    } else {
      assert (a + b)[1..] == a[1..] + b;
      ClaimsOfRoleAppend(a[1..], b, roleId);
    }
  }

  /** After `RoleManager.AddClaimAsync(role, claim)` succeeds, reading the role's claims
      back gives the claims it had, then the new one as stored; every other role's claims
      are unchanged. */
  lemma ClaimsOfRoleAfterAddRoleClaim(rows: seq<RoleClaimRow>, id: string, claim: Claim, roleId: string)
    ensures ClaimsOfRole(rows + [RoleClaimRow(id, claim)], roleId)
         == ClaimsOfRole(rows, roleId) + (if roleId == id then [Stored(claim)] else [])
  {
    ClaimsOfRoleAppend(rows, [RoleClaimRow(id, claim)], roleId);
    assert [RoleClaimRow(id, claim)][1..] == [];
  }

  /** The role names recorded for the user with id `userId`, in the order they were added:
      what `UserManager.GetRolesAsync` reads back. */
  function RolesOfUser(rows: seq<UserRoleRow>, userId: string): seq<string> {
    if rows == [] then []
    else (if rows[0].userId == userId then [rows[0].roleName] else []) + RolesOfUser(rows[1..], userId)
  }

  lemma {:induction false} RolesOfUserAppend(a: seq<UserRoleRow>, b: seq<UserRoleRow>, userId: string)
    ensures RolesOfUser(a + b, userId) == RolesOfUser(a, userId) + RolesOfUser(b, userId)
  {
    if a == [] {
      assert a + b == b;
    } else {
      assert (a + b)[1..] == a[1..] + b;
      RolesOfUserAppend(a[1..], b, userId);
    }
  }

  /** After `UserManager.AddToRoleAsync(user, roleName)` succeeds, reading the user's roles
      back gives the roles it had, then the new one; every other user's roles are unchanged. */
  lemma RolesOfUserAfterAddToRole(rows: seq<UserRoleRow>, id: string, roleName: string, userId: string)
    ensures RolesOfUser(rows + [UserRoleRow(id, roleName)], userId)
         == RolesOfUser(rows, userId) + (if userId == id then [roleName] else [])
  {
    RolesOfUserAppend(rows, [UserRoleRow(id, roleName)], userId);
    assert [UserRoleRow(id, roleName)][1..] == [];
  }

  /** The rows `AddClaimsAsync` records: one per claim, in order, all for the same user. */
  function ClaimRows(userId: string, claims: seq<Claim>): (rows: seq<UserClaimRow>)
    ensures |rows| == |claims|
    ensures forall i | 0 <= i < |claims| :: rows[i] == UserClaimRow(userId, claims[i])
  {
    seq(|claims|, i requires 0 <= i < |claims| => UserClaimRow(userId, claims[i]))
  }

  /** The claims recorded for the user with id `userId`, in the order they were added, as
      `UserManager.GetClaimsAsync` reads them back. */
  function ClaimsOfUser(rows: seq<UserClaimRow>, userId: string): seq<Claim> {
    if rows == [] then []
    else (if rows[0].userId == userId then [Stored(rows[0].claim)] else []) + ClaimsOfUser(rows[1..], userId)
  }

  lemma {:induction false} ClaimsOfUserAppend(a: seq<UserClaimRow>, b: seq<UserClaimRow>, userId: string)
    ensures ClaimsOfUser(a + b, userId) == ClaimsOfUser(a, userId) + ClaimsOfUser(b, userId)
  {
    if a == [] {
      assert a + b == b;
    } else {
      assert (a + b)[1..] == a[1..] + b;
      ClaimsOfUserAppend(a[1..], b, userId);
    }
  }

  /** A batch recorded for one user reads back, in order and as stored, for that user and
      for no other. */
  lemma {:induction false} ClaimsOfUserOfRows(id: string, claims: seq<Claim>, userId: string)
    ensures ClaimsOfUser(ClaimRows(id, claims), userId) == if userId == id then StoredAll(claims) else []
  {
    if claims != [] {
      assert ClaimRows(id, claims)[1..] == ClaimRows(id, claims[1..]);
      assert StoredAll(claims) == [Stored(claims[0])] + StoredAll(claims[1..]);
      ClaimsOfUserOfRows(id, claims[1..], userId);
    }
  }

  /** After `AddClaimsAsync(user, claims)` succeeds, reading the user's claims back gives
      the claims it had, then the batch in order as stored; every other user's claims are
      unchanged. */
  lemma ClaimsOfUserAfterAddClaims(rows: seq<UserClaimRow>, id: string, claims: seq<Claim>, userId: string)
    ensures ClaimsOfUser(rows + ClaimRows(id, claims), userId)
         == ClaimsOfUser(rows, userId) + (if userId == id then StoredAll(claims) else [])
  {
    ClaimsOfUserAppend(rows, ClaimRows(id, claims), userId);
    ClaimsOfUserOfRows(id, claims, userId);
  }

  /** A new user as `new ApplicationUser { UserName = userName }` makes it once the store
      has chosen its id: no email, no phone number, nothing confirmed. */
  function NewUser(id: string, userName: string): UserRow {
    UserRow(id, userName, None, false, None, false)
  }

  /** `t` is `s` with rows and calls appended: nothing of `s` is deleted, edited or reordered. */
  predicate Extends(s: StoreState, t: StoreState) {
    && s.roles <= t.roles && s.roleClaims <= t.roleClaims && s.users <= t.users
    && s.userClaims <= t.userClaims && s.userRoles <= t.userRoles && s.trace <= t.trace
  }

  lemma ExtendsTransitive(s: StoreState, t: StoreState, u: StoreState)
    requires Extends(s, t) && Extends(t, u)
    ensures Extends(s, u)
  {
  }

  /** A role found by id, or a user found by name, is still found once rows are appended. */
  lemma LookupsSurviveExtension(s: StoreState, t: StoreState, id: string, userName: string)
    requires Extends(s, t)
    ensures RoleWithId(s.roles, id).Some? ==> RoleWithId(t.roles, id).Some?
    ensures UserNamed(s.users, userName).Some? ==> UserNamed(t.users, userName).Some?
  {
    RoleWithIdFindsFirst(s.roles, id);
    RoleWithIdFindsFirst(t.roles, id);
    UserNamedFindsFirst(s.users, userName);
    UserNamedFindsFirst(t.users, userName);
    assert forall i | 0 <= i < |s.roles| :: t.roles[i] == s.roles[i];
    assert forall i | 0 <= i < |s.users| :: t.users[i] == s.users[i];
  }

  /** The store's tables and its trace of mutating calls, as a value. Each mutating
      operation records its call, asks the oracle, and on success appends rows. */
  datatype StoreState = StoreState(
    roles: seq<RoleRow>, roleClaims: seq<RoleClaimRow>,
    users: seq<UserRow>, userClaims: seq<UserClaimRow>, userRoles: seq<UserRoleRow>,
    trace: seq<Call>)
  {
    /** The outcome the oracle gives the next mutating call. */
    function Next(o: Oracle): IdentityResult {
      o.decide(|trace|)
    }

    /** `Database.Migrate()`: brings the schema up to date; no rows change. */
    function Migrate(): StoreState {
      this.(trace := trace + [MigrateCall])
    }

    /** `new IdentityRole(name)` followed by `RoleManager.CreateAsync`. */
    function CreateRole(o: Oracle, name: string): (StoreState, IdentityResult, RoleRow) {
      var role := RoleRow(o.freshId(|trace|), name);
      var s := this.(trace := trace + [CreateRoleCall(role)]);
      if Next(o).Succeeded? then (s.(roles := roles + [role]), Succeeded, role)
      else (s, Next(o), role)
    }

    /** `RoleManager.AddClaimAsync(role, claim)`. */
    function AddRoleClaim(o: Oracle, role: RoleRow, claim: Claim): (StoreState, IdentityResult) {
      var s := this.(trace := trace + [AddRoleClaimCall(role.id, claim)]);
      if Next(o).Succeeded? then (s.(roleClaims := roleClaims + [RoleClaimRow(role.id, claim)]), Succeeded)
      else (s, Next(o))
    }

    /** `new ApplicationUser { UserName = userName }` followed by `UserManager.CreateAsync(user, password)`. */
    function CreateUser(o: Oracle, userName: string, password: string): (StoreState, IdentityResult, UserRow) {
      var user := NewUser(o.freshId(|trace|), userName);
      var s := this.(trace := trace + [CreateUserCall(user, password)]);
      if Next(o).Succeeded? then (s.(users := users + [user]), Succeeded, user)
      else (s, Next(o), user)
    }

    /** `UserManager.AddClaimsAsync(user, claims)`: all claims in one batch, in order. */
    function AddClaims(o: Oracle, user: UserRow, claims: seq<Claim>): (StoreState, IdentityResult) {
      var s := this.(trace := trace + [AddClaimsCall(user.id, claims)]);
      if Next(o).Succeeded? then (s.(userClaims := userClaims + ClaimRows(user.id, claims)), Succeeded)
      else (s, Next(o))
    }

    /** `UserManager.AddToRoleAsync(user, roleName)`. */
    function AddToRole(o: Oracle, user: UserRow, roleName: string): (StoreState, IdentityResult) {
      var s := this.(trace := trace + [AddToRoleCall(user.id, roleName)]);
      if Next(o).Succeeded? then (s.(userRoles := userRoles + [UserRoleRow(user.id, roleName)]), Succeeded)
      else (s, Next(o))
    }
  }

  const EmptyState := StoreState([], [], [], [], [], [])

  /** One mutating call from `s` to `t`: rows and the call are appended, and the result is
      the oracle's decision for that trace position. */
  predicate Step(o: Oracle, s: StoreState, t: StoreState, result: IdentityResult) {
    && Extends(s, t) && |t.trace| == |s.trace| + 1
    && result == s.Next(o)
  }

  lemma CreateRoleStep(s: StoreState, o: Oracle, name: string)
    ensures Step(o, s, s.CreateRole(o, name).0, s.CreateRole(o, name).1)
  {
  }

  lemma AddRoleClaimStep(s: StoreState, o: Oracle, role: RoleRow, claim: Claim)
    ensures Step(o, s, s.AddRoleClaim(o, role, claim).0, s.AddRoleClaim(o, role, claim).1)
  {
  }

  lemma CreateUserStep(s: StoreState, o: Oracle, userName: string, password: string)
    ensures Step(o, s, s.CreateUser(o, userName, password).0, s.CreateUser(o, userName, password).1)
  {
  }

  lemma AddClaimsStep(s: StoreState, o: Oracle, user: UserRow, claims: seq<Claim>)
    ensures Step(o, s, s.AddClaims(o, user, claims).0, s.AddClaims(o, user, claims).1)
  {
  }

  lemma AddToRoleStep(s: StoreState, o: Oracle, user: UserRow, roleName: string)
    ensures Step(o, s, s.AddToRole(o, user, roleName).0, s.AddToRole(o, user, roleName).1)
  {
  }

  /** The store as a mutable object: `UserManager` and `RoleManager` over one database. */
  class Store {
    var roles: seq<RoleRow>
    var roleClaims: seq<RoleClaimRow>
    var users: seq<UserRow>
    var userClaims: seq<UserClaimRow>
    var userRoles: seq<UserRoleRow>
    var trace: seq<Call>
    const oracle: Oracle
    const capabilities: Capabilities
    /** `Options.ClaimsIdentity.UserNameClaimType`. */
    const userNameClaimType: string

    function State(): StoreState
      reads this
    {
      StoreState(roles, roleClaims, users, userClaims, userRoles, trace)
    }

    constructor (initial: StoreState, oracle: Oracle, capabilities: Capabilities, userNameClaimType: string)
      ensures State() == initial
      ensures this.oracle == oracle && this.capabilities == capabilities
      ensures this.userNameClaimType == userNameClaimType
    {
      roles, roleClaims, users := initial.roles, initial.roleClaims, initial.users;
      userClaims, userRoles, trace := initial.userClaims, initial.userRoles, initial.trace;
      this.oracle, this.capabilities, this.userNameClaimType := oracle, capabilities, userNameClaimType;
    }

    method Migrate()
      modifies this
      ensures State() == old(State()).Migrate()
    {
      trace := trace + [MigrateCall];
    }

    method CreateRole(name: string) returns (result: IdentityResult, role: RoleRow)
      modifies this
      ensures (State(), result, role) == old(State()).CreateRole(oracle, name)
    {
      role := RoleRow(oracle.freshId(|trace|), name);
      result := oracle.decide(|trace|);
      trace := trace + [CreateRoleCall(role)];
      if result.Succeeded? {
        roles := roles + [role];
      }
    }

    method AddRoleClaim(role: RoleRow, claim: Claim) returns (result: IdentityResult)
      modifies this
      ensures (State(), result) == old(State()).AddRoleClaim(oracle, role, claim)
    {
      result := oracle.decide(|trace|);
      trace := trace + [AddRoleClaimCall(role.id, claim)];
      if result.Succeeded? {
        roleClaims := roleClaims + [RoleClaimRow(role.id, claim)];
      }
    }

    method CreateUser(userName: string, password: string) returns (result: IdentityResult, user: UserRow)
      modifies this
      ensures (State(), result, user) == old(State()).CreateUser(oracle, userName, password)
    {
      user := NewUser(oracle.freshId(|trace|), userName);
      result := oracle.decide(|trace|);
      trace := trace + [CreateUserCall(user, password)];
      if result.Succeeded? {
        users := users + [user];
      }
    }

    method AddClaims(user: UserRow, claims: seq<Claim>) returns (result: IdentityResult)
      modifies this
      ensures (State(), result) == old(State()).AddClaims(oracle, user, claims)
    {
      result := oracle.decide(|trace|);
      trace := trace + [AddClaimsCall(user.id, claims)];
      if result.Succeeded? {
        userClaims := userClaims + ClaimRows(user.id, claims);
      }
    }

    method AddToRole(user: UserRow, roleName: string) returns (result: IdentityResult)
      modifies this
      ensures (State(), result) == old(State()).AddToRole(oracle, user, roleName)
    {
      result := oracle.decide(|trace|);
      trace := trace + [AddToRoleCall(user.id, roleName)];
      if result.Succeeded? {
        userRoles := userRoles + [UserRoleRow(user.id, roleName)];
      }
    }

    /** `RoleManager.FindByIdAsync(id)`. */
    method FindRoleById(id: string) returns (role: Option<RoleRow>)
      ensures role == RoleWithId(roles, id)
    {
      role := RoleWithId(roles, id);
    }

    /** `RoleManager.FindByNameAsync(name)`. */
    method FindRoleByName(name: string) returns (role: Option<RoleRow>)
      ensures role == RoleNamed(roles, name)
    {
      role := RoleNamed(roles, name);
    }

    /** `UserManager.FindByNameAsync(userName)`. */
    method FindUserByName(userName: string) returns (user: Option<UserRow>)
      ensures user == UserNamed(users, userName)
    {
      user := UserNamed(users, userName);
    }

    /** `RoleManager.GetClaimsAsync(role)`. */
    method GetRoleClaims(role: RoleRow) returns (claims: seq<Claim>)
      ensures claims == ClaimsOfRole(roleClaims, role.id)
    {
      claims := ClaimsOfRole(roleClaims, role.id);
    }

    /** `UserManager.GetRolesAsync(user)`. */
    method GetRoles(user: UserRow) returns (roleNames: seq<string>)
      ensures roleNames == RolesOfUser(userRoles, user.id)
    {
      roleNames := RolesOfUser(userRoles, user.id);
    }
  }
}
