/** `SeedData.EnsureSeedData`: the host's start-up script. It migrates the database,
    makes sure the Manager and Employee roles exist (each with its role claims), and
    makes sure the demonstration users alice and bob exist (each with a password, a
    claim bundle and one role). Every store call that reports failure ends the script
    with an exception carrying the first error description; what was done before stays
    done. Roles are looked up by id but created by name, with the id chosen by the store. */
module SeedData {
  import opened Wrappers
  import opened Claims
  import opened IdentityStore

  const ManagerRole := "Manager"
  const EmployeeRole := "Employee"
  const Alice := "alice"
  const Bob := "bob"
  const Password := "Pass123$"

  const SysAdminClaim := StringClaim("sysadmin", "true")
  const WriteAccessClaim := StringClaim("write_access", "true")
  const ReadOnlyClaim := StringClaim("read_only", "true")

  /** The address both users receive, kept as the opaque text the script writes. */
  const AddressText :=
    "{ 'street_address': 'One Hacker Way', 'locality': 'Heidelberg', 'postal_code': 69118, 'country': 'Germany' }"

  const AliceClaims := [
    StringClaim(Name, "Alice Smith"), StringClaim(GivenName, "Alice"), StringClaim(FamilyName, "Smith"),
    StringClaim(Email, "AliceSmith@email.com"), Claim(EmailVerified, "true", BooleanValueType),
    StringClaim(WebSite, "http://alice.com"), Claim(Address, AddressText, JsonValueType)]

  const BobClaims := [
    StringClaim(Name, "Bob Smith"), StringClaim(GivenName, "Bob"), StringClaim(FamilyName, "Smith"),
    StringClaim(Email, "BobSmith@email.com"), Claim(EmailVerified, "true", BooleanValueType),
    StringClaim(WebSite, "http://bob.com"), Claim(Address, AddressText, JsonValueType),
    StringClaim("location", "somewhere")]

  /** The message .NET's `First()` throws with when the error list is empty. */
  const NoElementsMessage := "Sequence contains no elements"

  /** How the script ends: normally, or with an exception carrying a message. */
  datatype Outcome = Completed | Aborted(message: string)

  /** The store after a run, how the run ended, and the console lines it wrote. */
  datatype Run = Run(state: StoreState, outcome: Outcome, log: seq<string>)

  /** `result.Errors.First().Description`. */
  function ErrorMessage(errors: seq<IdentityError>): string {
    if errors == [] then NoElementsMessage else errors[0].description
  }

  /** The message is the first error's description, whatever errors follow it; with no
      errors at all, `First()` throws and its own message is what the script dies with. */
  lemma ErrorMessageIsFirst(errors: seq<IdentityError>, more: seq<IdentityError>)
    ensures ErrorMessage([]) == NoElementsMessage
    ensures errors != [] ==> ErrorMessage(errors + more) == ErrorMessage(errors) == errors[0].description
  {
    if errors != [] {
      assert (errors + more)[0] == errors[0];
    }
  }

  function Abort(s: StoreState, result: IdentityResult): Run
    requires result.Failed?
  {
    Run(s, Aborted(ErrorMessage(result.errors)), [])
  }

  // ---- The script, stage by stage, as functions of the store's state ----

  /** Find the role with id "Manager"; if there is none, create a role named Manager and
      give it `sysadmin` and then `write_access`. */
  function SeedManagerRole(s: StoreState, o: Oracle): Run {
    if RoleWithId(s.roles, ManagerRole).Some? then Run(s, Completed, [])
    else
      var (s1, created, role) := s.CreateRole(o, ManagerRole);
      if created.Failed? then Abort(s1, created)
      else
        var (s2, sysAdmin) := s1.AddRoleClaim(o, role, SysAdminClaim);
        if sysAdmin.Failed? then Abort(s2, sysAdmin)
        else
          var (s3, writeAccess) := s2.AddRoleClaim(o, role, WriteAccessClaim);
          if writeAccess.Failed? then Abort(s3, writeAccess)
          else Run(s3, Completed, ["Manager role created"])
  }

  /** Find the role with id "Employee"; if there is none, create a role named Employee
      and give it `read_only`. */
  function SeedEmployeeRole(s: StoreState, o: Oracle): Run {
    if RoleWithId(s.roles, EmployeeRole).Some? then Run(s, Completed, [])
    else
      var (s1, created, role) := s.CreateRole(o, EmployeeRole);
      if created.Failed? then Abort(s1, created)
      else
        var (s2, readOnly) := s1.AddRoleClaim(o, role, ReadOnlyClaim);
        if readOnly.Failed? then Abort(s2, readOnly)
        else Run(s2, Completed, ["Employee role created"])
  }

  /** Find the user by name; if there is none, create it with the password, add its claims
      in one batch, then add it to its role. */
  function SeedUser(s: StoreState, o: Oracle, userName: string, claims: seq<Claim>, roleName: string): Run {
    if UserNamed(s.users, userName).Some? then Run(s, Completed, [userName + " already exists"])
    else
      var (s1, created, user) := s.CreateUser(o, userName, Password);
      if created.Failed? then Abort(s1, created)
      else
        var (s2, added) := s1.AddClaims(o, user, claims);
        if added.Failed? then Abort(s2, added)
        else
          var (s3, joined) := s2.AddToRole(o, user, roleName);
          if joined.Failed? then Abort(s3, joined)
          else Run(s3, Completed, [userName + " created"])
  }

  /** Runs `next` after `first` unless `first` aborted; the console keeps both runs' lines. */
  function AndThen(first: Run, next: Run): Run {
    if first.outcome.Aborted? then first else next.(log := first.log + next.log)
  }

  /** The whole script: migrate, Manager, Employee, alice (a Manager), bob (an Employee). */
  function Seed(s: StoreState, o: Oracle): Run {
    var manager := SeedManagerRole(s.Migrate(), o);
    var employee := AndThen(manager, SeedEmployeeRole(manager.state, o));
    var alice := AndThen(employee, SeedUser(employee.state, o, Alice, AliceClaims, ManagerRole));
    AndThen(alice, SeedUser(alice.state, o, Bob, BobClaims, EmployeeRole))
  }

  // ---- What a run does, in terms of the store's decisions ----

  /** Every store decision at trace positions `lo` up to `hi` was a success. */
  predicate AllSucceeded(o: Oracle, lo: nat, hi: nat) {
    forall n | lo <= n < hi :: o.decide(n).Succeeded?
  }

  /** A run from `s` only appended to the store, and it completed exactly when every call
      it made succeeded; otherwise it stopped right after the first call that failed, with
      that call's first error description. */
  predicate Settled(o: Oracle, s: StoreState, r: Run) {
    && Extends(s, r.state)
    && match r.outcome
       case Completed => AllSucceeded(o, |s.trace|, |r.state.trace|)
       case Aborted(message) =>
         && |s.trace| < |r.state.trace|
         && AllSucceeded(o, |s.trace|, |r.state.trace| - 1)
         && o.decide(|r.state.trace| - 1).Failed?
         && message == ErrorMessage(o.decide(|r.state.trace| - 1).errors)
  }

  /** The four things the script provisions. */
  datatype Seeded = ManagerEntity | EmployeeEntity | AliceEntity | BobEntity

  /** Which provisioned thing a recorded call is about. */
  function Concerns(c: Call): Option<Seeded> {
    match c
    case MigrateCall => None
    case CreateRoleCall(role) =>
      if role.name == ManagerRole then Some(ManagerEntity)
      else if role.name == EmployeeRole then Some(EmployeeEntity) else None
    case AddRoleClaimCall(_, claim) =>
      if claim == SysAdminClaim || claim == WriteAccessClaim then Some(ManagerEntity)
      else if claim == ReadOnlyClaim then Some(EmployeeEntity) else None
    case CreateUserCall(user, _) =>
      if user.userName == Alice then Some(AliceEntity)
      else if user.userName == Bob then Some(BobEntity) else None
    case AddClaimsCall(_, claims) =>
      if claims == AliceClaims then Some(AliceEntity)
      else if claims == BobClaims then Some(BobEntity) else None
    case AddToRoleCall(_, roleName) =>
      if roleName == ManagerRole then Some(AliceEntity)
      else if roleName == EmployeeRole then Some(BobEntity) else None
  }

  /** Whether the script's lookup finds the thing: roles by id, users by name. */
  predicate Present(s: StoreState, e: Seeded) {
    match e
    case ManagerEntity => RoleWithId(s.roles, ManagerRole).Some?
    case EmployeeEntity => RoleWithId(s.roles, EmployeeRole).Some?
    case AliceEntity => UserNamed(s.users, Alice).Some?
    case BobEntity => UserNamed(s.users, Bob).Some?
  }

  /** Every call recorded from trace position `from` on in `t` is about something the
      lookups did not find in `s0`. */
  predicate OnlyAbsentTouched(s0: StoreState, from: nat, t: StoreState) {
    forall i | from <= i < |t.trace| ::
      Concerns(t.trace[i]).Some? && !Present(s0, Concerns(t.trace[i]).value)
  }

  /** Every call a stage made from `s` is about `e`, and a stage whose lookup found `e`
      changed nothing. */
  predicate StageCalls(s: StoreState, r: Run, e: Seeded) {
    && (forall i | |s.trace| <= i < |r.state.trace| :: Concerns(r.state.trace[i]) == Some(e))
    && (Present(s, e) ==> r == Run(s, Completed, r.log))
  }

  /** A run that reached `t` with every call succeeding, followed by one more call. */
  lemma SettledStep(o: Oracle, s: StoreState, t: StoreState, u: StoreState, result: IdentityResult)
    requires Extends(s, t) && AllSucceeded(o, |s.trace|, |t.trace|) && Step(o, t, u, result)
    ensures result.Failed? ==> Settled(o, s, Abort(u, result))
    ensures result.Succeeded? ==> Extends(s, u) && AllSucceeded(o, |s.trace|, |u.trace|)
  {
  }

  /** Calls appended to a trace that are all about `e` make every new position about `e`. */
  lemma AppendedCallsConcern(before: seq<Call>, calls: seq<Call>, e: Seeded)
    requires forall c | c in calls :: Concerns(c) == Some(e)
    ensures forall i | |before| <= i < |before + calls| :: Concerns((before + calls)[i]) == Some(e)
  {
    assert forall i | |before| <= i < |before + calls| :: (before + calls)[i] == calls[i - |before|];
  }

  lemma SeedManagerRoleSettles(s: StoreState, o: Oracle)
    ensures Settled(o, s, SeedManagerRole(s, o))
  {
    if RoleWithId(s.roles, ManagerRole).None? {
      var (s1, created, role) := s.CreateRole(o, ManagerRole);
      CreateRoleStep(s, o, ManagerRole);
      SettledStep(o, s, s, s1, created);
      if created.Succeeded? {
        var (s2, sysAdmin) := s1.AddRoleClaim(o, role, SysAdminClaim);
        AddRoleClaimStep(s1, o, role, SysAdminClaim);
        SettledStep(o, s, s1, s2, sysAdmin);
        if sysAdmin.Succeeded? {
          var (s3, writeAccess) := s2.AddRoleClaim(o, role, WriteAccessClaim);
          AddRoleClaimStep(s2, o, role, WriteAccessClaim);
          SettledStep(o, s, s2, s3, writeAccess);
        }
      }
    }
  }

  lemma SeedManagerRoleCalls(s: StoreState, o: Oracle)
    ensures StageCalls(s, SeedManagerRole(s, o), ManagerEntity)
  {
    var r := SeedManagerRole(s, o);
    if RoleWithId(s.roles, ManagerRole).None? {
      var role := RoleRow(o.freshId(|s.trace|), ManagerRole);
      var calls := [CreateRoleCall(role), AddRoleClaimCall(role.id, SysAdminClaim), AddRoleClaimCall(role.id, WriteAccessClaim)];
      assert forall c | c in calls :: Concerns(c) == Some(ManagerEntity);
      var n := |s.trace|;
      var k := if o.decide(n).Failed? then 1 else if o.decide(n + 1).Failed? then 2 else 3;
      assert r.state.trace == s.trace + calls[..k];
      AppendedCallsConcern(s.trace, calls[..k], ManagerEntity);
    }
  }

  lemma SeedEmployeeRoleSettles(s: StoreState, o: Oracle)
    ensures Settled(o, s, SeedEmployeeRole(s, o))
  {
    if RoleWithId(s.roles, EmployeeRole).None? {
      var (s1, created, role) := s.CreateRole(o, EmployeeRole);
      CreateRoleStep(s, o, EmployeeRole);
      SettledStep(o, s, s, s1, created);
      if created.Succeeded? {
        var (s2, readOnly) := s1.AddRoleClaim(o, role, ReadOnlyClaim);
        AddRoleClaimStep(s1, o, role, ReadOnlyClaim);
        SettledStep(o, s, s1, s2, readOnly);
      }
    }
  }

  lemma SeedEmployeeRoleCalls(s: StoreState, o: Oracle)
    ensures StageCalls(s, SeedEmployeeRole(s, o), EmployeeEntity)
  {
    var r := SeedEmployeeRole(s, o);
    if RoleWithId(s.roles, EmployeeRole).None? {
      var role := RoleRow(o.freshId(|s.trace|), EmployeeRole);
      var calls := [CreateRoleCall(role), AddRoleClaimCall(role.id, ReadOnlyClaim)];
      assert forall c | c in calls :: Concerns(c) == Some(EmployeeEntity);
      var k := if o.decide(|s.trace|).Failed? then 1 else 2;
      assert r.state.trace == s.trace + calls[..k];
      AppendedCallsConcern(s.trace, calls[..k], EmployeeEntity);
    }
  }

  /** The two user stages: who, with which claims, in which role. */
  predicate UserPlan(e: Seeded, userName: string, claims: seq<Claim>, roleName: string) {
    || (e == AliceEntity && userName == Alice && claims == AliceClaims && roleName == ManagerRole)
    || (e == BobEntity && userName == Bob && claims == BobClaims && roleName == EmployeeRole)
  }

  lemma UserPlanConcerns(e: Seeded, userName: string, claims: seq<Claim>, roleName: string, id: string)
    requires UserPlan(e, userName, claims, roleName)
    ensures forall c | c in [CreateUserCall(NewUser(id, userName), Password),
                             AddClaimsCall(id, claims), AddToRoleCall(id, roleName)] :: Concerns(c) == Some(e)
  {
  }

  lemma SeedUserSettles(s: StoreState, o: Oracle, userName: string, claims: seq<Claim>, roleName: string)
    ensures Settled(o, s, SeedUser(s, o, userName, claims, roleName))
  {
    if UserNamed(s.users, userName).None? {
      var (s1, created, user) := s.CreateUser(o, userName, Password);
      CreateUserStep(s, o, userName, Password);
      SettledStep(o, s, s, s1, created);
      if created.Succeeded? {
        var (s2, added) := s1.AddClaims(o, user, claims);
        AddClaimsStep(s1, o, user, claims);
        SettledStep(o, s, s1, s2, added);
        if added.Succeeded? {
          var (s3, joined) := s2.AddToRole(o, user, roleName);
          AddToRoleStep(s2, o, user, roleName);
          SettledStep(o, s, s2, s3, joined);
        }
      }
    }
  }

  lemma SeedUserCalls(s: StoreState, o: Oracle, userName: string, claims: seq<Claim>, roleName: string, e: Seeded)
    requires UserPlan(e, userName, claims, roleName)
    ensures StageCalls(s, SeedUser(s, o, userName, claims, roleName), e)
  {
    var r := SeedUser(s, o, userName, claims, roleName);
    if UserNamed(s.users, userName).None? {
      var user := NewUser(o.freshId(|s.trace|), userName);
      var calls := [CreateUserCall(user, Password), AddClaimsCall(user.id, claims), AddToRoleCall(user.id, roleName)];
      UserPlanConcerns(e, userName, claims, roleName, user.id);
      var n := |s.trace|;
      var k := if o.decide(n).Failed? then 1 else if o.decide(n + 1).Failed? then 2 else 3;
      assert r.state.trace == s.trace + calls[..k];
      AppendedCallsConcern(s.trace, calls[..k], e);
    }
  }

  /** Chaining two settled runs with `AndThen` gives a settled run. */
  lemma SettledAndThen(o: Oracle, s: StoreState, first: Run, next: Run)
    requires Settled(o, s, first)
    requires first.outcome.Completed? ==> Settled(o, first.state, next)
    ensures Settled(o, s, AndThen(first, next))
  {
  }

  /** A stage from `t`, reached from `s0` by appending only, touches only what `s0` lacks. */
  lemma StageTouchesOnlyAbsent(o: Oracle, s0: StoreState, t: StoreState, r: Run, e: Seeded)
    requires Extends(s0, t) && StageCalls(t, r, e)
    ensures OnlyAbsentTouched(s0, |t.trace|, r.state)
  {
    var name := if e == AliceEntity then Alice else Bob;
    var id := if e == ManagerEntity then ManagerRole else EmployeeRole;
    LookupsSurviveExtension(s0, t, id, name);
  }

  /** Chaining stages keeps "only absent things touched". */
  lemma OnlyAbsentTouchedAndThen(o: Oracle, s0: StoreState, from: nat, first: Run, next: Run)
    requires OnlyAbsentTouched(s0, from, first.state) && from <= |first.state.trace|
    requires first.outcome.Completed? ==>
      Extends(first.state, next.state) && OnlyAbsentTouched(s0, |first.state.trace|, next.state)
    ensures OnlyAbsentTouched(s0, from, AndThen(first, next).state)
  {
    if first.outcome.Completed? {
      assert forall i | from <= i < |first.state.trace| :: next.state.trace[i] == first.state.trace[i];
    }
  }

  /** Seeding settles: after the migration it completes exactly when every store call it
      makes succeeds, and otherwise it stops at the first failed call with that call's first
      error description; either way it only appends to the store, migration first. */
  lemma {:induction false} SeedSettles(s: StoreState, o: Oracle)
    ensures Settled(o, s.Migrate(), Seed(s, o))
    ensures Extends(s, Seed(s, o).state)
    ensures |s.trace| < |Seed(s, o).state.trace| && Seed(s, o).state.trace[|s.trace|] == MigrateCall
  {
    var m := s.Migrate();
    var manager := SeedManagerRole(m, o);
    SeedManagerRoleSettles(m, o);
    SeedManagerRoleCalls(m, o);
    var employee := AndThen(manager, SeedEmployeeRole(manager.state, o));
    SeedEmployeeRoleSettles(manager.state, o);
    SeedEmployeeRoleCalls(manager.state, o);
    SettledAndThen(o, m, manager, SeedEmployeeRole(manager.state, o));
    var alice := AndThen(employee, SeedUser(employee.state, o, Alice, AliceClaims, ManagerRole));
    SeedUserSettles(employee.state, o, Alice, AliceClaims, ManagerRole);
    SeedUserCalls(employee.state, o, Alice, AliceClaims, ManagerRole, AliceEntity);
    SettledAndThen(o, m, employee, SeedUser(employee.state, o, Alice, AliceClaims, ManagerRole));
    SeedUserSettles(alice.state, o, Bob, BobClaims, EmployeeRole);
    SeedUserCalls(alice.state, o, Bob, BobClaims, EmployeeRole, BobEntity);
    SettledAndThen(o, m, alice, SeedUser(alice.state, o, Bob, BobClaims, EmployeeRole));
    assert m.trace[|s.trace|] == MigrateCall;
  }

  /** Seeding never touches what it finds: after the migration, every call it makes is
      about a role whose id, or a user whose name, was not in the store it started from. */
  lemma {:induction false} SeedTouchesOnlyAbsent(s: StoreState, o: Oracle)
    ensures OnlyAbsentTouched(s, |s.trace| + 1, Seed(s, o).state)
  {
    var m := s.Migrate();
    assert Extends(s, m);
    var manager := SeedManagerRole(m, o);
    SeedManagerRoleSettles(m, o);
    SeedManagerRoleCalls(m, o);
    StageTouchesOnlyAbsent(o, s, m, manager, ManagerEntity);

    var employeeStage := SeedEmployeeRole(manager.state, o);
    var employee := AndThen(manager, employeeStage);
    SeedEmployeeRoleSettles(manager.state, o);
    SeedEmployeeRoleCalls(manager.state, o);
    if manager.outcome.Completed? {
      StageTouchesOnlyAbsent(o, s, manager.state, employeeStage, EmployeeEntity);
    }
    OnlyAbsentTouchedAndThen(o, s, |m.trace|, manager, employeeStage);
    SettledAndThen(o, m, manager, employeeStage);

    var aliceStage := SeedUser(employee.state, o, Alice, AliceClaims, ManagerRole);
    var alice := AndThen(employee, aliceStage);
    SeedUserSettles(employee.state, o, Alice, AliceClaims, ManagerRole);
    SeedUserCalls(employee.state, o, Alice, AliceClaims, ManagerRole, AliceEntity);
    if employee.outcome.Completed? {
      StageTouchesOnlyAbsent(o, s, employee.state, aliceStage, AliceEntity);
    }
    OnlyAbsentTouchedAndThen(o, s, |m.trace|, employee, aliceStage);
    SettledAndThen(o, m, employee, aliceStage);

    var bobStage := SeedUser(alice.state, o, Bob, BobClaims, EmployeeRole);
    SeedUserSettles(alice.state, o, Bob, BobClaims, EmployeeRole);
    SeedUserCalls(alice.state, o, Bob, BobClaims, EmployeeRole, BobEntity);
    if alice.outcome.Completed? {
      StageTouchesOnlyAbsent(o, s, alice.state, bobStage, BobEntity);
    }
    OnlyAbsentTouchedAndThen(o, s, |m.trace|, alice, bobStage);
  }

  /** The script's order of the four things it provisions. */
  function Rank(e: Seeded): nat {
    match e
    case ManagerEntity => 0
    case EmployeeEntity => 1
    case AliceEntity => 2
    case BobEntity => 3
  }

  /** From position `from` on, every call in `t` is about something of rank at most `top`,
      and no call is about something the script handles earlier than an earlier call's. */
  predicate InScriptOrder(t: seq<Call>, from: nat, top: nat) {
    && (forall i | from <= i < |t| :: Concerns(t[i]).Some? && Rank(Concerns(t[i]).value) <= top)
    && (forall i, j | from <= i < j < |t| ::
          Concerns(t[i]).Some? && Concerns(t[j]).Some? ==> Rank(Concerns(t[i]).value) <= Rank(Concerns(t[j]).value))
  }

  /** Calls that are all about one thing are in script order. */
  lemma StageInScriptOrder(t: seq<Call>, from: nat, e: Seeded)
    requires forall i | from <= i < |t| :: Concerns(t[i]) == Some(e)
    ensures InScriptOrder(t, from, Rank(e))
  {
  }

  /** `u` is `t` followed by calls that are all about `e`. */
  predicate AppendsCallsAbout(t: seq<Call>, u: seq<Call>, e: Seeded) {
    t <= u && forall i | |t| <= i < |u| :: Concerns(u[i]) == Some(e)
  }

  lemma SeedManagerRoleAppends(s: StoreState, o: Oracle)
    ensures AppendsCallsAbout(s.trace, SeedManagerRole(s, o).state.trace, ManagerEntity)
  {
    SeedManagerRoleSettles(s, o);
    SeedManagerRoleCalls(s, o);
  }

  lemma SeedEmployeeRoleAppends(s: StoreState, o: Oracle)
    ensures AppendsCallsAbout(s.trace, SeedEmployeeRole(s, o).state.trace, EmployeeEntity)
  {
    SeedEmployeeRoleSettles(s, o);
    SeedEmployeeRoleCalls(s, o);
  }

  lemma SeedUserAppends(s: StoreState, o: Oracle, userName: string, claims: seq<Claim>, roleName: string, e: Seeded)
    requires UserPlan(e, userName, claims, roleName)
    ensures AppendsCallsAbout(s.trace, SeedUser(s, o, userName, claims, roleName).state.trace, e)
  {
    SeedUserSettles(s, o, userName, claims, roleName);
    SeedUserCalls(s, o, userName, claims, roleName, e);
  }

  /** A stage about `e`, run after calls about things of rank at most `e`'s, keeps the order. */
  lemma InScriptOrderAndThen(from: nat, first: Run, next: Run, e: Seeded, top: nat)
    requires InScriptOrder(first.state.trace, from, top) && top <= Rank(e)
    requires first.outcome.Completed? ==> AppendsCallsAbout(first.state.trace, next.state.trace, e)
    ensures InScriptOrder(AndThen(first, next).state.trace, from, Rank(e))
  {
    if first.outcome.Completed? {
      var t0, t := first.state.trace, next.state.trace;
      assert forall i | from <= i < |t0| :: t[i] == t0[i];
      forall i, j | from <= i < j < |t| && Concerns(t[i]).Some? && Concerns(t[j]).Some?
        ensures Rank(Concerns(t[i]).value) <= Rank(Concerns(t[j]).value)
      {
        if j < |t0| {
          assert t[i] == t0[i] && t[j] == t0[j];
        } else if i < |t0| {
          assert t[i] == t0[i];
        }
      }
    }
  }

  /** Whatever the store holds and decides, the calls after the migration come in the
      script's order: those about Manager, then Employee, then alice, then bob. */
  lemma {:induction false} SeedInScriptOrder(s: StoreState, o: Oracle)
    ensures InScriptOrder(Seed(s, o).state.trace, |s.trace| + 1, Rank(BobEntity))
  {
    var m := s.Migrate();
    var manager := SeedManagerRole(m, o);
    SeedManagerRoleAppends(m, o);
    StageInScriptOrder(manager.state.trace, |m.trace|, ManagerEntity);

    var employeeStage := SeedEmployeeRole(manager.state, o);
    var employee := AndThen(manager, employeeStage);
    SeedEmployeeRoleAppends(manager.state, o);
    InScriptOrderAndThen(|m.trace|, manager, employeeStage, EmployeeEntity, Rank(ManagerEntity));

    var aliceStage := SeedUser(employee.state, o, Alice, AliceClaims, ManagerRole);
    var alice := AndThen(employee, aliceStage);
    SeedUserAppends(employee.state, o, Alice, AliceClaims, ManagerRole, AliceEntity);
    InScriptOrderAndThen(|m.trace|, employee, aliceStage, AliceEntity, Rank(EmployeeEntity));

    var bobStage := SeedUser(alice.state, o, Bob, BobClaims, EmployeeRole);
    SeedUserAppends(alice.state, o, Bob, BobClaims, EmployeeRole, BobEntity);
    InScriptOrderAndThen(|m.trace|, alice, bobStage, BobEntity, Rank(AliceEntity));
  }

  /** The console lines the user stages write, spelled out. */
  lemma ConsoleLines()
    ensures Alice + " created" == "alice created" && Bob + " created" == "bob created"
    ensures Alice + " already exists" == "alice already exists" && Bob + " already exists" == "bob already exists"
  {
    assert Alice + " created" == "alice created";
    assert Bob + " created" == "bob created";
    assert Alice + " already exists" == "alice already exists";
    assert Bob + " already exists" == "bob already exists";
  }

  /** When the lookups find both roles by id and both users by name, seeding only migrates
      and reports that alice and bob already exist, whatever the store would decide. */
  lemma SeedSkipsPresent(s: StoreState, o: Oracle)
    requires Present(s, ManagerEntity) && Present(s, EmployeeEntity)
    requires Present(s, AliceEntity) && Present(s, BobEntity)
    ensures Seed(s, o) == Run(s.Migrate(), Completed, ["alice already exists", "bob already exists"])
  {
    var m := s.Migrate();
    assert m.roles == s.roles && m.users == s.users;
    assert SeedManagerRole(m, o) == Run(m, Completed, []);
    assert SeedEmployeeRole(m, o) == Run(m, Completed, []);
    ConsoleLines();
    assert SeedUser(m, o, Alice, AliceClaims, ManagerRole) == Run(m, Completed, ["alice already exists"]);
    assert SeedUser(m, o, Bob, BobClaims, EmployeeRole) == Run(m, Completed, ["bob already exists"]);
  }

  /** The Manager lookup is by id: a store with no role whose id is "Manager" gets a request
      to create a role named Manager right after the migration, even when it already holds
      a role of that name. */
  lemma ManagerLookupIsById(s: StoreState, o: Oracle)
    requires RoleWithId(s.roles, ManagerRole).None?
    ensures var t := Seed(s, o).state.trace;
      |s.trace| + 1 < |t| && t[|s.trace| + 1] == CreateRoleCall(RoleRow(o.freshId(|s.trace| + 1), ManagerRole))
  {
    var m := s.Migrate();
    var manager := SeedManagerRole(m, o);
    assert manager.state.trace[|s.trace| + 1] == CreateRoleCall(RoleRow(o.freshId(|s.trace| + 1), ManagerRole));
    var employee := AndThen(manager, SeedEmployeeRole(manager.state, o));
    SeedEmployeeRoleSettles(manager.state, o);
    var alice := AndThen(employee, SeedUser(employee.state, o, Alice, AliceClaims, ManagerRole));
    SeedUserSettles(employee.state, o, Alice, AliceClaims, ManagerRole);
    SeedUserSettles(alice.state, o, Bob, BobClaims, EmployeeRole);
    ExtendsTransitive(manager.state, employee.state, alice.state);
    ExtendsTransitive(manager.state, alice.state, Seed(s, o).state);
  }

  /** The Manager stage when nothing fails: a role named Manager with the store's fresh id,
      its two claims in order, and three recorded calls. */
  lemma SeedManagerRoleCreates(s: StoreState, o: Oracle)
    requires RoleWithId(s.roles, ManagerRole).None?
    requires AllSucceeded(o, |s.trace|, |s.trace| + 3)
    ensures var id := o.freshId(|s.trace|);
      SeedManagerRole(s, o) == Run(
        s.(roles := s.roles + [RoleRow(id, ManagerRole)],
           roleClaims := s.roleClaims + [RoleClaimRow(id, SysAdminClaim), RoleClaimRow(id, WriteAccessClaim)],
           trace := s.trace + [CreateRoleCall(RoleRow(id, ManagerRole)), AddRoleClaimCall(id, SysAdminClaim),
                               AddRoleClaimCall(id, WriteAccessClaim)]),
        Completed, ["Manager role created"])
  {
    var n := |s.trace|;
    assert o.decide(n).Succeeded? && o.decide(n + 1).Succeeded? && o.decide(n + 2).Succeeded?;
  }

  lemma SeedEmployeeRoleCreates(s: StoreState, o: Oracle)
    requires RoleWithId(s.roles, EmployeeRole).None?
    requires AllSucceeded(o, |s.trace|, |s.trace| + 2)
    ensures var id := o.freshId(|s.trace|);
      SeedEmployeeRole(s, o) == Run(
        s.(roles := s.roles + [RoleRow(id, EmployeeRole)],
           roleClaims := s.roleClaims + [RoleClaimRow(id, ReadOnlyClaim)],
           trace := s.trace + [CreateRoleCall(RoleRow(id, EmployeeRole)), AddRoleClaimCall(id, ReadOnlyClaim)]),
        Completed, ["Employee role created"])
  {
    var n := |s.trace|;
    assert o.decide(n).Succeeded? && o.decide(n + 1).Succeeded?;
  }

  lemma SeedUserCreates(s: StoreState, o: Oracle, userName: string, claims: seq<Claim>, roleName: string)
    requires UserNamed(s.users, userName).None?
    requires AllSucceeded(o, |s.trace|, |s.trace| + 3)
    ensures var user := NewUser(o.freshId(|s.trace|), userName);
      SeedUser(s, o, userName, claims, roleName) == Run(
        s.(users := s.users + [user],
           userClaims := s.userClaims + ClaimRows(user.id, claims),
           userRoles := s.userRoles + [UserRoleRow(user.id, roleName)],
           trace := s.trace + [CreateUserCall(user, Password), AddClaimsCall(user.id, claims),
                               AddToRoleCall(user.id, roleName)]),
        Completed, [userName + " created"])
  {
    var n := |s.trace|;
    assert o.decide(n).Succeeded? && o.decide(n + 1).Succeeded?  && o.decide(n + 2).Succeeded?;
  }

  /** The store once both roles are seeded on an empty store where every call succeeds. */
  function RolesOnEmpty(o: Oracle): StoreState {
    var manager, employee := o.freshId(1), o.freshId(4);
    StoreState([RoleRow(manager, ManagerRole), RoleRow(employee, EmployeeRole)],
               [RoleClaimRow(manager, SysAdminClaim), RoleClaimRow(manager, WriteAccessClaim),
                RoleClaimRow(employee, ReadOnlyClaim)],
               [], [], [],
               [MigrateCall, CreateRoleCall(RoleRow(manager, ManagerRole)), AddRoleClaimCall(manager, SysAdminClaim),
                AddRoleClaimCall(manager, WriteAccessClaim), CreateRoleCall(RoleRow(employee, EmployeeRole)),
                AddRoleClaimCall(employee, ReadOnlyClaim)])
  }

  /** The store once alice and bob are seeded after that. */
  function UsersOnEmpty(o: Oracle): StoreState {
    var alice, bob := o.freshId(6), o.freshId(9);
    RolesOnEmpty(o).(
      users := [NewUser(alice, Alice), NewUser(bob, Bob)],
      userClaims := ClaimRows(alice, AliceClaims) + ClaimRows(bob, BobClaims),
      userRoles := [UserRoleRow(alice, ManagerRole), UserRoleRow(bob, EmployeeRole)],
      trace := RolesOnEmpty(o).trace +
        [CreateUserCall(NewUser(alice, Alice), Password), AddClaimsCall(alice, AliceClaims),
         AddToRoleCall(alice, ManagerRole),
         CreateUserCall(NewUser(bob, Bob), Password), AddClaimsCall(bob, BobClaims), AddToRoleCall(bob, EmployeeRole)])
  }

  /** The two role stages of a seeding of an empty store where every call succeeds. */
  lemma SeedRolesOnEmptyStore(o: Oracle)
    requires AllSucceeded(o, 1, 6)
    requires o.freshId(1) != EmployeeRole
    ensures var manager := SeedManagerRole(EmptyState.Migrate(), o);
      AndThen(manager, SeedEmployeeRole(manager.state, o))
        == Run(RolesOnEmpty(o), Completed, ["Manager role created", "Employee role created"])
  {
    var manager, employee := o.freshId(1), o.freshId(4);
    var m := EmptyState.Migrate();
    SeedManagerRoleCreates(m, o);
    var s1 := StoreState([RoleRow(manager, ManagerRole)],
                         [RoleClaimRow(manager, SysAdminClaim), RoleClaimRow(manager, WriteAccessClaim)], [], [], [],
                         RolesOnEmpty(o).trace[..4]);
    assert SeedManagerRole(m, o) == Run(s1, Completed, ["Manager role created"]);
    SeedEmployeeRoleCreates(s1, o);
  }

  /** The two user stages after those, every call succeeding. */
  lemma SeedUsersOnEmptyStore(o: Oracle)
    requires AllSucceeded(o, 6, 12)
    ensures var employee := Run(RolesOnEmpty(o), Completed, ["Manager role created", "Employee role created"]);
      var alice := AndThen(employee, SeedUser(employee.state, o, Alice, AliceClaims, ManagerRole));
      AndThen(alice, SeedUser(alice.state, o, Bob, BobClaims, EmployeeRole))
        == Run(UsersOnEmpty(o), Completed, ["Manager role created", "Employee role created", "alice created", "bob created"])
  {
    var s2 := RolesOnEmpty(o);
    var alice := o.freshId(6);
    SeedUserCreates(s2, o, Alice, AliceClaims, ManagerRole);
    var s3 := s2.(users := [NewUser(alice, Alice)], userClaims := ClaimRows(alice, AliceClaims),
                  userRoles := [UserRoleRow(alice, ManagerRole)], trace := UsersOnEmpty(o).trace[..9]);
    assert s2.userClaims + ClaimRows(alice, AliceClaims) == ClaimRows(alice, AliceClaims);
    ConsoleLines();
    assert SeedUser(s2, o, Alice, AliceClaims, ManagerRole) == Run(s3, Completed, ["alice created"]);
    assert UserNamed(s3.users, Bob).None?;
    SeedUserCreates(s3, o, Bob, BobClaims, EmployeeRole);
  }

  /** Seeding an empty store whose every call succeeds: two roles with their claims, alice
      and bob with their claims and roles, the twelve calls in script order, and four
      console lines.
      The only condition is that the id the store gives Manager is not "Employee", since
      the Employee lookup is by id. */
  lemma SeedOnEmptyStore(o: Oracle)
    requires forall n :: o.decide(n) == Succeeded
    requires o.freshId(1) != EmployeeRole
    ensures var r := Seed(EmptyState, o);
      var manager, employee, alice, bob := o.freshId(1), o.freshId(4), o.freshId(6), o.freshId(9);
      && r.outcome == Completed
      && r.log == ["Manager role created", "Employee role created", "alice created", "bob created"]
      && r.state.roles == [RoleRow(manager, ManagerRole), RoleRow(employee, EmployeeRole)]
      && r.state.roleClaims == [RoleClaimRow(manager, SysAdminClaim), RoleClaimRow(manager, WriteAccessClaim),
                                RoleClaimRow(employee, ReadOnlyClaim)]
      && r.state.users == [NewUser(alice, Alice), NewUser(bob, Bob)]
      && r.state.userClaims == ClaimRows(alice, AliceClaims) + ClaimRows(bob, BobClaims)
      && r.state.userRoles == [UserRoleRow(alice, ManagerRole), UserRoleRow(bob, EmployeeRole)]
      && r.state.trace == [
           MigrateCall,
           CreateRoleCall(RoleRow(manager, ManagerRole)), AddRoleClaimCall(manager, SysAdminClaim),
           AddRoleClaimCall(manager, WriteAccessClaim),
           CreateRoleCall(RoleRow(employee, EmployeeRole)), AddRoleClaimCall(employee, ReadOnlyClaim),
           CreateUserCall(NewUser(alice, Alice), Password), AddClaimsCall(alice, AliceClaims),
           AddToRoleCall(alice, ManagerRole),
           CreateUserCall(NewUser(bob, Bob), Password), AddClaimsCall(bob, BobClaims), AddToRoleCall(bob, EmployeeRole)]
  {
    SeedOnEmptyStoreRun(o);
  }

  lemma SeedOnEmptyStoreRun(o: Oracle)
    requires forall n :: o.decide(n) == Succeeded
    requires o.freshId(1) != EmployeeRole
    ensures Seed(EmptyState, o)
         == Run(UsersOnEmpty(o), Completed, ["Manager role created", "Employee role created", "alice created", "bob created"])
  {
    assert AllSucceeded(o, 1, 6) && AllSucceeded(o, 6, 12);
    SeedRolesOnEmptyStore(o);
    SeedUsersOnEmptyStore(o);
  }

  /** What the first end-to-end run promises: alice is found by name, reads back her 7
      claims as stored and holds the Manager role, whose claims are sysadmin and
      write_access; bob reads back his 8 claims as stored and holds Employee, whose claim
      is read_only. This needs the
      store's ids for different roles, and for different users, to differ. */
  lemma SeedOnEmptyStoreProvisions(o: Oracle)
    requires forall n :: o.decide(n) == Succeeded
    requires o.freshId(1) != EmployeeRole && o.freshId(1) != o.freshId(4) && o.freshId(6) != o.freshId(9)
    ensures var st := Seed(EmptyState, o).state;
      && UserNamed(st.users, Alice) == Some(NewUser(o.freshId(6), Alice))
      && RolesOfUser(st.userRoles, o.freshId(6)) == [ManagerRole]
      && RoleNamed(st.roles, ManagerRole) == Some(RoleRow(o.freshId(1), ManagerRole))
      && ClaimsOfRole(st.roleClaims, o.freshId(1)) == [SysAdminClaim, WriteAccessClaim]
      && UserNamed(st.users, Bob) == Some(NewUser(o.freshId(9), Bob))
      && RolesOfUser(st.userRoles, o.freshId(9)) == [EmployeeRole]
      && RoleNamed(st.roles, EmployeeRole) == Some(RoleRow(o.freshId(4), EmployeeRole))
      && ClaimsOfRole(st.roleClaims, o.freshId(4)) == [ReadOnlyClaim]
      && ClaimsOfUser(st.userClaims, o.freshId(6)) == StoredAll(AliceClaims)
      && ClaimsOfUser(st.userClaims, o.freshId(9)) == StoredAll(BobClaims)
  {
    SeedOnEmptyStore(o);
    var alice, bob := o.freshId(6), o.freshId(9);
    ClaimsOfUserAfterAddClaims(ClaimRows(alice, AliceClaims), bob, BobClaims, alice);
    ClaimsOfUserAfterAddClaims(ClaimRows(alice, AliceClaims), bob, BobClaims, bob);
    ClaimsOfUserOfRows(alice, AliceClaims, alice);
    ClaimsOfUserOfRows(alice, AliceClaims, bob);
    RolesOfTwoUsers(o.freshId(6), o.freshId(9), ManagerRole, EmployeeRole);
    ClaimsOfTwoRoles(o.freshId(1), o.freshId(4), SysAdminClaim, WriteAccessClaim, ReadOnlyClaim);
    var st := Seed(EmptyState, o).state;
    assert st.roles[1..] == [RoleRow(o.freshId(4), EmployeeRole)];
    assert st.users[1..] == [NewUser(o.freshId(9), Bob)];
  }

  /** The seeded user claims do not read back as written: `email_verified` was written
      with a Boolean value type and `address` with a JSON one, and both come back as
      strings. The seeded role claims are all strings and read back unchanged. */
  lemma SeededClaimsReadBack()
    ensures StoredAll(AliceClaims)[4] == StringClaim(EmailVerified, "true") != AliceClaims[4]
    ensures StoredAll(AliceClaims)[6] == StringClaim(Address, AddressText) != AliceClaims[6]
    ensures StoredAll(BobClaims)[4] == StringClaim(EmailVerified, "true") != BobClaims[4]
    ensures StoredAll(BobClaims)[6] == StringClaim(Address, AddressText) != BobClaims[6]
    ensures StoredAll([SysAdminClaim, WriteAccessClaim, ReadOnlyClaim]) == [SysAdminClaim, WriteAccessClaim, ReadOnlyClaim]
  {
    StoredAllUnchanged([SysAdminClaim, WriteAccessClaim, ReadOnlyClaim]);
  }

  lemma RolesOfTwoUsers(a: string, b: string, x: string, y: string)
    requires a != b
    ensures RolesOfUser([UserRoleRow(a, x), UserRoleRow(b, y)], a) == [x]
    ensures RolesOfUser([UserRoleRow(a, x), UserRoleRow(b, y)], b) == [y]
  {
    var rows := [UserRoleRow(a, x), UserRoleRow(b, y)];
    assert rows[1..] == [UserRoleRow(b, y)] && rows[1..][1..] == [];
    assert RolesOfUser(rows[1..], a) == [] + RolesOfUser(rows[1..][1..], a) == [];
    assert RolesOfUser(rows[1..], b) == [y] + RolesOfUser(rows[1..][1..], b) == [y];
  }

  lemma ClaimsOfTwoRoles(m: string, e: string, c1: Claim, c2: Claim, c3: Claim)
    requires m != e
    ensures ClaimsOfRole([RoleClaimRow(m, c1), RoleClaimRow(m, c2), RoleClaimRow(e, c3)], m) == [Stored(c1), Stored(c2)]
    ensures ClaimsOfRole([RoleClaimRow(m, c1), RoleClaimRow(m, c2), RoleClaimRow(e, c3)], e) == [Stored(c3)]
  {
    var rows := [RoleClaimRow(m, c1), RoleClaimRow(m, c2), RoleClaimRow(e, c3)];
    assert rows[1..] == [RoleClaimRow(m, c2), RoleClaimRow(e, c3)];
    var tail := rows[1..][1..];
    assert tail == [RoleClaimRow(e, c3)] && tail[1..] == [];
    assert ClaimsOfRole(tail, m) == [] + ClaimsOfRole(tail[1..], m) == [];
    assert ClaimsOfRole(tail, e) == [Stored(c3)] + ClaimsOfRole(tail[1..], e) == [Stored(c3)];
    assert ClaimsOfRole(rows[1..], m) == [Stored(c2)] + ClaimsOfRole(tail, m) == [Stored(c2)];
    assert ClaimsOfRole(rows[1..], e) == [] + ClaimsOfRole(tail, e) == [Stored(c3)];
  }

  /** A rerun after a complete first run on an empty store is a no-op apart from the
      migration only when the store happened to give the roles ids equal to their names. */
  lemma RerunIsNoOpWhenIdsAreNames(o: Oracle, o2: Oracle)
    requires forall n :: o.decide(n) == Succeeded
    requires o.freshId(1) == ManagerRole && o.freshId(4) == EmployeeRole
    ensures var first := Seed(EmptyState, o).state;
      Seed(first, o2) == Run(first.Migrate(), Completed, ["alice already exists", "bob already exists"])
  {
    SeedOnEmptyStore(o);
    var first := Seed(EmptyState, o).state;
    assert first.roles[0].id == ManagerRole && first.roles[1].id == EmployeeRole;
    assert first.users[0].userName == Alice && first.users[1].userName == Bob;
    SeedSkipsPresent(first, o2);
  }

  /** With store-chosen ids that differ from the names, a rerun after a complete first run
      asks to create a second role named Manager. */
  lemma RerunRecreatesManager(o: Oracle, o2: Oracle)
    requires forall n :: o.decide(n) == Succeeded
    requires o.freshId(1) != ManagerRole && o.freshId(1) != EmployeeRole && o.freshId(4) != ManagerRole
    ensures var first := Seed(EmptyState, o).state;
      var second := Seed(first, o2).state.trace;
      && RoleNamed(first.roles, ManagerRole).Some?
      && |second| > 13 && second[13] == CreateRoleCall(RoleRow(o2.freshId(13), ManagerRole))
  {
    SeedOnEmptyStoreRun(o);
    var first := Seed(EmptyState, o).state;
    assert first.roles[0].name == ManagerRole;
    assert first.roles[1..] == [RoleRow(o.freshId(4), EmployeeRole)] && first.roles[1..][1..] == [];
    ManagerLookupIsById(first, o2);
  }

  /** A failure part-way leaves what was done in place: when the Manager role is created but
      its sysadmin claim is refused, the run aborts with that refusal and the store keeps a
      Manager role with no claims. */
  lemma ManagerClaimFailureLeavesBareRole(s: StoreState, o: Oracle)
    requires RoleWithId(s.roles, ManagerRole).None?
    requires o.decide(|s.trace| + 1).Succeeded? && o.decide(|s.trace| + 2).Failed?
    ensures var r := Seed(s, o);
      && r.outcome == Aborted(ErrorMessage(o.decide(|s.trace| + 2).errors))
      && r.state.roles == s.roles + [RoleRow(o.freshId(|s.trace| + 1), ManagerRole)]
      && r.state.roleClaims == s.roleClaims
      && r.state.users == s.users
      && r.log == []
  {
    var n := |s.trace|;
    var m := s.Migrate();
    var (s1, created, role) := m.CreateRole(o, ManagerRole);
    assert created == Succeeded && s1.roles == s.roles + [role];
    var (s2, sysAdmin) := s1.AddRoleClaim(o, role, SysAdminClaim);
    assert sysAdmin.Failed? && s2.roleClaims == s.roleClaims;
    assert SeedManagerRole(m, o) == Abort(s2, sysAdmin);
  }

  /** The same for a user block: a user created but whose claim batch is refused is left
      with no claims and no role, and the block aborts with that refusal. */
  lemma UserClaimsFailureLeavesBareUser(s: StoreState, o: Oracle, userName: string, claims: seq<Claim>, roleName: string)
    requires UserNamed(s.users, userName).None?
    requires o.decide(|s.trace|).Succeeded? && o.decide(|s.trace| + 1).Failed?
    ensures var r := SeedUser(s, o, userName, claims, roleName);
      && r.outcome == Aborted(ErrorMessage(o.decide(|s.trace| + 1).errors))
      && r.state.users == s.users + [NewUser(o.freshId(|s.trace|), userName)]
      && r.state.userClaims == s.userClaims && r.state.userRoles == s.userRoles
  {
  }

  // ---- The script as a method over the mutable store ----

  method EnsureManagerRole(store: Store) returns (outcome: Outcome, log: seq<string>)
    modifies store
    ensures Run(store.State(), outcome, log) == SeedManagerRole(old(store.State()), store.oracle)
  {
    log := [];
    var managerRole := store.FindRoleById(ManagerRole);
    if managerRole.None? {
      var result, role := store.CreateRole(ManagerRole);
      if result.Failed? {
        return Aborted(ErrorMessage(result.errors)), log;
      }
      var sysAdminClaimResult := store.AddRoleClaim(role, SysAdminClaim);
      if sysAdminClaimResult.Failed? {
        return Aborted(ErrorMessage(sysAdminClaimResult.errors)), log;
      }
      var writeAccessClaimResult := store.AddRoleClaim(role, WriteAccessClaim);
      if writeAccessClaimResult.Failed? {
        return Aborted(ErrorMessage(writeAccessClaimResult.errors)), log;
      }
      log := log + ["Manager role created"];
    }
    outcome := Completed;
  }

  method EnsureEmployeeRole(store: Store) returns (outcome: Outcome, log: seq<string>)
    modifies store
    ensures Run(store.State(), outcome, log) == SeedEmployeeRole(old(store.State()), store.oracle)
  {
    log := [];
    var employeeRole := store.FindRoleById(EmployeeRole);
    if employeeRole.None? {
      var result, role := store.CreateRole(EmployeeRole);
      if result.Failed? {
        return Aborted(ErrorMessage(result.errors)), log;
      }
      var claimResult := store.AddRoleClaim(role, ReadOnlyClaim);
      if claimResult.Failed? {
        return Aborted(ErrorMessage(claimResult.errors)), log;
      }
      log := log + ["Employee role created"];
    }
    outcome := Completed;
  }

  method EnsureUser(store: Store, userName: string, claims: seq<Claim>, roleName: string)
    returns (outcome: Outcome, log: seq<string>)
    modifies store
    ensures Run(store.State(), outcome, log) == SeedUser(old(store.State()), store.oracle, userName, claims, roleName)
  {
    log := [];
    var existing := store.FindUserByName(userName);
    if existing.None? {
      var result, user := store.CreateUser(userName, Password);
      if result.Failed? {
        return Aborted(ErrorMessage(result.errors)), log;
      }
      result := store.AddClaims(user, claims);
      if result.Failed? {
        return Aborted(ErrorMessage(result.errors)), log;
      }
      var addRoleResult := store.AddToRole(user, roleName);
      if addRoleResult.Failed? {
        return Aborted(ErrorMessage(addRoleResult.errors)), log;
      }
      log := log + [userName + " created"];
    } else {
      log := log + [userName + " already exists"];
    }
    outcome := Completed;
  }

  /** `EnsureSeedData`: the whole script, stopping at the first failure. */
  method EnsureSeedData(store: Store) returns (outcome: Outcome, log: seq<string>)
    modifies store
    ensures Run(store.State(), outcome, log) == Seed(old(store.State()), store.oracle)
  {
    ghost var s := store.State();
    store.Migrate();
    outcome, log := EnsureManagerRole(store);
    ghost var manager := SeedManagerRole(s.Migrate(), store.oracle);
    if outcome.Aborted? {
      return;
    }
    var more: seq<string>;
    outcome, more := EnsureEmployeeRole(store);
    ghost var employee := AndThen(manager, SeedEmployeeRole(manager.state, store.oracle));
    log := log + more;
    if outcome.Aborted? {
      return;
    }
    outcome, more := EnsureUser(store, Alice, AliceClaims, ManagerRole);
    ghost var alice := AndThen(employee, SeedUser(employee.state, store.oracle, Alice, AliceClaims, ManagerRole));
    log := log + more;
    if outcome.Aborted? {
      return;
    }
    outcome, more := EnsureUser(store, Bob, BobClaims, EmployeeRole);
    log := log + more;
  }
}
