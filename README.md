# Claims derivation and bootstrap seeding, modelled in Dafny

This project models two pieces of the IdentityServer4 ASP.NET Identity integration and
its sample host.

- **`UserClaimsFactory.CreateAsync`** takes the first identity of the principal that the
  wrapped default factory built for a user. It edits that identity's claims in place, in
  a fixed order:
  1. add `sub` when no claim has that type;
  2. swap the first claim of the configured username type whose value is the username for
     a `preferred_username` claim;
  3. add `name` when none is present;
  4. append the `email`/`email_verified` pair;
  5. append the `phone_number`/`phone_number_verified` pair;
  6. append one `role` claim per role of the user, then each role's own claims.

  Each step reads the identity as the earlier steps left it.
- **`SeedData.EnsureSeedData`** is the host's start-up script. It migrates the database. It
  makes sure the roles Manager (`sysadmin`, `write_access`) and Employee (`read_only`)
  exist. It makes sure the users alice (a Manager) and bob (an Employee) exist, each with a
  password, a claim batch and one role. The first store call that fails ends the script
  with that call's first error description. Whatever was done before the failure stays
  done.

Files:

- `claims.dfy`: claims and the mutable `ClaimsIdentity` class.
- `identity_store.dfy`: the identity store, in two forms.
  - `StoreState` is the store as a value: tables of rows that mutating calls append to, and
    a trace of those calls.
  - `Store` is the store as an object, and each of its methods is proved to do exactly what
    the matching `StoreState` function does.
  - An `Oracle` decides what the library code behind `UserManager`/`RoleManager` decides:
    whether a mutating call succeeds, and which id a new role or user gets.
- `user_claims_factory.dfy`: the factory.
  - `Factory.CreateAsync` is a method that edits the identity in place, with a loop over
    the roles. It is proved equal to the specification function `Derive`.
  - Lemmas about `Derive` state the per-step promises.
- `seed_data.dfy`: the seeding script.
  - `EnsureSeedData` is a method over `Store`. It is proved equal to the specification
    function `Seed`.
  - Lemmas about `Seed` cover ordering, skipping, aborting and the end state.
- `wrappers.dfy`: `Option`.

Where the code and its documented intent differ, the model follows the code:

- **Roles are looked up by id but created by name.** `FindByIdAsync("Manager")` and
  `FindByIdAsync("Employee")` are followed by the creation of a role *named* Manager or
  Employee, whose id the store chooses. A rerun therefore skips the roles only when the
  store happened to use the names as ids (`RerunIsNoOpWhenIdsAreNames`). Otherwise the
  rerun asks to create a second Manager role (`RerunRecreatesManager`). The model does not
  claim that seeding roles is idempotent. Users are looked up by name, so a rerun does skip
  them (`SeedSkipsPresent`).
- **Only the first username claim is swapped.** Further claims of the username type with
  the same value remain in the identity alongside the new `preferred_username` claim
  (`LaterUserNameClaimSurvives`).
- **An existing `sub` claim is kept whatever its value.** The identity then need not carry
  exactly one `sub` equal to the user's id (`SubjectClaimPresent`).

## Model

| member | source | states |
|---|---|---|
| Claims.ClaimsIdentity.HasClaim | src/IdentityServer4.AspNetIdentity/UserClaimsFactory.cs:34 | The scan over the identity returns true exactly when some claim has the given type. |
| Claims.ClaimsIdentity.FindFirst | src/IdentityServer4.AspNetIdentity/UserClaimsFactory.cs:41 | The scan returns the claim at the first index whose type and value both match. It returns nothing only when no index matches. |
| Claims.FindFirstIndexIsFirst | src/IdentityServer4.AspNetIdentity/UserClaimsFactory.cs:41 | No claim before the found index matches. When nothing is found, no claim matches. |
| Claims.RemoveFirstOfFound | src/IdentityServer4.AspNetIdentity/UserClaimsFactory.cs:41-44 | Removing the first claim equal to the one `FindFirst` returned removes exactly that index, so removal by instance is modelled faithfully. |
| Claims.ClaimsIdentity.RemoveClaim | src/IdentityServer4.AspNetIdentity/UserClaimsFactory.cs:44 | The identity loses the first claim equal to the given one, and nothing else changes. |
| Claims.ClaimsIdentity.AddClaim | src/IdentityServer4.AspNetIdentity/UserClaimsFactory.cs:37 | The claim is appended at the end. |
| Claims.ClaimsIdentity.AddClaims | src/IdentityServer4.AspNetIdentity/UserClaimsFactory.cs:58-63 | The claims are appended at the end, in order. |
| UserClaimsFactory.Factory.CreateAsync | src/IdentityServer4.AspNetIdentity/UserClaimsFactory.cs:29-95 | The in-place edits leave the identity's claims, together with the first role name that did not resolve, equal to `Derive` of the original claims, the user and the store. |
| UserClaimsFactory.Factory.AddIdentityClaims | src/IdentityServer4.AspNetIdentity/UserClaimsFactory.cs:34-51 | The sub, username-swap and default-name steps run in that order, each on the identity the previous step left. |
| UserClaimsFactory.Factory.AddContactClaims | src/IdentityServer4.AspNetIdentity/UserClaimsFactory.cs:53-79 | The email pair and then the phone pair are appended after the claims already there. |
| UserClaimsFactory.WhiteSpaceTable | src/IdentityServer4.AspNetIdentity/UserClaimsFactory.cs:56 | The white-space table is that of .NET's `Char.IsWhiteSpace`. Spaces, the no-break space, tabs, line breaks and the Unicode line and paragraph separators count; the zero-width space, the byte-order mark and visible characters do not. |
| UserClaimsFactory.NullOrWhiteSpaceScan | src/IdentityServer4.AspNetIdentity/UserClaimsFactory.cs:70 | A null value and the empty string are blank. A non-empty string is blank exactly when its first character is white space and the rest is blank. |
| UserClaimsFactory.Factory.AddRoleClaims | src/IdentityServer4.AspNetIdentity/UserClaimsFactory.cs:81-92 | One role claim per role is appended, then the loop appends each role's claims role by role. It stops at the first role name the store cannot resolve and reports that name. |
| UserClaimsFactory.SubjectAndUserNameSplit | src/IdentityServer4.AspNetIdentity/UserClaimsFactory.cs:34-46 | After the sub and username steps, the identity is the base less its first username claim, followed by the sub and preferred_username claims. Which of those two appear is decided from the base alone. |
| UserClaimsFactory.DefaultNameAfter | src/IdentityServer4.AspNetIdentity/UserClaimsFactory.cs:48-51 | The name step sees only the name claims that survive from the base, because the claims appended before it are never of type `name`. |
| UserClaimsFactory.ProfileSplits | src/IdentityServer4.AspNetIdentity/UserClaimsFactory.cs:31-79 | Nothing else changes: after steps 1 to 5 the identity is the base claims in their original order, less at most the first username claim, followed by the appended claims. |
| UserClaimsFactory.SubjectClaimPresent | src/IdentityServer4.AspNetIdentity/UserClaimsFactory.cs:34-38 | A base without `sub` ends with exactly one `sub`, whose value is the user's id. A base with a `sub` gets no new one. |
| UserClaimsFactory.PreferredUserNameAdded | src/IdentityServer4.AspNetIdentity/UserClaimsFactory.cs:40-46 | Exactly one `preferred_username` is added when a username claim was found, and none otherwise. A base with no username claim keeps all its claims as the prefix. |
| UserClaimsFactory.LaterUserNameClaimSurvives | src/IdentityServer4.AspNetIdentity/UserClaimsFactory.cs:41-45 | When a second matching username claim follows the first, it is still present after the swap, among the kept base claims, alongside the new `preferred_username`. |
| UserClaimsFactory.NameClaimPresent | src/IdentityServer4.AspNetIdentity/UserClaimsFactory.cs:48-51 | `name = username` is appended exactly when no `name` claim survives the earlier steps. Afterwards at least one `name` claim exists. |
| UserClaimsFactory.EmailClaimsPaired | src/IdentityServer4.AspNetIdentity/UserClaimsFactory.cs:53-65 | `email` and `email_verified` are each added once, adjacent and in that order, with the confirmed flag as a Boolean text value. This happens exactly when email is supported and the address is not null or white space; otherwise neither is added. |
| UserClaimsFactory.PhoneClaimsPaired | src/IdentityServer4.AspNetIdentity/UserClaimsFactory.cs:67-79 | The same pairing rule for `phone_number` and `phone_number_verified` under phone support. |
| UserClaimsFactory.RoleNameClaimsInOrder | src/IdentityServer4.AspNetIdentity/UserClaimsFactory.cs:86 | One `role` claim per role name, carrying that name, in the store's order. |
| UserClaimsFactory.RoleScopedClaimsCorrect | src/IdentityServer4.AspNetIdentity/UserClaimsFactory.cs:88-91 | If every role name resolves, the loop yields each role's claims concatenated in role order, without de-duplication. Otherwise it stops at the first name that does not resolve, having appended the claims of the roles before it. |
| UserClaimsFactory.RoleScopedClaimsStops | src/IdentityServer4.AspNetIdentity/UserClaimsFactory.cs:88-91 | Once a role fails to resolve, later roles add nothing. |
| UserClaimsFactory.DeriveRoleClaims | src/IdentityServer4.AspNetIdentity/UserClaimsFactory.cs:81-92 | Without role support, nothing follows the profile claims. With role support and every role resolving, the profile is followed by the role claims and then the role-scoped claims. Otherwise the missing role is one of the user's roles and has no role of that name. |
| IdentityStore.Store.Migrate | src/Host/SeedData.cs:24 | The migration is recorded as a call, and no table changes. |
| IdentityStore.Store.FindRoleById | src/Host/SeedData.cs:28 | Returns `RoleWithId` of the roles, which `RoleWithIdFindsFirst` proves is the first role with that id, or nothing when none has it. |
| IdentityStore.Store.FindRoleByName | src/IdentityServer4.AspNetIdentity/UserClaimsFactory.cs:90 | Returns `RoleNamed` of the roles, which `RoleNamedFindsFirst` proves is the first role with that name, or nothing when none has it. |
| IdentityStore.Store.FindUserByName | src/Host/SeedData.cs:72 | Returns `UserNamed` of the users, which `UserNamedFindsFirst` proves is the first user with that name, or nothing when none has it. |
| IdentityStore.Store.GetRoles | src/IdentityServer4.AspNetIdentity/UserClaimsFactory.cs:83 | Returns the role names recorded for the user, in the order they were added (`RolesOfUserAfterAddToRole`). |
| IdentityStore.Store.GetRoleClaims | src/IdentityServer4.AspNetIdentity/UserClaimsFactory.cs:90 | Returns the claims recorded for the role's id, in the order they were added and as stored, with a string value type (`ClaimsOfRoleAfterAddRoleClaim`). |
| IdentityStore.Stored | src/IdentityServer4.AspNetIdentity/UserClaimsFactory.cs:90 | A claim read back from the store keeps its type and value, and its value type becomes string. It reads back unchanged exactly when it already had a string value type. |
| IdentityStore.StoredAllUnchanged | src/IdentityServer4.AspNetIdentity/UserClaimsFactory.cs:90 | A batch reads back unchanged exactly when every claim in it has a string value type. |
| IdentityStore.ClaimsOfRoleAfterAddRoleClaim | src/Host/SeedData.cs:38-44 | After a successful `AddClaimAsync` on a role, reading the role's claims back gives its earlier claims followed by the new one as stored. Every other role's claims are unchanged. |
| IdentityStore.RolesOfUserAfterAddToRole | src/Host/SeedData.cs:99 | After a successful `AddToRoleAsync`, reading the user's roles back gives the earlier roles followed by the new one. Every other user's roles are unchanged. |
| IdentityStore.RoleWithIdFindsFirst | src/Host/SeedData.cs:28 | The lookup by id returns the first role with that id, and returns nothing exactly when no role has it. |
| IdentityStore.RoleNamedFindsFirst | src/IdentityServer4.AspNetIdentity/UserClaimsFactory.cs:90 | The lookup by name returns the first role with that name, and returns nothing exactly when none has it. |
| IdentityStore.UserNamedFindsFirst | src/Host/SeedData.cs:72 | The lookup by user name returns the first user with that name, and returns nothing exactly when none has it. |
| IdentityStore.LookupsSurviveExtension | src/Host/SeedData.cs:72-73 | A role found by id, or a user found by name, is still found after rows are appended. |
| IdentityStore.ClaimsOfUserOfRows | src/Host/SeedData.cs:85-93 | A claim batch recorded for one user reads back as that batch in order, each claim as stored, for that user, and as nothing for any other user. |
| IdentityStore.ClaimsOfUserAfterAddClaims | src/Host/SeedData.cs:85-93 | After a successful batch, reading the user's claims back gives the claims the user had, followed by the batch in order, each claim as stored. Every other user's claims are unchanged. |
| IdentityStore.Store.CreateRole | src/Host/SeedData.cs:31-32 | The call is recorded and the oracle decides its outcome. On success, a role with the given name and a store-chosen id is appended. |
| IdentityStore.Store.AddRoleClaim | src/Host/SeedData.cs:38 | The call is recorded. On success, the claim is appended for the role's id. |
| IdentityStore.Store.CreateUser | src/Host/SeedData.cs:75-79 | The call is recorded with its password. On success, a user with the name and a store-chosen id, and with no email or phone, is appended. |
| IdentityStore.Store.AddClaims | src/Host/SeedData.cs:85-93 | The call is recorded. On success, all the claims are appended in one batch. |
| IdentityStore.Store.AddToRole | src/Host/SeedData.cs:99 | The call is recorded. On success, the membership is appended. |
| SeedData.EnsureSeedData | src/Host/SeedData.cs:19-153 | The script's final store, outcome and console lines equal `Seed` of the initial store. |
| SeedData.EnsureManagerRole | src/Host/SeedData.cs:28-50 | The Manager block equals `SeedManagerRole`. |
| SeedData.EnsureEmployeeRole | src/Host/SeedData.cs:52-69 | The Employee block equals `SeedEmployeeRole`. |
| SeedData.EnsureUser | src/Host/SeedData.cs:72-110 | The alice block, and with bob's arguments the bob block (lines 112-151), equals `SeedUser`. |
| SeedData.ErrorMessageIsFirst | src/Host/SeedData.cs:35 | The abort message is the first error's description, whatever errors follow it. With no errors at all, it is the message of the exception `First()` throws. |
| SeedData.SeedSettles | src/Host/SeedData.cs:24-151 | Seeding only appends to the store, and its first call is the migration. It completes exactly when every call after the migration succeeded. Otherwise it stops right after the first failed call, with that call's first error description, or the `First()` message when the error list is empty. |
| SeedData.SeedManagerRoleSettles | src/Host/SeedData.cs:28-50 | The Manager block only appends. It completes when all its calls succeed, and otherwise aborts on the first failure with that failure's message. |
| SeedData.SeedEmployeeRoleSettles | src/Host/SeedData.cs:52-69 | The same for the Employee block. |
| SeedData.SeedUserSettles | src/Host/SeedData.cs:72-110 | The same for a user block. |
| SeedData.SeedManagerRoleCalls | src/Host/SeedData.cs:28-50 | Every call the Manager block makes concerns the Manager role. If the lookup finds it, the block makes no call and changes nothing. |
| SeedData.SeedEmployeeRoleCalls | src/Host/SeedData.cs:52-69 | The same for Employee. |
| SeedData.SeedUserCalls | src/Host/SeedData.cs:72-110 | Every call a user block makes concerns that user. If the user is found by name, the block makes no call and changes nothing. |
| SeedData.SettledAndThen | src/Host/SeedData.cs:33-36 | Running a block only when the previous one completed keeps the settle property across the sequence. |
| SeedData.SeedTouchesOnlyAbsent | src/Host/SeedData.cs:28-151 | Every call after the migration concerns a role or user that the initial store's lookups did not find. |
| SeedData.SeedInScriptOrder | src/Host/SeedData.cs:28-151 | For every starting store and every store decision, the calls after the migration come in script order. First come the calls about Manager, then Employee, then alice, then bob; no call about a later item comes before a call about an earlier one. |
| SeedData.InScriptOrderAndThen | src/Host/SeedData.cs:33-36 | Running a block whose calls are all about the next item in the script, and only when the blocks before it completed, keeps the calls in script order. |
| SeedData.SeedSkipsPresent | src/Host/SeedData.cs:28-151 | When both roles are found by id and both users by name, seeding only migrates and writes "alice already exists" and "bob already exists", whatever the store would decide. |
| SeedData.ManagerLookupIsById | src/Host/SeedData.cs:28-32 | A store with no role whose id is "Manager" is asked, right after the migration, to create a role named Manager, even when it already holds a role of that name. |
| SeedData.SeedManagerRoleCreates | src/Host/SeedData.cs:28-50 | When Manager is absent and every call succeeds, the block creates Manager and then adds `sysadmin` and `write_access`, in that order. |
| SeedData.SeedEmployeeRoleCreates | src/Host/SeedData.cs:52-69 | When Employee is absent and every call succeeds, the block creates Employee with the single claim `read_only`. |
| SeedData.SeedUserCreates | src/Host/SeedData.cs:72-106 | When the user is absent and every call succeeds, the user is created with the password. The claim batch is then recorded in order, and the user joins the role. |
| SeedData.SeedRolesOnEmptyStore | src/Host/SeedData.cs:28-69 | On an empty store where every call succeeds, the two role blocks leave exactly the two roles and their three claims. |
| SeedData.SeedUsersOnEmptyStore | src/Host/SeedData.cs:72-146 | Following that, the two user blocks leave exactly alice and bob, with their claims and roles. |
| SeedData.SeedOnEmptyStore | src/Host/SeedData.cs:24-146 | On an empty store where every call succeeds, the run produces the exact final tables: alice's 7 claims and bob's 8, including `location`, with Boolean `email_verified` and JSON `address`. It also produces the twelve calls in script order (migrate, Manager, Employee, alice, bob) and the four console lines. |
| SeedData.SeedOnEmptyStoreRun | src/Host/SeedData.cs:24-146 | The same run as a whole: it completes with the four console lines, and its store is exactly the two roles, the two users and their rows. |
| SeedData.SeedOnEmptyStoreProvisions | src/Host/SeedData.cs:28-144 | After that run, alice is found by name, her claims read back as her 7 listed claims in order with string value types, and she holds Manager, whose claims are `sysadmin` and `write_access`. bob's claims read back as his 8 listed claims with string value types, and he holds Employee, whose claim is `read_only`. |
| SeedData.SeededClaimsReadBack | src/Host/SeedData.cs:85-93 | alice's and bob's `email_verified` (Boolean) and `address` (JSON) claims read back with a string value type, so their claims do not read back exactly as written. The role claims, all strings, read back unchanged. |
| SeedData.RerunIsNoOpWhenIdsAreNames | src/Host/SeedData.cs:28-151 | A rerun after a complete first run is a no-op apart from the migration, provided the store gave the roles ids equal to their names. |
| SeedData.RerunRecreatesManager | src/Host/SeedData.cs:28-32 | When the ids differ from the names, a rerun asks to create a second role named Manager. |
| SeedData.ManagerClaimFailureLeavesBareRole | src/Host/SeedData.cs:32-41 | If Manager is created but its `sysadmin` claim is refused, the run aborts with that refusal. The store keeps a Manager role with no claims, and nothing else runs. |
| SeedData.UserClaimsFailureLeavesBareUser | src/Host/SeedData.cs:79-97 | If a user is created but its claim batch is refused, the block aborts with that refusal. The user is kept with no claims and no role. |

## Left out

- Dependency injection, the service scope and the `Decorator` that wraps the inner factory are not modelled. The base identity and the store are parameters instead.
- `principal.Identities.First()` and returning the same principal are not modelled. The factory is given the identity it edits, in place.
- `async`/`await` and `.Result` blocking are not modelled. Store calls are plain sequential calls.
- What `UserManager` and `RoleManager` do inside is not modelled: password hashing and validation, duplicate-name checks, name normalisation and id generation. The `Oracle` stands for their decisions. Lookups compare names exactly, with no normalisation.
- Exceptions that the library throws are not modelled as distinct outcomes. One example is `AddToRoleAsync` when no role of that name exists. Every call either returns the oracle's result or aborts through it.
- White space is decided by .NET's `Char.IsWhiteSpace` table, written out as a list of code points rather than left abstract. Any other notion of "blank" is not modelled.
- `Database.Migrate()` is kept only as the first recorded call. The schema is not modelled.
- Console output is kept as a sequence of lines in the run's result.
- The address claim's JSON text is kept as opaque text.
- The claim issuer and claim properties are not modelled. A claim is its type, value and value type. The store keeps only a claim's type and value, so every claim it reads back has a string value type (`Stored`).
- Null values are not modelled: null user names, ids and role lists are not represented. A null email or phone number is `None`.
- The store is modelled as sequences of rows rather than as keyed tables. Lookups return the first match.
- The null role that `FindByNameAsync` returns for an unknown role name is not modelled as a crash. `GetClaimsAsync` would throw on it; in the model, the derivation stops there and reports the role name, with the claims added so far left in the identity.
- `src/Host/Quickstart/Claims/ClaimsController.cs` is not part of this model; it only renders a view.
- UserClaimsFactory.SubjectClaimPresent: requires that the username claim type is not `sub`. With that type, the appended `sub` claim can itself be swapped for `preferred_username`; `ProfileSplits` and `SubjectSwapped` describe that case.
- UserClaimsFactory.PreferredUserNameAdded: requires that the username claim type is not `preferred_username`. With that type, the count also loses the removed claim.
- UserClaimsFactory.LaterUserNameClaimSurvives: carries the same requirement, for the same reason.
- UserClaimsFactory.EmailClaimsPaired: requires that the username claim type is neither `email` nor `email_verified`. Otherwise step 2 may remove a base claim of that type and change the count.
- UserClaimsFactory.PhoneClaimsPaired: the same requirement for the phone claim types.
- SeedData.SeedOnEmptyStore: covers only a store where every call succeeds and the id given to Manager is not "Employee". Failures are covered by `SeedSettles` and the two failure lemmas.
- SeedData.SeedOnEmptyStoreProvisions: additionally requires that the store gives the two roles different ids, and the two users different ids.
