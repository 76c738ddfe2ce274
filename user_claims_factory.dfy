/** The claims factory: augments the first identity of the principal that the wrapped
    default factory built for a user with subject, preferred username, default name,
    email and phone pairs, and role and role-scoped claims, step by step, each step
    reading the identity as the previous steps left it. */
module UserClaimsFactory {
  import opened Wrappers
  import opened Claims
  import opened IdentityStore

  /** `Char.IsWhiteSpace`: the Unicode space, line and paragraph separators, the
      control characters U+0009 to U+000D, U+0085 and U+00A0. */
  predicate IsWhiteSpace(c: char) {
    c == ' ' || ('\t' <= c <= '\r') || c == '\U{0085}' || c == '\U{00A0}' || c == '\U{1680}'
    || ('\U{2000}' <= c <= '\U{200A}') || c == '\U{2028}' || c == '\U{2029}' || c == '\U{202F}'
    || c == '\U{205F}' || c == '\U{3000}'
  }

  /** `String.IsNullOrWhiteSpace`; `None` stands for null. */
  predicate IsNullOrWhiteSpace(s: Option<string>) {
    s.None? || forall i | 0 <= i < |s.value| :: IsWhiteSpace(s.value[i])
  }

  /** The table: ordinary and no-break spaces, tabs, line breaks and the Unicode line and
      paragraph separators count; the zero-width space and the byte-order mark do not. */
  lemma WhiteSpaceTable()
    ensures IsWhiteSpace(' ') && IsWhiteSpace('\t') && IsWhiteSpace('\n') && IsWhiteSpace('\r')
    ensures IsWhiteSpace('\U{00A0}') && IsWhiteSpace('\U{2028}') && IsWhiteSpace('\U{2029}') && IsWhiteSpace('\U{3000}')
    ensures !IsWhiteSpace('\U{200B}') && !IsWhiteSpace('\U{FEFF}') && !IsWhiteSpace('a') && !IsWhiteSpace('@')
  {
  }

  /** `IsNullOrWhiteSpace` is null, the empty string, or a scan that finds only white space,
      one character after another. */
  lemma NullOrWhiteSpaceScan(s: string)
    ensures IsNullOrWhiteSpace(None) && IsNullOrWhiteSpace(Some(""))
    ensures s != [] ==> (IsNullOrWhiteSpace(Some(s)) <==> IsWhiteSpace(s[0]) && IsNullOrWhiteSpace(Some(s[1..])))
  {
    if s != [] {
      assert forall i | 0 <= i < |s[1..]| :: s[1..][i] == s[i + 1];
      if IsWhiteSpace(s[0]) && IsNullOrWhiteSpace(Some(s[1..])) {
        forall i | 0 <= i < |s| ensures IsWhiteSpace(s[i]) {
          if i > 0 { assert s[i] == s[1..][i - 1]; }
        }
      }
    }
  }

  function BoolText(b: bool): string {
    if b then "true" else "false"
  }

  // ---- The steps, each a function of the identity's current claims ----

  /** Step 1: a subject claim with the user's id unless one of type "sub" is present. */
  function WithSubject(cs: seq<Claim>, userId: string): seq<Claim> {
    if HasClaimType(cs, Subject) then cs else cs + [StringClaim(Subject, userId)]
  }

  /** Step 2: the first claim of the configured username type whose value is the
      username is removed and a preferred_username claim is appended. */
  function WithPreferredUserName(cs: seq<Claim>, userNameClaimType: string, userName: string): seq<Claim> {
    match FindFirstIndex(cs, userNameClaimType, userName)
    case None => cs
    case Some(k) => RemoveAt(cs, k) + [StringClaim(PreferredUserName, userName)]
  }

  /** Step 3: a name claim with the username unless one of type "name" is present. */
  function WithDefaultName(cs: seq<Claim>, userName: string): seq<Claim> {
    if HasClaimType(cs, Name) then cs else cs + [StringClaim(Name, userName)]
  }

  /** The value claim and its Boolean "verified" claim, or nothing when the value is blank. */
  function ContactClaims(valueType: string, verifiedType: string, value: Option<string>, confirmed: bool): seq<Claim> {
    if IsNullOrWhiteSpace(value) then []
    else [StringClaim(valueType, value.value), Claim(verifiedType, BoolText(confirmed), BooleanValueType)]
  }

  /** Step 4. */
  function EmailClaims(caps: Capabilities, user: UserRow): seq<Claim> {
    if caps.supportsEmail then ContactClaims(Email, EmailVerified, user.email, user.emailConfirmed) else []
  }

  /** Step 5. */
  function PhoneClaims(caps: Capabilities, user: UserRow): seq<Claim> {
    if caps.supportsPhoneNumber
    then ContactClaims(PhoneNumber, PhoneNumberVerified, user.phoneNumber, user.phoneNumberConfirmed)
    else []
  }

  /** The identity after steps 1 to 5. */
  function Profile(base: seq<Claim>, user: UserRow, caps: Capabilities, userNameClaimType: string): seq<Claim> {
    var named := WithDefaultName(WithPreferredUserName(WithSubject(base, user.id), userNameClaimType, user.userName), user.userName);
    named + EmailClaims(caps, user) + PhoneClaims(caps, user)
  }

  /** One role claim per role name, in order. */
  function RoleNameClaims(names: seq<string>): seq<Claim> {
    seq(|names|, i requires 0 <= i < |names| => StringClaim(Role, names[i]))
  }

  /** The claims a derivation left in the identity, and the first role name that did
      not resolve to a role (`FindByNameAsync` returned null and `GetClaimsAsync` threw). */
  datatype Derivation = Derivation(claims: seq<Claim>, missingRole: Option<string>)

  /** Step 6b, as the loop runs it: each role's claims in role order, stopping at the
      first role name that does not resolve. */
  function RoleScopedClaims(st: StoreState, names: seq<string>): Derivation
    decreases |names|
  {
    if names == [] then Derivation([], None)
    else
      var prior := RoleScopedClaims(st, names[..|names| - 1]);
      var last := names[|names| - 1];
      if prior.missingRole.Some? then prior
      else match RoleNamed(st.roles, last)
        case None => Derivation(prior.claims, Some(last))
        case Some(role) => Derivation(prior.claims + ClaimsOfRole(st.roleClaims, role.id), None)
  }

  /** The whole of `CreateAsync`, on the claims of the base identity. */
  function Derive(base: seq<Claim>, user: UserRow, st: StoreState, caps: Capabilities, userNameClaimType: string): Derivation {
    var profile := Profile(base, user, caps, userNameClaimType);
    if caps.supportsRoles then
      var names := RolesOfUser(st.userRoles, user.id);
      var scoped := RoleScopedClaims(st, names);
      Derivation(profile + RoleNameClaims(names) + scoped.claims, scoped.missingRole)
    else Derivation(profile, None)
  }

  // ---- A reference description: what is kept of the base and what is appended ----

  /** The base claims minus the first username claim, if there is one. */
  function Kept(base: seq<Claim>, userNameClaimType: string, userName: string): seq<Claim> {
    match FindFirstIndex(base, userNameClaimType, userName)
    case None => base
    case Some(k) => RemoveAt(base, k)
  }

  /** The subject claim is appended and then taken as the username claim when the
      configured username type is "sub", the id equals the username, and the base has
      neither a subject claim nor a username claim. */
  predicate SubjectSwapped(base: seq<Claim>, user: UserRow, userNameClaimType: string) {
    && !HasClaimType(base, Subject)
    && FindFirstIndex(base, userNameClaimType, user.userName).None?
    && userNameClaimType == Subject && user.id == user.userName
  }

  predicate UserNameSwapped(base: seq<Claim>, user: UserRow, userNameClaimType: string) {
    FindFirstIndex(base, userNameClaimType, user.userName).Some? || SubjectSwapped(base, user, userNameClaimType)
  }

  function SubjectPart(base: seq<Claim>, user: UserRow, userNameClaimType: string): seq<Claim> {
    if !HasClaimType(base, Subject) && !SubjectSwapped(base, user, userNameClaimType)
    then [StringClaim(Subject, user.id)] else []
  }

  function PreferredPart(base: seq<Claim>, user: UserRow, userNameClaimType: string): seq<Claim> {
    if UserNameSwapped(base, user, userNameClaimType)
    then [StringClaim(PreferredUserName, user.userName)] else []
  }

  function NamePart(base: seq<Claim>, user: UserRow, userNameClaimType: string): seq<Claim> {
    if HasClaimType(Kept(base, userNameClaimType, user.userName), Name)
    then [] else [StringClaim(Name, user.userName)]
  }

  /** The subject, preferred_username and name claims appended, decided from the base alone. */
  function IdentityPart(base: seq<Claim>, user: UserRow, userNameClaimType: string): seq<Claim> {
    SubjectPart(base, user, userNameClaimType) + PreferredPart(base, user, userNameClaimType)
    + NamePart(base, user, userNameClaimType)
  }

  function Appended(base: seq<Claim>, user: UserRow, caps: Capabilities, userNameClaimType: string): seq<Claim> {
    IdentityPart(base, user, userNameClaimType) + EmailClaims(caps, user) + PhoneClaims(caps, user)
  }

  lemma FindFirstIndexSingle(c: Claim, claimType: string, value: string)
    ensures FindFirstIndex([c], claimType, value) == if Matches(c, claimType, value) then Some(0) else None
  {
  }

  /** Steps 1 and 2 keep the base less its first username claim and append the subject
      and preferred_username claims that the base alone decides. */
  lemma SubjectAndUserNameSplit(base: seq<Claim>, user: UserRow, userNameClaimType: string)
    ensures WithPreferredUserName(WithSubject(base, user.id), userNameClaimType, user.userName)
         == Kept(base, userNameClaimType, user.userName)
          + SubjectPart(base, user, userNameClaimType) + PreferredPart(base, user, userNameClaimType)
  {
    var t, u := userNameClaimType, user.userName;
    var sub := StringClaim(Subject, user.id);
    var s1 := WithSubject(base, user.id);
    if !HasClaimType(base, Subject) {
      assert s1 == base + [sub];
      FindFirstIndexAppend(base, [sub], t, u);
      FindFirstIndexSingle(sub, t, u);
      match FindFirstIndex(base, t, u)
      case Some(k) =>
        assert s1[..k] == base[..k] && s1[k + 1..] == base[k + 1..] + [sub];
      case None =>
        if Matches(sub, t, u) {
          assert s1[..|base|] == base;
        }
    }
  }

  /** Step 3 sees a name claim only in the kept base claims, since the claims steps 1
      and 2 append are of other types. */
  lemma DefaultNameAfter(kept: seq<Claim>, middle: seq<Claim>, userName: string)
    requires forall i | 0 <= i < |middle| :: middle[i].claimType != Name
    ensures WithDefaultName(kept + middle, userName)
         == kept + middle + (if HasClaimType(kept, Name) then [] else [StringClaim(Name, userName)])
  {
    HasClaimTypeAppend(kept, middle, Name);
    HasClaimTypeWitness(middle, Name);
  }

  /** Removing the username claim leaves the count of every other claim type alone. */
  lemma KeptCount(base: seq<Claim>, userNameClaimType: string, userName: string, claimType: string)
    requires claimType != userNameClaimType
    ensures CountType(Kept(base, userNameClaimType, userName), claimType) == CountType(base, claimType)
  {
    match FindFirstIndex(base, userNameClaimType, userName)
    case None =>
    case Some(k) => CountTypeRemoveAt(base, k, claimType);
  }

  /** How many claims of each type a contact pair holds. */
  lemma ContactClaimsCount(valueType: string, verifiedType: string, value: Option<string>, confirmed: bool, claimType: string)
    ensures CountType(ContactClaims(valueType, verifiedType, value, confirmed), claimType)
         == if IsNullOrWhiteSpace(value) then 0
            else (if claimType == valueType then 1 else 0) + (if claimType == verifiedType then 1 else 0)
  {
    var cs := ContactClaims(valueType, verifiedType, value, confirmed);
    if !IsNullOrWhiteSpace(value) {
      assert cs == [cs[0]] + [cs[1]];
      CountTypeAppend([cs[0]], [cs[1]], claimType);
      assert [cs[0]][1..] == [] && [cs[1]][1..] == [];
    }
  }

  /** The profile, cut at the boundaries of its parts. */
  lemma ProfileParts(base: seq<Claim>, user: UserRow, caps: Capabilities, userNameClaimType: string)
    ensures Profile(base, user, caps, userNameClaimType)
         == Kept(base, userNameClaimType, user.userName)
          + SubjectPart(base, user, userNameClaimType) + PreferredPart(base, user, userNameClaimType)
          + NamePart(base, user, userNameClaimType) + EmailClaims(caps, user) + PhoneClaims(caps, user)
  {
    var kept := Kept(base, userNameClaimType, user.userName);
    var sp, pp := SubjectPart(base, user, userNameClaimType), PreferredPart(base, user, userNameClaimType);
    var s2 := WithPreferredUserName(WithSubject(base, user.id), userNameClaimType, user.userName);
    SubjectAndUserNameSplit(base, user, userNameClaimType);
    DefaultNameAfter(kept, sp + pp, user.userName);
    assert kept + (sp + pp) == kept + sp + pp;
  }

  /** Nothing else changes: steps 1 to 5 keep the base claims in their order, less at most
      the first username claim, and append claims decided from the base alone. */
  lemma ProfileSplits(base: seq<Claim>, user: UserRow, caps: Capabilities, userNameClaimType: string)
    ensures Profile(base, user, caps, userNameClaimType)
         == Kept(base, userNameClaimType, user.userName) + Appended(base, user, caps, userNameClaimType)
  {
    ProfileParts(base, user, caps, userNameClaimType);
    var kept := Kept(base, userNameClaimType, user.userName);
    var sp, pp := SubjectPart(base, user, userNameClaimType), PreferredPart(base, user, userNameClaimType);
    var name := NamePart(base, user, userNameClaimType);
    var email, phone := EmailClaims(caps, user), PhoneClaims(caps, user);
    Regroup(kept, sp, pp, name, email, phone);
  }

  lemma Regroup(k: seq<Claim>, a: seq<Claim>, b: seq<Claim>, c: seq<Claim>, d: seq<Claim>, e: seq<Claim>)
    ensures k + a + b + c + d + e == k + (a + b + c + d + e)
  {
  }

  /** The count of a claim type in the profile, part by part. */
  lemma ProfileCount(base: seq<Claim>, user: UserRow, caps: Capabilities, userNameClaimType: string, claimType: string)
    ensures CountType(Profile(base, user, caps, userNameClaimType), claimType)
         == CountType(Kept(base, userNameClaimType, user.userName), claimType)
          + CountType(SubjectPart(base, user, userNameClaimType), claimType)
          + CountType(PreferredPart(base, user, userNameClaimType), claimType)
          + CountType(NamePart(base, user, userNameClaimType), claimType)
          + CountType(EmailClaims(caps, user), claimType) + CountType(PhoneClaims(caps, user), claimType)
  {
    var k, a := Kept(base, userNameClaimType, user.userName), SubjectPart(base, user, userNameClaimType);
    var b, c := PreferredPart(base, user, userNameClaimType), NamePart(base, user, userNameClaimType);
    var d, e := EmailClaims(caps, user), PhoneClaims(caps, user);
    ProfileParts(base, user, caps, userNameClaimType);
    CountTypeAppend(k + a + b + c + d, e, claimType);
    CountTypeAppend(k + a + b + c, d, claimType);
    CountTypeAppend(k + a + b, c, claimType);
    CountTypeAppend(k + a, b, claimType);
    CountTypeAppend(k, a, claimType);
  }

  /** The subject claim: when the configured username type is not "sub", a base without a
      subject gets exactly one, carrying the user's id, and a base with one gets none. */
  lemma SubjectClaimPresent(base: seq<Claim>, user: UserRow, caps: Capabilities, userNameClaimType: string)
    requires userNameClaimType != Subject
    ensures var p := Profile(base, user, caps, userNameClaimType);
      && CountType(p, Subject) == (if CountType(base, Subject) == 0 then 1 else CountType(base, Subject))
      && (CountType(base, Subject) == 0 ==> StringClaim(Subject, user.id) in p)
  {
    var kept := Kept(base, userNameClaimType, user.userName);
    ProfileCount(base, user, caps, userNameClaimType, Subject);
    ContactClaimsCount(Email, EmailVerified, user.email, user.emailConfirmed, Subject);
    ContactClaimsCount(PhoneNumber, PhoneNumberVerified, user.phoneNumber, user.phoneNumberConfirmed, Subject);
    KeptCount(base, userNameClaimType, user.userName, Subject);
    CountTypeIsPositive(base, Subject);
    if CountType(base, Subject) == 0 {
      ProfileParts(base, user, caps, userNameClaimType);
      assert Profile(base, user, caps, userNameClaimType)[|kept|] == StringClaim(Subject, user.id);
    }
  }

  /** The username claim is swapped: exactly one preferred_username claim is added when a
      username claim was found (or the subject claim served as one), none otherwise, and
      a base without a username claim keeps all its claims. */
  lemma PreferredUserNameAdded(base: seq<Claim>, user: UserRow, caps: Capabilities, userNameClaimType: string)
    requires userNameClaimType != PreferredUserName
    ensures var p := Profile(base, user, caps, userNameClaimType);
      && CountType(p, PreferredUserName)
         == CountType(base, PreferredUserName) + (if UserNameSwapped(base, user, userNameClaimType) then 1 else 0)
      && (FindFirstIndex(base, userNameClaimType, user.userName).None? ==> p[..|base|] == base)
  {
    ProfileCount(base, user, caps, userNameClaimType, PreferredUserName);
    ContactClaimsCount(Email, EmailVerified, user.email, user.emailConfirmed, PreferredUserName);
    ContactClaimsCount(PhoneNumber, PhoneNumberVerified, user.phoneNumber, user.phoneNumberConfirmed, PreferredUserName);
    KeptCount(base, userNameClaimType, user.userName, PreferredUserName);
    ProfileParts(base, user, caps, userNameClaimType);
  }

  /** Only the first username claim is swapped: a later claim of the username type with
      the same value stays among the kept claims, at its place less one, alongside the new
      preferred_username. */
  lemma LaterUserNameClaimSurvives(base: seq<Claim>, user: UserRow, caps: Capabilities, userNameClaimType: string, k: nat, j: nat)
    requires userNameClaimType != PreferredUserName
    requires k < j < |base|
    requires FindFirstIndex(base, userNameClaimType, user.userName) == Some(k)
    requires Matches(base[j], userNameClaimType, user.userName)
    ensures var p := Profile(base, user, caps, userNameClaimType);
      && CountType(p, PreferredUserName) == CountType(base, PreferredUserName) + 1
      && p[j - 1] == base[j]
  {
    PreferredUserNameAdded(base, user, caps, userNameClaimType);
    ProfileSplits(base, user, caps, userNameClaimType);
    var kept := Kept(base, userNameClaimType, user.userName);
    assert kept == base[..k] + base[k + 1..];
    assert kept[j - 1] == base[j];
  }

  /** The default name: a name claim is appended exactly when none survives the username
      step, so the identity always ends steps 1 to 5 with at least one. */
  lemma NameClaimPresent(base: seq<Claim>, user: UserRow, caps: Capabilities, userNameClaimType: string)
    ensures var p := Profile(base, user, caps, userNameClaimType);
      var kept := Kept(base, userNameClaimType, user.userName);
      && CountType(p, Name) == (if HasClaimType(kept, Name) then CountType(kept, Name) else 1)
      && HasClaimType(p, Name)
      && (!HasClaimType(kept, Name) ==> StringClaim(Name, user.userName) in p)
  {
    var kept := Kept(base, userNameClaimType, user.userName);
    var p := Profile(base, user, caps, userNameClaimType);
    ProfileCount(base, user, caps, userNameClaimType, Name);
    ContactClaimsCount(Email, EmailVerified, user.email, user.emailConfirmed, Name);
    ContactClaimsCount(PhoneNumber, PhoneNumberVerified, user.phoneNumber, user.phoneNumberConfirmed, Name);
    CountTypeIsPositive(kept, Name);
    CountTypeIsPositive(p, Name);
    if !HasClaimType(kept, Name) {
      ProfileParts(base, user, caps, userNameClaimType);
      var front := SubjectPart(base, user, userNameClaimType) + PreferredPart(base, user, userNameClaimType);
      assert p[|kept| + |front|] == StringClaim(Name, user.userName);
    }
  }

  /** A contact pair: the value claim and its Boolean "verified" claim, adjacent and in that order. */
  predicate EmitsPair(cs: seq<Claim>, k: nat, valueType: string, verifiedType: string, value: string, confirmed: bool) {
    k + 1 < |cs|
    && cs[k] == StringClaim(valueType, value)
    && cs[k + 1] == Claim(verifiedType, BoolText(confirmed), BooleanValueType)
  }

  lemma Regroup3(k: seq<Claim>, a: seq<Claim>, b: seq<Claim>)
    ensures k + a + b == k + (a + b)
  {
  }

  lemma Regroup4(k: seq<Claim>, a: seq<Claim>, b: seq<Claim>, c: seq<Claim>)
    ensures k + (a + b + c) == k + a + b + c
  {
  }

  /** A contact pair placed between `front` and `back` sits right after `front`. */
  lemma PairAt(front: seq<Claim>, pair: seq<Claim>, back: seq<Claim>,
               valueType: string, verifiedType: string, value: string, confirmed: bool)
    requires pair == [StringClaim(valueType, value), Claim(verifiedType, BoolText(confirmed), BooleanValueType)]
    ensures EmitsPair(front + pair + back, |front|, valueType, verifiedType, value, confirmed)
  {
  }

  /** Claims of a type steps 1 to 3 neither remove nor add are counted in the base and
      in the contact claims alone. */
  lemma ProfileCountOther(base: seq<Claim>, user: UserRow, caps: Capabilities, userNameClaimType: string, claimType: string)
    requires claimType != userNameClaimType
    requires claimType != Subject && claimType != PreferredUserName && claimType != Name
    ensures CountType(Profile(base, user, caps, userNameClaimType), claimType)
         == CountType(base, claimType) + CountType(EmailClaims(caps, user), claimType)
          + CountType(PhoneClaims(caps, user), claimType)
  {
    ProfileCount(base, user, caps, userNameClaimType, claimType);
    KeptCount(base, userNameClaimType, user.userName, claimType);
    assert CountType(SubjectPart(base, user, userNameClaimType), claimType) == 0;
    assert CountType(PreferredPart(base, user, userNameClaimType), claimType) == 0;
    assert CountType(NamePart(base, user, userNameClaimType), claimType) == 0;
  }

  /** Email and email_verified are appended together, adjacent, exactly when email is
      supported and the address is not blank; otherwise neither is. */
  lemma EmailClaimsPaired(base: seq<Claim>, user: UserRow, caps: Capabilities, userNameClaimType: string)
    requires userNameClaimType != Email && userNameClaimType != EmailVerified
    ensures var p := Profile(base, user, caps, userNameClaimType);
      var emits := caps.supportsEmail && !IsNullOrWhiteSpace(user.email);
      && CountType(p, Email) == CountType(base, Email) + (if emits then 1 else 0)
      && CountType(p, EmailVerified) == CountType(base, EmailVerified) + (if emits then 1 else 0)
      && (emits ==> exists k :: EmitsPair(p, k, Email, EmailVerified, user.email.value, user.emailConfirmed))
  {
    ProfileCountOther(base, user, caps, userNameClaimType, Email);
    ProfileCountOther(base, user, caps, userNameClaimType, EmailVerified);
    ContactClaimsCount(Email, EmailVerified, user.email, user.emailConfirmed, Email);
    ContactClaimsCount(Email, EmailVerified, user.email, user.emailConfirmed, EmailVerified);
    ContactClaimsCount(PhoneNumber, PhoneNumberVerified, user.phoneNumber, user.phoneNumberConfirmed, Email);
    ContactClaimsCount(PhoneNumber, PhoneNumberVerified, user.phoneNumber, user.phoneNumberConfirmed, EmailVerified);
    if caps.supportsEmail && !IsNullOrWhiteSpace(user.email) {
      var kept := Kept(base, userNameClaimType, user.userName);
      var part := IdentityPart(base, user, userNameClaimType);
      ProfileSplits(base, user, caps, userNameClaimType);
      Regroup4(kept, part, EmailClaims(caps, user), PhoneClaims(caps, user));
      PairAt(kept + part, EmailClaims(caps, user), PhoneClaims(caps, user),
             Email, EmailVerified, user.email.value, user.emailConfirmed);
    }
  }

  /** The same pairing for phone_number and phone_number_verified. */
  lemma PhoneClaimsPaired(base: seq<Claim>, user: UserRow, caps: Capabilities, userNameClaimType: string)
    requires userNameClaimType != PhoneNumber && userNameClaimType != PhoneNumberVerified
    ensures var p := Profile(base, user, caps, userNameClaimType);
      var emits := caps.supportsPhoneNumber && !IsNullOrWhiteSpace(user.phoneNumber);
      && CountType(p, PhoneNumber) == CountType(base, PhoneNumber) + (if emits then 1 else 0)
      && CountType(p, PhoneNumberVerified) == CountType(base, PhoneNumberVerified) + (if emits then 1 else 0)
      && (emits ==> exists k :: EmitsPair(p, k, PhoneNumber, PhoneNumberVerified, user.phoneNumber.value, user.phoneNumberConfirmed))
  {
    ProfileCountOther(base, user, caps, userNameClaimType, PhoneNumber);
    ProfileCountOther(base, user, caps, userNameClaimType, PhoneNumberVerified);
    ContactClaimsCount(Email, EmailVerified, user.email, user.emailConfirmed, PhoneNumber);
    ContactClaimsCount(Email, EmailVerified, user.email, user.emailConfirmed, PhoneNumberVerified);
    ContactClaimsCount(PhoneNumber, PhoneNumberVerified, user.phoneNumber, user.phoneNumberConfirmed, PhoneNumber);
    ContactClaimsCount(PhoneNumber, PhoneNumberVerified, user.phoneNumber, user.phoneNumberConfirmed, PhoneNumberVerified);
    if caps.supportsPhoneNumber && !IsNullOrWhiteSpace(user.phoneNumber) {
      var p := Profile(base, user, caps, userNameClaimType);
      var kept := Kept(base, userNameClaimType, user.userName);
      var part := IdentityPart(base, user, userNameClaimType);
      var email := EmailClaims(caps, user);
      ProfileSplits(base, user, caps, userNameClaimType);
      Regroup4(kept, part, email, PhoneClaims(caps, user));
      PairAt(kept + part + email, PhoneClaims(caps, user), [],
             PhoneNumber, PhoneNumberVerified, user.phoneNumber.value, user.phoneNumberConfirmed);
      assert kept + part + email + PhoneClaims(caps, user) + [] == p;
    }
  }

  // ---- Roles ----

  predicate AllRolesResolve(st: StoreState, names: seq<string>) {
    forall i | 0 <= i < |names| :: RoleNamed(st.roles, names[i]).Some?
  }

  /** Reference: each role's claims, concatenated in role order, without de-duplication. */
  function ClaimsOfRoles(st: StoreState, names: seq<string>): seq<Claim>
    requires AllRolesResolve(st, names)
  {
    if names == [] then []
    else ClaimsOfRole(st.roleClaims, RoleNamed(st.roles, names[0]).value.id) + ClaimsOfRoles(st, names[1..])
  }

  lemma {:induction false} ClaimsOfRolesSnoc(st: StoreState, names: seq<string>, last: string)
    requires AllRolesResolve(st, names) && RoleNamed(st.roles, last).Some?
    ensures AllRolesResolve(st, names + [last])
    ensures ClaimsOfRoles(st, names + [last])
         == ClaimsOfRoles(st, names) + ClaimsOfRole(st.roleClaims, RoleNamed(st.roles, last).value.id)
  {
    assert forall i | 0 <= i < |names| :: (names + [last])[i] == names[i];
    if names != [] {
      assert (names + [last])[1..] == names[1..] + [last];
      ClaimsOfRolesSnoc(st, names[1..], last);
    }
  }

  /** The role fan-out: when every role resolves, the loop yields exactly the reference
      concatenation; otherwise it stops at the first role that does not, having appended
      the claims of the roles before it. */
  lemma {:induction false} RoleScopedClaimsCorrect(st: StoreState, names: seq<string>)
    decreases |names|
    ensures var d := RoleScopedClaims(st, names);
      && (d.missingRole.None? <==> AllRolesResolve(st, names))
      && (d.missingRole.None? ==> d.claims == ClaimsOfRoles(st, names))
      && (d.missingRole.Some? ==> exists k | 0 <= k < |names| ::
            && names[k] == d.missingRole.value && RoleNamed(st.roles, names[k]).None?
            && AllRolesResolve(st, names[..k]) && d.claims == ClaimsOfRoles(st, names[..k]))
  {
    if names != [] {
      var init, last := names[..|names| - 1], names[|names| - 1];
      assert names == init + [last];
      RoleScopedClaimsCorrect(st, init);
      var prior := RoleScopedClaims(st, init);
      assert forall i | 0 <= i < |init| :: names[i] == init[i];
      if prior.missingRole.Some? {
        var k :| 0 <= k < |init| && init[k] == prior.missingRole.value && RoleNamed(st.roles, init[k]).None?
                 && AllRolesResolve(st, init[..k]) && prior.claims == ClaimsOfRoles(st, init[..k]);
        assert init[..k] == names[..k];
      } else if RoleNamed(st.roles, last).None? {
        assert names[..|init|] == init;
      } else {
        ClaimsOfRolesSnoc(st, init, last);
      }
    }
  }

  /** One step of the role loop: the next role either adds its claims or is reported missing. */
  lemma RoleScopedClaimsStep(st: StoreState, names: seq<string>, i: nat)
    requires i < |names|
    requires RoleScopedClaims(st, names[..i]).missingRole.None?
    ensures RoleScopedClaims(st, names[..i + 1])
         == match RoleNamed(st.roles, names[i])
            case None => Derivation(RoleScopedClaims(st, names[..i]).claims, Some(names[i]))
            case Some(role) => Derivation(RoleScopedClaims(st, names[..i]).claims + ClaimsOfRole(st.roleClaims, role.id), None)
  {
    assert names[..i + 1][..i] == names[..i];
  }

  /** Once a role fails to resolve, later roles add nothing. */
  lemma {:induction false} RoleScopedClaimsStops(st: StoreState, names: seq<string>, k: nat)
    requires k <= |names|
    requires RoleScopedClaims(st, names[..k]).missingRole.Some?
    ensures RoleScopedClaims(st, names) == RoleScopedClaims(st, names[..k])
    decreases |names| - k
  {
    if k < |names| {
      assert names[..k + 1][..k] == names[..k];
      RoleScopedClaimsStops(st, names, k + 1);
    } else {
      assert names[..k] == names;
    }
  }

  /** Role claims and role-scoped claims: without role support nothing follows the
      profile; with it, one role claim per role in the store's order, then every
      role's claims in role order. */
  lemma DeriveRoleClaims(base: seq<Claim>, user: UserRow, st: StoreState, caps: Capabilities, userNameClaimType: string)
    ensures var d := Derive(base, user, st, caps, userNameClaimType);
      var p := Profile(base, user, caps, userNameClaimType);
      var names := RolesOfUser(st.userRoles, user.id);
      && (!caps.supportsRoles ==> d == Derivation(p, None))
      && (caps.supportsRoles && AllRolesResolve(st, names) ==>
            d == Derivation(p + RoleNameClaims(names) + ClaimsOfRoles(st, names), None))
      && (caps.supportsRoles && !AllRolesResolve(st, names) ==>
            d.missingRole.Some? && d.missingRole.value in names && RoleNamed(st.roles, d.missingRole.value).None?)
  {
    RoleScopedClaimsCorrect(st, RolesOfUser(st.userRoles, user.id));
  }

  /** One role claim per role, carrying the role name, in order. */
  lemma RoleNameClaimsInOrder(names: seq<string>)
    ensures |RoleNameClaims(names)| == |names|
    ensures forall i | 0 <= i < |names| :: RoleNameClaims(names)[i] == StringClaim(Role, names[i])
    ensures CountType(RoleNameClaims(names), Role) == |names|
  {
    var r := RoleNameClaims(names);
    if names != [] {
      RoleNameClaimsInOrder(names[1..]);
      assert r == [StringClaim(Role, names[0])] + RoleNameClaims(names[1..]);
    }
  }

  // ---- The factory as an object over the store, editing the identity in place ----

  class Factory {
    const store: Store

    constructor (store: Store)
      ensures this.store == store
    {
      this.store := store;
    }

    /** `CreateAsync(user)` on the first identity of the principal the wrapped factory built. */
    method CreateAsync(identity: ClaimsIdentity, user: UserRow) returns (missingRole: Option<string>)
      modifies identity
      ensures Derivation(identity.claims, missingRole)
           == Derive(old(identity.claims), user, store.State(), store.capabilities, store.userNameClaimType)
    {
      ghost var base := identity.claims;
      AddIdentityClaims(identity, user);
      AddContactClaims(identity, user);
      assert identity.claims == Profile(base, user, store.capabilities, store.userNameClaimType);
      missingRole := None;
      if store.capabilities.supportsRoles {
        missingRole := AddRoleClaims(identity, user);
      }
    }

    /** Steps 1 to 3 of `CreateAsync`: subject, username swap, default name. */
    method AddIdentityClaims(identity: ClaimsIdentity, user: UserRow)
      modifies identity
      ensures identity.claims
           == WithDefaultName(WithPreferredUserName(WithSubject(old(identity.claims), user.id),
                                                    store.userNameClaimType, user.userName), user.userName)
    {
      ghost var base := identity.claims;
      var hasSubject := identity.HasClaim(Subject);
      if !hasSubject {
        identity.AddClaim(StringClaim(Subject, user.id));
      }
      assert identity.claims == WithSubject(base, user.id);

      var userName := user.userName;
      var userNameClaim := identity.FindFirst(store.userNameClaimType, userName);
      if userNameClaim.Some? {
        FindFirstIndexIsFirst(identity.claims, store.userNameClaimType, userName);
        RemoveFirstOfFound(identity.claims, FindFirstIndex(identity.claims, store.userNameClaimType, userName).value);
        identity.RemoveClaim(userNameClaim.value);
        identity.AddClaim(StringClaim(PreferredUserName, userName));
      }
      assert identity.claims == WithPreferredUserName(WithSubject(base, user.id), store.userNameClaimType, userName);

      var hasName := identity.HasClaim(Name);
      if !hasName {
        identity.AddClaim(StringClaim(Name, userName));
      }
    }

    /** Steps 4 and 5 of `CreateAsync`: the email pair, then the phone pair. */
    method AddContactClaims(identity: ClaimsIdentity, user: UserRow)
      modifies identity
      ensures identity.claims
           == old(identity.claims) + EmailClaims(store.capabilities, user) + PhoneClaims(store.capabilities, user)
    {
      ghost var named := identity.claims;
      if store.capabilities.supportsEmail {
        var email := user.email;
        if !IsNullOrWhiteSpace(email) {
          identity.AddClaims([StringClaim(Email, email.value),
                              Claim(EmailVerified, BoolText(user.emailConfirmed), BooleanValueType)]);
        }
      }
      ghost var withEmail := identity.claims;
      assert withEmail == named + EmailClaims(store.capabilities, user);

      if store.capabilities.supportsPhoneNumber {
        var phoneNumber := user.phoneNumber;
        if !IsNullOrWhiteSpace(phoneNumber) {
          identity.AddClaims([StringClaim(PhoneNumber, phoneNumber.value),
                              Claim(PhoneNumberVerified, BoolText(user.phoneNumberConfirmed), BooleanValueType)]);
        }
      }
      assert identity.claims == withEmail + PhoneClaims(store.capabilities, user);
    }

    /** The role block of `CreateAsync`: a role claim per role of the user, then, role by
        role, the claims of the role found by that name. */
    method AddRoleClaims(identity: ClaimsIdentity, user: UserRow) returns (missingRole: Option<string>)
      modifies identity
      ensures var names := RolesOfUser(store.userRoles, user.id);
        var scoped := RoleScopedClaims(store.State(), names);
        && identity.claims == old(identity.claims) + RoleNameClaims(names) + scoped.claims
        && missingRole == scoped.missingRole
    {
      ghost var st := store.State();
      var roles := store.GetRoles(user);
      identity.AddClaims(RoleNameClaims(roles));
      ghost var prefix := identity.claims;
      var i := 0;
      while i < |roles|
        invariant 0 <= i <= |roles|
        invariant RoleScopedClaims(st, roles[..i]).missingRole.None?
        invariant identity.claims == prefix + RoleScopedClaims(st, roles[..i]).claims
      {
        RoleScopedClaimsStep(st, roles, i);
        var role := store.FindRoleByName(roles[i]);
        if role.None? {
          RoleScopedClaimsStops(st, roles, i + 1);
          return Some(roles[i]);
        }
        var claims := store.GetRoleClaims(role.value);
        ghost var done := RoleScopedClaims(st, roles[..i]).claims;
        identity.AddClaims(claims);
        Regroup3(prefix, done, claims);
        i := i + 1;
      }
      assert roles[..i] == roles;
      return None;
    }
  }
}
