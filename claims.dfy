/** Claims, the claim-type and value-type names the core uses, and the mutable
    claims identity that the claims factory edits in place. */
module Claims {
  import opened Wrappers

  // Value types: `ClaimValueTypes.String` and `ClaimValueTypes.Boolean` are XML Schema
  // type URIs; IdentityServer's own JSON value type is the short name "json".
  const StringValueType := "http://www.w3.org/2001/XMLSchema#string"
  const BooleanValueType := "http://www.w3.org/2001/XMLSchema#boolean"
  const JsonValueType := "json"

  // Standard Claims of section 5.1 of OpenID Connect Core 1.0, plus "role".
  const Subject := "sub"
  const Name := "name"
  const GivenName := "given_name"
  const FamilyName := "family_name"
  const PreferredUserName := "preferred_username"
  const WebSite := "website"
  const Email := "email"
  const EmailVerified := "email_verified"
  const PhoneNumber := "phone_number"
  const PhoneNumberVerified := "phone_number_verified"
  const Address := "address"
  const Role := "role"

  /** A claim: its type, its value and the value's type. */
  datatype Claim = Claim(claimType: string, value: string, valueType: string)

  /** `new Claim(type, value)`: a claim whose value type defaults to string. */
  function StringClaim(claimType: string, value: string): Claim {
    Claim(claimType, value, StringValueType)
  }

  /** Whether some claim has the given type. */
  predicate HasClaimType(cs: seq<Claim>, claimType: string) {
    cs != [] && (cs[0].claimType == claimType || HasClaimType(cs[1..], claimType))
  }

  /** Number of claims of the given type. */
  function CountType(cs: seq<Claim>, claimType: string): nat {
    if cs == [] then 0
    else (if cs[0].claimType == claimType then 1 else 0) + CountType(cs[1..], claimType)
  }

  predicate Matches(c: Claim, claimType: string, value: string) {
    c.claimType == claimType && c.value == value
  }

  /** Index of the first claim with the given type and value, as `FindFirst` finds it. */
  function FindFirstIndex(cs: seq<Claim>, claimType: string, value: string): (r: Option<nat>)
    ensures r.Some? ==> r.value < |cs| && Matches(cs[r.value], claimType, value)
  {
    if cs == [] then None
    else if Matches(cs[0], claimType, value) then Some(0)
    else match FindFirstIndex(cs[1..], claimType, value)
      case None => None
      case Some(k) => Some(k + 1)
  }

  function RemoveAt(cs: seq<Claim>, k: nat): seq<Claim>
    requires k < |cs|
  {
    cs[..k] + cs[k + 1..]
  }

  /** Removes the first claim equal to `c`; a .NET claim is removed by identity, and
      the first equal claim is the instance `FindFirst` returned (RemoveFirstOfFound). */
  function RemoveFirst(cs: seq<Claim>, c: Claim): seq<Claim> {
    if cs == [] then []
    else if cs[0] == c then cs[1..]
    else [cs[0]] + RemoveFirst(cs[1..], c)
  }

  lemma {:induction false} CountTypeAppend(a: seq<Claim>, b: seq<Claim>, claimType: string)
    ensures CountType(a + b, claimType) == CountType(a, claimType) + CountType(b, claimType)
  {
    if a != [] {
      assert (a + b)[0] == a[0] && (a + b)[1..] == a[1..] + b;
      CountTypeAppend(a[1..], b, claimType);
    } else {
      assert a + b == b;
    }
  }

  lemma {:induction false} CountTypeIsPositive(cs: seq<Claim>, claimType: string)
    ensures HasClaimType(cs, claimType) <==> CountType(cs, claimType) > 0
  {
    if cs != [] {
      CountTypeIsPositive(cs[1..], claimType);
    }
  }

  /** `HasClaimType` is the existential it names. */
  lemma {:induction false} HasClaimTypeWitness(cs: seq<Claim>, claimType: string)
    ensures HasClaimType(cs, claimType) <==> exists i | 0 <= i < |cs| :: cs[i].claimType == claimType
  {
    if cs != [] {
      HasClaimTypeWitness(cs[1..], claimType);
      if exists i | 0 <= i < |cs| :: cs[i].claimType == claimType {
        var i :| 0 <= i < |cs| && cs[i].claimType == claimType;
        if i > 0 { assert cs[1..][i - 1].claimType == claimType; }
      }
      if HasClaimType(cs[1..], claimType) {
        var i :| 0 <= i < |cs[1..]| && cs[1..][i].claimType == claimType;
        assert cs[i + 1].claimType == claimType;
      }
    }
  }

  /** `FindFirstIndex` finds the first match, and finds none only when there is none. */
  lemma {:induction false} FindFirstIndexIsFirst(cs: seq<Claim>, claimType: string, value: string)
    ensures var r := FindFirstIndex(cs, claimType, value);
      && (r.Some? ==> forall j | 0 <= j < r.value :: !Matches(cs[j], claimType, value))
      && (r.None? ==> forall j | 0 <= j < |cs| :: !Matches(cs[j], claimType, value))
  {
    if cs != [] {
      FindFirstIndexIsFirst(cs[1..], claimType, value);
      assert forall j | 1 <= j < |cs| :: cs[j] == cs[1..][j - 1];
    }
  }

  lemma {:induction false} CountTypeRemoveAt(cs: seq<Claim>, k: nat, claimType: string)
    requires k < |cs|
    ensures CountType(RemoveAt(cs, k), claimType)
         == CountType(cs, claimType) - (if cs[k].claimType == claimType then 1 else 0)
  {
    assert cs == cs[..k] + ([cs[k]] + cs[k + 1..]);
    CountTypeAppend(cs[..k], [cs[k]] + cs[k + 1..], claimType);
    CountTypeAppend([cs[k]], cs[k + 1..], claimType);
    CountTypeAppend(cs[..k], cs[k + 1..], claimType);
  }

  lemma {:induction false} HasClaimTypeAppend(a: seq<Claim>, b: seq<Claim>, claimType: string)
    ensures HasClaimType(a + b, claimType) <==> HasClaimType(a, claimType) || HasClaimType(b, claimType)
  {
    CountTypeAppend(a, b, claimType);
    CountTypeIsPositive(a + b, claimType);
    CountTypeIsPositive(a, claimType);
    CountTypeIsPositive(b, claimType);
  }

  /** Searching `a + b` finds the first match in `a` if there is one, else the first in `b`. */
  lemma {:induction false} FindFirstIndexAppend(a: seq<Claim>, b: seq<Claim>, claimType: string, value: string)
    ensures FindFirstIndex(a + b, claimType, value)
         == match FindFirstIndex(a, claimType, value)
            case Some(k) => Some(k)
            case None =>
              match FindFirstIndex(b, claimType, value)
              case Some(k) => Some(|a| + k)
              case None => None
  {
    if a == [] {
      assert a + b == b;
    } else {
      assert (a + b)[0] == a[0];
      assert (a + b)[1..] == a[1..] + b;
      FindFirstIndexAppend(a[1..], b, claimType, value);
    }
  }

  /** Removing the first claim equal to `cs[k]` removes index `k` when no earlier
      claim equals it, in particular when `k` is the index `FindFirst` found. */
  lemma {:induction false} RemoveFirstOfFound(cs: seq<Claim>, k: nat)
    requires k < |cs|
    requires forall j | 0 <= j < k :: cs[j] != cs[k]
    ensures RemoveFirst(cs, cs[k]) == RemoveAt(cs, k)
  {
    if k > 0 {
      assert cs[0] != cs[k];
      assert cs[1..][k - 1] == cs[k];
      RemoveFirstOfFound(cs[1..], k - 1);
      assert cs[1..][..k - 1] == cs[1..k];
      assert cs[..k] == [cs[0]] + cs[1..k];
    }
  }

  /** The claims identity of a principal, whose claim collection is edited in place. */
  class ClaimsIdentity {
    var claims: seq<Claim>

    constructor (claims: seq<Claim>)
      ensures this.claims == claims
    {
      this.claims := claims;
    }

    /** `HasClaim(x => x.Type == claimType)`. */
    method HasClaim(claimType: string) returns (found: bool)
      ensures found <==> exists i | 0 <= i < |claims| :: claims[i].claimType == claimType
      ensures found == HasClaimType(claims, claimType)
    {
      HasClaimTypeWitness(claims, claimType);
      found := false;
      var i := 0;
      while i < |claims|
        invariant 0 <= i <= |claims|
        invariant forall j | 0 <= j < i :: claims[j].claimType != claimType
      {
        if claims[i].claimType == claimType {
          return true;
        }
        i := i + 1;
      }
    }

    /** `FindFirst(claim => claim.Type == claimType && claim.Value == value)`. */
    method FindFirst(claimType: string, value: string) returns (claim: Option<Claim>)
      ensures claim.Some? <==> FindFirstIndex(claims, claimType, value).Some?
      ensures claim.Some? ==> claim.value == claims[FindFirstIndex(claims, claimType, value).value]
    {
      FindFirstIndexIsFirst(claims, claimType, value);
      var i := 0;
      while i < |claims|
        invariant 0 <= i <= |claims|
        invariant forall j | 0 <= j < i :: !Matches(claims[j], claimType, value)
      {
        if Matches(claims[i], claimType, value) {
          return Some(claims[i]);
        }
        i := i + 1;
      }
      return None;
    }

    method AddClaim(c: Claim)
      modifies this
      ensures claims == old(claims) + [c]
    {
      claims := claims + [c];
    }

    method AddClaims(cs: seq<Claim>)
      modifies this
      ensures claims == old(claims) + cs
    {
      claims := claims + cs;
    }

    /** Removes the claim instance `c`; the identity must own it. */
    method RemoveClaim(c: Claim)
      requires c in claims
      modifies this
      ensures claims == RemoveFirst(old(claims), c)
    {
      claims := RemoveFirst(claims, c);
    }
  }
}
