/**
 * The Proof-of-Existence pallet: a registry from content to the account that
 * claimed it. Each content has at most one owner, and only that owner can
 * revoke the claim.
 */
module ProofOfExistence {
  import opened Support

  /** The owner of `claim` in `claims`, if any. */
  function ClaimIn<AccountId, Content>(claims: map<Content, AccountId>, claim: Content): (r: Option<AccountId>)
  {
    if claim in claims then Some(claims[claim]) else None
  }

  /** The outcome of `create_claim(caller, claim)`: it fails exactly when the content is already claimed. */
  function CreateClaimSpec<AccountId(==,!new), Content(==,!new)>(claims: map<Content, AccountId>, caller: AccountId, claim: Content)
    : (r: Outcome<map<Content, AccountId>>)
    ensures r.result.Ok? <==> claim !in claims
    ensures r.result.Err? ==> r.result.error == AlreadyClaimed && r.state == claims
    ensures r.result.Ok? ==> ClaimIn(r.state, claim) == Some(caller)
    ensures r.result.Ok? ==> r.state.Keys == claims.Keys + {claim}
    ensures ClaimIn(claims, claim).Some? ==> ClaimIn(r.state, claim) == ClaimIn(claims, claim)
    ensures forall c :: c != claim ==> ClaimIn(r.state, c) == ClaimIn(claims, c)
  {
    if claim in claims then Outcome(Err(AlreadyClaimed), claims)
    else Outcome(Ok, claims[claim := caller])
  }

  /**
   * The outcome of `revoke_claim(caller, claim)`: it fails if nobody owns the
   * content or someone other than `caller` owns it, and otherwise removes the entry.
   */
  function RevokeClaimSpec<AccountId(==,!new), Content(==,!new)>(claims: map<Content, AccountId>, caller: AccountId, claim: Content)
    : (r: Outcome<map<Content, AccountId>>)
    ensures r.result == Err(ClaimNotFound) <==> claim !in claims
    ensures r.result == Err(NotClaimOwner) <==> claim in claims && claims[claim] != caller
    ensures r.result.Ok? <==> ClaimIn(claims, claim) == Some(caller)
    ensures r.result.Err? ==> r.state == claims
    ensures r.result.Ok? ==> ClaimIn(r.state, claim) == None && r.state.Keys == claims.Keys - {claim}
    ensures forall c :: c != claim ==> ClaimIn(r.state, c) == ClaimIn(claims, c)
  {
    match ClaimIn(claims, claim)
    case None => Outcome(Err(ClaimNotFound), claims)
    case Some(owner) =>
      if owner != caller then Outcome(Err(NotClaimOwner), claims)
      else Outcome(Ok, claims - {claim})
  }

  /** The calls this pallet exposes. */
  datatype Call<Content> = CreateClaim(claim: Content) | RevokeClaim(claim: Content)

  /** Pallet-level dispatch: each call is routed to its method with the caller injected. */
  function DispatchSpec<AccountId(==,!new), Content(==,!new)>(claims: map<Content, AccountId>, caller: AccountId, call: Call<Content>)
    : (r: Outcome<map<Content, AccountId>>)
    ensures call.CreateClaim? ==> r == CreateClaimSpec(claims, caller, call.claim)
    ensures call.RevokeClaim? ==> r == RevokeClaimSpec(claims, caller, call.claim)
  {
    var o := match call
      case CreateClaim(claim) => CreateClaimSpec(claims, caller, claim)
      case RevokeClaim(claim) => RevokeClaimSpec(claims, caller, claim);
    if o.result.Err? then o else Outcome(Ok, o.state)
  }

  /** Claims made and revoked for and by distinct accounts. */
  lemma ClaimLifecycle<AccountId(!new), Content(!new)>(claims: map<Content, AccountId>, owner: AccountId, other: AccountId, claim: Content)
    requires claim !in claims && owner != other
    ensures var created := CreateClaimSpec(claims, owner, claim);
      && created.result == Ok
      && CreateClaimSpec(created.state, other, claim) == Outcome(Err(AlreadyClaimed), created.state)
      && RevokeClaimSpec(created.state, other, claim) == Outcome(Err(NotClaimOwner), created.state)
      && RevokeClaimSpec(created.state, owner, claim) == Outcome(Ok, claims)
  {
    var created := CreateClaimSpec(claims, owner, claim);
    assert created.state - {claim} == claims;
  }

  class Pallet<AccountId(==,!new), Content(==,!new)> {
    /** A map from content to the account that claimed it. */
    var claims: map<Content, AccountId>

    /** A new pallet holds no claims. */
    constructor ()
      ensures claims == map[]
      ensures forall c :: GetClaim(c) == None
    {
      claims := map[];
    }

    /** The owner of `claim`, if it is claimed. */
    function GetClaim(claim: Content): (r: Option<AccountId>)
      reads this
      ensures r.Some? <==> claim in claims
      ensures r.Some? ==> r.value == claims[claim]
    {
      ClaimIn(claims, claim)
    }

    /** `create_claim`: fails if the content is claimed, otherwise records `caller` as its owner. */
    method CreateClaim(caller: AccountId, claim: Content) returns (r: DispatchResult)
      modifies this
      ensures Outcome(r, claims) == CreateClaimSpec(old(claims), caller, claim)
    {
      if claim in claims {
        return Err(AlreadyClaimed);
      }
      claims := claims[claim := caller];
      return Ok;
    }

    /** `revoke_claim`: looks the owner up, checks it is `caller`, then removes the entry. */
    method RevokeClaim(caller: AccountId, claim: Content) returns (r: DispatchResult)
      modifies this
      ensures Outcome(r, claims) == RevokeClaimSpec(old(claims), caller, claim)
    {
      var owner := GetClaim(claim);
      if owner.None? {
        return Err(ClaimNotFound);
      }
      if owner.value != caller {
        return Err(NotClaimOwner);
      }
      claims := claims - {claim};
      return Ok;
    }

    /** Route a pallet call to its method, passing any error through unchanged. */
    method Dispatch(caller: AccountId, call: Call<Content>) returns (r: DispatchResult)
      modifies this
      ensures Outcome(r, claims) == DispatchSpec(old(claims), caller, call)
    {
      match call {
        case CreateClaim(claim) =>
          r := CreateClaim(caller, claim);
          if r.Err? {
            return;
          }
        case RevokeClaim(claim) =>
          r := RevokeClaim(caller, claim);
          if r.Err? {
            return;
          }
      }
      r := Ok;
    }
  }
}
