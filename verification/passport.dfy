/**
 * The soulbound passport registry (the OblivionPassport contract) together
 * with its mock verifier, as pure transitions over an immutable state.
 *
 * The contract's Solidity text is not part of this model: its behaviour is
 * taken from its ABI and its Hardhat tests. Where neither fixes the
 * behaviour, the choice is an explicit `Policy` fixed at construction.
 */
module Passport {
  import opened Wrappers

  /** An account: a 160-bit address read as a number. */
  type Address = nat

  /** A `bytes32` value read as a number. */
  type Bytes32 = nat

  type Byte = b: int | 0 <= b < 256

  /** The `Attributes` struct: five flags in ABI order, then the identity hash. */
  datatype Attributes = Attributes(
    isVerified: bool,
    isAdult: bool,
    isHuman: bool,
    isNotSanctioned: bool,
    isUnique: bool,
    identityHash: Bytes32)

  /** The five flags of `a`, in ABI order. */
  function FlagList(a: Attributes): (r: seq<bool>)
    ensures |r| == 5
  {
    [a.isVerified, a.isAdult, a.isHuman, a.isNotSanctioned, a.isUnique]
  }

  /** `MINTER_ROLE`, `REVOKER_ROLE` and `DEFAULT_ADMIN_ROLE`. */
  datatype Role = DefaultAdmin | Minter | Revoker

  datatype Token = Token(owner: Address, attrs: Attributes, metadataURI: string, revoked: bool)

  /** The three events of the ABI, in the order their fields are declared. */
  datatype Event =
    | PassportMinted(to: Address, tokenId: nat, attrs: Attributes, metadataURI: string)
    | PassportRevoked(revokedBy: Address, tokenId: nat, reason: string)
    | VerifierUpdated(updatedBy: Address, newVerifier: Address)

  /**
   * The verifier the registry calls: the mock verifier deployed at `address`,
   * whose only state is the `allow` flag given to its constructor.
   */
  datatype Verifier = MockVerifier(address: Address, allow: bool)

  /**
   * `verifyProof(bytes, uint256[])`: a view, so a pure function of the
   * verifier; the mock answers its `allow` flag whatever the proof.
   */
  function VerifyProof(v: Verifier, proof: seq<Byte>, publicSignals: seq<nat>): (ok: bool)
    ensures ok <==> v.allow
  {
    v.allow
  }

  /** Whether one passport is allowed per identity hash or per recipient. */
  datatype UniqueKey = PerIdentityHash | PerRecipient

  /** What `revoke` does with a passport that is already revoked. */
  datatype RevokeAgain = RejectRevokeAgain | RepeatRevoke

  /** The behaviours the contract's interface and tests leave open. */
  datatype Policy = Policy(
    uniqueKey: UniqueKey,
    revokeAgain: RevokeAgain,
    revokeFreesClaim: bool,
    keepLastAdmin: bool)

  /** The uniqueness key a mint of `attrs` to `to` claims. */
  function ClaimOf(p: Policy, to: Address, attrs: Attributes): nat {
    match p.uniqueKey
    case PerIdentityHash => attrs.identityHash
    case PerRecipient => to
  }

  function TokenClaim(p: Policy, t: Token): nat {
    ClaimOf(p, t.owner, t.attrs)
  }

  /** A token still holds its uniqueness key: it is live, or revocation does not free keys. */
  predicate Holds(p: Policy, t: Token) {
    !t.revoked || !p.revokeFreesClaim
  }

  datatype Registry = Registry(
    policy: Policy,
    tokens: map<nat, Token>,
    supply: nat,
    claims: map<nat, nat>,
    grants: set<(Role, Address)>,
    verifier: Verifier,
    log: seq<Event>)

  /** The typed failures of the registry (Solidity custom errors). */
  datatype Error =
    | AccessControlUnauthorizedAccount(account: Address, neededRole: Role)
    | AlreadyMinted
    | InvalidProof
    | Soulbound
    | Revoked
    | AlreadyRevoked
    | NonexistentToken(tokenId: nat)
    | LastAdminProtected

  datatype Minted = Minted(registry: Registry, tokenId: nat)

  predicate HasRole(r: Registry, role: Role, account: Address) {
    (role, account) in r.grants
  }

  function Admins(r: Registry): set<Address> {
    set g | g in r.grants && g.0 == DefaultAdmin :: g.1
  }

  /**
   * The registry invariant: ids 1..supply are exactly the minted tokens, the
   * claim index and the tokens that hold a key agree both ways, and a guarded
   * registry always has an admin.
   */
  ghost predicate Valid(r: Registry) {
    && (forall id :: id in r.tokens <==> 1 <= id <= r.supply)
    && (forall c :: c in r.claims ==>
          && r.claims[c] in r.tokens
          && Holds(r.policy, r.tokens[r.claims[c]])
          && TokenClaim(r.policy, r.tokens[r.claims[c]]) == c)
    && (forall id :: id in r.tokens && Holds(r.policy, r.tokens[id]) ==>
          && TokenClaim(r.policy, r.tokens[id]) in r.claims
          && r.claims[TokenClaim(r.policy, r.tokens[id])] == id)
    && (r.policy.keepLastAdmin ==> Admins(r) != {})
  }

  /** `constructor(admin, verifierAddress)`: the admin holds all three roles. */
  function Construct(policy: Policy, admin: Address, verifier: Verifier): (r: Registry)
    ensures Valid(r)
    ensures HasRole(r, DefaultAdmin, admin) && HasRole(r, Minter, admin) && HasRole(r, Revoker, admin)
    ensures forall role, a :: HasRole(r, role, a) ==> a == admin
    ensures VerifierAddress(r) == verifier.address
    ensures r.tokens == map[] && r.supply == 0 && r.log == []
  {
    var r := Registry(policy, map[], 0, map[], {(DefaultAdmin, admin), (Minter, admin), (Revoker, admin)}, verifier, []);
    assert (DefaultAdmin, admin) in r.grants;
    assert admin in Admins(r);
    r
  }

  // ----- views -----

  /**
   * `getAttributes(tokenId)`: the attributes of a live passport; an id never
   * minted is `ERC721NonexistentToken`, a revoked passport `Revoked`.
   */
  function GetAttributes(r: Registry, tokenId: nat): (res: Result<Attributes, Error>)
    ensures res.Ok? <==> tokenId in r.tokens && !IsRevoked(r, tokenId)
    ensures res.Ok? ==> res.value == r.tokens[tokenId].attrs
    ensures res == Err(Revoked) <==> IsRevoked(r, tokenId)
    ensures res == Err(NonexistentToken(tokenId)) <==> OwnerOf(r, tokenId).Err?
  {
    if tokenId !in r.tokens then Err(NonexistentToken(tokenId))
    else if r.tokens[tokenId].revoked then Err(Revoked)
    else Ok(r.tokens[tokenId].attrs)
  }

  /** `ownerOf(tokenId)`: available whether or not the passport is revoked. */
  function OwnerOf(r: Registry, tokenId: nat): (res: Result<Address, Error>)
    ensures res.Ok? <==> tokenId in r.tokens
    ensures res.Ok? ==> res.value == r.tokens[tokenId].owner
    ensures res.Err? ==> res.error == NonexistentToken(tokenId)
    ensures IsRevoked(r, tokenId) ==> res.Ok?
  {
    if tokenId !in r.tokens then Err(NonexistentToken(tokenId)) else Ok(r.tokens[tokenId].owner)
  }

  /** `isRevoked(tokenId)`: `false` for an id never minted. */
  function IsRevoked(r: Registry, tokenId: nat): (b: bool)
    ensures b ==> tokenId in r.tokens
    ensures tokenId in r.tokens ==> (b <==> r.tokens[tokenId].revoked)
  {
    tokenId in r.tokens && r.tokens[tokenId].revoked
  }

  /** `verifier()`. */
  function VerifierAddress(r: Registry): Address {
    r.verifier.address
  }

  // ----- transitions -----

  /**
   * `mintPassport(to, attrs, zkProof, publicSignals, metadataURI)`: a minter
   * mints the next id to `to`, once per uniqueness key, if the verifier accepts.
   */
  function MintPassport(
    r: Registry, caller: Address, to: Address, attrs: Attributes,
    zkProof: seq<Byte>, publicSignals: seq<nat>, metadataURI: string): (res: Result<Minted, Error>)
    ensures !HasRole(r, Minter, caller) ==> res == Err(AccessControlUnauthorizedAccount(caller, Minter))
    ensures HasRole(r, Minter, caller) && ClaimOf(r.policy, to, attrs) in r.claims ==> res == Err(AlreadyMinted)
    ensures HasRole(r, Minter, caller) && ClaimOf(r.policy, to, attrs) !in r.claims && !r.verifier.allow
            ==> res == Err(InvalidProof)
    ensures res.Ok? <==> HasRole(r, Minter, caller) && ClaimOf(r.policy, to, attrs) !in r.claims && r.verifier.allow
    ensures res.Ok? ==>
      var r' := res.value.registry;
      var id := res.value.tokenId;
      && id == r.supply + 1 && r'.supply == id
      && GetAttributes(r', id) == Ok(attrs)
      && OwnerOf(r', id) == Ok(to)
      && !IsRevoked(r', id)
      && r'.log == r.log + [PassportMinted(to, id, attrs, metadataURI)]
      && r'.grants == r.grants && r'.verifier == r.verifier && r'.policy == r.policy
      && (forall t :: t in r.tokens && t != id ==> t in r'.tokens && r'.tokens[t] == r.tokens[t])
    ensures res.Ok? && Valid(r) ==> res.value.tokenId !in r.tokens
  {
    if !HasRole(r, Minter, caller) then Err(AccessControlUnauthorizedAccount(caller, Minter))
    else
      var claim := ClaimOf(r.policy, to, attrs);
      if claim in r.claims then Err(AlreadyMinted)
      else if !VerifyProof(r.verifier, zkProof, publicSignals) then Err(InvalidProof)
      else
        var id := r.supply + 1;
        Ok(Minted(
          r.(tokens := r.tokens[id := Token(to, attrs, metadataURI, false)],
             supply := id,
             claims := r.claims[claim := id],
             log := r.log + [PassportMinted(to, id, attrs, metadataURI)]),
          id))
  }

  /** `revoke(tokenId, reason)`: a revoker invalidates a passport, keeping its owner. */
  function Revoke(r: Registry, caller: Address, tokenId: nat, reason: string): (res: Result<Registry, Error>)
    ensures !HasRole(r, Revoker, caller) ==> res == Err(AccessControlUnauthorizedAccount(caller, Revoker))
    ensures HasRole(r, Revoker, caller) && tokenId !in r.tokens ==> res == Err(NonexistentToken(tokenId))
    ensures HasRole(r, Revoker, caller) && IsRevoked(r, tokenId) && r.policy.revokeAgain == RejectRevokeAgain
            ==> res == Err(AlreadyRevoked)
    ensures res.Ok? <==>
      HasRole(r, Revoker, caller) && tokenId in r.tokens
      && !(IsRevoked(r, tokenId) && r.policy.revokeAgain == RejectRevokeAgain)
    ensures res.Ok? ==>
      var r' := res.value;
      && GetAttributes(r', tokenId) == Err(Revoked)
      && IsRevoked(r', tokenId)
      && OwnerOf(r', tokenId) == OwnerOf(r, tokenId)
      && r'.log == r.log + [PassportRevoked(caller, tokenId, reason)]
      && r'.supply == r.supply && r'.grants == r.grants && r'.verifier == r.verifier && r'.policy == r.policy
      && r'.tokens.Keys == r.tokens.Keys
      && r'.tokens[tokenId] == r.tokens[tokenId].(revoked := true)
      && (forall t :: t in r.tokens && t != tokenId ==> r'.tokens[t] == r.tokens[t])
  {
    if !HasRole(r, Revoker, caller) then Err(AccessControlUnauthorizedAccount(caller, Revoker))
    else if tokenId !in r.tokens then Err(NonexistentToken(tokenId))
    else if r.tokens[tokenId].revoked && r.policy.revokeAgain == RejectRevokeAgain then Err(AlreadyRevoked)
    else
      var t := r.tokens[tokenId];
      var claim := TokenClaim(r.policy, t);
      var claims :=
        if r.policy.revokeFreesClaim && claim in r.claims && r.claims[claim] == tokenId
        then r.claims - {claim} else r.claims;
      Ok(r.(tokens := r.tokens[tokenId := t.(revoked := true)],
            claims := claims,
            log := r.log + [PassportRevoked(caller, tokenId, reason)]))
  }

  /** Every transfer entry point of the token interface: passports are soulbound. */
  function TransferFrom(r: Registry, caller: Address, from: Address, to: Address, tokenId: nat): (res: Result<Registry, Error>)
    ensures res == Err(Soulbound)
  {
    Err(Soulbound)
  }

  /** `grantRole(role, account)`: only a `DEFAULT_ADMIN_ROLE` holder may call it. */
  function GrantRole(r: Registry, caller: Address, role: Role, account: Address): (res: Result<Registry, Error>)
    ensures !HasRole(r, DefaultAdmin, caller) ==> res == Err(AccessControlUnauthorizedAccount(caller, DefaultAdmin))
    ensures HasRole(r, DefaultAdmin, caller) ==> res.Ok?
    ensures res.Ok? ==>
      && HasRole(res.value, role, account)
      && (forall ro: Role, a: Address :: (ro, a) != (role, account) ==> (HasRole(res.value, ro, a) <==> HasRole(r, ro, a)))
      && res.value == r.(grants := res.value.grants)
  {
    if !HasRole(r, DefaultAdmin, caller) then Err(AccessControlUnauthorizedAccount(caller, DefaultAdmin))
    else Ok(r.(grants := r.grants + {(role, account)}))
  }

  /**
   * `revokeRole(role, account)`: admin-only; the optional guard keeps the
   * last admin. The interface lists only the role constants; the call is
   * inferred from the access-control scheme they belong to.
   */
  function RevokeRole(r: Registry, caller: Address, role: Role, account: Address): (res: Result<Registry, Error>)
    ensures !HasRole(r, DefaultAdmin, caller) ==> res == Err(AccessControlUnauthorizedAccount(caller, DefaultAdmin))
    ensures HasRole(r, DefaultAdmin, caller) && r.policy.keepLastAdmin && role == DefaultAdmin && Admins(r) == {account}
            ==> res == Err(LastAdminProtected)
    ensures HasRole(r, DefaultAdmin, caller) && !(r.policy.keepLastAdmin && role == DefaultAdmin && Admins(r) == {account})
            ==> res.Ok?
    ensures res.Ok? ==>
      && !HasRole(res.value, role, account)
      && (forall ro: Role, a: Address :: (ro, a) != (role, account) ==> (HasRole(res.value, ro, a) <==> HasRole(r, ro, a)))
      && res.value == r.(grants := res.value.grants)
  {
    if !HasRole(r, DefaultAdmin, caller) then Err(AccessControlUnauthorizedAccount(caller, DefaultAdmin))
    else if r.policy.keepLastAdmin && role == DefaultAdmin && Admins(r) == {account} then Err(LastAdminProtected)
    else Ok(r.(grants := r.grants - {(role, account)}))
  }

  /**
   * `setVerifier(newVerifier)`, which the admin panel calls. The interface
   * lists only its event, `VerifierUpdated`; the setter and its admin gate
   * are inferred from that event and the role constants.
   */
  function SetVerifier(r: Registry, caller: Address, v: Verifier): (res: Result<Registry, Error>)
    ensures !HasRole(r, DefaultAdmin, caller) ==> res == Err(AccessControlUnauthorizedAccount(caller, DefaultAdmin))
    ensures HasRole(r, DefaultAdmin, caller) ==> res.Ok?
    ensures res.Ok? ==>
      && VerifierAddress(res.value) == v.address
      && res.value.log == r.log + [VerifierUpdated(caller, v.address)]
      && res.value == r.(verifier := v, log := res.value.log)
  {
    if !HasRole(r, DefaultAdmin, caller) then Err(AccessControlUnauthorizedAccount(caller, DefaultAdmin))
    else Ok(r.(verifier := v, log := r.log + [VerifierUpdated(caller, v.address)]))
  }

  /** One state-changing transaction against the registry. */
  datatype Call =
    | MintCall(caller: Address, to: Address, attrs: Attributes, zkProof: seq<Byte>, publicSignals: seq<nat>, metadataURI: string)
    | RevokeCall(caller: Address, tokenId: nat, reason: string)
    | TransferCall(caller: Address, from: Address, to: Address, tokenId: nat)
    | GrantRoleCall(caller: Address, role: Role, account: Address)
    | RevokeRoleCall(caller: Address, role: Role, account: Address)
    | SetVerifierCall(caller: Address, v: Verifier)

  function Step(r: Registry, c: Call): Result<Registry, Error> {
    match c
    case MintCall(caller, to, attrs, proof, signals, uri) =>
      var m :- MintPassport(r, caller, to, attrs, proof, signals, uri);
      Ok(m.registry)
    case RevokeCall(caller, id, reason) => Revoke(r, caller, id, reason)
    case TransferCall(caller, from, to, id) => TransferFrom(r, caller, from, to, id)
    case GrantRoleCall(caller, role, a) => GrantRole(r, caller, role, a)
    case RevokeRoleCall(caller, role, a) => RevokeRole(r, caller, role, a)
    case SetVerifierCall(caller, v) => SetVerifier(r, caller, v)
  }

  /** A sequence of transactions; a failing one reverts and leaves the state as it was. */
  function Run(r: Registry, calls: seq<Call>): Registry
    decreases |calls|
  {
    if |calls| == 0 then r
    else
      var next := match Step(r, calls[0]) case Ok(r') => r' case Err(_) => r;
      Run(next, calls[1..])
  }
}
