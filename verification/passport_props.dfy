/**
 * Properties of the passport registry: its invariant is kept by every
 * transaction, ownership and revocation are permanent, one passport per
 * uniqueness key, and the scenarios of the contract's Hardhat tests.
 */
module PassportProps {
  import opened Wrappers
  import opened Passport

  lemma MintPreservesValid(
    r: Registry, caller: Address, to: Address, attrs: Attributes,
    zkProof: seq<Byte>, publicSignals: seq<nat>, metadataURI: string)
    requires Valid(r)
    requires MintPassport(r, caller, to, attrs, zkProof, publicSignals, metadataURI).Ok?
    ensures Valid(MintPassport(r, caller, to, attrs, zkProof, publicSignals, metadataURI).value.registry)
  {
    var r' := MintPassport(r, caller, to, attrs, zkProof, publicSignals, metadataURI).value.registry;
    var id := r.supply + 1;
    var claim := ClaimOf(r.policy, to, attrs);
    assert r'.claims == r.claims[claim := id];
    forall c | c in r'.claims
      ensures r'.claims[c] in r'.tokens && Holds(r'.policy, r'.tokens[r'.claims[c]])
      ensures TokenClaim(r'.policy, r'.tokens[r'.claims[c]]) == c
    {
      if c != claim {
        assert r.claims[c] in r.tokens;
        assert r.claims[c] != id;
      }
    }
    assert Admins(r') == Admins(r);
  }

  lemma RevokePreservesValid(r: Registry, caller: Address, tokenId: nat, reason: string)
    requires Valid(r)
    requires Revoke(r, caller, tokenId, reason).Ok?
    ensures Valid(Revoke(r, caller, tokenId, reason).value)
  {
    var r' := Revoke(r, caller, tokenId, reason).value;
    assert Admins(r') == Admins(r);
  }

  lemma RevokeRolePreservesValid(r: Registry, caller: Address, role: Role, account: Address)
    requires Valid(r)
    requires RevokeRole(r, caller, role, account).Ok?
    ensures Valid(RevokeRole(r, caller, role, account).value)
  {
    var r' := RevokeRole(r, caller, role, account).value;
    if r.policy.keepLastAdmin {
      var a :| a in Admins(r);
      if role == DefaultAdmin && a == account {
        assert Admins(r) != {account};
        var b :| b in Admins(r) && b != account;
        assert (DefaultAdmin, b) in r'.grants;
        assert b in Admins(r');
      } else {
        assert (DefaultAdmin, a) in r'.grants;
        assert a in Admins(r');
      }
    }
  }

  lemma GrantRolePreservesValid(r: Registry, caller: Address, role: Role, account: Address)
    requires Valid(r)
    requires GrantRole(r, caller, role, account).Ok?
    ensures Valid(GrantRole(r, caller, role, account).value)
  {
    var r' := GrantRole(r, caller, role, account).value;
    if r.policy.keepLastAdmin {
      var a :| a in Admins(r);
      assert (DefaultAdmin, a) in r'.grants;
      assert a in Admins(r');
    }
  }

  /** Every successful transaction keeps the registry invariant. */
  lemma StepPreservesValid(r: Registry, c: Call)
    requires Valid(r)
    ensures Step(r, c).Ok? ==> Valid(Step(r, c).value)
  {
    match c
    case MintCall(caller, to, attrs, proof, signals, uri) =>
      if MintPassport(r, caller, to, attrs, proof, signals, uri).Ok? {
        MintPreservesValid(r, caller, to, attrs, proof, signals, uri);
      }
    case RevokeCall(caller, id, reason) =>
      if Revoke(r, caller, id, reason).Ok? {
        RevokePreservesValid(r, caller, id, reason);
      }
    case TransferCall(_, _, _, _) =>
    case GrantRoleCall(caller, role, a) =>
      if GrantRole(r, caller, role, a).Ok? {
        GrantRolePreservesValid(r, caller, role, a);
      }
    case RevokeRoleCall(caller, role, a) =>
      if RevokeRole(r, caller, role, a).Ok? {
        RevokeRolePreservesValid(r, caller, role, a);
      }
    case SetVerifierCall(caller, v) =>
      if SetVerifier(r, caller, v).Ok? {
        assert Admins(SetVerifier(r, caller, v).value) == Admins(r);
      }
  }

  /** Any sequence of transactions keeps the registry invariant. */
  lemma {:induction false} RunPreservesValid(r: Registry, calls: seq<Call>)
    requires Valid(r)
    ensures Valid(Run(r, calls))
    decreases |calls|
  {
    if |calls| > 0 {
      StepPreservesValid(r, calls[0]);
      var next := match Step(r, calls[0]) case Ok(r') => r' case Err(_) => r;
      RunPreservesValid(next, calls[1..]);
    }
  }

  /**
   * `r'` is a later state of `r`: every passport keeps its owner and
   * attributes, a revoked passport stays revoked, and the event log only grows.
   */
  ghost predicate Extends(r: Registry, r': Registry) {
    && r'.policy == r.policy
    && r.log <= r'.log
    && (forall id :: id in r.tokens ==>
          && id in r'.tokens
          && r'.tokens[id].owner == r.tokens[id].owner
          && r'.tokens[id].attrs == r.tokens[id].attrs
          && (r.tokens[id].revoked ==> r'.tokens[id].revoked))
  }

  lemma StepExtends(r: Registry, c: Call)
    requires Valid(r)
    ensures Step(r, c).Ok? ==> Extends(r, Step(r, c).value)
  {
    match c
    case MintCall(caller, to, attrs, proof, signals, uri) =>
      var m := MintPassport(r, caller, to, attrs, proof, signals, uri);
      if m.Ok? {
        assert m.value.tokenId !in r.tokens;
      }
    case _ =>
  }

  lemma {:induction false} RunExtends(r: Registry, calls: seq<Call>)
    requires Valid(r)
    ensures Extends(r, Run(r, calls))
    decreases |calls|
  {
    if |calls| > 0 {
      StepExtends(r, calls[0]);
      StepPreservesValid(r, calls[0]);
      var next := match Step(r, calls[0]) case Ok(r') => r' case Err(_) => r;
      RunExtends(next, calls[1..]);
    }
  }

  /** Soulbound: no sequence of transactions changes the owner of a minted passport. */
  lemma OwnerIsPermanent(r: Registry, calls: seq<Call>, tokenId: nat)
    requires tokenId in r.tokens
    requires Valid(r)
    ensures OwnerOf(Run(r, calls), tokenId) == OwnerOf(r, tokenId)
  {
    RunExtends(r, calls);
  }

  /** Once revoked, a passport's attributes are refused forever. */
  lemma RevocationIsPermanent(r: Registry, calls: seq<Call>, tokenId: nat)
    requires IsRevoked(r, tokenId)
    requires Valid(r)
    ensures GetAttributes(Run(r, calls), tokenId) == Err(Revoked)
    ensures IsRevoked(Run(r, calls), tokenId)
  {
    RunExtends(r, calls);
  }

  /** The event log is append-only. */
  lemma LogIsAppendOnly(r: Registry, calls: seq<Call>)
    requires Valid(r)
    ensures r.log <= Run(r, calls).log
  {
    RunExtends(r, calls);
  }

  /** No two passports that hold a uniqueness key share it. */
  lemma ClaimsAreUnique(r: Registry, i: nat, j: nat)
    requires Valid(r)
    requires i in r.tokens && j in r.tokens && i != j
    requires Holds(r.policy, r.tokens[i]) && Holds(r.policy, r.tokens[j])
    ensures TokenClaim(r.policy, r.tokens[i]) != TokenClaim(r.policy, r.tokens[j])
  {
  }

  /**
   * With one passport per identity hash and no release on revocation, every
   * passport ever minted from a constructed registry has its own identity hash.
   */
  lemma OnePassportPerIdentity(
    policy: Policy, admin: Address, v: Verifier, calls: seq<Call>, i: nat, j: nat)
    requires policy.uniqueKey == PerIdentityHash && !policy.revokeFreesClaim
    requires var r := Run(Construct(policy, admin, v), calls); i in r.tokens && j in r.tokens && i != j
    ensures var r := Run(Construct(policy, admin, v), calls);
      r.tokens[i].attrs.identityHash != r.tokens[j].attrs.identityHash
  {
    var r := Run(Construct(policy, admin, v), calls);
    RunPreservesValid(Construct(policy, admin, v), calls);
    RunExtends(Construct(policy, admin, v), calls);
    ClaimsAreUnique(r, i, j);
  }

  /** When the guard is on, a registry built by its constructor never loses its last admin. */
  lemma AdminNeverLost(policy: Policy, admin: Address, v: Verifier, calls: seq<Call>)
    requires policy.keepLastAdmin
    ensures Admins(Run(Construct(policy, admin, v), calls)) != {}
  {
    RunPreservesValid(Construct(policy, admin, v), calls);
    RunExtends(Construct(policy, admin, v), calls);
  }

  // ----- the scenarios of the Hardhat tests -----

  function TestAttributes(identityHash: Bytes32): Attributes {
    Attributes(true, true, true, true, true, identityHash)
  }

  /**
   * "mints once per address and stores attributes": with an allowing mock
   * verifier, the constructor's admin mints id 1 to `user` with an empty proof
   * and no public signals; the attributes read back; a second mint of the same
   * identity hash to the same user is `AlreadyMinted` under every policy.
   */
  lemma MintsOnceAndStoresAttributes(policy: Policy, admin: Address, user: Address, verifierAddress: Address, h: Bytes32)
    ensures var r0 := Construct(policy, admin, MockVerifier(verifierAddress, true));
      var m := MintPassport(r0, admin, user, TestAttributes(h), [], [], "ipfs://meta");
      && m.Ok? && m.value.tokenId == 1
      && GetAttributes(m.value.registry, 1) == Ok(TestAttributes(h))
      && OwnerOf(m.value.registry, 1) == Ok(user)
      && MintPassport(m.value.registry, admin, user, TestAttributes(h), [], [], "ipfs://meta") == Err(AlreadyMinted)
  {
    var r0 := Construct(policy, admin, MockVerifier(verifierAddress, true));
    var m := MintPassport(r0, admin, user, TestAttributes(h), [], [], "ipfs://meta");
    assert m.Ok?;
    MintPreservesValid(r0, admin, user, TestAttributes(h), [], [], "ipfs://meta");
    var r1 := m.value.registry;
    assert ClaimOf(policy, user, TestAttributes(h)) in r1.claims;
  }

  /** "blocks transfers (soulbound)": even the owner cannot move a minted passport. */
  lemma BlocksTransfers(policy: Policy, admin: Address, user: Address, other: Address, verifierAddress: Address, h: Bytes32)
    ensures var r0 := Construct(policy, admin, MockVerifier(verifierAddress, true));
      var m := MintPassport(r0, admin, user, TestAttributes(h), [], [], "ipfs://meta");
      && m.Ok?
      && OwnerOf(m.value.registry, 1) == Ok(user)
      && TransferFrom(m.value.registry, user, user, other, 1) == Err(Soulbound)
  {
  }

  /** "revokes passports": after the admin revokes id 1 for "fraud", its attributes are refused. */
  lemma RevokesPassports(policy: Policy, admin: Address, user: Address, verifierAddress: Address, h: Bytes32)
    ensures var r0 := Construct(policy, admin, MockVerifier(verifierAddress, true));
      var m := MintPassport(r0, admin, user, TestAttributes(h), [], [], "ipfs://meta");
      && m.Ok?
      && var rv := Revoke(m.value.registry, admin, 1, "fraud");
      && rv.Ok?
      && GetAttributes(rv.value, 1) == Err(Revoked)
      && OwnerOf(rv.value, 1) == Ok(user)
      && rv.value.log[|rv.value.log| - 1] == PassportRevoked(admin, 1, "fraud")
  {
  }

  /** A verifier constructed with `allow = false` makes every mint fail. */
  lemma RejectingVerifierBlocksMint(
    r: Registry, caller: Address, to: Address, attrs: Attributes,
    zkProof: seq<Byte>, publicSignals: seq<nat>, metadataURI: string)
    requires !r.verifier.allow
    ensures MintPassport(r, caller, to, attrs, zkProof, publicSignals, metadataURI).Err?
  {
  }
}
