/**
 * Two places where the routes do not do what they evidently set out to do,
 * each modelled as written (with the input that shows it) and corrected
 * (with the intended property proved).
 *
 * 1. `POST /api/proof/issue` stamps `mintedAt`, the field `POST /api/mint`
 *    reads as "already minted". The dApp's mint flow calls the former and
 *    then the latter for the same session, so the mint is always refused.
 * 2. The identity hash of `POST /api/kyc/start` includes the fresh session
 *    id, so no other session can share it and the duplicate-identity
 *    branch never fires for any hash that is injective on its fields.
 */
module Findings {
  import opened Wrappers
  import opened Js
  import opened Auth
  import opened KycStore
  import Gemini
  import PI = ProofIssue
  import MR = MintRoute
  import KS = KycStart

  // ---------------------------------------------------------------------
  // 1. Preparing a proof marks the session as minted.
  // ---------------------------------------------------------------------

  /**
   * The dApp's sequence (proof/issue, then mint, for one session and one
   * wallet): whatever the chain and the configuration, the mint is refused
   * as already minted.
   */
  lemma PrepareBlocksMint(
    store: Store, users: seq<UserSession>, req: PI.IssueRequest, now: int,
    body: MR.MintBody, config: MR.ServerConfig, chain: MR.MintCall -> MR.ChainResult, supply: Option<nat>, later: int)
    requires PI.Issue(store, users, req, now).Issued?
    requires body.sessionId == req.body.sessionId
    requires Given(body.userAddress) && IsWalletAddress(body.userAddress.value)
    ensures MR.Post(PI.Issue(store, users, req, now).store, body, config, chain, supply, later) == MR.AlreadyMintedSession
  {
  }

  /** `POST /api/proof/issue` corrected: the same checks and payload, and the session is left for the mint to stamp. */
  function IssueCorrected(store: Store, users: seq<UserSession>, req: PI.IssueRequest, now: int): (o: PI.IssueOutcome)
    ensures o.Issued? ==> o.store == store
    ensures PI.HttpStatus(o) == PI.HttpStatus(PI.Issue(store, users, req, now))
    ensures o.Issued? <==> PI.Issue(store, users, req, now).Issued?
    ensures o.Issued? ==> o.payload == PI.Issue(store, users, req, now).payload
  {
    match PI.Issue(store, users, req, now)
    case Issued(_, u, p) => PI.Issued(store, u, p)
    case other => other
  }

  /**
   * With the corrected route the dApp's sequence reaches the chain, and a
   * mined, non-reverted transaction records the mint.
   */
  lemma CorrectedPrepareAllowsMint(
    store: Store, users: seq<UserSession>, req: PI.IssueRequest, now: int,
    body: MR.MintBody, chain: MR.MintCall -> MR.ChainResult, supply: Option<nat>, later: int)
    requires IsWalletAddress(ClaimedAddress(req.body.address, req.header)) && Given(req.body.sessionId)
    requires req.body.sessionId.value in store && store[req.body.sessionId.value].status == Verified
    requires store[req.body.sessionId.value].mintedAt.None?
    requires body.sessionId == req.body.sessionId
    requires Given(body.userAddress) && IsWalletAddress(body.userAddress.value)
    ensures IssueCorrected(store, users, req, now).Issued?
    ensures MR.GatesPass(IssueCorrected(store, users, req, now).store, body)
    ensures var c := MR.PrepareCall(store[req.body.sessionId.value], body.userAddress.value, body);
      chain(c).Mined? && !chain(c).receipt.reverted ==>
        MR.Post(IssueCorrected(store, users, req, now).store, body, MR.ServerConfig(true, true), chain, supply, later).Minted?
  {
  }

  // ---------------------------------------------------------------------
  // 2. The duplicate-identity check cannot fire.
  // ---------------------------------------------------------------------

  /** The hash tells its inputs apart (what the duplicate check relies on). */
  ghost predicate Injective(sha: KS.IdentityInput -> Hash) {
    forall a, b :: sha(a) == sha(b) ==> a == b
  }

  /** Every stored identity hash is the hash of an input naming the session it is stored under. */
  ghost predicate Bound(store: Store, sha: KS.IdentityInput -> Hash) {
    forall k :: k in store ==> exists inp: KS.IdentityInput :: inp.sessionId == k && sha(inp) == store[k].identityHash
  }

  /**
   * As written, on a collection filled by the route itself, an admitted
   * request is never reported as a duplicate, and the collection stays so.
   */
  lemma DuplicateUnreachable(store: Store, form: KS.StartForm, env: KS.StartEnv, sha: KS.IdentityInput -> Hash)
    requires Injective(sha)
    requires Bound(store, sha)
    requires KS.Admitted(form)
    ensures !KS.Start(store, form, env, sha).Duplicate?
    ensures Bound(KS.Start(store, form, env, sha).store, sha)
  {
    var sid := env.sessionId;
    var inp := KS.IdentityInputOf(KS.WithSessionId, form, form.age.value, sid, env.idCheck);
    var h := KS.IdentityHashOf(KS.WithSessionId, form, env, sha);
    assert h == sha(inp);
    var after := KS.Start(store, form, env, sha).store;
    forall k | k in after
      ensures exists i: KS.IdentityInput :: i.sessionId == k && sha(i) == after[k].identityHash
    {
      if k == sid {
        assert inp.sessionId == k && sha(inp) == after[k].identityHash;
      } else {
        assert after[k] == store[k];
      }
    }
  }

  /**
   * The input that shows it: the same person starts twice with the same
   * documents; the second session is accepted and stored as unique.
   */
  lemma ResubmissionGoesUndetected(
    store: Store, form: KS.StartForm, env1: KS.StartEnv, env2: KS.StartEnv, sha: KS.IdentityInput -> Hash)
    requires Injective(sha)
    requires Bound(store, sha)
    requires KS.Admitted(form)
    requires KS.Start(store, form, env1, sha).Accepted?
    requires env2.idCheck == env1.idCheck && env2.sessionId != env1.sessionId
    ensures var second := KS.Start(KS.Start(store, form, env1, sha).store, form, env2, sha);
      second.Accepted? && second.store[env2.sessionId].flags.isUnique
  {
    DuplicateUnreachable(store, form, env1, sha);
    DuplicateUnreachable(KS.Start(store, form, env1, sha).store, form, env2, sha);
  }

  /** `POST /api/kyc/start` corrected: the identity hash is taken without the session id. */
  function StartCorrected(store: Store, form: KS.StartForm, env: KS.StartEnv, sha: KS.IdentityInput -> Hash): (o: KS.StartOutcome)
    ensures KS.Admitted(form) ==>
      (o.Duplicate? <==> KS.DuplicateBefore(store, env.sessionId, sha(KS.IdentityInput(
        form.fullName, form.country, form.age.value, "", OrElse(env.idCheck.extractedNationality, form.country)))))
  {
    KS.StartUnder(KS.WithoutSessionId, store, form, env, sha)
  }

  /** With the corrected hash, the same resubmission is reported as a duplicate and marked non-unique. */
  lemma CorrectedDetectsResubmission(
    store: Store, form: KS.StartForm, env1: KS.StartEnv, env2: KS.StartEnv, sha: KS.IdentityInput -> Hash)
    requires KS.Admitted(form)
    requires StartCorrected(store, form, env1, sha).Accepted?
    requires env2.idCheck == env1.idCheck && env2.sessionId != env1.sessionId
    ensures var second := StartCorrected(StartCorrected(store, form, env1, sha).store, form, env2, sha);
      second.Duplicate? && !second.store[env2.sessionId].flags.isUnique
  {
    var first := StartCorrected(store, form, env1, sha).store;
    var k := env1.sessionId;
    assert first[k].sessionId == k;
    assert first[k].identityHash == KS.IdentityHashOf(KS.WithoutSessionId, form, env2, sha);
    assert KS.DuplicateBefore(first, env2.sessionId, KS.IdentityHashOf(KS.WithoutSessionId, form, env2, sha));
  }

  /** The text actually hashed: the five fields run together without separators. */
  function HashText(inp: KS.IdentityInput): string {
    inp.fullName + inp.country + Text.IntToDecimal(inp.age) + inp.sessionId + inp.nationality
  }

  /**
   * Injectivity on the fields is more than sha256 of `HashText` gives: two
   * inputs with different session ids can produce the same text.
   */
  lemma HashTextIsAmbiguous()
    ensures var a := KS.IdentityInput("Ann", "GB", 30, "ab", "GB");
      var b := KS.IdentityInput("Ann", "GB", 30, "a", "bGB");
      a.sessionId != b.sessionId && HashText(a) == HashText(b)
  {
    assert Text.IntToDecimal(30) == "30";
  }
}
