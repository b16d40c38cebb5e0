/**
 * `POST /api/mint` (web/src/app/api/mint/route.ts): the gates checked
 * before any chain call, the call built from the session, token-id
 * extraction from the receipt, the session update on success, and the
 * classification of chain errors.
 *
 * The chain is the parameter `chain`: what sending a given call produced
 * (a mined receipt or a thrown error). `supply` is what the fallback
 * `totalSupply` read returned (`None` when it threw). The route reads it
 * through the registry's interface, which lists no `totalSupply`, so viem
 * throws before sending anything: as written, `supply` is always `None`
 * and the recorded id is the log's id or null.
 */
module MintRoute {
  import opened Wrappers
  import opened Text
  import opened Js
  import opened Auth
  import opened KycStore
  import Passport
  import PI = ProofIssue

  /** The JSON body, its fields taken as strings; `metadataURI` is `None` when the body leaves it out. */
  datatype MintBody = MintBody(sessionId: Option<string>, userAddress: Option<string>, metadataURI: Option<string>)

  const DefaultMetadataURI: string := "ipfs://mock-meta"

  /** The destructuring default applies only to an absent field, not to an empty one. */
  function MetadataURIOf(body: MintBody): (uri: string)
    ensures body.metadataURI.None? ==> uri == DefaultMetadataURI
    ensures body.metadataURI.Some? ==> uri == body.metadataURI.value
  {
    body.metadataURI.GetOr(DefaultMetadataURI)
  }

  /** Whether `PRIVATE_KEY` and an RPC URL are configured. */
  datatype ServerConfig = ServerConfig(hasPrivateKey: bool, hasRpcUrl: bool)

  /** The `mintPassport` call the route sends. */
  datatype MintCall = MintCall(to: string, attrs: Passport.Attributes, zkProof: string, publicSignals: seq<nat>, metadataURI: string)

  /** A receipt log: a decodable `PassportMinted` event, or anything else. */
  datatype Log = PassportMintedLog(tokenId: nat) | OtherLog

  datatype Receipt = Receipt(reverted: bool, blockNumber: nat, logs: seq<Log>)

  datatype ChainResult = Threw(message: string) | Mined(txHash: string, receipt: Receipt)

  datatype MintOutcome =
    | MissingInput
    | InvalidAddress
    | SessionNotFound
    | SessionNotVerified
    | AlreadyMintedSession
    | ConfigError(message: string)
    | Reverted
    | Minted(store: Store, txHash: string, tokenId: Option<nat>)
    | ChainFailure(status: nat, message: string)

  function HttpStatus(o: MintOutcome): nat {
    match o
    case MissingInput => 400
    case InvalidAddress => 400
    case SessionNotFound => 404
    case SessionNotVerified => 400
    case AlreadyMintedSession => 400
    case ConfigError(_) => 500
    case Reverted => 400
    case Minted(_, _, _) => 200
    case ChainFailure(status, _) => status
  }

  /** The token id of the first `PassportMinted` log whose id is non-zero. */
  function ExtractTokenId(logs: seq<Log>): (r: Option<nat>)
    ensures r.Some? ==>
      && r.value != 0
      && (exists i :: 0 <= i < |logs| && logs[i] == PassportMintedLog(r.value)
            && forall j :: 0 <= j < i ==> !(logs[j].PassportMintedLog? && logs[j].tokenId != 0))
    ensures r.None? ==> forall i :: 0 <= i < |logs| ==> !(logs[i].PassportMintedLog? && logs[i].tokenId != 0)
  {
    if |logs| == 0 then None
    else if logs[0].PassportMintedLog? && logs[0].tokenId != 0 then Some(logs[0].tokenId)
    else
      var rest := ExtractTokenId(logs[1..]);
      assert forall i :: 1 <= i < |logs| ==> logs[i] == logs[1..][i - 1];
      if rest.Some? then
        var i :| 0 <= i < |logs[1..]| && logs[1..][i] == PassportMintedLog(rest.value)
          && (forall j :: 0 <= j < i ==> !(logs[1..][j].PassportMintedLog? && logs[1..][j].tokenId != 0));
        assert logs[i + 1] == PassportMintedLog(rest.value);
        assert forall j :: 1 <= j < i + 1 ==> logs[j] == logs[1..][j - 1];
        rest
      else rest
  }

  /** The recorded token id: from the logs, else `totalSupply`; a zero id is reported as null. */
  function TokenIdOf(logs: seq<Log>, supply: Option<nat>): (r: Option<nat>)
    ensures ExtractTokenId(logs).Some? ==> r == ExtractTokenId(logs)
    ensures ExtractTokenId(logs).None? ==> r == (if supply.Some? && supply.value != 0 then supply else None)
    ensures r.Some? ==> r.value != 0
  {
    match ExtractTokenId(logs)
    case Some(id) => Some(id)
    case None => if supply.Some? && supply.value != 0 then supply else None
  }

  /** The status a thrown chain error is answered with, by substring, in this order. */
  function ClassifyChainError(message: string): (status: nat)
    ensures Contains(message, "AlreadyMinted") ==> status == 400
    ensures !Contains(message, "AlreadyMinted") && Contains(message, "InvalidProof") ==> status == 400
    ensures status == 403 <==>
      !Contains(message, "AlreadyMinted") && !Contains(message, "InvalidProof") && Contains(message, "AccessControl")
    ensures status == 500 <==>
      !Contains(message, "AlreadyMinted") && !Contains(message, "InvalidProof") && !Contains(message, "AccessControl")
  {
    if Contains(message, "AlreadyMinted") then 400
    else if Contains(message, "InvalidProof") then 400
    else if Contains(message, "AccessControl") then 403
    else 500
  }

  function ChainErrorMessage(message: string): string {
    if Contains(message, "AlreadyMinted") then "This address has already minted a passport"
    else if Contains(message, "InvalidProof") then "Proof verification failed"
    else if Contains(message, "AccessControl") then "Server does not have MINTER_ROLE. Please grant MINTER_ROLE to the server address."
    else if message == "" then "Minting failed"
    else message
  }

  /** The call built from a session: attributes copied from the flags, the mock proof, one signal per flag. */
  function PrepareCall(s: Session, userAddress: string, body: MintBody): (c: MintCall)
    ensures c.to == userAddress
    ensures c.attrs == ToAttributes(s.flags, s.identityHash)
    ensures c.publicSignals == PublicSignals(s.flags)
    ensures c.zkProof == MockProof()
    ensures c.metadataURI == MetadataURIOf(body)
  {
    var p := PayloadOf(s);
    MintCall(userAddress, p.attrs, p.zkProof, p.publicSignals, MetadataURIOf(body))
  }

  /** The call mint sends for a session carries exactly the payload proof/issue returned for that session. */
  lemma SendsIssuedPayload(store: Store, users: seq<UserSession>, req: PI.IssueRequest, now: int, userAddress: string, body: MintBody)
    requires PI.Issue(store, users, req, now).Issued?
    ensures var p := PI.Issue(store, users, req, now).payload;
      var c := PrepareCall(store[req.body.sessionId.value], userAddress, body);
      c.attrs == p.attrs && c.zkProof == p.zkProof && c.publicSignals == p.publicSignals
  {
  }

  /** All gates of the route pass: the request may reach the chain. */
  predicate GatesPass(store: Store, body: MintBody) {
    && Given(body.sessionId) && Given(body.userAddress)
    && IsWalletAddress(body.userAddress.value)
    && body.sessionId.value in store
    && store[body.sessionId.value].status == Verified
    && store[body.sessionId.value].mintedAt.None?
  }

  /** `POST /api/mint`. */
  function Post(store: Store, body: MintBody, config: ServerConfig, chain: MintCall -> ChainResult, supply: Option<nat>, now: int): (o: MintOutcome)
    ensures o.MissingInput? <==> !Given(body.sessionId) || !Given(body.userAddress)
    ensures o.InvalidAddress? <==>
      Given(body.sessionId) && Given(body.userAddress) && !IsWalletAddress(body.userAddress.value)
    ensures o.SessionNotFound? <==>
      Given(body.sessionId) && Given(body.userAddress) && IsWalletAddress(body.userAddress.value)
      && body.sessionId.value !in store
    ensures o.SessionNotVerified? <==>
      Given(body.sessionId) && Given(body.userAddress) && IsWalletAddress(body.userAddress.value)
      && body.sessionId.value in store && store[body.sessionId.value].status != Verified
    ensures o.AlreadyMintedSession? <==>
      Given(body.sessionId) && Given(body.userAddress) && IsWalletAddress(body.userAddress.value)
      && body.sessionId.value in store && store[body.sessionId.value].status == Verified
      && store[body.sessionId.value].mintedAt.Some?
    ensures o.ConfigError? <==> GatesPass(store, body) && !(config.hasPrivateKey && config.hasRpcUrl)
    ensures GatesPass(store, body) && config.hasPrivateKey && config.hasRpcUrl ==>
      var r := chain(PrepareCall(store[body.sessionId.value], body.userAddress.value, body));
      && (o.ChainFailure? <==> r.Threw?)
      && (o.Reverted? <==> r.Mined? && r.receipt.reverted)
      && (o.Minted? <==> r.Mined? && !r.receipt.reverted)
    ensures o.Minted? ==>
      var sid := body.sessionId.value;
      var s := store[sid];
      var r := chain(PrepareCall(s, body.userAddress.value, body));
      && GatesPass(store, body) && r.Mined? && !r.receipt.reverted
      && o.txHash == r.txHash
      && o.tokenId == TokenIdOf(r.receipt.logs, supply)
      && o.store == store[sid := s.(mintedAt := Some(now),
                                    mintedBy := Some(ToLower(body.userAddress.value)),
                                    chain := Some(ChainRecord(r.txHash, r.receipt.blockNumber, o.tokenId)))]
    ensures o.ChainFailure? ==>
      && GatesPass(store, body)
      && chain(PrepareCall(store[body.sessionId.value], body.userAddress.value, body)).Threw?
      && o.status == ClassifyChainError(chain(PrepareCall(store[body.sessionId.value], body.userAddress.value, body)).message)
      && o.message == ChainErrorMessage(chain(PrepareCall(store[body.sessionId.value], body.userAddress.value, body)).message)
  {
    if !Given(body.sessionId) || !Given(body.userAddress) then MissingInput
    else
      var sid := body.sessionId.value;
      var userAddress := body.userAddress.value;
      if !IsWalletAddress(userAddress) then InvalidAddress
      else if sid !in store then SessionNotFound
      else if store[sid].status != Verified then SessionNotVerified
      else if store[sid].mintedAt.Some? then AlreadyMintedSession
      else if !config.hasPrivateKey then ConfigError("Server configuration error: PRIVATE_KEY not set")
      else if !config.hasRpcUrl then ConfigError("Server configuration error: RPC URL not set")
      else
        var s := store[sid];
        match chain(PrepareCall(s, userAddress, body))
        case Threw(message) => ChainFailure(ClassifyChainError(message), ChainErrorMessage(message))
        case Mined(txHash, receipt) =>
          if receipt.reverted then Reverted
          else
            var tokenId := TokenIdOf(receipt.logs, supply);
            Minted(store[sid := s.(mintedAt := Some(now),
                                   mintedBy := Some(ToLower(userAddress)),
                                   chain := Some(ChainRecord(txHash, receipt.blockNumber, tokenId)))],
                   txHash, tokenId)
  }

  /** Every gate is decided before the chain is involved: a refused request is refused whatever the chain would do. */
  lemma GatesPrecedeChain(
    store: Store, body: MintBody, config: ServerConfig,
    chain1: MintCall -> ChainResult, chain2: MintCall -> ChainResult, supply: Option<nat>, now: int)
    requires !GatesPass(store, body)
    ensures Post(store, body, config, chain1, supply, now) == Post(store, body, config, chain2, supply, now)
    ensures HttpStatus(Post(store, body, config, chain1, supply, now)) in {400, 404}
  {
  }

  /** A successful mint marks its session, so the same session is refused on every later request. */
  lemma MintsOncePerSession(
    store: Store, body: MintBody, config: ServerConfig, chain: MintCall -> ChainResult, supply: Option<nat>, now: int,
    body2: MintBody, config2: ServerConfig, chain2: MintCall -> ChainResult, supply2: Option<nat>, now2: int)
    requires Post(store, body, config, chain, supply, now).Minted?
    requires body2.sessionId == body.sessionId && Given(body2.userAddress) && IsWalletAddress(body2.userAddress.value)
    ensures Post(Post(store, body, config, chain, supply, now).store, body2, config2, chain2, supply2, now2) == AlreadyMintedSession
  {
  }

  /** Only the minted session changes, and its other fields are kept. */
  lemma MintTouchesOneSession(store: Store, body: MintBody, config: ServerConfig, chain: MintCall -> ChainResult, supply: Option<nat>, now: int)
    requires Post(store, body, config, chain, supply, now).Minted?
    ensures var o := Post(store, body, config, chain, supply, now);
      && o.store.Keys == store.Keys
      && (forall k :: k in store && k != body.sessionId.value ==> o.store[k] == store[k])
      && o.store[body.sessionId.value].(mintedAt := None, mintedBy := None, chain := None)
         == store[body.sessionId.value].(mintedAt := None, mintedBy := None, chain := None)
  {
  }
}
