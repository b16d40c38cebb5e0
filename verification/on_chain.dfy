/**
 * `POST /api/mint` against the registry: the chain parameter of the route
 * is the registry's `mintPassport`, sent from the server's account, with
 * the call's address and proof decoded as viem encodes them. This ties the
 * route's error classification to the registry's custom errors.
 *
 * A reverting call reaches the route as a thrown error. Its message is
 * the parameter `report`: the route's interface declares no custom errors,
 * so whether the message names the registry's error depends on the node
 * (a Hardhat node names it; a bare "execution reverted" does not). The
 * error-classification lemmas take that naming as an explicit hypothesis,
 * `NamesErrors`, and `BareRevertIsServerError` shows what happens without it.
 *
 * The fallback `totalSupply` read always throws with the route's interface,
 * so the route is applied with `supply = None` throughout.
 */
module OnChain {
  import opened Wrappers
  import opened Text
  import opened Auth
  import opened KycStore
  import P = Passport
  import MR = MintRoute

  /** Bytes from pairs of hexadecimal digits, high nibble first. */
  function HexPairs(s: string): (r: seq<P.Byte>)
    requires AllHex(s) && |s| % 2 == 0
    ensures |r| == |s| / 2
    ensures forall i :: 0 <= i < |r| ==> r[i] == 16 * HexDigitValue(s[2 * i]) + HexDigitValue(s[2 * i + 1])
  {
    seq(|s| / 2, i requires 0 <= i < |s| / 2 => 16 * HexDigitValue(s[2 * i]) + HexDigitValue(s[2 * i + 1]))
  }

  /** A `0x`-prefixed hex string as bytes; `None` when viem would refuse to encode it. */
  function DecodeBytes(s: string): (r: Option<seq<P.Byte>>)
    ensures r.Some? <==> StartsWith(s, "0x") && AllHex(s[2..]) && |s| % 2 == 0
    ensures r.Some? ==> |r.value| == (|s| - 2) / 2
  {
    if StartsWith(s, "0x") && AllHex(s[2..]) && |s| % 2 == 0 then Some(HexPairs(s[2..])) else None
  }

  /** The mock proof is 256 zero bytes. */
  lemma MockProofIsZeroBytes()
    ensures DecodeBytes(MockProof()) == Some(seq(256, _ => 0))
  {
    var p := MockProof();
    assert StartsWith(p, "0x");
    assert forall i :: 0 <= i < |p[2..]| ==> p[2..][i] == p[i + 2];
    var bytes := HexPairs(p[2..]);
    assert forall i :: 0 <= i < 256 ==> bytes[i] == 0;
    assert bytes == seq(256, _ => 0);
  }

  /** The message a Hardhat node reports a custom error with: its name and `()`, arguments left out. */
  function HardhatText(e: P.Error): string {
    match e
    case AccessControlUnauthorizedAccount(_, _) => "AccessControlUnauthorizedAccount()"
    case AlreadyMinted => "AlreadyMinted()"
    case InvalidProof => "InvalidProof()"
    case Soulbound => "Soulbound()"
    case Revoked => "Revoked()"
    case AlreadyRevoked => "AlreadyRevoked()"
    case NonexistentToken(_) => "ERC721NonexistentToken()"
    case LastAdminProtected => "LastAdminProtected()"
  }

  /**
   * The revert messages name the three errors a mint can raise, each
   * without naming an error the route tests for earlier.
   */
  predicate NamesErrors(report: P.Error -> string, server: P.Address) {
    var role := report(P.AccessControlUnauthorizedAccount(server, P.Minter));
    && Contains(role, "AccessControl") && !Contains(role, "AlreadyMinted") && !Contains(role, "InvalidProof")
    && Contains(report(P.AlreadyMinted), "AlreadyMinted")
    && Contains(report(P.InvalidProof), "InvalidProof") && !Contains(report(P.InvalidProof), "AlreadyMinted")
  }

  /** The registry call a route call makes, from the server's account. */
  function MintOf(r: P.Registry, server: P.Address, c: MR.MintCall): Result<P.Minted, P.Error>
    requires IsWalletAddress(c.to)
    requires DecodeBytes(c.zkProof).Some?
  {
    P.MintPassport(r, server, AddressValue(c.to), c.attrs, DecodeBytes(c.zkProof).value, c.publicSignals, c.metadataURI)
  }

  /** Sending `c`: an encoding failure or a revert throws; a mined mint emits its `PassportMinted` log. */
  function Send(r: P.Registry, server: P.Address, report: P.Error -> string, txHash: string, block: nat, c: MR.MintCall): (res: MR.ChainResult)
    ensures IsWalletAddress(c.to) && DecodeBytes(c.zkProof).Some? ==>
      match MintOf(r, server, c)
      case Err(e) => res == MR.Threw(report(e))
      case Ok(m) => res == MR.Mined(txHash, MR.Receipt(false, block, [MR.PassportMintedLog(m.tokenId)]))
  {
    if !IsWalletAddress(c.to) then MR.Threw("invalid address")
    else match DecodeBytes(c.zkProof)
      case None => MR.Threw("invalid hex")
      case Some(_) =>
        match MintOf(r, server, c)
        case Err(e) => MR.Threw(report(e))
        case Ok(m) => MR.Mined(txHash, MR.Receipt(false, block, [MR.PassportMintedLog(m.tokenId)]))
  }

  function Chain(r: P.Registry, server: P.Address, report: P.Error -> string, txHash: string, block: nat): MR.MintCall -> MR.ChainResult {
    c => Send(r, server, report, txHash, block, c)
  }

  /** The registry call the route makes for an admitted request. */
  function RouteMint(r: P.Registry, server: P.Address, store: Store, body: MR.MintBody): Result<P.Minted, P.Error>
    requires MR.GatesPass(store, body)
  {
    MockProofIsZeroBytes();
    MintOf(r, server, MR.PrepareCall(store[body.sessionId.value], body.userAddress.value, body))
  }

  /** Whether the registry would accept the route's call. */
  predicate RegistryAccepts(r: P.Registry, server: P.Address, store: Store, body: MR.MintBody)
    requires MR.GatesPass(store, body)
  {
    var s := store[body.sessionId.value];
    && P.HasRole(r, P.Minter, server)
    && P.ClaimOf(r.policy, AddressValue(body.userAddress.value), ToAttributes(s.flags, s.identityHash)) !in r.claims
    && r.verifier.allow
  }

  /** The route's answer to an admitted request, on a configured server, against registry `r`. */
  function Answer(r: P.Registry, server: P.Address, report: P.Error -> string, txHash: string, block: nat,
                  store: Store, body: MR.MintBody, now: int): MR.MintOutcome
  {
    MR.Post(store, body, MR.ServerConfig(true, true), Chain(r, server, report, txHash, block), None, now)
  }

  /**
   * An admitted request whose call the registry accepts mints the next
   * token to the user's wallet, carrying the session's attributes, and
   * the route records that token id.
   */
  lemma RouteMintsSessionAttributes(
    r: P.Registry, server: P.Address, report: P.Error -> string, txHash: string, block: nat,
    store: Store, body: MR.MintBody, now: int)
    requires MR.GatesPass(store, body)
    requires RegistryAccepts(r, server, store, body)
    ensures RouteMint(r, server, store, body).Ok?
    ensures var m := RouteMint(r, server, store, body).value;
      var s := store[body.sessionId.value];
      && m.tokenId == r.supply + 1
      && P.GetAttributes(m.registry, m.tokenId) == Ok(ToAttributes(s.flags, s.identityHash))
      && P.OwnerOf(m.registry, m.tokenId) == Ok(AddressValue(body.userAddress.value))
    ensures var o := Answer(r, server, report, txHash, block, store, body, now);
      o.Minted? && o.tokenId == Some(r.supply + 1) && o.txHash == txHash
  {
    var c := MR.PrepareCall(store[body.sessionId.value], body.userAddress.value, body);
    MockProofIsZeroBytes();
    var m := MintOf(r, server, c);
    assert m.Ok?;
    var logs := [MR.PassportMintedLog(m.value.tokenId)];
    var chain := Chain(r, server, report, txHash, block);
    assert chain(c) == MR.Mined(txHash, MR.Receipt(false, block, logs));
    assert MR.ExtractTokenId(logs) == Some(r.supply + 1);
  }

  /**
   * A call the registry refuses is answered by the route's classification.
   * When the revert messages name the errors, a missing minter role is 403,
   * an identity or wallet already minted and a rejected proof are 400, and
   * nothing is recorded.
   */
  lemma RouteReportsRegistryErrors(
    r: P.Registry, server: P.Address, report: P.Error -> string, txHash: string, block: nat,
    store: Store, body: MR.MintBody, now: int)
    requires MR.GatesPass(store, body)
    requires !RegistryAccepts(r, server, store, body)
    requires NamesErrors(report, server)
    ensures var o := Answer(r, server, report, txHash, block, store, body, now);
      var s := store[body.sessionId.value];
      var claim := P.ClaimOf(r.policy, AddressValue(body.userAddress.value), ToAttributes(s.flags, s.identityHash));
      && o.ChainFailure?
      && (!P.HasRole(r, P.Minter, server) ==> o.status == 403)
      && (P.HasRole(r, P.Minter, server) && claim in r.claims ==>
            o.status == 400 && o.message == "This address has already minted a passport")
      && (P.HasRole(r, P.Minter, server) && claim !in r.claims ==>
            o.status == 400 && o.message == "Proof verification failed")
  {
    RouteThrows(r, server, report, txHash, block, store, body, now);
  }

  lemma MissingRoleAnswered(
    r: P.Registry, server: P.Address, report: P.Error -> string, txHash: string, block: nat,
    store: Store, body: MR.MintBody, now: int)
    requires MR.GatesPass(store, body)
    requires !P.HasRole(r, P.Minter, server)
    requires NamesErrors(report, server)
    ensures Answer(r, server, report, txHash, block, store, body, now)
         == MR.ChainFailure(403, "Server does not have MINTER_ROLE. Please grant MINTER_ROLE to the server address.")
  {
    RouteThrows(r, server, report, txHash, block, store, body, now);
  }

  lemma AlreadyMintedAnswered(
    r: P.Registry, server: P.Address, report: P.Error -> string, txHash: string, block: nat,
    store: Store, body: MR.MintBody, now: int)
    requires MR.GatesPass(store, body)
    requires P.HasRole(r, P.Minter, server)
    requires var s := store[body.sessionId.value];
      P.ClaimOf(r.policy, AddressValue(body.userAddress.value), ToAttributes(s.flags, s.identityHash)) in r.claims
    requires NamesErrors(report, server)
    ensures Answer(r, server, report, txHash, block, store, body, now)
         == MR.ChainFailure(400, "This address has already minted a passport")
  {
    RouteThrows(r, server, report, txHash, block, store, body, now);
  }

  lemma InvalidProofAnswered(
    r: P.Registry, server: P.Address, report: P.Error -> string, txHash: string, block: nat,
    store: Store, body: MR.MintBody, now: int)
    requires MR.GatesPass(store, body)
    requires P.HasRole(r, P.Minter, server)
    requires var s := store[body.sessionId.value];
      P.ClaimOf(r.policy, AddressValue(body.userAddress.value), ToAttributes(s.flags, s.identityHash)) !in r.claims
    requires !r.verifier.allow
    requires NamesErrors(report, server)
    ensures Answer(r, server, report, txHash, block, store, body, now)
         == MR.ChainFailure(400, "Proof verification failed")
  {
    RouteThrows(r, server, report, txHash, block, store, body, now);
  }

  /** A refused call reaches the route as a thrown error carrying the registry error's message. */
  lemma RouteThrows(
    r: P.Registry, server: P.Address, report: P.Error -> string, txHash: string, block: nat,
    store: Store, body: MR.MintBody, now: int)
    requires MR.GatesPass(store, body)
    requires !RegistryAccepts(r, server, store, body)
    ensures RouteMint(r, server, store, body).Err?
    ensures var message := report(RouteMint(r, server, store, body).error);
      Answer(r, server, report, txHash, block, store, body, now)
        == MR.ChainFailure(MR.ClassifyChainError(message), MR.ChainErrorMessage(message))
  {
    var c := MR.PrepareCall(store[body.sessionId.value], body.userAddress.value, body);
    MockProofIsZeroBytes();
    var e := MintOf(r, server, c).error;
    var chain := Chain(r, server, report, txHash, block);
    assert chain(c) == MR.Threw(report(e));
  }

  /**
   * Without the naming: a node that reports every revert as "execution
   * reverted" makes every refused mint a 500 carrying that text, whatever
   * the registry's reason.
   */
  lemma BareRevertIsServerError(
    r: P.Registry, server: P.Address, txHash: string, block: nat,
    store: Store, body: MR.MintBody, now: int)
    requires MR.GatesPass(store, body)
    requires !RegistryAccepts(r, server, store, body)
    ensures Answer(r, server, _ => "execution reverted", txHash, block, store, body, now)
         == MR.ChainFailure(500, "execution reverted")
  {
    RouteThrows(r, server, _ => "execution reverted", txHash, block, store, body, now);
    BareTextIsUnclassified();
  }

  /** "execution reverted" names none of the errors, so the route answers 500 with that text. */
  lemma BareTextIsUnclassified()
    ensures MR.ClassifyChainError("execution reverted") == 500
    ensures MR.ChainErrorMessage("execution reverted") == "execution reverted"
  {
    NotContainsByPairs("execution reverted", "AlreadyMinted");
    NotContainsByPairs("execution reverted", "InvalidProof");
    NotContainsByPairs("execution reverted", "AccessControl");
  }

  /** A Hardhat node's messages name the errors. */
  lemma HardhatNamesErrors(server: P.Address)
    ensures NamesErrors(HardhatText, server)
  {
    RoleErrorNamesNoOther();
    ErrorTextsNameErrors();
    NotContainsByPairs("InvalidProof()", "AlreadyMinted");
  }

  lemma ErrorTextsNameErrors()
    ensures Contains("AccessControlUnauthorizedAccount()", "AccessControl")
    ensures Contains("AlreadyMinted()", "AlreadyMinted")
    ensures Contains("InvalidProof()", "InvalidProof")
  {
    ContainsInfix("", "AccessControl", "UnauthorizedAccount()");
    assert "" + "AccessControl" + "UnauthorizedAccount()" == "AccessControlUnauthorizedAccount()";
    ContainsInfix("", "AlreadyMinted", "()");
    assert "" + "AlreadyMinted" + "()" == "AlreadyMinted()";
    ContainsInfix("", "InvalidProof", "()");
    assert "" + "InvalidProof" + "()" == "InvalidProof()";
  }

  lemma RoleErrorNamesNoOther()
    ensures !Contains("AccessControlUnauthorizedAccount()", "AlreadyMinted")
    ensures !Contains("AccessControlUnauthorizedAccount()", "InvalidProof")
  {
    NotContainsByPairs("AccessControlUnauthorizedAccount()", "AlreadyMinted");
    NotContainsByPairs("AccessControlUnauthorizedAccount()", "InvalidProof");
  }
}
