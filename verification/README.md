# OblivionID in Dafny

OblivionID issues a soulbound "zkPassport" NFT after an off-chain KYC check. A
Next.js backend runs the KYC step (document and selfie check, liveness video,
sanctions check). It stores a KYC session per attempt in MongoDB. It then mints a
non-transferable token on a registry contract carrying five boolean attributes
and an identity hash. This project models that core as pure functions over
immutable data and proves properties of the model.

Two sequential state machines are modelled:

- **The passport registry** (`passport.dfy`, `passport_props.dfy`).
  - State: the token table (owner, attributes, revoked), the uniqueness index,
    role grants for DEFAULT_ADMIN, MINTER and REVOKER, the verifier, and the
    event log.
  - Operations: `mintPassport`, `revoke`, the views, the transfer entry point
    that always fails, `grantRole`, `revokeRole` and `setVerifier`.
  - Source: the Solidity is not part of this model. The registry follows its
    ABI (`web/src/lib/abi.ts`) and its Hardhat tests.
  - Behaviour those files do not fix is a `Policy` chosen at construction:
    - whether uniqueness is per identity hash or per recipient;
    - whether revoking twice fails;
    - whether revocation frees the identity;
    - whether the last admin is protected.
  - The views (`getAttributes`, `ownerOf`, `isRevoked`, `verifier`) and the mock
    verifier's `verifyProof` are functions of the registry state, so they change
    nothing.
- **The KYC session lifecycle**: a map from session id to session.
  - `kyc_start.dfy`: flags, status and the duplicate check.
  - `kyc_submit.dfy`: the legacy route. It works on a separate collection that
    nothing else reads.
  - `proof_issue.dfy`: the payload and the `mintedAt` stamp.
  - `mint_route.dfy`: the gates, the encoded call, the token id, the session
    update and the error classification.
  - `kyc_user.dfy`: the latest session and the latest verified session.
  - `on_chain.dfy` plugs the registry in as the mint route's chain. It shows
    that each registry error reaches the HTTP status the route promises when
    the node's revert message names the error; a bare `execution reverted`
    gives 500.

Validators and normalisers:

- `auth.dfy`: wallet address format, `requireAuth`, `getUserSession`.
- `profile.dfy`: the email regex and the profile upsert.
- `gemini.dfy`: the liveness predicate, the sanctions stub, the AI-result
  defaults and the fallbacks.
- `text.dfy`: the string helpers they use. These are ASCII case mapping, hex
  and decimal digits, JavaScript `\s`, and `includes`.

Environment inputs are parameters. These are the clock, the random session id,
the IPFS upload result, the Gemini outcome, sha256, and the chain the mint route
talks to. The hash is an uninterpreted function. Where a proof needs it to be
injective, that is a hypothesis.

## Model

| member | source | states |
|---|---|---|
| Passport.Construct | web/src/lib/abi.ts:2-9 | The constructor's admin holds DEFAULT_ADMIN, MINTER and REVOKER and nobody else holds a role; `verifier()` reports the given verifier; supply 0, empty log; the invariant holds |
| Passport.MintPassport | web/src/lib/abi.ts:108-132 | Fails with the access-control error without MINTER, then `AlreadyMinted` when the uniqueness key is taken, then `InvalidProof` when the verifier refuses; succeeds iff none applies; the new id is supply+1, reads back the given attributes and owner, is not revoked, a `PassportMinted(to, id, attrs, uri)` event is appended and no other token changes |
| Passport.Revoke | web/src/lib/abi.ts:91-100 | REVOKER only; unknown id is `ERC721NonexistentToken`; on success the owner is kept, `getAttributes` answers `Revoked`, and `PassportRevoked(by, id, reason)` is appended |
| Passport.TransferFrom | contracts/test/OblivionPassport.ts:89-94 | Every transfer, by anyone including the owner, fails with `Soulbound` |
| Passport.GrantRole | contracts/scripts/grant-minter-role.ts:47-61 | Only a DEFAULT_ADMIN may grant; a grant adds exactly that (role, account) pair |
| Passport.RevokeRole | web/src/lib/abi.ts:53-55 | Only a DEFAULT_ADMIN may revoke; with the last-admin guard on, removing the only admin fails; every other admin call succeeds and removes exactly that pair |
| Passport.SetVerifier | web/src/components/admin-panel.tsx:33-42 | A non-admin caller gets the access-control error; every admin call succeeds, after which `verifier()` reports the new verifier and `VerifierUpdated(by, new)` (web/src/lib/abi.ts:44-51) is appended; nothing else changes |
| Passport.GetAttributes | web/src/lib/abi.ts:56-75 | Answers iff the id was minted and is not revoked, with the stored attributes; `Revoked` exactly for a revoked passport; `ERC721NonexistentToken` exactly when `ownerOf` fails |
| Passport.OwnerOf | web/src/lib/abi.ts:84-90 | Answers iff the id was minted, with its owner, revoked or not; otherwise `ERC721NonexistentToken` |
| Passport.IsRevoked | web/src/lib/abi.ts:77-83 | True only for a minted id, and then exactly when it was revoked |
| Passport.VerifyProof | web/src/lib/abi.ts:155-164 | The mock's answer is its `allow` flag, whatever the proof and signals |
| PassportProps.MintPreservesValid | web/src/lib/abi.ts:108-132 | A successful mint keeps ids 1..supply and the uniqueness index in agreement with the tokens |
| PassportProps.RevokePreservesValid | web/src/lib/abi.ts:91-100 | A successful revoke keeps the registry invariant, whether or not revocation frees the key |
| PassportProps.RevokeRolePreservesValid | web/src/lib/abi.ts:53-55 | Revoking a role keeps the invariant, including "some admin remains" under the guard |
| PassportProps.GrantRolePreservesValid | contracts/scripts/grant-minter-role.ts:47-61 | Granting a role keeps the invariant |
| PassportProps.StepPreservesValid | web/src/lib/abi.ts:1-132 | Every state-changing call of the interface keeps the invariant |
| PassportProps.RunPreservesValid | web/src/lib/abi.ts:1-132 | Any sequence of calls, failed ones reverting, keeps the invariant (induction over the sequence) |
| PassportProps.StepExtends | web/src/lib/abi.ts:1-132 | One call never changes an existing passport's owner or attributes, never un-revokes, never changes the policy, and only appends to the log |
| PassportProps.RunExtends | web/src/lib/abi.ts:1-132 | The same for any sequence of calls (induction) |
| PassportProps.OwnerIsPermanent | contracts/test/OblivionPassport.ts:89-94 | Soulbound: no sequence of calls changes the owner of a minted passport |
| PassportProps.RevocationIsPermanent | contracts/test/OblivionPassport.ts:119-120 | Once revoked, a passport stays revoked and `getAttributes` answers `Revoked` forever |
| PassportProps.LogIsAppendOnly | web/src/lib/abi.ts:10-51 | The event log of a later state extends the earlier one |
| PassportProps.ClaimsAreUnique | contracts/test/OblivionPassport.ts:46-64 | No two passports holding a uniqueness key share it |
| PassportProps.OnePassportPerIdentity | contracts/test/OblivionPassport.ts:46-64 | Per-identity-hash uniqueness without release on revocation: every two passports ever minted carry different identity hashes |
| PassportProps.AdminNeverLost | web/src/lib/abi.ts:53-55 | With the last-admin guard, a constructed registry keeps at least one admin after any calls |
| PassportProps.MintsOnceAndStoresAttributes | contracts/test/OblivionPassport.ts:19-65 | The first mint, with proof "0x" and no signals, gets id 1, reads back the attributes and is owned by the recipient; a second identical mint is `AlreadyMinted`, under every policy |
| PassportProps.BlocksTransfers | contracts/test/OblivionPassport.ts:67-95 | After the mint, the owner's own transfer is `Soulbound` |
| PassportProps.RevokesPassports | contracts/test/OblivionPassport.ts:97-121 | The admin may revoke id 1 for "fraud"; then `getAttributes(1)` is `Revoked`, the owner stays, and the revocation event is last in the log |
| PassportProps.RejectingVerifierBlocksMint | web/src/lib/abi.ts:135-164 | A mock verifier constructed with `allow = false` makes every mint fail |
| Auth.VerifyWalletAuth | web/src/lib/auth.ts:8-17 | False for "", otherwise true iff the address is "0x" and exactly 40 hex digits of either case; the signature is ignored |
| Auth.LowerKeepsWalletAddress | web/src/lib/auth.ts:84-88 | Lower-casing a valid wallet address keeps it valid and denotes the same 160-bit number |
| Auth.FindLive | web/src/lib/auth.ts:28-31 | The first session, in collection order, of the lower-cased address that has not expired; none iff there is no such session |
| Auth.GetUserSession | web/src/lib/auth.ts:22-47 | Nothing for "", else reuse an unexpired session of the lower-cased address (store unchanged) or insert one created now expiring 7 days later |
| Auth.RequireAuth | web/src/lib/auth.ts:53-88 | The address comes from the body, else the header; "" is "Wallet address required", a malformed one "Invalid wallet address"; authenticated iff well-formed, then the lower-cased address and the untouched body are returned |
| Auth.BodyAddressWins | web/src/lib/auth.ts:63 | A well-formed body address is used whatever the header says |
| Profile.IsEmailMatchesRegex | web/src/app/api/profile/set/route.ts:14-17 | The decision procedure accepts exactly the strings `^[^\s@]+@[^\s@]+\.[^\s@]+$` matches (both directions) |
| Profile.EmailShape | web/src/app/api/profile/set/route.ts:14 | An accepted email has no whitespace and exactly one '@', neither first nor last |
| Profile.SetProfile | web/src/app/api/profile/set/route.ts:9-38 | 400 iff a required field is missing, then iff the email fails the regex, with nothing written; else the profile under the lower-cased address has the lower-cased address, upper-cased country, "" defaults, `updatedAt` now and `createdAt` kept from an earlier save; no other profile changes |
| Profile.SaveTwiceOnlyTouchesUpdatedAt | web/src/app/api/profile/set/route.ts:22-38 | Saving the same request twice differs only in `updatedAt` |
| Profile.AddressCaseIsIgnored | web/src/app/api/profile/set/route.ts:23-26 | Sending the address already lower-cased has the same effect as sending it in any case |
| Gemini.VerifyLivenessVideo | web/src/lib/gemini.ts:200-237 | `isReal` iff the file passes the size and type/extension predicate; a rejected file gets confidence 0.2 and exactly one error, an accepted one 0.85 and none |
| Gemini.UpperCaseExtensionAccepted | web/src/lib/gemini.ts:207-217 | A name ending in ".MP4" is accepted whatever its type, since the name is lower-cased first |
| Gemini.CheckSanctions | web/src/lib/gemini.ts:251-261 | Nobody is sanctioned |
| Gemini.NoKeyResult | web/src/lib/gemini.ts:53-62 | Without an API key: a valid, human, non-deepfake document with no extracted age or nationality and face match at least 0.7 |
| Gemini.CombinedHash | web/src/lib/gemini.ts:74-76 | The fallback hash lies below 100; names count by `.length`, in UTF-16 code units |
| Js.Utf16Length | web/src/lib/gemini.ts:74-75 | `.length` lies between the character count and twice it, and equals the character count iff no character is astral |
| Gemini.BmpNamesHashByCharacters | web/src/lib/gemini.ts:74-76 | For names without astral characters the hash is the character counts plus the sizes, mod 100 |
| Gemini.AstralNameShiftsHash | web/src/lib/gemini.ts:74-76 | A name with one emoji adds one more to the hash than its character count |
| Gemini.FallbackAge | web/src/lib/gemini.ts:83 | Every fallback age lies in 25..44 |
| Gemini.ParseIdResponse | web/src/lib/gemini.ts:142-151 | Document validity and humanity hold unless explicitly false, deepfake only if explicitly true, missing errors become [], missing scores become 0 and confidence 0.5 |
| Gemini.OnlyLiteralsDecide | web/src/lib/gemini.ts:142-151 | Any value other than the literal `false` (the string "false" included) reads as a valid, human document, and any value other than `true` as no deepfake |
| Gemini.EmptyReplyIsPermissive | web/src/lib/gemini.ts:142-151 | A reply with no fields reads as a valid, human, non-deepfake document without errors |
| Gemini.VerifyIdDocument | web/src/lib/gemini.ts:49-193 | No key gives the fixed result; a parsed reply gives its defaulted reading; every fallback (model unavailable, request failed, unparseable reply) gives age 25..44, nationality "IN", a valid human non-deepfake document and face match at least 0.75 |
| KycStore.ToAttributes | web/src/app/api/mint/route.ts:86-93 | The on-chain attributes are the session's flags field for field plus its identity hash |
| KycStore.PublicSignals | web/src/app/api/mint/route.ts:97-103 | Exactly five signals, one per flag in attribute order, 1 for true and 0 for false |
| KycStore.SignalsRoundTrip | web/src/app/api/mint/route.ts:97-103 | The signals determine the flags: decoding the encoding gives the flags back, and any signals that decode to some flags are exactly their encoding |
| KycStore.MockProof | web/src/app/api/mint/route.ts:96 | The mock proof is "0x" followed by 512 '0' characters |
| KycStore.PayloadOf | web/src/app/api/proof/issue/route.ts:44-60 | The payload's attributes are the session's flags in attribute order plus its hash, its signals decode back to the session's flags, and its proof is "0x" followed by 512 '0' characters |
| MintRoute.SendsIssuedPayload | web/src/app/api/mint/route.ts:86-103 | The attributes, proof and signals mint sends for a session are exactly the payload proof/issue (web/src/app/api/proof/issue/route.ts:44-60) returned for it |
| KycStart.DeriveFlags | web/src/app/api/kyc/start/route.ts:63-81 | `isVerified` iff the six checks hold (face match at least 0.7, liveness confidence at least 0.6); `isAdult` on the extracted age when truthy, else the form age; `isHuman` is ID and liveness; not sanctioned; unique at first |
| KycStart.DuplicateAfterInsert | web/src/app/api/kyc/start/route.ts:130-137 | Querying for another verified session with the same hash after inserting the new one answers the same as before the insert |
| KycStart.Min3 | web/src/app/api/kyc/start/route.ts:112-116 | The overall confidence is the least of the three confidences |
| KycStart.NewSession | web/src/app/api/kyc/start/route.ts:84-128 | The inserted document: lower-cased address, status verified iff the checks pass, derived flags, nationality and age preferring the extracted ones, IPFS hashes "" when the upload failed, not minted |
| KycStart.Record | web/src/app/api/kyc/start/route.ts:130-171 | Duplicate iff another verified session has the hash, which takes precedence over a failed verification; only `isUnique` changes on a duplicate; accepted iff no duplicate and verified |
| KycStart.StartUnder | web/src/app/api/kyc/start/route.ts:7-171 | Rejection order address, fields (age 0 or NaN counts as missing), files; then exactly one new session under the fresh id, other sessions untouched, and the outcome as `Record` states |
| KycStart.StartKeepsWellKeyed | web/src/app/api/kyc/start/route.ts:91-130 | Every document stays under its own session id |
| KycStart.FallbackIsAlwaysAdult | web/src/app/api/kyc/start/route.ts:75-77 | Whenever the document check fell back, the stored session is adult |
| KycStart.FallbackVerifiesAnyValidVideo | web/src/app/api/kyc/start/route.ts:64-73 | Without a key, or on any fallback, every valid liveness video yields a verified session |
| ProofIssue.Issue | web/src/app/api/proof/issue/route.ts:6-73 | 401 iff the claimed address is malformed, before any lookup; then 400 without session id, 404 unknown, 400 not verified; else the payload of the session and `mintedAt` now, `mintedBy` the authenticated lower-cased address |
| ProofIssue.PayloadIsConsistent | web/src/app/api/proof/issue/route.ts:44-60 | The payload's signals decode to the session's flags and its attributes carry the session's hash |
| ProofIssue.IssueTwiceOverwrites | web/src/app/api/proof/issue/route.ts:25-71 | A second call for the same session succeeds and its time replaces the first |
| MintRoute.MetadataURIOf | web/src/app/api/mint/route.ts:16 | "ipfs://mock-meta" only when the field is absent; a given value, even "", is kept |
| MintRoute.ExtractTokenId | web/src/app/api/mint/route.ts:124-150 | The id of the first `PassportMinted` log with a non-zero id, and none iff there is no such log |
| MintRoute.TokenIdOf | web/src/app/api/mint/route.ts:152-176 | The log's id when there is one; else `totalSupply` when it was read and non-zero; else null (the route's read always fails, see OnChain) |
| MintRoute.ClassifyChainError | web/src/app/api/mint/route.ts:188-216 | By substring in order: "AlreadyMinted" and "InvalidProof" give 400, "AccessControl" 403, anything else 500 |
| MintRoute.PrepareCall | web/src/app/api/mint/route.ts:85-111 | The call goes to the user's address with the session's attributes, the mock proof, the five signals and the metadata URI |
| MintRoute.Post | web/src/app/api/mint/route.ts:13-217 | Gate order: missing input 400, bad address 400, unknown 404, not verified 400, already minted 400, then configuration 500; past the gates, a thrown call is classified, a reverted receipt is 400 with nothing written, and exactly a mined, non-reverted receipt writes `mintedAt`, lower-cased `mintedBy`, tx hash, block and token id |
| MintRoute.GatesPrecedeChain | web/src/app/api/mint/route.ts:18-52 | A request refused by a gate gets the same 400/404 answer whatever the chain would do |
| MintRoute.MintsOncePerSession | web/src/app/api/mint/route.ts:46-52 | After a successful mint, the same session is refused as already minted |
| MintRoute.MintTouchesOneSession | web/src/app/api/mint/route.ts:167-179 | A mint changes only its own session's mint fields |
| OnChain.MockProofIsZeroBytes | web/src/app/api/mint/route.ts:96 | The mock proof decodes to 256 zero bytes |
| OnChain.RouteMintsSessionAttributes | web/src/app/api/mint/route.ts:105-187 | When the registry accepts the call, the user's wallet receives the next id with the session's attributes, and the route records that id from the log, with the `totalSupply` read failing |
| OnChain.RouteThrows | web/src/app/api/mint/route.ts:188-216 | A call the registry refuses reaches the route as a thrown error carrying the node's message for that error, and is answered by classifying that message |
| OnChain.RouteReportsRegistryErrors | web/src/app/api/mint/route.ts:188-216 | When the node's messages name the errors: a missing minter role reaches the client as 403, a taken identity or wallet as 400 "already minted", a refused proof as 400 |
| OnChain.MissingRoleAnswered | web/src/app/api/mint/route.ts:206-211 | When the messages name the errors, the registry's access-control error is answered 403 with the MINTER_ROLE message |
| OnChain.AlreadyMintedAnswered | web/src/app/api/mint/route.ts:192-197 | When the messages name the errors, the registry's `AlreadyMinted` is answered 400 with its message |
| OnChain.InvalidProofAnswered | web/src/app/api/mint/route.ts:199-204 | When the messages name the errors, the registry's `InvalidProof` is answered 400 with its message |
| OnChain.BareRevertIsServerError | web/src/app/api/mint/route.ts:213-216 | When the node reports every revert as "execution reverted", every refused mint is a 500 carrying that text, whatever the registry's reason |
| OnChain.HardhatNamesErrors | contracts/test/OblivionPassport.ts:64 | Messages of the form `Name()`, as a Hardhat node reports them, name the errors as the classification needs |
| KycUser.Latest | web/src/app/api/kyc/user/route.ts:21-24 | A session of the lower-cased address (verified only, if asked) created no earlier than any other such; none iff there is none |
| KycUser.Get | web/src/app/api/kyc/user/route.ts:8-26 | 400 without address; else the latest session of the address whatever its status, or null |
| KycUser.SessionsOf | web/src/app/api/kyc/user/route.ts:49-55 | Exactly the sessions of the lower-cased address |
| KycUser.Post | web/src/app/api/kyc/user/route.ts:36-66 | 400 without address; `hasKyc` iff a session exists, `isVerified` iff a verified one exists iff `latestVerified` is set, hence `isVerified` implies `hasKyc`; `kycId` is the latest verified id, null when there is none |
| KycSubmit.AttributesOf | web/src/app/api/kyc/submit/route.ts:43-49 | Verified always; adult iff age at least 18; human and unique are the truthiness of the fields, not sanctioned the negation |
| KycSubmit.Submit | web/src/app/api/kyc/submit/route.ts:5-53 | 400 without session id, 404 if unknown; else the document is marked verified with the submitted fields and the hash of id, nationality and age, and the response carries the attributes, proof "0x" and no signals |
| KycSubmit.ResponseMatchesRecord | web/src/app/api/kyc/submit/route.ts:24-49 | The attributes in the response are those the stored record stands for |
| KycSubmit.ResubmitIsStable | web/src/app/api/kyc/submit/route.ts:24-38 | Resubmitting answers the same and moves only `verifiedAt` |
| KycSubmit.PreimageIsAmbiguous | web/src/app/api/kyc/submit/route.ts:20-22 | The hashed text has no separators: ("s1", age 23) and ("s12", age 3) hash the same text |
| Findings.PrepareBlocksMint | web/src/app/api/proof/issue/route.ts:63-71 | After proof/issue succeeds for a session, mint refuses it as already minted, whatever the chain |
| Findings.IssueCorrected | web/src/app/api/proof/issue/route.ts:6-73 | Corrected proof/issue: the same statuses and payload, and the collection untouched |
| Findings.CorrectedPrepareAllowsMint | web/src/components/mint-card.tsx:31-50 | For an authenticated request on a verified, unminted session, the corrected proof/issue succeeds, the dApp's following mint passes every gate, and a mined call is recorded |
| Findings.DuplicateUnreachable | web/src/app/api/kyc/start/route.ts:84-139 | For a hash injective on its fields, on a collection whose hashes each bind their own session id, no request is a duplicate, and the binding is kept |
| Findings.ResubmissionGoesUndetected | web/src/app/api/kyc/start/route.ts:84-152 | The same person starting twice with the same documents is accepted twice and stored as unique |
| Findings.StartCorrected | web/src/app/api/kyc/start/route.ts:84-139 | Corrected kyc/start: the duplicate answer depends on the hash of name, country, age and nationality only |
| Findings.CorrectedDetectsResubmission | web/src/app/api/kyc/start/route.ts:133-152 | With the corrected hash the second start is a duplicate and is marked non-unique |
| Findings.HashTextIsAmbiguous | web/src/app/api/kyc/start/route.ts:84 | Two inputs with different session ids can produce the same hashed text |

## Left out

- The registry's Solidity source is not part of this model. Rules the ABI and tests leave open are `Policy` parameters. `Passport.MintPassport` checks in this order: role, then uniqueness, then proof.
- OpenZeppelin's `RoleGranted`/`RoleRevoked` events are not in the log. The ABI does not list them.
- Mock verifier `setAllow()`: its effect cannot be read from the ABI (it takes no argument), so the verifier's `allow` is fixed at construction.
- ERC-721 approvals, `safeTransferFrom` receiver checks and `tokenURI` are not modelled. Every transfer entry point is the single `TransferFrom`, which always fails.
- `totalSupply`: the route's interface (web/src/lib/abi.ts) has no such function, so the fallback read at web/src/app/api/mint/route.ts:156-160 throws before any request and the recorded id is the log's id or null. The mint route keeps the read's result as a parameter; the registry-backed lemmas pass `None`. The registry has no `totalSupply` view.
- I/O is not modelled: MongoDB, Pinata, Gemini, viem clients, the `crypto` module and the clock. Each is a parameter, or the value it returned.
- The `catch` blocks that turn a thrown error into 500 are not modelled: database and parsing errors, and a type error such as `address.toLowerCase()` on a non-string `address` in `POST /api/kyc/user` (web/src/app/api/kyc/user/route.ts:40-47). Neither is the unhandled throw in kyc/submit.
- MintRoute.Post: `sessionId` is taken as a string. The route checks only its truthiness (web/src/app/api/mint/route.ts:16-18) and passes it as the value of `findOne({ sessionId })` and `updateOne({ sessionId }, …)` (lines 33, 167-179). A JSON object there, such as `{"$ne": null}`, is a MongoDB query operator: it selects the first session the operator matches, and if that session is verified and unminted it is minted to the caller's `userAddress` with its owner's attributes and then stamped. The model's "session not found iff the id is not in the store" and "the minted session is the named one" hold for string ids only.
- ProofIssue.Issue: `sessionId` is taken as a string. The route checks only its truthiness (web/src/app/api/proof/issue/route.ts:17-19) and queries with it (lines 25, 61-70), so an operator object selects the first session it matches and, when that session is verified, returns its payload and stamps its `mintedAt` and `mintedBy`; the model covers string ids only.
- Concurrency is not modelled. Each request is one sequential step. That includes the window between the insert and the duplicate query in kyc/start.
- `parseInt` is not modelled. kyc/start receives the parsed age as an option, where `None` stands for NaN.
- KycSubmit.Submit: body fields are taken at their documented JSON types. An `age` sent as a string (`"20"`, which `>= 18` coerces and the preimage prints as given) or as a fraction (`30.5`) is not represented.
- Case mapping covers ASCII only. `toLowerCase`/`toUpperCase` of other characters is not modelled.
- Scores are exact reals. IEEE-754 rounding of expressions such as `0.85 + h % 15 / 100` is not modelled.
- The JSON extraction of the model's reply is not modelled: the `/\{[\s\S]*\}/` match and `JSON.parse`. The outcome of those steps is an input.
- The order of the `sessions` array returned by `POST /api/kyc/user` is not modelled; the model returns the set.
- With equal `createdAt` values, which latest session Mongo returns is not fixed. `KycUser.Latest` may return any of them.
- The 16-byte random session id is assumed fresh. On a collision the source stores a second document with that id, which a map keyed by id cannot represent.
- OnChain.RouteReportsRegistryErrors: holds only when the node's revert messages name the error (`NamesErrors`). The route's interface declares no custom errors, so viem cannot decode them; a Hardhat node names them (`HardhatNamesErrors`), a bare "execution reverted" gives 500 (`BareRevertIsServerError`).
- OnChain.MissingRoleAnswered: the 403 holds only under the same naming hypothesis.
- OnChain.AlreadyMintedAnswered: the 400 holds only under the same naming hypothesis.
- OnChain.InvalidProofAnswered: the 400 holds only under the same naming hypothesis.
- Gemini.ParseIdResponse: numeric fields that are present but not numbers (a string "0.9", say) are read as absent. JavaScript keeps any truthy value and coerces it in the later `>=` comparisons; string-to-number coercion is not modelled. A fractional `extractedAge` (`30.5`) is not represented either: the age is an integer.
- Passport.SetVerifier: the setter and its admin gate are inferred. The interface lists only the `VerifierUpdated` event, and the admin panel calls `setVerifier` through that interface.
- Passport.RevokeRole: inferred from the access-control role constants; the interface lists no `revokeRole`.
- Passport.Revoke: the error for an id never minted (`ERC721NonexistentToken`) is a modelling choice; the interface does not fix it.
- Passport.GetAttributes: the error for an id never minted (`ERC721NonexistentToken`) is a modelling choice; the interface does not fix it.
- Passport.IsRevoked: answering `false` for an id never minted is a modelling choice; the interface does not fix it.
- Passport.OwnerOf: answering for a revoked passport (the token keeps its owner) is a modelling choice; the interface does not fix it, and the revocation test reads only `getAttributes`.
- UI components, deployment scripts and the thin lookup routes (logs, kyc/status, kyc/session, profile/me, stealth/generate) are not modelled.

## Findings

| source | as written | input that shows it | evidently intended | confidence | as-written member | corrected member |
|---|---|---|---|---|---|---|
| web/src/app/api/proof/issue/route.ts:63-71 | proof/issue sets `mintedAt`, the field mint reads as "already minted" (web/src/app/api/mint/route.ts:47-52) | the dApp's mint card: proof/issue for a verified session, then mint with the same session id and the connected wallet (web/src/components/mint-card.tsx:31,46) | preparing the proof leaves `mintedAt` for the mint to set | high, not executed | Findings.PrepareBlocksMint | Findings.IssueCorrected, Findings.CorrectedPrepareAllowsMint |
| web/src/app/api/kyc/start/route.ts:84 | the identity hash includes the fresh session id, so the duplicate query at line 139 never matches another session | one person starting KYC twice with the same name, country, age and documents | the hash identifies the person, so the second attempt is a duplicate | high for any hash injective on its fields; with the separator-free text a crafted nationality can still collide, not executed | Findings.DuplicateUnreachable, Findings.ResubmissionGoesUndetected | Findings.StartCorrected, Findings.CorrectedDetectsResubmission |
