/**
 * `POST /api/proof/issue` (web/src/app/api/proof/issue/route.ts): wallet
 * authentication, session gating, the payload built from the session, and
 * the `mintedAt`/`mintedBy` stamp.
 */
module ProofIssue {
  import opened Wrappers
  import opened Text
  import opened Js
  import opened Auth
  import opened KycStore

  /** The JSON body (`address`, `sessionId`, taken as strings) and the `x-wallet-address` header. */
  datatype IssueBody = IssueBody(address: Option<string>, sessionId: Option<string>)

  datatype IssueRequest = IssueRequest(body: IssueBody, header: Option<string>)

  datatype IssueOutcome =
    | Unauthorized(error: string)
    | MissingSessionId(users: seq<UserSession>)
    | SessionNotFound(users: seq<UserSession>)
    | SessionNotVerified(users: seq<UserSession>)
    | Issued(store: Store, users: seq<UserSession>, payload: Payload)

  function HttpStatus(o: IssueOutcome): nat {
    match o
    case Unauthorized(_) => 401
    case MissingSessionId(_) => 400
    case SessionNotFound(_) => 404
    case SessionNotVerified(_) => 400
    case Issued(_, _, _) => 200
  }

  /** The authenticated caller, when there is one. */
  function Caller(req: IssueRequest, users: seq<UserSession>, now: int): Authed<IssueBody> {
    RequireAuth(req.body, req.body.address, req.header, users, now)
  }

  /**
   * The route as written: after authentication and the session checks it
   * returns the payload and stamps `mintedAt = now`, `mintedBy = caller`
   * whatever `mintedAt` was before.
   */
  function Issue(store: Store, users: seq<UserSession>, req: IssueRequest, now: int): (o: IssueOutcome)
    ensures !IsWalletAddress(ClaimedAddress(req.body.address, req.header)) <==> o.Unauthorized?
    ensures o.MissingSessionId? <==> IsWalletAddress(ClaimedAddress(req.body.address, req.header)) && !Given(req.body.sessionId)
    ensures o.SessionNotFound? <==>
      IsWalletAddress(ClaimedAddress(req.body.address, req.header)) && Given(req.body.sessionId)
      && req.body.sessionId.value !in store
    ensures o.SessionNotVerified? <==>
      IsWalletAddress(ClaimedAddress(req.body.address, req.header)) && Given(req.body.sessionId)
      && req.body.sessionId.value in store && store[req.body.sessionId.value].status != Verified
    ensures o.Issued? ==>
      var sid := req.body.sessionId.value;
      && sid in store && store[sid].status == Verified
      && o.payload == PayloadOf(store[sid])
      && o.store == store[sid := store[sid].(mintedAt := Some(now),
                                              mintedBy := Some(ToLower(ClaimedAddress(req.body.address, req.header))))]
    ensures !o.Unauthorized? ==> o.users == Caller(req, users, now).users
  {
    var auth := Caller(req, users, now);
    if !auth.result.authenticated || auth.result.address.None? then
      Unauthorized(auth.result.error.GetOr("Authentication required"))
    else if !Given(req.body.sessionId) then MissingSessionId(auth.users)
    else
      var sid := req.body.sessionId.value;
      if sid !in store then SessionNotFound(auth.users)
      else if store[sid].status != Verified then SessionNotVerified(auth.users)
      else
        var s := store[sid];
        Issued(store[sid := s.(mintedAt := Some(now), mintedBy := Some(auth.result.address.value))], auth.users, PayloadOf(s))
  }

  /** The payload's public signals and attributes describe the same flags. */
  lemma PayloadIsConsistent(store: Store, users: seq<UserSession>, req: IssueRequest, now: int)
    requires Issue(store, users, req, now).Issued?
    ensures var p := Issue(store, users, req, now).payload;
      && FlagsOfSignals(p.publicSignals) == Some(store[req.body.sessionId.value].flags)
      && p.attrs.identityHash == store[req.body.sessionId.value].identityHash
  {
    SignalsRoundTrip(store[req.body.sessionId.value].flags, []);
  }

  /** There is no guard on an earlier stamp: issuing twice succeeds and the later call's time wins. */
  lemma IssueTwiceOverwrites(store: Store, users: seq<UserSession>, req: IssueRequest, t1: int, t2: int)
    requires Issue(store, users, req, t1).Issued?
    ensures var first := Issue(store, users, req, t1);
      var second := Issue(first.store, first.users, req, t2);
      && second.Issued?
      && second.store[req.body.sessionId.value].mintedAt == Some(t2)
  {
  }
}
