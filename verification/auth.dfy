/**
 * Wallet authentication (web/src/lib/auth.ts): the address format check,
 * the per-address user session with a seven-day lifetime, and the
 * `requireAuth` gate the proof route calls.
 */
module Auth {
  import opened Wrappers
  import opened Text
  import opened Js

  /** `^0x[a-fA-F0-9]{40}$`: "0x" followed by exactly forty hexadecimal digits. */
  predicate IsWalletAddress(s: string) {
    |s| == 42 && s[0] == '0' && s[1] == 'x' && AllHex(s[2..])
  }

  /** The 160-bit value an address string denotes. */
  function AddressValue(s: string): (v: nat)
    requires IsWalletAddress(s)
    ensures v < Pow16(40)
  {
    HexValue(s[2..])
  }

  /**
   * `verifyWalletAuth(address, signature)`: the signature is ignored and an
   * address is accepted exactly when it has the wallet-address format.
   */
  function VerifyWalletAuth(address: string, signature: Option<string>): (ok: bool)
    ensures address == "" ==> !ok
    ensures ok <==> IsWalletAddress(address)
  {
    if address == "" then false else IsWalletAddress(address)
  }

  /** The address format is insensitive to case, and so is the value it denotes. */
  lemma LowerKeepsWalletAddress(s: string)
    requires IsWalletAddress(s)
    ensures IsWalletAddress(ToLower(s))
    ensures AddressValue(ToLower(s)) == AddressValue(s)
  {
    assert ToLower(s)[2..] == ToLower(s[2..]);
    HexValueIgnoresCase(s[2..]);
  }

  /** A document of the `sessions` collection. */
  datatype UserSession = UserSession(address: string, createdAt: int, expiresAt: int, lastActivity: int)

  /** Seven days in milliseconds. */
  const SessionLifetimeMs: int := 7 * 24 * 60 * 60 * 1000

  predicate LiveFor(u: UserSession, address: string, now: int) {
    u.address == ToLower(address) && u.expiresAt > now
  }

  /** The first live session of `address` at or after index `from`, in collection order. */
  function FindLive(users: seq<UserSession>, address: string, now: int, from: nat): (r: Option<nat>)
    requires from <= |users|
    ensures r.Some? ==>
      && from <= r.value < |users|
      && LiveFor(users[r.value], address, now)
      && (forall j :: from <= j < r.value ==> !LiveFor(users[j], address, now))
    ensures r.None? ==> forall j :: from <= j < |users| ==> !LiveFor(users[j], address, now)
    decreases |users| - from
  {
    if from == |users| then None
    else if LiveFor(users[from], address, now) then Some(from)
    else FindLive(users, address, now, from + 1)
  }

  datatype SessionLookup = SessionLookup(session: Option<UserSession>, users: seq<UserSession>)

  /**
   * `getUserSession(address)`: reuse the first unexpired session of the
   * lower-cased address, or insert one that expires seven days from `now`.
   */
  function GetUserSession(address: string, users: seq<UserSession>, now: int): (r: SessionLookup)
    ensures address == "" ==> r == SessionLookup(None, users)
    ensures address != "" ==>
      && r.session.Some?
      && r.session.value.address == ToLower(address)
      && r.session.value.expiresAt > now
    ensures address != "" && (exists j :: 0 <= j < |users| && LiveFor(users[j], address, now)) ==>
      && r.users == users
      && r.session.value in users
    ensures address != "" && (forall j :: 0 <= j < |users| ==> !LiveFor(users[j], address, now)) ==>
      && r.session.value == UserSession(ToLower(address), now, now + SessionLifetimeMs, now)
      && r.users == users + [r.session.value]
  {
    if address == "" then SessionLookup(None, users)
    else
      match FindLive(users, address, now, 0)
      case Some(i) => SessionLookup(Some(users[i]), users)
      case None =>
        var created := UserSession(ToLower(address), now, now + SessionLifetimeMs, now);
        SessionLookup(Some(created), users + [created])
  }

  /** The outcome of `requireAuth`; `body` is the request body, passed through. */
  datatype AuthResult<B> = AuthResult(authenticated: bool, address: Option<string>, error: Option<string>, body: B)

  datatype Authed<B> = Authed(result: AuthResult<B>, users: seq<UserSession>)

  /** `body.address || x-wallet-address header`. */
  function ClaimedAddress(bodyAddress: Option<string>, header: Option<string>): string {
    OrElse(bodyAddress, OrEmpty(header))
  }

  /**
   * `requireAuth(req)`: take the address from the body, else from the
   * header; refuse a missing or malformed one; otherwise open (or reuse) a
   * user session and report the lower-cased address.
   */
  function RequireAuth<B>(body: B, bodyAddress: Option<string>, header: Option<string>, users: seq<UserSession>, now: int): (r: Authed<B>)
    ensures r.result.body == body
    ensures r.result.authenticated <==> IsWalletAddress(ClaimedAddress(bodyAddress, header))
    ensures ClaimedAddress(bodyAddress, header) == "" ==>
      r.result == AuthResult(false, None, Some("Wallet address required"), body) && r.users == users
    ensures ClaimedAddress(bodyAddress, header) != "" && !IsWalletAddress(ClaimedAddress(bodyAddress, header)) ==>
      r.result == AuthResult(false, None, Some("Invalid wallet address"), body) && r.users == users
    ensures r.result.authenticated ==>
      && r.result.address == Some(ToLower(ClaimedAddress(bodyAddress, header)))
      && r.result.error.None?
      && r.users == GetUserSession(ClaimedAddress(bodyAddress, header), users, now).users
  {
    var address := ClaimedAddress(bodyAddress, header);
    if address == "" then Authed(AuthResult(false, None, Some("Wallet address required"), body), users)
    else if !VerifyWalletAuth(address, None) then Authed(AuthResult(false, None, Some("Invalid wallet address"), body), users)
    else
      var lookup := GetUserSession(address, users, now);
      Authed(AuthResult(true, Some(ToLower(address)), None, body), lookup.users)
  }

  /** The address taken from the body wins over the header whenever the body gives one. */
  lemma BodyAddressWins<B>(body: B, a: string, header: Option<string>, users: seq<UserSession>, now: int)
    requires IsWalletAddress(a)
    ensures RequireAuth(body, Some(a), header, users, now).result.address == Some(ToLower(a))
  {
  }
}
