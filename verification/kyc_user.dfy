/**
 * `GET` and `POST /api/kyc/user` (web/src/app/api/kyc/user/route.ts): the
 * latest session of an address, and its session history with the latest
 * verified one.
 *
 * A Mongo sort with equal `createdAt` values is free to return any of the
 * tied documents; so is `Latest`. The order of the returned history is not
 * modelled: it is the set of the address's sessions.
 */
module KycUser {
  import opened Wrappers
  import opened Text
  import opened Js
  import opened KycStore

  /** The documents the route's filter selects: those of the lower-cased address, optionally only verified ones. */
  predicate Selected(s: Session, address: string, verifiedOnly: bool) {
    s.address == ToLower(address) && (verifiedOnly ==> s.status == Verified)
  }

  /** `k` names a selected session created no earlier than any other selected one. */
  predicate IsLatest(store: Store, address: string, verifiedOnly: bool, k: string) {
    && k in store
    && Selected(store[k], address, verifiedOnly)
    && forall j :: j in store && Selected(store[j], address, verifiedOnly) ==> store[j].createdAt <= store[k].createdAt
  }

  /** The key of a latest selected session (`sort({createdAt: -1})`, first hit), or `None` when nothing is selected. */
  method Latest(store: Store, address: string, verifiedOnly: bool) returns (r: Option<string>)
    ensures r.Some? ==> IsLatest(store, address, verifiedOnly, r.value)
    ensures r.None? <==> forall k :: k in store ==> !Selected(store[k], address, verifiedOnly)
  {
    var keys := store.Keys;
    r := None;
    while keys != {}
      invariant keys <= store.Keys
      invariant r.Some? ==> r.value in store && Selected(store[r.value], address, verifiedOnly)
      invariant r.Some? ==> forall j :: j in store.Keys - keys && Selected(store[j], address, verifiedOnly)
                              ==> store[j].createdAt <= store[r.value].createdAt
      invariant r.None? ==> forall j :: j in store.Keys - keys ==> !Selected(store[j], address, verifiedOnly)
      decreases keys
    {
      var k :| k in keys;
      if Selected(store[k], address, verifiedOnly) && (r.None? || store[r.value].createdAt < store[k].createdAt) {
        r := Some(k);
      }
      keys := keys - {k};
    }
  }

  datatype GetOutcome = GetAddressRequired | LatestSession(session: Option<Session>)

  /** `GET /api/kyc/user?address=…`. */
  method Get(store: Store, address: Option<string>) returns (o: GetOutcome)
    ensures o.GetAddressRequired? <==> !Given(address)
    ensures o.LatestSession? && o.session.Some? ==>
      exists k :: IsLatest(store, address.value, false, k) && store[k] == o.session.value
    ensures o.LatestSession? && o.session.None? ==>
      forall k :: k in store ==> !Selected(store[k], address.value, false)
  {
    if !Given(address) {
      return GetAddressRequired;
    }
    var k := Latest(store, address.value, false);
    if k.Some? {
      o := LatestSession(Some(store[k.value]));
    } else {
      o := LatestSession(None);
    }
  }

  /** The history answer: every session of the address and the latest verified one. */
  datatype PostOutcome =
    | PostAddressRequired
    | History(sessions: set<Session>, latestVerified: Option<Session>, hasKyc: bool, isVerified: bool, kycId: Option<string>)

  function SessionsOf(store: Store, address: string): (r: set<Session>)
    ensures forall k :: k in store && Selected(store[k], address, false) ==> store[k] in r
    ensures forall s :: s in r ==> Selected(s, address, false) && exists k :: k in store && store[k] == s
  {
    set k | k in store && Selected(store[k], address, false) :: store[k]
  }

  /** `POST /api/kyc/user` with `{address}`. */
  method Post(store: Store, address: Option<string>) returns (o: PostOutcome)
    ensures o.PostAddressRequired? <==> !Given(address)
    ensures o.History? ==>
      && o.sessions == SessionsOf(store, address.value)
      && (o.hasKyc <==> exists k :: k in store && Selected(store[k], address.value, false))
      && (o.isVerified <==> exists k :: k in store && Selected(store[k], address.value, true))
      && (o.isVerified <==> o.latestVerified.Some?)
      && (o.isVerified ==> o.hasKyc)
      && (o.latestVerified.Some? ==>
            exists k :: IsLatest(store, address.value, true, k) && store[k] == o.latestVerified.value)
      && (o.kycId.Some? <==> o.latestVerified.Some? && o.latestVerified.value.sessionId != "")
      && (o.kycId.Some? ==> o.kycId.value == o.latestVerified.value.sessionId)
  {
    if !Given(address) {
      return PostAddressRequired;
    }
    var a := address.value;
    var sessions := SessionsOf(store, a);
    var k := Latest(store, a, true);
    var latest: Option<Session> := if k.Some? then Some(store[k.value]) else None;
    var kycId: Option<string> := if latest.Some? && latest.value.sessionId != "" then Some(latest.value.sessionId) else None;
    o := History(sessions, latest, |sessions| > 0, latest.Some?, kycId);
  }
}
