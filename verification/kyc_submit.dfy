/**
 * `POST /api/kyc/submit` (web/src/app/api/kyc/submit/route.ts): the legacy
 * submission route. It works on its own collection (`kyc_sessions` of the
 * `oblivionid` database), which no other route reads, so it is modelled
 * with a store of its own.
 *
 * sha256 in hexadecimal is the parameter `digest`.
 */
module KycSubmit {
  import opened Wrappers
  import opened Text
  import opened Js
  import KycStore

  /** What a submission sets on a legacy document. */
  datatype LegacyVerification = LegacyVerification(
    age: Option<int>,
    nationality: Option<string>,
    sanctions: bool,
    human: bool,
    unique: bool,
    identityHash: string,
    verifiedAt: int)

  /** A legacy document: `verification` is `None` until a submission marks it verified. */
  datatype LegacyRecord = LegacyRecord(sessionId: string, verification: Option<LegacyVerification>)

  type LegacyStore = map<string, LegacyRecord>

  /** The JSON body; `age` is `None` when absent or null. */
  datatype SubmitBody = SubmitBody(
    sessionId: Option<string>,
    age: Option<int>,
    nationality: Option<string>,
    sanctions: Json,
    human: Json,
    unique: Json)

  datatype SubmitOutcome =
    | SessionIdRequired
    | LegacyNotFound
    | Submitted(store: LegacyStore, sessionId: string, identityHash: string, attributes: KycStore.Flags, proof: string, publicSignals: seq<nat>)

  function HttpStatus(o: SubmitOutcome): nat {
    match o
    case SessionIdRequired => 400
    case LegacyNotFound => 404
    case Submitted(_, _, _, _, _, _) => 200
  }

  /** `sessionId + (nationality || "") + (age || "")`. */
  function Preimage(sessionId: string, nationality: Option<string>, age: Option<int>): string {
    sessionId + OrEmpty(nationality) + (if GivenInt(age) then IntToDecimal(age.value) else "")
  }

  /** `age >= 18` in JavaScript: an absent age compares false. */
  predicate AdultAge(age: Option<int>) {
    age.Some? && age.value >= 18
  }

  /** The attributes a stored verification stands for. */
  function AttributesOf(v: LegacyVerification): (f: KycStore.Flags)
    ensures f.isVerified
    ensures f.isAdult <==> AdultAge(v.age)
    ensures f.isHuman == v.human && f.isUnique == v.unique && f.isNotSanctioned == !v.sanctions
  {
    KycStore.Flags(true, AdultAge(v.age), v.human, !v.sanctions, v.unique)
  }

  /** `POST /api/kyc/submit`. */
  function Submit(store: LegacyStore, body: SubmitBody, digest: string -> string, now: int): (o: SubmitOutcome)
    ensures o.SessionIdRequired? <==> !Given(body.sessionId)
    ensures o.LegacyNotFound? <==> Given(body.sessionId) && body.sessionId.value !in store
    ensures o.Submitted? ==>
      var sid := body.sessionId.value;
      && sid in store
      && o.sessionId == sid
      && o.identityHash == digest(Preimage(sid, body.nationality, body.age))
      && o.store.Keys == store.Keys
      && (forall k :: k in store && k != sid ==> o.store[k] == store[k])
      && o.store[sid].sessionId == store[sid].sessionId
      && o.store[sid].verification == Some(LegacyVerification(
           body.age, body.nationality, Truthy(body.sanctions), Truthy(body.human), Truthy(body.unique),
           o.identityHash, now))
      && o.attributes.isVerified
      && (o.attributes.isAdult <==> AdultAge(body.age))
      && o.attributes.isHuman == Truthy(body.human)
      && o.attributes.isNotSanctioned == !Truthy(body.sanctions)
      && o.attributes.isUnique == Truthy(body.unique)
      && o.proof == "0x" && o.publicSignals == []
  {
    if !Given(body.sessionId) then SessionIdRequired
    else
      var sid := body.sessionId.value;
      if sid !in store then LegacyNotFound
      else
        var h := digest(Preimage(sid, body.nationality, body.age));
        var v := LegacyVerification(
          body.age, body.nationality, Truthy(body.sanctions), Truthy(body.human), Truthy(body.unique), h, now);
        Submitted(store[sid := store[sid].(verification := Some(v))], sid, h, AttributesOf(v), "0x", [])
  }

  /** The attributes in the response are exactly those the stored record stands for. */
  lemma ResponseMatchesRecord(store: LegacyStore, body: SubmitBody, digest: string -> string, now: int)
    requires Submit(store, body, digest, now).Submitted?
    ensures var o := Submit(store, body, digest, now);
      o.attributes == AttributesOf(o.store[o.sessionId].verification.value)
  {
  }

  /** Resubmitting the same body answers the same and only moves `verifiedAt`. */
  lemma ResubmitIsStable(store: LegacyStore, body: SubmitBody, digest: string -> string, t1: int, t2: int)
    requires Submit(store, body, digest, t1).Submitted?
    ensures var first := Submit(store, body, digest, t1);
      var second := Submit(first.store, body, digest, t2);
      && second.Submitted?
      && second.identityHash == first.identityHash
      && second.attributes == first.attributes
      && second.store == first.store[first.sessionId := first.store[first.sessionId].(
           verification := Some(first.store[first.sessionId].verification.value.(verifiedAt := t2)))]
  {
  }

  /** The hash input has no separators: different submissions can hash the same text. */
  lemma PreimageIsAmbiguous()
    ensures Preimage("s1", None, Some(23)) == Preimage("s12", None, Some(3))
  {
    assert IntToDecimal(23) == "23";
    assert IntToDecimal(3) == "3";
  }
}
