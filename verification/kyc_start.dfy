/**
 * `POST /api/kyc/start` (web/src/app/api/kyc/start/route.ts): input checks,
 * flag derivation from the verifier outputs, the stored session, and the
 * duplicate-identity check.
 *
 * The random session id, the clock, the IPFS upload and the identity
 * document check are inputs (`StartEnv`); sha256 is the parameter `sha`.
 */
module KycStart {
  import opened Wrappers
  import opened Text
  import opened Js
  import opened Gemini
  import opened KycStore

  /**
   * The multipart form. Text fields missing from the form are "", `age` is
   * what `parseInt` made of the field (`None` for NaN; a missing field parses as 0).
   */
  datatype StartForm = StartForm(
    fullName: string,
    country: string,
    age: Option<int>,
    address: string,
    idFile: Option<File>,
    selfieFile: Option<File>,
    livenessFile: Option<File>)

  /**
   * The request's environment: the fresh session id, the time, the IPFS
   * upload (`None` when it threw) and the result of `verifyIDDocument`.
   */
  datatype StartEnv = StartEnv(sessionId: string, now: int, upload: Option<IpfsHashes>, idCheck: IdCheck)

  /** The fields the identity hash is taken of, in the order they are concatenated. */
  datatype IdentityInput = IdentityInput(fullName: string, country: string, age: int, sessionId: string, nationality: string)

  /** Whether the identity hash binds the session id (as written) or not. */
  datatype HashScheme = WithSessionId | WithoutSessionId

  function IdentityInputOf(scheme: HashScheme, form: StartForm, age: int, sessionId: string, idCheck: IdCheck): IdentityInput {
    IdentityInput(
      form.fullName, form.country, age,
      if scheme == WithSessionId then sessionId else "",
      OrElse(idCheck.extractedNationality, form.country))
  }

  const FaceMatchThreshold: real := 0.7
  const ConfidenceThreshold: real := 0.6

  /** All six conditions `isVerified` requires. */
  predicate PassesChecks(id: IdCheck, live: Liveness) {
    && id.isDocumentValid
    && id.faceMatchScore >= FaceMatchThreshold
    && !id.isDeepfake
    && id.isHuman
    && live.isReal
    && live.confidence >= ConfidenceThreshold
  }

  /** The age `isAdult` is decided on: the extracted age when it is truthy, else the form's. */
  function EffectiveAge(id: IdCheck, formAge: int): int {
    if GivenInt(id.extractedAge) then id.extractedAge.value else formAge
  }

  /** The five flags of a fresh session (uniqueness is only decided afterwards). */
  function DeriveFlags(id: IdCheck, live: Liveness, sanctions: Sanctions, formAge: int): (f: Flags)
    ensures f.isVerified <==> PassesChecks(id, live)
    ensures f.isAdult <==> (if GivenInt(id.extractedAge) then id.extractedAge.value >= 18 else formAge >= 18)
    ensures f.isHuman <==> id.isHuman && live.isReal
    ensures f.isNotSanctioned <==> !sanctions.isSanctioned
    ensures f.isUnique
    ensures f.isVerified ==> f.isHuman
  {
    Flags(PassesChecks(id, live), EffectiveAge(id, formAge) >= 18, id.isHuman && live.isReal, !sanctions.isSanctioned, true)
  }

  datatype StartOutcome =
    | MissingAddress
    | MissingFields
    | MissingFiles
    | Duplicate(store: Store, sessionId: string)
    | NotVerified(store: Store, sessionId: string, reasons: seq<string>)
    | Accepted(store: Store, sessionId: string, flags: Flags, confidence: real)

  function HttpStatus(o: StartOutcome): nat {
    if o.Accepted? then 200 else 400
  }

  predicate FieldsGiven(form: StartForm) {
    form.fullName != "" && form.country != "" && GivenInt(form.age)
  }

  predicate FilesGiven(form: StartForm) {
    form.idFile.Some? && form.selfieFile.Some? && form.livenessFile.Some?
  }

  predicate Admitted(form: StartForm) {
    form.address != "" && FieldsGiven(form) && FilesGiven(form)
  }

  /** The duplicate query: a verified session of another id with the same identity hash. */
  predicate DuplicateIn(store: Store, sessionId: string, h: Hash) {
    exists k | k in store :: store[k].sessionId != sessionId && store[k].identityHash == h && store[k].status == Verified
  }

  /** The duplicate query, asked of the collection as it was before the insert. */
  predicate DuplicateBefore(store: Store, sessionId: string, h: Hash) {
    exists k | k in store :: k != sessionId && store[k].sessionId != sessionId && store[k].identityHash == h && store[k].status == Verified
  }

  /** Inserting the new session under its own id does not change the duplicate query's answer. */
  lemma DuplicateAfterInsert(store: Store, session: Session, h: Hash)
    ensures DuplicateIn(store[session.sessionId := session], session.sessionId, h)
        <==> DuplicateBefore(store, session.sessionId, h)
  {
    var sid := session.sessionId;
    var inserted := store[sid := session];
    if DuplicateIn(inserted, sid, h) {
      var k :| k in inserted && inserted[k].sessionId != sid && inserted[k].identityHash == h && inserted[k].status == Verified;
      assert k != sid;
      assert k in store && store[k] == inserted[k];
    }
    if DuplicateBefore(store, sid, h) {
      var k :| k in store && k != sid && store[k].sessionId != sid && store[k].identityHash == h && store[k].status == Verified;
      assert inserted[k] == store[k];
    }
  }

  function Min3(a: real, b: real, c: real): (m: real)
    ensures m <= a && m <= b && m <= c
    ensures m == a || m == b || m == c
  {
    if a <= b && a <= c then a else if b <= c then b else c
  }

  /** The liveness result of an admitted request's video. */
  function LivenessOf(form: StartForm): Liveness
    requires FilesGiven(form)
  {
    VerifyLivenessVideo(form.livenessFile.value)
  }

  function FlagsOf(form: StartForm, env: StartEnv): Flags
    requires Admitted(form)
  {
    DeriveFlags(env.idCheck, LivenessOf(form), CheckSanctions(form.fullName, form.country), form.age.value)
  }

  function IdentityHashOf(scheme: HashScheme, form: StartForm, env: StartEnv, sha: IdentityInput -> Hash): Hash
    requires Admitted(form)
  {
    sha(IdentityInputOf(scheme, form, form.age.value, env.sessionId, env.idCheck))
  }

  function ErrorsOf(form: StartForm, env: StartEnv): seq<string>
    requires Admitted(form)
  {
    env.idCheck.errors.GetOr([]) + LivenessOf(form).errors
  }

  /** The session document an admitted request inserts. */
  function NewSession(scheme: HashScheme, form: StartForm, env: StartEnv, sha: IdentityInput -> Hash): (s: Session)
    requires Admitted(form)
    ensures s.sessionId == env.sessionId
    ensures s.address == ToLower(form.address)
    ensures s.createdAt == env.now
    ensures s.status == Verified <==> PassesChecks(env.idCheck, LivenessOf(form))
    ensures s.flags == FlagsOf(form, env) && s.flags.isUnique
    ensures s.identityHash == IdentityHashOf(scheme, form, env, sha)
    ensures s.country == OrElse(env.idCheck.extractedNationality, form.country)
    ensures s.age == EffectiveAge(env.idCheck, form.age.value)
    ensures s.ipfs == env.upload.GetOr(IpfsHashes("", "", ""))
    ensures s.mintedAt.None? && s.mintedBy.None? && s.chain.None?
  {
    var id := env.idCheck;
    var live := LivenessOf(form);
    var sanctions := CheckSanctions(form.fullName, form.country);
    var flags := FlagsOf(form, env);
    var ai := AiSummary(id.faceMatchScore, id.isDocumentValid, id.isDeepfake, live.confidence,
                        Min3(id.confidence, live.confidence, sanctions.confidence), ErrorsOf(form, env));
    Session(
      env.sessionId, ToLower(form.address), form.fullName,
      OrElse(id.extractedNationality, form.country),
      EffectiveAge(id, form.age.value),
      env.now,
      if flags.isVerified then Verified else Rejected,
      flags, IdentityHashOf(scheme, form, env, sha), ai,
      env.upload.GetOr(IpfsHashes("", "", "")),
      None, None, None)
  }

  /**
   * Steps 4 and 5 for a built session: insert it, ask for another verified
   * session with its identity hash, mark it non-unique if there is one,
   * and answer.
   */
  function Record(store: Store, session: Session, reasons: seq<string>): (o: StartOutcome)
    requires session.flags.isUnique
    ensures var dup := DuplicateBefore(store, session.sessionId, session.identityHash);
      && (o.Duplicate? <==> dup)
      && (o.Accepted? <==> !dup && session.flags.isVerified)
      && (o.NotVerified? <==> !dup && !session.flags.isVerified)
      && !o.MissingAddress? && !o.MissingFields? && !o.MissingFiles?
      && o.store == store[session.sessionId := session.(flags := session.flags.(isUnique := !dup))]
      && (o.Accepted? ==> o.flags == session.flags && o.sessionId == session.sessionId
                          && o.confidence == session.ai.overallConfidence)
      && (o.NotVerified? ==> o.reasons == reasons)
  {
    var sid := session.sessionId;
    var inserted := store[sid := session];
    DuplicateAfterInsert(store, session, session.identityHash);
    if DuplicateIn(inserted, sid, session.identityHash) then
      assert inserted[sid := session.(flags := session.flags.(isUnique := false))]
          == store[sid := session.(flags := session.flags.(isUnique := false))];
      Duplicate(inserted[sid := session.(flags := session.flags.(isUnique := false))], sid)
    else if !session.flags.isVerified then
      NotVerified(inserted, sid, reasons)
    else
      Accepted(inserted, sid, session.flags, session.ai.overallConfidence)
  }

  /**
   * The route under a given hash scheme: reject in the order address,
   * fields, files; then store the session, mark it non-unique if another
   * verified session has its identity hash, and answer.
   */
  function StartUnder(scheme: HashScheme, store: Store, form: StartForm, env: StartEnv, sha: IdentityInput -> Hash): (o: StartOutcome)
    ensures o.MissingAddress? <==> form.address == ""
    ensures o.MissingFields? <==> form.address != "" && !FieldsGiven(form)
    ensures o.MissingFiles? <==> form.address != "" && FieldsGiven(form) && !FilesGiven(form)
    ensures Admitted(form) ==>
      var sid := env.sessionId;
      var dup := DuplicateBefore(store, sid, IdentityHashOf(scheme, form, env, sha));
      var verified := PassesChecks(env.idCheck, LivenessOf(form));
      && (o.Duplicate? <==> dup)
      && (o.Accepted? <==> !dup && verified)
      && (o.NotVerified? <==> !dup && !verified)
      && o.store == store[sid := NewSession(scheme, form, env, sha).(flags := FlagsOf(form, env).(isUnique := !dup))]
      && (o.Accepted? ==> o.flags == FlagsOf(form, env) && o.sessionId == sid)
      && (o.NotVerified? ==> o.reasons == ErrorsOf(form, env))
  {
    if form.address == "" then MissingAddress
    else if !FieldsGiven(form) then MissingFields
    else if !FilesGiven(form) then MissingFiles
    else Record(store, NewSession(scheme, form, env, sha), ErrorsOf(form, env))
  }

  /** `POST /api/kyc/start` as written: the identity hash binds the session id. */
  function Start(store: Store, form: StartForm, env: StartEnv, sha: IdentityInput -> Hash): StartOutcome {
    StartUnder(WithSessionId, store, form, env, sha)
  }

  /** Every admitted request leaves the collection keyed by session id. */
  lemma StartKeepsWellKeyed(scheme: HashScheme, store: Store, form: StartForm, env: StartEnv, sha: IdentityInput -> Hash)
    requires WellKeyed(store)
    requires Admitted(form)
    ensures WellKeyed(StartUnder(scheme, store, form, env, sha).store)
  {
  }

  /**
   * Whenever the document check fell back to its deterministic result (the
   * model unavailable, the request failed, or an unparseable reply), the
   * session is adult, since every fallback age lies in 25..44.
   */
  lemma FallbackIsAlwaysAdult(
    scheme: HashScheme, store: Store, form: StartForm, env: StartEnv, sha: IdentityInput -> Hash,
    ai: AiOutcome)
    requires Admitted(form)
    requires !(ai.Reply? && ai.parsed.Some?)
    requires env.idCheck == VerifyIdDocument(true, ai, form.idFile.value, form.selfieFile.value)
    ensures StartUnder(scheme, store, form, env, sha).store[env.sessionId].flags.isAdult
  {
    var age := FallbackAge(form.idFile.value, form.selfieFile.value);
    assert env.idCheck.extractedAge == Some(age) && age >= 25;
    assert FlagsOf(form, env).isAdult;
  }

  /**
   * Without a working model every valid liveness video passes: with no API
   * key or on any fallback path, the session is stored as verified.
   */
  lemma FallbackVerifiesAnyValidVideo(
    scheme: HashScheme, store: Store, form: StartForm, env: StartEnv, sha: IdentityInput -> Hash,
    hasApiKey: bool, ai: AiOutcome)
    requires Admitted(form)
    requires !hasApiKey || !(ai.Reply? && ai.parsed.Some?)
    requires env.idCheck == VerifyIdDocument(hasApiKey, ai, form.idFile.value, form.selfieFile.value)
    requires IsValidVideo(form.livenessFile.value)
    ensures StartUnder(scheme, store, form, env, sha).store[env.sessionId].status == Verified
  {
  }
}
