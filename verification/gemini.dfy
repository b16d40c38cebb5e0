/**
 * The verification helpers of web/src/lib/gemini.ts: the liveness-file
 * check, the sanctions stub, and the identity-document result in each of its
 * paths (no API key, deterministic fallbacks, parsed model reply). The model
 * call itself is an input: the model's reply, or the way it failed.
 */
module Gemini {
  import opened Wrappers
  import opened Text
  import opened Js

  /** An uploaded file: its name, its MIME type (possibly "") and its size in bytes. */
  datatype File = File(name: string, fileType: string, size: nat)

  /** 100 MiB. */
  const MaxVideoBytes: nat := 100 * 1024 * 1024

  /** The accepted liveness uploads: non-empty, under 100 MiB, and a video by type, by extension or by an unknown type. */
  predicate IsValidVideo(f: File) {
    && 0 < f.size < MaxVideoBytes
    && (|| StartsWith(f.fileType, "video/")
        || EndsWith(ToLower(f.name), ".mp4")
        || EndsWith(ToLower(f.name), ".mov")
        || EndsWith(ToLower(f.name), ".avi")
        || f.fileType == "")
  }

  datatype Liveness = Liveness(isReal: bool, confidence: real, errors: seq<string>)

  /** `verifyLivenessVideo(file)`: file validation only, no analysis of the video. */
  function VerifyLivenessVideo(f: File): (r: Liveness)
    ensures r.isReal <==> IsValidVideo(f)
    ensures r.isReal ==> r.errors == [] && r.confidence == 0.85
    ensures !r.isReal ==> |r.errors| == 1 && r.confidence == 0.2
  {
    if !IsValidVideo(f) then
      Liveness(false, 0.2, ["Invalid video file. Please upload a valid video file (MP4, MOV, AVI)"])
    else
      Liveness(true, 0.85, [])
  }

  /** The extension test ignores case: a non-empty "CLIP.MP4" under the size bound passes whatever its type. */
  lemma UpperCaseExtensionAccepted(name: string, fileType: string, size: nat)
    requires EndsWith(name, ".MP4")
    requires 0 < size < MaxVideoBytes
    ensures VerifyLivenessVideo(File(name, fileType, size)).isReal
  {
    var n := |name|;
    var lower := ToLower(name);
    assert lower[n - 4..] == ".mp4" by {
      assert name[n - 4..] == ".MP4";
      assert name[n - 4] == '.' && name[n - 3] == 'M' && name[n - 2] == 'P' && name[n - 1] == '4';
    }
  }

  datatype Sanctions = Sanctions(isSanctioned: bool, confidence: real)

  /** `checkSanctions(fullName, nationality)`: a stub that clears everyone. */
  function CheckSanctions(fullName: string, nationality: string): (r: Sanctions)
    ensures !r.isSanctioned
  {
    Sanctions(false, 0.9)
  }

  /** `KycVerificationResult`; optional fields are `Option`s. */
  datatype IdCheck = IdCheck(
    faceMatchScore: real,
    isDocumentValid: bool,
    isDeepfake: bool,
    isHuman: bool,
    extractedAge: Option<int>,
    extractedNationality: Option<string>,
    documentType: Option<string>,
    confidence: real,
    errors: Option<seq<string>>)

  /** The result when no API key is configured. */
  function NoKeyResult(): (r: IdCheck)
    ensures r.isDocumentValid && !r.isDeepfake && r.isHuman
    ensures r.extractedAge.None? && r.extractedNationality.None?
    ensures r.faceMatchScore >= 0.7
  {
    IdCheck(0.95, true, false, true, None, None, None, 0.9, None)
  }

  /**
   * `(idHash + selfieHash) % 100`, each hash being the name's `.length`
   * (UTF-16 code units) plus the size.
   */
  function CombinedHash(idFile: File, selfieFile: File): (h: nat)
    ensures h < 100
  {
    (Utf16Length(idFile.name) + idFile.size + Utf16Length(selfieFile.name) + selfieFile.size) % 100
  }

  /** For names inside the Basic Multilingual Plane the hash counts characters. */
  lemma BmpNamesHashByCharacters(idFile: File, selfieFile: File)
    requires forall i :: 0 <= i < |idFile.name| ==> !IsAstral(idFile.name[i])
    requires forall i :: 0 <= i < |selfieFile.name| ==> !IsAstral(selfieFile.name[i])
    ensures CombinedHash(idFile, selfieFile) == (|idFile.name| + idFile.size + |selfieFile.name| + selfieFile.size) % 100
  {
  }

  /** An astral character in a name moves the hash off the character count. */
  lemma AstralNameShiftsHash(size: nat, selfieFile: File)
    ensures CombinedHash(File("a\U{1F600}.jpg", "image/jpeg", size), selfieFile)
         == (|"a\U{1F600}.jpg"| + 1 + size + Utf16Length(selfieFile.name) + selfieFile.size) % 100
  {
    AstralNameIsLonger();
  }

  /** The age every fallback reports. */
  function FallbackAge(idFile: File, selfieFile: File): (age: int)
    ensures 25 <= age <= 44
  {
    25 + CombinedHash(idFile, selfieFile) % 20
  }

  function Percent(n: nat): real {
    (n as real) / 100.0
  }

  /** How the model call went when an API key is configured. */
  datatype AiOutcome =
    | ModelUnavailable                  // getGenerativeModel threw
    | RequestFailed(message: Option<string>) // the request (or reading it) threw
    | Reply(parsed: Option<ParsedId>)    // a reply; None when no JSON object could be parsed from it

  /**
   * The JSON object parsed from the model's reply. Numeric fields are
   * `None` when absent, null or not numbers; the flag fields keep their
   * JSON value, since the defaults compare with the literals `false`/`true`.
   */
  datatype ParsedId = ParsedId(
    faceMatchScore: Option<real>,
    isDocumentValid: Json,
    isDeepfake: Json,
    isHuman: Json,
    extractedAge: Option<int>,
    extractedNationality: Option<string>,
    documentType: Option<string>,
    confidence: Option<real>,
    errors: Option<seq<string>>)

  /** The permissive defaults applied to a parsed reply. */
  function ParseIdResponse(p: ParsedId): (r: IdCheck)
    ensures r.isDocumentValid <==> p.isDocumentValid != Bool(false)
    ensures r.isHuman <==> p.isHuman != Bool(false)
    ensures r.isDeepfake <==> p.isDeepfake == Bool(true)
    ensures r.errors == Some(p.errors.GetOr([]))
    ensures r.faceMatchScore == p.faceMatchScore.GetOr(0.0)
    ensures r.confidence == (if p.confidence.Some? && p.confidence.value != 0.0 then p.confidence.value else 0.5)
    ensures r.extractedAge == p.extractedAge
  {
    IdCheck(
      if p.faceMatchScore.Some? && p.faceMatchScore.value != 0.0 then p.faceMatchScore.value else 0.0,
      p.isDocumentValid != Bool(false),
      p.isDeepfake == Bool(true),
      p.isHuman != Bool(false),
      p.extractedAge,
      p.extractedNationality,
      p.documentType,
      if p.confidence.Some? && p.confidence.value != 0.0 then p.confidence.value else 0.5,
      Some(p.errors.GetOr([])))
  }

  /** A reply that omits every field is read as a valid, live, non-deepfake document with no errors. */
  lemma EmptyReplyIsPermissive()
    ensures var r := ParseIdResponse(ParsedId(None, Undefined, Undefined, Undefined, None, None, None, None, None));
      r.isDocumentValid && r.isHuman && !r.isDeepfake && r.errors == Some([])
  {
  }

  /**
   * Only the literal `false` marks a document invalid or not human, and only
   * the literal `true` marks a deepfake: any other value, the string
   * "false" included, reads permissively.
   */
  lemma OnlyLiteralsDecide(p: ParsedId, j: Json)
    requires j != Bool(false) && j != Bool(true)
    ensures ParseIdResponse(p.(isDocumentValid := j)).isDocumentValid
    ensures ParseIdResponse(p.(isHuman := j)).isHuman
    ensures !ParseIdResponse(p.(isDeepfake := j)).isDeepfake
    ensures ParseIdResponse(p.(isDocumentValid := Str("false"), isHuman := Str("false"))).isDocumentValid
    ensures ParseIdResponse(p.(isDocumentValid := Str("false"), isHuman := Str("false"))).isHuman
  {
  }

  /** `verifyIDDocument(idFile, selfieFile)`. */
  function VerifyIdDocument(hasApiKey: bool, ai: AiOutcome, idFile: File, selfieFile: File): (r: IdCheck)
    ensures !hasApiKey ==> r == NoKeyResult()
    ensures hasApiKey && ai.Reply? && ai.parsed.Some? ==> r == ParseIdResponse(ai.parsed.value)
    ensures hasApiKey && !(ai.Reply? && ai.parsed.Some?) ==>
      && r.extractedAge == Some(FallbackAge(idFile, selfieFile))
      && r.extractedNationality == Some("IN")
      && r.isDocumentValid && !r.isDeepfake && r.isHuman
      && r.faceMatchScore >= 0.75
      && r.errors.Some?
  {
    if !hasApiKey then NoKeyResult()
    else
      var h := CombinedHash(idFile, selfieFile);
      var age := Some(FallbackAge(idFile, selfieFile));
      match ai
      case ModelUnavailable =>
        IdCheck(0.85 + Percent(h % 15), true, false, true, age, Some("IN"), Some("national_id"),
                0.85 + Percent(h % 15), Some([]))
      case RequestFailed(message) =>
        IdCheck(0.75 + Percent(h % 20), true, false, true, age, Some("IN"), Some("national_id"),
                0.7 + Percent(h % 20),
                Some(["AI verification temporarily unavailable: " + OrElse(message, "Unknown error") + ". Using fallback verification."]))
      case Reply(None) =>
        IdCheck(0.8 + Percent(h % 15), true, false, true, age, Some("IN"), Some("national_id"),
                0.75 + Percent(h % 15), Some(["Could not parse AI response, using fallback"]))
      case Reply(Some(p)) => ParseIdResponse(p)
  }
}
