/**
 * The `kycSessions` collection of the `oblivion` database shared by the
 * kyc/start, proof/issue, mint and kyc/user routes, and the on-chain
 * payload both proof/issue and mint build from a session.
 */
module KycStore {
  import opened Wrappers
  import opened Text
  import Passport

  /** An identity hash: the `bytes32` a `0x`-prefixed hex digest denotes. */
  type Hash = Passport.Bytes32

  datatype Status = Verified | Rejected

  datatype Flags = Flags(isVerified: bool, isAdult: bool, isHuman: bool, isNotSanctioned: bool, isUnique: bool)

  /** The `aiVerification` summary stored with a session. */
  datatype AiSummary = AiSummary(
    faceMatchScore: real,
    documentValid: bool,
    isDeepfake: bool,
    livenessConfidence: real,
    overallConfidence: real,
    errors: seq<string>)

  datatype IpfsHashes = IpfsHashes(id: string, selfie: string, liveness: string)

  /** What the mint route records after a mined transaction. */
  datatype ChainRecord = ChainRecord(txHash: string, blockNumber: nat, tokenId: Option<nat>)

  /** A KYC session document; `mintedAt`/`mintedBy`/`chain` are absent until set. */
  datatype Session = Session(
    sessionId: string,
    address: string,
    fullName: string,
    country: string,
    age: int,
    createdAt: int,
    status: Status,
    flags: Flags,
    identityHash: Hash,
    ai: AiSummary,
    ipfs: IpfsHashes,
    mintedAt: Option<int>,
    mintedBy: Option<string>,
    chain: Option<ChainRecord>)

  /** The collection, keyed by `sessionId`. */
  type Store = map<string, Session>

  /** Every document sits under its own `sessionId`. */
  ghost predicate WellKeyed(store: Store) {
    forall k :: k in store ==> store[k].sessionId == k
  }

  /** The on-chain `Attributes` for a session's flags and identity hash, field for field. */
  function ToAttributes(f: Flags, h: Hash): (a: Passport.Attributes)
    ensures Passport.FlagList(a) == [f.isVerified, f.isAdult, f.isHuman, f.isNotSanctioned, f.isUnique]
    ensures a.identityHash == h
  {
    Passport.Attributes(f.isVerified, f.isAdult, f.isHuman, f.isNotSanctioned, f.isUnique, h)
  }

  function Signal(b: bool): nat {
    if b then 1 else 0
  }

  /** `publicSignals`: one 0/1 entry per flag, in `Attributes` order. */
  function PublicSignals(f: Flags): (r: seq<nat>)
    ensures |r| == 5
    ensures forall h: Hash, i :: 0 <= i < 5 ==> (r[i] == 1 <==> Passport.FlagList(ToAttributes(f, h))[i])
    ensures forall i :: 0 <= i < 5 ==> r[i] <= 1
  {
    [Signal(f.isVerified), Signal(f.isAdult), Signal(f.isHuman), Signal(f.isNotSanctioned), Signal(f.isUnique)]
  }

  function Bit(n: nat): Option<bool> {
    if n == 0 then Some(false) else if n == 1 then Some(true) else None
  }

  /** Reads five 0/1 public signals back as flags. */
  function FlagsOfSignals(s: seq<nat>): Option<Flags> {
    if |s| != 5 then None
    else if Bit(s[0]).None? || Bit(s[1]).None? || Bit(s[2]).None? || Bit(s[3]).None? || Bit(s[4]).None? then None
    else Some(Flags(Bit(s[0]).value, Bit(s[1]).value, Bit(s[2]).value, Bit(s[3]).value, Bit(s[4]).value))
  }

  /** The public signals encode the flags without loss, and only well-formed signals decode. */
  lemma SignalsRoundTrip(f: Flags, s: seq<nat>)
    ensures FlagsOfSignals(PublicSignals(f)) == Some(f)
    ensures FlagsOfSignals(s) == Some(f) ==> PublicSignals(f) == s
  {
  }

  lemma {:induction false} RepeatZeros(n: nat)
    ensures forall i :: 0 <= i < |Repeat("00", n)| ==> Repeat("00", n)[i] == '0'
  {
    if n > 0 {
      RepeatZeros(n - 1);
      var r := Repeat("00", n);
      assert r == "00" + Repeat("00", n - 1);
      forall i | 0 <= i < |r| ensures r[i] == '0' {
        if i >= 2 { assert r[i] == Repeat("00", n - 1)[i - 2]; }
      }
    }
  }

  /** `"0x" + "00".repeat(256)`: the mock proof, 256 zero bytes in hex. */
  function MockProof(): (p: string)
    ensures |p| == 2 + 2 * 256
    ensures p[..2] == "0x"
    ensures forall i :: 2 <= i < |p| ==> p[i] == '0'
  {
    RepeatZeros(256);
    "0x" + Repeat("00", 256)
  }

  /** What proof/issue returns and mint sends: attributes, mock proof and public signals. */
  datatype Payload = Payload(attrs: Passport.Attributes, zkProof: string, publicSignals: seq<nat>)

  function PayloadOf(s: Session): (p: Payload)
    ensures Passport.FlagList(p.attrs) == [s.flags.isVerified, s.flags.isAdult, s.flags.isHuman, s.flags.isNotSanctioned, s.flags.isUnique]
    ensures p.attrs.identityHash == s.identityHash
    ensures FlagsOfSignals(p.publicSignals) == Some(s.flags)
    ensures |p.zkProof| == 514 && p.zkProof[..2] == "0x"
    ensures forall i :: 2 <= i < |p.zkProof| ==> p.zkProof[i] == '0'
  {
    SignalsRoundTrip(s.flags, []);
    Payload(ToAttributes(s.flags, s.identityHash), MockProof(), PublicSignals(s.flags))
  }
}
