/**
 * The profile route (web/src/app/api/profile/set/route.ts): required
 * fields, the email format check and the normalising upsert keyed by the
 * lower-cased wallet address.
 */
module Profile {
  import opened Wrappers
  import opened Text
  import opened Js

  /** `[^\s@]`. */
  predicate Plain(c: char) {
    !IsJsSpace(c) && c != '@'
  }

  predicate AllPlain(s: string) {
    forall i :: 0 <= i < |s| ==> Plain(s[i])
  }

  /** One way of reading `s` as `local@domain.tld`, the three parts as the email regex demands. */
  ghost predicate EmailSplit(s: string, local: string, domain: string, tld: string) {
    && s == local + "@" + domain + "." + tld
    && |local| > 0 && |domain| > 0 && |tld| > 0
    && AllPlain(local) && AllPlain(domain) && AllPlain(tld)
  }

  /** `^[^\s@]+@[^\s@]+\.[^\s@]+$` matches `s`. */
  ghost predicate MatchesEmailRegex(s: string) {
    exists local, domain, tld :: EmailSplit(s, local, domain, tld)
  }

  /** The part after the '@' has a '.' that is neither its first nor its last character. */
  predicate HasInnerDot(d: string) {
    exists j | 0 < j < |d| - 1 :: d[j] == '.'
  }

  /**
   * The email check as the route applies it: a single '@' that is not the
   * first character, no white space, and an inner '.' after the '@'.
   */
  predicate IsEmail(s: string) {
    exists at | 0 < at < |s| :: s[at] == '@' && AllPlain(s[..at]) && AllPlain(s[at + 1..]) && HasInnerDot(s[at + 1..])
  }

  /** A split of an accepted string witnesses the regular expression. */
  lemma EmailSplitOf(s: string, at: nat, j: nat)
    requires 0 < at < |s| && s[at] == '@'
    requires AllPlain(s[..at]) && AllPlain(s[at + 1..])
    requires 0 < j < |s[at + 1..]| - 1 && s[at + 1..][j] == '.'
    ensures EmailSplit(s, s[..at], s[at + 1..][..j], s[at + 1..][j + 1..])
  {
    var d := s[at + 1..];
    var local, domain, tld := s[..at], d[..j], d[j + 1..];
    assert d == domain + "." + tld;
    assert s == local + "@" + d;
    forall i | 0 <= i < |domain| ensures Plain(domain[i]) { assert domain[i] == d[i]; }
    forall i | 0 <= i < |tld| ensures Plain(tld[i]) { assert tld[i] == d[j + 1 + i]; }
  }

  lemma IsEmailImpliesRegex(s: string)
    requires IsEmail(s)
    ensures MatchesEmailRegex(s)
  {
    var at :| 0 < at < |s| && s[at] == '@' && AllPlain(s[..at]) && AllPlain(s[at + 1..]) && HasInnerDot(s[at + 1..]);
    var d := s[at + 1..];
    var j :| 0 < j < |d| - 1 && d[j] == '.';
    EmailSplitOf(s, at, j);
  }

  lemma RegexImpliesIsEmail(s: string)
    requires MatchesEmailRegex(s)
    ensures IsEmail(s)
  {
    var local, domain, tld :| EmailSplit(s, local, domain, tld);
    var at := |local|;
    var d := domain + "." + tld;
    assert s == local + "@" + d;
    assert s[..at] == local;
    assert s[at] == '@';
    assert s[at + 1..] == d;
    assert d[|domain|] == '.';
    assert HasInnerDot(d);
    forall i | 0 <= i < |d| ensures Plain(d[i]) {
      if i < |domain| { assert d[i] == domain[i]; }
      else if i > |domain| { assert d[i] == tld[i - |domain| - 1]; }
    }
  }

  /** The check accepts exactly the strings the regular expression matches. */
  lemma IsEmailMatchesRegex(s: string)
    ensures IsEmail(s) <==> MatchesEmailRegex(s)
  {
    if IsEmail(s) { IsEmailImpliesRegex(s); }
    if MatchesEmailRegex(s) { RegexImpliesIsEmail(s); }
  }

  /** An accepted email has no white space and exactly one '@'. */
  lemma EmailShape(s: string)
    requires IsEmail(s)
    ensures forall i :: 0 <= i < |s| ==> !IsJsSpace(s[i])
    ensures exists at :: 0 < at < |s| - 1 && s[at] == '@' && forall i :: 0 <= i < |s| && s[i] == '@' ==> i == at
  {
    var at :| 0 < at < |s| && s[at] == '@' && AllPlain(s[..at]) && AllPlain(s[at + 1..]) && HasInnerDot(s[at + 1..]);
    forall i | 0 <= i < |s| ensures !IsJsSpace(s[i]) && (s[i] == '@' ==> i == at) {
      if i < at { assert s[i] == s[..at][i]; }
      else if i > at { assert s[i] == s[at + 1..][i - at - 1]; }
    }
  }

  /** The request body; `None` stands for a field the body leaves out. */
  datatype ProfileRequest = ProfileRequest(
    address: Option<string>,
    fullName: Option<string>,
    email: Option<string>,
    country: Option<string>,
    phone: Option<string>,
    dateOfBirth: Option<string>,
    bio: Option<string>)

  /** A document of the `profiles` collection. */
  datatype Profile = Profile(
    address: string,
    fullName: string,
    email: string,
    country: string,
    phone: string,
    dateOfBirth: string,
    bio: string,
    createdAt: int,
    updatedAt: int)

  /** The `profiles` collection, keyed by its lower-cased `address` field. */
  type Profiles = map<string, Profile>

  datatype SaveOutcome = MissingFields | InvalidEmail | Saved(profiles: Profiles)

  function HttpStatus(o: SaveOutcome): nat {
    if o.Saved? then 200 else 400
  }

  predicate HasRequired(req: ProfileRequest) {
    Given(req.address) && Given(req.fullName) && Given(req.email) && Given(req.country)
  }

  /** `POST /api/profile/set`. */
  function SetProfile(profiles: Profiles, req: ProfileRequest, now: int): (o: SaveOutcome)
    ensures o.MissingFields? <==> !HasRequired(req)
    ensures o.InvalidEmail? <==> HasRequired(req) && !IsEmail(req.email.value)
    ensures o.Saved? ==>
      var key := ToLower(req.address.value);
      && o.profiles.Keys == profiles.Keys + {key}
      && (forall k :: k in profiles && k != key ==> o.profiles[k] == profiles[k])
      && o.profiles[key].address == key
      && o.profiles[key].fullName == req.fullName.value
      && o.profiles[key].email == req.email.value
      && o.profiles[key].country == ToUpper(req.country.value)
      && o.profiles[key].phone == OrEmpty(req.phone)
      && o.profiles[key].dateOfBirth == OrEmpty(req.dateOfBirth)
      && o.profiles[key].bio == OrEmpty(req.bio)
      && o.profiles[key].updatedAt == now
      && o.profiles[key].createdAt == (if key in profiles then profiles[key].createdAt else now)
  {
    if !HasRequired(req) then MissingFields
    else if !IsEmail(req.email.value) then InvalidEmail
    else
      var key := ToLower(req.address.value);
      var createdAt := if key in profiles then profiles[key].createdAt else now;
      Saved(profiles[key := Profile(
        key, req.fullName.value, req.email.value, ToUpper(req.country.value),
        OrEmpty(req.phone), OrEmpty(req.dateOfBirth), OrEmpty(req.bio), createdAt, now)])
  }

  /**
   * Saving the same request twice stores the same profile both times except
   * for `updatedAt`; the first save's `createdAt` survives the second.
   */
  lemma SaveTwiceOnlyTouchesUpdatedAt(profiles: Profiles, req: ProfileRequest, t1: int, t2: int)
    requires SetProfile(profiles, req, t1).Saved?
    ensures var once := SetProfile(profiles, req, t1).profiles;
      var twice := SetProfile(once, req, t2);
      var key := ToLower(req.address.value);
      && twice.Saved?
      && twice.profiles.Keys == once.Keys
      && twice.profiles[key] == once[key].(updatedAt := t2)
      && (forall k :: k in once && k != key ==> twice.profiles[k] == once[k])
  {
  }

  /** Addresses that differ only in case update the same profile. */
  lemma AddressCaseIsIgnored(profiles: Profiles, req: ProfileRequest, now: int)
    requires SetProfile(profiles, req, now).Saved?
    ensures SetProfile(profiles, req.(address := Some(ToLower(req.address.value))), now) == SetProfile(profiles, req, now)
  {
    ToLowerIdempotent(req.address.value);
  }
}
