/** The `/identity/verify` route: the user named in the request is looked up
    and its first-login snapshot, if any, is compared with the request's IP,
    device fingerprint and time on page, yielding an action, a score and a
    reason. Reading the users file becomes the `users` argument and a
    `readOk` flag; a failed read is the route's `catch` path. */
module IdentityVerify {
  import opened Common
  import opened Geo
  import opened Records
  import opened Fingerprint

  /** The request body (camel-case fields). */
  datatype Request = Request(
    username: Option<string>,
    visitorId: Option<string>,
    userAgent: Option<string>,
    language: Option<string>,
    timezone: Option<string>,
    ip: Option<string>,
    timeOnPage: Option<real>)

  datatype Reason = UserNotFound | AllChecksPassed | LittleTimeOnPage | DeviceDiffers | IpDiffers | NoSavedLogin | InternalError

  datatype Verdict = Verdict(action: Action, score: int, reason: Reason)

  /** The HTTP status: 500 on the `catch` path, 200 otherwise. */
  function Status(v: Verdict): int
  {
    if v.reason == InternalError then 500 else 200
  }

  /** `data.timeOnPage || 0` */
  function TimeOnPage(r: Request): real
  {
    if Truthy(r.timeOnPage) then r.timeOnPage.value else 0.0
  }

  /** The request's fingerprint, its fields defaulted before hashing. */
  function CurrentFingerprint(r: Request): string
  {
    FingerprintOf(Some(OrUnknown(r.visitorId)), Some(OrUnknown(r.userAgent)),
                  Some(OrUnknown(r.language)), Some(OrUnknown(r.timezone)))
  }

  /** The fingerprint of the first-login snapshot, defaulted the same way. */
  function SavedFingerprint(s: Snapshot): string
  {
    FingerprintOf(Some(OrUnknown(s.visitorId)), Some(OrUnknown(s.userAgent)),
                  Some(OrUnknown(s.language)), Some(OrUnknown(s.timezone)))
  }

  /** The decision for a user with first-login snapshot `first`. */
  function Ladder(first: Snapshot, r: Request): Verdict
  {
    if first.ip != r.ip then Verdict(Review, 50, IpDiffers)
    else if SavedFingerprint(first) != CurrentFingerprint(r) then Verdict(Allow, 80, DeviceDiffers)
    else if TimeOnPage(r) >= 30.0 then Verdict(Allow, 100, AllChecksPassed)
    else Verdict(Review, 70, LittleTimeOnPage)
  }

  /** The response of the route. */
  function Verification(users: seq<User>, r: Request, readOk: bool): (v: Verdict)
    ensures v.action in {Allow, Review, Deny}
    ensures v.score in {0, 50, 70, 80, 100}
    ensures v.action == Deny <==> v.score == 0
    ensures v.action == Allow <==> v.score >= 80
    ensures v.action == Review <==> v.score in {50, 70}
  {
    if !readOk then Verdict(Deny, 0, InternalError)
    else match IndexOf(Usernames(users), r.username)
      case None => Verdict(Deny, 0, UserNotFound)
      case Some(i) =>
        match users[i].firstLoginData
        case None => Verdict(Review, 50, NoSavedLogin)
        case Some(first) => Ladder(first, r)
  }

  /** The route handler: `action`, `score` and `reason` start at deny, 0,
      user not found and are reassigned down the ladder. */
  method VerifyIdentity(users: seq<User>, r: Request, readOk: bool)
    returns (action: Action, score: int, reason: Reason)
    ensures Verdict(action, score, reason) == Verification(users, r, readOk)
  {
    if !readOk {
      return Deny, 0, InternalError;
    }
    var found := FindIndex(Usernames(users), r.username);
    action, score, reason := Deny, 0, UserNotFound;
    if found.Some? && users[found.value].firstLoginData.Some? {
      var first := users[found.value].firstLoginData.value;
      var savedIp := first.ip;
      var currentFingerprint := CurrentFingerprint(r);
      var savedFingerprint := SavedFingerprint(first);
      if savedIp == r.ip {
        if savedFingerprint == currentFingerprint {
          var timeOnPage := TimeOnPage(r);
          if timeOnPage >= 30.0 {
            action, score, reason := Allow, 100, AllChecksPassed;
          } else {
            action, score, reason := Review, 70, LittleTimeOnPage;
          }
        } else {
          action, score, reason := Allow, 80, DeviceDiffers;
        }
      } else {
        action, score, reason := Review, 50, IpDiffers;
      }
    } else if found.Some? {
      action, score, reason := Review, 50, NoSavedLogin;
    }
  }

  /** Deny, and a score of 0, happen exactly when no user has the requested
      username or the users file could not be read. */
  lemma DenyIffNoUser(users: seq<User>, r: Request, readOk: bool)
    ensures Verification(users, r, readOk).action == Deny <==> !readOk || r.username !in Usernames(users)
    ensures Verification(users, r, readOk).reason == UserNotFound <==> readOk && r.username !in Usernames(users)
  {
  }

  /** A request without a username is matched to the first user without one. */
  lemma MissingUsernameMatchesNamelessUser(users: seq<User>, r: Request, i: nat)
    requires r.username.None? && i < |users| && users[i].username.None?
    ensures Verification(users, r, true).action != Deny
  {
    assert Usernames(users)[i] == r.username;
  }

  /** The rungs of the ladder, for the first user `users[i]` with the requested username. */
  lemma LadderRungs(users: seq<User>, r: Request, i: nat)
    requires i < |users| && users[i].username == r.username
    requires forall j :: 0 <= j < i ==> users[j].username != r.username
    ensures var v := Verification(users, r, true);
      match users[i].firstLoginData
      case None => v == Verdict(Review, 50, NoSavedLogin)
      case Some(first) =>
        && (first.ip != r.ip ==> v == Verdict(Review, 50, IpDiffers))
        && (first.ip == r.ip && SavedFingerprint(first) != CurrentFingerprint(r) ==> v == Verdict(Allow, 80, DeviceDiffers))
        && (first.ip == r.ip && SavedFingerprint(first) == CurrentFingerprint(r) ==>
              v == (if TimeOnPage(r) >= 30.0 then Verdict(Allow, 100, AllChecksPassed)
                    else Verdict(Review, 70, LittleTimeOnPage)))
  {
    var keys := Usernames(users);
    assert r.username !in keys[..i] by {
      forall j | 0 <= j < i ensures keys[..i][j] != r.username {
        assert keys[..i][j] == keys[j];
      }
    }
    assert IndexOf(keys, r.username) == Some(i);
  }

  /** Defaulting twice is defaulting once: both fingerprints are the
      engine's fingerprint of the raw fields. */
  lemma FingerprintsAreTheEngines(first: Snapshot, r: Request)
    ensures CurrentFingerprint(r) == FingerprintOf(r.visitorId, r.userAgent, r.language, r.timezone)
    ensures SavedFingerprint(first) == FingerprintOf(first.visitorId, first.userAgent, first.language, first.timezone)
  {
    OrUnknownIdempotent(r.visitorId);
    OrUnknownIdempotent(r.userAgent);
    OrUnknownIdempotent(r.language);
    OrUnknownIdempotent(r.timezone);
    OrUnknownIdempotent(first.visitorId);
    OrUnknownIdempotent(first.userAgent);
    OrUnknownIdempotent(first.language);
    OrUnknownIdempotent(first.timezone);
  }

  /** A snapshot and a request with the same IP and the same four device
      fields, each after defaulting, always reach the time-on-page rung;
      without a time on page that rung reviews with 70. */
  lemma SameDeviceReachesTimeCheck(first: Snapshot, r: Request)
    requires first.ip == r.ip
    requires OrUnknown(first.visitorId) == OrUnknown(r.visitorId) && OrUnknown(first.userAgent) == OrUnknown(r.userAgent)
    requires OrUnknown(first.language) == OrUnknown(r.language) && OrUnknown(first.timezone) == OrUnknown(r.timezone)
    ensures Ladder(first, r).reason in {AllChecksPassed, LittleTimeOnPage}
    ensures r.timeOnPage.None? ==> Ladder(first, r) == Verdict(Review, 70, LittleTimeOnPage)
  {
  }

  /** The converse fails: a device that differs in two fields can still
      pass the device check, because the joined fields are not escaped. */
  lemma DifferentDeviceCanPassDeviceCheck(first: Snapshot, r: Request)
    requires first.ip == r.ip
    requires first.visitorId == Some("a_b") && first.userAgent == Some("c")
    requires r.visitorId == Some("a") && r.userAgent == Some("b_c")
    requires first.language == r.language && first.timezone == r.timezone
    requires TimeOnPage(r) >= 30.0
    ensures Ladder(first, r) == Verdict(Allow, 100, AllChecksPassed)
  {
    FingerprintsAreTheEngines(first, r);
    DelimiterInFieldsCollides(r.language, r.timezone);
  }
}
