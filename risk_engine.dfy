/** `analyzeLoginRisk` of the current engine: first-login short cut, exact
    fingerprint match, then additive scoring in a known-device or an
    unknown-device branch, mapped to a risk level and an action through the
    thresholds 30, 70 and 100. The unknown-device branch's provisional
    `register_new_device`/`block_login` action is always overwritten by the
    threshold action, so only the latter is modelled. */
module RiskEngine {
  import opened Common
  import opened Geo
  import opened Records
  import Registry

  /** The points the step tagged `t` adds. */
  function Weight(t: RiskTag): int
  {
    match t
    case FirstLogin => 0
    case UserAgentChange => 20
    case UserAgentSuspicious => 30
    case AutomationSuspected => 30
    case SlowResponse => 10
    case InconsistentResponse => 5
    case WeakPassword => 30
    case MediumPassword => 10
    case CriticalAction => 30
    case CountryChange => 30
    case LocationChange => 5
    case IpChange => 20
    case UnknownDevice => 50
    case SimilarFingerprint => -20
    case PartiallySimilarFingerprint => -10
    case MultipleDevicesNotAllowed => 50
    case UnknownLocation => 30
    case PlausibleLocation => -10
  }

  /** The total weight of the tags `tags`. */
  function WeightSum(tags: seq<RiskTag>): int
  {
    if tags == [] then 0 else Weight(tags[0]) + WeightSum(tags[1..])
  }

  lemma {:induction false} WeightSumConcat(a: seq<RiskTag>, b: seq<RiskTag>)
    ensures WeightSum(a + b) == WeightSum(a) + WeightSum(b)
  {
    if a == [] {
      assert a + b == b;
    } else {
      assert (a + b)[1..] == a[1..] + b;
      WeightSumConcat(a[1..], b);
    }
  }

  /** A check that pushes at most one tag and adds exactly that tag's points. */
  predicate SingleStep(points: int, tags: seq<RiskTag>)
  {
    (|tags| == 0 && points == 0) || (|tags| == 1 && points == Weight(tags[0]))
  }

  function LevelOf(score: int): RiskLevel
  {
    if score < 30 then Low else if score < 70 then Medium else if score < 100 then High else Critical
  }

  function ActionOf(score: int): Action
  {
    if score < 30 then Allow else if score < 70 then Review else Deny
  }

  /** Level and action are read off the same score: low, allow and < 30
      coincide; medium, review and [30, 70) coincide; high or critical, deny
      and >= 70 coincide; only scores of 100 or more are critical. */
  lemma LevelAndActionAgree(score: int)
    ensures LevelOf(score) == Low <==> ActionOf(score) == Allow
    ensures ActionOf(score) == Allow <==> score < 30
    ensures LevelOf(score) == Medium <==> ActionOf(score) == Review
    ensures ActionOf(score) == Review <==> 30 <= score < 70
    ensures (LevelOf(score) == High || LevelOf(score) == Critical) <==> ActionOf(score) == Deny
    ensures ActionOf(score) == Deny <==> score >= 70
    ensures LevelOf(score) == Critical <==> score >= 100
  {
  }

  /** The user agent as the source lower-cases it (`(ua || '').toLowerCase()`). */
  function UserAgentText(ua: Option<string>): string
  {
    Lower(OrEmpty(ua))
  }

  predicate IsMobile(ua: Option<string>)
  {
    Contains(UserAgentText(ua), "mobile")
  }

  predicate IsSuspicious(ua: Option<string>)
  {
    Contains(UserAgentText(ua), "headless") || Contains(UserAgentText(ua), "bot")
  }

  /** A matched device whose user agent differs from the attempt's. */
  predicate UserAgentChanged(ua: Option<string>, known: Option<DeviceRecord>)
  {
    known.Some? && ua != known.value.userAgent
  }

  /** The untagged 10 points for a switch between a mobile and a desktop user agent. */
  function MobileSwitch(ua: Option<string>, known: Option<DeviceRecord>): (r: int)
    ensures r == 0 || r == 10
    ensures !UserAgentChanged(ua, known) ==> r == 0
  {
    if UserAgentChanged(ua, known) && IsMobile(ua) != IsMobile(known.value.userAgent) then 10 else 0
  }

  /** `userAgentRisk`: 20 (plus 10 for a mobile/desktop switch) for a changed
      agent on a matched device, 30 for a headless or bot agent. */
  function UserAgentRisk(ua: Option<string>, known: Option<DeviceRecord>): (r: int)
    ensures 0 <= r <= 60
    ensures r == 0 <==> !UserAgentChanged(ua, known) && !IsSuspicious(ua)
  {
    (if UserAgentChanged(ua, known) then 20 else 0) + MobileSwitch(ua, known) + (if IsSuspicious(ua) then 30 else 0)
  }

  /** The tags the user-agent checks push, in order. */
  function UserAgentRisks(ua: Option<string>, known: Option<DeviceRecord>): (r: seq<RiskTag>)
    ensures |r| <= 2
  {
    (if UserAgentChanged(ua, known) then [UserAgentChange] else [])
      + (if IsSuspicious(ua) then [UserAgentSuspicious] else [])
  }

  /** `user_agent_change` is pushed exactly for a changed agent on a matched
      device, `user_agent_suspicious` exactly for a headless or bot agent,
      and nothing else is pushed. */
  lemma UserAgentTags(ua: Option<string>, known: Option<DeviceRecord>)
    ensures UserAgentChange in UserAgentRisks(ua, known) <==> UserAgentChanged(ua, known)
    ensures UserAgentSuspicious in UserAgentRisks(ua, known) <==> IsSuspicious(ua)
    ensures forall t :: t in UserAgentRisks(ua, known) ==> t == UserAgentChange || t == UserAgentSuspicious
  {
  }

  /** `responseRisk`: the first of < 50, > 5000, > 2000 that holds decides. */
  function ResponseRisk(ms: Option<real>): (r: int)
    ensures 0 <= r <= 30
    ensures r == 30 <==> ms.Some? && ms.value < 50.0
    ensures r == 0 <==> ms.None? || 50.0 <= ms.value <= 2000.0
  {
    if ms.None? then 0
    else if ms.value < 50.0 then 30
    else if ms.value > 5000.0 then 10
    else if ms.value > 2000.0 then 5
    else 0
  }

  function ResponseRisks(ms: Option<real>): (r: seq<RiskTag>)
    ensures |r| <= 1
  {
    if ms.None? then []
    else if ms.value < 50.0 then [AutomationSuspected]
    else if ms.value > 5000.0 then [SlowResponse]
    else if ms.value > 2000.0 then [InconsistentResponse]
    else []
  }

  /** Which response-time tag is pushed, if any. */
  lemma ResponseTags(ms: Option<real>)
    ensures ResponseRisks(ms) == [AutomationSuspected] <==> ms.Some? && ms.value < 50.0
    ensures ResponseRisks(ms) == [SlowResponse] <==> ms.Some? && ms.value > 5000.0
    ensures ResponseRisks(ms) == [InconsistentResponse] <==> ms.Some? && 2000.0 < ms.value <= 5000.0
    ensures ResponseRisks(ms) == [] <==> ms.None? || 50.0 <= ms.value <= 2000.0
  {
  }

  /** `passwordRisk`: a score below 0.3 is weak, otherwise below 0.6 is medium. */
  function PasswordRisk(score: Option<real>): (r: int)
    ensures 0 <= r <= 30
    ensures r == 0 <==> score.None? || score.value >= 0.6
  {
    if score.None? then 0
    else if score.value < 0.3 then 30
    else if score.value < 0.6 then 10
    else 0
  }

  function PasswordRisks(score: Option<real>): (r: seq<RiskTag>)
    ensures |r| <= 1
  {
    if score.None? then []
    else if score.value < 0.3 then [WeakPassword]
    else if score.value < 0.6 then [MediumPassword]
    else []
  }

  /** Which password tag is pushed, if any. */
  lemma PasswordTags(score: Option<real>)
    ensures PasswordRisks(score) == [WeakPassword] <==> score.Some? && score.value < 0.3
    ensures PasswordRisks(score) == [MediumPassword] <==> score.Some? && 0.3 <= score.value < 0.6
    ensures PasswordRisks(score) == [] <==> score.None? || score.value >= 0.6
  {
  }

  /** `actionRisk`: 30 for a critical action. */
  function ActionRisk(actionType: Option<string>): (r: int)
    ensures r == 0 || r == 30
    ensures r == 30 <==> actionType == Some("critical")
  {
    if actionType == Some("critical") then 30 else 0
  }

  function ActionRisks(actionType: Option<string>): (r: seq<RiskTag>)
    ensures |r| <= 1
  {
    if actionType == Some("critical") then [CriticalAction] else []
  }

  /** `critical_action` is pushed exactly for the action type "critical". */
  lemma ActionTags(actionType: Option<string>)
    ensures ActionRisks(actionType) == [CriticalAction] <==> actionType == Some("critical")
    ensures ActionRisks(actionType) == [] <==> actionType != Some("critical")
  {
  }

  /** Each of these checks pushes at most one tag and adds exactly that tag's points. */
  lemma ChecksAreSingleSteps(ms: Option<real>, score: Option<real>, actionType: Option<string>, similarity: real)
    ensures SingleStep(ResponseRisk(ms), ResponseRisks(ms))
    ensures SingleStep(PasswordRisk(score), PasswordRisks(score))
    ensures SingleStep(ActionRisk(actionType), ActionRisks(actionType))
    ensures SingleStep(SimilarityRisk(similarity), SimilarityRisks(similarity))
  {
  }

  /** The points of the user-agent, response-time, password and critical-action checks. */
  function SharedRisk(cur: DeviceData, known: Option<DeviceRecord>): (r: int)
    ensures 0 <= r <= 150
  {
    UserAgentRisk(cur.userAgent, known) + ResponseRisk(cur.responseTimeMs)
      + PasswordRisk(cur.passwordScore) + ActionRisk(cur.actionType)
  }

  /** The tags of those checks, in evaluation order. */
  function SharedRisks(cur: DeviceData, known: Option<DeviceRecord>): (r: seq<RiskTag>)
    ensures |r| <= 5
  {
    UserAgentRisks(cur.userAgent, known) + ResponseRisks(cur.responseTimeMs)
      + PasswordRisks(cur.passwordScore) + ActionRisks(cur.actionType)
  }

  /** A single-step check adds exactly the weight of what it pushes. */
  lemma SingleStepIsWeighted(points: int, tags: seq<RiskTag>)
    requires SingleStep(points, tags)
    ensures points == WeightSum(tags)
  {
    if |tags| == 1 {
      assert tags[1..] == [];
    }
  }

  /** The user-agent checks add the weights of their tags plus the untagged
      10 for a mobile/desktop switch. */
  lemma UserAgentRiskIsWeighted(ua: Option<string>, known: Option<DeviceRecord>)
    ensures UserAgentRisk(ua, known) == WeightSum(UserAgentRisks(ua, known)) + MobileSwitch(ua, known)
  {
    var change: seq<RiskTag> := if UserAgentChanged(ua, known) then [UserAgentChange] else [];
    var automated: seq<RiskTag> := if IsSuspicious(ua) then [UserAgentSuspicious] else [];
    SingleStepIsWeighted(if UserAgentChanged(ua, known) then 20 else 0, change);
    SingleStepIsWeighted(if IsSuspicious(ua) then 30 else 0, automated);
    WeightSumConcat(change, automated);
  }

  /** Every shared point is the weight of a reported tag, except the untagged
      10 for a mobile/desktop switch of the user agent. */
  lemma SharedRiskIsWeighted(cur: DeviceData, known: Option<DeviceRecord>)
    ensures SharedRisk(cur, known) == WeightSum(SharedRisks(cur, known)) + MobileSwitch(cur.userAgent, known)
  {
    var ua := UserAgentRisks(cur.userAgent, known);
    var rt := ResponseRisks(cur.responseTimeMs);
    var pw := PasswordRisks(cur.passwordScore);
    var ac := ActionRisks(cur.actionType);
    UserAgentRiskIsWeighted(cur.userAgent, known);
    ChecksAreSingleSteps(cur.responseTimeMs, cur.passwordScore, cur.actionType, 0.0);
    SingleStepIsWeighted(ResponseRisk(cur.responseTimeMs), rt);
    SingleStepIsWeighted(PasswordRisk(cur.passwordScore), pw);
    SingleStepIsWeighted(ActionRisk(cur.actionType), ac);
    WeightSumConcat(ua, rt);
    WeightSumConcat(ua + rt, pw);
    WeightSumConcat(ua + rt + pw, ac);
  }

  /** The known-device checks add exactly the weights of the tags they push. */
  lemma KnownDeviceRiskIsWeighted(countryChange: bool, locationChange: bool, ipChange: bool)
    ensures KnownDeviceRisk(countryChange, locationChange, ipChange)
         == WeightSum(KnownDeviceRisks(countryChange, locationChange, ipChange))
  {
    var country: seq<RiskTag> := if countryChange then [CountryChange] else [];
    var location: seq<RiskTag> := if locationChange then [LocationChange] else [];
    var ip: seq<RiskTag> := if ipChange then [IpChange] else [];
    WeightSumConcat(country, location);
    WeightSumConcat(country + location, ip);
  }

  /** The unknown-device checks add exactly the weights of the tags they push. */
  lemma UnknownDeviceRiskIsWeighted(similarity: real, allowMultiple: bool, knownLocation: bool)
    ensures UnknownDeviceRisk(similarity, allowMultiple, knownLocation)
         == WeightSum(UnknownDeviceRisks(similarity, allowMultiple, knownLocation))
  {
    var similar := SimilarityRisks(similarity);
    var multiple: seq<RiskTag> := if allowMultiple then [] else [MultipleDevicesNotAllowed];
    var location: seq<RiskTag> := if knownLocation then [PlausibleLocation] else [UnknownLocation];
    WeightSumConcat([UnknownDevice], similar);
    WeightSumConcat([UnknownDevice] + similar, multiple);
    WeightSumConcat([UnknownDevice] + similar + multiple, location);
  }

  /** `countryChange`: both locations known and their country codes differ. */
  predicate CountryChanged(cur: Option<Location>, last: Option<Location>)
  {
    cur.Some? && last.Some? && cur.value.countryCode != last.value.countryCode
  }

  /** Country change (30), location change (5), IP change (20). */
  function KnownDeviceRisk(countryChange: bool, locationChange: bool, ipChange: bool): (r: int)
    ensures 0 <= r <= 55
    ensures r == 0 <==> !countryChange && !locationChange && !ipChange
  {
    (if countryChange then 30 else 0) + (if locationChange then 5 else 0) + (if ipChange then 20 else 0)
  }

  function KnownDeviceRisks(countryChange: bool, locationChange: bool, ipChange: bool): (r: seq<RiskTag>)
    ensures |r| <= 3
  {
    (if countryChange then [CountryChange] else []) + (if locationChange then [LocationChange] else [])
      + (if ipChange then [IpChange] else [])
  }

  /** Each of the three known-device tags is pushed exactly when its condition holds. */
  lemma KnownDeviceTags(countryChange: bool, locationChange: bool, ipChange: bool)
    ensures CountryChange in KnownDeviceRisks(countryChange, locationChange, ipChange) <==> countryChange
    ensures LocationChange in KnownDeviceRisks(countryChange, locationChange, ipChange) <==> locationChange
    ensures IpChange in KnownDeviceRisks(countryChange, locationChange, ipChange) <==> ipChange
  {
  }

  /** The known-device branch over its inputs: the shared checks' points and
      tags and the three changes. */
  function KnownDeviceVerdict(sharedRisk: int, sharedRisks: seq<RiskTag>,
                              countryChange: bool, locationChange: bool, ipChange: bool, id: string): (d: Decision)
    ensures d.deviceId == Some(id)
    ensures |sharedRisks| <= |d.risks| <= |sharedRisks| + 3 && d.risks[..|sharedRisks|] == sharedRisks
    ensures d.riskScore == sharedRisk + WeightSum(d.risks[|sharedRisks|..])
    ensures CountryChange in d.risks[|sharedRisks|..] <==> countryChange
    ensures LocationChange in d.risks[|sharedRisks|..] <==> locationChange
    ensures IpChange in d.risks[|sharedRisks|..] <==> ipChange
    ensures d.riskLevel == LevelOf(d.riskScore) && d.action == ActionOf(d.riskScore)
  {
    KnownDeviceRiskIsWeighted(countryChange, locationChange, ipChange);
    KnownDeviceTags(countryChange, locationChange, ipChange);
    assert (sharedRisks + KnownDeviceRisks(countryChange, locationChange, ipChange))[|sharedRisks|..]
        == KnownDeviceRisks(countryChange, locationChange, ipChange);
    var score := KnownDeviceRisk(countryChange, locationChange, ipChange) + sharedRisk;
    Decision(LevelOf(score), score, sharedRisks + KnownDeviceRisks(countryChange, locationChange, ipChange),
             ActionOf(score), Some(id))
  }

  /** The known-device branch, for the matched record `device`. */
  function KnownDeviceDecision(cur: DeviceData, device: DeviceRecord, distance: DistanceFn): (d: Decision)
    ensures d.deviceId == Some(device.id)
    ensures d.riskLevel == LevelOf(d.riskScore) && d.action == ActionOf(d.riskScore)
  {
    KnownDeviceVerdict(SharedRisk(cur, Some(device)), SharedRisks(cur, Some(device)),
                       CountryChanged(cur.location, device.lastKnownLocation),
                       Similarity(cur.location, device.lastKnownLocation, distance) < 0.5,
                       cur.ip != device.lastKnownIP, device.id)
  }

  /** The known-device score: 30 for a country change, 5 for a location
      similarity below one half, 20 for an IP change, plus the shared
      checks; it is never negative. */
  lemma KnownDeviceScore(cur: DeviceData, device: DeviceRecord, distance: DistanceFn)
    ensures var d := KnownDeviceDecision(cur, device, distance);
      && d.riskScore ==
        (if CountryChanged(cur.location, device.lastKnownLocation) then 30 else 0)
        + (if Similarity(cur.location, device.lastKnownLocation, distance) < 0.5 then 5 else 0)
        + (if cur.ip != device.lastKnownIP then 20 else 0)
        + SharedRisk(cur, Some(device))
      && d.riskScore >= 0
  {
  }

  /** A change of country drops the location similarity to 0.1, so on a
      known device it scores at least 35 and is never allowed. */
  lemma CountryChangeIsNeverAllowed(cur: DeviceData, device: DeviceRecord, distance: DistanceFn)
    requires CountryChanged(cur.location, device.lastKnownLocation)
    ensures KnownDeviceDecision(cur, device, distance).riskScore >= 35
    ensures KnownDeviceDecision(cur, device, distance).action != Allow
  {
    assert Similarity(cur.location, device.lastKnownLocation, distance) == 0.1;
    KnownDeviceScore(cur, device, distance);
    LevelAndActionAgree(KnownDeviceDecision(cur, device, distance).riskScore);
  }

  /** On a recognised device the score is the total weight of the reported
      risks plus the untagged 10 for a mobile/desktop switch. */
  lemma KnownDeviceScoreIsWeighted(cur: DeviceData, device: DeviceRecord, distance: DistanceFn)
    ensures var d := KnownDeviceDecision(cur, device, distance);
      d.riskScore == WeightSum(d.risks) + MobileSwitch(cur.userAgent, Some(device))
  {
    var c := CountryChanged(cur.location, device.lastKnownLocation);
    var l := Similarity(cur.location, device.lastKnownLocation, distance) < 0.5;
    var i := cur.ip != device.lastKnownIP;
    SharedRiskIsWeighted(cur, Some(device));
    KnownDeviceRiskIsWeighted(c, l, i);
    WeightSumConcat(SharedRisks(cur, Some(device)), KnownDeviceRisks(c, l, i));
  }

  /** On an unrecognised device the score is exactly the total weight of the reported risks. */
  lemma UnknownDeviceScoreIsWeighted(cur: DeviceData, devices: seq<DeviceRecord>, profile: SecurityProfile,
                                     distance: DistanceFn)
    ensures var d := UnknownDeviceDecision(cur, devices, profile, distance);
      d.riskScore == WeightSum(d.risks)
  {
    var s := FingerprintSimilarity(devices, cur);
    var k := HasKnownLocation(devices, cur, distance);
    SharedRiskIsWeighted(cur, None);
    UnknownDeviceRiskIsWeighted(s, profile.allowMultipleDevices, k);
    WeightSumConcat(SharedRisks(cur, None), UnknownDeviceRisks(s, profile.allowMultipleDevices, k));
  }

  /** The `user_agent`/`language` closeness of a registered device to the attempt. */
  function PairSimilarity(device: DeviceRecord, cur: DeviceData): real
  {
    (if device.userAgent == cur.userAgent then 0.5 else 0.0)
      + (if device.language == cur.language then 0.3 else 0.0)
  }

  /** The `reduce` maximum of `PairSimilarity` over the registered devices, starting at 0. */
  function FingerprintSimilarity(devices: seq<DeviceRecord>, cur: DeviceData): (r: real)
    ensures 0.0 <= r <= 0.8
    ensures forall i :: 0 <= i < |devices| ==> PairSimilarity(devices[i], cur) <= r
    ensures r == 0.0 || exists i :: 0 <= i < |devices| && PairSimilarity(devices[i], cur) == r
  {
    if devices == [] then 0.0
    else
      var prefix := devices[..|devices| - 1];
      var last := devices[|devices| - 1];
      var m := FingerprintSimilarity(prefix, cur);
      assert forall i :: 0 <= i < |prefix| ==> prefix[i] == devices[i];
      Max(m, PairSimilarity(last, cur))
  }

  /** -20 for a similarity of at least 0.5, otherwise -10 for any similarity. */
  function SimilarityRisk(similarity: real): (r: int)
    ensures -20 <= r <= 0
    ensures r == 0 <==> similarity <= 0.0
  {
    if similarity >= 0.5 then -20 else if similarity > 0.0 then -10 else 0
  }

  function SimilarityRisks(similarity: real): (r: seq<RiskTag>)
    ensures |r| <= 1
  {
    if similarity >= 0.5 then [SimilarFingerprint]
    else if similarity > 0.0 then [PartiallySimilarFingerprint]
    else []
  }

  /** Which similarity tag is pushed, if any. */
  lemma SimilarityTags(similarity: real)
    ensures SimilarityRisks(similarity) == [SimilarFingerprint] <==> similarity >= 0.5
    ensures SimilarityRisks(similarity) == [PartiallySimilarFingerprint] <==> 0.0 < similarity < 0.5
    ensures SimilarityRisks(similarity) == [] <==> similarity <= 0.0
  {
  }

  /** Unknown device (50), fingerprint similarity, device policy (50), location (-10 or 30). */
  function UnknownDeviceRisk(similarity: real, allowMultiple: bool, knownLocation: bool): (r: int)
    ensures 20 <= r <= 130
  {
    50 + SimilarityRisk(similarity) + (if allowMultiple then 0 else 50) + (if knownLocation then -10 else 30)
  }

  function UnknownDeviceRisks(similarity: real, allowMultiple: bool, knownLocation: bool): (r: seq<RiskTag>)
    ensures 2 <= |r| <= 4
  {
    [UnknownDevice] + SimilarityRisks(similarity) + (if allowMultiple then [] else [MultipleDevicesNotAllowed])
      + (if knownLocation then [PlausibleLocation] else [UnknownLocation])
  }

  /** `unknown_device` is always pushed, first; the device-policy and location
      tags exactly when their conditions hold. */
  lemma UnknownDeviceTags(similarity: real, allowMultiple: bool, knownLocation: bool)
    ensures UnknownDeviceRisks(similarity, allowMultiple, knownLocation)[0] == UnknownDevice
    ensures MultipleDevicesNotAllowed in UnknownDeviceRisks(similarity, allowMultiple, knownLocation) <==> !allowMultiple
    ensures PlausibleLocation in UnknownDeviceRisks(similarity, allowMultiple, knownLocation) <==> knownLocation
    ensures UnknownLocation in UnknownDeviceRisks(similarity, allowMultiple, knownLocation) <==> !knownLocation
  {
  }

  /** The unknown-device branch over its inputs: the shared checks' points
      and tags, the fingerprint similarity, the device policy and whether
      some registered device was last seen near the attempt. */
  function UnknownDeviceVerdict(sharedRisk: int, sharedRisks: seq<RiskTag>, similarity: real,
                                allowMultiple: bool, knownLocation: bool): (d: Decision)
    ensures d.deviceId == None
    ensures |sharedRisks| + 2 <= |d.risks| <= |sharedRisks| + 4 && d.risks[..|sharedRisks|] == sharedRisks
    ensures d.risks[|sharedRisks|] == UnknownDevice
    ensures d.riskScore == sharedRisk + WeightSum(d.risks[|sharedRisks|..])
    ensures MultipleDevicesNotAllowed in d.risks[|sharedRisks|..] <==> !allowMultiple
    ensures PlausibleLocation in d.risks[|sharedRisks|..] <==> knownLocation
    ensures UnknownLocation in d.risks[|sharedRisks|..] <==> !knownLocation
    ensures d.riskLevel == LevelOf(d.riskScore) && d.action == ActionOf(d.riskScore)
  {
    UnknownDeviceRiskIsWeighted(similarity, allowMultiple, knownLocation);
    UnknownDeviceTags(similarity, allowMultiple, knownLocation);
    assert (sharedRisks + UnknownDeviceRisks(similarity, allowMultiple, knownLocation))[|sharedRisks|..]
        == UnknownDeviceRisks(similarity, allowMultiple, knownLocation);
    var score := UnknownDeviceRisk(similarity, allowMultiple, knownLocation) + sharedRisk;
    Decision(LevelOf(score), score, sharedRisks + UnknownDeviceRisks(similarity, allowMultiple, knownLocation),
             ActionOf(score), None)
  }

  /** The unknown-device branch. */
  function UnknownDeviceDecision(cur: DeviceData, devices: seq<DeviceRecord>, profile: SecurityProfile,
                                 distance: DistanceFn): (d: Decision)
    ensures d.deviceId == None
    ensures d.riskScore ==
      50 + SimilarityRisk(FingerprintSimilarity(devices, cur))
      + (if profile.allowMultipleDevices then 0 else 50)
      + (if HasKnownLocation(devices, cur, distance) then -10 else 30)
      + SharedRisk(cur, None)
    ensures d.riskScore >= 20
    ensures d.riskLevel == LevelOf(d.riskScore) && d.action == ActionOf(d.riskScore)
    ensures UnknownDevice in d.risks
  {
    var similarity := FingerprintSimilarity(devices, cur);
    var knownLocation := HasKnownLocation(devices, cur, distance);
    var d := UnknownDeviceVerdict(SharedRisk(cur, None), SharedRisks(cur, None), similarity,
                                  profile.allowMultipleDevices, knownLocation);
    assert d.risks[|SharedRisks(cur, None)|] == UnknownDevice;
    d
  }

  /** The decision `analyzeLoginRisk` returns. */
  function Analysis(cur: DeviceData, devices: seq<DeviceRecord>, profile: SecurityProfile,
                    distance: DistanceFn): (d: Decision)
    ensures |devices| > 0 ==> d.riskLevel == LevelOf(d.riskScore) && d.action == ActionOf(d.riskScore)
    ensures d.deviceId.Some? <==> AttemptFingerprint(cur) in Fingerprints(devices)
    ensures d.riskScore >= 0
  {
    if |devices| == 0 then FirstLoginDecision
    else match IndexOf(Fingerprints(devices), AttemptFingerprint(cur))
      case Some(i) => KnownDeviceDecision(cur, devices[i], distance)
      case None => UnknownDeviceDecision(cur, devices, profile, distance)
  }

  /** Every point of a decision's score is the weight of a risk it reports,
      except at most 10 untagged points on a recognised device. */
  lemma AnalysisScoreIsWeighted(cur: DeviceData, devices: seq<DeviceRecord>, profile: SecurityProfile,
                                distance: DistanceFn)
    ensures var d := Analysis(cur, devices, profile, distance);
      WeightSum(d.risks) <= d.riskScore <= WeightSum(d.risks) + 10
      && (d.deviceId.None? ==> d.riskScore == WeightSum(d.risks))
  {
    if |devices| > 0 {
      match IndexOf(Fingerprints(devices), AttemptFingerprint(cur))
      case Some(i) => KnownDeviceScoreIsWeighted(cur, devices[i], distance);
      case None => UnknownDeviceScoreIsWeighted(cur, devices, profile, distance);
    }
  }

  /** An account with no registered device gets the first-login decision, whatever the attempt. */
  lemma EmptyRegistryIsFirstLogin(cur: DeviceData, profile: SecurityProfile, distance: DistanceFn)
    ensures Analysis(cur, [], profile, distance) == FirstLoginDecision
  {
  }

  /** The first registered device carrying the attempt's fingerprint is the one the decision is about. */
  lemma MatchedDeviceIsFirst(cur: DeviceData, devices: seq<DeviceRecord>, profile: SecurityProfile,
                             distance: DistanceFn, i: nat)
    requires i < |devices| && devices[i].fingerprint == AttemptFingerprint(cur)
    requires forall j :: 0 <= j < i ==> devices[j].fingerprint != AttemptFingerprint(cur)
    ensures Analysis(cur, devices, profile, distance) == KnownDeviceDecision(cur, devices[i], distance)
  {
    var keys := Fingerprints(devices);
    assert AttemptFingerprint(cur) !in keys[..i] by {
      forall j | 0 <= j < i ensures keys[..i][j] != AttemptFingerprint(cur) {
        assert keys[..i][j] == keys[j];
      }
    }
    assert IndexOf(keys, AttemptFingerprint(cur)) == Some(i);
  }

  /** An attempt whose fingerprint matches no registered device is decided by the unknown-device branch. */
  lemma UnmatchedAttemptIsUnknown(cur: DeviceData, devices: seq<DeviceRecord>, profile: SecurityProfile,
                                  distance: DistanceFn)
    requires |devices| > 0
    requires forall j :: 0 <= j < |devices| ==> devices[j].fingerprint != AttemptFingerprint(cur)
    ensures Analysis(cur, devices, profile, distance) == UnknownDeviceDecision(cur, devices, profile, distance)
  {
    assert AttemptFingerprint(cur) !in Fingerprints(devices);
  }

  /** The action is always one of allow, review, deny or register_device, and
      register_device is returned exactly for an account with no device:
      the unknown-device branch's provisional register_new_device or
      block_login never survives. */
  lemma AnalysisActions(cur: DeviceData, devices: seq<DeviceRecord>, profile: SecurityProfile, distance: DistanceFn)
    ensures Analysis(cur, devices, profile, distance).action in {Allow, Review, Deny, RegisterDevice}
    ensures Analysis(cur, devices, profile, distance).action == RegisterDevice <==> devices == []
  {
  }

  /** When the profile does not allow several devices, an unrecognised device
      scores at least 70 and is denied. */
  lemma SingleDevicePolicyDeniesNewDevices(cur: DeviceData, devices: seq<DeviceRecord>, profile: SecurityProfile,
                                          distance: DistanceFn)
    requires |devices| > 0 && AttemptFingerprint(cur) !in Fingerprints(devices)
    requires !profile.allowMultipleDevices
    ensures Analysis(cur, devices, profile, distance).riskScore >= 70
    ensures Analysis(cur, devices, profile, distance).action == Deny
  {
    var d := UnknownDeviceDecision(cur, devices, profile, distance);
    assert d.riskScore >= 70;
    LevelAndActionAgree(d.riskScore);
  }

  /** On a recognised device, a change of country is never allowed. */
  lemma CountryChangeOnKnownDeviceIsNeverAllowed(cur: DeviceData, devices: seq<DeviceRecord>, profile: SecurityProfile,
                                                distance: DistanceFn, i: nat)
    requires i < |devices| && devices[i].fingerprint == AttemptFingerprint(cur)
    requires forall j :: 0 <= j < i ==> devices[j].fingerprint != AttemptFingerprint(cur)
    requires CountryChanged(cur.location, devices[i].lastKnownLocation)
    ensures Analysis(cur, devices, profile, distance).action != Allow
  {
    MatchedDeviceIsFirst(cur, devices, profile, distance, i);
    CountryChangeIsNeverAllowed(cur, devices[i], distance);
  }

  /** An attempt that carries no behavioural signal: its agent is neither
      headless nor a bot, no response time, password score or critical action. */
  predicate Quiet(cur: DeviceData)
  {
    !IsSuspicious(cur.userAgent) && cur.responseTimeMs.None? && cur.passwordScore.None? && cur.actionType.None?
  }

  /** A quiet attempt whose agent matches the recognised device's (if any)
      adds no shared points and pushes no shared tag. */
  lemma QuietAttemptAddsNothing(cur: DeviceData, known: Option<DeviceRecord>)
    requires Quiet(cur) && (known.Some? ==> cur.userAgent == known.value.userAgent)
    ensures SharedRisk(cur, known) == 0
    ensures SharedRisks(cur, known) == []
  {
    assert UserAgentRisks(cur.userAgent, known) == [];
  }

  /** A quiet attempt from a recognised device, same agent, same IP and a
      location at least half similar, scores 0: low, allow. */
  lemma QuietKnownDeviceIsAllowed(cur: DeviceData, device: DeviceRecord, distance: DistanceFn)
    requires Quiet(cur) && cur.userAgent == device.userAgent && cur.ip == device.lastKnownIP
    requires Similarity(cur.location, device.lastKnownLocation, distance) >= 0.5
    ensures var d := KnownDeviceDecision(cur, device, distance);
      d.riskScore == 0 && d.riskLevel == Low && d.action == Allow
  {
    KnownDeviceScore(cur, device, distance);
    QuietAttemptAddsNothing(cur, Some(device));
    assert !CountryChanged(cur.location, device.lastKnownLocation);
  }

  /** The same attempt from a new IP address scores 20: still low, allow. */
  lemma IpChangeAloneIsAllowed(cur: DeviceData, device: DeviceRecord, distance: DistanceFn)
    requires Quiet(cur) && cur.userAgent == device.userAgent && cur.ip != device.lastKnownIP
    requires Similarity(cur.location, device.lastKnownLocation, distance) >= 0.5
    ensures var d := KnownDeviceDecision(cur, device, distance);
      d.riskScore == 20 && d.riskLevel == Low && d.action == Allow
  {
    KnownDeviceScore(cur, device, distance);
    QuietAttemptAddsNothing(cur, Some(device));
    assert !CountryChanged(cur.location, device.lastKnownLocation);
  }

  /** On a recognised device in a familiar place, a 30 ms response, a weak
      password and a critical action add up to 90: high, deny. */
  lemma AutomatedCriticalActionIsDenied(cur: DeviceData, device: DeviceRecord, distance: DistanceFn)
    requires cur.userAgent == device.userAgent && !IsSuspicious(cur.userAgent) && cur.ip == device.lastKnownIP
    requires Similarity(cur.location, device.lastKnownLocation, distance) >= 0.5
    requires cur.responseTimeMs == Some(30.0) && cur.passwordScore == Some(0.2) && cur.actionType == Some("critical")
    ensures var d := KnownDeviceDecision(cur, device, distance);
      d.riskScore == 90 && d.riskLevel == High && d.action == Deny
  {
    KnownDeviceScore(cur, device, distance);
    assert SharedRisk(cur, Some(device)) == 90;
    assert !CountryChanged(cur.location, device.lastKnownLocation);
  }

  /** A quiet attempt from an unrecognised device that shares neither agent
      nor language with any registered one, seen nowhere near them, scores 80
      even when several devices are allowed: high, deny. */
  lemma UnfamiliarDeviceIsDenied(cur: DeviceData, devices: seq<DeviceRecord>, profile: SecurityProfile,
                                 distance: DistanceFn)
    requires Quiet(cur) && profile.allowMultipleDevices
    requires forall j :: 0 <= j < |devices| ==>
      devices[j].userAgent != cur.userAgent && devices[j].language != cur.language
    requires !HasKnownLocation(devices, cur, distance)
    ensures var d := UnknownDeviceDecision(cur, devices, profile, distance);
      d.riskScore == 80 && d.riskLevel == High && d.action == Deny
  {
    var similarity := FingerprintSimilarity(devices, cur);
    assert forall j :: 0 <= j < |devices| ==> PairSimilarity(devices[j], cur) == 0.0;
    assert similarity == 0.0;
    QuietAttemptAddsNothing(cur, None);
  }

  /** The `registeredDevices.reduce(...)` loop computing the fingerprint similarity. */
  method ComputeFingerprintSimilarity(devices: seq<DeviceRecord>, cur: DeviceData) returns (similarity: real)
    ensures similarity == FingerprintSimilarity(devices, cur)
  {
    similarity := 0.0;
    var i := 0;
    while i < |devices|
      invariant 0 <= i <= |devices|
      invariant similarity == FingerprintSimilarity(devices[..i], cur)
    {
      var sim := 0.0;
      if devices[i].userAgent == cur.userAgent { sim := sim + 0.5; }
      if devices[i].language == cur.language { sim := sim + 0.3; }
      assert devices[..i + 1][..i] == devices[..i];
      similarity := Max(similarity, sim);
      i := i + 1;
    }
    assert devices[..i] == devices;
  }

  /** The user-agent checks: push their tags onto `risks` and return `userAgentRisk`. */
  method PushUserAgentRisks(risks: seq<RiskTag>, ua: Option<string>, known: Option<DeviceRecord>)
    returns (risks': seq<RiskTag>, userAgentRisk: int)
    ensures risks' == risks + UserAgentRisks(ua, known)
    ensures userAgentRisk == UserAgentRisk(ua, known)
  {
    risks' := risks;
    userAgentRisk := 0;
    if known.Some? && ua != known.value.userAgent {
      risks' := risks' + [UserAgentChange];
      userAgentRisk := userAgentRisk + 20;
      if IsMobile(ua) != IsMobile(known.value.userAgent) {
        userAgentRisk := userAgentRisk + 10;
      }
    }
    ghost var pushed := risks';
    if IsSuspicious(ua) {
      risks' := risks' + [UserAgentSuspicious];
      userAgentRisk := userAgentRisk + 30;
    }
    assert risks' == pushed + (if IsSuspicious(ua) then [UserAgentSuspicious] else []);
  }

  /** The response-time check. */
  method PushResponseRisk(risks: seq<RiskTag>, ms: Option<real>) returns (risks': seq<RiskTag>, responseRisk: int)
    ensures risks' == risks + ResponseRisks(ms)
    ensures responseRisk == ResponseRisk(ms)
  {
    risks' := risks;
    responseRisk := 0;
    if ms.Some? {
      if ms.value < 50.0 {
        risks' := risks' + [AutomationSuspected];
        responseRisk := responseRisk + 30;
      } else if ms.value > 5000.0 {
        risks' := risks' + [SlowResponse];
        responseRisk := responseRisk + 10;
      } else if ms.value > 2000.0 {
        risks' := risks' + [InconsistentResponse];
        responseRisk := responseRisk + 5;
      }
    }
  }

  /** The password-strength check. */
  method PushPasswordRisk(risks: seq<RiskTag>, score: Option<real>) returns (risks': seq<RiskTag>, passwordRisk: int)
    ensures risks' == risks + PasswordRisks(score)
    ensures passwordRisk == PasswordRisk(score)
  {
    risks' := risks;
    passwordRisk := 0;
    if score.Some? {
      if score.value < 0.3 {
        risks' := risks' + [WeakPassword];
        passwordRisk := passwordRisk + 30;
      } else if score.value < 0.6 {
        risks' := risks' + [MediumPassword];
        passwordRisk := passwordRisk + 10;
      }
    }
  }

  /** The critical-action check. */
  method PushActionRisk(risks: seq<RiskTag>, actionType: Option<string>) returns (risks': seq<RiskTag>, actionRisk: int)
    ensures risks' == risks + ActionRisks(actionType)
    ensures actionRisk == ActionRisk(actionType)
  {
    risks' := risks;
    actionRisk := 0;
    if actionType == Some("critical") {
      risks' := risks' + [CriticalAction];
      actionRisk := actionRisk + 30;
    }
  }

  /** The four checks shared by both branches, pushed onto an empty `risks`. */
  method PushSharedRisks(cur: DeviceData, known: Option<DeviceRecord>) returns (risks: seq<RiskTag>, points: int)
    ensures risks == SharedRisks(cur, known)
    ensures points == SharedRisk(cur, known)
  {
    var userAgentRisk, responseRisk, passwordRisk, actionRisk;
    risks, userAgentRisk := PushUserAgentRisks([], cur.userAgent, known);
    assert risks == UserAgentRisks(cur.userAgent, known);
    risks, responseRisk := PushResponseRisk(risks, cur.responseTimeMs);
    risks, passwordRisk := PushPasswordRisk(risks, cur.passwordScore);
    risks, actionRisk := PushActionRisk(risks, cur.actionType);
    points := userAgentRisk + responseRisk + passwordRisk + actionRisk;
  }

  /** The known-device checks: country change, location change, IP change. */
  method PushKnownDeviceRisks(risks: seq<RiskTag>, countryChange: bool, locationChange: bool, ipChange: bool)
    returns (risks': seq<RiskTag>, riskScore: int)
    ensures risks' == risks + KnownDeviceRisks(countryChange, locationChange, ipChange)
    ensures riskScore == KnownDeviceRisk(countryChange, locationChange, ipChange)
  {
    risks', riskScore := risks, 0;
    if countryChange {
      risks' := risks' + [CountryChange];
      riskScore := riskScore + 30;
    }
    ghost var pushed := risks';
    if locationChange {
      risks' := risks' + [LocationChange];
      riskScore := riskScore + 5;
    }
    assert risks' == pushed + (if locationChange then [LocationChange] else []);
    pushed := risks';
    if ipChange {
      risks' := risks' + [IpChange];
      riskScore := riskScore + 20;
    }
    assert risks' == pushed + (if ipChange then [IpChange] else []);
  }

  /** The unknown-device checks, including the `registeredDevices.some(...)` location search. */
  method PushUnknownDeviceRisks(risks: seq<RiskTag>, similarity: real, allowMultiple: bool,
                                devices: seq<DeviceRecord>, cur: DeviceData, distance: DistanceFn)
    returns (risks': seq<RiskTag>, riskScore: int)
    ensures risks' == risks + UnknownDeviceRisks(similarity, allowMultiple, HasKnownLocation(devices, cur, distance))
    ensures riskScore == UnknownDeviceRisk(similarity, allowMultiple, HasKnownLocation(devices, cur, distance))
  {
    risks', riskScore := risks + [UnknownDevice], 50;
    ghost var pushed := risks';
    if similarity >= 0.5 {
      risks' := risks' + [SimilarFingerprint];
      riskScore := riskScore - 20;
    } else if similarity > 0.0 {
      risks' := risks' + [PartiallySimilarFingerprint];
      riskScore := riskScore - 10;
    }
    assert risks' == pushed + SimilarityRisks(similarity);
    pushed := risks';
    if !allowMultiple {
      risks' := risks' + [MultipleDevicesNotAllowed];
      riskScore := riskScore + 50;
    }
    assert risks' == pushed + (if allowMultiple then [] else [MultipleDevicesNotAllowed]);
    pushed := risks';
    var hasKnownLocation := FindKnownLocation(devices, cur, distance);
    if !hasKnownLocation {
      risks' := risks' + [UnknownLocation];
      riskScore := riskScore + 30;
    } else {
      risks' := risks' + [PlausibleLocation];
      riskScore := riskScore - 10;
    }
    assert risks' == pushed + (if hasKnownLocation then [PlausibleLocation] else [UnknownLocation]);
    AppendAssoc(risks, [UnknownDevice], SimilarityRisks(similarity),
                if allowMultiple then [] else [MultipleDevicesNotAllowed],
                if hasKnownLocation then [PlausibleLocation] else [UnknownLocation]);
  }

  /** The known-device decision, from the risks and points the shared checks produced. */
  method DecideKnownDevice(risks: seq<RiskTag>, sharedRisk: int,
                           countryChange: bool, locationChange: bool, ipChange: bool, id: string)
    returns (d: Decision)
    ensures d == KnownDeviceVerdict(sharedRisk, risks, countryChange, locationChange, ipChange, id)
  {
    var risks', riskScore := PushKnownDeviceRisks(risks, countryChange, locationChange, ipChange);
    riskScore := riskScore + sharedRisk;
    d := Decision(LevelOf(riskScore), riskScore, risks', ActionOf(riskScore), Some(id));
  }

  /** The unknown-device decision, from the risks and points the shared checks produced. */
  method DecideUnknownDevice(risks: seq<RiskTag>, sharedRisk: int, similarity: real, allowMultiple: bool,
                             devices: seq<DeviceRecord>, cur: DeviceData, distance: DistanceFn)
    returns (d: Decision)
    ensures d == UnknownDeviceVerdict(sharedRisk, risks, similarity, allowMultiple, HasKnownLocation(devices, cur, distance))
  {
    var risks', riskScore := PushUnknownDeviceRisks(risks, similarity, allowMultiple, devices, cur, distance);
    riskScore := riskScore + sharedRisk;
    d := Decision(LevelOf(riskScore), riskScore, risks', ActionOf(riskScore), None);
  }

  /** `analyzeLoginRisk`, step by step in the source's order. */
  method AnalyzeLoginRisk(cur: DeviceData, devices: seq<DeviceRecord>, profile: SecurityProfile,
                          distance: DistanceFn) returns (d: Decision)
    ensures d == Analysis(cur, devices, profile, distance)
  {
    if |devices| == 0 {
      return Decision(Low, 0, [FirstLogin], RegisterDevice, None);
    }

    var deviceFingerprint := AttemptFingerprint(cur);
    var found := FindIndex(Fingerprints(devices), deviceFingerprint);
    var known: Option<DeviceRecord> := if found.Some? then Some(devices[found.value]) else None;

    var fingerprintSimilarity := 0.0;
    if known.None? {
      fingerprintSimilarity := ComputeFingerprintSimilarity(devices, cur);
    }

    var locationSimilarity := 0.0;
    var countryChange := false;
    if known.Some? {
      locationSimilarity := Similarity(cur.location, known.value.lastKnownLocation, distance);
      if cur.location.Some? && known.value.lastKnownLocation.Some?
         && cur.location.value.countryCode != known.value.lastKnownLocation.value.countryCode {
        countryChange := true;
      }
    }

    var risks, sharedRisk := PushSharedRisks(cur, known);

    if known.Some? {
      d := DecideKnownDevice(risks, sharedRisk, countryChange, locationSimilarity < 0.5,
                             cur.ip != known.value.lastKnownIP, known.value.id);
    } else {
      d := DecideUnknownDevice(risks, sharedRisk, fingerprintSimilarity, profile.allowMultipleDevices,
                               devices, cur, distance);
    }
  }

  /** Registration round trip: after a device is registered from an attempt,
      the same attempt is recognised as that known device. */
  lemma RegisteredDeviceIsRecognised(user: User, data: DeviceData, action: Action, deviceId: Option<string>,
                                     now: string, freshId: string, distance: DistanceFn)
    requires Registry.IsRegistration(action)
    ensures var u := Registry.UpdatedUser(user, data, action, deviceId, now, freshId);
      Analysis(data, u.registeredDevices, u.securityProfile, distance).deviceId.Some?
  {
    var u := Registry.UpdatedUser(user, data, action, deviceId, now, freshId);
    Registry.RegistrationAppendsOne(user, data, action, deviceId, now, freshId);
    var n := |user.registeredDevices|;
    assert Fingerprints(u.registeredDevices)[n] == AttemptFingerprint(data);
  }
}
