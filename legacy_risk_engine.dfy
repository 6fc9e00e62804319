/** `analyzeLoginRisk` of the older engine: first-login short cut, exact
    fingerprint match, then a location/IP check for a known device or a
    device-policy/location check for an unknown one. Its levels and actions
    use thresholds of its own (20, 40, 70) and actions of the device
    protocol (`update_device_info`, `register_new_device`, `block_login`).
    Fingerprint, location similarity and the registry update are the same
    as the current engine's. */
module LegacyRiskEngine {
  import opened Common
  import opened Geo
  import opened Records
  import RiskEngine

  /** Level of a known-device score: > 70 critical, > 40 high, > 20 medium, else low. */
  function KnownLevel(score: int): RiskLevel
  {
    if score > 70 then Critical else if score > 40 then High else if score > 20 then Medium else Low
  }

  /** Level of an unknown-device score: > 70 critical, > 40 high, else medium. */
  function UnknownLevel(score: int): RiskLevel
  {
    if score > 70 then Critical else if score > 40 then High else Medium
  }

  /** Location change (30), IP change (20). */
  function KnownDeviceRisk(locationChange: bool, ipChange: bool): (r: int)
    ensures r in {0, 20, 30, 50}
    ensures r == 0 <==> !locationChange && !ipChange
  {
    (if locationChange then 30 else 0) + (if ipChange then 20 else 0)
  }

  function KnownDeviceRisks(locationChange: bool, ipChange: bool): (r: seq<RiskTag>)
    ensures |r| <= 2
  {
    (if locationChange then [LocationChange] else []) + (if ipChange then [IpChange] else [])
  }

  /** The known-device branch, for the matched record `device`. A known
      device scores at most 50, so the `block_login` and `critical` outcomes
      of this branch are unreachable: it always updates the device, and the
      level is low (0, 20) without a location change, medium (30) for a
      location change alone and high (50) for both changes. */
  function KnownDeviceDecision(cur: DeviceData, device: DeviceRecord, distance: DistanceFn): (d: Decision)
    ensures d.deviceId == Some(device.id)
    ensures d.riskScore in {0, 20, 30, 50}
    ensures d.riskScore == 0 <==>
      Similarity(cur.location, device.lastKnownLocation, distance) >= 0.5 && cur.ip == device.lastKnownIP
    ensures d.action == UpdateDeviceInfo
    ensures d.riskLevel != Critical
    ensures d.riskLevel == Low <==> Similarity(cur.location, device.lastKnownLocation, distance) >= 0.5
    ensures d.riskLevel == High <==>
      Similarity(cur.location, device.lastKnownLocation, distance) < 0.5 && cur.ip != device.lastKnownIP
  {
    var locationChange := Similarity(cur.location, device.lastKnownLocation, distance) < 0.5;
    var ipChange := cur.ip != device.lastKnownIP;
    var score := KnownDeviceRisk(locationChange, ipChange);
    Decision(KnownLevel(score), score, KnownDeviceRisks(locationChange, ipChange),
             if score > 70 then BlockLogin else UpdateDeviceInfo, Some(device.id))
  }

  /** `location_change` is pushed exactly for a similarity below one half,
      `ip_change` exactly for a different IP, and nothing else. */
  lemma KnownDeviceTags(cur: DeviceData, device: DeviceRecord, distance: DistanceFn)
    ensures LocationChange in KnownDeviceDecision(cur, device, distance).risks
        <==> Similarity(cur.location, device.lastKnownLocation, distance) < 0.5
    ensures IpChange in KnownDeviceDecision(cur, device, distance).risks <==> cur.ip != device.lastKnownIP
    ensures forall t :: t in KnownDeviceDecision(cur, device, distance).risks ==> t == LocationChange || t == IpChange
  {
  }

  /** Unknown device (50), device policy (50), no known location (30). */
  function UnknownDeviceRisk(allowMultiple: bool, knownLocation: bool): (r: int)
    ensures r in {50, 80, 100, 130}
    ensures r == 50 <==> allowMultiple && knownLocation
  {
    50 + (if allowMultiple then 0 else 50) + (if knownLocation then 0 else 30)
  }

  function UnknownDeviceRisks(allowMultiple: bool, knownLocation: bool): (r: seq<RiskTag>)
    ensures 1 <= |r| <= 3 && r[0] == UnknownDevice
  {
    [UnknownDevice] + (if allowMultiple then [] else [MultipleDevicesNotAllowed])
      + (if knownLocation then [] else [UnknownLocation])
  }

  /** The unknown-device branch. An unknown device scores at least 50, so
      its level is high or critical (the `medium` outcome is unreachable),
      and it is admitted as a new device exactly when several devices are
      allowed and some registered device was last seen near the attempt;
      otherwise the login is blocked. */
  function UnknownDeviceDecision(cur: DeviceData, devices: seq<DeviceRecord>, profile: SecurityProfile,
                                 distance: DistanceFn): (d: Decision)
    ensures d.deviceId == None
    ensures d.riskScore in {50, 80, 100, 130}
    ensures d.riskScore == 50 <==> profile.allowMultipleDevices && HasKnownLocation(devices, cur, distance)
    ensures d.riskLevel in {High, Critical}
    ensures d.riskLevel == High <==> profile.allowMultipleDevices && HasKnownLocation(devices, cur, distance)
    ensures d.action in {RegisterNewDevice, BlockLogin}
    ensures d.action == RegisterNewDevice <==> profile.allowMultipleDevices && HasKnownLocation(devices, cur, distance)
  {
    var allowMultiple := profile.allowMultipleDevices;
    var knownLocation := HasKnownLocation(devices, cur, distance);
    var score := UnknownDeviceRisk(allowMultiple, knownLocation);
    Decision(UnknownLevel(score), score, UnknownDeviceRisks(allowMultiple, knownLocation),
             if score > 70 then BlockLogin else if allowMultiple then RegisterNewDevice else BlockLogin, None)
  }

  /** `unknown_device` is always pushed; the device-policy tag exactly under
      the single-device policy, `unknown_location` exactly when no registered
      device was last seen near the attempt. */
  lemma UnknownDeviceTags(cur: DeviceData, devices: seq<DeviceRecord>, profile: SecurityProfile, distance: DistanceFn)
    ensures UnknownDevice in UnknownDeviceDecision(cur, devices, profile, distance).risks
    ensures MultipleDevicesNotAllowed in UnknownDeviceDecision(cur, devices, profile, distance).risks
        <==> !profile.allowMultipleDevices
    ensures UnknownLocation in UnknownDeviceDecision(cur, devices, profile, distance).risks
        <==> !HasKnownLocation(devices, cur, distance)
  {
  }

  /** The decision the older `analyzeLoginRisk` returns. */
  function Analysis(cur: DeviceData, devices: seq<DeviceRecord>, profile: SecurityProfile,
                    distance: DistanceFn): (d: Decision)
    ensures d.deviceId.Some? <==> AttemptFingerprint(cur) in Fingerprints(devices)
    ensures d.riskScore >= 0
  {
    if |devices| == 0 then FirstLoginDecision
    else match IndexOf(Fingerprints(devices), AttemptFingerprint(cur))
      case Some(i) => KnownDeviceDecision(cur, devices[i], distance)
      case None => UnknownDeviceDecision(cur, devices, profile, distance)
  }

  /** An account with no registered device gets the first-login decision. */
  lemma EmptyRegistryIsFirstLogin(cur: DeviceData, profile: SecurityProfile, distance: DistanceFn)
    ensures Analysis(cur, [], profile, distance) == FirstLoginDecision
  {
  }

  /** The action tells the three cases apart: register_device exactly for an
      account with no device, update_device_info exactly for a recognised
      device, and register_new_device or block_login for an unknown one. */
  lemma AnalysisActions(cur: DeviceData, devices: seq<DeviceRecord>, profile: SecurityProfile, distance: DistanceFn)
    ensures Analysis(cur, devices, profile, distance).action in {RegisterDevice, UpdateDeviceInfo, RegisterNewDevice, BlockLogin}
    ensures Analysis(cur, devices, profile, distance).action == RegisterDevice <==> devices == []
    ensures Analysis(cur, devices, profile, distance).action == UpdateDeviceInfo <==>
      AttemptFingerprint(cur) in Fingerprints(devices)
  {
  }

  /** Under the single-device policy both engines refuse an unrecognised
      device: the older one blocks the login, the current one denies it. */
  lemma BothEnginesRefuseNewDevices(cur: DeviceData, devices: seq<DeviceRecord>, profile: SecurityProfile,
                                    distance: DistanceFn)
    requires |devices| > 0 && AttemptFingerprint(cur) !in Fingerprints(devices)
    requires !profile.allowMultipleDevices
    ensures Analysis(cur, devices, profile, distance).action == BlockLogin
    ensures RiskEngine.Analysis(cur, devices, profile, distance).action == Deny
  {
    RiskEngine.SingleDevicePolicyDeniesNewDevices(cur, devices, profile, distance);
  }

  /** The known-device checks, pushed onto an empty `risks`. */
  method DecideKnownDevice(cur: DeviceData, device: DeviceRecord, distance: DistanceFn) returns (d: Decision)
    ensures d == KnownDeviceDecision(cur, device, distance)
  {
    var risks: seq<RiskTag> := [];
    var riskScore := 0;
    var locationSimilarity := Similarity(cur.location, device.lastKnownLocation, distance);
    if locationSimilarity < 0.5 {
      risks := risks + [LocationChange];
      riskScore := riskScore + 30;
    }
    ghost var pushed := risks;
    if cur.ip != device.lastKnownIP {
      risks := risks + [IpChange];
      riskScore := riskScore + 20;
    }
    assert risks == pushed + (if cur.ip != device.lastKnownIP then [IpChange] else []);
    d := Decision(KnownLevel(riskScore), riskScore, risks,
                  if riskScore > 70 then BlockLogin else UpdateDeviceInfo, Some(device.id));
  }

  /** The unknown-device checks, with the `registeredDevices.some(...)` location search. */
  method DecideUnknownDevice(cur: DeviceData, devices: seq<DeviceRecord>, profile: SecurityProfile,
                             distance: DistanceFn) returns (d: Decision)
    ensures d == UnknownDeviceDecision(cur, devices, profile, distance)
  {
    var risks: seq<RiskTag> := [UnknownDevice];
    var riskScore := 50;
    if !profile.allowMultipleDevices {
      risks := risks + [MultipleDevicesNotAllowed];
      riskScore := riskScore + 50;
    }
    ghost var pushed := risks;
    var hasKnownLocation := FindKnownLocation(devices, cur, distance);
    if !hasKnownLocation {
      risks := risks + [UnknownLocation];
      riskScore := riskScore + 30;
    }
    assert risks == pushed + (if hasKnownLocation then [] else [UnknownLocation]);
    var action := if riskScore > 70 then BlockLogin
                  else if profile.allowMultipleDevices then RegisterNewDevice else BlockLogin;
    d := Decision(UnknownLevel(riskScore), riskScore, risks, action, None);
  }

  /** The older `analyzeLoginRisk`, step by step. */
  method AnalyzeLoginRisk(cur: DeviceData, devices: seq<DeviceRecord>, profile: SecurityProfile,
                          distance: DistanceFn) returns (d: Decision)
    ensures d == Analysis(cur, devices, profile, distance)
  {
    if |devices| == 0 {
      return Decision(Low, 0, [FirstLogin], RegisterDevice, None);
    }
    var found := FindIndex(Fingerprints(devices), AttemptFingerprint(cur));
    if found.Some? {
      d := DecideKnownDevice(cur, devices[found.value], distance);
    } else {
      d := DecideUnknownDevice(cur, devices, profile, distance);
    }
  }
}
