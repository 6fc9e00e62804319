/** The records the engines read and the user store writes: the login
    attempt, registered devices, security profiles, first-login snapshots,
    users, and the decision vocabulary shared by both risk engines. */
module Records {
  import opened Common
  import opened Geo
  import opened Fingerprint

  /** The device data sent with an attempt. `location` is the nested object
      the risk analysis reads; `place` holds the flat country/city/region/
      latitude/longitude fields that the registry update copies. */
  datatype DeviceData = DeviceData(
    visitorId: Option<string>,
    userAgent: Option<string>,
    language: Option<string>,
    timezone: Option<string>,
    ip: Option<string>,
    location: Option<Location>,
    place: Location,
    responseTimeMs: Option<real>,
    passwordScore: Option<real>,
    actionType: Option<string>)

  datatype DeviceRecord = DeviceRecord(
    id: string,
    fingerprint: string,
    visitorId: Option<string>,
    userAgent: Option<string>,
    language: Option<string>,
    timezone: Option<string>,
    lastKnownIP: Option<string>,
    lastKnownLocation: Option<Location>,
    registeredAt: Option<string>,
    lastSeenAt: Option<string>,
    loginCount: nat)

  datatype SecurityProfile = SecurityProfile(allowMultipleDevices: bool, firstLoginCompleted: bool)

  /** The device data saved at a user's first login (`firstLoginData`), and
      the device data of the login routes. */
  datatype Snapshot = Snapshot(
    ip: Option<string>,
    country: Option<string>,
    city: Option<string>,
    visitorId: Option<string>,
    userAgent: Option<string>,
    language: Option<string>,
    timezone: Option<string>,
    registeredAt: Option<string>)

  datatype User = User(
    id: string,
    username: Option<string>,
    firstLoginData: Option<Snapshot>,
    registeredDevices: seq<DeviceRecord>,
    securityProfile: SecurityProfile)

  /** The persisted user list (`users.json`), read and rewritten whole. */
  class UsersFile {
    var users: seq<User>

    constructor (users: seq<User>)
      ensures this.users == users
    {
      this.users := users;
    }
  }

  datatype Action = Allow | Review | Deny | RegisterDevice | RegisterNewDevice | BlockLogin | UpdateDeviceInfo

  datatype RiskLevel = Low | Medium | High | Critical

  datatype RiskTag =
    | FirstLogin | UserAgentChange | UserAgentSuspicious
    | AutomationSuspected | SlowResponse | InconsistentResponse
    | WeakPassword | MediumPassword | CriticalAction
    | CountryChange | LocationChange | IpChange
    | UnknownDevice | SimilarFingerprint | PartiallySimilarFingerprint
    | MultipleDevicesNotAllowed | UnknownLocation | PlausibleLocation

  datatype Decision = Decision(
    riskLevel: RiskLevel,
    riskScore: int,
    risks: seq<RiskTag>,
    action: Action,
    deviceId: Option<string>)

  /** The decision for an account with no registered device. */
  const FirstLoginDecision: Decision := Decision(Low, 0, [FirstLogin], RegisterDevice, None)

  function AttemptFingerprint(d: DeviceData): string
  {
    FingerprintOf(d.visitorId, d.userAgent, d.language, d.timezone)
  }

  function Fingerprints(devices: seq<DeviceRecord>): (r: seq<string>)
    ensures |r| == |devices| && forall i :: 0 <= i < |devices| ==> r[i] == devices[i].fingerprint
  {
    seq(|devices|, i requires 0 <= i < |devices| => devices[i].fingerprint)
  }

  /** Record ids as compared with an optional id (`d.id === deviceId`). */
  function DeviceIds(devices: seq<DeviceRecord>): (r: seq<Option<string>>)
    ensures |r| == |devices| && forall i :: 0 <= i < |devices| ==> r[i] == Some(devices[i].id)
  {
    seq(|devices|, i requires 0 <= i < |devices| => Some(devices[i].id))
  }

  function UserIds(users: seq<User>): (r: seq<string>)
    ensures |r| == |users| && forall i :: 0 <= i < |users| ==> r[i] == users[i].id
  {
    seq(|users|, i requires 0 <= i < |users| => users[i].id)
  }

  function Usernames(users: seq<User>): (r: seq<Option<string>>)
    ensures |r| == |users| && forall i :: 0 <= i < |users| ==> r[i] == users[i].username
  {
    seq(|users|, i requires 0 <= i < |users| => users[i].username)
  }

  /** Some registered device was last seen at a location more than 0.7 similar to the attempt's. */
  predicate HasKnownLocation(devices: seq<DeviceRecord>, cur: DeviceData, distance: DistanceFn)
  {
    exists i :: 0 <= i < |devices| && Similarity(cur.location, devices[i].lastKnownLocation, distance) > 0.7
  }

  /** The `registeredDevices.some(...)` loop. */
  method FindKnownLocation(devices: seq<DeviceRecord>, cur: DeviceData, distance: DistanceFn) returns (found: bool)
    ensures found == HasKnownLocation(devices, cur, distance)
  {
    var i := 0;
    while i < |devices|
      invariant 0 <= i <= |devices|
      invariant forall j :: 0 <= j < i ==> Similarity(cur.location, devices[j].lastKnownLocation, distance) <= 0.7
    {
      if Similarity(cur.location, devices[i].lastKnownLocation, distance) > 0.7 {
        return true;
      }
      i := i + 1;
    }
    return false;
  }
}
