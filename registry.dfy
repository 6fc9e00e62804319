/** `registerOrUpdateDevice`: builds a device record from an attempt and
    either appends it to the user's registered devices (a registration) or
    replaces the record with the given id in place (an update). The file
    read and write become the `UsersFile` object and a `storeOk` flag; the
    clock and the id generator become the `now` and `freshId` arguments. */
module Registry {
  import opened Common
  import opened Fingerprint
  import opened Records

  predicate IsRegistration(action: Action)
  {
    action == RegisterDevice || action == RegisterNewDevice
  }

  /** The `deviceInfo` record built for an attempt `data` against the user's devices. */
  function DeviceInfo(devices: seq<DeviceRecord>, data: DeviceData, action: Action,
                      deviceId: Option<string>, now: string, freshId: string): DeviceRecord
  {
    var prior := IndexOf(DeviceIds(devices), deviceId);
    DeviceRecord(
      id := if Present(deviceId) then deviceId.value else freshId,
      fingerprint := AttemptFingerprint(data),
      visitorId := data.visitorId,
      userAgent := data.userAgent,
      language := data.language,
      timezone := data.timezone,
      lastKnownIP := data.ip,
      lastKnownLocation := Some(data.place),
      registeredAt :=
        if action == RegisterDevice then Some(now)
        else if prior.Some? then devices[prior.value].registeredAt
        else None,
      lastSeenAt := Some(now),
      loginCount :=
        if action == RegisterDevice then 1
        else (if prior.Some? then devices[prior.value].loginCount else 0) + 1)
  }

  /** The user after the update protocol. */
  function UpdatedUser(user: User, data: DeviceData, action: Action, deviceId: Option<string>,
                       now: string, freshId: string): User
  {
    var devices := user.registeredDevices;
    var info := DeviceInfo(devices, data, action, deviceId, now, freshId);
    if IsRegistration(action) then
      user.(registeredDevices := devices + [info],
            securityProfile := user.securityProfile.(firstLoginCompleted := true))
    else if action == UpdateDeviceInfo then
      match IndexOf(DeviceIds(devices), deviceId)
      case Some(i) => user.(registeredDevices := devices[i := info])
      case None => user
    else user
  }

  /** The position of the user with id `userId` in the store, if any. */
  function UserIndex(users: seq<User>, userId: string): Option<nat>
  {
    IndexOf(UserIds(users), userId)
  }

  method RegisterOrUpdateDevice(store: UsersFile, userId: string, data: DeviceData, action: Action,
                                deviceId: Option<string>, now: string, freshId: string, storeOk: bool)
    returns (ok: bool)
    modifies store
    ensures ok <==> storeOk && UserIndex(old(store.users), userId).Some?
    ensures !ok ==> store.users == old(store.users)
    ensures ok ==> var i := UserIndex(old(store.users), userId).value;
      store.users == old(store.users)[i := UpdatedUser(old(store.users)[i], data, action, deviceId, now, freshId)]
  {
    if !storeOk {
      return false;
    }
    var userIndex := FindIndex(UserIds(store.users), userId);
    if userIndex.None? {
      return false;
    }
    var user := store.users[userIndex.value];
    var devices := user.registeredDevices;
    var deviceFingerprint := AttemptFingerprint(data);
    var prior := FindIndex(DeviceIds(devices), deviceId);
    var deviceInfo := DeviceRecord(
      id := if Present(deviceId) then deviceId.value else freshId,
      fingerprint := deviceFingerprint,
      visitorId := data.visitorId,
      userAgent := data.userAgent,
      language := data.language,
      timezone := data.timezone,
      lastKnownIP := data.ip,
      lastKnownLocation := Some(data.place),
      registeredAt :=
        if action == RegisterDevice then Some(now)
        else if prior.Some? then devices[prior.value].registeredAt
        else None,
      lastSeenAt := Some(now),
      loginCount :=
        if action == RegisterDevice then 1
        else (if prior.Some? then devices[prior.value].loginCount else 0) + 1);
    var profile := user.securityProfile;
    if action == RegisterDevice || action == RegisterNewDevice {
      devices := devices + [deviceInfo];
      profile := profile.(firstLoginCompleted := true);
    } else if action == UpdateDeviceInfo {
      var deviceIndex := FindIndex(DeviceIds(devices), deviceId);
      if deviceIndex.Some? {
        devices := devices[deviceIndex.value := deviceInfo];
      }
    }
    store.users := store.users[userIndex.value := user.(registeredDevices := devices, securityProfile := profile)];
    ok := true;
  }

  /** A registration appends exactly one record, carrying the attempt's
      fingerprint, keeps every earlier record and marks the first login done. */
  lemma RegistrationAppendsOne(user: User, data: DeviceData, action: Action, deviceId: Option<string>,
                               now: string, freshId: string)
    requires IsRegistration(action)
    ensures var u := UpdatedUser(user, data, action, deviceId, now, freshId);
      && |u.registeredDevices| == |user.registeredDevices| + 1
      && u.registeredDevices[..|user.registeredDevices|] == user.registeredDevices
      && u.registeredDevices[|user.registeredDevices|].fingerprint == AttemptFingerprint(data)
      && u.securityProfile.firstLoginCompleted
      && u.securityProfile.allowMultipleDevices == user.securityProfile.allowMultipleDevices
      && u.id == user.id && u.username == user.username && u.firstLoginData == user.firstLoginData
  {
    var u := UpdatedUser(user, data, action, deviceId, now, freshId);
    assert u.registeredDevices[..|user.registeredDevices|] == user.registeredDevices;
  }

  /** An update with the id of a registered device replaces that record
      alone, in place: the length and every other record are kept, the
      registration time is carried over and the login count goes up by one. */
  lemma UpdateReplacesInPlace(user: User, data: DeviceData, deviceId: Option<string>,
                              now: string, freshId: string, i: nat)
    requires i < |user.registeredDevices| && Some(user.registeredDevices[i].id) == deviceId
    requires forall j :: 0 <= j < i ==> Some(user.registeredDevices[j].id) != deviceId
    ensures var u := UpdatedUser(user, data, UpdateDeviceInfo, deviceId, now, freshId);
      && |u.registeredDevices| == |user.registeredDevices|
      && (forall j :: 0 <= j < |u.registeredDevices| && j != i ==> u.registeredDevices[j] == user.registeredDevices[j])
      && u.registeredDevices[i].fingerprint == AttemptFingerprint(data)
      && u.registeredDevices[i].registeredAt == user.registeredDevices[i].registeredAt
      && u.registeredDevices[i].loginCount == user.registeredDevices[i].loginCount + 1
      && u.registeredDevices[i].lastSeenAt == Some(now)
      && u.securityProfile == user.securityProfile
  {
    var ids := DeviceIds(user.registeredDevices);
    assert deviceId !in ids[..i] by {
      forall j | 0 <= j < i ensures ids[..i][j] != deviceId {
        assert ids[..i][j] == ids[j];
      }
    }
    assert IndexOf(ids, deviceId) == Some(i);
  }

  /** An update whose id matches no record, and any action other than a
      registration or an update, leaves the user as it was. */
  lemma NoMatchNoChange(user: User, data: DeviceData, action: Action, deviceId: Option<string>,
                        now: string, freshId: string)
    requires !IsRegistration(action)
    requires action == UpdateDeviceInfo ==> forall j :: 0 <= j < |user.registeredDevices| ==> Some(user.registeredDevices[j].id) != deviceId
    ensures UpdatedUser(user, data, action, deviceId, now, freshId) == user
  {
    if action == UpdateDeviceInfo {
      assert deviceId !in DeviceIds(user.registeredDevices);
    }
  }

  /** Only the literal `register_device` stamps the registration time and
      restarts the count; `register_new_device` with an id that matches no
      record leaves the registration time unset and counts one login. */
  lemma RegistrationTimestamps(devices: seq<DeviceRecord>, data: DeviceData, action: Action,
                               deviceId: Option<string>, now: string, freshId: string)
    ensures action == RegisterDevice ==>
      DeviceInfo(devices, data, action, deviceId, now, freshId).registeredAt == Some(now)
      && DeviceInfo(devices, data, action, deviceId, now, freshId).loginCount == 1
    ensures action != RegisterDevice && deviceId !in DeviceIds(devices) ==>
      DeviceInfo(devices, data, action, deviceId, now, freshId).registeredAt == None
      && DeviceInfo(devices, data, action, deviceId, now, freshId).loginCount == 1
  {
  }

  /** Record ids are unique within an account. */
  predicate IdsUnique(devices: seq<DeviceRecord>)
  {
    forall i, j :: 0 <= i < j < |devices| ==> devices[i].id != devices[j].id
  }

  /** Registration keeps ids unique when the new record's id is not in use;
      an update keeps them unique when the given id is a non-empty id
      (`deviceId || freshId` then keeps the replaced record's id). */
  lemma {:induction false} UpdateKeepsIdsUnique(user: User, data: DeviceData, action: Action,
                                                deviceId: Option<string>, now: string, freshId: string)
    requires IdsUnique(user.registeredDevices)
    requires IsRegistration(action) ==>
      var newId := if Present(deviceId) then deviceId.value else freshId;
      forall j :: 0 <= j < |user.registeredDevices| ==> user.registeredDevices[j].id != newId
    requires action == UpdateDeviceInfo ==> Present(deviceId)
    ensures IdsUnique(UpdatedUser(user, data, action, deviceId, now, freshId).registeredDevices)
  {
    var devices := user.registeredDevices;
    var u := UpdatedUser(user, data, action, deviceId, now, freshId);
    if IsRegistration(action) {
      assert u.registeredDevices == devices + [DeviceInfo(devices, data, action, deviceId, now, freshId)];
    } else if action == UpdateDeviceInfo {
      match IndexOf(DeviceIds(devices), deviceId)
      case Some(k) =>
        assert DeviceIds(devices)[k] == Some(devices[k].id);
        assert u.registeredDevices[k].id == devices[k].id;
      case None =>
    }
  }
}
