/** The strict login route: the same request checks, credential match and
    first-login snapshot as the baseline route, but any difference in `ip`,
    `country`, `city` or `visitor_id` from the snapshot blocks the login;
    there is no scoring. */
module StrictLogin {
  import opened Common
  import opened Records
  import B = BaselineLogin

  datatype Outcome =
    | MissingCredentials
    | MissingDeviceData
    | InvalidCredentials
    | FirstLoginRecorded(userId: string)
    | SnapshotNotSaved
    | Blocked(risks: seq<B.Difference>)
    | Accepted(userId: string)

  function Status(o: Outcome): int
  {
    match o
    case MissingCredentials => 400
    case MissingDeviceData => 400
    case InvalidCredentials => 401
    case FirstLoginRecorded(_) => 200
    case SnapshotNotSaved => 500
    case Blocked(_) => 403
    case Accepted(_) => 200
  }

  /** The response of the strict handler, the users read from the file being `users`. */
  function LoginOutcome(users: seq<User>, username: Option<string>, password: Option<string>,
                        deviceData: Option<Snapshot>, credentials: B.CredentialCheck, saveOk: bool): Outcome
  {
    if !Present(username) || !Present(password) then MissingCredentials
    else if deviceData.None? then MissingDeviceData
    else match B.UserIndex(users, credentials)
      case None => InvalidCredentials
      case Some(i) =>
        match users[i].firstLoginData
        case None => if saveOk then FirstLoginRecorded(users[i].id) else SnapshotNotSaved
        case Some(first) =>
          var risks := B.Differences(first, deviceData.value);
          if risks != [] then Blocked(risks) else Accepted(users[i].id)
  }

  /** The strict `/login` handler; it saves exactly what the baseline handler saves. */
  method Login(store: UsersFile, username: Option<string>, password: Option<string>, deviceData: Option<Snapshot>,
               credentials: B.CredentialCheck, now: string, readOk: bool, saveOk: bool) returns (o: Outcome)
    modifies store
    ensures o == LoginOutcome(if readOk then old(store.users) else [], username, password, deviceData, credentials, saveOk)
    ensures store.users == if readOk && saveOk
      then B.UsersAfterLogin(old(store.users), username, password, deviceData, credentials, now)
      else old(store.users)
  {
    if !Present(username) || !Present(password) {
      return MissingCredentials;
    }
    if deviceData.None? {
      return MissingDeviceData;
    }
    var users := if readOk then store.users else [];
    var userIndex := FindIndex(B.Matches(users, credentials), true);
    if userIndex.None? {
      return InvalidCredentials;
    }
    var user := users[userIndex.value];
    if user.firstLoginData.None? {
      users := users[userIndex.value := user.(firstLoginData := Some(B.FirstLoginSnapshot(deviceData.value, now)))];
      if saveOk {
        store.users := users;
        return FirstLoginRecorded(user.id);
      }
      return SnapshotNotSaved;
    }
    var isValid, risks := B.ValidateDeviceData(user.firstLoginData.value, deviceData.value);
    if !isValid {
      return Blocked(risks);
    }
    return Accepted(user.id);
  }

  /** A missing username or password is answered 400 before the device data is looked at. */
  lemma RequestChecksComeFirst(users: seq<User>, username: Option<string>, password: Option<string>,
                               deviceData: Option<Snapshot>, credentials: B.CredentialCheck, saveOk: bool)
    ensures !Present(username) || !Present(password) ==>
      LoginOutcome(users, username, password, deviceData, credentials, saveOk) == MissingCredentials
    ensures Present(username) && Present(password) && deviceData.None? ==>
      LoginOutcome(users, username, password, deviceData, credentials, saveOk) == MissingDeviceData
  {
  }

  /** For a user with a baseline, a single differing field blocks the login
      (403), and the login is validated exactly when all four fields agree. */
  lemma StrictDecision(users: seq<User>, username: Option<string>, password: Option<string>,
                       data: Snapshot, credentials: B.CredentialCheck, saveOk: bool, i: nat)
    requires Present(username) && Present(password)
    requires B.UserIndex(users, credentials) == Some(i) && users[i].firstLoginData.Some?
    ensures var o := LoginOutcome(users, username, password, Some(data), credentials, saveOk);
      && (o.Blocked? <==> exists f :: B.FieldValue(users[i].firstLoginData.value, f) != B.FieldValue(data, f))
      && (o == Accepted(users[i].id) <==> forall f :: B.FieldValue(users[i].firstLoginData.value, f) == B.FieldValue(data, f))
      && (o.Blocked? ==> o.risks == B.Differences(users[i].firstLoginData.value, data) && Status(o) == 403)
  {
    B.ValidIffAllEqual(users[i].firstLoginData.value, data);
  }

  /** Without a baseline the snapshot is stored and the login succeeds, whatever the device data. */
  lemma FirstLoginAlwaysSucceeds(users: seq<User>, username: Option<string>, password: Option<string>,
                                 data: Snapshot, credentials: B.CredentialCheck, i: nat)
    requires Present(username) && Present(password)
    requires B.UserIndex(users, credentials) == Some(i) && users[i].firstLoginData.None?
    ensures LoginOutcome(users, username, password, Some(data), credentials, true) == FirstLoginRecorded(users[i].id)
  {
  }

  /** The strict route validates exactly the logins the baseline route
      validates, and blocks every login the baseline route blocks. */
  lemma StrictIsStricterThanBaseline(users: seq<User>, username: Option<string>, password: Option<string>,
                                     deviceData: Option<Snapshot>, credentials: B.CredentialCheck, saveOk: bool)
    ensures var strict := LoginOutcome(users, username, password, deviceData, credentials, saveOk);
      var baseline := B.LoginOutcome(users, username, password, deviceData, credentials, saveOk);
      && (strict.Accepted? <==> baseline.Accepted?)
      && (baseline.Blocked? ==> strict.Blocked?)
      && (Status(strict) == 403 <==> baseline.Blocked? || baseline.AcceptedWithDifferences?)
  {
  }
}
