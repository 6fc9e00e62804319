/** The login route checked against the first-login baseline: the attempt's
    `ip`, `country`, `city` and `visitor_id` are compared with the snapshot
    saved at the account's first login, each differing field scores points
    (20, 30, 10, 40), and only a score above 70 blocks the login. The users
    file becomes the `UsersFile` object with `readOk`/`saveOk` flags for the
    file operations; the clock is the `now` argument; the credential match
    is the opaque `CredentialCheck` argument. */
module BaselineLogin {
  import opened Common
  import opened Records

  /** The critical fields, compared in this order. */
  datatype Field = Ip | Country | City | VisitorId

  const CriticalFields: seq<Field> := [Ip, Country, City, VisitorId]

  function Rank(f: Field): nat
  {
    match f
    case Ip => 0
    case Country => 1
    case City => 2
    case VisitorId => 3
  }

  function FieldValue(s: Snapshot, f: Field): Option<string>
  {
    match f
    case Ip => s.ip
    case Country => s.country
    case City => s.city
    case VisitorId => s.visitorId
  }

  /** One entry of `risks`: the differing field with its first-login and current values. */
  datatype Difference = Difference(field: Field, first: Option<string>, current: Option<string>)

  /** The entry `field` contributes: one when the two values differ. */
  function DifferenceAt(first: Snapshot, current: Snapshot, f: Field): seq<Difference>
  {
    if FieldValue(first, f) != FieldValue(current, f) then [Difference(f, FieldValue(first, f), FieldValue(current, f))]
    else []
  }

  /** The entries the `forEach` over `fields` pushes, in order. */
  function DifferencesOver(fields: seq<Field>, first: Snapshot, current: Snapshot): seq<Difference>
  {
    if fields == [] then []
    else DifferencesOver(fields[..|fields| - 1], first, current) + DifferenceAt(first, current, fields[|fields| - 1])
  }

  /** `validateDeviceData(...).risks` */
  function Differences(first: Snapshot, current: Snapshot): seq<Difference>
  {
    DifferencesOver(CriticalFields, first, current)
  }

  /** The four fields in their fixed order. */
  lemma DifferencesUnfold(first: Snapshot, current: Snapshot)
    ensures Differences(first, current) ==
      DifferenceAt(first, current, Ip) + DifferenceAt(first, current, Country)
      + DifferenceAt(first, current, City) + DifferenceAt(first, current, VisitorId)
  {
    var three: seq<Field> := [Ip, Country, City];
    var two: seq<Field> := [Ip, Country];
    var one: seq<Field> := [Ip];
    assert CriticalFields[..3] == three && three[..2] == two && two[..1] == one && one[..0] == [];
    assert DifferencesOver(one, first, current) == DifferenceAt(first, current, Ip);
    assert DifferencesOver(two, first, current) == DifferencesOver(one, first, current) + DifferenceAt(first, current, Country);
    assert DifferencesOver(three, first, current) == DifferencesOver(two, first, current) + DifferenceAt(first, current, City);
    assert Differences(first, current) == DifferencesOver(three, first, current) + DifferenceAt(first, current, VisitorId);
  }

  /** The baseline is valid exactly when none of the four fields differs. */
  lemma ValidIffAllEqual(first: Snapshot, current: Snapshot)
    ensures Differences(first, current) == [] <==> forall f :: FieldValue(first, f) == FieldValue(current, f)
  {
    DifferencesUnfold(first, current);
    var ip, country := DifferenceAt(first, current, Ip), DifferenceAt(first, current, Country);
    var city, visitor := DifferenceAt(first, current, City), DifferenceAt(first, current, VisitorId);
    assert |Differences(first, current)| == |ip| + |country| + |city| + |visitor|;
  }

  /** Every entry names a field that differs and carries both of its values. */
  lemma DifferencesAreExact(first: Snapshot, current: Snapshot)
    ensures var r := Differences(first, current);
      forall k :: 0 <= k < |r| ==>
        r[k].first == FieldValue(first, r[k].field) && r[k].current == FieldValue(current, r[k].field)
        && r[k].first != r[k].current
  {
    DifferencesUnfold(first, current);
  }

  /** Every field that differs has an entry. */
  lemma DifferencesAreComplete(first: Snapshot, current: Snapshot, f: Field)
    requires FieldValue(first, f) != FieldValue(current, f)
    ensures Difference(f, FieldValue(first, f), FieldValue(current, f)) in Differences(first, current)
  {
    DifferencesUnfold(first, current);
  }

  /** The entries follow the fixed order ip, country, city, visitor_id, so no field appears twice. */
  lemma DifferencesAreOrdered(first: Snapshot, current: Snapshot)
    ensures var r := Differences(first, current);
      forall i, j :: 0 <= i < j < |r| ==> Rank(r[i].field) < Rank(r[j].field)
  {
    DifferencesUnfold(first, current);
  }

  /** `validateDeviceData`: the `forEach` over the critical fields. */
  method ValidateDeviceData(first: Snapshot, current: Snapshot) returns (isValid: bool, risks: seq<Difference>)
    ensures risks == Differences(first, current)
    ensures isValid <==> |risks| == 0
  {
    risks := [];
    for i := 0 to |CriticalFields|
      invariant risks == DifferencesOver(CriticalFields[..i], first, current)
    {
      var field := CriticalFields[i];
      if FieldValue(first, field) != FieldValue(current, field) {
        risks := risks + [Difference(field, FieldValue(first, field), FieldValue(current, field))];
      }
      assert CriticalFields[..i + 1][..i] == CriticalFields[..i];
    }
    assert CriticalFields[..|CriticalFields|] == CriticalFields;
    isValid := |risks| == 0;
  }

  datatype Category = Baixo | Medio | Alto

  function FieldPoints(f: Field): int
  {
    match f
    case Ip => 20
    case Country => 30
    case City => 10
    case VisitorId => 40
  }

  function FieldCategory(f: Field): Category
  {
    match f
    case Ip => Medio
    case Country => Alto
    case City => Baixo
    case VisitorId => Alto
  }

  /** One entry of `riskDetails`. */
  datatype RiskDetail = RiskDetail(reason: Difference, points: int, category: Category)

  function Detail(d: Difference): RiskDetail
  {
    RiskDetail(d, FieldPoints(d.field), FieldCategory(d.field))
  }

  /** The sum of the points of `risks`. */
  function Score(risks: seq<Difference>): int
  {
    if risks == [] then 0 else Score(risks[..|risks| - 1]) + FieldPoints(risks[|risks| - 1].field)
  }

  /** `riskDetails`: one detail per risk, in the same order. */
  function Details(risks: seq<Difference>): (r: seq<RiskDetail>)
    ensures |r| == |risks| && forall k :: 0 <= k < |risks| ==> r[k] == Detail(risks[k])
  {
    seq(|risks|, k requires 0 <= k < |risks| => Detail(risks[k]))
  }

  /** The score of a concatenation is the sum of the scores. */
  lemma {:induction false} ScoreConcat(a: seq<Difference>, b: seq<Difference>)
    ensures Score(a + b) == Score(a) + Score(b)
    decreases |b|
  {
    if b == [] {
      assert a + b == a;
    } else {
      assert (a + b)[..|a + b| - 1] == a + b[..|b| - 1];
      ScoreConcat(a, b[..|b| - 1]);
    }
  }

  /** The score is 20 for a different IP, 30 for a different country, 10
      for a different city and 40 for a different visitor id. */
  lemma ScoreOfDifferences(first: Snapshot, current: Snapshot)
    ensures Score(Differences(first, current)) ==
      (if first.ip != current.ip then 20 else 0) + (if first.country != current.country then 30 else 0)
      + (if first.city != current.city then 10 else 0) + (if first.visitorId != current.visitorId then 40 else 0)
    ensures 0 <= Score(Differences(first, current)) <= 100
  {
    DifferencesUnfold(first, current);
    var ip := DifferenceAt(first, current, Ip);
    var country := DifferenceAt(first, current, Country);
    var city := DifferenceAt(first, current, City);
    var visitor := DifferenceAt(first, current, VisitorId);
    ScoreConcat(ip, country);
    ScoreConcat(ip + country, city);
    ScoreConcat(ip + country + city, visitor);
    assert Score(ip) == (if first.ip != current.ip then 20 else 0);
    assert Score(country) == (if first.country != current.country then 30 else 0);
    assert Score(city) == (if first.city != current.city then 10 else 0);
    assert Score(visitor) == (if first.visitorId != current.visitorId then 40 else 0);
  }

  /** The `forEach` over the risks accumulating `riskScore` and `riskDetails`. */
  method AssessRisks(risks: seq<Difference>) returns (riskScore: int, riskDetails: seq<RiskDetail>)
    ensures riskScore == Score(risks)
    ensures riskDetails == Details(risks)
  {
    riskScore := 0;
    riskDetails := [];
    for i := 0 to |risks|
      invariant riskScore == Score(risks[..i])
      invariant riskDetails == Details(risks[..i])
    {
      var points := FieldPoints(risks[i].field);
      riskScore := riskScore + points;
      riskDetails := riskDetails + [RiskDetail(risks[i], points, FieldCategory(risks[i].field))];
      assert risks[..i + 1][..i] == risks[..i];
    }
    assert risks[..|risks|] == risks;
  }

  /** `riskCategory`: above 70 alto, from 30 médio, otherwise baixo. */
  function CategoryOf(score: int): Category
  {
    if score > 70 then Alto else if score >= 30 then Medio else Baixo
  }

  /** A score above 70 needs both the visitor id and the country to differ,
      and at least one of the IP and the city as well. */
  lemma BlockedIff(first: Snapshot, current: Snapshot)
    ensures Score(Differences(first, current)) > 70 <==>
      first.visitorId != current.visitorId && first.country != current.country
      && (first.ip != current.ip || first.city != current.city)
  {
    ScoreOfDifferences(first, current);
  }

  /** The field's name as the messages spell it. */
  function FieldName(f: Field): string
  {
    match f
    case Ip => "ip"
    case Country => "country"
    case City => "city"
    case VisitorId => "visitor_id"
  }

  /** A value interpolated into a template literal: an absent one reads "undefined". */
  function Show(v: Option<string>): string
  {
    if v.Some? then v.value else "undefined"
  }

  /** "<field> diferente": the marker the handler looks for. */
  function Marker(f: Field): string
  {
    FieldName(f) + " diferente"
  }

  /** The message `validateDeviceData` pushes for a difference. */
  function Message(d: Difference): string
  {
    Marker(d.field) + " (primeiro: " + Show(d.first) + ", atual: " + Show(d.current) + ")"
  }

  /** The points the handler as written gives a message: the first of the
      markers "ip diferente", "country diferente", "city diferente",
      "visitor_id diferente" that occurs anywhere in it decides, values included. */
  function MessagePoints(message: string): int
  {
    if Contains(message, "ip diferente") then 20
    else if Contains(message, "country diferente") then 30
    else if Contains(message, "city diferente") then 10
    else if Contains(message, "visitor_id diferente") then 40
    else 5
  }

  /** The score the handler as written adds up over the messages. */
  function MessageScore(risks: seq<Difference>): int
  {
    if risks == [] then 0 else MessageScore(risks[..|risks| - 1]) + MessagePoints(Message(risks[|risks| - 1]))
  }

  lemma {:induction false} ContainsInfix(p: string, sub: string, q: string)
    ensures Contains(p + sub + q, sub)
  {
    if p == [] {
      assert p + sub + q == sub + q;
    } else {
      assert (p + sub + q)[1..] == p[1..] + sub + q;
      ContainsInfix(p[1..], sub, q);
    }
  }

  /** Every message carries its own field's marker. */
  lemma MessageCarriesItsMarker(d: Difference)
    ensures Contains(Message(d), Marker(d.field))
  {
    var m := Marker(d.field);
    assert m <= m + " (primeiro: ";
    assert m <= m + " (primeiro: " + Show(d.first);
    assert m <= m + " (primeiro: " + Show(d.first) + ", atual: ";
    assert m <= m + " (primeiro: " + Show(d.first) + ", atual: " + Show(d.current);
    assert m <= Message(d);
  }

  /** So the 5-point fallback is never reached: a message always scores 20, 30, 10 or 40. */
  lemma MessagePointsAreFieldPoints(d: Difference)
    ensures MessagePoints(Message(d)) in {20, 30, 10, 40}
  {
    MessageCarriesItsMarker(d);
    assert Marker(Ip) == "ip diferente";
    assert Marker(Country) == "country diferente";
    assert Marker(City) == "city diferente";
    assert Marker(VisitorId) == "visitor_id diferente";
  }

  /** The message text includes the values, and the request's values are the
      client's: a client whose IP, country and visitor id all differ from the
      baseline, and who sends "ip diferente" as its country and visitor id,
      is scored 60 by the handler as written, under the block threshold,
      where the field points give 90 and block. */
  lemma SpoofedValuesEscapeTheBlock(user: User, first: Snapshot, current: Snapshot)
    requires first.ip != current.ip && first.city == current.city
    requires current.country == Some("ip diferente") && current.visitorId == Some("ip diferente")
    requires first.country != current.country && first.visitorId != current.visitorId
    ensures MessageScore(Differences(first, current)) == 60
    ensures Score(Differences(first, current)) == 90
    ensures Assessment(user, first, current).Blocked?
  {
    DifferencesUnfold(first, current);
    ScoreOfDifferences(first, current);
    var ip := Difference(Ip, first.ip, current.ip);
    var country := Difference(Country, first.country, current.country);
    var visitor := Difference(VisitorId, first.visitorId, current.visitorId);
    var r := Differences(first, current);
    assert r == [ip, country, visitor];
    MessageCarriesItsMarker(ip);
    assert Marker(Ip) == "ip diferente";
    ContainsInfix(Marker(Country) + " (primeiro: " + Show(first.country) + ", atual: ", "ip diferente", ")");
    ContainsInfix(Marker(VisitorId) + " (primeiro: " + Show(first.visitorId) + ", atual: ", "ip diferente", ")");
    assert Message(country) == Marker(Country) + " (primeiro: " + Show(first.country) + ", atual: " + "ip diferente" + ")";
    assert Message(visitor) == Marker(VisitorId) + " (primeiro: " + Show(first.visitorId) + ", atual: " + "ip diferente" + ")";
    assert MessagePoints(Message(ip)) == 20;
    assert MessagePoints(Message(country)) == 20;
    assert MessagePoints(Message(visitor)) == 20;
    assert r[..2] == [ip, country] && r[..2][..1] == [ip] && r[..2][..1][..0] == [];
    assert MessageScore([ip]) == 20;
    assert MessageScore([ip, country]) == 40;
  }

  /** The plaintext credential match of a stored user against the request,
      not modelled further. */
  type CredentialCheck = User -> bool

  function Matches(users: seq<User>, credentials: CredentialCheck): (r: seq<bool>)
    ensures |r| == |users| && forall i :: 0 <= i < |users| ==> r[i] == credentials(users[i])
  {
    seq(|users|, i requires 0 <= i < |users| => credentials(users[i]))
  }

  /** The `findIndex` of the first user the credentials match. */
  function UserIndex(users: seq<User>, credentials: CredentialCheck): Option<nat>
  {
    IndexOf(Matches(users, credentials), true)
  }

  /** The first-login snapshot: the device data with the registration time set. */
  function FirstLoginSnapshot(data: Snapshot, now: string): Snapshot
  {
    data.(registeredAt := Some(now))
  }

  datatype Outcome =
    | MissingCredentials
    | MissingDeviceData
    | InvalidCredentials
    | FirstLoginRecorded(userId: string)
    | SnapshotNotSaved
    | Blocked(risks: seq<Difference>, riskScore: int, category: Category, details: seq<RiskDetail>)
    | AcceptedWithDifferences(userId: string, risks: seq<Difference>, riskScore: int, category: Category,
                              details: seq<RiskDetail>)
    | Accepted(userId: string)

  /** The HTTP status of each outcome. */
  function Status(o: Outcome): int
  {
    match o
    case MissingCredentials => 400
    case MissingDeviceData => 400
    case InvalidCredentials => 401
    case FirstLoginRecorded(_) => 200
    case SnapshotNotSaved => 500
    case Blocked(_, _, _, _) => 403
    case AcceptedWithDifferences(_, _, _, _, _) => 200
    case Accepted(_) => 200
  }

  /** `success` of the response body. */
  predicate Succeeded(o: Outcome)
  {
    o.FirstLoginRecorded? || o.AcceptedWithDifferences? || o.Accepted?
  }

  /** The comparison with the baseline, for a user that has one. */
  function Assessment(user: User, first: Snapshot, data: Snapshot): Outcome
  {
    var risks := Differences(first, data);
    if risks == [] then Accepted(user.id)
    else
      var score := Score(risks);
      if score > 70 then Blocked(risks, score, CategoryOf(score), Details(risks))
      else AcceptedWithDifferences(user.id, risks, score, CategoryOf(score), Details(risks))
  }

  /** The response of the login handler to a request, the users read from the file being `users`. */
  function LoginOutcome(users: seq<User>, username: Option<string>, password: Option<string>,
                        deviceData: Option<Snapshot>, credentials: CredentialCheck, saveOk: bool): Outcome
  {
    if !Present(username) || !Present(password) then MissingCredentials
    else if deviceData.None? then MissingDeviceData
    else match UserIndex(users, credentials)
      case None => InvalidCredentials
      case Some(i) =>
        match users[i].firstLoginData
        case None => if saveOk then FirstLoginRecorded(users[i].id) else SnapshotNotSaved
        case Some(first) => Assessment(users[i], first, deviceData.value)
  }

  /** The users as the handler would save them: the matched user's
      snapshot is set on a first login, nothing changes otherwise. */
  function UsersAfterLogin(users: seq<User>, username: Option<string>, password: Option<string>,
                           deviceData: Option<Snapshot>, credentials: CredentialCheck, now: string): seq<User>
  {
    if !Present(username) || !Present(password) || deviceData.None? then users
    else match UserIndex(users, credentials)
      case None => users
      case Some(i) =>
        if users[i].firstLoginData.None? then
          users[i := users[i].(firstLoginData := Some(FirstLoginSnapshot(deviceData.value, now)))]
        else users
  }

  /** The `/login` handler. */
  method Login(store: UsersFile, username: Option<string>, password: Option<string>, deviceData: Option<Snapshot>,
               credentials: CredentialCheck, now: string, readOk: bool, saveOk: bool) returns (o: Outcome)
    modifies store
    ensures o == LoginOutcome(if readOk then old(store.users) else [], username, password, deviceData, credentials, saveOk)
    ensures store.users == if readOk && saveOk
      then UsersAfterLogin(old(store.users), username, password, deviceData, credentials, now)
      else old(store.users)
  {
    if !Present(username) || !Present(password) {
      return MissingCredentials;
    }
    if deviceData.None? {
      return MissingDeviceData;
    }
    var users := if readOk then store.users else [];
    var userIndex := FindIndex(Matches(users, credentials), true);
    if userIndex.None? {
      return InvalidCredentials;
    }
    var user := users[userIndex.value];
    if user.firstLoginData.None? {
      users := users[userIndex.value := user.(firstLoginData := Some(FirstLoginSnapshot(deviceData.value, now)))];
      if saveOk {
        store.users := users;
        return FirstLoginRecorded(user.id);
      }
      return SnapshotNotSaved;
    }
    var first := user.firstLoginData.value;
    var isValid, risks := ValidateDeviceData(first, deviceData.value);
    if !isValid {
      var riskScore, riskDetails := AssessRisks(risks);
      var riskCategory := Baixo;
      if riskScore > 70 {
        riskCategory := Alto;
      } else if riskScore >= 30 {
        riskCategory := Medio;
      }
      if riskScore > 70 {
        return Blocked(risks, riskScore, riskCategory, riskDetails);
      }
      return AcceptedWithDifferences(user.id, risks, riskScore, riskCategory, riskDetails);
    }
    return Accepted(user.id);
  }

  /** A missing username or password is answered 400 before anything else,
      whatever the device data; a missing device data is answered 400 next. */
  lemma RequestChecksComeFirst(users: seq<User>, username: Option<string>, password: Option<string>,
                               deviceData: Option<Snapshot>, credentials: CredentialCheck, saveOk: bool)
    ensures !Present(username) || !Present(password) ==>
      LoginOutcome(users, username, password, deviceData, credentials, saveOk) == MissingCredentials
    ensures Present(username) && Present(password) && deviceData.None? ==>
      LoginOutcome(users, username, password, deviceData, credentials, saveOk) == MissingDeviceData
    ensures Status(LoginOutcome(users, username, password, deviceData, credentials, saveOk)) == 400 <==>
      !Present(username) || !Present(password) || deviceData.None?
  {
  }

  /** Credentials that match no user are answered 401. */
  lemma UnknownCredentialsAreRejected(users: seq<User>, username: Option<string>, password: Option<string>,
                                      data: Snapshot, credentials: CredentialCheck, saveOk: bool)
    requires Present(username) && Present(password)
    requires forall i :: 0 <= i < |users| ==> !credentials(users[i])
    ensures LoginOutcome(users, username, password, Some(data), credentials, saveOk) == InvalidCredentials
  {
    assert true !in Matches(users, credentials);
  }

  /** A first login stores the snapshot on the matched user alone, and is
      never compared with anything, whatever the device data. */
  lemma FirstLoginStoresSnapshot(users: seq<User>, username: Option<string>, password: Option<string>,
                                 data: Snapshot, credentials: CredentialCheck, now: string, i: nat)
    requires Present(username) && Present(password)
    requires UserIndex(users, credentials) == Some(i) && users[i].firstLoginData.None?
    ensures LoginOutcome(users, username, password, Some(data), credentials, true) == FirstLoginRecorded(users[i].id)
    ensures LoginOutcome(users, username, password, Some(data), credentials, false) == SnapshotNotSaved
    ensures var after := UsersAfterLogin(users, username, password, Some(data), credentials, now);
      && |after| == |users|
      && after[i] == users[i].(firstLoginData := Some(data.(registeredAt := Some(now))))
      && forall j :: 0 <= j < |users| && j != i ==> after[j] == users[j]
  {
  }

  /** Only a first login changes the users. */
  lemma OnlyFirstLoginWrites(users: seq<User>, username: Option<string>, password: Option<string>,
                             deviceData: Option<Snapshot>, credentials: CredentialCheck, now: string)
    requires !LoginOutcome(users, username, password, deviceData, credentials, true).FirstLoginRecorded?
    ensures UsersAfterLogin(users, username, password, deviceData, credentials, now) == users
  {
  }

  /** For a user with a baseline, the login is blocked (403) exactly when the
      visitor id and the country differ together with the IP or the city;
      it succeeds unvalidated on any other difference and validated when
      nothing differs. */
  lemma BaselineDecision(user: User, first: Snapshot, data: Snapshot)
    ensures Assessment(user, first, data).Blocked? <==>
      first.visitorId != data.visitorId && first.country != data.country
      && (first.ip != data.ip || first.city != data.city)
    ensures Assessment(user, first, data) == Accepted(user.id) <==> forall f :: FieldValue(first, f) == FieldValue(data, f)
    ensures Assessment(user, first, data).AcceptedWithDifferences? <==>
      Differences(first, data) != [] && Score(Differences(first, data)) <= 70
  {
    BlockedIff(first, data);
    ValidIffAllEqual(first, data);
  }

  /** A blocked login reports category alto, and an accepted one with
      differences baixo or médio, with the score of its risk list. */
  lemma OutcomeCategories(user: User, first: Snapshot, data: Snapshot)
    ensures Assessment(user, first, data).Blocked? ==> Assessment(user, first, data).category == Alto
    ensures Assessment(user, first, data).AcceptedWithDifferences? ==>
      Assessment(user, first, data).category != Alto
      && (Assessment(user, first, data).category == Medio <==> Assessment(user, first, data).riskScore >= 30)
  {
  }
}
