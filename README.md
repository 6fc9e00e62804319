# Login risk engine: a Dafny model

This project models the server-side login risk decisions of the FiapChallenge
application.

- **Current engine** (`deviceValidation.js`). `analyzeLoginRisk` scores a login
  attempt against the devices already registered to the account. It turns the
  score into a risk level and an action. Its helpers are modelled too:
  - the banded location similarity;
  - the `'unknown'`-defaulted device fingerprint;
  - `registerOrUpdateDevice`, which appends a device record or replaces one in
    place.
- **Older engine** (`Back-deviceValidation.js`). It has its own scoring and
  thresholds. Its similarity, fingerprint and `registerOrUpdateDevice` are
  text-identical to those of the current engine, so both engines share one
  model of them.
- **Baseline login route** (`auth.routes.js`). It compares the attempt's `ip`,
  `country`, `city` and `visitor_id` with the snapshot saved at the account's
  first login. Each difference scores points, and a login is blocked only above
  70.
- **Strict login route** (`auth.routes.new.js`). Any difference blocks the
  login.
- **`/identity/verify`** (`Back-index.js`). It climbs an action/score/reason
  ladder over the user's saved first-login data.

Modules:

| module | file | models |
|---|---|---|
| `Common` | `common.dfy` | Options, JS string truthiness, ASCII lower-casing and `includes`, `find`/`findIndex` |
| `Fingerprint` | `fingerprint.dfy` | `generateDeviceFingerprint`, the digest taken as the joined string |
| `Geo` | `geo.dfy` | `calculateLocationSimilarity`, with the distance as a function parameter |
| `Records` | `records.dfy` | device data, device records, security profiles, first-login snapshots, users, the users file (a class), the decision vocabulary |
| `Registry` | `registry.dfy` | `registerOrUpdateDevice` |
| `RiskEngine` | `risk_engine.dfy` | the current `analyzeLoginRisk` |
| `LegacyRiskEngine` | `legacy_risk_engine.dfy` | the older `analyzeLoginRisk` |
| `BaselineLogin` | `baseline_login.dfy` | `validateDeviceData` and the scored `/login` handler |
| `StrictLogin` | `strict_login.dfy` | the strict `/login` handler |
| `IdentityVerify` | `identity_verify.dfy` | the `/identity/verify` handler |

The imperative parts of the source are written as methods:

- the pushes onto `risks` and the `riskScore +=` steps;
- the `reduce` and `some` loops;
- the `forEach` in `validateDeviceData`;
- the handler writing `users[userIndex].firstLoginData`;
- the in-place update of the users list.

Each method is proved equal to a specification function. The source's promises
are then proved about those functions as lemmas.

Each tag carries the points that its `risks.push` line in the current engine
adds (`RiskEngine.Weight`). The current engine's score is proved to be the sum
of its tags' weights. The one exception is the mobile/desktop switch, which adds
10 points with no tag. The older engine's points differ from those weights. For
example, it adds 30 for `location_change` where the current engine adds 5. Its
scores are stated directly instead.

`deviceValidation.js` does not parse as written. Calls to a local
`debugRiskSum` are spliced into the middle of statements and object literals, at
lines 203-268. One of them sits between an `if`/`else if` and its `else`. The
model reads the file with those calls removed. It therefore takes the unknown
device's action to be the same 30/70 threshold action as the known device's.

## Model

All paths are under `FiapChallenge-main/app/src/`; the table gives them in full.

| member | source | states |
|---|---|---|
| Common.FindIndex | FiapChallenge-main/app/src/middlewares/deviceValidation.js:232-233 | The `findIndex` loop returns the first index whose key equals the one sought, or none exactly when no key matches |
| Fingerprint.OrUnknown | FiapChallenge-main/app/src/middlewares/deviceValidation.js:46 | Defaulting gives the field itself when it is a non-empty string, and `'unknown'` when it is absent or empty; never empty |
| Fingerprint.OrUnknownIdempotent | FiapChallenge-main/app/src/middlewares/Back-index.js:34-47 | Defaulting an already defaulted field changes nothing |
| Fingerprint.AbsentFieldIsUnknown | FiapChallenge-main/app/src/middlewares/deviceValidation.js:45-48 | An absent field, an empty field and the literal `'unknown'` give the same fingerprint |
| Fingerprint.EachFieldChangesDigest | FiapChallenge-main/app/src/middlewares/deviceValidation.js:45-48 | Changing any one of the four fields, after defaulting, while the others are fixed, changes the fingerprint |
| Fingerprint.DelimiterInFieldsCollides | FiapChallenge-main/app/src/middlewares/deviceValidation.js:46 | Joining with an unescaped `_` collides: visitor `a_b` with agent `c` and visitor `a` with agent `b_c` share a fingerprint |
| Geo.DistanceBand | FiapChallenge-main/app/src/middlewares/deviceValidation.js:23-26 | The distance band is one of 1.0, 0.8, 0.6, 0.2 |
| Geo.Similarity | FiapChallenge-main/app/src/middlewares/deviceValidation.js:6-30 | Similarity lies in [0,1] and takes only the values 0, 0.1, 0.2, 0.3, 0.6, 0.8, 1.0; it is 0 exactly when a location is missing |
| Geo.BandIsMonotone | FiapChallenge-main/app/src/middlewares/deviceValidation.js:22-26 | A greater distance never gives a higher band |
| Geo.SimilarityIsSymmetric | FiapChallenge-main/app/src/middlewares/deviceValidation.js:6-30 | For a symmetric distance, similarity does not depend on the order of the two locations |
| Geo.SamePlaceIsFullySimilar | FiapChallenge-main/app/src/middlewares/deviceValidation.js:13-29 | A location compared with itself (distance to itself at most 50 km when it has coordinates) has similarity 1.0 |
| Geo.BelowHalfIff | FiapChallenge-main/app/src/middlewares/deviceValidation.js:7-26 | Similarity is below 0.5 exactly when a location is missing, the country code or city differs, or both have coordinates more than 200 km apart |
| Geo.AboveSevenTenthsIff | FiapChallenge-main/app/src/middlewares/deviceValidation.js:7-29 | Similarity exceeds 0.7 exactly when both locations exist with the same country code and city and, if both have coordinates, lie at most 100 km apart |
| Records.FindKnownLocation | FiapChallenge-main/app/src/middlewares/deviceValidation.js:193-196 | The `some` loop answers true exactly when some registered device's last location is more than 0.7 similar to the attempt's |
| Registry.RegisterOrUpdateDevice | FiapChallenge-main/app/src/middlewares/deviceValidation.js:227-282 | Succeeds exactly when the store is usable and the user id exists; on failure nothing changes; on success only that user is replaced, by its updated value |
| Registry.RegistrationAppendsOne | FiapChallenge-main/app/src/middlewares/deviceValidation.js:265-267 | A register action appends exactly one record, carrying the attempt's fingerprint, keeps the earlier records and the allow-multiple flag, and sets `firstLoginCompleted` |
| Registry.UpdateReplacesInPlace | FiapChallenge-main/app/src/middlewares/deviceValidation.js:269-273 | `update_device_info` with a registered id replaces the first record with that id alone: the length and other records are kept, the registration time is carried over, the login count goes up by one and `lastSeenAt` is now |
| Registry.NoMatchNoChange | FiapChallenge-main/app/src/middlewares/deviceValidation.js:265-274 | An update whose id matches no record, and any other non-register action, leaves the user unchanged |
| Registry.RegistrationTimestamps | FiapChallenge-main/app/src/middlewares/deviceValidation.js:258-261 | Only the literal `register_device` stamps `registeredAt` with now and restarts the count at 1; another action with an unknown id leaves `registeredAt` unset and counts one login |
| Registry.UpdateKeepsIdsUnique | FiapChallenge-main/app/src/middlewares/deviceValidation.js:241-273 | Record ids stay unique after a registration with an unused id and after an update with a non-empty id |
| RiskEngine.LevelAndActionAgree | FiapChallenge-main/app/src/middlewares/deviceValidation.js:166-167 | low ⇔ allow ⇔ score < 30; medium ⇔ review ⇔ 30 ≤ score < 70; high or critical ⇔ deny ⇔ score ≥ 70; critical ⇔ score ≥ 100 |
| RiskEngine.MobileSwitch | FiapChallenge-main/app/src/middlewares/deviceValidation.js:99-102 | The mobile/desktop switch adds 0 or 10, and 0 whenever the agent did not change from the known device's |
| RiskEngine.UserAgentRisk | FiapChallenge-main/app/src/middlewares/deviceValidation.js:93-111 | The user-agent points lie in 0..60 and are 0 exactly when the agent neither changed nor looks automated |
| RiskEngine.UserAgentRisks | FiapChallenge-main/app/src/middlewares/deviceValidation.js:95-111 | The user-agent checks push at most two tags |
| RiskEngine.UserAgentTags | FiapChallenge-main/app/src/middlewares/deviceValidation.js:95-111 | `user_agent_change` is pushed iff the known device's agent differs; `user_agent_suspicious` iff the lower-cased agent contains `headless` or `bot`; nothing else |
| RiskEngine.ResponseRisk | FiapChallenge-main/app/src/middlewares/deviceValidation.js:113-126 | Response-time points lie in 0..30: 30 exactly when under 50 ms, 0 exactly when absent or within 50..2000 ms |
| RiskEngine.ResponseRisks | FiapChallenge-main/app/src/middlewares/deviceValidation.js:113-126 | The response-time check pushes at most one tag |
| RiskEngine.ResponseTags | FiapChallenge-main/app/src/middlewares/deviceValidation.js:113-126 | The tag is `automation_suspected` under 50 ms, else `slow_response` over 5000, else `inconsistent_response` over 2000, else none; each case both ways |
| RiskEngine.PasswordRisk | FiapChallenge-main/app/src/middlewares/deviceValidation.js:128-138 | Password points lie in 0..30 and are 0 exactly when no score is given or it is at least 0.6 |
| RiskEngine.PasswordRisks | FiapChallenge-main/app/src/middlewares/deviceValidation.js:128-138 | The password check pushes at most one tag |
| RiskEngine.PasswordTags | FiapChallenge-main/app/src/middlewares/deviceValidation.js:128-138 | `weak_password` under 0.3, `medium_password` in 0.3..0.6, none otherwise; each case both ways |
| RiskEngine.ActionRisk | FiapChallenge-main/app/src/middlewares/deviceValidation.js:140-145 | The critical action adds 30 exactly when the action type is `critical`, else 0 |
| RiskEngine.ActionRisks | FiapChallenge-main/app/src/middlewares/deviceValidation.js:140-145 | The action check pushes at most one tag |
| RiskEngine.ActionTags | FiapChallenge-main/app/src/middlewares/deviceValidation.js:140-145 | `critical_action` is pushed exactly when the action type is `critical` |
| RiskEngine.ChecksAreSingleSteps | FiapChallenge-main/app/src/middlewares/deviceValidation.js:113-145 | Each response, password, action and similarity check pushes at most one tag and adds exactly that tag's points |
| RiskEngine.SharedRisk | FiapChallenge-main/app/src/middlewares/deviceValidation.js:93-145 | The signals common to both branches add 0..150 points |
| RiskEngine.SharedRisks | FiapChallenge-main/app/src/middlewares/deviceValidation.js:93-145 | The common signals push at most five tags |
| RiskEngine.SingleStepIsWeighted | FiapChallenge-main/app/src/middlewares/deviceValidation.js:113-145 | A check that pushes at most one tag and adds that tag's points adds the weight of what it pushed |
| RiskEngine.UserAgentRiskIsWeighted | FiapChallenge-main/app/src/middlewares/deviceValidation.js:93-111 | User-agent points are the weight of the pushed tags plus the untagged mobile switch |
| RiskEngine.SharedRiskIsWeighted | FiapChallenge-main/app/src/middlewares/deviceValidation.js:93-145 | The common points are the weight of the common tags plus the mobile switch |
| RiskEngine.KnownDeviceRiskIsWeighted | FiapChallenge-main/app/src/middlewares/deviceValidation.js:150-162 | The known-device points are the weight of the known-device tags |
| RiskEngine.UnknownDeviceRiskIsWeighted | FiapChallenge-main/app/src/middlewares/deviceValidation.js:176-204 | The unknown-device points are the weight of the unknown-device tags |
| RiskEngine.KnownDeviceRisk | FiapChallenge-main/app/src/middlewares/deviceValidation.js:148-162 | Country change, location change and IP change add 0..55 points, and 0 exactly when none happened |
| RiskEngine.KnownDeviceRisks | FiapChallenge-main/app/src/middlewares/deviceValidation.js:148-162 | The known-device checks push at most three tags |
| RiskEngine.KnownDeviceTags | FiapChallenge-main/app/src/middlewares/deviceValidation.js:150-162 | `country_change`, `location_change` and `ip_change` are each pushed exactly when that change happened |
| RiskEngine.KnownDeviceVerdict | FiapChallenge-main/app/src/middlewares/deviceValidation.js:148-174 | The known-device result carries the device id; it keeps the common tags as a prefix and adds at most three; its score is the common points plus the weight of the added tags; `country_change`, `location_change` and `ip_change` are added each exactly when that change happened; level and action follow the score |
| RiskEngine.KnownDeviceDecision | FiapChallenge-main/app/src/middlewares/deviceValidation.js:148-174 | On a known device the result carries its id, and level and action both follow the score |
| RiskEngine.KnownDeviceScore | FiapChallenge-main/app/src/middlewares/deviceValidation.js:86-91 | The known-device score is 30·country change + 5·[similarity < 0.5] + 20·[IP changed] + the common signals, and is at least 0 |
| RiskEngine.CountryChangeIsNeverAllowed | FiapChallenge-main/app/src/middlewares/deviceValidation.js:150-157 | A country change on a known device forces similarity 0.1, scores at least 35 and is never allowed |
| RiskEngine.KnownDeviceScoreIsWeighted | FiapChallenge-main/app/src/middlewares/deviceValidation.js:148-164 | A known device's score is the weight of its tags plus the mobile switch |
| RiskEngine.UnknownDeviceScoreIsWeighted | FiapChallenge-main/app/src/middlewares/deviceValidation.js:176-206 | An unknown device's score is the weight of its tags |
| RiskEngine.FingerprintSimilarity | FiapChallenge-main/app/src/middlewares/deviceValidation.js:72-80 | The `reduce` yields the maximum over registered devices of 0.5·[same agent] + 0.3·[same language], 0 with none, within 0..0.8 |
| RiskEngine.SimilarityRisk | FiapChallenge-main/app/src/middlewares/deviceValidation.js:180-186 | Fingerprint similarity subtracts 0..20 points, and nothing exactly when the similarity is not positive |
| RiskEngine.SimilarityRisks | FiapChallenge-main/app/src/middlewares/deviceValidation.js:180-186 | The similarity check pushes at most one tag |
| RiskEngine.SimilarityTags | FiapChallenge-main/app/src/middlewares/deviceValidation.js:180-186 | `similar_fingerprint` at ≥ 0.5, `partially_similar_fingerprint` above 0, none at 0; each case both ways |
| RiskEngine.UnknownDeviceRisk | FiapChallenge-main/app/src/middlewares/deviceValidation.js:176-204 | The unknown-device points lie in 20..130 |
| RiskEngine.UnknownDeviceRisks | FiapChallenge-main/app/src/middlewares/deviceValidation.js:176-204 | The unknown-device checks push two to four tags |
| RiskEngine.UnknownDeviceTags | FiapChallenge-main/app/src/middlewares/deviceValidation.js:177-204 | `unknown_device` comes first; `multiple_devices_not_allowed` iff the profile allows only one device; `plausible_location` iff a known location exists, else `unknown_location` |
| RiskEngine.UnknownDeviceVerdict | FiapChallenge-main/app/src/middlewares/deviceValidation.js:176-222 | The unknown-device result has no device id; it keeps the common tags as a prefix and adds two to four, `unknown_device` first; its score is the common points plus the weight of the added tags; `multiple_devices_not_allowed` is added exactly when only one device is allowed, `plausible_location` exactly when a known location exists and `unknown_location` exactly when none does; level and action follow the score |
| RiskEngine.UnknownDeviceDecision | FiapChallenge-main/app/src/middlewares/deviceValidation.js:176-223 | The unknown-device score is 50 − 20/10 for similarity + 50 when only one device is allowed, + 30 or − 10 for the location, + the common signals; it is at least 20, has no device id and contains `unknown_device` |
| RiskEngine.Analysis | FiapChallenge-main/app/src/middlewares/deviceValidation.js:51-224 | A device id is returned exactly when the attempt's fingerprint is registered; the score is never negative; with a registry, level and action follow the score |
| RiskEngine.AnalysisScoreIsWeighted | FiapChallenge-main/app/src/middlewares/deviceValidation.js:148-222 | The score is between the weight of the returned tags and that weight plus 10, and equals it on an unknown device |
| RiskEngine.EmptyRegistryIsFirstLogin | FiapChallenge-main/app/src/middlewares/deviceValidation.js:58-65 | With no registered device the result is low, 0, [`first_login`], `register_device`, whatever the attempt or profile |
| RiskEngine.MatchedDeviceIsFirst | FiapChallenge-main/app/src/middlewares/deviceValidation.js:68-69 | The device judged known is the first registered device with the attempt's fingerprint |
| RiskEngine.UnmatchedAttemptIsUnknown | FiapChallenge-main/app/src/middlewares/deviceValidation.js:73-80 | When no registered fingerprint matches, the unknown-device branch decides |
| RiskEngine.AnalysisActions | FiapChallenge-main/app/src/middlewares/deviceValidation.js:209-215 | The action is one of allow, review, deny, `register_device`, and `register_device` exactly when the registry is empty |
| RiskEngine.SingleDevicePolicyDeniesNewDevices | FiapChallenge-main/app/src/middlewares/deviceValidation.js:188-191 | An unregistered device on a single-device account scores at least 70 and is denied |
| RiskEngine.CountryChangeOnKnownDeviceIsNeverAllowed | FiapChallenge-main/app/src/middlewares/deviceValidation.js:86-91 | Through the whole analysis, a recognised device reporting a new country is never allowed |
| RiskEngine.QuietAttemptAddsNothing | FiapChallenge-main/app/src/middlewares/deviceValidation.js:93-145 | An attempt with an unchanged, ordinary agent, a plausible response time, a strong or absent password score and a non-critical action adds no points and no tags |
| RiskEngine.QuietKnownDeviceIsAllowed | FiapChallenge-main/app/src/middlewares/deviceValidation.js:148-174 | Such an attempt on a known device, from its last IP, in a place at least half similar, scores 0: low, allow |
| RiskEngine.IpChangeAloneIsAllowed | FiapChallenge-main/app/src/middlewares/deviceValidation.js:159-167 | The same attempt from a new IP scores 20: low, allow |
| RiskEngine.AutomatedCriticalActionIsDenied | FiapChallenge-main/app/src/middlewares/deviceValidation.js:113-167 | On a familiar known device, a 30 ms response, a 0.2 password score and a critical action score 90: high, deny |
| RiskEngine.UnfamiliarDeviceIsDenied | FiapChallenge-main/app/src/middlewares/deviceValidation.js:176-215 | A quiet attempt from an unregistered device sharing neither agent nor language, in no known location, scores 80 even on a multi-device account: high, deny |
| RiskEngine.ComputeFingerprintSimilarity | FiapChallenge-main/app/src/middlewares/deviceValidation.js:74-79 | The `reduce` loop computes the fingerprint similarity |
| RiskEngine.PushUserAgentRisks | FiapChallenge-main/app/src/middlewares/deviceValidation.js:94-111 | The user-agent steps append the user-agent tags to `risks` and compute the user-agent points |
| RiskEngine.PushResponseRisk | FiapChallenge-main/app/src/middlewares/deviceValidation.js:114-126 | The response-time steps append its tag and compute its points |
| RiskEngine.PushPasswordRisk | FiapChallenge-main/app/src/middlewares/deviceValidation.js:129-138 | The password steps append its tag and compute its points |
| RiskEngine.PushActionRisk | FiapChallenge-main/app/src/middlewares/deviceValidation.js:141-145 | The critical-action steps append its tag and compute its points |
| RiskEngine.PushSharedRisks | FiapChallenge-main/app/src/middlewares/deviceValidation.js:93-145 | The common steps leave `risks` holding the common tags and sum the common points |
| RiskEngine.PushKnownDeviceRisks | FiapChallenge-main/app/src/middlewares/deviceValidation.js:150-162 | The known-device steps append the branch tags and compute the branch points |
| RiskEngine.PushUnknownDeviceRisks | FiapChallenge-main/app/src/middlewares/deviceValidation.js:177-204 | The unknown-device steps, including the `some` location search, append the branch tags and compute the branch points |
| RiskEngine.DecideKnownDevice | FiapChallenge-main/app/src/middlewares/deviceValidation.js:148-174 | The known-device branch returns the known-device verdict |
| RiskEngine.DecideUnknownDevice | FiapChallenge-main/app/src/middlewares/deviceValidation.js:175-223 | The unknown-device branch returns the unknown-device verdict |
| RiskEngine.AnalyzeLoginRisk | FiapChallenge-main/app/src/middlewares/deviceValidation.js:51-224 | `analyzeLoginRisk`, step by step, returns the analysis |
| RiskEngine.RegisteredDeviceIsRecognised | FiapChallenge-main/app/src/middlewares/deviceValidation.js:265-266 | After a device is registered from an attempt, the same attempt is recognised as a known device |
| LegacyRiskEngine.KnownDeviceRisk | FiapChallenge-main/app/src/middlewares/Back-deviceValidation.js:78-87 | The older known-device score is in {0, 20, 30, 50}, and 0 exactly when neither location nor IP changed |
| LegacyRiskEngine.KnownDeviceRisks | FiapChallenge-main/app/src/middlewares/Back-deviceValidation.js:78-87 | At most two tags |
| LegacyRiskEngine.KnownDeviceDecision | FiapChallenge-main/app/src/middlewares/Back-deviceValidation.js:71-95 | A known device gets its id, a score in {0, 20, 30, 50} that is 0 exactly when neither location nor IP changed, always `update_device_info`, never critical; low exactly without a location change, high exactly when both location and IP changed |
| LegacyRiskEngine.KnownDeviceTags | FiapChallenge-main/app/src/middlewares/Back-deviceValidation.js:78-87 | `location_change` iff similarity < 0.5, `ip_change` iff the IP changed, nothing else |
| LegacyRiskEngine.UnknownDeviceRisk | FiapChallenge-main/app/src/middlewares/Back-deviceValidation.js:96-119 | The older unknown-device score is in {50, 80, 100, 130}, and 50 exactly when several devices are allowed and a known location exists |
| LegacyRiskEngine.UnknownDeviceRisks | FiapChallenge-main/app/src/middlewares/Back-deviceValidation.js:96-119 | One to three tags, `unknown_device` first |
| LegacyRiskEngine.UnknownDeviceDecision | FiapChallenge-main/app/src/middlewares/Back-deviceValidation.js:96-127 | An unknown device gets no id and a score in {50, 80, 100, 130}; the level is high or critical, and the action `register_new_device` or `block_login`; the score is 50, the level high and the action `register_new_device`, each exactly when several devices are allowed and some registered device was last seen more than 0.7 similar |
| LegacyRiskEngine.UnknownDeviceTags | FiapChallenge-main/app/src/middlewares/Back-deviceValidation.js:98-119 | `unknown_device` always; `multiple_devices_not_allowed` iff only one device is allowed; `unknown_location` iff no known location |
| LegacyRiskEngine.Analysis | FiapChallenge-main/app/src/middlewares/Back-deviceValidation.js:51-128 | A device id is returned exactly when the attempt's fingerprint is registered; the score is never negative |
| LegacyRiskEngine.EmptyRegistryIsFirstLogin | FiapChallenge-main/app/src/middlewares/Back-deviceValidation.js:55-63 | With no registered device the result is low, 0, [`first_login`], `register_device` |
| LegacyRiskEngine.AnalysisActions | FiapChallenge-main/app/src/middlewares/Back-deviceValidation.js:66-127 | The action is one of `register_device`, `update_device_info`, `register_new_device`, `block_login`; `register_device` iff the registry is empty, `update_device_info` iff the device is known |
| LegacyRiskEngine.BothEnginesRefuseNewDevices | FiapChallenge-main/app/src/middlewares/Back-deviceValidation.js:102-105 | An unregistered device on a single-device account is blocked by the older engine and denied by the current one |
| LegacyRiskEngine.DecideKnownDevice | FiapChallenge-main/app/src/middlewares/Back-deviceValidation.js:71-95 | The known-device steps return the known-device decision |
| LegacyRiskEngine.DecideUnknownDevice | FiapChallenge-main/app/src/middlewares/Back-deviceValidation.js:96-127 | The unknown-device steps, with the `some` search, return the unknown-device decision |
| LegacyRiskEngine.AnalyzeLoginRisk | FiapChallenge-main/app/src/middlewares/Back-deviceValidation.js:51-128 | The older `analyzeLoginRisk`, step by step, returns the analysis |
| BaselineLogin.DifferencesUnfold | FiapChallenge-main/app/src/routes/auth.routes.js:31-38 | The risks are the ip, country, city and visitor_id entries, in that order, each present when that field differs |
| BaselineLogin.ValidIffAllEqual | FiapChallenge-main/app/src/routes/auth.routes.js:40-43 | No risk is reported exactly when all four critical fields are equal |
| BaselineLogin.DifferencesAreExact | FiapChallenge-main/app/src/routes/auth.routes.js:34-37 | Every entry names a field whose first-login and current values differ, with those two values |
| BaselineLogin.DifferencesAreComplete | FiapChallenge-main/app/src/routes/auth.routes.js:34-37 | Every differing field has its entry |
| BaselineLogin.DifferencesAreOrdered | FiapChallenge-main/app/src/routes/auth.routes.js:31-38 | Entries follow the order ip, country, city, visitor_id strictly, so no field appears twice |
| BaselineLogin.ValidateDeviceData | FiapChallenge-main/app/src/routes/auth.routes.js:30-44 | The `forEach` loop returns the differences, and `isValid` exactly when there are none |
| BaselineLogin.Details | FiapChallenge-main/app/src/routes/auth.routes.js:121 | One detail per risk, in order |
| BaselineLogin.ScoreConcat | FiapChallenge-main/app/src/routes/auth.routes.js:112-122 | The score of a concatenation is the sum of the scores |
| BaselineLogin.ScoreOfDifferences | FiapChallenge-main/app/src/routes/auth.routes.js:110-122 | The score is 20·[ip] + 30·[country] + 10·[city] + 40·[visitor_id] over the differing fields, within 0..100 |
| BaselineLogin.AssessRisks | FiapChallenge-main/app/src/routes/auth.routes.js:110-122 | The scoring loop computes the score and the per-risk details |
| BaselineLogin.BlockedIff | FiapChallenge-main/app/src/routes/auth.routes.js:140 | The score exceeds 70 exactly when country and visitor_id both differ and ip or city differs too |
| BaselineLogin.MessageCarriesItsMarker | FiapChallenge-main/app/src/routes/auth.routes.js:36 | Every risk message contains its own `<field> diferente` marker |
| BaselineLogin.MessagePointsAreFieldPoints | FiapChallenge-main/app/src/routes/auth.routes.js:115-119 | The substring ladder never falls back to 5 points on a message that `validateDeviceData` produced: every message scores 20, 30, 10 or 40, though not always its own field's (see Findings) |
| BaselineLogin.SpoofedValuesEscapeTheBlock | FiapChallenge-main/app/src/routes/auth.routes.js:112-122 | Submitted values that read `ip diferente` make the substring ladder score a 90-point difference as 60 |
| BaselineLogin.Matches | FiapChallenge-main/app/src/routes/auth.routes.js:65-67 | The credential test, applied to each user in order |
| BaselineLogin.Login | FiapChallenge-main/app/src/routes/auth.routes.js:47-177 | The handler returns the login outcome for the users read (none when the read fails), and rewrites the file with the first-login snapshot only when saving succeeds |
| BaselineLogin.RequestChecksComeFirst | FiapChallenge-main/app/src/routes/auth.routes.js:50-62 | A missing username or password gives 400 before the device data is looked at; then missing device data gives 400; 400 only on these |
| BaselineLogin.UnknownCredentialsAreRejected | FiapChallenge-main/app/src/routes/auth.routes.js:64-74 | When no user passes the credential test the answer is invalid credentials |
| BaselineLogin.FirstLoginStoresSnapshot | FiapChallenge-main/app/src/routes/auth.routes.js:79-103 | Without a baseline, the snapshot with `registeredAt` now is stored on that user alone, and the login succeeds when it is saved (500 otherwise) with no validation |
| BaselineLogin.OnlyFirstLoginWrites | FiapChallenge-main/app/src/routes/auth.routes.js:76-177 | Except on a recorded first login, the users are left as they were |
| BaselineLogin.BaselineDecision | FiapChallenge-main/app/src/routes/auth.routes.js:106-176 | Blocked iff country and visitor_id differ and ip or city differs; accepted with `deviceValidated` true iff all fields agree; accepted with differences iff some differ and the score is at most 70 |
| BaselineLogin.OutcomeCategories | FiapChallenge-main/app/src/routes/auth.routes.js:123-125 | A block is `alto`; an acceptance with differences is `médio` exactly at 30 and above, otherwise `baixo` |
| StrictLogin.Login | FiapChallenge-main/app/src/routes/auth.routes.new.js:47-129 | The strict handler returns the strict outcome and writes exactly what the baseline handler writes |
| StrictLogin.RequestChecksComeFirst | FiapChallenge-main/app/src/routes/auth.routes.new.js:50-62 | A missing username or password gives 400 first; then missing device data gives 400 |
| StrictLogin.StrictDecision | FiapChallenge-main/app/src/routes/auth.routes.new.js:106-128 | With a baseline, the login is blocked (403, with the risks) exactly when some critical field differs, and validated exactly when all agree |
| StrictLogin.FirstLoginAlwaysSucceeds | FiapChallenge-main/app/src/routes/auth.routes.new.js:79-96 | Without a baseline the snapshot is stored and the login succeeds, whatever the device data |
| StrictLogin.StrictIsStricterThanBaseline | FiapChallenge-main/app/src/routes/auth.routes.new.js:106-115 | Both routes validate the same logins; every baseline block is a strict block; the strict route answers 403 exactly when the baseline one blocks or accepts with differences |
| IdentityVerify.Verification | FiapChallenge-main/app/src/middlewares/Back-index.js:22-89 | The action is allow, review or deny; the score is one of 0, 50, 70, 80, 100; deny ⇔ 0, allow ⇔ at least 80, review ⇔ 50 or 70 |
| IdentityVerify.VerifyIdentity | FiapChallenge-main/app/src/middlewares/Back-index.js:17-90 | The handler's reassigned `action`, `score`, `reason` are the verification |
| IdentityVerify.DenyIffNoUser | FiapChallenge-main/app/src/middlewares/Back-index.js:25-29 | Deny happens exactly when no user has the username or the file cannot be read; "user not found" exactly on the former |
| IdentityVerify.MissingUsernameMatchesNamelessUser | FiapChallenge-main/app/src/middlewares/Back-index.js:25 | A request without username is matched to a user without one and is not denied |
| IdentityVerify.LadderRungs | FiapChallenge-main/app/src/middlewares/Back-index.js:31-75 | For the first matching user: no saved login gives review 50; another IP gives review 50; same IP and another fingerprint give allow 80; same IP and fingerprint give allow 100 at 30 s or more, else review 70 |
| IdentityVerify.FingerprintsAreTheEngines | FiapChallenge-main/app/src/middlewares/Back-index.js:34-47 | Defaulting before hashing changes nothing: both fingerprints are the engine's fingerprint of the raw fields |
| IdentityVerify.SameDeviceReachesTimeCheck | FiapChallenge-main/app/src/middlewares/Back-index.js:49-60 | Same IP and the same four fields after defaulting always reach the time rung; with no time on page it is review 70 |
| IdentityVerify.DifferentDeviceCanPassDeviceCheck | FiapChallenge-main/app/src/middlewares/Back-index.js:34-55 | A device differing in two fields can still pass the device rung and be allowed with 100, because the joined fields are not escaped |

## Left out

- SHA-256 (`crypto.createHash`). The fingerprint is the joined string itself, so two attempts have equal fingerprints exactly when their joined strings are equal. A digest collision is not modelled.
- Haversine distance (`calculateDistance`). It is floating-point trigonometry, so the distance is a function parameter (`Geo.DistanceFn`), and only the banding is modelled.
- File reads and writes, and JSON parsing. The users file is the `Records.UsersFile` object, and flags stand for the outcomes:
  - `readOk`: the read succeeded;
  - `saveOk`: the write succeeded;
  - `storeOk`: `registerOrUpdateDevice` did not throw.

  The contents of `users.json` are not modelled.
- Clock and id generation (`Date.now()`, `new Date().toISOString()`). They become the `now` and `freshId` arguments.
- Registry.RegisterOrUpdateDevice: `registeredAt` and `lastSeenAt` are stamped from one `now`. The source reads the clock twice (`deviceValidation.js` lines 258 and 259), so it can give two instants a few milliseconds apart.
- Express routing, CORS, the response bodies' messages, the `user` object of the responses (`email`, `role`), and the debug object beyond the score, category and details. Outcomes are datatypes, with a `Status` function for the HTTP code.
- BaselineLogin.Matches: the plaintext test `(username or email) and password equal` is the opaque `CredentialCheck` argument. It is not tied to the request's username and password.
- `ipCheck.js`. It is browser-side data collection over the network.
- `console.log`, `console.error` and `debugRiskSum` output.
- The assignment of `register_new_device`/`block_login` at `deviceValidation.js` lines 210-211 is always overwritten by the threshold action, so only the threshold action is modelled.
- JavaScript values outside the modelled types are not represented: numbers given as strings, `NaN`, and objects where strings are expected. Optional numbers are `Option<real>`. Optional strings are `Option<string>`, where `''` is falsy.
- Lower-casing is ASCII only (`Common.Lower`). `toLowerCase` on other letters is not modelled.
- The device data spread into the first-login snapshot keeps only the fields the routes read: ip, country, city, visitor id, user agent, language and timezone.
- The message text of each difference appears only in the finding below. The decisions use the field of each difference directly.
- `registerOrUpdateDevice` builds `lastKnownLocation` from the flat `country`, `country_code`, `city`, `region`, `latitude` and `longitude` fields of the device data. The analysis reads the nested `location` object. The model follows the code: `DeviceData.place` holds the flat fields and `DeviceData.location` the nested object. Likewise, `registeredAt` is set only for the literal `register_device` action.

## Findings

| source | as written | input that shows it | evidently intended | confidence | as-written member | corrected member |
|---|---|---|---|---|---|---|
| FiapChallenge-main/app/src/routes/auth.routes.js:112-119 | Each risk is scored by searching its message for `ip diferente`, `country diferente`, `city diferente` or `visitor_id diferente`, in that order. The message embeds the submitted values. | The first-login snapshot and the attempt differ in ip. City is equal. The attempt's country and visitor_id are both the text `ip diferente`, different from the saved ones. All three messages then contain `ip diferente` and score 20 each, a total of 60: the login is accepted. | Each risk scores by its field. That gives 20 + 30 + 40 = 90 > 70, which is blocked. | high, not executed | BaselineLogin.SpoofedValuesEscapeTheBlock | BaselineLogin.BlockedIff |
