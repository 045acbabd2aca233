# Volkswagen GoConnect integration — a verified model

This project is a Dafny model of the Volkswagen GoConnect integration for Home Assistant. It proves properties of that model. It covers:

- **The API client** (`api.py`):
  - log redaction of secrets;
  - response checking and JSON decoding;
  - request pacing, throttling back-off and retries;
  - header construction;
  - e-mail/password and device-token login, and the fallback between them;
  - the retry-once-on-authentication-failure request wrapper;
  - the three GraphQL queries;
  - device registration;
  - the aggregate refresh, which fetches details and the system overview for every vehicle and merges them.
- **The three entity platforms built on the refreshed data**:
  - sensors (`sensor.py`): which sensors a vehicle gets, their state, and the cached workshop, brand-contact and charging attributes;
  - binary sensors (`binary_sensor.py`);
  - the GPS device tracker (`device_tracker.py`).
- **The identity every entity takes from the shared base class** (`entity.py`).

## How the model is built

- **JSON payloads** are the `PyJson.Json` datatype. `PyJson` also defines the Python semantics the code relies on:
  - truthiness, `==` and `in`;
  - `[]` and `.get`;
  - iteration, `str.lower` and f-string rendering.
- **Errors.** Python's built-in exceptions raised by the code itself (a `KeyError` or an `AttributeError` on an unexpected payload) are the error `Runtime`. The client's three exception classes are `General`, `Communication` and `Authentication`.
- **The network is a script.** `server(n)` is the reply to the n-th request ever sent: an answer (status, Retry-After, body) or a transport fault. Elapsed time is a millisecond clock that only sleeps advance.
- **Specification and class.** Every client operation is specified by a function in `ClientSpec`. That function maps the client state (token and network log) to a result and a new state. The `Client.ApiClient` class holds the same state in fields, and each of its methods is proved to change it exactly as its specification function says. The properties are proved about the specification functions in `ClientProps` and `Transport`.
- **Entity properties** are pure functions of the coordinator data. One exception is the sensor's three caches, which are fields of `Sensor.SensorEntity` that `NativeValue` updates in place. The loops of the source are kept as methods, each proved equal to a recursive function:
  - sensor setup;
  - the per-vehicle search;
  - the opening-hours loop;
  - header and query sanitizing;
  - the system-overview merge.
- **Key tests.** Each sanitizer takes a `Sanitize.KeyTest`. `AsWritten` compares the lower-cased key with SENSITIVE_KEYS as the code does. `Corrected` compares it with the lower-cased entries. The redaction properties are proved for both tests; the two differ only on "deviceToken" (see Findings).

## Model

| member | source | states |
|---|---|---|
| Sanitize.AsWrittenMissesOnlyDeviceToken | custom_components/volkswagen_goconnect/api.py:44-56 | the key comparison as written redacts exactly what a case-insensitive comparison redacts, except a "deviceToken" key (in any case), which it never redacts |
| Sanitize.LowerIsNotDeviceToken | custom_components/volkswagen_goconnect/api.py:69 | no lower-cased key equals the mixed-case entry "deviceToken" |
| Sanitize.DeviceTokenMissedAsWritten | custom_components/volkswagen_goconnect/api.py:44-56 | "deviceToken" is not sensitive under the comparison as written, and is sensitive under the corrected one |
| Sanitize.DeviceTokenIsRedacted | custom_components/volkswagen_goconnect/api.py:186-191 | the device-login body `{"deviceToken": t}` is logged with its value redacted |
| Sanitize.DeviceTokenKeptAsWritten | custom_components/volkswagen_goconnect/api.py:186-191 | as written, the device-login body `{"deviceToken": t}` comes back from the sanitizer unchanged, token included |
| Sanitize.SanitizeMapping | custom_components/volkswagen_goconnect/api.py:63-76 | under either key test (as written or corrected), a dict keeps its keys and every sensitive key's value becomes the redaction marker; a list keeps its length; anything else is returned unchanged |
| Sanitize.SanitizedIsClean | custom_components/volkswagen_goconnect/api.py:63-76 | under either key test, at every depth of the result no sensitive key holds anything but the redaction marker |
| Sanitize.CleanIsFixpoint | custom_components/volkswagen_goconnect/api.py:63-76 | under either key test, a value with no secret under a sensitive key comes back unchanged |
| Sanitize.SanitizeIdempotent | custom_components/volkswagen_goconnect/api.py:63-76 | under either key test, sanitizing twice gives the same as sanitizing once |
| Sanitize.SanitizeKeepsTheRest | custom_components/volkswagen_goconnect/api.py:63-76 | under either key test, sanitizing changes nothing at any depth except the values of sensitive keys: with those masked, input and output are equal |
| Sanitize.SanitizedIsUnique | custom_components/volkswagen_goconnect/api.py:63-76 | under either key test, the sanitized value is the only clean value that agrees with the input outside sensitive keys, so the result is fully determined |
| Sanitize.SensitiveIgnoresCase | custom_components/volkswagen_goconnect/api.py:69 | under either key test, whether a key is redacted depends only on its lower-cased form, so "Authorization" and "authorization" (or "PASSWORD" and "password") are treated alike |
| Sanitize.LowerIdempotent | custom_components/volkswagen_goconnect/api.py:69 | lower-casing an already lower-cased key changes nothing |
| Sanitize.SanitizeHeaders | custom_components/volkswagen_goconnect/api.py:79-88 | under either key test, None stays None; headers keep their names, and each value is redacted exactly when its name is sensitive |
| Sanitize.RedactHeaders | custom_components/volkswagen_goconnect/api.py:79-88 | the loop over the header items returns None and empty headers unchanged and otherwise builds exactly the sanitized header dict |
| Sanitize.SanitizeHeadersAgrees | custom_components/volkswagen_goconnect/api.py:79-88 | under either key test, sanitizing headers agrees with sanitizing them as a JSON mapping |
| Sanitize.SanitizedHeaderAt | custom_components/volkswagen_goconnect/api.py:79-88 | under either key test, each header value after sanitizing is the marker if its name is sensitive, and its old value otherwise |
| Sanitize.SanitizeQuery | custom_components/volkswagen_goconnect/api.py:91-102 | under either key test, the query pairs keep their order and names, and a value is replaced by the marker exactly when its name is sensitive |
| Transport.VerifyResponse | custom_components/volkswagen_goconnect/api.py:121-131 | 401 and 403 are authentication errors, any other status of 400 or more is a communication error, and below 400 passes |
| Transport.Decode | custom_components/volkswagen_goconnect/api.py:471-477 | the body is returned iff the status passes and the body is JSON; undecodable text with a passing status is a general error; a status of 400 or more gives exactly the status check's error, whatever the body |
| Transport.NextBackoff | custom_components/volkswagen_goconnect/api.py:425-454 | a throttled attempt gives up iff three retries were used, and otherwise waits the Retry-After delay or 1 s times 2^attempt |
| Transport.AsWrittenAgreesWithinTimeout | custom_components/volkswagen_goconnect/api.py:400-454 | the back-off as written matches the corrected one whenever the delay fits in the 10 s request timeout |
| Transport.DefaultBackoff | custom_components/volkswagen_goconnect/api.py:39-42 | without Retry-After the delay starts at 1 s and doubles each attempt; every delay actually slept fits in the 10 s timeout, so the default back-off as written behaves as intended |
| Transport.LongRetryAfterTimesOut | custom_components/volkswagen_goconnect/api.py:400 | a 30 s Retry-After ends in a timeout as written, and is waited out by the corrected back-off |
| Transport.PacedStart | custom_components/volkswagen_goconnect/api.py:388-398 | a request starts no earlier than now and no earlier than 0.2 s after the previous one, and at one of the two |
| Transport.DispatchKeepsValid | custom_components/volkswagen_goconnect/api.py:388-422 | sending one request keeps the log spaced by 0.2 s and moves the clock forward |
| Transport.SendKeepsValid | custom_components/volkswagen_goconnect/api.py:385-454 | a whole call with its retries keeps requests 0.2 s apart and never turns the clock back |
| Transport.Round | custom_components/volkswagen_goconnect/api.py:385-478 | one loop round: a retryable throttle backs off and tries again, and anything else settles the call with the reply |
| Transport.SendAttempts | custom_components/volkswagen_goconnect/api.py:385-454 | a call appends between 1 and 4 requests, all the same request, numbered by consecutive attempts |
| Transport.NoRetryUnlessThrottled | custom_components/volkswagen_goconnect/api.py:425 | a reply other than 429/503 is sent once, and its fault or decoded body is the result |
| Transport.RetryWaitsForDelay | custom_components/volkswagen_goconnect/api.py:452-454 | after a throttled reply the retry starts exactly the back-off delay later (at least the 0.2 s spacing) |
| Transport.GivesUpAfterFourThrottled | custom_components/volkswagen_goconnect/api.py:444-451 | four throttled replies in a row give a communication error after exactly four requests |
| Transport.ThrottledOnceThenAnswered | custom_components/volkswagen_goconnect/api.py:425-474 | a 429 followed by a 200 returns the second body after two requests |
| ClientSpec.Headers | custom_components/volkswagen_goconnect/api.py:359-372 | user agent and namespace are always set, Authorization is `Bearer <token>` iff the token is asked for, X-App-Version iff asked for, and nothing else |
| ClientSpec.Call | custom_components/volkswagen_goconnect/api.py:374-384 | a request never changes the stored token |
| ClientSpec.TokenFrom | custom_components/volkswagen_goconnect/api.py:179-182 | login succeeds iff the answer is a dict with "token", yielding that token; a falsy answer or a dict without it is an authentication error |
| ClientSpec.ListedId | custom_components/volkswagen_goconnect/api.py:218-222 | an entry yields an id iff it is a dict whose vehicle is a dict holding "id", and that id; it is skipped iff it is a dict whose vehicle is falsy or a container without "id"; any other entry fails, with a runtime error only |
| ClientSpec.Fetched | custom_components/volkswagen_goconnect/api.py:223-261 | the per-vehicle fetch never fails, and its output replaces the entry |
| ClientProps.CallKeepsValid | custom_components/volkswagen_goconnect/api.py:374-495 | a request keeps the network log valid and only advances it |
| ClientProps.LoginAtKeepsValid | custom_components/volkswagen_goconnect/api.py:171-195 | a login request keeps the log valid |
| ClientProps.LoginKeepsValid | custom_components/volkswagen_goconnect/api.py:154-169 | the login sequence keeps the log valid |
| ClientProps.AttemptKeepsValid | custom_components/volkswagen_goconnect/api.py:332-357 | the request with its one re-login retry keeps the log valid |
| ClientProps.RequestJsonKeepsValid | custom_components/volkswagen_goconnect/api.py:314-357 | an authenticated request keeps the log valid |
| ClientProps.FetchedKeepsValid | custom_components/volkswagen_goconnect/api.py:223-261 | fetching one vehicle keeps the log valid |
| ClientProps.CollectKeepsValid | custom_components/volkswagen_goconnect/api.py:217-261 | the refresh loop keeps the log valid |
| ClientProps.GetDataKeepsValid | custom_components/volkswagen_goconnect/api.py:207-264 | a whole refresh keeps the log valid |
| ClientProps.SentOnlyToTrans | custom_components/volkswagen_goconnect/api.py:374-495 | requests sent to URLs in one set, then in another, were all sent to URLs in their union |
| ClientProps.CallSendsOnlyTo | custom_components/volkswagen_goconnect/api.py:417-422 | a request sends only to its own URL |
| ClientProps.LoginAtSendsOnlyTo | custom_components/volkswagen_goconnect/api.py:171-195 | a login request sends only to its login URL |
| ClientProps.LoginSendsOnlyToLoginUrls | custom_components/volkswagen_goconnect/api.py:154-169 | login only contacts the device-token and password login URLs |
| ClientProps.NoCredentialsNoRequest | custom_components/volkswagen_goconnect/api.py:165-169 | with no device token and no usable e-mail and password, login fails with an authentication error and sends nothing |
| ClientProps.DeviceLoginSuccessSkipsPassword | custom_components/volkswagen_goconnect/api.py:156-163 | a successful device-token login ends login, and the password URL is never contacted |
| ClientProps.DeviceAuthFailure | custom_components/volkswagen_goconnect/api.py:159-166 | a rejected device token falls back to e-mail/password when both are set, and otherwise fails with authentication |
| ClientProps.DeviceOtherErrorPropagates | custom_components/volkswagen_goconnect/api.py:156-163 | any other device-login error ends login with that error |
| ClientProps.LoginStoresToken | custom_components/volkswagen_goconnect/api.py:171-195 | login succeeds iff the answer holds "token", stores exactly that token, keeps the old token on failure, and makes exactly one transport call (`_api_wrapper`) |
| ClientProps.CallsOfAttempts | custom_components/volkswagen_goconnect/api.py:385-454 | the retries of one call count as one logical request to its URL |
| ClientProps.CallsOfOtherUrls | custom_components/volkswagen_goconnect/api.py:374-495 | requests to other URLs do not change a URL's count |
| ClientProps.CallCountsOnce | custom_components/volkswagen_goconnect/api.py:382-422 | a call adds one logical request to its URL when there is a session, and none without one |
| ClientProps.LoginCountsNone | custom_components/volkswagen_goconnect/api.py:154-195 | login adds no request to any non-login URL |
| ClientProps.AttemptCalls | custom_components/volkswagen_goconnect/api.py:332-357 | a request is issued at most twice if authenticated, and exactly once (given a session) otherwise |
| ClientProps.RequestJsonCallsAtMostTwice | custom_components/volkswagen_goconnect/api.py:314-357 | the same bound for the whole wrapper, including the initial login |
| ClientProps.NoRetryWithoutAuthFailure | custom_components/volkswagen_goconnect/api.py:336-346 | without an authentication failure of an authenticated request, the wrapper is exactly one call |
| ClientProps.LoginBeforeRequest | custom_components/volkswagen_goconnect/api.py:329-330 | with no token, a failed login fails the request with the login's error, before the request is sent |
| ClientProps.RetryUsesRefreshedToken | custom_components/volkswagen_goconnect/api.py:347-357 | after an authentication failure and a successful re-login, the last request sent carries the refreshed token |
| ClientProps.RetainedStep | custom_components/volkswagen_goconnect/api.py:217-222 | an unreadable entry fails the refresh, an entry without a vehicle or id is skipped, and an entry with one is kept |
| ClientProps.FetchedInTurnCons | custom_components/volkswagen_goconnect/api.py:217-261 | fetching one more kept entry first, from the state before it, extends the in-turn correspondence |
| ClientProps.CollectShape | custom_components/volkswagen_goconnect/api.py:217-261 | the loop succeeds iff every entry is readable (failing only with a runtime error); its j-th output is the result of fetching the j-th kept entry with its id in the client state the (j-1)-th fetch left, and the loop ends in the state the last fetch left |
| ClientProps.RetainedFailsOn | custom_components/volkswagen_goconnect/api.py:218 | one unreadable entry fails the whole refresh |
| ClientProps.AggregateShape | custom_components/volkswagen_goconnect/api.py:207-264 | the refresh succeeds iff the vehicle list is readable; its j-th vehicle is the result of fetching the j-th listed vehicle with an id, in turn, starting right after the vehicle-list request, and the refresh ends in the state after the last fetch |
| ClientProps.NullEntryAborts | custom_components/volkswagen_goconnect/api.py:218 | a null entry in the vehicle list makes the refresh raise |
| ClientProps.MissingPathGivesEmptyAggregate | custom_components/volkswagen_goconnect/api.py:212-214 | an answer without data.viewer.vehicles gives an empty aggregate |
| ClientProps.DetailsFailureKeepsEntry | custom_components/volkswagen_goconnect/api.py:259-261 | a failed details request keeps the original entry |
| ClientProps.OverviewFailureDiscardsDetails | custom_components/volkswagen_goconnect/api.py:223-261 | a failed overview request keeps the original entry, not the fetched details |
| ClientProps.DetailsWithoutVehicleKeepsEntry | custom_components/volkswagen_goconnect/api.py:250-257 | details without data.vehicle keep the original entry |
| ClientProps.BothAnswersMerge | custom_components/volkswagen_goconnect/api.py:228-249 | with both answers, the entry becomes the details overlaid with the overview |
| Client.ApiClient.constructor | custom_components/volkswagen_goconnect/api.py:137-152 | the client keeps its credentials and starts with no token, no previous request and an empty log |
| Client.ApiClient.PaceAndSend | custom_components/volkswagen_goconnect/api.py:386-422 | pacing and sending updates the clock, last-request time and log as the transport specification says, and returns the scripted reply |
| Client.ApiClient.ApiWrapper | custom_components/volkswagen_goconnect/api.py:374-495 | the method's result and new state are those of `ClientSpec.Call` |
| Client.ApiClient.LoginWithEmailPassword | custom_components/volkswagen_goconnect/api.py:171-182 | result and new state are those of the specification |
| Client.ApiClient.LoginWithDeviceToken | custom_components/volkswagen_goconnect/api.py:184-195 | result and new state are those of the specification |
| Client.ApiClient.Login | custom_components/volkswagen_goconnect/api.py:154-169 | result and new state are those of the specification |
| Client.ApiClient.RequestJson | custom_components/volkswagen_goconnect/api.py:314-357 | result and new state are those of the specification |
| Client.ApiClient.GetVehicles | custom_components/volkswagen_goconnect/api.py:268-281 | result and new state are those of the specification |
| Client.ApiClient.GetVehicleDetails | custom_components/volkswagen_goconnect/api.py:283-296 | result and new state are those of the specification |
| Client.ApiClient.GetVehicleSystemOverview | custom_components/volkswagen_goconnect/api.py:298-312 | result and new state are those of the specification |
| Client.ApiClient.RegisterDevice | custom_components/volkswagen_goconnect/api.py:197-205 | result and new state are those of the specification |
| Client.ApiClient.AsyncGetData | custom_components/volkswagen_goconnect/api.py:207-264 | result and new state are those of the specification |
| Merge.Overlay | custom_components/volkswagen_goconnect/api.py:241-247 | the merged record has the details' keys plus the overview's except brandContactInfo; overview values win except brandContactInfo |
| Merge.Only | custom_components/volkswagen_goconnect/api.py:241 | restricting a mapping keeps exactly the chosen keys |
| Merge.OverlayStep | custom_components/volkswagen_goconnect/api.py:241-247 | one more overview key either changes nothing (brandContactInfo) or overwrites that key |
| Merge.OverlayInPlace | custom_components/volkswagen_goconnect/api.py:241-247 | the in-place loop computes the overlay |
| Merge.MergeOverview | custom_components/volkswagen_goconnect/api.py:232-247 | the merge fails only with a runtime error |
| Merge.Enriched | custom_components/volkswagen_goconnect/api.py:228-257 | the enriched record fails only with a runtime error |
| Merge.MergeAnswers | custom_components/volkswagen_goconnect/api.py:228-249 | the method computes the enriched record |
| Merge.MergedRecord | custom_components/volkswagen_goconnect/api.py:228-249 | two well-formed answers give the overlay of their vehicle records |
| Merge.OverviewWithoutVehicle | custom_components/volkswagen_goconnect/api.py:232-236 | an overview without data.vehicle leaves the details unchanged |
| Merge.DetailsWithoutVehicle | custom_components/volkswagen_goconnect/api.py:228-257 | details without data.vehicle give no enriched record |
| Merge.BrandContactInfoFromDetails | custom_components/volkswagen_goconnect/api.py:244-247 | brandContactInfo always comes from the details, every other overview field overrides |
| Envelope.ListedVehiclesOfWrap | custom_components/volkswagen_goconnect/api.py:264 | the list read back from the aggregate envelope is the list put in |
| Entity.IdentityOf | custom_components/volkswagen_goconnect/entity.py:26-44 | a falsy vehicle has no id, plate or unique id; otherwise it succeeds iff the record is a dict with a hashable id (not a list or dict), fails only with a runtime error, the plate is the licence plate if truthy and else the id, and the unique id is the id's text |
| Entity.KeyedValueFirst | custom_components/volkswagen_goconnect/sensor.py:224-231 | the value read is the key's value in the first matching vehicle that holds the key |
| Entity.KeyedValueAbsent | custom_components/volkswagen_goconnect/sensor.py:224-277 | if no vehicle holds the key and none is malformed, nothing is read |
| BinarySensor.LaidCons | custom_components/volkswagen_goconnect/binary_sensor.py:52-63 | prepending a vehicle's three sensors extends the layout |
| BinarySensor.SetupShape | custom_components/volkswagen_goconnect/binary_sensor.py:42-63 | setup creates exactly three sensors (isCharging, isBlocked, activated) per vehicle with a truthy record, in order, each with that vehicle's identity |
| BinarySensor.IdsFromPlate | custom_components/volkswagen_goconnect/binary_sensor.py:82-87 | unique id and suggested object id are both `vwgc_<plate>_<key>`, with the plate falling back to the id |
| BinarySensor.IsOnOfFirstHolder | custom_components/volkswagen_goconnect/binary_sensor.py:89-103 | the sensor is on iff the value in the first matching vehicle holding the key is truthy |
| BinarySensor.IsOnFalseWhenAbsent | custom_components/volkswagen_goconnect/binary_sensor.py:89-105 | with no vehicle holding the key, or no id, the sensor is off |
| DeviceTracker.SetupShape | custom_components/volkswagen_goconnect/device_tracker.py:20-39 | setup creates one tracker per listed vehicle with a truthy position, in order, each with that vehicle's identity |
| DeviceTracker.NonDictVehicleFailsSetup | custom_components/volkswagen_goconnect/device_tracker.py:37 | a dict entry whose vehicle is not a dict makes setup raise a runtime error, whatever the entries before it |
| DeviceTracker.IdsFromPlate | custom_components/volkswagen_goconnect/device_tracker.py:54-60 | the tracker's ids are `vwgc_<plate>_tracker` and `vwgc_<plate>_location` and its name is "Location" |
| DeviceTracker.FirstVehicleFound | custom_components/volkswagen_goconnect/device_tracker.py:71-74 | the lookup returns the record of the first vehicle with the id |
| DeviceTracker.FirstVehicleAbsent | custom_components/volkswagen_goconnect/device_tracker.py:71-75 | with no vehicle with the id, the lookup returns None |
| DeviceTracker.NoIdNoPosition | custom_components/volkswagen_goconnect/device_tracker.py:62-103 | a tracker without an id has no vehicle, no coordinates and no attributes |
| DeviceTracker.ReadsFirstVehicle | custom_components/volkswagen_goconnect/device_tracker.py:62-103 | latitude, longitude and position_id come from the first vehicle with the id when its position is a dict; a missing position_id gives empty attributes |
| Sensor.FuelKeysChosen | custom_components/volkswagen_goconnect/sensor.py:168-191 | an electric vehicle gets chargePercentage, any other vehicle fuelPercentage and fuelLevel |
| Sensor.MatchingReadings | custom_components/volkswagen_goconnect/sensor.py:171-191 | scanning all descriptions for reading keys finds the same as scanning the reading descriptions |
| Sensor.MatchingMiddle | custom_components/volkswagen_goconnect/sensor.py:183-184 | descriptions outside the wanted keys contribute nothing to the scan |
| Sensor.ReadingsOnlyAmongReadingKeys | custom_components/volkswagen_goconnect/sensor.py:18-116 | no description outside the reading keys is a fuel or charge reading |
| Sensor.MatchingAppend | custom_components/volkswagen_goconnect/sensor.py:183-191 | the scan distributes over concatenation |
| Sensor.MatchingNone | custom_components/volkswagen_goconnect/sensor.py:183-191 | a scan with no wanted key finds nothing |
| Sensor.ChosenKeysDescribed | custom_components/volkswagen_goconnect/sensor.py:139-166 | every chosen key has a description and no key is chosen twice |
| Sensor.KeysShape | custom_components/volkswagen_goconnect/sensor.py:134-191 | a vehicle gets the 14 base sensors then chargePercentage if its fuel type lower-cases to "electric", else fuelPercentage and fuelLevel: 15 or 16 distinct described keys |
| Sensor.Setup | custom_components/volkswagen_goconnect/sensor.py:119-193 | the loop builds the sensors the specification lists |
| Sensor.AddVehicle | custom_components/volkswagen_goconnect/sensor.py:134-191 | one vehicle's sensors are appended to those already built |
| Sensor.SetupStep | custom_components/volkswagen_goconnect/sensor.py:130-191 | setup over one more vehicle appends that vehicle's sensors |
| Sensor.SetupFailsAfter | custom_components/volkswagen_goconnect/sensor.py:130-191 | a vehicle that raises aborts the whole setup with its error |
| Sensor.EntitiesCount | custom_components/volkswagen_goconnect/sensor.py:131-191 | a kept vehicle gets 15 or 16 described sensors, a skipped one none |
| Sensor.SetupCount | custom_components/volkswagen_goconnect/sensor.py:119-193 | setup creates between 15 and 16 described sensors per vehicle with a truthy record |
| Sensor.EntitiesOfShape | custom_components/volkswagen_goconnect/sensor.py:131-191 | a successful entry gives exactly its record's chosen keys with its identity when kept, and nothing otherwise |
| Sensor.SetupShape | custom_components/volkswagen_goconnect/sensor.py:119-193 | setup creates, for each kept entry in order, one sensor per key chosen for its record, each with that entry's identity, and nothing for other entries |
| Sensor.DescribedConcat | custom_components/volkswagen_goconnect/sensor.py:129-193 | joining described sensors keeps them described |
| Sensor.KeptEntriesSnoc | custom_components/volkswagen_goconnect/sensor.py:131 | the vehicles kept from a longer list are those kept before, plus the new one if kept |
| Sensor.UniqueIdsDistinct | custom_components/volkswagen_goconnect/sensor.py:215-216 | two sensors of one vehicle with different keys have different unique ids |
| Sensor.ReadingOfPlainValue | custom_components/volkswagen_goconnect/sensor.py:230-276 | a value that is not a dict is the state as it is |
| Sensor.ReadingOfNested | custom_components/volkswagen_goconnect/sensor.py:233-276 | a nested reading is its sub-field when present, and the dict itself otherwise |
| Sensor.ChargingIff | custom_components/volkswagen_goconnect/sensor.py:251-259 | the charging status is "Charging" iff startTime is truthy and endedAt is not, and "Not Charging" otherwise |
| Sensor.SummaryReadings | custom_components/volkswagen_goconnect/sensor.py:260-275 | an empty workshop or brand contact reads "Not Available"; otherwise its name, or "Available" |
| Sensor.NativeValueOfFirstHolder | custom_components/volkswagen_goconnect/sensor.py:221-276 | the state is the reading of the first matching vehicle holding the key, and a summary dict is the one cached |
| Sensor.NativeValueAbsent | custom_components/volkswagen_goconnect/sensor.py:221-277 | with no vehicle holding the key the state is None and nothing is cached |
| Sensor.NoVehicleIdState | custom_components/volkswagen_goconnect/sensor.py:221-290 | without a vehicle id the state is the coordinator's `body`, nothing is cached, and with no cached dict there are no attributes |
| Sensor.NoDataNoAttributes | custom_components/volkswagen_goconnect/sensor.py:287-403 | a sensor whose cached or looked-up data is None, empty or not a dict has no attributes, and a summary sensor whose lookup fails fails with that error |
| Sensor.OnlySummariesHaveAttributes | custom_components/volkswagen_goconnect/sensor.py:283-403 | only workshop, brandContactInfo and chargingStatus sensors have attributes |
| Sensor.CacheTakesPrecedence | custom_components/volkswagen_goconnect/sensor.py:287-290 | a truthy cache makes the attributes independent of the coordinator data |
| Sensor.LocatedFirst | custom_components/volkswagen_goconnect/sensor.py:297-300 | the attribute source is the field of the first vehicle with the id |
| Sensor.WorkshopAttributesShape | custom_components/volkswagen_goconnect/sensor.py:302-330 | the workshop attributes hold every renamed field and the time-zone offset, plus only opening-hours entries |
| Sensor.CopiedThenHours | custom_components/volkswagen_goconnect/sensor.py:303-329 | the opening-hours loop keeps the renamed fields and the offset |
| Sensor.WorkshopKeysAreNotHours | custom_components/volkswagen_goconnect/sensor.py:303-321 | no renamed workshop field is an opening-hours attribute |
| Sensor.WithOpeningHoursKeeps | custom_components/volkswagen_goconnect/sensor.py:325-329 | the loop keeps every non-opening-hours attribute and adds only opening-hours ones |
| Sensor.HoursKeys | custom_components/volkswagen_goconnect/sensor.py:328-329 | the from and to keys of a day are opening-hours keys |
| Sensor.LastEntryForDayWins | custom_components/volkswagen_goconnect/sensor.py:325-329 | for each day, the from and to values come from the last entry for that day |
| Sensor.HoursKeysDistinct | custom_components/volkswagen_goconnect/sensor.py:328-329 | different days, and a day's from and to, never share an attribute key |
| Sensor.BrandAttributesShape | custom_components/volkswagen_goconnect/sensor.py:349-362 | the brand attributes are exactly the seven renamed fields |
| Sensor.ChargingAttributesShape | custom_components/volkswagen_goconnect/sensor.py:381-401 | the charging attributes are exactly the renamed fields that are not None, and none when all are None |
| Sensor.SensorEntity.constructor | custom_components/volkswagen_goconnect/sensor.py:199-213 | a new sensor keeps its key and identity, and its three caches start empty |
| Sensor.SensorEntity.NativeValue | custom_components/volkswagen_goconnect/sensor.py:218-278 | the state is the specified reading, and only the matching summary's cache is updated, and only when a dict was found |
| Sensor.SensorEntity.ExtraStateAttributes | custom_components/volkswagen_goconnect/sensor.py:280-403 | the attributes are those specified for the sensor's cached data |
| Sensor.Locate | custom_components/volkswagen_goconnect/sensor.py:297-300 | the search loop returns what the specification says |
| Sensor.AddOpeningHours | custom_components/volkswagen_goconnect/sensor.py:325-329 | the opening-hours loop computes the specified attributes |
| Sensor.OpeningHoursFailsAfter | custom_components/volkswagen_goconnect/sensor.py:325-329 | an entry that raises aborts the whole loop with its error |

## Left out

- Dict key order: the keys of a JSON object are a map, so the order of attributes, headers and merged fields is not modelled.
- Retry-After parsing: the server script hands over the header already read, as a whole number of milliseconds or as absent (also when `float()` would reject it); fractions of a millisecond are not modelled.
- Request latency: requests take no time; only sleeps advance the clock. A request timeout is a fault injected by the server script.
- Concurrency: the pacing lock and interleaved coroutines are not modelled; calls run one at a time.
- Logging and the `VWGC_HTTP_DEBUG` switch: what is logged is not modelled, only the sanitizers that produce it.
- `_sanitize_url`: URL parsing and re-encoding are not modelled; `Sanitize.SanitizeQuery` works on the decoded query pairs, and the fallback for an unparsable URL is left out.
- `str.lower` is modelled for ASCII letters only.
- F-string rendering of floats, lists and dicts is a fixed stand-in text; None, booleans, integers and strings render exactly.
- Iterating a dict (where the code iterates what should be a list) yields its keys; the model yields a placeholder key list that only distinguishes the empty key.
- Presentation: names, icons, units, device classes, device info, attribution and the binary sensor's `_attr_name` are not modelled.
- The GraphQL query texts are constants standing for the documents in `const.py`.
- The unique id of an entity built without a vehicle, taken from the config entry id, is left as None.
- Aliasing: the merge writes into the details dict in place; the model returns the merged record as a value.
- Exception remapping by the data-update coordinator is not part of this model.
- Sensor setup's inner description-search loops are modelled by `Sensor.Matching` and `Sensor.KeysFor` rather than as loops; the outer loops are methods.
- The binary-sensor and tracker list comprehensions are recursive functions.
- Transport.Send: the retry loop uses the corrected back-off, so a throttle delay may exceed the request timeout (see Findings).

## Findings

| source | as written | input that shows it | evidently intended | confidence | as-written member | corrected member |
|---|---|---|---|---|---|---|
| custom_components/volkswagen_goconnect/api.py:400-454 | the back-off sleep runs inside the 10-second request timeout | a 429 answer with `Retry-After: 30` | wait the server's delay, then retry | not executed | Transport.LongRetryAfterTimesOut | Transport.NextBackoff |
| custom_components/volkswagen_goconnect/api.py:44-56 | SENSITIVE_KEYS holds "deviceToken" but is compared with lower-cased keys, so it never matches | the device-login body `{"deviceToken": "abc"}` logged with VWGC_HTTP_DEBUG set | redact the device token | not executed | Sanitize.DeviceTokenKeptAsWritten | Sanitize.DeviceTokenIsRedacted |
