/**
 * The API client's operations (api.py:134-372) as functions of the client's
 * state: the token it holds and the network state of the transport.  Each
 * operation returns its result together with the new state.  The class in
 * client.dfy performs the same steps by updating fields, and each of its
 * methods is proved to agree with the function of the same name here.
 */
module ClientSpec {
  import opened Wrappers
  import opened Errors
  import opened PyJson
  import opened Transport
  import opened Merge
  import Envelope

  const AuthBaseUrl: string := "https://auth-api.au1.connectedcars.io"       // BASE_URL_AUTH
  const AuthUrl: string := AuthBaseUrl + "/auth/login/email/password"          // AUTH_URL
  const DeviceLoginUrl: string := AuthBaseUrl + "/auth/login/deviceToken" + "?expiresIn=3600"
  const RegisterDeviceUrl: string := AuthBaseUrl + "/user/registerDevice"
  const ApiUrl: string := "https://api.au1.connectedcars.io/graphql"           // BASE_URL_API
  const VehiclesUrl: string := ApiUrl + "?operationName=VehiclesType"
  const DetailsUrl: string := ApiUrl + "?operationName=Vehicle&screenName=Overview"
  const OverviewUrl: string := ApiUrl + "?operationName=VehicleSystemOverview&screenName=Overview"

  const UserAgent: string := "okhttp/4.12.0"
  const OrganizationNamespace: string := "vwaustralia:app"
  const AppVersion: string := "1.79.12"

  /** Stand-ins for the three GraphQL documents, which the client sends without reading. */
  const VehiclesTypeDocument: string := "<VehiclesType document>"
  const VehicleDocument: string := "<Vehicle document>"
  const SystemOverviewDocument: string := "<VehicleSystemOverview document>"

  /** The constructor's optional credentials. */
  datatype Credentials = Credentials(email: Option<string>, password: Option<string>, deviceToken: Option<string>)

  /** What the client is built with: credentials, whether it has a session, and what the session's peers answer. */
  datatype Env = Env(credentials: Credentials, hasSession: bool, server: nat -> Reply)

  /** `_token` (Null for None) and the transport's state. */
  datatype State = State(token: Json, net: Net)

  /** The result of an operation (a value or the exception it raised) and the state after it. */
  datatype Outcome<T> = Outcome(result: Result<T, Error>, state: State)

  /** A credential that is a non-empty string: Python truthiness of `str | None`. */
  predicate Present(s: Option<string>) {
    s.Some? && s.value != ""
  }

  /** A credential as it is serialised into a JSON body. */
  function Text(s: Option<string>): Json {
    if s.Some? then Str(s.value) else Null
  }

  /** Both halves of the password login are usable. */
  predicate PasswordUsable(c: Credentials) {
    Present(c.email) && Present(c.password)
  }

  /** `_get_headers`. */
  function Headers(token: Json, includeAppVersion: bool, includeAuthToken: bool): (h: map<string, string>)
    ensures "User-Agent" in h && h["User-Agent"] == UserAgent
    ensures "X-Organization-Namespace" in h && h["X-Organization-Namespace"] == OrganizationNamespace
    ensures "Authorization" in h <==> includeAuthToken
    ensures includeAuthToken ==> h["Authorization"] == "Bearer " + PyStr(token)
    ensures "X-App-Version" in h <==> includeAppVersion
    ensures h.Keys <= {"User-Agent", "X-Organization-Namespace", "Authorization", "X-App-Version"}
  {
    var base := map["User-Agent" := UserAgent, "X-Organization-Namespace" := OrganizationNamespace];
    var withAuth := if includeAuthToken then base["Authorization" := "Bearer " + PyStr(token)] else base;
    if includeAppVersion then withAuth["X-App-Version" := AppVersion] else withAuth
  }

  /** `_api_wrapper`: CommunicationError at once without a session, otherwise the retry loop. */
  function Call(env: Env, st: State, url: string, data: Json, headers: map<string, string>): (o: Outcome<Json>)
    ensures o.state.token == st.token
  {
    if !env.hasSession then Outcome(Failure(Communication), st)
    else
      var sent := Send(env.server, st.net, Request(url, data, headers), 0);
      Outcome(sent.0, st.(net := sent.1))
  }

  /** Lines 179-182 and 192-195: the token a login response carries. */
  function TokenFrom(response: Json): (r: Result<Json, Error>)
    ensures r.Success? <==> response.Obj? && "token" in response.fields
    ensures r.Success? ==> r.value == response.fields["token"]
    ensures !Truthy(response) || (response.Obj? && "token" !in response.fields) ==> r == Failure(Authentication)
  {
    if !Truthy(response) then Failure(Authentication)
    else
      var hasToken :- Contains(response, "token");
      if !hasToken then Failure(Authentication) else Index(response, "token")
  }

  /** The common body of the two login methods: post `data` to `url` and keep the token. */
  function LoginAt(env: Env, st: State, url: string, data: Json): Outcome<()> {
    var o := Call(env, st, url, data, Headers(st.token, false, false));
    match o.result
    case Failure(e) => Outcome(Failure(e), o.state)
    case Success(response) =>
      match TokenFrom(response)
      case Failure(e) => Outcome(Failure(e), o.state)
      case Success(token) => Outcome(Success(()), o.state.(token := token))
  }

  /** `_login_with_email_password`. */
  function LoginWithEmailPassword(env: Env, st: State): Outcome<()> {
    LoginAt(env, st, AuthUrl,
      Obj(map["email" := Text(env.credentials.email), "password" := Text(env.credentials.password)]))
  }

  /** `_login_with_device_token`. */
  function LoginWithDeviceToken(env: Env, st: State): Outcome<()> {
    LoginAt(env, st, DeviceLoginUrl, Obj(map["deviceToken" := Text(env.credentials.deviceToken)]))
  }

  /** `login`: the device token first, the password as a fallback for an authentication failure. */
  function Login(env: Env, st: State): Outcome<()> {
    var c := env.credentials;
    if Present(c.deviceToken) then
      var d := LoginWithDeviceToken(env, st);
      if d.result.Success? then d
      else if d.result.error == Authentication && PasswordUsable(c) then LoginWithEmailPassword(env, d.state)
      else d
    else if PasswordUsable(c) then LoginWithEmailPassword(env, st)
    else Outcome(Failure(Authentication), st)  // "No credentials provided"
  }

  /** Lines 332-357: send with the current token; after an authentication failure log in again and send once more. */
  function Attempt(env: Env, st: State, url: string, data: Json, includeAppVersion: bool, includeAuthToken: bool)
    : Outcome<Json>
  {
    var first := Call(env, st, url, data, Headers(st.token, includeAppVersion, includeAuthToken));
    if first.result == Failure(Authentication) && includeAuthToken then
      var l := Login(env, first.state);
      if l.result.Failure? then Outcome(Failure(l.result.error), l.state)
      else Call(env, l.state, url, data, Headers(l.state.token, includeAppVersion, includeAuthToken))
    else first
  }

  /** `_request_json`: log in first when a token is needed and none is held. */
  function RequestJson(env: Env, st: State, url: string, data: Json, includeAppVersion: bool, includeAuthToken: bool)
    : Outcome<Json>
  {
    if includeAuthToken && st.token == Null then
      var l := Login(env, st);
      if l.result.Failure? then Outcome(Failure(l.result.error), l.state)
      else Attempt(env, l.state, url, data, includeAppVersion, includeAuthToken)
    else Attempt(env, st, url, data, includeAppVersion, includeAuthToken)
  }

  function VehiclesQuery(): Json {
    Obj(map["operationName" := Str("VehiclesType"), "variables" := EmptyObj, "query" := Str(VehiclesTypeDocument)])
  }

  function DetailsQuery(vehicleId: Json): Json {
    Obj(map["operationName" := Str("Vehicle"), "variables" := Obj(map["id" := vehicleId]),
            "query" := Str(VehicleDocument)])
  }

  function OverviewQuery(vehicleId: Json): Json {
    Obj(map["operationName" := Str("VehicleSystemOverview"),
            "variables" := Obj(map["id" := vehicleId, "statuses" := Arr([Str("open")])]),
            "query" := Str(SystemOverviewDocument)])
  }

  const RegistrationData: Json :=
    Obj(map["deviceName" := Str("Home-Assistant"), "deviceModel" := Str("Home-Assistant")])

  /** `get_vehicles`. */
  function GetVehicles(env: Env, st: State): Outcome<Json> {
    RequestJson(env, st, VehiclesUrl, VehiclesQuery(), true, true)
  }

  /** `get_vehicle_details`. */
  function GetVehicleDetails(env: Env, st: State, vehicleId: Json): Outcome<Json> {
    RequestJson(env, st, DetailsUrl, DetailsQuery(vehicleId), true, true)
  }

  /** `get_vehicle_system_overview`. */
  function GetVehicleSystemOverview(env: Env, st: State, vehicleId: Json): Outcome<Json> {
    RequestJson(env, st, OverviewUrl, OverviewQuery(vehicleId), true, true)
  }

  /** `register_device`. */
  function RegisterDevice(env: Env, st: State): Outcome<Json> {
    RequestJson(env, st, RegisterDeviceUrl, RegistrationData, true, true)
  }

  /**
   * Lines 218-222: the id of a listed vehicle that is fetched, None for an
   * entry that is skipped.  A dict entry whose `vehicle` is a dict holding
   * "id" is fetched with that id; one whose `vehicle` is falsy, or does not
   * contain "id", is skipped; anything else raises: an entry that is not a
   * dict (`.get`), a `vehicle` that `in` cannot search, or one that
   * contains "id" without being a dict (`vehicle["id"]`).
   */
  function ListedId(entry: Json): (r: Result<Option<Json>, Error>)
    ensures r.Success? && r.value.Some? <==>
      entry.Obj? && Field(entry.fields, "vehicle").Obj? && "id" in Field(entry.fields, "vehicle").fields
    ensures r.Success? && r.value.Some? ==> r.value.value == Field(entry.fields, "vehicle").fields["id"]
    ensures r == Success(None) <==>
      entry.Obj? &&
      var vehicle := Field(entry.fields, "vehicle");
      !Truthy(vehicle) || Contains(vehicle, "id") == Success(false)
    ensures r.Failure? ==> r.error == Runtime
  {
    var vehicle :- Get(entry, "vehicle", Null);
    if !Truthy(vehicle) then Success(None)
    else
      var hasId :- Contains(vehicle, "id");
      if !hasId then Success(None)
      else
        var vehicleId :- Index(vehicle, "id");
        Success(Some(vehicleId))
  }

  /**
   * Lines 223-261 for one listed vehicle: the entry appended.  Any failure
   * of either fetch, a details answer without `data.vehicle`, or an
   * exception while merging keeps the original entry.
   */
  function Fetched(env: Env, st: State, entry: Json, vehicleId: Json): (o: Outcome<Json>)
    ensures o.result.Success? && Replaces(o.result.value, entry)
  {
    var details := GetVehicleDetails(env, st, vehicleId);
    if details.result.Failure? then Outcome(Success(entry), details.state)
    else
      var overview := GetVehicleSystemOverview(env, details.state, vehicleId);
      if overview.result.Failure? then Outcome(Success(entry), overview.state)
      else
        match Enriched(details.result.value, overview.result.value)
        case Success(Some(record)) => Outcome(Success(Obj(map["vehicle" := record])), overview.state)
        case _ => Outcome(Success(entry), overview.state)
  }

  /** An aggregate entry stands for a listed entry: it is that entry, or a fresh `{"vehicle": record}`. */
  predicate Replaces(out: Json, entry: Json) {
    out == entry || (out.Obj? && out.fields.Keys == {"vehicle"})
  }

  /** The loop at lines 217-261 from entry `i` on, with `acc` appended so far. */
  function Collect(env: Env, st: State, entries: seq<Json>, i: nat, acc: seq<Json>): Outcome<seq<Json>>
    requires i <= |entries|
    decreases |entries| - i
  {
    if i == |entries| then Outcome(Success(acc), st)
    else
      match ListedId(entries[i])
      case Failure(e) => Outcome(Failure(e), st)
      case Success(None) => Collect(env, st, entries, i + 1, acc)
      case Success(Some(vehicleId)) =>
        var f := Fetched(env, st, entries[i], vehicleId);
        Collect(env, f.state, entries, i + 1, acc + [f.result.value])
  }

  /** Lines 212-217: the entries the loop visits (no `or {}` here, unlike the entity platforms). */
  function ListedEntries(response: Json): Result<seq<Json>, Error> {
    var vehicles :- Envelope.VehiclesField(response);
    Iter(vehicles)
  }

  /** `async_get_data`. */
  function GetData(env: Env, st: State): Outcome<Json> {
    var listed := GetVehicles(env, st);
    match listed.result
    case Failure(e) => Outcome(Failure(e), listed.state)
    case Success(response) =>
      match ListedEntries(response)
      case Failure(e) => Outcome(Failure(e), listed.state)
      case Success(entries) =>
        var c := Collect(env, listed.state, entries, 0, []);
        match c.result
        case Failure(e) => Outcome(Failure(e), c.state)
        case Success(detailed) => Outcome(Success(Envelope.Wrap(detailed)), c.state)
  }
}
