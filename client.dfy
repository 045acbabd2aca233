/**
 * `VolkswagenGoConnectApiClient` (api.py:134-495) as a class whose fields
 * are the client's mutable state: the token, `_last_request_at`, and, for
 * the model, the clock and the log of requests sent.  Each method performs
 * the steps of its Python counterpart and is proved to end in the result and
 * state that the function of the same name in ClientSpec describes; the
 * properties of those functions are proved in ClientProps.
 */
module Client {
  import opened Wrappers
  import opened Errors
  import opened PyJson
  import opened Transport
  import opened Merge
  import Envelope
  import S = ClientSpec

  class ApiClient {
    const email: Option<string>
    const password: Option<string>
    const deviceToken: Option<string>
    /** Whether `_session` is a session rather than None. */
    const hasSession: bool
    /** What the session's peers answer to the n-th request it sends. */
    const server: nat -> Reply

    /** `_token`; Null stands for None. */
    var token: Json
    /** `_last_request_at`, in milliseconds. */
    var lastRequestAt: nat
    /** The monotonic clock, in milliseconds; only sleeps advance it. */
    var clock: nat
    /** Every request the session has sent, oldest first. */
    var sent: seq<Sent>

    function Env(): S.Env {
      S.Env(S.Credentials(email, password, deviceToken), hasSession, server)
    }

    function State(): S.State
      reads this
    {
      S.State(token, Net(clock, lastRequestAt, sent))
    }

    /** `_last_request_at` is the latest request start, and starts are 200 ms apart. */
    ghost predicate Valid()
      reads this
    {
      ValidNet(Net(clock, lastRequestAt, sent))
    }

    constructor(email: Option<string>, password: Option<string>, deviceToken: Option<string>,
                hasSession: bool, server: nat -> Reply, now: nat)
      ensures this.email == email && this.password == password && this.deviceToken == deviceToken
      ensures this.hasSession == hasSession && this.server == server
      ensures token == Null && lastRequestAt == 0 && clock == now && sent == []
      ensures Valid()
    {
      this.email := email;
      this.password := password;
      this.deviceToken := deviceToken;
      this.hasSession := hasSession;
      this.server := server;
      token := Null;
      lastRequestAt := 0;
      clock := now;
      sent := [];
    }

    /**
     * One pass through lines 388-422: wait until 200 ms have passed since
     * `_last_request_at`, record the new start, and send the request.
     */
    method PaceAndSend(req: Request, attempt: nat) returns (reply: Reply)
      modifies this
      ensures Net(clock, lastRequestAt, sent) == Dispatch(old(Net(clock, lastRequestAt, sent)), req, attempt)
      ensures reply == server(|old(sent)|)
      ensures token == old(token)
    {
      if clock < lastRequestAt + MinIntervalMs {
        clock := lastRequestAt + MinIntervalMs;  // sleep out the rest of the interval
      }
      lastRequestAt := clock;
      reply := server(|sent|);
      sent := sent + [Sent(lastRequestAt, req, attempt)];
    }

    /** `_api_wrapper`: pace, send, back off and retry on 429/503, then verify and decode. */
    method ApiWrapper(url: string, data: Json, headers: map<string, string>) returns (r: Result<Json, Error>)
      requires Valid()
      modifies this
      ensures Valid()
      ensures S.Outcome(r, State()) == S.Call(Env(), old(State()), url, data, headers)
    {
      if !hasSession {
        return Failure(Communication);  // "Session not initialized"
      }
      var req := Request(url, data, headers);
      ghost var outcome := Send(server, Net(clock, lastRequestAt, sent), req, 0);
      var attempt: nat := 0;
      while true
        invariant attempt <= MaxRetries
        invariant token == old(token)
        invariant ValidNet(Net(clock, lastRequestAt, sent))
        invariant Send(server, Net(clock, lastRequestAt, sent), req, attempt) == outcome
        decreases MaxRetries - attempt
      {
        ghost var before := Net(clock, lastRequestAt, sent);
        var reply := PaceAndSend(req, attempt);
        Round(server, before, req, attempt, outcome);
        if reply.Fault? {
          return Failure(FaultError(reply.kind));
        }
        if !Throttled(reply.status) {
          return Decode(reply.status, reply.body);
        }
        if attempt >= MaxRetries {
          return Failure(Communication);  // "Exceeded retry attempts"
        }
        var delay := RetryDelay(reply.retryAfterMs, attempt);
        attempt := attempt + 1;
        clock := clock + delay;
      }
    }

    /** `_login_with_email_password`. */
    method LoginWithEmailPassword() returns (r: Result<(), Error>)
      requires Valid()
      modifies this
      ensures Valid()
      ensures S.Outcome(r, State()) == S.LoginWithEmailPassword(Env(), old(State()))
    {
      var response := ApiWrapper(S.AuthUrl, Obj(map["email" := S.Text(email), "password" := S.Text(password)]),
                                 S.Headers(token, false, false));
      if response.Failure? {
        return Failure(response.error);
      }
      if !Truthy(response.value) {
        return Failure(Authentication);  // "Missing token in response"
      }
      var hasToken := Contains(response.value, "token");
      if hasToken.Failure? {
        return Failure(hasToken.error);
      }
      if !hasToken.value {
        return Failure(Authentication);
      }
      var newToken := Index(response.value, "token");
      if newToken.Failure? {
        return Failure(newToken.error);
      }
      token := newToken.value;
      return Success(());
    }

    /** `_login_with_device_token`. */
    method LoginWithDeviceToken() returns (r: Result<(), Error>)
      requires Valid()
      modifies this
      ensures Valid()
      ensures S.Outcome(r, State()) == S.LoginWithDeviceToken(Env(), old(State()))
    {
      var response := ApiWrapper(S.DeviceLoginUrl, Obj(map["deviceToken" := S.Text(deviceToken)]),
                                 S.Headers(token, false, false));
      if response.Failure? {
        return Failure(response.error);
      }
      if !Truthy(response.value) {
        return Failure(Authentication);  // "Missing token in response"
      }
      var hasToken := Contains(response.value, "token");
      if hasToken.Failure? {
        return Failure(hasToken.error);
      }
      if !hasToken.value {
        return Failure(Authentication);
      }
      var newToken := Index(response.value, "token");
      if newToken.Failure? {
        return Failure(newToken.error);
      }
      token := newToken.value;
      return Success(());
    }

    /** `login`. */
    method Login() returns (r: Result<(), Error>)
      requires Valid()
      modifies this
      ensures Valid()
      ensures S.Outcome(r, State()) == S.Login(Env(), old(State()))
    {
      if S.Present(deviceToken) {
        r := LoginWithDeviceToken();
        if r.Success? {
          return;
        }
        if r.error != Authentication || !S.Present(email) || !S.Present(password) {
          return;  // re-raised
        }
      }
      if S.Present(email) && S.Present(password) {
        r := LoginWithEmailPassword();
      } else {
        r := Failure(Authentication);  // "No credentials provided"
      }
    }

    /** `_request_json`. */
    method RequestJson(url: string, data: Json, includeAppVersion: bool, includeAuthToken: bool)
      returns (r: Result<Json, Error>)
      requires Valid()
      modifies this
      ensures Valid()
      ensures S.Outcome(r, State()) == S.RequestJson(Env(), old(State()), url, data, includeAppVersion, includeAuthToken)
    {
      if includeAuthToken && token == Null {
        var loggedIn := Login();
        if loggedIn.Failure? {
          return Failure(loggedIn.error);
        }
      }
      r := ApiWrapper(url, data, S.Headers(token, includeAppVersion, includeAuthToken));
      if r == Failure(Authentication) && includeAuthToken {
        var loggedIn := Login();
        if loggedIn.Failure? {
          return Failure(loggedIn.error);
        }
        r := ApiWrapper(url, data, S.Headers(token, includeAppVersion, includeAuthToken));
      }
    }

    /** `get_vehicles`. */
    method GetVehicles() returns (r: Result<Json, Error>)
      requires Valid()
      modifies this
      ensures Valid()
      ensures S.Outcome(r, State()) == S.GetVehicles(Env(), old(State()))
    {
      r := RequestJson(S.VehiclesUrl, S.VehiclesQuery(), true, true);
    }

    /** `get_vehicle_details`. */
    method GetVehicleDetails(vehicleId: Json) returns (r: Result<Json, Error>)
      requires Valid()
      modifies this
      ensures Valid()
      ensures S.Outcome(r, State()) == S.GetVehicleDetails(Env(), old(State()), vehicleId)
    {
      r := RequestJson(S.DetailsUrl, S.DetailsQuery(vehicleId), true, true);
    }

    /** `get_vehicle_system_overview`. */
    method GetVehicleSystemOverview(vehicleId: Json) returns (r: Result<Json, Error>)
      requires Valid()
      modifies this
      ensures Valid()
      ensures S.Outcome(r, State()) == S.GetVehicleSystemOverview(Env(), old(State()), vehicleId)
    {
      r := RequestJson(S.OverviewUrl, S.OverviewQuery(vehicleId), true, true);
    }

    /** `register_device`. */
    method RegisterDevice() returns (r: Result<Json, Error>)
      requires Valid()
      modifies this
      ensures Valid()
      ensures S.Outcome(r, State()) == S.RegisterDevice(Env(), old(State()))
    {
      r := RequestJson(S.RegisterDeviceUrl, S.RegistrationData, true, true);
    }

    /** `async_get_data`: list the vehicles, fetch and merge each one, fall back per vehicle. */
    method AsyncGetData() returns (r: Result<Json, Error>)
      requires Valid()
      modifies this
      ensures Valid()
      ensures S.Outcome(r, State()) == S.GetData(Env(), old(State()))
    {
      var vehiclesResponse := GetVehicles();
      if vehiclesResponse.Failure? {
        return Failure(vehiclesResponse.error);
      }
      var vehicles := Envelope.VehiclesField(vehiclesResponse.value);
      if vehicles.Failure? {
        return Failure(vehicles.error);
      }
      var vehiclesData := Iter(vehicles.value);
      if vehiclesData.Failure? {
        return Failure(vehiclesData.error);
      }
      var entries := vehiclesData.value;
      ghost var listed := State();
      var detailedVehicles: seq<Json> := [];
      var i := 0;
      while i < |entries|
        invariant i <= |entries|
        invariant Valid()
        invariant S.Collect(Env(), listed, entries, 0, []) == S.Collect(Env(), State(), entries, i, detailedVehicles)
      {
        var vehicleEntry := entries[i];
        var vehicle := Get(vehicleEntry, "vehicle", Null);
        if vehicle.Failure? {
          return Failure(vehicle.error);
        }
        if !Truthy(vehicle.value) {
          i := i + 1;
          continue;
        }
        var hasId := Contains(vehicle.value, "id");
        if hasId.Failure? {
          return Failure(hasId.error);
        }
        if !hasId.value {
          i := i + 1;
          continue;
        }
        var vehicleId := Index(vehicle.value, "id");
        if vehicleId.Failure? {
          return Failure(vehicleId.error);
        }
        var appended := vehicleEntry;  // the fallback
        var details := GetVehicleDetails(vehicleId.value);
        if details.Success? {
          var systemOverview := GetVehicleSystemOverview(vehicleId.value);
          if systemOverview.Success? {
            var record := MergeAnswers(details.value, systemOverview.value);
            if record.Success? && record.value.Some? {
              appended := Obj(map["vehicle" := record.value.value]);
            }
          }
        }
        detailedVehicles := detailedVehicles + [appended];
        i := i + 1;
      }
      return Success(Envelope.Wrap(detailedVehicles));
    }
  }
}
