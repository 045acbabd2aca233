/**
 * What the API client promises, proved about the functions of ClientSpec:
 * the 200 ms spacing holds across whole operations, the login order and
 * fallback rules, at most two transport calls per request, and the shape of
 * the aggregate that `async_get_data` builds.
 */
module ClientProps {
  import opened Wrappers
  import opened Errors
  import opened PyJson
  import opened Transport
  import opened Merge
  import Envelope
  import opened ClientSpec

  // ---------------------------------------------------------------------------
  // Pacing across operations

  /** `st2` is a valid later state of the client that was in `st`. */
  predicate Advances(st: State, st2: State) {
    ValidNet(st2.net) && Later(st.net, st2.net)
  }

  lemma CallKeepsValid(env: Env, st: State, url: string, data: Json, headers: map<string, string>)
    requires ValidNet(st.net)
    ensures Advances(st, Call(env, st, url, data, headers).state)
  {
    if env.hasSession {
      SendKeepsValid(env.server, st.net, Request(url, data, headers), 0);
    }
  }

  lemma LoginAtKeepsValid(env: Env, st: State, url: string, data: Json)
    requires ValidNet(st.net)
    ensures Advances(st, LoginAt(env, st, url, data).state)
  {
    CallKeepsValid(env, st, url, data, Headers(st.token, false, false));
  }

  /** Logging in, by whichever path, keeps request starts 200 ms apart. */
  lemma LoginKeepsValid(env: Env, st: State)
    requires ValidNet(st.net)
    ensures Advances(st, Login(env, st).state)
  {
    var c := env.credentials;
    if Present(c.deviceToken) {
      var d := LoginWithDeviceToken(env, st);
      LoginAtKeepsValid(env, st, DeviceLoginUrl, Obj(map["deviceToken" := Text(c.deviceToken)]));
      if d.result.Failure? && d.result.error == Authentication && PasswordUsable(c) {
        LoginAtKeepsValid(env, d.state, AuthUrl, Obj(map["email" := Text(c.email), "password" := Text(c.password)]));
      }
    } else if PasswordUsable(c) {
      LoginAtKeepsValid(env, st, AuthUrl, Obj(map["email" := Text(c.email), "password" := Text(c.password)]));
    }
  }

  lemma AttemptKeepsValid(env: Env, st: State, url: string, data: Json, includeAppVersion: bool, includeAuthToken: bool)
    requires ValidNet(st.net)
    ensures Advances(st, Attempt(env, st, url, data, includeAppVersion, includeAuthToken).state)
  {
    var first := Call(env, st, url, data, Headers(st.token, includeAppVersion, includeAuthToken));
    CallKeepsValid(env, st, url, data, Headers(st.token, includeAppVersion, includeAuthToken));
    if first.result == Failure(Authentication) && includeAuthToken {
      var l := Login(env, first.state);
      LoginKeepsValid(env, first.state);
      if l.result.Success? {
        CallKeepsValid(env, l.state, url, data, Headers(l.state.token, includeAppVersion, includeAuthToken));
      }
    }
  }

  /** A request, its logins and its retries included, keeps request starts 200 ms apart. */
  lemma RequestJsonKeepsValid(env: Env, st: State, url: string, data: Json, includeAppVersion: bool, includeAuthToken: bool)
    requires ValidNet(st.net)
    ensures Advances(st, RequestJson(env, st, url, data, includeAppVersion, includeAuthToken).state)
  {
    if includeAuthToken && st.token == Null {
      var l := Login(env, st);
      LoginKeepsValid(env, st);
      if l.result.Success? {
        AttemptKeepsValid(env, l.state, url, data, includeAppVersion, includeAuthToken);
      }
    } else {
      AttemptKeepsValid(env, st, url, data, includeAppVersion, includeAuthToken);
    }
  }

  lemma FetchedKeepsValid(env: Env, st: State, entry: Json, vehicleId: Json)
    requires ValidNet(st.net)
    ensures Advances(st, Fetched(env, st, entry, vehicleId).state)
  {
    var details := GetVehicleDetails(env, st, vehicleId);
    RequestJsonKeepsValid(env, st, DetailsUrl, DetailsQuery(vehicleId), true, true);
    if details.result.Success? {
      RequestJsonKeepsValid(env, details.state, OverviewUrl, OverviewQuery(vehicleId), true, true);
    }
  }

  lemma {:induction false} CollectKeepsValid(env: Env, st: State, entries: seq<Json>, i: nat, acc: seq<Json>)
    requires i <= |entries|
    requires ValidNet(st.net)
    ensures Advances(st, Collect(env, st, entries, i, acc).state)
    decreases |entries| - i
  {
    if i < |entries| {
      match ListedId(entries[i])
      case Failure(_) =>
      case Success(None) =>
        CollectKeepsValid(env, st, entries, i + 1, acc);
      case Success(Some(vehicleId)) =>
        var f := Fetched(env, st, entries[i], vehicleId);
        FetchedKeepsValid(env, st, entries[i], vehicleId);
        CollectKeepsValid(env, f.state, entries, i + 1, acc + [f.result.value]);
    }
  }

  /** A whole refresh, every vehicle's two fetches included, keeps request starts 200 ms apart. */
  lemma GetDataKeepsValid(env: Env, st: State)
    requires ValidNet(st.net)
    ensures Advances(st, GetData(env, st).state)
  {
    var listed := GetVehicles(env, st);
    RequestJsonKeepsValid(env, st, VehiclesUrl, VehiclesQuery(), true, true);
    if listed.result.Success? && ListedEntries(listed.result.value).Success? {
      CollectKeepsValid(env, listed.state, ListedEntries(listed.result.value).value, 0, []);
    }
  }

  // ---------------------------------------------------------------------------
  // Where requests go

  /** Everything `after` adds to the log `before` is a request to one of `urls`. */
  predicate SentOnlyTo(before: seq<Sent>, after: seq<Sent>, urls: set<string>) {
    before <= after && forall j :: |before| <= j < |after| ==> after[j].request.url in urls
  }

  lemma SentOnlyToTrans(a: seq<Sent>, b: seq<Sent>, c: seq<Sent>, urls: set<string>, urls2: set<string>)
    requires SentOnlyTo(a, b, urls) && SentOnlyTo(b, c, urls2)
    ensures SentOnlyTo(a, c, urls + urls2)
  {
    forall j | |a| <= j < |c| ensures c[j].request.url in urls + urls2 {
      if j < |b| {
        assert c[j] == b[j];
      }
    }
  }

  /** One transport call sends only to its own url. */
  lemma CallSendsOnlyTo(env: Env, st: State, url: string, data: Json, headers: map<string, string>)
    ensures SentOnlyTo(st.net.sent, Call(env, st, url, data, headers).state.net.sent, {url})
  {
    if env.hasSession {
      SendAttempts(env.server, st.net, Request(url, data, headers), 0);
    }
  }

  lemma LoginAtSendsOnlyTo(env: Env, st: State, url: string, data: Json)
    ensures SentOnlyTo(st.net.sent, LoginAt(env, st, url, data).state.net.sent, {url})
  {
    CallSendsOnlyTo(env, st, url, data, Headers(st.token, false, false));
  }

  /** Logging in talks only to the two login endpoints. */
  lemma LoginSendsOnlyToLoginUrls(env: Env, st: State)
    ensures SentOnlyTo(st.net.sent, Login(env, st).state.net.sent, {DeviceLoginUrl, AuthUrl})
  {
    var c := env.credentials;
    var device := Obj(map["deviceToken" := Text(c.deviceToken)]);
    var password := Obj(map["email" := Text(c.email), "password" := Text(c.password)]);
    if Present(c.deviceToken) {
      var d := LoginWithDeviceToken(env, st);
      LoginAtSendsOnlyTo(env, st, DeviceLoginUrl, device);
      if d.result.Failure? && d.result.error == Authentication && PasswordUsable(c) {
        LoginAtSendsOnlyTo(env, d.state, AuthUrl, password);
        SentOnlyToTrans(st.net.sent, d.state.net.sent, Login(env, st).state.net.sent, {DeviceLoginUrl}, {AuthUrl});
      }
    } else if PasswordUsable(c) {
      LoginAtSendsOnlyTo(env, st, AuthUrl, password);
    }
  }

  // ---------------------------------------------------------------------------
  // Login

  /** With neither a device token nor both email and password: AuthenticationError, and nothing is sent. */
  lemma NoCredentialsNoRequest(env: Env, st: State)
    requires !Present(env.credentials.deviceToken) && !PasswordUsable(env.credentials)
    ensures Login(env, st).result == Failure(Authentication)
    ensures Login(env, st).state == st
  {
  }

  /** A device-token login that succeeds ends the login: the password endpoint is never contacted. */
  lemma DeviceLoginSuccessSkipsPassword(env: Env, st: State)
    requires Present(env.credentials.deviceToken)
    requires LoginWithDeviceToken(env, st).result.Success?
    ensures Login(env, st) == LoginWithDeviceToken(env, st)
    ensures SentOnlyTo(st.net.sent, Login(env, st).state.net.sent, {DeviceLoginUrl})
  {
    LoginAtSendsOnlyTo(env, st, DeviceLoginUrl, Obj(map["deviceToken" := Text(env.credentials.deviceToken)]));
  }

  /** A device-token AuthenticationError falls back to the password only when both halves are there. */
  lemma DeviceAuthFailure(env: Env, st: State)
    requires Present(env.credentials.deviceToken)
    requires LoginWithDeviceToken(env, st).result == Failure(Authentication)
    ensures PasswordUsable(env.credentials)
            ==> Login(env, st) == LoginWithEmailPassword(env, LoginWithDeviceToken(env, st).state)
    ensures !PasswordUsable(env.credentials) ==> Login(env, st).result == Failure(Authentication)
  {
  }

  /** Any other error from the device-token login propagates as it is. */
  lemma DeviceOtherErrorPropagates(env: Env, st: State)
    requires Present(env.credentials.deviceToken)
    requires LoginWithDeviceToken(env, st).result.Failure?
    requires LoginWithDeviceToken(env, st).result.error != Authentication
    ensures Login(env, st) == LoginWithDeviceToken(env, st)
  {
  }

  /**
   * A login succeeds exactly when the endpoint answers with a dict holding
   * "token", and then `_token` is that value; an empty answer or one without
   * "token" is an AuthenticationError; a failed login leaves `_token` alone.
   */
  lemma LoginStoresToken(env: Env, st: State, url: string, data: Json)
    ensures var o := Call(env, st, url, data, Headers(st.token, false, false));
      var l := LoginAt(env, st, url, data);
      && (l.result.Success? <==> o.result.Success? && o.result.value.Obj? && "token" in o.result.value.fields)
      && (l.result.Success? ==> l.state.token == o.result.value.fields["token"])
      && (l.result.Failure? ==> l.state.token == st.token)
      && (o.result.Success? && (!Truthy(o.result.value) || (o.result.value.Obj? && "token" !in o.result.value.fields))
          ==> l.result == Failure(Authentication))
      && l.state.net == o.state.net
  {
  }

  // ---------------------------------------------------------------------------
  // At most two transport calls per request

  /** How many `_api_wrapper` calls for `url` the log records: the first attempts sent there. */
  function Calls(sent: seq<Sent>, url: string): nat
    decreases |sent|
  {
    if sent == [] then 0
    else
      var last := sent[|sent| - 1];
      Calls(sent[..|sent| - 1], url) + (if last.attempt == 0 && last.request.url == url then 1 else 0)
  }

  /** The requests of one call add one first attempt, or none when the call started at a retry. */
  lemma {:induction false} CallsOfAttempts(s: seq<Sent>, from: nat, req: Request, attempt: nat, url: string)
    requires from <= |s|
    requires AttemptsOf(s, from, req, attempt)
    ensures Calls(s, url) == Calls(s[..from], url) + (if attempt == 0 && from < |s| && req.url == url then 1 else 0)
    decreases |s| - from
  {
    if from < |s| {
      var s' := s[..|s| - 1];
      assert AttemptsOf(s', from, req, attempt) by {
        forall j | from <= j < |s'| ensures s'[j].request == req && s'[j].attempt == attempt + (j - from) {
          assert s'[j] == s[j];
        }
      }
      CallsOfAttempts(s', from, req, attempt, url);
      assert s'[..from] == s[..from];
      if from == |s'| {
        assert s' == s'[..from];
      }
    } else {
      assert s[..from] == s;
    }
  }

  /** Requests to other urls do not count as calls for `url`. */
  lemma {:induction false} CallsOfOtherUrls(before: seq<Sent>, after: seq<Sent>, urls: set<string>, url: string)
    requires SentOnlyTo(before, after, urls) && url !in urls
    ensures Calls(after, url) == Calls(before, url)
    decreases |after|
  {
    if |after| > |before| {
      var a' := after[..|after| - 1];
      assert SentOnlyTo(before, a', urls) by {
        forall j | |before| <= j < |a'| ensures a'[j].request.url in urls {
          assert a'[j] == after[j];
        }
        assert before == a'[..|before|];
      }
      CallsOfOtherUrls(before, a', urls, url);
    } else {
      assert after == before;
    }
  }

  /** One `_api_wrapper` call counts once, or not at all without a session. */
  lemma CallCountsOnce(env: Env, st: State, url: string, data: Json, headers: map<string, string>)
    ensures var after := Call(env, st, url, data, headers).state.net.sent;
      && st.net.sent <= after
      && Calls(after, url) == Calls(st.net.sent, url) + (if env.hasSession then 1 else 0)
  {
    if env.hasSession {
      var req := Request(url, data, headers);
      SendAttempts(env.server, st.net, req, 0);
      var after := Send(env.server, st.net, req, 0).1.sent;
      CallsOfAttempts(after, |st.net.sent|, req, 0, url);
      assert after[..|st.net.sent|] == st.net.sent;
    }
  }

  lemma LoginCountsNone(env: Env, st: State, url: string)
    requires url != AuthUrl && url != DeviceLoginUrl
    ensures Calls(Login(env, st).state.net.sent, url) == Calls(st.net.sent, url)
    ensures st.net.sent <= Login(env, st).state.net.sent
  {
    LoginSendsOnlyToLoginUrls(env, st);
    CallsOfOtherUrls(st.net.sent, Login(env, st).state.net.sent, {DeviceLoginUrl, AuthUrl}, url);
  }

  lemma AttemptCalls(env: Env, st: State, url: string, data: Json, includeAppVersion: bool, includeAuthToken: bool)
    requires url != AuthUrl && url != DeviceLoginUrl
    ensures var after := Attempt(env, st, url, data, includeAppVersion, includeAuthToken).state.net.sent;
      && st.net.sent <= after
      && Calls(st.net.sent, url) <= Calls(after, url) <= Calls(st.net.sent, url) + (if includeAuthToken then 2 else 1)
      && (!includeAuthToken ==> Calls(after, url) == Calls(st.net.sent, url) + (if env.hasSession then 1 else 0))
  {
    var headers := Headers(st.token, includeAppVersion, includeAuthToken);
    var first := Call(env, st, url, data, headers);
    CallCountsOnce(env, st, url, data, headers);
    if first.result == Failure(Authentication) && includeAuthToken {
      var l := Login(env, first.state);
      LoginCountsNone(env, first.state, url);
      if l.result.Success? {
        CallCountsOnce(env, l.state, url, data, Headers(l.state.token, includeAppVersion, includeAuthToken));
      }
    }
  }

  /**
   * `_request_json` makes at most two `_api_wrapper` calls for its url (one
   * without an auth token), whatever logins it needs on the way.
   */
  lemma RequestJsonCallsAtMostTwice(env: Env, st: State, url: string, data: Json, includeAppVersion: bool, includeAuthToken: bool)
    requires url != AuthUrl && url != DeviceLoginUrl
    ensures var after := RequestJson(env, st, url, data, includeAppVersion, includeAuthToken).state.net.sent;
      && st.net.sent <= after
      && Calls(after, url) <= Calls(st.net.sent, url) + (if includeAuthToken then 2 else 1)
      && (!includeAuthToken ==> Calls(after, url) == Calls(st.net.sent, url) + (if env.hasSession then 1 else 0))
  {
    if includeAuthToken && st.token == Null {
      var l := Login(env, st);
      LoginCountsNone(env, st, url);
      if l.result.Success? {
        AttemptCalls(env, l.state, url, data, includeAppVersion, includeAuthToken);
      }
    } else {
      AttemptCalls(env, st, url, data, includeAppVersion, includeAuthToken);
    }
  }

  /** Without an auth token, or after an error other than AuthenticationError, there is no second call. */
  lemma NoRetryWithoutAuthFailure(env: Env, st: State, url: string, data: Json, includeAppVersion: bool, includeAuthToken: bool)
    requires !(includeAuthToken && st.token == Null)
    requires var first := Call(env, st, url, data, Headers(st.token, includeAppVersion, includeAuthToken));
      !includeAuthToken || first.result != Failure(Authentication)
    ensures RequestJson(env, st, url, data, includeAppVersion, includeAuthToken)
            == Call(env, st, url, data, Headers(st.token, includeAppVersion, includeAuthToken))
  {
  }

  /** A missing token is fetched before the request; a failed login means the request is never sent. */
  lemma LoginBeforeRequest(env: Env, st: State, url: string, data: Json, includeAppVersion: bool)
    requires url != AuthUrl && url != DeviceLoginUrl
    requires st.token == Null
    requires Login(env, st).result.Failure?
    ensures RequestJson(env, st, url, data, includeAppVersion, true).result == Failure(Login(env, st).result.error)
    ensures Calls(RequestJson(env, st, url, data, includeAppVersion, true).state.net.sent, url)
            == Calls(st.net.sent, url)
  {
    LoginCountsNone(env, st, url);
  }

  /**
   * After an AuthenticationError and a successful re-login, the second call
   * is sent with headers rebuilt from the refreshed token.
   */
  lemma RetryUsesRefreshedToken(env: Env, st: State, url: string, data: Json, includeAppVersion: bool)
    requires env.hasSession
    requires Call(env, st, url, data, Headers(st.token, includeAppVersion, true)).result == Failure(Authentication)
    requires Login(env, Call(env, st, url, data, Headers(st.token, includeAppVersion, true)).state).result.Success?
    ensures var o := Attempt(env, st, url, data, includeAppVersion, true);
      var sent := o.state.net.sent;
      && sent != []
      && sent[|sent| - 1].request.url == url
      && var headers := sent[|sent| - 1].request.headers;
         "Authorization" in headers && headers["Authorization"] == "Bearer " + PyStr(o.state.token)
  {
    var first := Call(env, st, url, data, Headers(st.token, includeAppVersion, true));
    var l := Login(env, first.state);
    var req := Request(url, data, Headers(l.state.token, includeAppVersion, true));
    SendAttempts(env.server, l.state.net, req, 0);
  }

  // ---------------------------------------------------------------------------
  // The aggregate

  /** The listed entries that are fetched, in order; a failure if the loop raises on one of them. */
  function Retained(entries: seq<Json>): Result<seq<Json>, Error>
    decreases |entries|
  {
    if entries == [] then Success([])
    else
      var head :- ListedId(entries[0]);
      var rest :- Retained(entries[1..]);
      Success((if head.Some? then [entries[0]] else []) + rest)
  }

  /**
   * `out` is what fetching each of `kept` in turn appends when the first
   * fetch starts in client state `st` and each later one starts in the
   * state the previous fetch left; `final` is the state after the last.
   */
  predicate FetchedInTurn(env: Env, st: State, out: seq<Json>, kept: seq<Json>, final: State)
    decreases |kept|
  {
    && |out| == |kept|
    && if kept == [] then final == st
       else
         && ListedId(kept[0]).Success? && ListedId(kept[0]).value.Some?
         && var f := Fetched(env, st, kept[0], ListedId(kept[0]).value.value);
            f.result == Success(out[0]) && FetchedInTurn(env, f.state, out[1..], kept[1..], final)
  }

  /** How the filter's answer for `entries[i..]` follows from entry `i` and the rest. */
  lemma RetainedStep(entries: seq<Json>, i: nat)
    requires i < |entries|
    ensures ListedId(entries[i]).Failure? ==> Retained(entries[i..]).Failure?
    ensures ListedId(entries[i]) == Success(None) ==> Retained(entries[i..]) == Retained(entries[i + 1..])
    ensures ListedId(entries[i]).Success? && ListedId(entries[i]).value.Some? ==>
      && (Retained(entries[i..]).Success? <==> Retained(entries[i + 1..]).Success?)
      && (Retained(entries[i..]).Success? ==> Retained(entries[i..]).value == [entries[i]] + Retained(entries[i + 1..]).value)
  {
    assert entries[i..][0] == entries[i];
    assert entries[i..][1..] == entries[i + 1..];
    var rest := Retained(entries[i + 1..]);
    if rest.Success? {
      assert [] + rest.value == rest.value;
    }
  }

  /** Fetching one more entry in front, from the state before it, extends the correspondence. */
  lemma FetchedInTurnCons(env: Env, st: State, out: seq<Json>, acc: seq<Json>, x: Json, entry: Json, vehicleId: Json,
                          rest: seq<Json>, final: State)
    requires |acc| + 1 <= |out| && out[..|acc| + 1] == acc + [x]
    requires ListedId(entry) == Success(Some(vehicleId))
    requires Fetched(env, st, entry, vehicleId).result == Success(x)
    requires FetchedInTurn(env, Fetched(env, st, entry, vehicleId).state, out[|acc| + 1..], rest, final)
    ensures out[..|acc|] == acc && FetchedInTurn(env, st, out[|acc|..], [entry] + rest, final)
  {
    assert out[..|acc|] == out[..|acc| + 1][..|acc|];
    var tail, kept := out[|acc|..], [entry] + rest;
    assert tail[0] == (acc + [x])[|acc|] == x;
    assert tail[1..] == out[|acc| + 1..];
    assert kept[0] == entry && kept[1..] == rest;
  }

  /**
   * The loop appends exactly one entry per retained entry, in order: the
   * result of fetching that entry in the client state the previous fetch
   * left.  It raises exactly when an entry makes the filter raise.
   */
  lemma {:induction false} CollectShape(env: Env, st: State, entries: seq<Json>, i: nat, acc: seq<Json>)
    requires i <= |entries|
    ensures var c := Collect(env, st, entries, i, acc);
      && (c.result.Success? <==> Retained(entries[i..]).Success?)
      && (c.result.Failure? ==> c.result.error == Runtime)
      && (c.result.Success? ==> |acc| <= |c.result.value| && c.result.value[..|acc|] == acc
                                && FetchedInTurn(env, st, c.result.value[|acc|..], Retained(entries[i..]).value, c.state))
    decreases |entries| - i
  {
    if i == |entries| {
      assert entries[i..] == [];
    } else {
      RetainedStep(entries, i);
      match ListedId(entries[i])
      case Failure(_) =>
      case Success(None) =>
        CollectShape(env, st, entries, i + 1, acc);
      case Success(Some(vehicleId)) =>
        var f := Fetched(env, st, entries[i], vehicleId);
        var x := f.result.value;
        CollectShape(env, f.state, entries, i + 1, acc + [x]);
        var c := Collect(env, f.state, entries, i + 1, acc + [x]);
        if c.result.Success? {
          FetchedInTurnCons(env, st, c.result.value, acc, x, entries[i], vehicleId,
                            Retained(entries[i + 1..]).value, c.state);
        }
    }
  }

  /** One entry that makes the filter raise (a null entry, say) makes the whole loop raise. */
  lemma {:induction false} RetainedFailsOn(entries: seq<Json>, j: nat)
    requires j < |entries| && ListedId(entries[j]).Failure?
    ensures Retained(entries).Failure?
    decreases j
  {
    if j > 0 && ListedId(entries[0]).Success? {
      assert entries[1..][j - 1] == entries[j];
      RetainedFailsOn(entries[1..], j - 1);
    }
  }

  /**
   * `async_get_data` returns the envelope holding one entry per listed
   * entry whose vehicle is truthy and has "id", in order, each the result of
   * fetching that entry right after the one before (the first right after
   * the vehicle list), and raises exactly when the list cannot be read or
   * the filter raises.
   */
  lemma AggregateShape(env: Env, st: State)
    requires GetVehicles(env, st).result.Success?
    ensures var entries := ListedEntries(GetVehicles(env, st).result.value);
      var g := GetData(env, st);
      && (g.result.Success? <==> entries.Success? && Retained(entries.value).Success?)
      && (g.result.Success? ==> Envelope.ListedVehicles(g.result.value).Success?
                                && FetchedInTurn(env, GetVehicles(env, st).state, Envelope.ListedVehicles(g.result.value).value,
                                                 Retained(entries.value).value, g.state))
  {
    var listed := GetVehicles(env, st);
    var entries := ListedEntries(listed.result.value);
    if entries.Success? {
      CollectShape(env, listed.state, entries.value, 0, []);
      assert entries.value[0..] == entries.value;
      var c := Collect(env, listed.state, entries.value, 0, []);
      if c.result.Success? {
        Envelope.ListedVehiclesOfWrap(c.result.value);
        assert c.result.value[0..] == c.result.value;
      }
    }
  }

  /** A null entry in the vehicle list aborts the whole refresh (api.py:218 is outside the `try`). */
  lemma NullEntryAborts(env: Env, st: State, j: nat)
    requires GetVehicles(env, st).result.Success?
    requires ListedEntries(GetVehicles(env, st).result.value).Success?
    requires j < |ListedEntries(GetVehicles(env, st).result.value).value|
    requires ListedEntries(GetVehicles(env, st).result.value).value[j] == Null
    ensures GetData(env, st).result == Failure(Runtime)
  {
    var listed := GetVehicles(env, st);
    var entries := ListedEntries(listed.result.value).value;
    RetainedFailsOn(entries, j);
    CollectShape(env, listed.state, entries, 0, []);
    assert entries[0..] == entries;
  }

  /** A vehicle-list answer without `data.viewer.vehicles` gives an empty aggregate. */
  lemma MissingPathGivesEmptyAggregate(env: Env, st: State)
    requires GetVehicles(env, st).result.Success?
    requires var j := GetVehicles(env, st).result.value;
      j.Obj? && ("data" !in j.fields
      || (j.fields["data"].Obj? && "viewer" !in j.fields["data"].fields)
      || (j.fields["data"].Obj? && j.fields["data"].fields["viewer"].Obj?
          && "vehicles" !in j.fields["data"].fields["viewer"].fields))
    ensures GetData(env, st).result == Success(Envelope.Wrap([]))
  {
    Envelope.MissingPathIsEmpty(GetVehicles(env, st).result.value);
  }

  /** A failed details fetch keeps the listed entry. */
  lemma DetailsFailureKeepsEntry(env: Env, st: State, entry: Json, vehicleId: Json)
    requires GetVehicleDetails(env, st, vehicleId).result.Failure?
    ensures Fetched(env, st, entry, vehicleId).result == Success(entry)
  {
  }

  /** A failed overview fetch discards the details already fetched and keeps the listed entry. */
  lemma OverviewFailureDiscardsDetails(env: Env, st: State, entry: Json, vehicleId: Json)
    requires GetVehicleDetails(env, st, vehicleId).result.Success?
    requires GetVehicleSystemOverview(env, GetVehicleDetails(env, st, vehicleId).state, vehicleId).result.Failure?
    ensures Fetched(env, st, entry, vehicleId).result == Success(entry)
  {
  }

  /** A details answer without `data.vehicle` keeps the listed entry, whatever the overview says. */
  lemma DetailsWithoutVehicleKeepsEntry(env: Env, st: State, entry: Json, vehicleId: Json)
    requires var d := GetVehicleDetails(env, st, vehicleId).result;
      d.Success? && d.value.Obj?
      && ("data" !in d.value.fields
          || (d.value.fields["data"].Obj? && "vehicle" !in d.value.fields["data"].fields))
    ensures Fetched(env, st, entry, vehicleId).result == Success(entry)
  {
    var d := GetVehicleDetails(env, st, vehicleId);
    var o := GetVehicleSystemOverview(env, d.state, vehicleId);
    if o.result.Success? {
      DetailsWithoutVehicle(d.result.value, o.result.value);
    }
  }

  /** Two well-formed answers give `{"vehicle": details overwritten by the overview}`. */
  lemma BothAnswersMerge(env: Env, st: State, entry: Json, vehicleId: Json,
                         details: map<string, Json>, overview: map<string, Json>)
    requires GetVehicleDetails(env, st, vehicleId).result == Success(VehicleAnswer(Obj(details)))
    requires GetVehicleSystemOverview(env, GetVehicleDetails(env, st, vehicleId).state, vehicleId).result
             == Success(VehicleAnswer(Obj(overview)))
    ensures Fetched(env, st, entry, vehicleId).result
            == Success(Obj(map["vehicle" := Obj(Overlay(details, overview))]))
  {
    MergedRecord(details, overview);
  }
}
