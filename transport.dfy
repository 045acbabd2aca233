/**
 * The transport of the API client (`_api_wrapper`, api.py:374-495, and
 * `_verify_response_or_raise`, api.py:121-131) as functions of the network
 * state: how one logical request is paced, retried on throttling responses
 * and turned into a decoded body or an error.
 *
 * Time is an integer count of milliseconds.  Sending a request takes no time;
 * only the client's own sleeps move the clock.  The server is a script: the
 * n-th request ever sent (counting from 0) receives `server(n)`.
 */
module Transport {
  import opened Wrappers
  import opened Errors
  import opened PyJson

  const MinIntervalMs: nat := 200      // MIN_REQUEST_INTERVAL_SECONDS
  const RequestTimeoutMs: nat := 10000 // REQUEST_TIMEOUT_SECONDS
  const MaxRetries: nat := 3           // THROTTLE_MAX_RETRIES
  const BaseDelayMs: nat := 1000       // THROTTLE_BASE_DELAY_SECONDS

  /** Exceptions raised by the HTTP stack rather than by a response. */
  datatype FaultKind =
    | TimedOut          // TimeoutError
    | ConnectionFailed  // aiohttp.ClientError or socket.gaierror
    | Unexpected        // any other exception

  /**
   * What the n-th request meets.  `retryAfterMs` is the Retry-After header
   * when it is present and numeric; `body` is None when `json.loads` rejects
   * the text.
   */
  datatype Reply =
    | Answer(status: int, retryAfterMs: Option<nat>, body: Option<Json>)
    | Fault(kind: FaultKind)

  datatype Request = Request(url: string, body: Json, headers: map<string, string>)

  /** One request that left the client: when, what, and which attempt of its call. */
  datatype Sent = Sent(at: nat, request: Request, attempt: nat)

  /** The clock, `_last_request_at`, and every request sent so far. */
  datatype Net = Net(clock: nat, lastRequestAt: nat, sent: seq<Sent>)

  predicate Throttled(status: int) {
    status == 429 || status == 503
  }

  /** `_verify_response_or_raise`: None when the response passes. */
  function VerifyResponse(status: int): (r: Option<Error>)
    ensures r == Some(Authentication) <==> status == 401 || status == 403
    ensures r == Some(Communication) <==> status >= 400 && status != 401 && status != 403
    ensures r == None <==> status < 400
  {
    if status == 401 || status == 403 then Some(Authentication)
    else if status >= 400 then Some(Communication)  // raise_for_status
    else None
  }

  /** The end of one attempt that was not throttled: verify, then decode. */
  function Decode(status: int, body: Option<Json>): (r: Result<Json, Error>)
    ensures r.Success? <==> status < 400 && body.Some?
    ensures r.Success? ==> r.value == body.value
    ensures status < 400 && body.None? ==> r == Failure(General)
    ensures r.Failure? && r.error != General ==> Some(r.error) == VerifyResponse(status)
    ensures status >= 400 ==> r == Failure(VerifyResponse(status).value)
  {
    match VerifyResponse(status)
    case Some(e) => Failure(e)
    case None => if body.Some? then Success(body.value) else Failure(General)
  }

  /** The `except` clauses at api.py:479-495. */
  function FaultError(k: FaultKind): Error {
    match k
    case TimedOut => Communication
    case ConnectionFailed => Communication
    case Unexpected => General
  }

  function Pow2(n: nat): (r: nat)
    ensures r >= 1
  {
    if n == 0 then 1 else 2 * Pow2(n - 1)
  }

  /** The numeric Retry-After if there is one, else `1 s * 2^attempt`. */
  function RetryDelay(retryAfterMs: Option<nat>, attempt: nat): nat {
    if retryAfterMs.Some? then retryAfterMs.value else BaseDelayMs * Pow2(attempt)
  }

  /** What the client does after a throttling response. */
  datatype Backoff =
    | Wait(ms: nat)          // sleep, then try again
    | GiveUp(waitedMs: nat)  // CommunicationError after sleeping this long

  /** After a 429 or 503 on attempt `attempt`: back off, unless the retries are used up. */
  function NextBackoff(attempt: nat, retryAfterMs: Option<nat>): (b: Backoff)
    ensures b.GiveUp? <==> attempt >= MaxRetries
    ensures b.Wait? ==> b.ms == RetryDelay(retryAfterMs, attempt)
  {
    if attempt >= MaxRetries then GiveUp(0) else Wait(RetryDelay(retryAfterMs, attempt))
  }

  /**
   * The same decision as the code is written: the back-off sleep (api.py:453)
   * runs inside `async_timeout.timeout(REQUEST_TIMEOUT_SECONDS)` (api.py:400),
   * so a delay longer than the timeout is cut short by a TimeoutError.
   */
  function NextBackoffAsWritten(attempt: nat, retryAfterMs: Option<nat>): Backoff {
    if attempt >= MaxRetries then GiveUp(0)
    else
      var delay := RetryDelay(retryAfterMs, attempt);
      if delay > RequestTimeoutMs then GiveUp(RequestTimeoutMs) else Wait(delay)
  }

  /** Both agree whenever the delay fits in the timeout, as the default back-off always does. */
  lemma AsWrittenAgreesWithinTimeout(attempt: nat, retryAfterMs: Option<nat>)
    requires RetryDelay(retryAfterMs, attempt) <= RequestTimeoutMs || attempt >= MaxRetries
    ensures NextBackoffAsWritten(attempt, retryAfterMs) == NextBackoff(attempt, retryAfterMs)
  {
  }

  /**
   * Without Retry-After the delay starts at 1 s and doubles with every
   * attempt, and every delay the client actually sleeps fits in the timeout,
   * so for the default back-off the code as written behaves as intended.
   */
  lemma DefaultBackoff(attempt: nat)
    ensures RetryDelay(None, 0) == BaseDelayMs
    ensures RetryDelay(None, attempt + 1) == 2 * RetryDelay(None, attempt)
    ensures attempt < MaxRetries ==> RetryDelay(None, attempt) <= RequestTimeoutMs
    ensures NextBackoffAsWritten(attempt, None) == NextBackoff(attempt, None)
  {
    if attempt < MaxRetries {
      assert RetryDelay(None, attempt) <= 4 * BaseDelayMs by {
        assert Pow2(1) == 2 && Pow2(2) == 4;
      }
    }
  }

  /** As written, `Retry-After: 30` ends the call with a timeout instead of retrying after 30 s. */
  lemma LongRetryAfterTimesOut()
    ensures NextBackoffAsWritten(0, Some(30000)) == GiveUp(RequestTimeoutMs)
    ensures NextBackoff(0, Some(30000)) == Wait(30000)
  {
  }

  /** When the next request may start: 200 ms after the previous start at the earliest. */
  function PacedStart(n: Net): (t: nat)
    ensures t >= n.clock && t >= n.lastRequestAt + MinIntervalMs
    ensures t == n.clock || t == n.lastRequestAt + MinIntervalMs
  {
    if n.clock < n.lastRequestAt + MinIntervalMs then n.lastRequestAt + MinIntervalMs else n.clock
  }

  /** Wait for the pacing interval, then send `req` as attempt `attempt`. */
  function Dispatch(n: Net, req: Request, attempt: nat): Net {
    var start := PacedStart(n);
    Net(start, start, n.sent + [Sent(start, req, attempt)])
  }

  /** A 429 or 503 answer. */
  predicate IsThrottling(reply: Reply) {
    reply.Answer? && Throttled(reply.status)
  }

  /** Whether the loop goes round again after `reply` on attempt `attempt`. */
  predicate Retries(reply: Reply, attempt: nat) {
    IsThrottling(reply) && NextBackoff(attempt, reply.retryAfterMs).Wait?
  }

  /** The result of a reply that ends the loop. */
  function Settle(reply: Reply): Result<Json, Error> {
    match reply
    case Fault(k) => Failure(FaultError(k))
    case Answer(status, _, body) =>
      if Throttled(status) then Failure(Communication)  // retries used up
      else Decode(status, body)
  }

  /** The state in which the next attempt starts after a throttling reply. */
  function BackedOff(n: Net, reply: Reply, attempt: nat): Net
    requires Retries(reply, attempt)
  {
    n.(clock := n.clock + NextBackoff(attempt, reply.retryAfterMs).ms)
  }

  /** The `while True` loop of `_api_wrapper` from attempt `attempt` on. */
  function Send(server: nat -> Reply, n: Net, req: Request, attempt: nat): (Result<Json, Error>, Net)
    requires attempt <= MaxRetries
    decreases MaxRetries - attempt
  {
    var n' := Dispatch(n, req, attempt);
    var reply := server(|n.sent|);
    if Retries(reply, attempt) then Send(server, BackedOff(n', reply, attempt), req, attempt + 1)
    else (Settle(reply), n')
  }

  /** Consecutive request starts are at least MinIntervalMs apart. */
  predicate Spaced(sent: seq<Sent>) {
    forall i :: 0 < i < |sent| ==> sent[i - 1].at + MinIntervalMs <= sent[i].at
  }

  /** The state the pacing relies on: `_last_request_at` is the latest start. */
  predicate ValidNet(n: Net) {
    && n.lastRequestAt <= n.clock
    && Spaced(n.sent)
    && (n.sent != [] ==> n.lastRequestAt == n.sent[|n.sent| - 1].at)
  }

  /** `n2` is a later state of the same client: nothing sent is forgotten, time does not go back. */
  predicate Later(n1: Net, n2: Net) {
    n1.sent <= n2.sent && n1.clock <= n2.clock
  }

  lemma DispatchKeepsValid(n: Net, req: Request, attempt: nat)
    requires ValidNet(n)
    ensures ValidNet(Dispatch(n, req, attempt)) && Later(n, Dispatch(n, req, attempt))
  {
  }

  /** Every attempt, retries included, keeps the 200 ms spacing between request starts. */
  lemma {:induction false} SendKeepsValid(server: nat -> Reply, n: Net, req: Request, attempt: nat)
    requires attempt <= MaxRetries
    requires ValidNet(n)
    ensures ValidNet(Send(server, n, req, attempt).1)
    ensures Later(n, Send(server, n, req, attempt).1)
    decreases MaxRetries - attempt
  {
    var n1 := Dispatch(n, req, attempt);
    DispatchKeepsValid(n, req, attempt);
    var reply := server(|n.sent|);
    if Retries(reply, attempt) {
      var n2 := BackedOff(n1, reply, attempt);
      assert ValidNet(n2) && Later(n, n2);
      SendKeepsValid(server, n2, req, attempt + 1);
    }
  }

  /**
   * One round of the `while True` loop of a call that is to end in
   * `outcome`: the dispatched state is valid, and either the reply settles
   * the call or the call continues, still valid, from the backed-off state.
   */
  lemma Round(server: nat -> Reply, n: Net, req: Request, attempt: nat, outcome: (Result<Json, Error>, Net))
    requires attempt <= MaxRetries && ValidNet(n)
    requires Send(server, n, req, attempt) == outcome
    ensures ValidNet(Dispatch(n, req, attempt))
    ensures var reply := server(|n.sent|);
      if Retries(reply, attempt) then
        && ValidNet(BackedOff(Dispatch(n, req, attempt), reply, attempt))
        && Send(server, BackedOff(Dispatch(n, req, attempt), reply, attempt), req, attempt + 1) == outcome
      else outcome == (Settle(reply), Dispatch(n, req, attempt))
  {
    DispatchKeepsValid(n, req, attempt);
  }

  /** The requests a call added to the log, from index `from` on, are all `req`, with consecutive attempts. */
  predicate AttemptsOf(sent: seq<Sent>, from: nat, req: Request, attempt: nat) {
    forall j :: from <= j < |sent| ==> sent[j].request == req && sent[j].attempt == attempt + (j - from)
  }

  /**
   * One call sends between one and four requests (fewer when it starts at a
   * later attempt), all of them `req`, numbered by consecutive attempts.
   */
  lemma {:induction false} SendAttempts(server: nat -> Reply, n: Net, req: Request, attempt: nat)
    requires attempt <= MaxRetries
    ensures n.sent <= Send(server, n, req, attempt).1.sent
    ensures |n.sent| < |Send(server, n, req, attempt).1.sent| <= |n.sent| + MaxRetries + 1 - attempt
    ensures AttemptsOf(Send(server, n, req, attempt).1.sent, |n.sent|, req, attempt)
    decreases MaxRetries - attempt
  {
    var n1 := Dispatch(n, req, attempt);
    var reply := server(|n.sent|);
    if Retries(reply, attempt) {
      var n2 := BackedOff(n1, reply, attempt);
      SendAttempts(server, n2, req, attempt + 1);
      var sent := Send(server, n2, req, attempt + 1).1.sent;
      assert sent[|n.sent|] == n1.sent[|n.sent|];
    }
  }

  /** A reply that is not 429 or 503 ends the call after exactly one request. */
  lemma NoRetryUnlessThrottled(server: nat -> Reply, n: Net, req: Request, attempt: nat)
    requires attempt <= MaxRetries
    requires !IsThrottling(server(|n.sent|))
    ensures |Send(server, n, req, attempt).1.sent| == |n.sent| + 1
    ensures Send(server, n, req, attempt).0
            == match server(|n.sent|)
               case Fault(k) => Failure(FaultError(k))
               case Answer(status, _, body) => Decode(status, body)
  {
  }

  /** The retry starts after the back-off delay, and never sooner than the pacing interval. */
  lemma RetryWaitsForDelay(server: nat -> Reply, n: Net, req: Request, attempt: nat)
    requires attempt < MaxRetries
    requires IsThrottling(server(|n.sent|))
    ensures |Send(server, n, req, attempt).1.sent| >= |n.sent| + 2
    ensures var sent := Send(server, n, req, attempt).1.sent;
      var delay := RetryDelay(server(|n.sent|).retryAfterMs, attempt);
      sent[|n.sent| + 1].at == sent[|n.sent|].at + (if delay < MinIntervalMs then MinIntervalMs else delay)
  {
    var n1 := Dispatch(n, req, attempt);
    var n2 := BackedOff(n1, server(|n.sent|), attempt);
    SendAttempts(server, n2, req, attempt + 1);
    var sent := Send(server, n2, req, attempt + 1).1.sent;
    assert Dispatch(n2, req, attempt + 1).sent <= sent by {
      var reply := server(|n2.sent|);
      if Retries(reply, attempt + 1) {
        SendAttempts(server, BackedOff(Dispatch(n2, req, attempt + 1), reply, attempt + 1), req, attempt + 2);
      }
    }
    assert sent[|n.sent|] == n1.sent[|n.sent|];
    assert sent[|n.sent| + 1] == Dispatch(n2, req, attempt + 1).sent[|n.sent| + 1];
  }

  /** Four throttling replies in a row: CommunicationError after exactly four requests. */
  lemma GivesUpAfterFourThrottled(server: nat -> Reply, n: Net, req: Request)
    requires forall k :: |n.sent| <= k <= |n.sent| + MaxRetries ==> IsThrottling(server(k))
    ensures Send(server, n, req, 0).0 == Failure(Communication)
    ensures |Send(server, n, req, 0).1.sent| == |n.sent| + MaxRetries + 1
  {
    var n1 := BackedOff(Dispatch(n, req, 0), server(|n.sent|), 0);
    var n2 := BackedOff(Dispatch(n1, req, 1), server(|n1.sent|), 1);
    var n3 := BackedOff(Dispatch(n2, req, 2), server(|n2.sent|), 2);
    assert IsThrottling(server(|n3.sent|));
    assert Send(server, n3, req, 3) == (Failure(Communication), Dispatch(n3, req, 3));
    assert Send(server, n2, req, 2) == Send(server, n3, req, 3);
    assert Send(server, n1, req, 1) == Send(server, n2, req, 2);
  }

  /** A 429 with `Retry-After: 0.1` and then a 200: the body, after exactly two requests. */
  lemma ThrottledOnceThenAnswered(server: nat -> Reply, n: Net, req: Request, body: Json)
    requires server(|n.sent|) == Answer(429, Some(100), None)
    requires server(|n.sent| + 1) == Answer(200, None, Some(body))
    ensures Send(server, n, req, 0).0 == Success(body)
    ensures |Send(server, n, req, 0).1.sent| == |n.sent| + 2
  {
    var n1 := BackedOff(Dispatch(n, req, 0), server(|n.sent|), 0);
    assert server(|n1.sent|) == Answer(200, None, Some(body));
  }
}
