/**
 * The policy of the API client (src/api/waitinglist.ts): its configuration
 * defaults, the `api_key` query parameter every request carries, the
 * normalisation of failed requests into a `WaitinglistError`, the retry loop
 * with exponential back-off, and the requests of the four operations.
 *
 * The transport is not modelled: a call meets the network as a sequence of
 * per-attempt results, one for each attempt the retry loop may make, and
 * the waits are returned as a list of delays in milliseconds.
 */
module Waitinglist {
  import opened Types

  /* ---------------------------------------------------------------------- */
  /* Configuration                                                          */
  /* ---------------------------------------------------------------------- */

  /** `WaitinglistApiOptions` */
  datatype ApiOptions = ApiOptions(apiUrl: Option<string>, timeout: Option<int>, retries: Option<int>)

  const DEFAULT_API_URL: string := "https://api.waitinglist.dev"
  const DEFAULT_TIMEOUT: int := 10000
  const DEFAULT_RETRIES: int := 3

  /** `x || d` for a number: an absent value and `0` are falsy. */
  function NumberOr(x: Option<int>, d: int): (r: int)
    ensures x.Some? && x.value != 0 ==> r == x.value
    ensures x.None? || x.value == 0 ==> r == d
  {
    if x.Some? && x.value != 0 then x.value else d
  }

  /** `x || d` for a string: an absent value and `""` are falsy. */
  function StringOr(x: Option<string>, d: string): (r: string)
    ensures x.Some? && x.value != "" ==> r == x.value
    ensures x.None? || x.value == "" ==> r == d
  {
    if x.Some? && x.value != "" then x.value else d
  }

  /* ---------------------------------------------------------------------- */
  /* Requests and the request interceptor                                   */
  /* ---------------------------------------------------------------------- */

  datatype HttpMethod = Get | Post

  /** What one attempt sends: HTTP method, base URL, path, query parameters and JSON body. */
  datatype Request = Request(
    verb: HttpMethod,
    baseUrl: string,
    path: string,
    params: map<string, string>,
    body: Json)

  /**
   * The request interceptor: `{ ...config.params, api_key: apiKey }`, where
   * spreading absent parameters adds nothing. `api_key` is the client's key,
   * whatever the caller put there, and every other parameter is kept as is.
   */
  function WithApiKey(params: Option<map<string, string>>, apiKey: string): (r: map<string, string>)
    ensures "api_key" in r && r["api_key"] == apiKey
    ensures forall k :: k != "api_key" ==> (k in r <==> params.Some? && k in params.value)
    ensures forall k :: k != "api_key" && k in r ==> r[k] == params.value[k]
  {
    var base := if params.Some? then params.value else map[];
    base["api_key" := apiKey]
  }

  /** Running the interceptor twice, with any keys, leaves what the last key alone would. */
  lemma WithApiKeyLastWins(params: Option<map<string, string>>, first: string, second: string)
    ensures WithApiKey(Some(WithApiKey(params, first)), second) == WithApiKey(params, second)
  {
    var a := WithApiKey(Some(WithApiKey(params, first)), second);
    var b := WithApiKey(params, second);
    assert forall k :: k in a <==> k in b;
  }

  /* ---------------------------------------------------------------------- */
  /* Failures and the response interceptor                                  */
  /* ---------------------------------------------------------------------- */

  /** A response that arrived: its HTTP status and its body. */
  datatype HttpResponse = HttpResponse(status: int, data: Json)

  /** What one attempt met on the network: a response body, or a failure with or without a response. */
  datatype Attempt = Responded(data: Json) | Failed(response: Option<HttpResponse>)

  /** The value the retry loop sees for one attempt: the response data, or the thrown error. */
  datatype Outcome = Success(data: Json) | Thrown(error: WaitinglistError)

  const REQUEST_FAILED: string := "Request failed"

  /** `v && typeof v === "string"`: a non-empty string. */
  predicate NonEmptyString(v: Json) {
    v.Str? && v.s != ""
  }

  /**
   * The response interceptor's error handler: `error` is the body's `error`
   * when that is a non-empty string and `"Request failed"` otherwise;
   * `message` is the body's `message` when that is a non-empty string and
   * absent otherwise; `status` is present exactly when a response arrived;
   * `details` is the body's `details` when the body is truthy.
   */
  function NormalizeError(response: Option<HttpResponse>): (e: WaitinglistError)
    ensures !e.success
    ensures e.error != ""
    ensures response.Some? && NonEmptyString(response.value.data.Get("error")) ==>
      e.error == response.value.data.Get("error").s
    ensures response.None? || !NonEmptyString(response.value.data.Get("error")) ==> e.error == REQUEST_FAILED
    ensures e.message.Some? <==> response.Some? && NonEmptyString(response.value.data.Get("message"))
    ensures e.message.Some? ==> response.value.data.Get("message") == Str(e.message.value)
    ensures e.status.Some? <==> response.Some?
    ensures e.status.Some? ==> e.status.value == response.value.status
    ensures response.None? || !response.value.data.Truthy() ==> e.details == Undefined
    ensures response.Some? && response.value.data.Truthy() ==> e.details == response.value.data.Get("details")
  {
    var data := if response.Some? then response.value.data else Undefined;
    var body := data.Truthy();
    WaitinglistError(
      false,
      if body && NonEmptyString(data.Get("error")) then data.Get("error").s else REQUEST_FAILED,
      if body && NonEmptyString(data.Get("message")) then Some(data.Get("message").s) else None,
      if response.Some? then Some(response.value.status) else None,
      if body then data.Get("details") else Undefined)
  }

  /** The interceptors applied to one attempt: data passes through, a failure is normalised. */
  function Intercept(a: Attempt): Outcome {
    match a
    case Responded(data) => Success(data)
    case Failed(response) => Thrown(NormalizeError(response))
  }

  /** A failure without a response becomes the bare `"Request failed"` error. */
  lemma NoResponseError()
    ensures NormalizeError(None) == WaitinglistError(false, REQUEST_FAILED, None, None, Undefined)
  {
  }

  /* ---------------------------------------------------------------------- */
  /* The retry loop                                                         */
  /* ---------------------------------------------------------------------- */

  /** A failure with a numeric status in [400, 500), a client error (section 15.5 of RFC 9110). */
  predicate IsClientError(e: WaitinglistError) {
    e.status.Some? && 400 <= e.status.value < 500
  }

  /** Only a failure whose response had a 4xx status is a client error. */
  lemma ClientErrorIffFourHundreds(response: Option<HttpResponse>)
    ensures IsClientError(NormalizeError(response)) <==>
      response.Some? && 400 <= response.value.status < 500
  {
  }

  function Pow2(n: nat): (r: nat)
    ensures r >= 1
  {
    if n == 0 then 1 else 2 * Pow2(n - 1)
  }

  /** `Math.pow(2, attempt) * 1000`: the wait after a failed attempt numbered `attempt`. */
  function Backoff(attempt: nat): nat {
    Pow2(attempt) * 1000
  }

  /** The most attempts a call makes: one, or `retries` when that is larger. */
  function MaxAttempts(retries: int): (n: nat)
    ensures n >= 1 && n >= retries
    ensures n == 1 || n == retries
  {
    if retries > 1 then retries else 1
  }

  /** The result of a call: its outcome, the number of attempts made and the waits in between. */
  datatype RetryResult = RetryResult(outcome: Outcome, attempts: nat, delays: seq<nat>)

  /**
   * `retryRequest(requestFn, attempt)`, with `outcomes[i - 1]` the outcome of
   * attempt `i`: the first success is returned as it is; a failure is
   * retried after `Backoff(attempt)` while `attempt < retries` and it is not
   * a client error, and is rethrown otherwise. So the result is the outcome
   * of the last attempt made, every attempt before it failed with a retriable
   * error, and a thrown result is a client error or the last allowed attempt.
   */
  function RetryFrom(outcomes: seq<Outcome>, retries: int, attempt: nat): (r: RetryResult)
    requires 1 <= attempt <= |outcomes| && MaxAttempts(retries) <= |outcomes|
    ensures attempt <= r.attempts <= |outcomes|
    ensures r.attempts <= MaxAttempts(retries) || r.attempts == attempt
    ensures |r.delays| == r.attempts - attempt
    ensures r.outcome == outcomes[r.attempts - 1]
    ensures forall j :: attempt - 1 <= j < r.attempts - 1 ==>
      outcomes[j].Thrown? && !IsClientError(outcomes[j].error)
    ensures r.outcome.Thrown? ==> IsClientError(r.outcome.error) || r.attempts >= retries
    decreases |outcomes| - attempt
  {
    match outcomes[attempt - 1]
    case Success(data) => RetryResult(Success(data), attempt, [])
    case Thrown(e) =>
      if attempt < retries && !IsClientError(e) then
        var rest := RetryFrom(outcomes, retries, attempt + 1);
        RetryResult(rest.outcome, rest.attempts, [Backoff(attempt)] + rest.delays)
      else
        RetryResult(Thrown(e), attempt, [])
  }

  /**
   * A call that has waited `delays` and is about to make attempt `attempt`
   * ends as the whole call does: what remains from `attempt` completes it.
   */
  predicate RetriesFrom(outcomes: seq<Outcome>, retries: int, attempt: nat, delays: seq<nat>)
    requires 1 <= attempt <= |outcomes| && MaxAttempts(retries) <= |outcomes|
  {
    var r := RetryFrom(outcomes, retries, attempt);
    RetryFrom(outcomes, retries, 1) == RetryResult(r.outcome, r.attempts, delays + r.delays)
  }

  /** Retrying after a retriable failure keeps the call on course, one wait longer. */
  lemma RetryStep(outcomes: seq<Outcome>, retries: int, attempt: nat, delays: seq<nat>)
    requires 1 <= attempt < retries && MaxAttempts(retries) <= |outcomes|
    requires outcomes[attempt - 1].Thrown? && !IsClientError(outcomes[attempt - 1].error)
    requires RetriesFrom(outcomes, retries, attempt, delays)
    ensures RetriesFrom(outcomes, retries, attempt + 1, delays + [Backoff(attempt)])
  {
    var rest := RetryFrom(outcomes, retries, attempt + 1);
    assert RetryFrom(outcomes, retries, attempt).delays == [Backoff(attempt)] + rest.delays;
    assert delays + ([Backoff(attempt)] + rest.delays) == (delays + [Backoff(attempt)]) + rest.delays;
  }

  /** The wait after attempt `attempt + i` is `2^(attempt + i)` seconds: 2000, 4000, 8000, ... ms from the first attempt. */
  lemma {:induction false} RetryDelaysDouble(outcomes: seq<Outcome>, retries: int, attempt: nat)
    requires 1 <= attempt <= |outcomes| && MaxAttempts(retries) <= |outcomes|
    ensures forall i :: 0 <= i < |RetryFrom(outcomes, retries, attempt).delays| ==>
      RetryFrom(outcomes, retries, attempt).delays[i] == Backoff(attempt + i)
    decreases |outcomes| - attempt
  {
    var r := RetryFrom(outcomes, retries, attempt);
    if r.attempts > attempt {
      var rest := RetryFrom(outcomes, retries, attempt + 1);
      RetryDelaysDouble(outcomes, retries, attempt + 1);
      assert r.delays == [Backoff(attempt)] + rest.delays;
      forall i | 1 <= i < |r.delays|
        ensures r.delays[i] == Backoff(attempt + i)
      {
        assert r.delays[i] == rest.delays[i - 1];
      }
    }
  }

  /** When every attempt fails with a retriable error, the call makes all its attempts and rethrows the last error. */
  lemma {:induction false} RetriableFailuresExhaust(outcomes: seq<Outcome>, retries: int, attempt: nat)
    requires 1 <= attempt <= |outcomes| && MaxAttempts(retries) <= |outcomes|
    requires forall j :: 0 <= j < |outcomes| ==> outcomes[j].Thrown? && !IsClientError(outcomes[j].error)
    ensures var r := RetryFrom(outcomes, retries, attempt);
      && r.attempts == (if attempt < retries then retries else attempt)
      && r.outcome == outcomes[r.attempts - 1]
    decreases |outcomes| - attempt
  {
    if attempt < retries {
      RetriableFailuresExhaust(outcomes, retries, attempt + 1);
    }
  }

  /** A first attempt that succeeds or fails with a client error is the only attempt. */
  lemma FirstOutcomeFinal(outcomes: seq<Outcome>, retries: int)
    requires MaxAttempts(retries) <= |outcomes|
    requires outcomes[0].Success? || IsClientError(outcomes[0].error)
    ensures RetryFrom(outcomes, retries, 1) == RetryResult(outcomes[0], 1, [])
  {
  }

  /** With the default of three retries and failing attempts, three attempts are made, two and four seconds apart. */
  lemma DefaultRetriesSchedule(outcomes: seq<Outcome>)
    requires 3 <= |outcomes|
    requires forall j :: 0 <= j < |outcomes| ==> outcomes[j].Thrown? && !IsClientError(outcomes[j].error)
    ensures RetryFrom(outcomes, DEFAULT_RETRIES, 1) == RetryResult(outcomes[2], 3, [2000, 4000])
  {
    RetriableFailuresExhaust(outcomes, DEFAULT_RETRIES, 1);
    RetryDelaysDouble(outcomes, DEFAULT_RETRIES, 1);
    var r := RetryFrom(outcomes, DEFAULT_RETRIES, 1);
    assert Backoff(1) == 2000 && Backoff(2) == 4000;
    assert r.delays == [2000, 4000];
  }

  /** The outcomes the retry loop sees: each network attempt passed through the interceptors. */
  function Intercepted(network: seq<Attempt>): (r: seq<Outcome>)
    ensures |r| == |network|
    ensures forall i :: 0 <= i < |r| ==> r[i] == Intercept(network[i])
  {
    seq(|network|, i requires 0 <= i < |network| => Intercept(network[i]))
  }

  /* ---------------------------------------------------------------------- */
  /* The client                                                             */
  /* ---------------------------------------------------------------------- */

  /** The body `signup` posts, before JSON serialisation drops keys whose value is `undefined`. */
  datatype BrowserContext = BrowserContext(userAgent: string, referrer: string)

  /**
   * The `signup` request body: `email` always; `name` and `phone` when they
   * are non-empty; `tags` when it is a non-empty list; and, in a browser,
   * `user_agent` and `referrer`, the latter `undefined` when the referrer is
   * empty.
   */
  function SignupBody(data: FormData, browser: Option<BrowserContext>): (body: map<string, Json>)
    ensures "email" in body && body["email"] == Str(data.email)
    ensures "name" in body <==> OrEmpty(data.name) != ""
    ensures "name" in body ==> body["name"] == Str(data.name.value)
    ensures "phone" in body <==> OrEmpty(data.phone) != ""
    ensures "phone" in body ==> body["phone"] == Str(data.phone.value)
    ensures "tags" in body <==> data.tags.Some? && |data.tags.value| > 0
    ensures "tags" in body ==> body["tags"] == StringArray(data.tags.value)
    ensures "user_agent" in body <==> browser.Some?
    ensures "referrer" in body <==> browser.Some?
    ensures browser.Some? ==> body["user_agent"] == Str(browser.value.userAgent)
    ensures browser.Some? ==>
      body["referrer"] == (if browser.value.referrer != "" then Str(browser.value.referrer) else Undefined)
    ensures forall k :: k in body ==> k in {"email", "name", "phone", "tags", "user_agent", "referrer"}
  {
    var withEmail := map["email" := Str(data.email)];
    var withName := if OrEmpty(data.name) != "" then withEmail["name" := Str(data.name.value)] else withEmail;
    var withPhone := if OrEmpty(data.phone) != "" then withName["phone" := Str(data.phone.value)] else withName;
    var withTags :=
      if data.tags.Some? && |data.tags.value| > 0 then withPhone["tags" := StringArray(data.tags.value)]
      else withPhone;
    if browser.Some? then
      withTags["user_agent" := Str(browser.value.userAgent)]
              ["referrer" := if browser.value.referrer != "" then Str(browser.value.referrer) else Undefined]
    else withTags
  }

  function StringArray(items: seq<string>): (r: Json)
    ensures r.Arr? && |r.items| == |items|
    ensures forall i :: 0 <= i < |items| ==> r.items[i] == Str(items[i])
  {
    Arr(seq(|items|, i requires 0 <= i < |items| => Str(items[i])))
  }

  /** The keys `JSON.stringify` writes: those whose value is not `undefined`. */
  function WrittenKeys(body: map<string, Json>): set<string> {
    set k | k in body && body[k] != Undefined
  }

  /** The posted signup body carries a referrer only when the browser has a non-empty one. */
  lemma SignupReferrerWritten(data: FormData, browser: Option<BrowserContext>)
    ensures "referrer" in WrittenKeys(SignupBody(data, browser)) <==>
      browser.Some? && browser.value.referrer != ""
    ensures "email" in WrittenKeys(SignupBody(data, browser))
  {
  }

  /** `WaitinglistApi`: a client whose key and options are fixed when it is constructed. */
  class WaitinglistApi {
    const apiKey: string
    const retries: int
    const baseUrl: string
    const timeout: int

    /** `retries`, `apiUrl` and `timeout` fall back to 3, the public endpoint and 10000 when absent or falsy. */
    constructor(apiKey: string, options: ApiOptions)
      ensures this.apiKey == apiKey
      ensures retries == NumberOr(options.retries, DEFAULT_RETRIES)
      ensures baseUrl == StringOr(options.apiUrl, DEFAULT_API_URL)
      ensures timeout == NumberOr(options.timeout, DEFAULT_TIMEOUT)
    {
      this.apiKey := apiKey;
      this.retries := NumberOr(options.retries, DEFAULT_RETRIES);
      this.baseUrl := StringOr(options.apiUrl, DEFAULT_API_URL);
      this.timeout := NumberOr(options.timeout, DEFAULT_TIMEOUT);
    }

    /** What the request interceptor makes of `request` before it leaves. */
    function Sent(request: Request): (r: Request)
      ensures r.params == WithApiKey(Some(request.params), apiKey)
      ensures r.(params := request.params) == request
    {
      request.(params := WithApiKey(Some(request.params), apiKey))
    }

    /**
     * `retryRequest`, as a loop: sends `request` once per attempt, meeting
     * `network[i]` on attempt `i + 1`, and ends as `RetryFrom` from attempt 1
     * says, having sent the same request on every attempt.
     */
    method RetryRequest(request: Request, network: seq<Attempt>)
      returns (result: Outcome, sent: seq<Request>, delays: seq<nat>)
      requires MaxAttempts(retries) <= |network|
      ensures RetryFrom(Intercepted(network), retries, 1) == RetryResult(result, |sent|, delays)
      ensures forall i :: 0 <= i < |sent| ==> sent[i] == Sent(request)
    {
      var outcomes := Intercepted(network);
      var attempt := 1;
      sent, delays := [Sent(request)], [];
      while true
        invariant 1 <= attempt <= MaxAttempts(retries) && |sent| == attempt
        invariant forall i :: 0 <= i < |sent| ==> sent[i] == Sent(request)
        invariant RetriesFrom(outcomes, retries, attempt, delays)
        decreases MaxAttempts(retries) - attempt
      {
        match outcomes[attempt - 1]
        case Success(data) =>
          return Success(data), sent, delays;
        case Thrown(e) =>
          if attempt < retries && !IsClientError(e) {
            RetryStep(outcomes, retries, attempt, delays);
            delays := delays + [Backoff(attempt)];
            attempt := attempt + 1;
            sent := sent + [Sent(request)];
          } else {
            return Thrown(e), sent, delays;
          }
      }
    }

    /** `signup`: the body is built once, and every attempt posts it to `/api/v1/signup`. */
    method Signup(data: FormData, browser: Option<BrowserContext>, network: seq<Attempt>)
      returns (result: Outcome, sent: seq<Request>, delays: seq<nat>)
      requires MaxAttempts(retries) <= |network|
      ensures RetryFrom(Intercepted(network), retries, 1) == RetryResult(result, |sent|, delays)
      ensures forall i :: 0 <= i < |sent| ==>
        sent[i] == Request(Post, baseUrl, "/api/v1/signup", WithApiKey(Some(map[]), apiKey), Obj(SignupBody(data, browser)))
    {
      var requestData := SignupBody(data, browser);
      result, sent, delays := RetryRequest(Request(Post, baseUrl, "/api/v1/signup", map[], Obj(requestData)), network);
    }

    /** `getProjectInfo`: every attempt is a GET of `/api/v1/project`. */
    method GetProjectInfo(network: seq<Attempt>)
      returns (result: Outcome, sent: seq<Request>, delays: seq<nat>)
      requires MaxAttempts(retries) <= |network|
      ensures RetryFrom(Intercepted(network), retries, 1) == RetryResult(result, |sent|, delays)
      ensures forall i :: 0 <= i < |sent| ==>
        sent[i] == Request(Get, baseUrl, "/api/v1/project", WithApiKey(Some(map[]), apiKey), Undefined)
    {
      result, sent, delays := RetryRequest(Request(Get, baseUrl, "/api/v1/project", map[], Undefined), network);
    }

    /** `verifyEmail`: every attempt posts `{ token }` to `/api/v1/verify`. */
    method VerifyEmail(token: string, network: seq<Attempt>)
      returns (result: Outcome, sent: seq<Request>, delays: seq<nat>)
      requires MaxAttempts(retries) <= |network|
      ensures RetryFrom(Intercepted(network), retries, 1) == RetryResult(result, |sent|, delays)
      ensures forall i :: 0 <= i < |sent| ==>
        sent[i] == Request(Post, baseUrl, "/api/v1/verify", WithApiKey(Some(map[]), apiKey), Obj(map["token" := Str(token)]))
    {
      result, sent, delays :=
        RetryRequest(Request(Post, baseUrl, "/api/v1/verify", map[], Obj(map["token" := Str(token)])), network);
    }

    /** `unsubscribe`: every attempt posts `{ token }` to `/api/v1/unsubscribe`. */
    method Unsubscribe(token: string, network: seq<Attempt>)
      returns (result: Outcome, sent: seq<Request>, delays: seq<nat>)
      requires MaxAttempts(retries) <= |network|
      ensures RetryFrom(Intercepted(network), retries, 1) == RetryResult(result, |sent|, delays)
      ensures forall i :: 0 <= i < |sent| ==>
        sent[i] == Request(Post, baseUrl, "/api/v1/unsubscribe", WithApiKey(Some(map[]), apiKey), Obj(map["token" := Str(token)]))
    {
      result, sent, delays :=
        RetryRequest(Request(Post, baseUrl, "/api/v1/unsubscribe", map[], Obj(map["token" := Str(token)])), network);
    }
  }
}
