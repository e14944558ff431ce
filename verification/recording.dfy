/** The recording-URL client of the telephony provider
    (`RecordingApiClient` in src/recording-api.ts): a per-client rate
    limiter over fixed one-minute windows, and a lookup that reports every
    failure in its response instead of raising it. */
module Recording {
  import opened Base
  import opened Text

  /** One minute in milliseconds, the length of a rate-limit window. */
  const OneMinute := 60 * 1000

  /** The fallback of `maxRequestsPerMinute`. */
  const DefaultMaxRequests := 5

  /** `Number(MAX_REQUESTS_PER_MINUTE) || 5`: an unset, empty, zero or
      unreadable setting falls back to five. */
  function MaxRequests(setting: Option<string>): (r: nat)
    ensures r >= 1
    ensures setting.Some? && AllDigits(setting.value) && DecimalValue(setting.value) > 0
            ==> r == DecimalValue(setting.value)
    ensures setting.Some? && AllDigits(setting.value) && DecimalValue(setting.value) == 0
            ==> r == DefaultMaxRequests
    ensures setting.None? ==> r == DefaultMaxRequests
    ensures setting.Some? && AllSpace(setting.value) ==> r == DefaultMaxRequests
  {
    var n := if setting.Some? then NumberOf(setting.value) else None;
    if n.Some? && n.value != 0 then n.value else DefaultMaxRequests
  }

  /** The limiter's state: when the current window started and how many
      requests it let through since. A new client starts at (0, 0). */
  datatype Limiter = Limiter(lastRequestTime: int, requestCount: nat)

  const FreshLimiter := Limiter(0, 0)

  /** The verdict on one request and the limiter after it. */
  datatype Check = Check(allowed: bool, limiter: Limiter)

  /** The window `now` falls in: a new one, with no requests yet, once a
      minute has passed since the current one started. */
  function Window(l: Limiter, now: int): (w: Limiter)
    ensures now - l.lastRequestTime >= OneMinute ==> w == Limiter(now, 0)
    ensures now - l.lastRequestTime < OneMinute ==> w == l
  {
    if now - l.lastRequestTime >= OneMinute then Limiter(now, 0) else l
  }

  /** `checkRateLimit` at time `now` with the limit `max`: a request is
      let through exactly when its window has let fewer than `max` through
      so far, and only a request let through is counted. */
  function CheckRateLimit(l: Limiter, now: int, max: int): (r: Check)
    ensures r.allowed <==> Window(l, now).requestCount < max
    ensures r.limiter.lastRequestTime == Window(l, now).lastRequestTime
    ensures r.limiter.requestCount == Window(l, now).requestCount + (if r.allowed then 1 else 0)
  {
    var w := Window(l, now);
    if w.requestCount >= max then Check(false, w)
    else Check(true, w.(requestCount := w.requestCount + 1))
  }

  /** The verdicts on a sequence of requests at the given times. */
  datatype Run = Run(allowed: seq<bool>, limiter: Limiter)

  function RunLimiter(l: Limiter, times: seq<int>, max: int): (r: Run)
    ensures |r.allowed| == |times|
    decreases |times|
  {
    if times == [] then Run([], l)
    else
      var c := CheckRateLimit(l, times[0], max);
      var rest := RunLimiter(c.limiter, times[1..], max);
      Run([c.allowed] + rest.allowed, rest.limiter)
  }

  /** The number of requests let through. */
  function CountAllowed(bs: seq<bool>): nat {
    if bs == [] then 0 else (if bs[0] then 1 else 0) + CountAllowed(bs[1..])
  }

  /** A limiter that has never let more than `max` through in its window
      never will. */
  lemma {:induction false} CountStaysBounded(l: Limiter, times: seq<int>, max: int)
    requires 0 <= max && l.requestCount <= max
    ensures RunLimiter(l, times, max).limiter.requestCount <= max
    decreases |times|
  {
    if times != [] {
      var c := CheckRateLimit(l, times[0], max);
      CountStaysBounded(c.limiter, times[1..], max);
    }
  }

  /** Within one window: the i-th request is let through exactly when the
      window had let fewer than `max - i` through before the run, so a
      window lets through at most `max` requests and the rest are refused;
      the window does not move. */
  lemma {:induction false} WithinWindow(l: Limiter, times: seq<int>, max: int)
    requires forall k :: 0 <= k < |times| ==> times[k] - l.lastRequestTime < OneMinute
    ensures var r := RunLimiter(l, times, max);
            && (forall i :: 0 <= i < |times| ==> (r.allowed[i] <==> l.requestCount + i < max))
            && r.limiter.lastRequestTime == l.lastRequestTime
    decreases |times|
  {
    if times != [] {
      var c := CheckRateLimit(l, times[0], max);
      assert c.limiter.lastRequestTime == l.lastRequestTime;
      WithinWindow(c.limiter, times[1..], max);
      var r := RunLimiter(l, times, max);
      var rest := RunLimiter(c.limiter, times[1..], max);
      forall i | 0 <= i < |times|
        ensures r.allowed[i] <==> l.requestCount + i < max
      {
        if i > 0 {
          assert r.allowed[i] == rest.allowed[i - 1];
        }
      }
    }
  }

  /** So the number let through in one window is what remains of `max`,
      capped by the number of requests. */
  lemma {:induction false} WindowCount(l: Limiter, times: seq<int>, max: int)
    requires forall k :: 0 <= k < |times| ==> times[k] - l.lastRequestTime < OneMinute
    ensures CountAllowed(RunLimiter(l, times, max).allowed)
            == if l.requestCount >= max then 0
               else if |times| <= max - l.requestCount then |times| else max - l.requestCount
    decreases |times|
  {
    if times != [] {
      var c := CheckRateLimit(l, times[0], max);
      assert c.limiter.lastRequestTime == l.lastRequestTime;
      WindowCount(c.limiter, times[1..], max);
      assert RunLimiter(l, times, max).allowed[1..] == RunLimiter(c.limiter, times[1..], max).allowed;
    }
  }

  /** A new client lets its first request through whatever the clock
      says, as long as the limit is at least one. */
  lemma FreshClientAllows(now: int, max: int)
    requires max >= 1
    ensures CheckRateLimit(FreshLimiter, now, max).allowed
  {
  }

  /** The windows are fixed, not sliding: with a limit of one, a request
      just before a window ends and one just after are both let through,
      a millisecond apart. */
  lemma FixedWindowBurst()
    ensures RunLimiter(Limiter(0, 0), [59999, 60000], 1).allowed == [true, true]
  {
    var c := CheckRateLimit(Limiter(0, 0), 59999, 1);
    assert c == Check(true, Limiter(0, 1));
    var d := CheckRateLimit(c.limiter, 60000, 1);
    assert d == Check(true, Limiter(60000, 1));
    assert [59999, 60000][1..] == [60000];
    assert RunLimiter(c.limiter, [60000], 1).allowed == [true];
  }

  /** What the provider answers one recording-URL request: the response
      data, an HTTP-client error carrying the response data if any, or any
      other error. */
  datatype Answer = Data(url: string) | AxiosFailure(data: Option<string>) | OtherFailure

  /** The `RecordingUrlResponse`. */
  datatype UrlResponse = UrlResponse(success: bool, url: Option<string>, error: Option<string>)

  /** A client: its limiter, and the call UUIDs sent to the provider so
      far (the provider's answer is a function of them, the current one
      last). */
  datatype RecordingClient = RecordingClient(limiter: Limiter, sent: seq<string>)

  const RateLimited := "Rate limit aşıldı. Lütfen bir dakika bekleyin."
  const NoRecordingUrl := "Ses kaydı URL alınamadı"
  const Unexpected := "Beklenmeyen bir hata oluştu"

  /** A response together with the client after it. */
  datatype Fetch = Fetch(response: UrlResponse, client: RecordingClient)

  /** The response for a provider answer. */
  function Respond(a: Answer): (r: UrlResponse)
    ensures r.success <==> a.Data?
    ensures a.Data? ==> r == UrlResponse(true, Some(a.url), None)
    ensures !a.Data? ==> r.url.None? && Truthy(r.error)
  {
    match a
    case Data(u) => UrlResponse(true, Some(u), None)
    case AxiosFailure(d) => UrlResponse(false, None, Some(OrElse(d, NoRecordingUrl)))
    case OtherFailure => UrlResponse(false, None, Some(Unexpected))
  }

  /** `getRecordingUrl`: a request the limiter refuses is answered locally
      and not sent; any other is sent, and the provider's answer becomes
      the response. Nothing is raised, and a failed response always
      carries a non-empty error. */
  function GetRecordingUrl(c: RecordingClient, api: seq<string> -> Answer, now: int, max: int, uuid: string): (r: Fetch)
    ensures r.client.limiter == CheckRateLimit(c.limiter, now, max).limiter
    ensures !CheckRateLimit(c.limiter, now, max).allowed ==>
              r.client.sent == c.sent && r.response == UrlResponse(false, None, Some(RateLimited))
    ensures CheckRateLimit(c.limiter, now, max).allowed ==>
              r.client.sent == c.sent + [uuid] && r.response == Respond(api(r.client.sent))
    ensures r.response.success <==> r.response.url.Some?
    ensures !r.response.success ==> Truthy(r.response.error)
  {
    var check := CheckRateLimit(c.limiter, now, max);
    if !check.allowed then Fetch(UrlResponse(false, None, Some(RateLimited)), RecordingClient(check.limiter, c.sent))
    else
      var sent := c.sent + [uuid];
      Fetch(Respond(api(sent)), RecordingClient(check.limiter, sent))
  }
}
