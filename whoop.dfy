/** The vendor API as both session variants use it: the three endpoints, the
    requests sent to them, the responses taken as inputs, and the fields read
    out of the token response. The transport itself is not modelled. */
module Whoop {
  import opened Digits
  import opened Python
  import opened Calendar

  const TokenUrl: string := "https://api-7.whoop.com/oauth/token"

  function HeartRateUrl(userid: Json): string
  {
    "https://api-7.whoop.com/users/" + ToStr(userid) + "/metrics/heart_rate"
  }

  function CyclesUrl(userid: Json): string
  {
    "https://api-7.whoop.com/users/" + ToStr(userid) + "/cycles"
  }

  /** One HTTP request: a POST with a JSON body, or a GET with query
      parameters (in the order given) and an Authorization header. */
  datatype Request =
    | Post(url: string, body: Json)
    | Get(url: string, params: seq<(string, string)>, authorization: string)

  /** A response: its status code, and its body decoded as JSON (None when
      the body is not JSON, so that Response.json() raises). */
  datatype Response = Response(status: int, body: Option<Json>)

  /** The JSON credentials POST that asks for a bearer token. */
  function TokenRequest(username: Json, password: Json): (r: Request)
    ensures r.Post? && r.url == TokenUrl
  {
    Post(TokenUrl, Obj([("grant_type", Str("password")), ("issueRefresh", Bool(false)),
                        ("password", password), ("username", username)]))
  }

  function Bearer(accessToken: Json): string
  {
    "bearer " + ToStr(accessToken)
  }

  /** GET of `interval`-second heart-rate samples between two rendered instants. */
  function HeartRateRequest(userid: Json, accessToken: Json, start: string, end: string, interval: int): Request
  {
    Get(HeartRateUrl(userid), [("start", start), ("end", end), ("step", IntToString(interval))],
        Bearer(accessToken))
  }

  /** GET of the day-level cycle aggregates between two rendered instants. */
  function CyclesRequest(userid: Json, accessToken: Json, start: string, end: string): Request
  {
    Get(CyclesUrl(userid), [("start", start), ("end", end)], Bearer(accessToken))
  }

  /** r.json() */
  function Decode(r: Response): (j: Result<Json>)
    ensures j.Ok? <==> r.body.Some?
    ensures j.Err? ==> j.error == JsonDecodeError
  {
    match r.body
    case Some(b) => Ok(b)
    case None => Err(JsonDecodeError)
  }

  /** r.json()["user"]["id"] */
  function UserId(r: Response): Result<Json>
  {
    var body :- Decode(r);
    var user :- Subscript(body, "user");
    Subscript(user, "id")
  }

  /** r.json()["access_token"] */
  function AccessToken(r: Response): Result<Json>
  {
    var body :- Decode(r);
    Subscript(body, "access_token")
  }

  /** A token response carrying a user id and a token in the documented shape. */
  function TokenBody(userid: Json, accessToken: Json): Json
  {
    Obj([("user", Obj([("id", userid)])), ("access_token", accessToken)])
  }

  /** A 200 response in the documented shape yields its user id and token
      exactly as the server sent them. */
  lemma TokenFieldsUnmodified(userid: Json, accessToken: Json)
    ensures var r := Response(200, Some(TokenBody(userid, accessToken)));
      UserId(r) == Ok(userid) && AccessToken(r) == Ok(accessToken)
  {
    var fields := TokenBody(userid, accessToken).fields;
    assert "user"[0] != "access_token"[0];
    assert Lookup(fields[1..], "access_token") == Some(accessToken);
  }

  /** The optional arguments of a session. */
  datatype Config = Config(startDate: Option<Date>, windowSeconds: int, intervalSeconds: int) {
    predicate Valid()
    {
      startDate.Some? ==> startDate.value.Valid()
    }
  }

  /** WhoopUser(username, password), as both entry points construct it:
      no start date, an 8-minute window of 6-second samples. */
  const Defaults: Config := Config(None, 480, 6)

  /** The anchor instant of the request window: midnight of the configured
      start date when there is one, otherwise the current UTC time. */
  function Anchor(startDate: Option<Date>, utcNow: Instant): (t: Instant)
    requires startDate.Some? ==> startDate.value.Valid()
    ensures startDate.Some? ==> t == Midnight(startDate.value)
    ensures startDate.None? ==> t == utcNow
  {
    match startDate
    case Some(d) => Midnight(d)
    case None => utcNow
  }

  /** The query window: start is `seconds` before the anchor and end is the
      anchor, both rendered as %Y-%m-%dT%H:%M:%S.%fZ. */
  function ApiWindow(anchor: Instant, seconds: int): (w: Result<(string, string)>)
    ensures w.Ok? <==> SubtractSeconds(anchor, seconds).Ok?
    ensures w.Ok? ==> w.value == (Strftime(SubtractSeconds(anchor, seconds).value), Strftime(anchor))
    ensures w.Err? ==> w.error == OverflowError
  {
    var start :- SubtractSeconds(anchor, seconds);
    Ok((Strftime(start), Strftime(anchor)))
  }

  /** Both ends of the window read back as the instants they were rendered
      from: the end is the anchor and the start lies exactly `seconds`
      before it; both are 27 characters long and end in 'Z'. */
  lemma ApiWindowBounds(anchor: Instant, seconds: int)
    ensures var w := ApiWindow(anchor, seconds);
      w.Ok? ==> ParseTimestamp(w.value.0) == Some(anchor - seconds * MicrosPerSecond)
                && ParseTimestamp(w.value.1) == Some(anchor)
                && |w.value.0| == 27 && |w.value.1| == 27 && w.value.0[26] == 'Z' && w.value.1[26] == 'Z'
  {
    var start := SubtractSeconds(anchor, seconds);
    if start.Ok? {
      StrftimeRoundTrip(start.value);
      StrftimeRoundTrip(anchor);
    }
  }

  /** r.json()["user"]["id"], then r.json()["access_token"]. */
  function Credentials(r: Response): (c: Result<(Json, Json)>)
    ensures c.Ok? <==> UserId(r).Ok? && AccessToken(r).Ok?
    ensures c.Ok? ==> c.value == (UserId(r).value, AccessToken(r).value)
    ensures c.Err? ==> c.error == (if UserId(r).Err? then UserId(r).error else AccessToken(r).error)
  {
    var userid :- UserId(r);
    var accessToken :- AccessToken(r);
    Ok((userid, accessToken))
  }

  const CredentialsRejected: string := "Fail - Credentials rejected."
  const AuthRejected: string := "Fail - User ID / auth token rejected."

  /** How a stage of the session ends: with a value, with an exception, or
      with a non-200 reply, which the stage reports by the given message. */
  datatype Step<T> = Done(value: T) | Failed(error: PyError) | Rejected(message: string)

  /** A metric fetch: the requests it sent and how it ended. */
  datatype Fetched = Fetched(sent: seq<Request>, step: Step<Json>)

  /** Compute the window, send the GET built from it, check the status and
      decode the body. */
  function Fetch(window: Result<(string, string)>, request: Request, reply: Response): (f: Fetched)
    requires window.Ok? ==> request.Get?
    ensures |f.sent| <= 1
  {
    match window
    case Err(e) => Fetched([], Failed(e))
    case Ok(_) =>
      if reply.status != 200 then Fetched([request], Rejected(AuthRejected))
      else
        match Decode(reply)
        case Err(e) => Fetched([request], Failed(e))
        case Ok(data) => Fetched([request], Done(data))
  }

  /** The heart-rate fetch: the window is `window` seconds ending at the anchor. */
  function HeartRateFetch(userid: Json, accessToken: Json, anchor: Instant, window: int, interval: int,
                          reply: Response): (f: Fetched)
    ensures |f.sent| <= 1
  {
    var w := ApiWindow(anchor, window);
    Fetch(w, if w.Ok? then HeartRateRequest(userid, accessToken, w.value.0, w.value.1, interval)
             else HeartRateRequest(userid, accessToken, "", "", interval), reply)
  }

  /** The window of the cycle fetch is five days, whatever the configured window. */
  const CycleWindow: int := 432000

  function CyclesFetch(userid: Json, accessToken: Json, anchor: Instant, reply: Response): Fetched
  {
    var w := ApiWindow(anchor, CycleWindow);
    Fetch(w, if w.Ok? then CyclesRequest(userid, accessToken, w.value.0, w.value.1)
             else CyclesRequest(userid, accessToken, "", ""), reply)
  }

  /** A fetch sends at most one request, and sends it exactly when the
      window could be computed; the data is kept only from a 200 reply whose
      body is JSON. */
  lemma FetchSends(userid: Json, accessToken: Json, anchor: Instant, window: int, interval: int, reply: Response)
    ensures var f := HeartRateFetch(userid, accessToken, anchor, window, interval, reply);
      (|f.sent| == 1 <==> SubtractSeconds(anchor, window).Ok?)
      && (|f.sent| == 0 <==> f.step == Failed(OverflowError))
      && (f.step.Done? <==> |f.sent| == 1 && reply.status == 200 && reply.body.Some?)
      && (f.step.Done? ==> f.step.value == reply.body.value)
      && (f.step.Rejected? <==> |f.sent| == 1 && reply.status != 200)
      && (f.step.Rejected? ==> f.step.message == AuthRejected)
  {
    hide Strftime, SubtractSeconds, HeartRateRequest;
  }

  /** The heart-rate fetch sends one request exactly when the window can be
      computed: a GET of the user's heart-rate path, with the bearer token,
      from `window` seconds before the anchor to the anchor, sampled every
      `interval` seconds. */
  lemma HeartRateRequestWindow(userid: Json, accessToken: Json, anchor: Instant, window: int, interval: int,
                               reply: Response)
    ensures var f := HeartRateFetch(userid, accessToken, anchor, window, interval, reply);
      var start := SubtractSeconds(anchor, window);
      f.sent == if start.Ok? then [HeartRateRequest(userid, accessToken, Strftime(start.value), Strftime(anchor), interval)]
                else []
  {
  }

  /** The cycle fetch sends one request exactly when the window can be
      computed, and its window is five days ending at the anchor. */
  lemma CyclesRequestWindow(userid: Json, accessToken: Json, anchor: Instant, reply: Response)
    ensures var f := CyclesFetch(userid, accessToken, anchor, reply);
      var start := SubtractSeconds(anchor, 432000);
      f.sent == if start.Ok? then [CyclesRequest(userid, accessToken, Strftime(start.value), Strftime(anchor))] else []
  {
  }
}
