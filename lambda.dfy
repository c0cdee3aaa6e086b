/** The heart-rate-only variant run as a serverless function. The session
    object collects its output in a `lines` buffer instead of printing it:
    a rejected request appends an error line and returns, a formatting error
    replaces the whole buffer with one error line and exits. The handler
    reads the credentials from the request envelope and answers with status
    200 and the joined lines, or with status 400 when the envelope is
    malformed. The same code is deployed from two directories. */
module Lambda {
  import opened Python
  import opened Calendar
  import opened Whoop
  import opened LineProtocol
  import opened Host

  /** What the outside world supplies during one invocation: the replies to
      the token and heart-rate requests, datetime.utcnow() when the window is
      anchored, and time.time_ns() for the error line, if one is written. */
  datatype Environment = Environment(tokenReply: Response, heartRateReply: Response, utcNow: Instant, clockNs: int)

  /** The session after construction: the requests it sent, its lines, its
      user id, access token and raw data, and the exception that ended
      construction, if one did. */
  datatype Constructed = Constructed(sent: seq<Request>, lines: seq<string>, userid: Json, accessToken: Json,
                                     dataRaw: Json, raised: Option<PyError>)

  /** WhoopUser(username, password, ...): the token exchange, then, only
      when the user id it stored is truthy, the heart-rate fetch. A non-200
      reply leaves one error line in the buffer and nothing raised. */
  function Construct(username: Json, password: Json, config: Config, env: Environment): (c: Constructed)
    requires config.Valid()
    ensures 1 <= |c.sent| <= 2 && c.sent[0] == TokenRequest(username, password)
  {
    var token := TokenRequest(username, password);
    if env.tokenReply.status != 200 then
      Constructed([token], [ErrorLine(CredentialsRejected, env.clockNs)], Null, Null, Null, None)
    else
      match Credentials(env.tokenReply)
      case Err(e) =>
        Constructed([token], [], if UserId(env.tokenReply).Ok? then UserId(env.tokenReply).value else Null, Null, Null,
                    Some(e))
      case Ok(c) =>
        if !Truthy(c.0) then Constructed([token], [], c.0, c.1, Null, None)
        else
          var f := HeartRateFetch(c.0, c.1, Anchor(config.startDate, env.utcNow), config.windowSeconds,
                                  config.intervalSeconds, env.heartRateReply);
          match f.step
          case Done(data) => Constructed([token] + f.sent, [], c.0, c.1, data, None)
          case Failed(e) => Constructed([token] + f.sent, [], c.0, c.1, Null, Some(e))
          case Rejected(msg) => Constructed([token] + f.sent, [ErrorLine(msg, env.clockNs)], c.0, c.1, Null, None)
  }

  /** The response of a completed invocation. */
  function Ok200(lines: seq<string>): Json
  {
    Obj([("statusCode", Num(200)), ("body", Str(Join("\n", lines)))])
  }

  /** The response to a malformed envelope. */
  function BadRequest(e: PyError): Json
  {
    Obj([("statusCode", Num(400)), ("body", Str(DumpsMessage(Describe(e))))])
  }

  /** How an invocation ends: with a response, or by SystemExit, which no
      `except Exception` in the handler catches. */
  datatype Reply = Responded(response: Json) | Aborted

  /** What an invocation leaves behind: the requests it sent and its reply. */
  datatype Handled = Handled(sent: seq<Request>, reply: Reply)

  /** json.loads(event["body"]) and the two body.get calls. `parsed` is what
      json.loads returns for the envelope's body when that is a string. */
  function Envelope(event: Json, parsed: Result<Json>): (r: Result<(Json, Json)>)
    ensures r.Ok? <==> Subscript(event, "body").Ok? && Subscript(event, "body").value.Str?
                       && parsed.Ok? && parsed.value.Obj?
  {
    var text :- Subscript(event, "body");
    var body :- if text.Str? then parsed else Err(TypeError);
    var username :- DictGet(body, "whoop_username");
    // the second get cannot fail once the first has succeeded
    Ok((username, DictGet(body, "whoop_password").value))
  }

  /** lambda_handler(event, context), as written: the session is built with
      the default options; an exception while building it becomes the only
      line; the records are formatted only when data_raw is truthy, and a
      formatting error exits through the handler. */
  function Handle(event: Json, parsed: Result<Json>, env: Environment): Handled
  {
    match Envelope(event, parsed)
    case Err(e) => Handled([], Responded(BadRequest(e)))
    case Ok(credentials) =>
      var c := Construct(credentials.0, credentials.1, Defaults, env);
      if c.raised.Some? then Handled(c.sent, Responded(Ok200([ErrorLine(Describe(c.raised.value), env.clockNs)])))
      else if !Truthy(c.dataRaw) then Handled(c.sent, Responded(Ok200(c.lines)))
      else
        var em := HeartRatePass(c.userid, c.dataRaw);
        if em.failure.Some? then Handled(c.sent, Aborted)
        else Handled(c.sent, Responded(Ok200(c.lines + em.lines)))
  }

  /** The handler as evidently intended: a formatting error is answered like
      any other, with status 200 and the error line as the only line. */
  function HandleIntended(event: Json, parsed: Result<Json>, env: Environment): Handled
  {
    match Envelope(event, parsed)
    case Err(e) => Handled([], Responded(BadRequest(e)))
    case Ok(credentials) =>
      var c := Construct(credentials.0, credentials.1, Defaults, env);
      if c.raised.Some? then Handled(c.sent, Responded(Ok200([ErrorLine(Describe(c.raised.value), env.clockNs)])))
      else if !Truthy(c.dataRaw) then Handled(c.sent, Responded(Ok200(c.lines)))
      else
        var em := HeartRatePass(c.userid, c.dataRaw);
        if em.failure.Some? then Handled(c.sent, Responded(Ok200([ErrorLine(Describe(em.failure.value), env.clockNs)])))
        else Handled(c.sent, Responded(Ok200(c.lines + em.lines)))
  }

  /** The credentials are the envelope's "whoop_username" and
      "whoop_password" exactly as sent. */
  lemma EnvelopeCredentials(text: string, username: Json, password: Json)
    ensures Envelope(Obj([("body", Str(text))]), Ok(Obj([("whoop_username", username), ("whoop_password", password)])))
         == Ok((username, password))
  {
    var fields := [("whoop_username", username), ("whoop_password", password)];
    assert "whoop_username"[6] != "whoop_password"[6];
    assert Lookup(fields[1..], "whoop_password") == Some(password);
  }

  /** A JSON object without the two keys still yields credentials: both are
      None, and the token request carries them as such. */
  lemma EnvelopeMissingKeys(text: string)
    ensures Envelope(Obj([("body", Str(text))]), Ok(Obj([]))) == Ok((Null, Null))
  {
  }

  /** A malformed envelope is answered with status 400 and a JSON message in
      printable ASCII, and no request is sent; a well-formed one always sends
      the token request first, and whatever it answers carries status 200. */
  lemma HandleStatus(event: Json, parsed: Result<Json>, env: Environment)
    ensures var h := Handle(event, parsed, env);
      var e := Envelope(event, parsed);
      (e.Err? ==> h == Handled([], Responded(BadRequest(e.error)))
                  && forall i :: 0 <= i < |Escape(Describe(e.error))| ==> IsPrintable(Escape(Describe(e.error))[i]))
      && (e.Ok? ==> |h.sent| >= 1 && h.sent[0] == TokenRequest(e.value.0, e.value.1)
                    && (h.reply.Responded? ==> h.reply.response.fields[0] == ("statusCode", Num(200))))
  {
    hide Construct, HeartRatePass, ErrorLine, Describe, Escape;
    var e := Envelope(event, parsed);
    if e.Err? {
      EscapeIsAscii(Describe(e.error));
    }
  }

  /** A rejected token exchange is answered with status 200 and the
      rejection as the only line; nothing but the token request is sent. */
  lemma HandleRejectedToken(event: Json, parsed: Result<Json>, env: Environment)
    requires Envelope(event, parsed).Ok? && env.tokenReply.status != 200
    ensures var credentials := Envelope(event, parsed).value;
      Handle(event, parsed, env)
        == Handled([TokenRequest(credentials.0, credentials.1)], Responded(Ok200([ErrorLine(CredentialsRejected, env.clockNs)])))
  {
    hide ErrorLine, TokenRequest, HeartRatePass;
  }

  /** At most one metric request follows the token request. It goes out
      exactly when the token reply is a 200 carrying both credentials, the
      user id is truthy and the window can be computed; it asks for the 480
      seconds ending at datetime.utcnow(), in 6-second steps. */
  lemma HandleRequests(event: Json, parsed: Result<Json>, env: Environment)
    requires Envelope(event, parsed).Ok?
    ensures var h := Handle(event, parsed, env);
      var cr := Credentials(env.tokenReply);
      var start := SubtractSeconds(env.utcNow, 480);
      1 <= |h.sent| <= 2
      && (|h.sent| == 2 <==> env.tokenReply.status == 200 && cr.Ok? && Truthy(cr.value.0) && start.Ok?)
      && (|h.sent| == 2 ==>
            h.sent[1] == HeartRateRequest(cr.value.0, cr.value.1, Strftime(start.value), Strftime(env.utcNow), 6))
  {
    hide Strftime, SubtractSeconds, ApiWindow, HeartRatePass, HeartRateFetch, Fetch, HeartRateRequest,
      TokenRequest, ErrorLine, UserId, AccessToken, Describe;
    var cr := Credentials(env.tokenReply);
    if env.tokenReply.status == 200 && cr.Ok? {
      HeartRateRequestWindow(cr.value.0, cr.value.1, env.utcNow, 480, 6, env.heartRateReply);
    }
  }

  /** A well-formed heart-rate payload is answered with status 200 and one
      record per sample, in order, after exactly the two requests. */
  lemma HandleRecords(event: Json, parsed: Result<Json>, env: Environment, userid: Json, accessToken: Json,
                      samples: seq<(int, Json)>)
    requires Envelope(event, parsed).Ok?
    requires env.tokenReply == Response(200, Some(TokenBody(userid, accessToken))) && Truthy(userid)
    requires SubtractSeconds(env.utcNow, 480).Ok?
    requires env.heartRateReply == Response(200, Some(HeartRateJson(samples)))
    ensures var credentials := Envelope(event, parsed).value;
      Handle(event, parsed, env)
        == Handled([TokenRequest(credentials.0, credentials.1),
                    HeartRateRequest(userid, accessToken, Strftime(SubtractSeconds(env.utcNow, 480).value),
                                     Strftime(env.utcNow), 6)],
                   Responded(Ok200(HeartRateLines(userid, samples))))
  {
    hide Strftime, SubtractSeconds, HeartRatePass, HeartRateRequest, TokenRequest, HeartRateLines, Construct,
      Envelope, Ok200, HeartRateJson;
    var credentials := Envelope(event, parsed).value;
    ConstructFetched(credentials.0, credentials.1, env, userid, accessToken, HeartRateJson(samples));
    HeartRateLinesPerSample(userid, samples);
    assert [] + HeartRateLines(userid, samples) == HeartRateLines(userid, samples);
  }

  /** With the documented token reply and a 200 heart-rate reply, the
      default session sends exactly the two requests, keeps no line, and
      stores the user id, the token and the payload as sent. */
  lemma ConstructFetched(username: Json, password: Json, env: Environment, userid: Json, accessToken: Json, data: Json)
    requires env.tokenReply == Response(200, Some(TokenBody(userid, accessToken))) && Truthy(userid)
    requires SubtractSeconds(env.utcNow, 480).Ok?
    requires env.heartRateReply == Response(200, Some(data))
    ensures Construct(username, password, Defaults, env)
         == Constructed([TokenRequest(username, password),
                         HeartRateRequest(userid, accessToken, Strftime(SubtractSeconds(env.utcNow, 480).value),
                                          Strftime(env.utcNow), 6)],
                        [], userid, accessToken, data, None)
  {
    hide Strftime, SubtractSeconds, ApiWindow, HeartRateFetch, Fetch, HeartRateRequest, TokenRequest, ErrorLine,
      UserId, AccessToken, Construct, Credentials;
    TokenFieldsUnmodified(userid, accessToken);
    HeartRateRequestWindow(userid, accessToken, env.utcNow, 480, 6, env.heartRateReply);
    FetchSends(userid, accessToken, env.utcNow, 480, 6, env.heartRateReply);
    ConstructFetch(username, password, Defaults, env);
  }


  /** Construction once the token exchange produced a truthy user id: the
      fetch decides the rest. */
  lemma ConstructFetch(username: Json, password: Json, config: Config, env: Environment)
    requires config.Valid() && env.tokenReply.status == 200
    requires Credentials(env.tokenReply).Ok? && Truthy(Credentials(env.tokenReply).value.0)
    ensures var cr := Credentials(env.tokenReply).value;
      var f := HeartRateFetch(cr.0, cr.1, Anchor(config.startDate, env.utcNow), config.windowSeconds,
                              config.intervalSeconds, env.heartRateReply);
      Construct(username, password, config, env)
        == Constructed([TokenRequest(username, password)] + f.sent,
                       if f.step.Rejected? then [ErrorLine(f.step.message, env.clockNs)] else [], cr.0, cr.1,
                       if f.step.Done? then f.step.value else Null, if f.step.Failed? then Some(f.step.error) else None)
  {
    hide Strftime, SubtractSeconds, ApiWindow, HeartRateFetch, Fetch, HeartRateRequest, TokenRequest, ErrorLine,
      UserId, AccessToken, Anchor;
  }

  /** A rejected token exchange leaves exactly the rejection line, sends
      nothing after the token request and leaves the user id None, so no
      fetch happens. */
  lemma ConstructRejected(username: Json, password: Json, config: Config, env: Environment)
    requires config.Valid() && env.tokenReply.status != 200
    ensures Construct(username, password, config, env)
         == Constructed([TokenRequest(username, password)], [ErrorLine(CredentialsRejected, env.clockNs)], Null, Null,
                        Null, None)
  {
    hide TokenRequest, ErrorLine;
  }

  /** A heart-rate request answered with a status other than 200 leaves
      exactly the rejection line and no data. */
  lemma ConstructFetchRejected(username: Json, password: Json, config: Config, env: Environment)
    requires config.Valid() && env.tokenReply.status == 200
    requires Credentials(env.tokenReply).Ok? && Truthy(Credentials(env.tokenReply).value.0)
    requires SubtractSeconds(Anchor(config.startDate, env.utcNow), config.windowSeconds).Ok?
    requires env.heartRateReply.status != 200
    ensures var c := Construct(username, password, config, env);
      |c.sent| == 2 && c.lines == [ErrorLine(AuthRejected, env.clockNs)] && c.dataRaw == Null && c.raised.None?
  {
    hide Strftime, SubtractSeconds, ApiWindow, HeartRateFetch, Fetch, HeartRateRequest, TokenRequest, ErrorLine,
      UserId, AccessToken, Anchor, Credentials, Construct;
    var cr := Credentials(env.tokenReply).value;
    FetchSends(cr.0, cr.1, Anchor(config.startDate, env.utcNow), config.windowSeconds, config.intervalSeconds,
               env.heartRateReply);
    ConstructFetch(username, password, config, env);
  }

  /** Construction leaves at most one line, an error report, and leaves
      none when it raised or kept the heart-rate data. */
  lemma ConstructLines(username: Json, password: Json, config: Config, env: Environment)
    requires config.Valid()
    ensures var c := Construct(username, password, config, env);
      |c.lines| <= 1 && (forall l :: l in c.lines ==> IsErrorLine(l))
      && (c.raised.Some? || Truthy(c.dataRaw) ==> c.lines == [])
  {
    hide Strftime, SubtractSeconds, ApiWindow, HeartRateFetch, Fetch, HeartRateRequest, TokenRequest, ErrorLine,
      UserId, AccessToken, Anchor, Credentials;
    ErrorLineKind(CredentialsRejected, env.clockNs);
    if env.tokenReply.status == 200 && Credentials(env.tokenReply).Ok? {
      var cr := Credentials(env.tokenReply).value;
      var f := HeartRateFetch(cr.0, cr.1, Anchor(config.startDate, env.utcNow), config.windowSeconds,
                              config.intervalSeconds, env.heartRateReply);
      if f.step.Rejected? {
        ErrorLineKind(f.step.message, env.clockNs);
      }
    }
  }

  /** What an invocation answers with status 200 is either heart-rate
      records only or one error line alone. */
  lemma HandleLines(event: Json, parsed: Result<Json>, env: Environment)
    requires Envelope(event, parsed).Ok?
    ensures var h := Handle(event, parsed, env);
      h.reply.Responded? ==>
        exists lines :: h.reply.response == Ok200(lines)
          && ((forall l :: l in lines ==> IsHeartRateRecord(l)) || (|lines| == 1 && IsErrorLine(lines[0])))
  {
    hide Construct, HeartRatePass, ErrorLine, Describe, Ok200, Envelope;
    var credentials := Envelope(event, parsed).value;
    var c := Construct(credentials.0, credentials.1, Defaults, env);
    ConstructLines(credentials.0, credentials.1, Defaults, env);
    if c.raised.Some? {
      ErrorLineKind(Describe(c.raised.value), env.clockNs);
      assert Handle(event, parsed, env).reply.response == Ok200([ErrorLine(Describe(c.raised.value), env.clockNs)]);
    } else if !Truthy(c.dataRaw) {
      assert Handle(event, parsed, env).reply.response == Ok200(c.lines);
    } else {
      var em := HeartRatePass(c.userid, c.dataRaw);
      HeartRatePassKinds(c.userid, c.dataRaw);
      if em.failure.None? {
        assert c.lines + em.lines == em.lines;
        assert Handle(event, parsed, env).reply.response == Ok200(em.lines);
      }
    }
  }

  /** As written: a 200 heart-rate reply holding an object without "values"
      makes the formatting raise KeyError and exit, and the SystemExit
      escapes the handler, which then answers nothing. */
  lemma HandleAborts(event: Json, parsed: Result<Json>, env: Environment, userid: Json, accessToken: Json,
                     fields: seq<(string, Json)>)
    requires Envelope(event, parsed).Ok?
    requires env.tokenReply == Response(200, Some(TokenBody(userid, accessToken))) && Truthy(userid)
    requires SubtractSeconds(env.utcNow, 480).Ok?
    requires env.heartRateReply == Response(200, Some(Obj(fields))) && fields != [] && Lookup(fields, "values").None?
    ensures Handle(event, parsed, env).reply == Aborted
  {
    hide Strftime, SubtractSeconds, ApiWindow, HeartRatePass, HeartRateFetch, Fetch, HeartRateRequest,
      TokenRequest, ErrorLine, UserId, AccessToken, Describe, Construct, Credentials, Envelope;
    var credentials := Envelope(event, parsed).value;
    TokenFieldsUnmodified(userid, accessToken);
    FetchSends(userid, accessToken, env.utcNow, 480, 6, env.heartRateReply);
    ConstructFetch(credentials.0, credentials.1, Defaults, env);
    MissingValues(userid, fields);
  }

  /** Corrected: the same reply is answered with status 200 and the
      KeyError's error line alone. */
  lemma HandleIntendedResponds(event: Json, parsed: Result<Json>, env: Environment, userid: Json, accessToken: Json,
                               fields: seq<(string, Json)>)
    requires Envelope(event, parsed).Ok?
    requires env.tokenReply == Response(200, Some(TokenBody(userid, accessToken))) && Truthy(userid)
    requires SubtractSeconds(env.utcNow, 480).Ok?
    requires env.heartRateReply == Response(200, Some(Obj(fields))) && fields != [] && Lookup(fields, "values").None?
    ensures HandleIntended(event, parsed, env).reply
         == Responded(Ok200([ErrorLine(Describe(KeyError(Str("values"))), env.clockNs)]))
  {
    hide Strftime, SubtractSeconds, ApiWindow, HeartRatePass, HeartRateFetch, Fetch, HeartRateRequest,
      TokenRequest, ErrorLine, UserId, AccessToken, Describe, Construct, Credentials, Envelope;
    var credentials := Envelope(event, parsed).value;
    TokenFieldsUnmodified(userid, accessToken);
    FetchSends(userid, accessToken, env.utcNow, 480, 6, env.heartRateReply);
    ConstructFetch(credentials.0, credentials.1, Defaults, env);
    MissingValues(userid, fields);
  }

  /** The corrected handler always answers; it sends what the handler as
      written sends, and answers as it does wherever that one answers. */
  lemma HandleIntendedAgrees(event: Json, parsed: Result<Json>, env: Environment)
    ensures var h, i := Handle(event, parsed, env), HandleIntended(event, parsed, env);
      i.reply.Responded? && i.sent == h.sent && (h.reply.Responded? ==> i == h)
  {
    hide Construct, HeartRatePass, ErrorLine, Describe, Envelope;
  }

  class WhoopUser {
    const process: Process
    var username: Json
    var password: Json
    var lines: seq<string>
    var dataRaw: Json
    var userid: Json
    var accessToken: Json
    var startDate: Option<Date>
    var startDatetime: Instant
    var windowSeconds: int
    var intervalSeconds: int

    /** The credentials are stored, the buffer starts empty, and data_raw,
        userid and access_token start as None. */
    constructor(process: Process, username: Json, password: Json)
      ensures this.process == process && this.username == username && this.password == password
      ensures lines == [] && dataRaw == Null && userid == Null && accessToken == Null
    {
      this.process := process;
      this.username := username;
      this.password := password;
      lines := [];
      dataRaw := Null;
      userid := Null;
      accessToken := Null;
      startDate := None;
      startDatetime := 0;
      windowSeconds := 0;
      intervalSeconds := 0;
    }

    /** The rest of __init__: the token, then, only when the user id is
        truthy, the options, the anchor and the fetch. */
    method Init(config: Config, env: Environment) returns (outcome: Outcome)
      requires config.Valid()
      requires lines == [] && dataRaw == Null && userid == Null && accessToken == Null
      modifies this, process
      ensures username == old(username) && password == old(password)
      ensures var c := Construct(username, password, config, env);
        process.sent == old(process.sent) + c.sent && lines == c.lines && dataRaw == c.dataRaw
        && userid == c.userid && accessToken == c.accessToken
        && (outcome == if c.raised.Some? then Raised(c.raised.value) else Normal)
      ensures var fetching := env.tokenReply.status == 200 && Credentials(env.tokenReply).Ok?
                              && Truthy(Credentials(env.tokenReply).value.0);
        (fetching ==> startDate == config.startDate && startDatetime == Anchor(config.startDate, env.utcNow)
                      && windowSeconds == config.windowSeconds && intervalSeconds == config.intervalSeconds)
        && (!fetching ==> startDate == old(startDate) && startDatetime == old(startDatetime)
                          && windowSeconds == old(windowSeconds) && intervalSeconds == old(intervalSeconds))
    {
      hide HeartRateFetch, Fetch, ApiWindow, Strftime, SubtractSeconds, Anchor, ErrorLine, UserId, AccessToken,
        TokenRequest, HeartRateRequest;
      outcome := GetToken(env.tokenReply, env.clockNs);
      if outcome != Normal || !Truthy(userid) {
        return;
      }
      startDate := config.startDate;
      SetStartDt(env.utcNow);
      windowSeconds := config.windowSeconds;
      intervalSeconds := config.intervalSeconds;
      ghost var token := [TokenRequest(username, password)];
      ghost var f := HeartRateFetch(userid, accessToken, startDatetime, windowSeconds, intervalSeconds,
                                    env.heartRateReply);
      outcome := GetData(env.heartRateReply, env.clockNs);
      AppendAssoc(old(process.sent), token, f.sent);
    }

    /** Post the credentials; a non-200 reply appends the rejection and
        returns, otherwise the user id and then the token are read from the
        body, each read raising when the body lacks it. */
    method GetToken(reply: Response, clockNs: int) returns (outcome: Outcome)
      modifies this`userid, this`accessToken, this`lines, process`sent
      ensures process.sent == old(process.sent) + [TokenRequest(username, password)]
      ensures reply.status != 200 ==>
        outcome == Normal && lines == old(lines) + [ErrorLine(CredentialsRejected, clockNs)]
        && userid == old(userid) && accessToken == old(accessToken)
      ensures reply.status == 200 ==>
        lines == old(lines)
        && outcome == (if Credentials(reply).Ok? then Normal else Raised(Credentials(reply).error))
        && userid == (if UserId(reply).Ok? then UserId(reply).value else old(userid))
        && accessToken == (if Credentials(reply).Ok? then AccessToken(reply).value else old(accessToken))
    {
      process.Send(TokenRequest(username, password));
      if reply.status != 200 {
        lines := lines + [ErrorLine(CredentialsRejected, clockNs)];
        return Normal;
      }
      var id := UserId(reply);
      if id.Err? {
        return Raised(id.error);
      }
      userid := id.value;
      var token := AccessToken(reply);
      if token.Err? {
        return Raised(token.error);
      }
      accessToken := token.value;
      return Normal;
    }

    /** Midnight of the start date when there is one, otherwise now. */
    method SetStartDt(utcNow: Instant)
      requires startDate.Some? ==> startDate.value.Valid()
      modifies this`startDatetime
      ensures startDate.Some? ==> startDatetime == Midnight(startDate.value)
      ensures startDate.None? ==> startDatetime == utcNow
    {
      if startDate.Some? {
        startDatetime := Midnight(startDate.value);
      } else {
        startDatetime := utcNow;
      }
    }

    /** Render the window ending at the anchor, send the GET, check the
        status and decode the body; a non-200 reply appends the rejection and
        leaves data_raw unset. */
    method GetData(reply: Response, clockNs: int) returns (outcome: Outcome)
      modifies this`lines, this`dataRaw, process`sent
      ensures var f := HeartRateFetch(userid, accessToken, startDatetime, windowSeconds, intervalSeconds, reply);
        process.sent == old(process.sent) + f.sent
        && lines == old(lines) + (if f.step.Rejected? then [ErrorLine(f.step.message, clockNs)] else [])
        && dataRaw == (if f.step.Done? then f.step.value else old(dataRaw))
        && outcome == (if f.step.Failed? then Raised(f.step.error) else Normal)
    {
      hide Strftime, SubtractSeconds;
      var window := ApiWindow(startDatetime, windowSeconds);
      if window.Err? {
        return Raised(window.error);
      }
      var request := HeartRateRequest(userid, accessToken, window.value.0, window.value.1, intervalSeconds);
      process.Send(request);
      if reply.status != 200 {
        lines := lines + [ErrorLine(AuthRejected, clockNs)];
        return Normal;
      }
      var data := Decode(reply);
      if data.Err? {
        return Raised(data.error);
      }
      dataRaw := data.value;
      return Normal;
    }

    /** Append one record per sample; on the first exception the buffer is
        replaced by the error line alone and the process exits. */
    method PrintLineProtocol(clockNs: int) returns (outcome: Outcome)
      modifies this`lines
      ensures var em := HeartRatePass(userid, dataRaw);
        (em.failure.None? ==> lines == old(lines) + em.lines && outcome == Normal)
        && (em.failure.Some? ==> lines == [ErrorLine(Describe(em.failure.value), clockNs)] && outcome == Exited)
    {
      hide HeartRateLine, Times, ErrorLine, Describe;
      var samples := Samples(dataRaw);
      if samples.Err? {
        lines := [ErrorLine(Describe(samples.error), clockNs)];
        return Exited;
      }
      var records := SampleRecords(userid, samples.value);
      var i := 0;
      while i < |samples.value|
        invariant 0 <= i <= |samples.value|
        invariant Collect(records[..i]).failure.None?
        invariant lines == old(lines) + Collect(records[..i]).lines
      {
        CollectStep(records, i);
        var record := SampleRecord(userid, samples.value[i]);
        if record.Err? {
          CollectStops(records, i + 1);
          lines := [ErrorLine(Describe(record.error), clockNs)];
          return Exited;
        }
        lines := lines + [record.value];
        i := i + 1;
      }
      assert records[..i] == records;
      return Normal;
    }
  }

  /** lambda_handler(event, context): `parsed` stands for json.loads of the
      envelope's body. */
  method LambdaHandler(event: Json, parsed: Result<Json>, env: Environment) returns (sent: seq<Request>, reply: Reply)
    ensures Handled(sent, reply) == Handle(event, parsed, env)
  {
    hide Construct, HeartRatePass, ErrorLine, Describe;
    var text := Subscript(event, "body");
    if text.Err? {
      return [], Responded(BadRequest(text.error));
    }
    if !text.value.Str? {
      return [], Responded(BadRequest(TypeError));
    }
    if parsed.Err? {
      return [], Responded(BadRequest(parsed.error));
    }
    var username := DictGet(parsed.value, "whoop_username");
    if username.Err? {
      return [], Responded(BadRequest(username.error));
    }
    var password := DictGet(parsed.value, "whoop_password").value;
    var process := new Process();
    var user := new WhoopUser(process, username.value, password);
    var outcome := user.Init(Defaults, env);
    var lines: seq<string> := [];
    if outcome.Raised? {
      lines := lines + [ErrorLine(Describe(outcome.error), env.clockNs)];
    } else {
      if Truthy(user.dataRaw) {
        outcome := user.PrintLineProtocol(env.clockNs);
        if outcome.Exited? {
          return process.sent, Aborted;
        }
      }
      lines := user.lines;
    }
    return process.sent, Responded(Ok200(lines));
  }
}
