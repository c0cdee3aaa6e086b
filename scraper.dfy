/** The command-line scraper: a session object that exchanges the credentials
    for a token, fetches the heart-rate samples and the cycle days of its
    windows, and prints them as line protocol. A non-200 reply prints an
    error line and exits; any other exception reaching `main` is printed as
    an error line there. */
module Scraper {
  import opened Python
  import opened Calendar
  import opened Whoop
  import opened LineProtocol
  import opened Host

  /** What the outside world supplies during one run: the server's reply to
      each request, datetime.utcnow() at each of the two window
      computations, and time.time_ns() for the error line, if one is
      written. */
  datatype Environment = Environment(
    tokenReply: Response, heartRateReply: Response, cyclesReply: Response,
    heartRateNow: Instant, cyclesNow: Instant, clockNs: int)

  /** Everything the session has gathered when construction succeeds. */
  datatype Session = Session(userid: Json, accessToken: Json, heartrate: Json, cycles: Json)

  /** The requests construction sent, and how it ended. */
  datatype Prepared = Prepared(sent: seq<Request>, step: Step<Session>)

  /** A stage that did not complete, carried over to another result type. */
  function Halt<T>(s: Step<Json>): (r: Step<T>)
    requires !s.Done?
    ensures r.Failed? <==> s.Failed?
    ensures r.Failed? ==> r.error == s.error
    ensures r.Rejected? ==> r.message == s.message
  {
    match s
    case Failed(e) => Failed(e)
    case Rejected(m) => Rejected(m)
  }

  /** WhoopUser(username, password, ...) as a sequence of stages: the token
      exchange, then the heart-rate fetch, then the cycle fetch, each
      starting only when the previous one completed. */
  function Prepare(username: Json, password: Json, config: Config, env: Environment): Prepared
    requires config.Valid()
  {
    var token := TokenRequest(username, password);
    if env.tokenReply.status != 200 then Prepared([token], Rejected(CredentialsRejected))
    else
      match Credentials(env.tokenReply)
      case Err(e) => Prepared([token], Failed(e))
      case Ok(c) =>
        var hr := HeartRateFetch(c.0, c.1, Anchor(config.startDate, env.heartRateNow),
                                 config.windowSeconds, config.intervalSeconds, env.heartRateReply);
        if !hr.step.Done? then Prepared([token] + hr.sent, Halt(hr.step))
        else
          var cy := CyclesFetch(c.0, c.1, Anchor(config.startDate, env.cyclesNow), env.cyclesReply);
          Prepared([token] + hr.sent + cy.sent,
                   if cy.step.Done? then Done(Session(c.0, c.1, hr.step.value, cy.step.value)) else Halt(cy.step))
  }

  /** What a run leaves behind: its standard output, the requests it sent,
      and whether it ended by exit(). */
  datatype Transcript = Transcript(stdout: seq<string>, sent: seq<Request>, exited: bool)

  /** main(): construct the session and print its records; a non-200 reply
      has already printed its error line and exited, any other exception is
      printed by main. */
  function Run(username: Json, password: Json, config: Config, env: Environment): Transcript
    requires config.Valid()
  {
    var p := Prepare(username, password, config, env);
    match p.step
    case Rejected(msg) => Transcript([ErrorLine(msg, env.clockNs)], p.sent, true)
    case Failed(e) => Transcript([ErrorLine(Describe(e), env.clockNs)], p.sent, false)
    case Done(s) =>
      var em := ScraperPass(s.userid, s.heartrate, s.cycles);
      Transcript(em.lines + Report(em.failure, env.clockNs), p.sent, em.failure.Some?)
  }

  /** A rejected token: exactly the rejection line is printed, only the
      token request was sent, and the process exits. */
  lemma RunCredentialsRejected(username: Json, password: Json, config: Config, env: Environment)
    requires config.Valid() && env.tokenReply.status != 200
    ensures Run(username, password, config, env)
         == Transcript([ErrorLine(CredentialsRejected, env.clockNs)], [TokenRequest(username, password)], true)
  {
  }

  /** The token request goes out first and alone unless the token reply is a
      200 carrying both credentials; at most the two metric requests follow. */
  lemma RunRequestOrder(username: Json, password: Json, config: Config, env: Environment)
    requires config.Valid()
    ensures var t := Run(username, password, config, env);
      1 <= |t.sent| <= 3 && t.sent[0] == TokenRequest(username, password)
      && (|t.sent| > 1 ==> env.tokenReply.status == 200 && Credentials(env.tokenReply).Ok?)
  {
    hide Strftime, SubtractSeconds, ApiWindow, Anchor, ScraperPass, HeartRateFetch, CyclesFetch, Fetch,
      HeartRateRequest, CyclesRequest, TokenRequest, ErrorLine, UserId, AccessToken;
    if env.tokenReply.status == 200 && Credentials(env.tokenReply).Ok? {
      var c := Credentials(env.tokenReply).value;
      HeartRateRequestWindow(c.0, c.1, Anchor(config.startDate, env.heartRateNow), config.windowSeconds,
                             config.intervalSeconds, env.heartRateReply);
      CyclesRequestWindow(c.0, c.1, Anchor(config.startDate, env.cyclesNow), env.cyclesReply);
    }
  }

  /** With the documented token reply, both metric requests carry the user id
      and token unchanged; the heart-rate request spans the configured window
      and the cycle request five days, each ending at its own anchor. */
  lemma RunWindows(username: Json, password: Json, config: Config, env: Environment, userid: Json, accessToken: Json)
    requires config.Valid()
    requires env.tokenReply == Response(200, Some(TokenBody(userid, accessToken)))
    requires SubtractSeconds(Anchor(config.startDate, env.heartRateNow), config.windowSeconds).Ok?
    ensures var t := Run(username, password, config, env);
      var hr := Anchor(config.startDate, env.heartRateNow);
      var cy := Anchor(config.startDate, env.cyclesNow);
      |t.sent| >= 2
      && t.sent[1] == HeartRateRequest(userid, accessToken,
                                       Strftime(SubtractSeconds(hr, config.windowSeconds).value), Strftime(hr),
                                       config.intervalSeconds)
      && (env.heartRateReply.status == 200 && env.heartRateReply.body.Some?
          && SubtractSeconds(cy, CycleWindow).Ok? ==>
            |t.sent| == 3
            && t.sent[2] == CyclesRequest(userid, accessToken, Strftime(SubtractSeconds(cy, CycleWindow).value),
                                          Strftime(cy)))
  {
    hide Strftime, SubtractSeconds, ScraperPass, HeartRateFetch, CyclesFetch, Fetch, ApiWindow, Anchor,
      HeartRateRequest, CyclesRequest, TokenRequest, ErrorLine, UserId, AccessToken;
    TokenFieldsUnmodified(userid, accessToken);
    var hr := Anchor(config.startDate, env.heartRateNow);
    var cy := Anchor(config.startDate, env.cyclesNow);
    HeartRateRequestWindow(userid, accessToken, hr, config.windowSeconds, config.intervalSeconds, env.heartRateReply);
    FetchSends(userid, accessToken, hr, config.windowSeconds, config.intervalSeconds, env.heartRateReply);
    CyclesRequestWindow(userid, accessToken, cy, env.cyclesReply);
  }

  /** A heart-rate fetch that does not complete ends the run: no cycle
      request follows the token and heart-rate requests, a rejection prints
      only its line and exits, and an exception prints only its error line. */
  lemma RunHeartRateAborts(username: Json, password: Json, config: Config, env: Environment)
    requires config.Valid()
    requires env.tokenReply.status == 200 && Credentials(env.tokenReply).Ok?
    ensures var c := Credentials(env.tokenReply).value;
      var hr := Anchor(config.startDate, env.heartRateNow);
      var f := HeartRateFetch(c.0, c.1, hr, config.windowSeconds, config.intervalSeconds, env.heartRateReply);
      var t := Run(username, password, config, env);
      !f.step.Done? ==>
        t.sent == [TokenRequest(username, password)] + f.sent && |t.sent| <= 2
        && (f.step.Rejected? ==>
              t.stdout == [ErrorLine(AuthRejected, env.clockNs)] && t.exited
              && t.sent == [TokenRequest(username, password),
                            HeartRateRequest(c.0, c.1, Strftime(SubtractSeconds(hr, config.windowSeconds).value),
                                             Strftime(hr), config.intervalSeconds)])
        && (f.step.Failed? ==> t.stdout == [ErrorLine(Describe(f.step.error), env.clockNs)] && !t.exited)
  {
    hide Strftime, SubtractSeconds, ScraperPass, CyclesFetch, Fetch, ApiWindow, Anchor,
      HeartRateRequest, CyclesRequest, TokenRequest, ErrorLine, UserId, AccessToken;
    var c := Credentials(env.tokenReply).value;
    var hr := Anchor(config.startDate, env.heartRateNow);
    FetchSends(c.0, c.1, hr, config.windowSeconds, config.intervalSeconds, env.heartRateReply);
    HeartRateRequestWindow(c.0, c.1, hr, config.windowSeconds, config.intervalSeconds, env.heartRateReply);
  }

  /** Every line but the last is a record; the last line is an error report
      exactly when the run did not complete, that is when a request was
      rejected or an exception was raised. */
  lemma RunErrorLast(username: Json, password: Json, config: Config, env: Environment)
    requires config.Valid()
    ensures var t := Run(username, password, config, env);
      var p := Prepare(username, password, config, env);
      var completed := p.step.Done?
        && ScraperPass(p.step.value.userid, p.step.value.heartrate, p.step.value.cycles).failure.None?;
      (forall i :: 0 <= i < |t.stdout| - 1 ==> IsHeartRateRecord(t.stdout[i]) || IsCycleRecord(t.stdout[i]))
      && (completed <==> |t.stdout| == 0 || !IsErrorLine(t.stdout[|t.stdout| - 1]))
      && (completed ==> forall l :: l in t.stdout ==> IsHeartRateRecord(l) || IsCycleRecord(l))
  {
    hide Prepare, HeartRatePass, CyclePass, ErrorLine, Describe;
    var t := Run(username, password, config, env);
    var p := Prepare(username, password, config, env);
    match p.step
    case Rejected(msg) =>
      ErrorLineKind(msg, env.clockNs);
    case Failed(e) =>
      ErrorLineKind(Describe(e), env.clockNs);
    case Done(s) =>
      var em := ScraperPass(s.userid, s.heartrate, s.cycles);
      HeartRatePassKinds(s.userid, s.heartrate);
      CyclePassKinds(s.userid, s.cycles);
      assert forall l :: l in em.lines ==> IsHeartRateRecord(l) || IsCycleRecord(l) by {
        ThenLines(HeartRatePass(s.userid, s.heartrate), CyclePass(s.userid, s.cycles));
      }
      if em.failure.Some? {
        ErrorLineKind(Describe(em.failure.value), env.clockNs);
        assert t.stdout[..|t.stdout| - 1] == em.lines;
        assert forall i :: 0 <= i < |t.stdout| - 1 ==> t.stdout[i] in em.lines;
      } else if |em.lines| > 0 {
        assert t.stdout[|t.stdout| - 1] in em.lines;
        RecordsAreNotErrors(t.stdout[|t.stdout| - 1]);
      }
  }

  /** A heart-rate payload without "values" prints only the KeyError's
      error line and exits. */
  lemma RunMissingValues(username: Json, password: Json, config: Config, env: Environment, fields: seq<(string, Json)>)
    requires config.Valid()
    requires var p := Prepare(username, password, config, env);
      p.step.Done? && p.step.value.heartrate == Obj(fields) && Lookup(fields, "values").None?
    ensures var t := Run(username, password, config, env);
      t.stdout == [ErrorLine(Describe(KeyError(Str("values"))), env.clockNs)] && t.exited
  {
    hide Prepare;
    var s := Prepare(username, password, config, env).step.value;
    MissingValues(s.userid, fields);
  }

  /** How a method of the session ends after a stage. */
  function OutcomeOf<T>(s: Step<T>): (o: Outcome)
    ensures o.Normal? <==> s.Done?
    ensures o.Exited? <==> s.Rejected?
  {
    match s
    case Done(_) => Normal
    case Failed(e) => Raised(e)
    case Rejected(_) => Exited
  }

  /** The line a stage prints: only a rejected request prints one. */
  function Printed<T>(s: Step<T>, ns: int): (r: seq<string>)
    ensures |r| <= 1
  {
    if s.Rejected? then [ErrorLine(s.message, ns)] else []
  }

  class WhoopUser {
    const process: Process
    var username: Json
    var password: Json
    var userid: Json
    var accessToken: Json
    var startDate: Option<Date>
    var windowSeconds: int
    var intervalSeconds: int
    var startDatetime: Instant
    var apiStartTime: string
    var apiEndTime: string
    var heartrateData: Json
    var sleepWorkoutData: Json

    /** The credentials are stored; every attribute a later step assigns
        starts out empty, and no step reads one before assigning it. */
    constructor(process: Process, username: Json, password: Json)
      ensures this.process == process && this.username == username && this.password == password
      ensures userid == Null && accessToken == Null && startDate.None?
      ensures heartrateData == Null && sleepWorkoutData == Null
    {
      this.process := process;
      this.username := username;
      this.password := password;
      userid := Null;
      accessToken := Null;
      startDate := None;
      windowSeconds := 0;
      intervalSeconds := 0;
      startDatetime := 0;
      apiStartTime := "";
      apiEndTime := "";
      heartrateData := Null;
      sleepWorkoutData := Null;
    }

    /** The rest of __init__: the token, the options, then both fetches. */
    method Init(config: Config, env: Environment) returns (outcome: Outcome)
      requires config.Valid()
      modifies this, process
      ensures username == old(username) && password == old(password)
      ensures var p := Prepare(username, password, config, env);
        process.sent == old(process.sent) + p.sent
        && process.stdout == old(process.stdout) + Printed(p.step, env.clockNs)
        && outcome == OutcomeOf(p.step)
        && (p.step.Done? ==> userid == p.step.value.userid && accessToken == p.step.value.accessToken
                             && heartrateData == p.step.value.heartrate
                             && sleepWorkoutData == p.step.value.cycles)
      ensures var tokenOk := env.tokenReply.status == 200 && Credentials(env.tokenReply).Ok?;
        (!tokenOk ==> startDate == old(startDate) && windowSeconds == old(windowSeconds)
                      && intervalSeconds == old(intervalSeconds) && startDatetime == old(startDatetime)
                      && apiStartTime == old(apiStartTime) && apiEndTime == old(apiEndTime))
        && (tokenOk ==>
              var c := Credentials(env.tokenReply).value;
              var hr := HeartRateFetch(c.0, c.1, Anchor(config.startDate, env.heartRateNow), config.windowSeconds,
                                       config.intervalSeconds, env.heartRateReply);
              var w := ApiWindow(startDatetime, windowSeconds);
              startDate == config.startDate && intervalSeconds == config.intervalSeconds
              && windowSeconds == (if hr.step.Done? then CycleWindow else config.windowSeconds)
              && startDatetime == Anchor(config.startDate, if hr.step.Done? then env.cyclesNow else env.heartRateNow)
              && apiEndTime == Strftime(startDatetime)
              && (w.Ok? ==> apiStartTime == w.value.0))
    {
      hide HeartRateFetch, CyclesFetch, Fetch, ApiWindow, Strftime, SubtractSeconds, UserId, AccessToken, Anchor, ErrorLine,
        TokenRequest, Credentials, HeartRateRequest, CyclesRequest, Midnight;
      outcome := GetToken(env.tokenReply, env.clockNs);
      if outcome != Normal {
        return;
      }
      assert Credentials(env.tokenReply) == Ok((userid, accessToken));
      ghost var token := [TokenRequest(username, password)];
      ghost var hr := HeartRateFetch(userid, accessToken, Anchor(config.startDate, env.heartRateNow),
                                     config.windowSeconds, config.intervalSeconds, env.heartRateReply);
      ghost var cy := CyclesFetch(userid, accessToken, Anchor(config.startDate, env.cyclesNow), env.cyclesReply);
      ghost var fetched := if hr.step.Done? then hr.sent + cy.sent else hr.sent;
      outcome := LoadMetrics(config, env);
      AppendAssoc(old(process.sent), token, fetched);
      if hr.step.Done? {
        AppendAssoc(token, hr.sent, cy.sent);
      }
    }

    /** The rest of __init__ once the token is stored: the options, the
        heart-rate fetch, and the cycle fetch when the first completed. */
    method LoadMetrics(config: Config, env: Environment) returns (outcome: Outcome)
      requires config.Valid()
      modifies this`startDate, this`windowSeconds, this`intervalSeconds, this`startDatetime
      modifies this`apiStartTime, this`apiEndTime, this`heartrateData, this`sleepWorkoutData
      modifies process`stdout, process`sent
      ensures var hr := HeartRateFetch(userid, accessToken, Anchor(config.startDate, env.heartRateNow),
                                       config.windowSeconds, config.intervalSeconds, env.heartRateReply);
        var cy := CyclesFetch(userid, accessToken, Anchor(config.startDate, env.cyclesNow), env.cyclesReply);
        var last := if hr.step.Done? then cy.step else hr.step;
        var w := ApiWindow(startDatetime, windowSeconds);
        startDate == config.startDate && intervalSeconds == config.intervalSeconds
        && windowSeconds == (if hr.step.Done? then CycleWindow else config.windowSeconds)
        && startDatetime == Anchor(config.startDate, if hr.step.Done? then env.cyclesNow else env.heartRateNow)
        && apiEndTime == Strftime(startDatetime) && (w.Ok? ==> apiStartTime == w.value.0)
        && process.sent == old(process.sent) + (if hr.step.Done? then hr.sent + cy.sent else hr.sent)
        && process.stdout == old(process.stdout) + Printed(last, env.clockNs)
        && outcome == OutcomeOf(last)
        && heartrateData == (if hr.step.Done? then hr.step.value else old(heartrateData))
        && sleepWorkoutData == (if hr.step.Done? && cy.step.Done? then cy.step.value else old(sleepWorkoutData))
    {
      hide HeartRateFetch, CyclesFetch, Fetch, ApiWindow, Strftime, SubtractSeconds, Anchor, ErrorLine,
        HeartRateRequest, CyclesRequest, Midnight;
      startDate := config.startDate;
      windowSeconds := config.windowSeconds;
      intervalSeconds := config.intervalSeconds;
      outcome := GetHeartrateData(env.heartRateReply, env.heartRateNow, env.clockNs);
      if outcome != Normal {
        return;
      }
      ghost var hr := HeartRateFetch(userid, accessToken, Anchor(config.startDate, env.heartRateNow),
                                     config.windowSeconds, config.intervalSeconds, env.heartRateReply);
      ghost var cy := CyclesFetch(userid, accessToken, Anchor(config.startDate, env.cyclesNow), env.cyclesReply);
      outcome := GetCycleData(env.cyclesReply, env.cyclesNow, env.clockNs);
      AppendAssoc(old(process.sent), hr.sent, cy.sent);
    }

    /** Post the credentials; a non-200 reply prints the rejection and
        exits, otherwise the user id and then the token are read from the
        body, each read raising when the body lacks it. */
    method GetToken(reply: Response, clockNs: int) returns (outcome: Outcome)
      modifies this`userid, this`accessToken, process`stdout, process`sent
      ensures process.sent == old(process.sent) + [TokenRequest(username, password)]
      ensures reply.status != 200 ==>
        outcome == Exited && process.stdout == old(process.stdout) + [ErrorLine(CredentialsRejected, clockNs)]
        && userid == old(userid) && accessToken == old(accessToken)
      ensures reply.status == 200 ==>
        process.stdout == old(process.stdout)
        && outcome == (if Credentials(reply).Ok? then Normal else Raised(Credentials(reply).error))
        && userid == (if UserId(reply).Ok? then UserId(reply).value else old(userid))
        && accessToken == (if Credentials(reply).Ok? then AccessToken(reply).value else old(accessToken))
    {
      process.Send(TokenRequest(username, password));
      if reply.status != 200 {
        process.Print(ErrorLine(CredentialsRejected, clockNs));
        return Exited;
      }
      var id := UserId(reply);
      if id.Err? {
        return Raised(id.error);
      }
      userid := id.value;
      var token := AccessToken(reply);
      if token.Err? {
        return Raised(token.error);
      }
      accessToken := token.value;
      return Normal;
    }

    /** Anchor the window (midnight of the start date, or now), widen it to
        five days for cycle data, and render its end and then its start. */
    method SetApiTimestamps(dataType: string, utcNow: Instant) returns (outcome: Outcome)
      requires startDate.Some? ==> startDate.value.Valid()
      modifies this`startDatetime, this`windowSeconds, this`apiEndTime, this`apiStartTime
      ensures startDatetime == Anchor(startDate, utcNow)
      ensures windowSeconds == if dataType == "cycle" then CycleWindow else old(windowSeconds)
      ensures apiEndTime == Strftime(startDatetime)
      ensures var w := ApiWindow(startDatetime, windowSeconds);
        (w.Ok? ==> outcome == Normal && apiStartTime == w.value.0 && apiEndTime == w.value.1)
        && (w.Err? ==> outcome == Raised(w.error) && apiStartTime == old(apiStartTime))
    {
      hide Strftime, SubtractSeconds, Anchor;
      startDatetime := Anchor(startDate, utcNow);
      if dataType == "cycle" {
        windowSeconds := CycleWindow;
      }
      apiEndTime := Strftime(startDatetime);
      var window := ApiWindow(startDatetime, windowSeconds);
      if window.Err? {
        return Raised(window.error);
      }
      apiStartTime := window.value.0;
      return Normal;
    }

    method GetHeartrateData(reply: Response, utcNow: Instant, clockNs: int) returns (outcome: Outcome)
      requires startDate.Some? ==> startDate.value.Valid()
      modifies this`startDatetime, this`windowSeconds, this`apiEndTime, this`apiStartTime, this`heartrateData
      modifies process`stdout, process`sent
      ensures windowSeconds == old(windowSeconds)
      ensures startDatetime == Anchor(startDate, utcNow) && apiEndTime == Strftime(startDatetime)
      ensures var w := ApiWindow(startDatetime, windowSeconds);
        (w.Ok? ==> apiStartTime == w.value.0) && (w.Err? ==> apiStartTime == old(apiStartTime))
      ensures var f := HeartRateFetch(userid, accessToken, Anchor(startDate, utcNow), windowSeconds,
                                      intervalSeconds, reply);
        process.sent == old(process.sent) + f.sent
        && process.stdout == old(process.stdout) + Printed(f.step, clockNs)
        && outcome == OutcomeOf(f.step)
        && heartrateData == if f.step.Done? then f.step.value else old(heartrateData)
    {
      hide Strftime, SubtractSeconds, Anchor, ApiWindow;
      outcome := SetApiTimestamps("heartrate", utcNow);
      if outcome != Normal {
        return;
      }
      var request := HeartRateRequest(userid, accessToken, apiStartTime, apiEndTime, intervalSeconds);
      process.Send(request);
      if reply.status != 200 {
        process.Print(ErrorLine(AuthRejected, clockNs));
        return Exited;
      }
      var data := Decode(reply);
      if data.Err? {
        return Raised(data.error);
      }
      heartrateData := data.value;
    }

    method GetCycleData(reply: Response, utcNow: Instant, clockNs: int) returns (outcome: Outcome)
      requires startDate.Some? ==> startDate.value.Valid()
      modifies this`startDatetime, this`windowSeconds, this`apiEndTime, this`apiStartTime, this`sleepWorkoutData
      modifies process`stdout, process`sent
      ensures windowSeconds == CycleWindow
      ensures startDatetime == Anchor(startDate, utcNow) && apiEndTime == Strftime(startDatetime)
      ensures var w := ApiWindow(startDatetime, windowSeconds);
        (w.Ok? ==> apiStartTime == w.value.0) && (w.Err? ==> apiStartTime == old(apiStartTime))
      ensures var f := CyclesFetch(userid, accessToken, Anchor(startDate, utcNow), reply);
        process.sent == old(process.sent) + f.sent
        && process.stdout == old(process.stdout) + Printed(f.step, clockNs)
        && outcome == OutcomeOf(f.step)
        && sleepWorkoutData == if f.step.Done? then f.step.value else old(sleepWorkoutData)
    {
      hide Strftime, SubtractSeconds, Anchor, ApiWindow;
      outcome := SetApiTimestamps("cycle", utcNow);
      if outcome != Normal {
        return;
      }
      var request := CyclesRequest(userid, accessToken, apiStartTime, apiEndTime);
      process.Send(request);
      if reply.status != 200 {
        process.Print(ErrorLine(AuthRejected, clockNs));
        return Exited;
      }
      var data := Decode(reply);
      if data.Err? {
        return Raised(data.error);
      }
      sleepWorkoutData := data.value;
    }

    /** Print every record; on the first exception print it as an error
        line and exit. */
    method PrintLineProtocol(clockNs: int) returns (outcome: Outcome)
      modifies process`stdout
      ensures var em := ScraperPass(userid, heartrateData, sleepWorkoutData);
        process.stdout == old(process.stdout) + em.lines + Report(em.failure, clockNs)
        && outcome == if em.failure.Some? then Exited else Normal
    {
      var failure := PrintHeartRate();
      if failure.None? {
        failure := PrintCycles();
        AppendAssoc(old(process.stdout), HeartRatePass(userid, heartrateData).lines,
                    CyclePass(userid, sleepWorkoutData).lines);
      }
      if failure.Some? {
        process.Print(ErrorLine(Describe(failure.value), clockNs));
        return Exited;
      }
      return Normal;
    }

    /** for heartrate in self.heartrate_data["values"]: ... */
    method PrintHeartRate() returns (failure: Option<PyError>)
      modifies process`stdout
      ensures var em := HeartRatePass(userid, heartrateData);
        process.stdout == old(process.stdout) + em.lines && failure == em.failure
    {
      hide HeartRateLine, Times;
      var samples := Samples(heartrateData);
      if samples.Err? {
        return Some(samples.error);
      }
      var records := SampleRecords(userid, samples.value);
      var i := 0;
      while i < |samples.value|
        invariant 0 <= i <= |samples.value|
        invariant Collect(records[..i]).failure.None?
        invariant process.stdout == old(process.stdout) + Collect(records[..i]).lines
      {
        CollectStep(records, i);
        var record := SampleRecord(userid, samples.value[i]);
        if record.Err? {
          CollectStops(records, i + 1);
          return Some(record.error);
        }
        process.Print(record.value);
        i := i + 1;
      }
      assert records[..i] == records;
      return None;
    }

    /** for day in self.sleep_workout_data: ... */
    method PrintCycles() returns (failure: Option<PyError>)
      modifies process`stdout
      ensures var em := CyclePass(userid, sleepWorkoutData);
        process.stdout == old(process.stdout) + em.lines && failure == em.failure
    {
      var days := Iterate(sleepWorkoutData);
      if days.Err? {
        return Some(days.error);
      }
      ghost var parts := DayPasses(userid, days.value);
      var i := 0;
      while i < |days.value|
        invariant 0 <= i <= |days.value|
        invariant Chain(parts[..i]).failure.None?
        invariant process.stdout == old(process.stdout) + Chain(parts[..i]).lines
      {
        ChainStep(parts, i);
        failure := PrintDay(days.value[i]);
        AppendAssoc(old(process.stdout), Chain(parts[..i]).lines, parts[i].lines);
        if failure.Some? {
          ChainStops(parts, i + 1);
          return;
        }
        i := i + 1;
      }
      assert parts[..i] == parts;
      return None;
    }

    /** One cycle day: its sleep record, then its workout records. */
    method PrintDay(day: Json) returns (failure: Option<PyError>)
      modifies process`stdout
      ensures var em := DayPass(userid, day);
        process.stdout == old(process.stdout) + em.lines && failure == em.failure
    {
      ghost var before := process.stdout;
      failure := PrintSleep(day);
      if failure.None? {
        failure := PrintWorkouts(day);
        AppendAssoc(before, SleepPass(userid, day).lines, WorkoutsPass(userid, day).lines);
      }
    }

    /** if day["sleep"] and day["sleep"]["state"] == "complete": print(...) */
    method PrintSleep(day: Json) returns (failure: Option<PyError>)
      modifies process`stdout
      ensures var em := SleepPass(userid, day);
        process.stdout == old(process.stdout) + em.lines && failure == em.failure
    {
      var sleep := SleepRecord(userid, day);
      if sleep.Err? {
        return Some(sleep.error);
      }
      if sleep.value.Some? {
        process.Print(sleep.value.value);
      }
      return None;
    }

    /** if day["strain"] and day["strain"]["workouts"]: for workout in ...: print(...) */
    method PrintWorkouts(day: Json) returns (failure: Option<PyError>)
      modifies process`stdout
      ensures var em := WorkoutsPass(userid, day);
        process.stdout == old(process.stdout) + em.lines && failure == em.failure
    {
      hide DayStamp, WorkoutLine, Strptime, DayStampNs;
      var workouts := Workouts(day);
      if workouts.Err? {
        return Some(workouts.error);
      }
      var records := WorkoutRecords(userid, day, workouts.value);
      var j := 0;
      while j < |workouts.value|
        invariant 0 <= j <= |workouts.value|
        invariant Collect(records[..j]).failure.None?
        invariant process.stdout == old(process.stdout) + Collect(records[..j]).lines
      {
        CollectStep(records, j);
        var record := WorkoutRecord(userid, day, workouts.value[j]);
        if record.Err? {
          CollectStops(records, j + 1);
          return Some(record.error);
        }
        process.Print(record.value);
        j := j + 1;
      }
      assert records[..j] == records;
      return None;
    }
  }

  /** main() with the credentials read from the environment: the session is
      built with the default options and its records printed; an exception
      that reaches main is printed as an error line. */
  method RunMain(username: Json, password: Json, env: Environment)
    returns (stdout: seq<string>, sent: seq<Request>, exited: bool)
    ensures Transcript(stdout, sent, exited) == Run(username, password, Defaults, env)
  {
    hide Prepare, ScraperPass, Report, ErrorLine, Describe, Credentials, HeartRateFetch, CyclesFetch, ApiWindow,
      Strftime, Anchor;
    var process := new Process();
    var user := new WhoopUser(process, username, password);
    var outcome := user.Init(Defaults, env);
    if outcome.Normal? {
      outcome := user.PrintLineProtocol(env.clockNs);
    }
    if outcome.Raised? {
      process.Print(ErrorLine(Describe(outcome.error), env.clockNs));
    }
    return process.stdout, process.sent, outcome.Exited?;
  }
}
