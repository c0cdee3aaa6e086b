# whoop_scraper, modelled in Dafny

whoop_scraper reads a user's data from the WHOOP API and writes it as
InfluxDB line protocol (`measurement,user_id=<id> field=<value> <ns>`).
It ships in two variants, and both are modelled here:

- `whoop_scraper.py` is a command-line program. Its `WhoopUser` object
  exchanges the credentials for a bearer token. It then fetches the
  heart-rate samples of a configurable window and the cycle days of a
  five-day window, and prints the `heartrate`, `sleep` and `workout` records.
  A rejected request prints `error msg="..." <ns>` and exits.
  Any other exception that reaches `main` is printed the same way.
- `lambda/lambda_function.py` is a serverless handler. `lamda/lamda_function.py`
  is a byte-for-byte copy of it. Its `WhoopUser` fetches heart-rate samples
  only and collects its output in a `lines` buffer. The handler reads the
  credentials from the request envelope. It answers with status 200 and the
  lines joined by newlines, or with status 400 and a JSON message when the
  envelope is malformed.

Modules:

- `Digits` holds decimal and hexadecimal text.
- `Python` holds JSON values, Python exceptions and the Python operators the
  code applies to them: subscription, `dict.get`, iteration, truthiness,
  `* 1000000`, `str()` and `json.dumps` of a message.
- `Calendar` holds proleptic Gregorian day numbers, datetimes as
  microseconds since the epoch, `strftime("%Y-%m-%dT%H:%M:%S.%fZ")` with
  its parser, and `strptime("%Y-%m-%d")`.
- `Whoop` holds the three endpoints, the requests, the replies (which are
  inputs), and the window and fetch stages.
- `LineProtocol` holds the records and the formatting loops, stated as
  functions. Each loop yields the lines it writes and the exception that
  stopped it, if any.
- `Host` holds the process: its standard output and the requests it sent.
- `Scraper` models `whoop_scraper.py`.
- `Lambda` models both copies of the handler.

Modelling choices:

- Each session object is a `class` whose methods update its fields. Each
  method is proved against a function of its inputs: `Prepare` and `Run` for
  the command-line variant, `Construct` and `Handle` for the handler.
- The formatting loops are `while` loops proved against `Collect` and
  `Chain`.
- What the server answers, `datetime.utcnow()` and `time.time_ns()` are
  parameters.
- The body of the handler's event is given already decoded, as the `parsed`
  argument.

Where the code and its own documentation disagree, the model follows the code:

- The command-line variant prints each record as soon as it is formatted.
  A formatting error therefore leaves the records printed before it on
  standard output, followed by the error line.
- The handler's formatting error calls `exit()`. Its `SystemExit` is not an
  `Exception`, so the handler returns no response at all. It does not return
  the error line (see Findings).

## Model

| member | source | states |
|---|---|---|
| Scraper.WhoopUser.constructor | whoop_scraper.py:41-45 | the credentials are stored as given and no fetched value is set yet |
| Scraper.WhoopUser.Init | whoop_scraper.py:41-52 | construction sends and prints exactly what the stage function `Prepare` says; on success the user id, token and both payloads are those of `Prepare`; the outcome is normal, an exception, or exit exactly as the stages end; once the token is read, start_date and interval are the options, the window is 432000 seconds and the anchor the cycle fetch's when the heart-rate fetch completed (the configured window and the heart-rate anchor otherwise), and the two API time strings render that window; a failed token exchange leaves all of these as they were |
| Scraper.WhoopUser.LoadMetrics | whoop_scraper.py:47-52 | stores the options, then sends and prints what the heart-rate fetch says and, only when it completed, what the cycle fetch says; the payloads, window, anchor and API time strings end as the last fetch that ran leaves them |
| Scraper.WhoopUser.GetToken | whoop_scraper.py:54-73 | the token POST is sent first; a non-200 reply prints the credentials-rejected line and exits with the id and token untouched; a 200 reply stores the user id and then the token exactly as read, raising the first missing key's KeyError |
| Scraper.WhoopUser.SetApiTimestamps | whoop_scraper.py:75-93 | the anchor is midnight of the start date or the supplied now; "cycle" overwrites the window with 432000 and any other type leaves it alone; end renders the anchor, start renders anchor minus the window, OverflowError leaves start unset |
| Scraper.WhoopUser.GetHeartrateData | whoop_scraper.py:95-117 | keeps the configured window; start_datetime becomes the anchor, api_end_time its rendering and api_start_time the rendering of the window's start (unchanged when that raises OverflowError); sends the heart-rate GET of `HeartRateFetch`, prints the auth-rejected line and exits on a non-200 reply, otherwise stores the decoded body |
| Scraper.WhoopUser.GetCycleData | whoop_scraper.py:119-140 | leaves the window at 432000 for good; start_datetime becomes the anchor, api_end_time its rendering and api_start_time the rendering of the five-day window's start (unchanged when that raises OverflowError); sends the cycles GET of that window; same status branching as the heart-rate fetch |
| Scraper.WhoopUser.PrintLineProtocol | whoop_scraper.py:142-167 | standard output grows by exactly the records of `ScraperPass` followed by one error line when a record raised, and then the process exits |
| Scraper.WhoopUser.PrintHeartRate | whoop_scraper.py:144-147 | the loop prints exactly the heart-rate records of `HeartRatePass` and stops at the first sample that raises |
| Scraper.WhoopUser.PrintCycles | whoop_scraper.py:149-163 | the loop over days prints exactly what `CyclePass` says and stops at the first exception |
| Scraper.WhoopUser.PrintDay | whoop_scraper.py:150-163 | one day prints its sleep record and then its workout records, as `DayPass` says |
| Scraper.WhoopUser.PrintSleep | whoop_scraper.py:150-156 | prints the sleep record exactly when `SleepPass` has one, or reports the exception |
| Scraper.WhoopUser.PrintWorkouts | whoop_scraper.py:157-163 | prints one workout record per workout, as `WorkoutsPass` says, up to the first that raises |
| Scraper.RunMain | whoop_scraper.py:17-23 | the output, the requests and the exit flag of `main()` are those of `Run` with the default options |
| Host.Process.Print | whoop_scraper.py:147 | `print` appends exactly one line to standard output |
| Host.Process.Send | whoop_scraper.py:108 | a request is appended to what the process sent |
| Scraper.RunCredentialsRejected | whoop_scraper.py:66-69 | a non-200 token reply prints exactly one credentials-rejected line, sends only the token request and exits |
| Scraper.RunRequestOrder | whoop_scraper.py:46-52 | the token request is sent first; at most three requests go out; a metric request goes out only after a 200 token reply that carries both credentials |
| Scraper.RunWindows | whoop_scraper.py:82-93 | the heart-rate request spans the configured window ending at its anchor; the cycle request that follows spans 432000 seconds ending at its own anchor; both carry the id and token unchanged |
| Scraper.RunHeartRateAborts | whoop_scraper.py:108-117 | a heart-rate fetch that does not complete ends the run with no cycle request: a non-200 reply leaves exactly the auth-rejected line, the token and heart-rate requests, and exit; an exception leaves only its error line |
| Scraper.RunErrorLast | whoop_scraper.py:142-167 | every printed line but the last is a record; the last line is an error report exactly when the run did not complete; a completed run prints records only |
| Scraper.RunMissingValues | whoop_scraper.py:143-167 | a heart-rate payload without "values" prints only the KeyError line and exits |
| Scraper.Printed | whoop_scraper.py:111-114 | a stage prints at most one line |
| Whoop.TokenRequest | whoop_scraper.py:56-64 | the token request is a POST to the token endpoint |
| Whoop.TokenFieldsUnmodified | whoop_scraper.py:72-73 | a 200 reply in the documented shape yields the user id and the token exactly as sent |
| Whoop.Credentials | lambda/lambda_function.py:57-58 | the id is read before the token; the pair is read exactly when both reads succeed, and the error is that of the first read that fails |
| Whoop.Decode | whoop_scraper.py:117 | `r.json()` fails with JSONDecodeError exactly when the body is not JSON |
| Whoop.Anchor | whoop_scraper.py:76-80 | the anchor is midnight of the start date when there is one, otherwise the supplied now |
| Whoop.ApiWindow | whoop_scraper.py:86-93 | the window exists exactly when anchor minus the window is a datetime; it renders that instant and the anchor; otherwise OverflowError |
| Whoop.ApiWindowBounds | whoop_scraper.py:86-93 | both ends are 27 characters long, end in Z and read back as the anchor and as the anchor minus the window |
| Whoop.FetchSends | lambda/lambda_function.py:84-93 | a fetch sends one request exactly when the window can be computed; it keeps the decoded body exactly on a 200 reply with a JSON body, and reports the auth-rejected message exactly on a non-200 reply |
| Whoop.Fetch | lambda/lambda_function.py:84-93 | a fetch sends at most one request |
| Whoop.HeartRateFetch | lambda/lambda_function.py:60-93 | the heart-rate fetch sends at most one request |
| Whoop.HeartRateRequestWindow | lambda/lambda_function.py:62-84 | the heart-rate GET asks for the configured window ending at the anchor, in steps of the interval, with the bearer token |
| Whoop.CyclesRequestWindow | whoop_scraper.py:120-131 | the cycles GET asks for the five days ending at the anchor |
| Calendar.CivilFromDays | whoop_scraper.py:151-152 | every day number in datetime's range names a valid date with that number |
| Calendar.CivilRoundTrip | whoop_scraper.py:151-152 | day numbering of dates is a bijection: a date's day number converts back to the date |
| Calendar.DaysFromCivil | whoop_scraper.py:151-152 | every valid date has a day number inside the range of datetime |
| Calendar.DayNumberExamples | whoop_scraper.py:152 | the epoch is day 0 and 2022-01-01 is day 18993; year 1 and year 9999 give the ends of the range |
| Calendar.YearLength | whoop_scraper.py:152 | the days before year y+1 are the days before year y plus year y's own length, 366 in a leap year and 365 otherwise |
| Calendar.SubtractSeconds | whoop_scraper.py:90 | `dt - timedelta(seconds=s)` moves back by s seconds, and raises OverflowError exactly when the result leaves years 1 to 9999 |
| Calendar.Strftime | whoop_scraper.py:86-88 | the rendering is always 27 characters long |
| Calendar.Layout | whoop_scraper.py:86-88 | the zero-padded fields with their separators always take 27 characters |
| Calendar.StrftimeRoundTrip | whoop_scraper.py:86-93 | the rendering can be read back as the instant, and its separators and the final Z are in place |
| Calendar.ToFieldsRoundTrip | whoop_scraper.py:86-88 | splitting the instant built from valid fields gives those fields back |
| Calendar.FieldsRoundTrip | whoop_scraper.py:86-88 | splitting an instant into fields and joining them gives the instant back |
| Calendar.Strptime | whoop_scraper.py:151 | a parsed date is always valid, and any failure is ValueError |
| Calendar.StrptimeIsoDate | whoop_scraper.py:151 | every valid date written as YYYY-MM-DD parses as itself |
| Calendar.MonthMatch | whoop_scraper.py:151 | the month directive takes at most two digits from the front of the text |
| Calendar.DayMatch | whoop_scraper.py:151 | the day directive takes at most two characters, the last a digit, from the front of the text |
| Digits.FixedDigits | whoop_scraper.py:86-88 | a zero-padded field is all digits and denotes its number |
| Digits.NatToString | whoop_scraper.py:147 | `str()` of a non-negative int is its shortest decimal form |
| Digits.IntToString | whoop_scraper.py:146-147 | `str()` of an int is a minus sign exactly for negatives, then the digits of its magnitude |
| Python.Lookup | whoop_scraper.py:72 | a key is found exactly when some entry has it, and the value found belongs to such an entry |
| Python.Subscript | whoop_scraper.py:144-146 | `d[key]` succeeds exactly on a dict that has the key and yields its value; on a dict without it raises KeyError of the key |
| Python.DictGet | lambda/lambda_function.py:124-125 | `.get(key, None)` succeeds exactly on a dict and yields the key's value or None; on anything else raises AttributeError |
| Python.Iterate | whoop_scraper.py:149 | a `for` loop runs over a list's items, a string's characters or a dict's keys, and over nothing exactly when the value is falsy |
| Python.Times | whoop_scraper.py:146 | an int times 1000000 is the product; None or a dict raises TypeError |
| Python.First | whoop_scraper.py:151 | `x[0]` succeeds exactly on a non-empty list or string |
| Python.Join | lambda/lambda_function.py:135 | joining no lines gives the empty body, and one line gives that line |
| Python.EscapeChar | lambda/lambda_function.py:137 | every character json.dumps writes is printable ASCII, and printable characters other than quote and backslash are kept |
| Python.EscapeIsAscii | lambda/lambda_function.py:137 | the message json.dumps writes is printable ASCII whatever the exception text holds |
| Python.EscapePlain | lambda/lambda_function.py:137 | printable text without quotes or backslashes is written as it is |
| LineProtocol.Record | whoop_scraper.py:147 | every record starts with its measurement and a comma |
| LineProtocol.DayStampNs | whoop_scraper.py:151-152 | a day's stamp is its day number times 86400 times 10^9, a whole number of days that names the day back |
| LineProtocol.Then | whoop_scraper.py:143-149 | the first loop's lines always come first, no line beyond the two loops' is written, and the whole is stopped exactly when either loop is |
| LineProtocol.ThenAssoc | whoop_scraper.py:143-167 | loops run one after the other compose the same however they are grouped, and an empty loop changes nothing |
| LineProtocol.ThenLines | whoop_scraper.py:143-163 | every line the two loops write was written by one of them |
| LineProtocol.CollectSpec | whoop_scraper.py:144-147 | a record loop writes, in input order, the record of each item up to the first that raises, and that exception stops it |
| LineProtocol.CollectAllOk | whoop_scraper.py:144-147 | when no record raises, the loop writes every record in order |
| LineProtocol.CollectStops | whoop_scraper.py:165-167 | once a record has raised, later items change nothing |
| LineProtocol.ChainStops | whoop_scraper.py:165-167 | once a day has raised, later days change nothing |
| LineProtocol.ChainLines | whoop_scraper.py:149-163 | every line of the day loop was written by one of the days |
| LineProtocol.HeartRateLines | whoop_scraper.py:144-147 | one record per sample, holding the bpm as sent and the time times 1000000 |
| LineProtocol.HeartRateLinesPerSample | whoop_scraper.py:144-147 | a well-formed payload yields exactly one record per sample, in input order, and no exception |
| LineProtocol.SampleOfJson | whoop_scraper.py:145-147 | a sample {time, data} gives the record with the bpm as sent and the time times 1000000 |
| LineProtocol.HeartRateExample | whoop_scraper.py:144-147 | the sample {time: 1000, data: 72} gives one record stamped 1000000000 |
| LineProtocol.MissingValues | whoop_scraper.py:144 | a payload without "values" writes nothing and raises that KeyError |
| LineProtocol.SleepPassOf | whoop_scraper.py:150-156 | a day writes a sleep record exactly when its sleep is present and "complete", with the day's stamp |
| LineProtocol.WorkoutsOf | whoop_scraper.py:157-158 | the workout loop runs over nothing when the strain is missing or has no workouts, otherwise over the listed workouts |
| LineProtocol.WorkoutsPassOf | whoop_scraper.py:157-163 | a day writes one workout record per workout, in list order, all with the day's stamp |
| LineProtocol.WorkoutLines | whoop_scraper.py:158-163 | one workout record per maximum heart rate, each with the same stamp |
| LineProtocol.WorkoutRecordOf | whoop_scraper.py:158-163 | a workout {maxHeartRate} gives the workout record with the day's stamp |
| LineProtocol.DayRecords | whoop_scraper.py:150-163 | a well-formed day writes its sleep record if and only if the sleep is complete, then one workout record per workout, in order |
| LineProtocol.DayJsonFields | whoop_scraper.py:150-152 | a day in the documented shape has its sleep and strain entries, and its stamp is its midnight in nanoseconds |
| LineProtocol.SleepInProgress | whoop_scraper.py:150 | a sleep still in progress writes no record |
| LineProtocol.RecordsAreNotErrors | whoop_scraper.py:166 | no record reads as an error report |
| LineProtocol.ErrorLineKind | whoop_scraper.py:166 | every error line reads as an error report |
| LineProtocol.KindsDisjoint | whoop_scraper.py:147-162 | no line is both a heart-rate record and a cycle record |
| LineProtocol.HeartRatePassKinds | whoop_scraper.py:144-147 | the heart-rate loop writes heart-rate records only |
| LineProtocol.DayPassKinds | whoop_scraper.py:150-163 | a day writes sleep and workout records only |
| LineProtocol.CyclePassKinds | whoop_scraper.py:149-163 | the cycle loop writes sleep and workout records only |
| LineProtocol.HeartRateBeforeCycles | whoop_scraper.py:144-163 | no heart-rate record follows a sleep or workout record |
| LineProtocol.OrderOfThen | whoop_scraper.py:144-163 | when the first loop writes heart-rate records and the second cycle records, no heart-rate record follows a cycle record |
| LineProtocol.Report | whoop_scraper.py:165-166 | exactly one error line is written when a loop raised, none otherwise |
| Lambda.WhoopUser.constructor | lambda/lambda_function.py:27-30 | the credentials are stored; the buffer starts empty, and data_raw, userid and access_token start as None |
| Lambda.WhoopUser.Init | lambda/lambda_function.py:31-37 | the requests, the lines, the user id, the access token and data_raw after construction, and the exception it raises, are those of `Construct`; exactly when a 200 token reply yields a truthy user id, start_date, window and interval are the options and start_datetime is the anchor, otherwise they are left as they were |
| Lambda.WhoopUser.GetToken | lambda/lambda_function.py:39-58 | the token POST is sent; a non-200 reply appends the credentials-rejected line and returns with the id unset; a 200 reply stores the id and then the token exactly as read, raising the first missing key's KeyError |
| Lambda.WhoopUser.SetStartDt | lambda/lambda_function.py:106-111 | the anchor is midnight of the start date when there is one, otherwise the supplied now |
| Lambda.WhoopUser.GetData | lambda/lambda_function.py:60-93 | sends the heart-rate GET of `HeartRateFetch`; a non-200 reply appends one auth-rejected line and leaves data_raw as it was; a 200 reply stores the decoded body |
| Lambda.WhoopUser.PrintLineProtocol | lambda/lambda_function.py:95-104 | without an exception the buffer grows by exactly the records of `HeartRatePass`; on one the buffer becomes that error line alone and the process exits |
| Lambda.LambdaHandler | lambda/lambda_function.py:117-139 | the requests sent and the answer are those of `Handle` |
| Lambda.Envelope | lambda/lambda_function.py:123-125 | credentials are read exactly when the event has a string body that decodes to a JSON object |
| Lambda.EnvelopeCredentials | lamda/lamda_function.py:123-125 | the credentials are the envelope's "whoop_username" and "whoop_password" as sent |
| Lambda.EnvelopeMissingKeys | lamda/lamda_function.py:124-125 | missing keys yield None credentials rather than an error |
| Lambda.HandleStatus | lamda/lamda_function.py:122-139 | a malformed envelope is answered with 400 and a printable-ASCII JSON message, and nothing is sent; otherwise the token request goes first and any answer has status 200 |
| Lambda.HandleRejectedToken | lamda/lamda_function.py:31-37 | a rejected token is answered with 200 and the credentials-rejected line alone, after the token request only |
| Lambda.HandleRequests | lamda/lamda_function.py:31-37 | at most one metric request follows the token request; it goes out exactly when both credentials were read, the id is truthy and the window exists; it asks for the 480 seconds ending at now in 6-second steps, with no five-day override |
| Lambda.HandleRecords | lamda/lamda_function.py:95-135 | a well-formed heart-rate payload is answered with 200 and one record per sample, in order, after exactly the two requests |
| Lambda.HandleLines | lamda/lamda_function.py:127-135 | a 200 answer holds either heart-rate records only or one error line alone |
| Lambda.Construct | lamda/lamda_function.py:24-37 | construction sends one or two requests, the token request first |
| Lambda.ConstructFetch | lamda/lamda_function.py:31-37 | once the id is truthy, the heart-rate fetch alone decides the lines, the data and the exception |
| Lambda.ConstructFetched | lamda/lamda_function.py:31-37 | with the documented token reply and a 200 heart-rate reply, the token request and the 480-second heart-rate request are sent, no line is kept, and the user id, the token and the payload are stored as sent |
| Lambda.ConstructRejected | lamda/lamda_function.py:51-54 | a rejected token leaves exactly the rejection line and a None id, and no fetch is made |
| Lambda.ConstructFetchRejected | lamda/lamda_function.py:87-90 | a non-200 heart-rate reply leaves exactly the auth-rejected line and no data |
| Lambda.ConstructLines | lamda/lamda_function.py:29-93 | construction leaves at most one line, an error report, and none when it raised or kept data |
| Lambda.HandleAborts | lambda/lambda_function.py:102-104 | as written, a 200 heart-rate object without "values" ends the invocation with no response |
| Lambda.HandleIntendedResponds | lambda/lambda_function.py:132-135 | corrected, the same reply is answered with 200 and the KeyError line alone |
| Lambda.HandleIntendedAgrees | lambda/lambda_function.py:117-139 | the corrected handler always answers, sends what the original sends, and answers as it does wherever it answers |

## Left out

- The transport (`requests.post`, `requests.get`) is left out. Each reply is an input: its status and its body, already decoded, or the absence of a JSON body.
- Exceptions raised by `requests.post` and `requests.get` themselves (a `ConnectionError` or a `Timeout`) are not modelled: every request gets a reply. In the code such an exception reaches the `except Exception` of `main` (whoop_scraper.py:22-23), which prints it as an error line, or the inner `except Exception` of the handler (lambda/lambda_function.py:132-133), which makes it the only line of a 200 answer.
- Configuration loading is left out: `load_dotenv` and `os.getenv` in `whoop_scraper.py`. The credentials are parameters of `RunMain`.
- `datetime.utcnow()` and `time.time_ns()` are parameters, because they read the clock.
- The event's body text is given already decoded, as `parsed`. The text of the JSON parser is not modelled, and the `context` argument is unused.
- `dt.timestamp()` reads a naive datetime in the host's local time zone and goes through a float and `round`. The model uses UTC and integer arithmetic.
- JSON numbers with a fraction or an exponent (Python floats) are left out; JSON numbers are integers.
- Exception messages are not modelled. `str(e)` of a KeyError is the repr of the key. Every other exception is represented by its class name, not by Python's message text.
- Repr: the repr of a string inside a container uses single quotes with no escaping of embedded quotes or control characters.
- Strftime: the year is always written with four digits, zero-padded, for years 1 to 9999. This is the model's choice: CPython on glibc wrote years below 1000 without padding in many releases (bpo-13305) and pads them only in recent ones, so for such anchors the rendering differs by release.
- Calendar.Strptime: the digit classes accept ASCII digits only, not other Unicode decimal digits.
- Python.Lookup: with duplicate keys in a JSON object, the model keeps the first entry; json.loads keeps the last.
- Whoop.Request: the query parameters are a list of pairs, with no URL encoding.
- `exit()` in the command-line variant is the exit flag of the transcript. Standard output after it is not modelled, and there is none in the code.
- Process.Print: the output is a sequence of lines. Buffering and interleaving with other processes are not modelled.

## Findings

| source | as written | input that shows it | evidently intended | confidence | as-written member | corrected member |
|---|---|---|---|---|---|---|
| lambda/lambda_function.py:102-104 | after a formatting exception, `print_line_protocol` replaces the lines with the error line and calls `exit()`; `SystemExit` is not an `Exception`, so neither handler clause catches it and the invocation ends without a response (the same lines are in lamda/lamda_function.py) | a valid token, a truthy user id, and a 200 heart-rate reply `{"error": 1}` that has no "values" | the handler answers 200 with the error line alone as its body, as `self.lines = [...]` prepares | not executed | Lambda.HandleAborts | Lambda.HandleIntendedResponds |
