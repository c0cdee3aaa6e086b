/** The records the scrapers emit, `measurement,user_id=<id> field=<value> <ns>`,
    and the formatting passes over the fetched payloads, stated as functions:
    each pass yields the lines it writes before it stops and, when it stops
    early, the exception that stopped it. */
module LineProtocol {
  import opened Digits
  import opened Python
  import opened Calendar

  const NsPerMs: nat := 1_000_000
  const NsPerDay: int := 86_400_000_000_000

  /** `error msg="<msg>" <ns>`, stamped with the wall clock in nanoseconds. */
  function ErrorLine(msg: string, ns: int): string
  {
    "error msg=\"" + msg + "\" " + IntToString(ns)
  }

  predicate StartsWith(line: string, prefix: string)
  {
    |prefix| <= |line| && line[..|prefix|] == prefix
  }

  /** A line of InfluxDB line protocol: `<measurement>,<tags> <fields> <timestamp>`. */
  function Record(measurement: string, tags: string, fields: string, timestamp: string): (line: string)
    ensures StartsWith(line, measurement + ",")
  {
    var tail := tags + " " + fields + " " + timestamp;
    assert (measurement + "," + tail)[..|measurement| + 1] == measurement + ",";
    measurement + "," + tail
  }

  function HeartRateLine(userid: Json, bpm: Json, ns: Json): string
  {
    Record("heartrate", "user_id=" + ToStr(userid), "bpm=" + ToStr(bpm), ToStr(ns))
  }

  function SleepLine(userid: Json, score: Json, ns: int): string
  {
    Record("sleep", "user_id=" + ToStr(userid), "sleep_score=" + ToStr(score), IntToString(ns))
  }

  function WorkoutLine(userid: Json, maxHeartRate: Json, ns: int): string
  {
    Record("workout", "user_id=" + ToStr(userid), "max_heartrate=" + ToStr(maxHeartRate), IntToString(ns))
  }

  /** A heart-rate record, as opposed to a sleep or workout record. */
  predicate IsHeartRateRecord(line: string)
  {
    StartsWith(line, "heartrate,")
  }

  /** A record of a cycle day: sleep or workout. */
  predicate IsCycleRecord(line: string)
  {
    StartsWith(line, "sleep,") || StartsWith(line, "workout,")
  }

  /** The nanosecond timestamp of a cycle day:
      int(round(dt.timestamp())) * 1000 * 1000000, where dt is midnight of
      the day read as UTC. It is a whole number of days since the epoch and
      names the day it was computed from. */
  function DayStampNs(d: Date): (ns: int)
    requires d.Valid()
    ensures ns == DaysFromCivil(d) * 86400 * 1_000_000_000
    ensures ns % NsPerDay == 0 && MinDay <= ns / NsPerDay <= MaxDay
    ensures CivilFromDays(ns / NsPerDay) == d
  {
    var z := DaysFromCivil(d);
    CivilRoundTrip(d);
    var ns := z * 86400 * 1000 * 1000000;
    assert ns == z * 86_400_000_000_000 == z * NsPerDay;
    DivModUnique(ns, NsPerDay, z, 0);
    ns
  }

  /** The lines a pass writes, and the exception that stopped it, if any. */
  datatype Emission = Emission(lines: seq<string>, failure: Option<PyError>)

  const Nothing: Emission := Emission([], None)

  function Fail(e: PyError): Emission
  {
    Emission([], Some(e))
  }

  /** One record, or the exception raised while building it. */
  function Single(r: Result<string>): Emission
  {
    match r
    case Ok(line) => Emission([line], None)
    case Err(e) => Fail(e)
  }

  /** a, then b unless a was stopped by an exception: a's lines come first,
      nothing beyond the two parts' lines is written, and the whole is
      stopped exactly when one of the parts is. */
  function Then(a: Emission, b: Emission): (r: Emission)
    ensures a.lines <= r.lines && |r.lines| <= |a.lines| + |b.lines|
    ensures r.failure.None? <==> a.failure.None? && b.failure.None?
  {
    if a.failure.Some? then a else Emission(a.lines + b.lines, b.failure)
  }

  /** Passes run one after the other compose the same way however they are
      grouped, and the empty pass changes nothing. */
  lemma ThenAssoc(a: Emission, b: Emission, c: Emission)
    ensures Then(Then(a, b), c) == Then(a, Then(b, c))
    ensures Then(Nothing, a) == a && Then(a, Nothing) == a
  {
    if a.failure.None? && b.failure.None? {
      assert a.lines + b.lines + c.lines == a.lines + (b.lines + c.lines);
    }
    assert a.lines + [] == a.lines;
  }

  /** The parts one after the other, up to and including the first that
      was stopped by an exception. */
  function Chain(parts: seq<Emission>): Emission
  {
    if parts == [] then Nothing else Then(Chain(parts[..|parts| - 1]), parts[|parts| - 1])
  }

  /** A loop that writes one record per item: the records in order, up to
      the first item whose record raised. */
  function Collect(records: seq<Result<string>>): Emission
  {
    if records == [] then Nothing
    else Then(Collect(records[..|records| - 1]), Single(records[|records| - 1]))
  }

  /** A record loop writes, in input order, the record of each item up to
      the first item whose record raises; that exception ends the loop and
      nothing of that item or after it is written. */
  lemma {:induction false} CollectSpec(records: seq<Result<string>>)
    ensures var em := Collect(records);
      |em.lines| <= |records|
      && (forall i :: 0 <= i < |em.lines| ==> records[i] == Ok(em.lines[i]))
      && (em.failure.None? ==> |em.lines| == |records|)
      && (em.failure.Some? ==> |em.lines| < |records| && records[|em.lines|] == Err(em.failure.value))
  {
    if records != [] {
      var init := records[..|records| - 1];
      CollectSpec(init);
      assert forall i :: 0 <= i < |init| ==> init[i] == records[i];
    }
  }

  /** When no record raises, the loop writes every record, in order. */
  lemma {:induction false} CollectAllOk(records: seq<Result<string>>, lines: seq<string>)
    requires |records| == |lines|
    requires forall i :: 0 <= i < |records| ==> records[i] == Ok(lines[i])
    ensures Collect(records) == Emission(lines, None)
  {
    if records != [] {
      var n := |records| - 1;
      CollectAllOk(records[..n], lines[..n]);
      assert lines[..n] + [lines[n]] == lines;
    }
  }

  /** One more record of a record loop. */
  lemma CollectStep(records: seq<Result<string>>, i: nat)
    requires i < |records|
    ensures Collect(records[..i + 1]) == Then(Collect(records[..i]), Single(records[i]))
  {
    assert records[..i + 1][..i] == records[..i];
  }

  /** Once a record raised, the rest of the loop does not run. */
  lemma {:induction false} CollectStops(records: seq<Result<string>>, n: nat)
    requires n <= |records| && Collect(records[..n]).failure.Some?
    ensures Collect(records) == Collect(records[..n])
    decreases |records|
  {
    if n < |records| {
      var init := records[..|records| - 1];
      assert init[..n] == records[..n];
      CollectStops(init, n);
    } else {
      assert records[..n] == records;
    }
  }

  /** One more part of a chain. */
  lemma ChainStep(parts: seq<Emission>, i: nat)
    requires i < |parts|
    ensures Chain(parts[..i + 1]) == Then(Chain(parts[..i]), parts[i])
  {
    assert parts[..i + 1][..i] == parts[..i];
  }

  /** Once a part raised, the rest of the chain does not run. */
  lemma {:induction false} ChainStops(parts: seq<Emission>, n: nat)
    requires n <= |parts| && Chain(parts[..n]).failure.Some?
    ensures Chain(parts) == Chain(parts[..n])
    decreases |parts|
  {
    if n < |parts| {
      var init := parts[..|parts| - 1];
      assert init[..n] == parts[..n];
      ChainStops(init, n);
    } else {
      assert parts[..n] == parts;
    }
  }

  /** Every line a chain writes was written by one of its parts. */
  lemma {:induction false} ChainLines(parts: seq<Emission>)
    ensures forall l :: l in Chain(parts).lines ==> exists k :: 0 <= k < |parts| && l in parts[k].lines
  {
    if parts != [] {
      var init := parts[..|parts| - 1];
      ChainLines(init);
      assert forall k :: 0 <= k < |init| ==> init[k] == parts[k];
    }
  }

  // ---------------------------------------------------------------------
  // Heart rate

  /** One sample: bpm = heartrate["data"], ns = heartrate["time"] * 1000000. */
  function SampleRecord(userid: Json, sample: Json): Result<string>
  {
    var bpm :- Subscript(sample, "data");
    var time :- Subscript(sample, "time");
    var ns :- Times(time, NsPerMs);
    Ok(HeartRateLine(userid, bpm, ns))
  }

  function SampleRecords(userid: Json, samples: seq<Json>): (r: seq<Result<string>>)
    ensures |r| == |samples|
  {
    seq(|samples|, i requires 0 <= i < |samples| => SampleRecord(userid, samples[i]))
  }

  /** What `for heartrate in data["values"]` runs over. */
  function Samples(data: Json): Result<seq<Json>>
  {
    var values :- Subscript(data, "values");
    Iterate(values)
  }

  /** The heart-rate loop over a fetched heart-rate payload. */
  function HeartRatePass(userid: Json, data: Json): Emission
  {
    match Samples(data)
    case Err(e) => Fail(e)
    case Ok(samples) => Collect(SampleRecords(userid, samples))
  }

  /** A sample in the documented shape: {"time": <epoch ms>, "data": <bpm>}. */
  function SampleJson(time: int, bpm: Json): Json
  {
    Obj([("time", Num(time)), ("data", bpm)])
  }

  /** A heart-rate payload in the documented shape: {"values": [...]}. */
  function HeartRateJson(samples: seq<(int, Json)>): (j: Json)
    ensures Truthy(j)
  {
    Obj([("values", Arr(seq(|samples|, i requires 0 <= i < |samples| => SampleJson(samples[i].0, samples[i].1))))])
  }

  /** The records of well-formed samples: bpm as sent, time scaled from
      milliseconds to nanoseconds. */
  function HeartRateLines(userid: Json, samples: seq<(int, Json)>): (r: seq<string>)
    ensures |r| == |samples|
    ensures forall i :: 0 <= i < |r| ==> r[i] == HeartRateLine(userid, samples[i].1, Num(samples[i].0 * NsPerMs))
  {
    seq(|samples|, i requires 0 <= i < |samples| => HeartRateLine(userid, samples[i].1, Num(samples[i].0 * NsPerMs)))
  }

  lemma SampleOfJson(userid: Json, time: int, bpm: Json)
    ensures SampleRecord(userid, SampleJson(time, bpm)) == Ok(HeartRateLine(userid, bpm, Num(time * NsPerMs)))
  {
    var sample := SampleJson(time, bpm);
    assert "data"[0] != "time"[0];
    assert Lookup(sample.fields[1..], "data") == Some(bpm);
    assert Subscript(sample, "data") == Ok(bpm);
    assert Subscript(sample, "time") == Ok(Num(time));
  }

  /** A well-formed heart-rate payload yields exactly one record per sample,
      in input order, each stamped with the sample's epoch milliseconds times
      1000000. */
  lemma HeartRateLinesPerSample(userid: Json, samples: seq<(int, Json)>)
    ensures HeartRatePass(userid, HeartRateJson(samples))
         == Emission(HeartRateLines(userid, samples), None)
  {
    var items := HeartRateJson(samples).fields[0].1.items;
    assert Samples(HeartRateJson(samples)) == Ok(items);
    var records := SampleRecords(userid, items);
    forall i | 0 <= i < |samples|
      ensures records[i] == Ok(HeartRateLine(userid, samples[i].1, Num(samples[i].0 * NsPerMs)))
    {
      assert items[i] == SampleJson(samples[i].0, samples[i].1);
      SampleOfJson(userid, samples[i].0, samples[i].1);
    }
    CollectAllOk(records, HeartRateLines(userid, samples));
  }

  /** The example of a single sample {time: 1000, data: 72}: one record
      whose timestamp is 1000 ms in nanoseconds. */
  lemma HeartRateExample()
    ensures HeartRatePass(Str("U"), HeartRateJson([(1000, Num(72))]))
         == Emission([HeartRateLine(Str("U"), Num(72), Num(1000000000))], None)
  {
    HeartRateLinesPerSample(Str("U"), [(1000, Num(72))]);
    assert HeartRateLines(Str("U"), [(1000, Num(72))]) == [HeartRateLine(Str("U"), Num(72), Num(1000000000))];
  }

  /** A payload without a "values" key writes nothing and stops with that KeyError. */
  lemma MissingValues(userid: Json, fields: seq<(string, Json)>)
    requires Lookup(fields, "values").None?
    ensures HeartRatePass(userid, Obj(fields)) == Fail(KeyError(Str("values")))
  {
  }

  // ---------------------------------------------------------------------
  // Cycles: sleep and workouts

  /** The timestamp of a day: strptime(day["days"][0], "%Y-%m-%d") converted
      to epoch nanoseconds. */
  function DayStamp(day: Json): Result<int>
  {
    var days :- Subscript(day, "days");
    var first :- First(days);
    if !first.Str? then Err(TypeError)
    else
      var d :- Strptime(first.s);
      Ok(DayStampNs(d))
  }

  /** The sleep record of a day: written only when day["sleep"] is truthy and
      its "state" equals "complete". */
  function SleepRecord(userid: Json, day: Json): Result<Option<string>>
  {
    var sleep :- Subscript(day, "sleep");
    if !Truthy(sleep) then Ok(None)
    else
      var state :- Subscript(sleep, "state");
      if state != Str("complete") then Ok(None)
      else
        var ns :- DayStamp(day);
        var score :- Subscript(sleep, "score");
        Ok(Some(SleepLine(userid, score, ns)))
  }

  function SleepPass(userid: Json, day: Json): Emission
  {
    match SleepRecord(userid, day)
    case Err(e) => Fail(e)
    case Ok(line) => Emission(if line.Some? then [line.value] else [], None)
  }

  /** What the workout loop runs over: nothing unless day["strain"] and
      day["strain"]["workouts"] are both truthy. */
  function Workouts(day: Json): Result<seq<Json>>
  {
    var strain :- Subscript(day, "strain");
    if !Truthy(strain) then Ok([])
    else
      var workouts :- Subscript(strain, "workouts");
      if !Truthy(workouts) then Ok([]) else Iterate(workouts)
  }

  /** One workout, stamped with its day's timestamp. */
  function WorkoutRecord(userid: Json, day: Json, workout: Json): Result<string>
  {
    var ns :- DayStamp(day);
    var maxHeartRate :- Subscript(workout, "maxHeartRate");
    Ok(WorkoutLine(userid, maxHeartRate, ns))
  }

  function WorkoutRecords(userid: Json, day: Json, workouts: seq<Json>): (r: seq<Result<string>>)
    ensures |r| == |workouts|
  {
    seq(|workouts|, i requires 0 <= i < |workouts| => WorkoutRecord(userid, day, workouts[i]))
  }

  function WorkoutsPass(userid: Json, day: Json): Emission
  {
    match Workouts(day)
    case Err(e) => Fail(e)
    case Ok(workouts) => Collect(WorkoutRecords(userid, day, workouts))
  }

  /** One day: its sleep record, then its workout records. */
  function DayPass(userid: Json, day: Json): Emission
  {
    Then(SleepPass(userid, day), WorkoutsPass(userid, day))
  }

  function DayPasses(userid: Json, days: seq<Json>): (r: seq<Emission>)
    ensures |r| == |days|
  {
    seq(|days|, i requires 0 <= i < |days| => DayPass(userid, days[i]))
  }

  /** The loop over a fetched cycles payload. */
  function CyclePass(userid: Json, data: Json): Emission
  {
    match Iterate(data)
    case Err(e) => Fail(e)
    case Ok(days) => Chain(DayPasses(userid, days))
  }

  /** The sleep summary of a day in the documented shape. */
  datatype SleepSummary = SleepSummary(state: string, score: Json)

  function SleepJson(sleep: Option<SleepSummary>): Json
  {
    match sleep
    case None => Null
    case Some(s) => Obj([("state", Str(s.state)), ("score", s.score)])
  }

  function WorkoutJson(maxHeartRate: Json): Json
  {
    Obj([("maxHeartRate", maxHeartRate)])
  }

  function StrainJson(workouts: Option<seq<Json>>): Json
  {
    match workouts
    case None => Null
    case Some(ws) => Obj([("workouts", Arr(seq(|ws|, i requires 0 <= i < |ws| => WorkoutJson(ws[i]))))])
  }

  /** A day in the documented shape: its date, an optional sleep summary and
      the maxHeartRate of each workout (no strain at all when None). */
  function DayJson(date: Date, sleep: Option<SleepSummary>, workouts: Option<seq<Json>>): Json
    requires date.Valid()
  {
    Obj([("days", Arr([Str(IsoDate(date))])), ("sleep", SleepJson(sleep)), ("strain", StrainJson(workouts))])
  }

  lemma DayJsonFields(date: Date, sleep: Option<SleepSummary>, workouts: Option<seq<Json>>)
    requires date.Valid()
    ensures var day := DayJson(date, sleep, workouts);
      Subscript(day, "sleep") == Ok(SleepJson(sleep))
      && Subscript(day, "strain") == Ok(StrainJson(workouts))
      && DayStamp(day) == Ok(DayStampNs(date))
  {
    var day := DayJson(date, sleep, workouts);
    var fields := day.fields;
    assert "days"[0] != "sleep"[0] && "days"[0] != "strain"[0] && "sleep"[1] != "strain"[1];
    assert Lookup(fields[2..], "strain") == Some(StrainJson(workouts));
    assert Lookup(fields[1..], "strain") == Some(StrainJson(workouts));
    assert Lookup(fields[1..], "sleep") == Some(SleepJson(sleep));
    assert Subscript(day, "days") == Ok(Arr([Str(IsoDate(date))]));
    assert First(Arr([Str(IsoDate(date))])) == Ok(Str(IsoDate(date)));
    StrptimeIsoDate(date);
  }

  /** The sleep record of any day whose "sleep" entry is in the documented
      shape and whose timestamp can be computed. */
  lemma SleepPassOf(userid: Json, day: Json, sleep: Option<SleepSummary>, ns: int)
    requires Subscript(day, "sleep") == Ok(SleepJson(sleep))
    requires DayStamp(day) == Ok(ns)
    ensures SleepPass(userid, day)
         == Emission(if sleep.Some? && sleep.value.state == "complete"
                     then [SleepLine(userid, sleep.value.score, ns)] else [], None)
  {
    hide DayStamp, SleepLine;
    match sleep
    case None =>
      assert SleepRecord(userid, day) == Ok(None);
    case Some(summary) =>
      var sleepJson := SleepJson(sleep);
      assert "state"[1] != "score"[1];
      assert Lookup(sleepJson.fields[1..], "score") == Some(summary.score);
      assert Subscript(sleepJson, "state") == Ok(Str(summary.state));
      assert Subscript(sleepJson, "score") == Ok(summary.score);
      if summary.state == "complete" {
        assert SleepRecord(userid, day) == Ok(Some(SleepLine(userid, summary.score, ns)));
      } else {
        assert Str(summary.state) != Str("complete");
        assert SleepRecord(userid, day) == Ok(None);
      }
  }

  /** One workout line per maximum heart rate, all with the same stamp. */
  function WorkoutLines(userid: Json, maxHeartRates: seq<Json>, ns: int): (r: seq<string>)
    ensures |r| == |maxHeartRates|
    ensures forall i :: 0 <= i < |r| ==> r[i] == WorkoutLine(userid, maxHeartRates[i], ns)
  {
    seq(|maxHeartRates|, i requires 0 <= i < |maxHeartRates| => WorkoutLine(userid, maxHeartRates[i], ns))
  }

  lemma WorkoutRecordOf(userid: Json, day: Json, maxHeartRate: Json, ns: int)
    requires DayStamp(day) == Ok(ns)
    ensures WorkoutRecord(userid, day, WorkoutJson(maxHeartRate)) == Ok(WorkoutLine(userid, maxHeartRate, ns))
  {
    assert Subscript(WorkoutJson(maxHeartRate), "maxHeartRate") == Ok(maxHeartRate);
  }

  lemma WorkoutsOf(day: Json, workouts: Option<seq<Json>>)
    requires Subscript(day, "strain") == Ok(StrainJson(workouts))
    ensures workouts.None? || workouts.value == [] ==> Workouts(day) == Ok([])
    ensures workouts.Some? && workouts.value != [] ==> Workouts(day) == Ok(StrainJson(workouts).fields[0].1.items)
  {
    if workouts.Some? {
      var strain := StrainJson(workouts);
      assert Subscript(strain, "workouts") == Ok(strain.fields[0].1);
    }
  }

  /** The workout records of any day whose "strain" entry is in the
      documented shape and whose timestamp can be computed. */
  lemma WorkoutsPassOf(userid: Json, day: Json, workouts: Option<seq<Json>>, ns: int)
    requires Subscript(day, "strain") == Ok(StrainJson(workouts))
    requires DayStamp(day) == Ok(ns)
    ensures var ws := if workouts.Some? then workouts.value else [];
      WorkoutsPass(userid, day)
      == Emission(WorkoutLines(userid, ws, ns), None)
  {
    WorkoutsOf(day, workouts);
    if workouts.Some? && workouts.value != [] {
      var hrs := workouts.value;
      var items := StrainJson(workouts).fields[0].1.items;
      var records := WorkoutRecords(userid, day, items);
      forall i | 0 <= i < |items|
        ensures records[i] == Ok(WorkoutLine(userid, hrs[i], ns))
      {
        assert items[i] == WorkoutJson(hrs[i]);
        WorkoutRecordOf(userid, day, hrs[i], ns);
      }
      CollectAllOk(records, WorkoutLines(userid, hrs, ns));
    }
  }

  /** A well-formed day writes a sleep record if and only if it has a sleep
      summary whose state is "complete", then exactly one workout record per
      workout, in list order; every record carries the day's midnight as
      epoch nanoseconds. */
  lemma DayRecords(userid: Json, date: Date, sleep: Option<SleepSummary>, workouts: Option<seq<Json>>)
    requires date.Valid()
    ensures var ns := DayStampNs(date);
      var ws := if workouts.Some? then workouts.value else [];
      DayPass(userid, DayJson(date, sleep, workouts))
      == Emission((if sleep.Some? && sleep.value.state == "complete"
                   then [SleepLine(userid, sleep.value.score, ns)] else [])
                  + WorkoutLines(userid, ws, ns), None)
  {
    var day := DayJson(date, sleep, workouts);
    DayJsonFields(date, sleep, workouts);
    SleepPassOf(userid, day, sleep, DayStampNs(date));
    WorkoutsPassOf(userid, day, workouts, DayStampNs(date));
  }

  /** A day whose sleep is still in progress writes no sleep record. */
  lemma SleepInProgress(userid: Json, date: Date, score: Json)
    requires date.Valid()
    ensures DayPass(userid, DayJson(date, Some(SleepSummary("in_progress", score)), None)) == Nothing
  {
    DayRecords(userid, date, Some(SleepSummary("in_progress", score)), None);
  }

  // ---------------------------------------------------------------------
  // Record kinds and their order

  /** An error report, as opposed to a record. */
  predicate IsErrorLine(line: string)
  {
    StartsWith(line, "error msg=\"")
  }

  lemma ErrorLineKind(msg: string, ns: int)
    ensures IsErrorLine(ErrorLine(msg, ns))
  {
    assert ErrorLine(msg, ns)[..11] == "error msg=\"";
  }

  /** No record reads as an error report. */
  lemma RecordsAreNotErrors(line: string)
    requires IsHeartRateRecord(line) || IsCycleRecord(line)
    ensures !IsErrorLine(line)
  {
    assert line[0] != 'e' by {
      if IsHeartRateRecord(line) {
        assert line[0] == line[..10][0];
      } else if StartsWith(line, "sleep,") {
        assert line[0] == line[..6][0];
      } else {
        assert line[0] == line[..8][0];
      }
    }
  }

  /** No line is both a heart-rate record and a cycle record. */
  lemma KindsDisjoint(line: string)
    ensures !(IsHeartRateRecord(line) && IsCycleRecord(line))
  {
    if IsHeartRateRecord(line) {
      assert line[0] == line[..10][0] == 'h';
    }
  }

  lemma SampleRecordKind(userid: Json, sample: Json)
    ensures SampleRecord(userid, sample).Ok? ==> IsHeartRateRecord(SampleRecord(userid, sample).value)
  {
    assert "heartrate" + "," == "heartrate,";
  }

  lemma WorkoutRecordKind(userid: Json, day: Json, workout: Json)
    ensures WorkoutRecord(userid, day, workout).Ok? ==> IsCycleRecord(WorkoutRecord(userid, day, workout).value)
  {
    assert "workout" + "," == "workout,";
  }

  lemma SleepRecordKind(userid: Json, day: Json)
    ensures var r := SleepRecord(userid, day);
      r.Ok? && r.value.Some? ==> IsCycleRecord(r.value.value)
  {
    assert "sleep" + "," == "sleep,";
  }

  /** The heart-rate loop writes heart-rate records only. */
  lemma HeartRatePassKinds(userid: Json, data: Json)
    ensures forall l :: l in HeartRatePass(userid, data).lines ==> IsHeartRateRecord(l)
  {
    var samples := Samples(data);
    if samples.Ok? {
      var records := SampleRecords(userid, samples.value);
      var lines := Collect(records).lines;
      CollectSpec(records);
      forall i | 0 <= i < |lines|
        ensures IsHeartRateRecord(lines[i])
      {
        SampleRecordKind(userid, samples.value[i]);
      }
    }
  }

  /** A day writes sleep and workout records only. */
  lemma DayPassKinds(userid: Json, day: Json)
    ensures forall l :: l in DayPass(userid, day).lines ==> IsCycleRecord(l)
  {
    hide SleepRecord, WorkoutRecord, DayStamp;
    SleepRecordKind(userid, day);
    var w := Workouts(day);
    if w.Ok? {
      var records := WorkoutRecords(userid, day, w.value);
      var lines := Collect(records).lines;
      CollectSpec(records);
      forall i | 0 <= i < |lines|
        ensures IsCycleRecord(lines[i])
      {
        WorkoutRecordKind(userid, day, w.value[i]);
      }
    }
  }

  /** The cycle loop writes sleep and workout records only. */
  lemma CyclePassKinds(userid: Json, data: Json)
    ensures forall l :: l in CyclePass(userid, data).lines ==> IsCycleRecord(l)
  {
    var days := Iterate(data);
    if days.Ok? {
      var parts := DayPasses(userid, days.value);
      ChainLines(parts);
      forall k | 0 <= k < |parts|
        ensures forall l :: l in parts[k].lines ==> IsCycleRecord(l)
      {
        DayPassKinds(userid, days.value[k]);
      }
    }
  }

  /** print_line_protocol of the combined variant: the heart-rate loop, then
      the cycle loop, the latter only if the former did not raise. */
  function ScraperPass(userid: Json, heartrate: Json, cycles: Json): Emission
  {
    Then(HeartRatePass(userid, heartrate), CyclePass(userid, cycles))
  }

  /** The error line written when a pass was stopped by an exception. */
  function Report(failure: Option<PyError>, ns: int): (r: seq<string>)
    ensures |r| == (if failure.Some? then 1 else 0)
  {
    if failure.Some? then [ErrorLine(Describe(failure.value), ns)] else []
  }

  /** What two passes write together is what each writes. */
  lemma ThenLines(a: Emission, b: Emission)
    ensures forall l :: l in Then(a, b).lines ==> l in a.lines || l in b.lines
  {
  }

  lemma {:induction false} OrderOfThen(a: Emission, b: Emission)
    requires forall l :: l in a.lines ==> IsHeartRateRecord(l)
    requires forall l :: l in b.lines ==> IsCycleRecord(l)
    ensures var lines := Then(a, b).lines;
      forall i, j :: 0 <= i < j < |lines| && IsCycleRecord(lines[i]) ==> !IsHeartRateRecord(lines[j])
  {
    var lines := Then(a, b).lines;
    forall i, j | 0 <= i < j < |lines| && IsCycleRecord(lines[i])
      ensures !IsHeartRateRecord(lines[j])
    {
      if i < |a.lines| {
        assert lines[i] == a.lines[i];
        KindsDisjoint(lines[i]);
      } else {
        assert lines[j] == b.lines[j - |a.lines|];
        KindsDisjoint(lines[j]);
      }
    }
  }

  /** All heart-rate records come before any sleep or workout record. */
  lemma HeartRateBeforeCycles(userid: Json, heartrate: Json, cycles: Json)
    ensures var lines := ScraperPass(userid, heartrate, cycles).lines;
      forall i, j :: 0 <= i < j < |lines| && IsCycleRecord(lines[i]) ==> !IsHeartRateRecord(lines[j])
  {
    HeartRatePassKinds(userid, heartrate);
    CyclePassKinds(userid, cycles);
    OrderOfThen(HeartRatePass(userid, heartrate), CyclePass(userid, cycles));
  }
}
