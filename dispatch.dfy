/** The Lambda entry point (index.go): choosing an executor by name, filling
    the build configuration with defaults, dispatching a start or stop job,
    reporting build stats, and processing every record of a Kafka event.

    Each record arrives already decoded (base64 and JSON decoding are not
    modelled): `Undecodable` stands for a value that does not decode to a
    JSON object. What the chosen executor returns is an input
    (`ExecutorReply`); the executors themselves are modelled in their own
    modules. Records run one after another: the goroutines become a loop
    and the WaitGroup a counter. */
module Dispatch {
  import opened Values
  import opened Text
  import Screwdriver
  import Serverless
  import Eks

  /** An executor of the registry: its `Name()` and the region it was made
      for. */
  datatype Executor = Executor(name: string, region: string)

  /** `executorsList`: the EKS executor, then the serverless one. */
  function ExecutorsList(region: string): seq<Executor> {
    [Executor(Eks.ExecutorName, region), Executor(Serverless.ExecutorName, region)]
  }

  /** The last executor of the list with that name. */
  function LastNamed(name: string, executors: seq<Executor>): (r: Option<Executor>)
    ensures r.Some? ==> r.value.name == name && r.value in executors
    ensures r.None? <==> forall i :: 0 <= i < |executors| ==> executors[i].name != name
  {
    if executors == [] then None
    else if executors[|executors| - 1].name == name then Some(executors[|executors| - 1])
    else LastNamed(name, executors[..|executors| - 1])
  }

  /** The executor found is the last one with the name: none after it
      carries the name. */
  lemma {:induction false} LastNamedIsLast(name: string, executors: seq<Executor>)
    requires LastNamed(name, executors).Some?
    ensures exists i :: 0 <= i < |executors| && executors[i] == LastNamed(name, executors).value
                        && forall j :: i < j < |executors| ==> executors[j].name != name
  {
    var n := |executors| - 1;
    if executors[n].name == name {
      assert executors[n] == LastNamed(name, executors).value;
    } else {
      var front := executors[..n];
      LastNamedIsLast(name, front);
      var i :| 0 <= i < |front| && front[i] == LastNamed(name, front).value
               && forall j :: i < j < |front| ==> front[j].name != name;
      assert executors[i] == front[i];
      forall j | i < j < |executors| ensures executors[j].name != name {
        if j < n {
          assert executors[j] == front[j];
        }
      }
    }
  }

  /** `GetExecutor`: the loop does not stop at a match, so the last
      executor with the name wins; nil when no name matches. */
  method GetExecutor(name: string, region: string) returns (current: Option<Executor>)
    ensures current == LastNamed(name, ExecutorsList(region))
  {
    var executors := ExecutorsList(region);
    current := None;
    var i := 0;
    while i < |executors|
      invariant 0 <= i <= |executors|
      invariant current == LastNamed(name, executors[..i])
    {
      if executors[i].name == name {
        current := Some(executors[i]);
      }
      assert executors[..i + 1][..i] == executors[..i];
      i := i + 1;
    }
    assert executors[..i] == executors;
  }

  /** Only "eks" and "sls" name an executor, which is made for the region
      asked for. */
  lemma ExecutorNames(name: string, region: string)
    ensures LastNamed(name, ExecutorsList(region))
      == if name == "eks" then Some(Executor("eks", region))
         else if name == "sls" then Some(Executor("sls", region))
         else None
  {
    var list := ExecutorsList(region);
    assert list[..1] == [list[0]];
    assert [list[0]][..0] == [];
  }

  /** The provider defaults of `ProcessMessage`, as decoded with
      `UseNumber`. */
  const ProviderDefaults: Config := map[
    "executorLogs" := Bool(false),
    "dlc" := Bool(false),
    "privilegedMode" := Bool(false),
    "prune" := Bool(true),
    "imagePullCredentialsType" := Str("SERVICE_ROLE"),
    "environmentType" := Str("LINUX_CONTAINER"),
    "computeType" := Str("BUILD_GENERAL1_SMALL"),
    "queuedTimeout" := Num(5),
    "launcherComputeType" := Str("BUILD_GENERAL1_SMALL"),
    "buildRegion" := Str(""),
    "debugSession" := Bool(false)]

  /** A provider map after every default has been filled into the keys it
      lacks or holds as null. */
  function WithDefaults(provider: Config, defaults: Config): Config {
    map k | k in provider.Keys + defaults.Keys ::
      if k in defaults && IsNil(provider, k) then defaults[k] else provider[k]
  }

  /** A default lands only where the provider has nothing; a key the
      provider sets stays as it was, and no key is lost. */
  lemma DefaultsFillOnlyNil(provider: Config, defaults: Config)
    ensures var r := WithDefaults(provider, defaults);
      && r.Keys == provider.Keys + defaults.Keys
      && (forall k :: k in provider && !IsNil(provider, k) ==> r[k] == provider[k])
      && (forall k :: k in defaults && IsNil(provider, k) ==> r[k] == defaults[k])
  {
  }

  /** Merging the defaults a second time changes nothing. */
  lemma MergeTwiceChangesNothing(provider: Config, defaults: Config)
    requires forall k :: k in defaults ==> defaults[k] != Null
    ensures WithDefaults(WithDefaults(provider, defaults), defaults) == WithDefaults(provider, defaults)
  {
    var once := WithDefaults(provider, defaults);
    var twice := WithDefaults(once, defaults);
    forall k | k in twice
      ensures twice[k] == once[k]
    {
      if k in defaults && IsNil(once, k) {
        assert once[k] == defaults[k];
      }
    }
  }

  /** After the merge every provider default is set, to a non-null value. */
  lemma ProviderDefaultsAllPresent(provider: Config)
    ensures forall k :: k in ProviderDefaults ==> !IsNil(WithDefaults(provider, ProviderDefaults), k)
  {
  }

  /** The loop of `ProcessMessage` that writes the defaults into the
      provider map, one key at a time in no particular order. */
  method MergeDefaults(provider: Config, defaults: Config) returns (merged: Config)
    ensures merged == WithDefaults(provider, defaults)
  {
    merged := provider;
    var todo := defaults.Keys;
    MergeNothing(provider, defaults);
    while todo != {}
      invariant todo <= defaults.Keys
      invariant merged == WithDefaults(provider, defaults - todo)
      decreases |todo|
    {
      var k :| k in todo;
      MergeStep(provider, defaults, todo, k);
      if IsNil(merged, k) {
        merged := merged[k := defaults[k]];
      }
      todo := todo - {k};
    }
    assert defaults - {} == defaults;
  }

  /** Before the loop no default is written. */
  lemma MergeNothing(provider: Config, defaults: Config)
    ensures WithDefaults(provider, defaults - defaults.Keys) == provider
  {
    assert (defaults - defaults.Keys).Keys == {};
  }

  /** One round of the merge loop writes the default of `k` exactly where
      the provider has nothing. */
  lemma MergeStep(provider: Config, defaults: Config, todo: set<string>, k: string)
    requires k in todo && todo <= defaults.Keys
    ensures var before := WithDefaults(provider, defaults - todo);
      (if IsNil(before, k) then before[k := defaults[k]] else before)
        == WithDefaults(provider, defaults - (todo - {k}))
  {
    var before := WithDefaults(provider, defaults - todo);
    var after := WithDefaults(provider, defaults - (todo - {k}));
    var step := if IsNil(before, k) then before[k := defaults[k]] else before;
    assert IsNil(before, k) == IsNil(provider, k);
    assert step.Keys == after.Keys;
    forall key | key in step ensures step[key] == after[key] {
      if key != k {
        assert step[key] == before[key];
      }
    }
  }

  /** The build configuration the message is decoded into starts with these
      two entries. */
  const TopLevelDefaults: Config := map[
    "container" := Str("aws/codebuild/standard:5.0"),
    "serviceAccountName" := Str("default")]

  /** The `buildConfig` field of a message: missing, JSON null, or an
      object. */
  datatype ConfigField = Absent | NullConfig | Given(fields: Config)

  /** A decoded build message; a missing `job` or `executorType` decodes as
      "". */
  datatype Message = Message(job: string, executorType: string, buildConfig: ConfigField)

  /** What decoding a record yields: an error (`log.Fatal`), a JSON null
      (the message pointer becomes nil), or a message. */
  datatype Decoded = Undecodable | NullMessage | Decoded(message: Message)

  /** The configuration after decoding into the pre-seeded map: decoding
      keeps the seeded entries and overwrites them with the message's; a
      null field leaves a nil map. */
  function SeededConfig(field: ConfigField): Option<Config> {
    match field
    case Absent => Some(TopLevelDefaults)
    case NullConfig => None
    case Given(fields) => Some(TopLevelDefaults + fields)
  }

  /** The two top-level defaults survive unless the message supplies the
      key, and then the message wins; every other key is the message's. */
  lemma TopLevelDefaultsYield(fields: Config)
    ensures var c := SeededConfig(Given(fields)).value;
      && c.Keys == fields.Keys + {"container", "serviceAccountName"}
      && (forall k :: k in fields ==> c[k] == fields[k])
      && ("container" !in fields ==> c["container"] == Str("aws/codebuild/standard:5.0"))
      && ("serviceAccountName" !in fields ==> c["serviceAccountName"] == Str("default"))
  {
  }

  /** The region builds run in: `buildRegion` unless it is empty, then
      `region`; each must be a string where it is read. */
  function EffectiveRegion(provider: Config): (r: Outcome<string>)
    ensures r.Ok? <==> StringAt(provider, "buildRegion").Ok?
                       && (provider["buildRegion"].s == "" ==> StringAt(provider, "region").Ok?)
    ensures r.Ok? && provider["buildRegion"].s != "" ==> r.value == provider["buildRegion"].s
    ensures r.Ok? && provider["buildRegion"].s == "" ==> r.value == provider["region"].s
  {
    var buildRegion :- StringAt(provider, "buildRegion");
    if buildRegion == "" then StringAt(provider, "region") else Ok(buildRegion)
  }

  /** The configuration handed to the executor, and the region. */
  datatype Prepared = Prepared(config: Config, region: string)

  /** Everything `ProcessMessage` does before dispatching: the provider
      must be an object, its defaults are merged in, and the region is read
      from the merged provider. */
  function Prepare(field: ConfigField): (r: Outcome<Prepared>)
    ensures r.Ok? <==> (SeededConfig(field).Some? && ObjAt(SeededConfig(field).value, "provider").Ok?
      && EffectiveRegion(WithDefaults(SeededConfig(field).value["provider"].fields, ProviderDefaults)).Ok?)
    ensures r.Ok? ==>
      var seeded := SeededConfig(field).value;
      var merged := WithDefaults(seeded["provider"].fields, ProviderDefaults);
      && r.value.config == seeded["provider" := Obj(merged)]
      && r.value.region == EffectiveRegion(merged).value
  {
    match SeededConfig(field)
    case None => Panic
    case Some(seeded) =>
      var provider :- ObjAt(seeded, "provider");
      var merged := WithDefaults(provider, ProviderDefaults);
      var region :- EffectiveRegion(merged);
      Ok(Prepared(seeded["provider" := Obj(merged)], region))
  }

  /** What the executor's `Start` and `Stop` would return for this record
      (a panic inside them is recovered like any other). */
  datatype ExecutorReply = ExecutorReply(start: Outcome<Result<string>>, stop: Outcome<Option<string>>)

  /** The build-tracking API as seen by one record: whether its address
      parses, its HTTP reply, and the clock reading for the stats. */
  datatype StatsService = StatsService(parseError: Option<string>, reply: Screwdriver.HttpReply, now: int)

  /** The observable steps of processing one record. */
  datatype Effect =
    | StartCalled(executor: Executor, config: Config)
    | StopCalled(executor: Executor, config: Config)
    | StatsReported(buildID: int, stats: Config, call: Screwdriver.ApiCall)
    | Done

  /** How `ProcessMessage` ends: it returns, a panic is recovered by the
      deferred handler, or `log.Fatal` exits the process. */
  datatype Ending = Returned | Recovered | Exited

  datatype Processed = Processed(effects: seq<Effect>, ending: Ending)

  /** The effects before the deferred `wg.Done()`, and whether a panic cut
      them short. */
  datatype Trace = Trace(effects: seq<Effect>, panicked: bool)

  /** The effects of calling the executor and what became of the
      hostname. */
  datatype Called = Called(effects: seq<Effect>, hostname: Outcome<string>)

  /** The `switch` on the job: a start yields the hostname ("" on error), a
      stop yields none; calling a method of the nil executor panics. */
  function CallExecutor(job: string, executor: Option<Executor>, config: Config, reply: ExecutorReply): (r: Called)
    ensures |r.effects| <= 1
    ensures forall i :: 0 <= i < |r.effects| ==> r.effects[i].StartCalled? || r.effects[i].StopCalled?
  {
    if job == "start" then
      if executor.None? then Called([], Panic)
      else Called([StartCalled(executor.value, config)],
                  match reply.start
                  case Panic => Panic
                  case Ok(Success(h)) => Ok(h)
                  case Ok(Failure(_)) => Ok(""))
    else if job == "stop" then
      if executor.None? then Called([], Panic)
      else Called([StopCalled(executor.value, config)], if reply.stop.Panic? then Panic else Ok(""))
    else Called([], Ok(""))
  }

  /** The stats `UpdateBuildStats` sends. */
  function Stats(hostname: string, now: int): Config {
    map["hostname" := Str(hostname), "imagePullStartTime" := Time(now)]
  }

  /** `UpdateBuildStats`: reports only when there is a hostname. */
  function Report(hostname: string, buildID: int, client: Screwdriver.Client, svc: StatsService): seq<Effect> {
    if hostname == "" then []
    else
      var stats := Stats(hostname, svc.now);
      [StatsReported(buildID, stats, Screwdriver.UpdateBuild(client, stats, buildID, "", svc.parseError, svc.reply))]
  }

  /** The reads after the executor call: the build id as a `json.Number`
      and the API client made from `apiUri` and `token`. */
  datatype Reporter = Reporter(buildID: int, client: Screwdriver.Client)

  function ReporterOf(config: Config): Outcome<Reporter> {
    var buildID :- NumberAt(config, "buildId");
    var apiUri :- StringAt(config, "apiUri");
    var token :- StringAt(config, "token");
    Ok(Reporter(buildID, Screwdriver.Client(apiUri, token)))
  }

  /** The body of `ProcessMessage` for a decoded message, up to the
      deferred calls. */
  function Steps(m: Message, reply: ExecutorReply, svc: StatsService): (t: Trace)
    ensures forall i :: 0 <= i < |t.effects| ==> !t.effects[i].Done?
  {
    match Prepare(m.buildConfig)
    case Panic => Trace([], true)
    case Ok(p) =>
      if m.executorType == "" || m.job == "" then Trace([], false)
      else
        var called := CallExecutor(m.job, LastNamed(m.executorType, ExecutorsList(p.region)), p.config, reply);
        AfterCall(called, p.config, svc)
  }

  /** The steps after the executor call: reading the build id and the API
      client, then the report. */
  function AfterCall(called: Called, config: Config, svc: StatsService): (t: Trace)
    requires forall i :: 0 <= i < |called.effects| ==> !called.effects[i].Done?
    ensures forall i :: 0 <= i < |t.effects| ==> !t.effects[i].Done?
  {
    match called.hostname
    case Panic => Trace(called.effects, true)
    case Ok(hostname) =>
      match ReporterOf(config)
      case Panic => Trace(called.effects, true)
      case Ok(rep) => Trace(called.effects + Report(hostname, rep.buildID, rep.client, svc), false)
  }

  /** `ProcessMessage`: the deferred `wg.Done()` runs on every path except
      `log.Fatal`, and before the deferred recovery. */
  function Process(d: Decoded, reply: ExecutorReply, svc: StatsService): Processed {
    match d
    case Undecodable => Processed([], Exited)
    case NullMessage => Processed([Done], Recovered)
    case Decoded(m) =>
      var t := Steps(m, reply, svc);
      Processed(t.effects + [Done], if t.panicked then Recovered else Returned)
  }

  function DoneCount(effects: seq<Effect>): nat {
    if effects == [] then 0 else (if effects[0].Done? then 1 else 0) + DoneCount(effects[1..])
  }

  lemma {:induction false} DoneCountWithoutDone(effects: seq<Effect>)
    requires forall i :: 0 <= i < |effects| ==> !effects[i].Done?
    ensures DoneCount(effects + [Done]) == 1
  {
    if effects != [] {
      assert (effects + [Done])[1..] == effects[1..] + [Done];
      DoneCountWithoutDone(effects[1..]);
    }
  }

  /** `wg.Done()` runs exactly once, as the last step, unless the process
      exits, which happens exactly when the record cannot be decoded. */
  lemma DoneExactlyOnce(d: Decoded, reply: ExecutorReply, svc: StatsService)
    ensures var r := Process(d, reply, svc);
      && (r.ending.Exited? <==> d.Undecodable?)
      && (r.ending.Exited? ==> r.effects == [])
      && (!r.ending.Exited? ==> DoneCount(r.effects) == 1 && r.effects[|r.effects| - 1] == Done)
  {
    match d
    case Undecodable =>
    case NullMessage =>
      DoneCountWithoutDone([]);
    case Decoded(m) =>
      DoneCountWithoutDone(Steps(m, reply, svc).effects);
  }

  /** Without a job or an executor type no executor is called and nothing
      is reported. */
  lemma NoDispatchWithoutJob(m: Message, reply: ExecutorReply, svc: StatsService)
    requires m.job == "" || m.executorType == ""
    ensures Process(Decoded(m), reply, svc)
      == Processed([Done], if Prepare(m.buildConfig).Ok? then Returned else Recovered)
  {
  }

  /** A missing or non-object provider is a recovered panic before any
      call. */
  lemma BadConfigRecovers(m: Message, reply: ExecutorReply, svc: StatsService)
    requires Prepare(m.buildConfig).Panic?
    ensures Process(Decoded(m), reply, svc) == Processed([Done], Recovered)
  {
  }

  /** A job naming no executor panics on the nil executor, which is
      recovered; nothing is called. */
  lemma UnknownExecutorRecovers(m: Message, reply: ExecutorReply, svc: StatsService)
    requires Prepare(m.buildConfig).Ok? && (m.job == "start" || m.job == "stop")
    requires m.executorType != "" && m.executorType != "eks" && m.executorType != "sls"
    ensures Process(Decoded(m), reply, svc) == Processed([Done], Recovered)
  {
    var p := Prepare(m.buildConfig).value;
    ExecutorNames(m.executorType, p.region);
    assert CallExecutor(m.job, LastNamed(m.executorType, ExecutorsList(p.region)), p.config, reply) == Called([], Panic);
    assert Steps(m, reply, svc) == Trace([], true);
    assert [] + [Done] == [Done];
  }

  /** A start calls only `Start`, a stop only `Stop`, any other job neither;
      the executor called is the one named, made for the effective region,
      and it is called at most once, first. */
  lemma CallsFollowJob(m: Message, reply: ExecutorReply, svc: StatsService)
    ensures var r := Process(Decoded(m), reply, svc);
      && (forall i :: 0 <= i < |r.effects| && r.effects[i].StartCalled? ==>
            i == 0 && m.job == "start" && r.effects[i].executor.name == m.executorType
            && r.effects[i].executor.region == Prepare(m.buildConfig).value.region)
      && (forall i :: 0 <= i < |r.effects| && r.effects[i].StopCalled? ==>
            i == 0 && m.job == "stop" && r.effects[i].executor.name == m.executorType
            && r.effects[i].executor.region == Prepare(m.buildConfig).value.region)
  {
    var calls := StepsCalls(m, reply, svc);
    var t := Steps(m, reply, svc);
    var r := Process(Decoded(m), reply, svc);
    assert r.effects == t.effects + [Done];
    forall i | 0 <= i < |r.effects| && (r.effects[i].StartCalled? || r.effects[i].StopCalled?)
      ensures i == 0 && |calls| == 1 && r.effects[i] == calls[0]
    {
      assert i < |t.effects|;
      assert r.effects[i] == t.effects[i];
      assert i < |calls|;
      assert t.effects[..|calls|][i] == t.effects[i];
    }
  }

  /** The effects of the steps are the executor call, if made, followed by
      reports only; the call is the one the job asks for, on the named
      executor of the effective region. */
  lemma StepsCalls(m: Message, reply: ExecutorReply, svc: StatsService) returns (calls: seq<Effect>)
    ensures var t := Steps(m, reply, svc);
      && |calls| <= 1 && |calls| <= |t.effects| && t.effects[..|calls|] == calls
      && forall i :: |calls| <= i < |t.effects| ==> t.effects[i].StatsReported?
    ensures |calls| == 1 ==>
      && Prepare(m.buildConfig).Ok? && (calls[0].StartCalled? || calls[0].StopCalled?)
      && calls[0].executor == Executor(m.executorType, Prepare(m.buildConfig).value.region)
      && (calls[0].StartCalled? ==> m.job == "start") && (calls[0].StopCalled? ==> m.job == "stop")
  {
    calls := [];
    match Prepare(m.buildConfig)
    case Panic =>
    case Ok(p) =>
      if m.executorType != "" && m.job != "" {
        var executor := LastNamed(m.executorType, ExecutorsList(p.region));
        var called := CallExecutor(m.job, executor, p.config, reply);
        assert Steps(m, reply, svc) == AfterCall(called, p.config, svc);
        AfterCallKeepsCalls(called, p.config, svc);
        calls := called.effects;
        if executor.Some? {
          assert executor.value in ExecutorsList(p.region);
        }
      }
  }

  /** The steps after the executor call keep its effects in front and add
      only reports. */
  lemma AfterCallKeepsCalls(called: Called, config: Config, svc: StatsService)
    requires forall i :: 0 <= i < |called.effects| ==> !called.effects[i].Done?
    ensures var t := AfterCall(called, config, svc);
      && |called.effects| <= |t.effects| && t.effects[..|called.effects|] == called.effects
      && forall i :: |called.effects| <= i < |t.effects| ==> t.effects[i].StatsReported?
  {
    var t := AfterCall(called, config, svc);
    if called.hostname.Ok? && ReporterOf(config).Ok? {
      var rep := ReporterOf(config).value;
      var report := Report(called.hostname.value, rep.buildID, rep.client, svc);
      assert t.effects == called.effects + report;
      ConcatParts(called.effects, report);
    } else {
      assert t.effects == called.effects;
    }
  }

  /** Stats are reported only for a start that returned a hostname, with
      exactly the hostname and the pull start time, for the configured
      build, and then the request is sent unless the API address is
      malformed. */
  lemma ReportOnlyWithHostname(m: Message, reply: ExecutorReply, svc: StatsService)
    ensures var r := Process(Decoded(m), reply, svc);
      forall i :: 0 <= i < |r.effects| && r.effects[i].StatsReported? ==> ReportFacts(m, reply, svc, r.effects[i])
  {
    var r := Process(Decoded(m), reply, svc);
    var t := Steps(m, reply, svc);
    assert r.effects == t.effects + [Done];
    forall i | 0 <= i < |r.effects| && r.effects[i].StatsReported?
      ensures r.effects[i] in t.effects
    {
      assert i < |t.effects|;
      assert r.effects[i] == t.effects[i];
    }
    forall e | e in t.effects && e.StatsReported?
      ensures ReportFacts(m, reply, svc, e)
    {
      ReportedByStart(m, reply, svc, e);
      ReportContents(m, reply, svc, e);
    }
  }

  /** What `ReportOnlyWithHostname` states of one report. */
  ghost predicate ReportFacts(m: Message, reply: ExecutorReply, svc: StatsService, e: Effect)
    requires e.StatsReported?
  {
    && m.job == "start" && reply.start.Ok? && reply.start.value.Success?
    && reply.start.value.value != ""
    && e.stats == Stats(reply.start.value.value, svc.now)
    && e.stats.Keys == {"hostname", "imagePullStartTime"}
    && Prepare(m.buildConfig).Ok? && NumberAt(Prepare(m.buildConfig).value.config, "buildId").Ok?
    && e.buildID == Int64Of(Prepare(m.buildConfig).value.config["buildId"].n)
    && (e.call.sent.Some? <==> svc.parseError.None?)
  }

  /** The report `ReportedByStart` describes carries the stats of the
      hostname and the configured build id, and is sent unless the API
      address is malformed. */
  lemma ReportContents(m: Message, reply: ExecutorReply, svc: StatsService, e: Effect)
    requires Prepare(m.buildConfig).Ok? && ReporterOf(Prepare(m.buildConfig).value.config).Ok?
    requires m.job == "start" && reply.start.Ok? && reply.start.value.Success? && reply.start.value.value != ""
    requires var rep := ReporterOf(Prepare(m.buildConfig).value.config).value;
      var stats := Stats(reply.start.value.value, svc.now);
      e == StatsReported(rep.buildID, stats,
                         Screwdriver.UpdateBuild(rep.client, stats, rep.buildID, "", svc.parseError, svc.reply))
    ensures e.StatsReported? && ReportFacts(m, reply, svc, e)
  {
    var config := Prepare(m.buildConfig).value.config;
    var stats := Stats(reply.start.value.value, svc.now);
    assert stats.Keys == {"hostname", "imagePullStartTime"};
    assert ReporterOf(config).value.buildID == Int64Of(config["buildId"].n);
  }

  /** A report among the effects of the message's steps comes from a start
      that returned a hostname. */
  lemma ReportedByStart(m: Message, reply: ExecutorReply, svc: StatsService, e: Effect)
    requires e in Steps(m, reply, svc).effects && e.StatsReported?
    ensures Prepare(m.buildConfig).Ok? && ReporterOf(Prepare(m.buildConfig).value.config).Ok?
    ensures m.job == "start" && reply.start.Ok? && reply.start.value.Success? && reply.start.value.value != ""
    ensures var rep := ReporterOf(Prepare(m.buildConfig).value.config).value;
      var stats := Stats(reply.start.value.value, svc.now);
      e == StatsReported(rep.buildID, stats,
                         Screwdriver.UpdateBuild(rep.client, stats, rep.buildID, "", svc.parseError, svc.reply))
  {
    match Prepare(m.buildConfig)
    case Panic =>
    case Ok(p) =>
      if m.executorType != "" && m.job != "" {
        var called := CallExecutor(m.job, LastNamed(m.executorType, ExecutorsList(p.region)), p.config, reply);
        assert Steps(m, reply, svc) == AfterCall(called, p.config, svc);
        ReportAfterCall(called, p.config, svc, e);
      }
  }

  /** After the executor call, a report is made only for a non-empty
      hostname, once the build id and the API client are read. */
  lemma ReportAfterCall(called: Called, config: Config, svc: StatsService, e: Effect)
    requires forall i :: 0 <= i < |called.effects| ==> called.effects[i].StartCalled? || called.effects[i].StopCalled?
    requires e in AfterCall(called, config, svc).effects && e.StatsReported?
    ensures called.hostname.Ok? && called.hostname.value != "" && ReporterOf(config).Ok?
    ensures var rep := ReporterOf(config).value;
      var stats := Stats(called.hostname.value, svc.now);
      e == StatsReported(rep.buildID, stats,
                         Screwdriver.UpdateBuild(rep.client, stats, rep.buildID, "", svc.parseError, svc.reply))
  {
    if called.hostname.Ok? && ReporterOf(config).Ok? {
      var rep := ReporterOf(config).value;
      var report := Report(called.hostname.value, rep.buildID, rep.client, svc);
      assert AfterCall(called, config, svc).effects == called.effects + report;
      assert e !in called.effects;
    }
  }

  /** The whole path of a successful start: the executor is called, the
      stats are reported, and the message returns normally. */
  lemma StartReportsHostname(m: Message, reply: ExecutorReply, svc: StatsService, hostname: string)
    requires m.job == "start" && (m.executorType == "eks" || m.executorType == "sls")
    requires Prepare(m.buildConfig).Ok? && ReporterOf(Prepare(m.buildConfig).value.config).Ok?
    requires reply.start == Ok(Success(hostname)) && hostname != ""
    ensures var p := Prepare(m.buildConfig).value;
      var rep := ReporterOf(p.config).value;
      var stats := Stats(hostname, svc.now);
      Process(Decoded(m), reply, svc) == Processed(
        [StartCalled(Executor(m.executorType, p.region), p.config),
         StatsReported(rep.buildID, stats,
                       Screwdriver.UpdateBuild(rep.client, stats, rep.buildID, "", svc.parseError, svc.reply)),
         Done],
        Returned)
  {
    var p := Prepare(m.buildConfig).value;
    StartCallsExecutor(m, reply, p);
    var executor := Executor(m.executorType, p.region);
    var called := CallExecutor(m.job, LastNamed(m.executorType, ExecutorsList(p.region)), p.config, reply);
    var rep := ReporterOf(p.config).value;
    var stats := Stats(hostname, svc.now);
    var report := StatsReported(rep.buildID, stats,
                                Screwdriver.UpdateBuild(rep.client, stats, rep.buildID, "", svc.parseError, svc.reply));
    assert Report(hostname, rep.buildID, rep.client, svc) == [report];
    assert AfterCall(called, p.config, svc) == Trace([StartCalled(executor, p.config)] + [report], false);
    StepsAfterPrepare(m, reply, svc, p);
    assert [StartCalled(executor, p.config)] + [report] + [Done] == [StartCalled(executor, p.config), report, Done];
  }

  /** Once the configuration is prepared and the message names a job and
      an executor type, the steps are the call and what follows it. */
  lemma StepsAfterPrepare(m: Message, reply: ExecutorReply, svc: StatsService, p: Prepared)
    requires Prepare(m.buildConfig) == Ok(p) && m.executorType != "" && m.job != ""
    ensures Steps(m, reply, svc)
      == AfterCall(CallExecutor(m.job, LastNamed(m.executorType, ExecutorsList(p.region)), p.config, reply), p.config, svc)
  {
  }

  /** A start of a known executor calls its `Start` and yields the
      hostname it returns, "" when it returns an error. */
  lemma StartCallsExecutor(m: Message, reply: ExecutorReply, p: Prepared)
    requires m.job == "start" && (m.executorType == "eks" || m.executorType == "sls")
    requires reply.start.Ok?
    ensures CallExecutor(m.job, LastNamed(m.executorType, ExecutorsList(p.region)), p.config, reply)
      == Called([StartCalled(Executor(m.executorType, p.region), p.config)],
                Ok(if reply.start.value.Success? then reply.start.value.value else ""))
  {
    ExecutorNames(m.executorType, p.region);
  }

  /** A stop of a known executor calls its `Stop`, and nothing else; the
      hostname it leaves is "", so nothing can be reported after it. */
  lemma StopCallsExecutor(m: Message, reply: ExecutorReply, p: Prepared)
    requires m.job == "stop" && (m.executorType == "eks" || m.executorType == "sls")
    ensures CallExecutor(m.job, LastNamed(m.executorType, ExecutorsList(p.region)), p.config, reply)
      == Called([StopCalled(Executor(m.executorType, p.region), p.config)],
                if reply.stop.Panic? then Panic else Ok(""))
  {
    ExecutorNames(m.executorType, p.region);
  }

  /** A stop that returns (with or without an error) calls the executor's
      `Stop`, reports nothing and ends normally after Done; a stop that
      panics is recovered after the call. */
  lemma StopReportsNothing(m: Message, reply: ExecutorReply, svc: StatsService)
    requires m.job == "stop" && (m.executorType == "eks" || m.executorType == "sls")
    requires Prepare(m.buildConfig).Ok? && ReporterOf(Prepare(m.buildConfig).value.config).Ok?
    ensures var p := Prepare(m.buildConfig).value;
      Process(Decoded(m), reply, svc)
        == Processed([StopCalled(Executor(m.executorType, p.region), p.config), Done],
                     if reply.stop.Panic? then Recovered else Returned)
  {
    var p := Prepare(m.buildConfig).value;
    StopCallsExecutor(m, reply, p);
    var stop := StopCalled(Executor(m.executorType, p.region), p.config);
    var called := CallExecutor(m.job, LastNamed(m.executorType, ExecutorsList(p.region)), p.config, reply);
    assert AfterCall(called, p.config, svc) == Trace([stop], reply.stop.Panic?);
    StepsAfterPrepare(m, reply, svc, p);
  }

  /** A start that returns no hostname, or fails, reports nothing. */
  lemma StartWithoutHostnameReportsNothing(m: Message, reply: ExecutorReply, svc: StatsService)
    requires m.job == "start" && (m.executorType == "eks" || m.executorType == "sls")
    requires Prepare(m.buildConfig).Ok? && ReporterOf(Prepare(m.buildConfig).value.config).Ok?
    requires reply.start == Ok(Success("")) || (reply.start.Ok? && reply.start.value.Failure?)
    ensures var p := Prepare(m.buildConfig).value;
      Process(Decoded(m), reply, svc)
        == Processed([StartCalled(Executor(m.executorType, p.region), p.config), Done], Returned)
  {
    var p := Prepare(m.buildConfig).value;
    StartCallsExecutor(m, reply, p);
    var start := StartCalled(Executor(m.executorType, p.region), p.config);
    var called := CallExecutor(m.job, LastNamed(m.executorType, ExecutorsList(p.region)), p.config, reply);
    assert AfterCall(called, p.config, svc) == Trace([start], false);
    StepsAfterPrepare(m, reply, svc, p);
  }

  /** `sync.WaitGroup`, reduced to its counter; driving it below zero
      panics in Go, so `Done` demands a positive counter. */
  class WaitGroup {
    var counter: int

    constructor ()
      ensures counter == 0
    {
      counter := 0;
    }

    method Add(delta: int)
      requires counter + delta >= 0
      modifies this
      ensures counter == old(counter) + delta
    {
      counter := counter + delta;
    }

    method Done()
      requires counter >= 1
      modifies this
      ensures counter == old(counter) - 1
    {
      counter := counter - 1;
    }
  }

  /** `ProcessMessage` on one record; `id` is only logged. */
  method ProcessMessage(id: nat, d: Decoded, reply: ExecutorReply, svc: StatsService, wg: WaitGroup)
    returns (r: Processed)
    requires wg.counter >= 1
    modifies wg
    ensures r == Process(d, reply, svc)
    ensures wg.counter == old(wg.counter) - (if d.Undecodable? then 0 else 1)
  {
    if d.Undecodable? {
      return Processed([], Exited);
    }
    var effects: seq<Effect> := [];
    var panicked := true;
    if d.Decoded? {
      var t := Steps(d.message, reply, svc);
      effects := t.effects;
      panicked := t.panicked;
    }
    wg.Done();
    r := Processed(effects + [Done], if panicked then Recovered else Returned);
  }

  /** One Kafka record with everything its processing depends on. */
  datatype RecordInput = RecordInput(decoded: Decoded, executor: ExecutorReply, stats: StatsService)

  /** The records of all partitions, partition by partition. */
  function Flatten(partitions: seq<seq<RecordInput>>): seq<RecordInput> {
    if partitions == [] then [] else partitions[0] + Flatten(partitions[1..])
  }

  function SumLengths(partitions: seq<seq<RecordInput>>): nat {
    if partitions == [] then 0 else |partitions[0]| + SumLengths(partitions[1..])
  }

  lemma {:induction false} FlattenAppend(a: seq<seq<RecordInput>>, b: seq<seq<RecordInput>>)
    ensures Flatten(a + b) == Flatten(a) + Flatten(b)
    ensures SumLengths(a + b) == SumLengths(a) + SumLengths(b)
  {
    if a != [] {
      assert (a + b)[1..] == a[1..] + b;
      assert (a + b)[0] == a[0];
      FlattenAppend(a[1..], b);
      ConcatAssociates(a[0], Flatten(a[1..]), Flatten(b));
    } else {
      assert a + b == b;
    }
  }

  /** The record count is the length of all records together. */
  lemma {:induction false} FlattenLength(partitions: seq<seq<RecordInput>>)
    ensures |Flatten(partitions)| == SumLengths(partitions)
  {
    if partitions != [] {
      FlattenLength(partitions[1..]);
    }
  }

  function ProcessRecord(rec: RecordInput): Processed {
    Process(rec.decoded, rec.executor, rec.stats)
  }

  /** The records processed in order, up to and including the first that
      ends the process. */
  function ProcessAll(records: seq<RecordInput>): seq<Processed> {
    if records == [] then []
    else if records[0].decoded.Undecodable? then [ProcessRecord(records[0])]
    else [ProcessRecord(records[0])] + ProcessAll(records[1..])
  }

  /** Records that all decode run through, and processing goes on. */
  lemma {:induction false} ProcessAllConcat(xs: seq<RecordInput>, ys: seq<RecordInput>)
    requires forall i :: 0 <= i < |xs| ==> !xs[i].decoded.Undecodable?
    ensures ProcessAll(xs + ys) == ProcessAll(xs) + ProcessAll(ys)
  {
    if xs != [] {
      assert (xs + ys)[1..] == xs[1..] + ys;
      assert (xs + ys)[0] == xs[0];
      ProcessAllConcat(xs[1..], ys);
    } else {
      assert xs + ys == ys;
    }
  }

  /** Once a record ends the process, nothing after it is processed. */
  lemma {:induction false} ProcessAllStops(xs: seq<RecordInput>, ys: seq<RecordInput>)
    requires exists i :: 0 <= i < |xs| && xs[i].decoded.Undecodable?
    ensures ProcessAll(xs + ys) == ProcessAll(xs)
  {
    assert (xs + ys)[0] == xs[0];
    if !xs[0].decoded.Undecodable? {
      var i :| 0 <= i < |xs| && xs[i].decoded.Undecodable?;
      assert xs[1..][i - 1] == xs[i];
      assert (xs + ys)[1..] == xs[1..] + ys;
      ProcessAllStops(xs[1..], ys);
    }
  }

  predicate AllDecode(records: seq<RecordInput>) {
    forall i :: 0 <= i < |records| ==> !records[i].decoded.Undecodable?
  }

  /** Appending a partition whose records all decode. */
  lemma NextPartition(partitions: seq<seq<RecordInput>>, k: nat)
    requires k < |partitions| && AllDecode(Flatten(partitions[..k])) && AllDecode(partitions[k])
    ensures ProcessAll(Flatten(partitions[..k + 1])) == ProcessAll(Flatten(partitions[..k])) + ProcessAll(partitions[k])
    ensures SumLengths(partitions[..k + 1]) == SumLengths(partitions[..k]) + |partitions[k]|
    ensures AllDecode(Flatten(partitions[..k + 1]))
  {
    var record := partitions[k];
    var earlier := Flatten(partitions[..k]);
    assert partitions[..k + 1] == partitions[..k] + [record];
    FlattenAppend(partitions[..k], [record]);
    assert Flatten([record]) == record by {
      assert [record][1..] == [];
    }
    ProcessAllConcat(earlier, record);
    forall i | 0 <= i < |earlier + record| ensures !(earlier + record)[i].decoded.Undecodable? {
      if i >= |earlier| {
        assert (earlier + record)[i] == record[i - |earlier|];
      }
    }
  }

  lemma FlattenSplit(partitions: seq<seq<RecordInput>>, k: nat)
    requires k <= |partitions|
    ensures Flatten(partitions) == Flatten(partitions[..k]) + Flatten(partitions[k..])
  {
    assert partitions == partitions[..k] + partitions[k..];
    FlattenAppend(partitions[..k], partitions[k..]);
  }

  lemma FlattenFrom(partitions: seq<seq<RecordInput>>, k: nat)
    requires k < |partitions|
    ensures Flatten(partitions[k..]) == partitions[k] + Flatten(partitions[k + 1..])
  {
    assert partitions[k..][1..] == partitions[k + 1..];
  }

  lemma FlattenAround(partitions: seq<seq<RecordInput>>, k: nat)
    requires k < |partitions|
    ensures Flatten(partitions) == Flatten(partitions[..k]) + (partitions[k] + Flatten(partitions[k + 1..]))
  {
    FlattenSplit(partitions, k);
    FlattenFrom(partitions, k);
  }

  /** A partition with a record that ends the process: the log stops within
      it and there is no summary. */
  lemma ExitingPartition(partitions: seq<seq<RecordInput>>, k: nat)
    requires k < |partitions| && AllDecode(Flatten(partitions[..k])) && !AllDecode(partitions[k])
    ensures ProcessAll(Flatten(partitions)) == ProcessAll(Flatten(partitions[..k])) + ProcessAll(partitions[k])
    ensures Summary(partitions) == None
  {
    var record := partitions[k];
    var earlier := Flatten(partitions[..k]);
    var later := Flatten(partitions[k + 1..]);
    FlattenAround(partitions, k);
    ProcessAllStops(record, later);
    ProcessAllConcat(earlier, record + later);
    NotAllDecode(earlier, record, later);
  }

  lemma NotAllDecode(earlier: seq<RecordInput>, record: seq<RecordInput>, later: seq<RecordInput>)
    requires !AllDecode(record)
    ensures !AllDecode(earlier + (record + later))
  {
    var j :| 0 <= j < |record| && record[j].decoded.Undecodable?;
    assert (earlier + (record + later))[|earlier| + j] == record[j];
  }

  function SummaryText(total: int): string {
    "Finished processing messages: " + IntToDecimal(total)
  }

  /** The value `HandleRequest` returns: the summary with the number of
      records, unless some record makes the process exit first. */
  function Summary(partitions: seq<seq<RecordInput>>): Option<string> {
    if AllDecode(Flatten(partitions)) then Some(SummaryText(SumLengths(partitions)))
    else None
  }

  /** The count in the summary reads back as the number of records. */
  lemma SummaryCountsRecords(partitions: seq<seq<RecordInput>>)
    requires Summary(partitions).Some?
    ensures var s := Summary(partitions).value;
      && HasPrefix(s, "Finished processing messages: ")
      && ParseInt(s[|"Finished processing messages: "|..]) == Some(|Flatten(partitions)|)
  {
    var s := Summary(partitions).value;
    var prefix := "Finished processing messages: ";
    assert s[|prefix|..] == IntToDecimal(SumLengths(partitions));
    FlattenLength(partitions);
    IntDecimalRoundTrip(SumLengths(partitions));
  }

  /** An event without partitions. */
  lemma EmptyEventSummary()
    ensures Summary([]) == Some("Finished processing messages: " + "0")
  {
    assert IntToDecimal(0) == "0";
  }

  /** The records of one partition: the counter is set to their number,
      one processor runs per record, and the counter is back at zero when
      all have run. `exited` tells that a record ended the process. */
  method ProcessPartition(record: seq<RecordInput>) returns (exited: bool, ghost log: seq<Processed>, ghost finalCount: int)
    ensures log == ProcessAll(record)
    ensures exited <==> !AllDecode(record)
    ensures !exited ==> finalCount == 0
  {
    var count := |record|;
    var wg := new WaitGroup();
    wg.Add(count);
    log := [];
    var i := 0;
    assert record[..0] == [];
    while i < count
      invariant 0 <= i <= count
      invariant wg.counter == count - i
      invariant log == ProcessAll(record[..i])
      invariant forall j :: 0 <= j < i ==> !record[j].decoded.Undecodable?
    {
      var p := ProcessMessage(i, record[i].decoded, record[i].executor, record[i].stats, wg);
      ProcessAllConcat(record[..i], [record[i]]);
      assert record[..i] + [record[i]] == record[..i + 1];
      assert ProcessAll([record[i]]) == [p] by {
        assert [record[i]][1..] == [];
      }
      log := log + [p];
      if p.ending.Exited? {
        DoneExactlyOnce(record[i].decoded, record[i].executor, record[i].stats);
        ProcessAllStops(record[..i + 1], record[i + 1..]);
        assert record[..i + 1] + record[i + 1..] == record;
        return true, log, wg.counter;
      }
      i := i + 1;
    }
    assert record[..count] == record;
    exited, finalCount := false, wg.counter;
  }

  /** `HandleRequest`: processes the partitions in turn and counts their
      records for the summary. `processed` is the log of the records
      processed. */
  method HandleRequest(partitions: seq<seq<RecordInput>>) returns (summary: Option<string>, ghost processed: seq<Processed>)
    ensures summary == Summary(partitions)
    ensures processed == ProcessAll(Flatten(partitions))
  {
    var total := 0;
    processed := [];
    var k := 0;
    while k < |partitions|
      invariant 0 <= k <= |partitions|
      invariant total == SumLengths(partitions[..k])
      invariant processed == ProcessAll(Flatten(partitions[..k]))
      invariant AllDecode(Flatten(partitions[..k]))
    {
      var record := partitions[k];
      var exited;
      ghost var log, finalCount;
      exited, log, finalCount := ProcessPartition(record);
      if exited {
        ExitingPartition(partitions, k);
        return None, processed + log;
      }
      NextPartition(partitions, k);
      total := total + |record|;
      processed := processed + log;
      k := k + 1;
    }
    assert partitions[..k] == partitions;
    summary := Some(SummaryText(total));
  }
}
