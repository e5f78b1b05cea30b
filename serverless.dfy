/** The CodeBuild executor (executor/serverless/serverless.go): how it names
    projects and buckets, decides whether the launcher must be rebuilt,
    shapes the create-project and start-build requests, and sequences the
    CodeBuild and S3 calls of `Start` and `Stop`.

    Every AWS call is replaced by the reply it produced (an `AwsReplies`
    value given as input); each call is made at most once per operation, so
    one reply per call suffices. A run records the calls it made, in order,
    with the requests it sent. The YAML buildspec texts are uninterpreted:
    a `Buildspec` records only which of the two texts was used and the three
    provider values the batch text embeds. */
module Serverless {
  import opened Values
  import opened Text

  const ExecutorName: string := "sls"
  const SdInitPrefix: string := "sdinit-"
  const ArmContainer: string := "ARM_CONTAINER"
  const CodeBuildImagePrefix: string := "aws/codebuild/"
  const InProgress: string := "IN_PROGRESS"

  /** The region-word abbreviations of `awsRegionMap`. */
  const RegionWords: map<string, string> := map[
    "north" := "n", "west" := "w", "northeast" := "ne", "east" := "e",
    "south" := "s", "central" := "c", "southeast" := "se"]

  /** A Go map lookup: a word missing from the table reads as "". */
  function RegionWord(w: string): string {
    if w in RegionWords then RegionWords[w] else ""
  }

  /** `getRegionShortName`: the first, abbreviated second and third dash-
      separated parts; a region with fewer than three parts indexes past the
      end of the split and panics. */
  function RegionShortName(region: string): (r: Outcome<string>)
    ensures r.Ok? <==> |Split(region, '-')| >= 3
  {
    var items := Split(region, '-');
    if |items| < 3 then Panic else Ok(items[0] + RegionWord(items[1]) + items[2])
  }

  lemma RegionShortNameOfParts(a: string, b: string, c: string)
    requires '-' !in a && '-' !in b && '-' !in c
    ensures RegionShortName(a + "-" + b + "-" + c) == Ok(a + RegionWord(b) + c)
  {
    SplitThree(a, b, c, '-');
  }

  /** A region with no dash at all panics. */
  lemma RegionShortNameNeedsDashes(region: string)
    requires '-' !in region
    ensures RegionShortName(region) == Panic
  {
    SplitNoSeparator(region, '-');
  }

  /** The short name of the test bucket's region. */
  lemma RegionShortNameUsWest2()
    ensures RegionShortName("us-west-2") == Ok("usw2")
  {
    RegionShortNameOfParts("us", "west", "2");
    assert "us" + "-" + "west" + "-" + "2" == "us-west-2";
    assert RegionWord("west") == "w";
    assert "us" + "w" + "2" == "usw2";
  }

  /** A middle part missing from the table contributes nothing. */
  lemma RegionShortNameUnknownWord()
    ensures RegionShortName("us-gov-1") == Ok("us1")
  {
    RegionShortNameOfParts("us", "gov", "1");
    assert "us" + "-" + "gov" + "-" + "1" == "us-gov-1";
    assert "gov" !in RegionWords;
    assert "us" + "" + "1" == "us1";
  }

  /** `getBucketName`: the configured bucket, or for a build in another
      region the bucket with the first occurrence of the home region's short
      name replaced by the build region's. `bucket` is the value of
      SD_SLS_BUILD_BUCKET. */
  function BucketName(region: string, buildRegion: string, bucket: string): (r: Outcome<string>)
    ensures buildRegion == "" || region == buildRegion ==> r == Ok(bucket)
    ensures buildRegion != "" && region != buildRegion ==>
      (r.Ok? <==> RegionShortName(region).Ok? && RegionShortName(buildRegion).Ok?)
  {
    if buildRegion == "" || region == buildRegion then Ok(bucket)
    else
      var home :- RegionShortName(region);
      var away :- RegionShortName(buildRegion);
      Ok(ReplaceFirst(bucket, home, away))
  }

  /** A bucket whose name carries the home region's short name: only that
      first occurrence is rewritten, the rest of the name is kept. */
  lemma BucketNameCrossRegion(region: string, buildRegion: string, x: string, y: string)
    requires buildRegion != "" && region != buildRegion
    requires RegionShortName(region).Ok? && RegionShortName(buildRegion).Ok?
    requires var home := RegionShortName(region).value;
      forall j :: 0 <= j < |x| ==> !OccursAt(x + home + y, home, j)
    ensures BucketName(region, buildRegion, x + RegionShortName(region).value + y)
      == Ok(x + RegionShortName(buildRegion).value + y)
  {
    ReplaceFirstAt(x, RegionShortName(region).value, y, RegionShortName(buildRegion).value);
  }

  /** The reply of S3 ListObjectsV2 on the bucket. */
  datatype Listing = ListingFailed(err: string) | Listed(keys: seq<string>)

  function SourceIdentifier(version: string): string {
    SdInitPrefix + version
  }

  /** The launcher must be (re)built unless the bucket listing succeeded and
      holds the object "sdinit-<version>". */
  predicate LauncherUpdateNeeded(listing: Listing, version: string) {
    listing.ListingFailed? || SourceIdentifier(version) !in listing.keys
  }

  /** `checkLauncherUpdate`: the flag-setting scan of the listing. */
  method CheckLauncherUpdate(listing: Listing, version: string) returns (update: bool)
    ensures update == LauncherUpdateNeeded(listing, version)
  {
    update := true;
    if listing.ListingFailed? {
      return;
    }
    var id := SourceIdentifier(version);
    var keys := listing.keys;
    if |keys| > 0 {
      var i := 0;
      while i < |keys|
        invariant 0 <= i <= |keys|
        invariant update == (id !in keys[..i])
      {
        assert keys[..i + 1] == keys[..i] + [keys[i]];
        if keys[i] == id {
          update := false;
        }
        i := i + 1;
      }
      assert keys[..|keys|] == keys;
    }
  }

  /** The cases of the repository's launcher-check tests: the listed
      version needs no update, another version does, and so does any
      version when the listing fails. */
  lemma LauncherUpdateTestCases()
    ensures !LauncherUpdateNeeded(Listed(["sdinit-v101"]), "v101")
    ensures LauncherUpdateNeeded(Listed(["sdinit-v101"]), "v102")
    ensures LauncherUpdateNeeded(ListingFailed("Error getting object"), "v101")
  {
    assert SourceIdentifier("v101") == "sdinit-v101";
    assert SourceIdentifier("v102") != "sdinit-v101" by {
      assert SourceIdentifier("v102")[10] == '2';
    }
  }

  /** `getProjectName`: the job name (its first ':' turned into '-' for a
      pull request) followed by "-<jobId>". */
  function ProjectName(config: Config): (r: Outcome<string>)
    ensures r.Ok? <==> StringAt(config, "jobName").Ok? && BoolAt(config, "isPR").Ok? && NumberAt(config, "jobId").Ok?
    ensures r.Ok? && !config["isPR"].b ==>
      r.value == config["jobName"].s + "-" + IntToDecimal(Int64Of(config["jobId"].n))
  {
    var jobName :- StringAt(config, "jobName");
    var isPR :- BoolAt(config, "isPR");
    var name := if isPR then ReplaceFirst(jobName, ":", "-") else jobName;
    var jobID :- NumberAt(config, "jobId");
    Ok(name + "-" + IntToDecimal(jobID))
  }

  /** A pull-request job "<pipeline>:<job>" (no ':' in the first part) is
      named "<pipeline>-<job>-<jobId>". */
  lemma ProjectNameOfPullRequest(config: Config, x: string, y: string)
    requires ':' !in x
    requires "jobName" in config && config["jobName"] == Str(x + ":" + y)
    requires "isPR" in config && config["isPR"] == Bool(true)
    requires "jobId" in config && config["jobId"].Num?
    ensures ProjectName(config) == Ok(x + "-" + y + "-" + IntToDecimal(Int64Of(config["jobId"].n)))
  {
    ReplaceFirstChar(x, ':', y, '-');
    assert x + ":" + y == x + [':'] + y;
    assert x + "-" + y == x + ['-'] + y;
  }

  /** A project name never shows the pull-request ':' separator when the job
      part has none. */
  lemma ProjectNameOfPullRequestHasNoColon(config: Config, x: string, y: string)
    requires ':' !in x && ':' !in y
    requires "jobName" in config && config["jobName"] == Str(x + ":" + y)
    requires "isPR" in config && config["isPR"] == Bool(true)
    requires "jobId" in config && config["jobId"].Num?
    ensures ProjectName(config).Ok? && ':' !in ProjectName(config).value
  {
    ProjectNameOfPullRequest(config, x, y);
    var d := IntToDecimal(Int64Of(config["jobId"].n));
    assert ':' !in d by {
      forall i | 0 <= i < |d| ensures d[i] != ':' {
      }
    }
    assert ':' !in "-";
  }

  /** A `codebuild.EnvironmentVariable`. */
  datatype EnvVar = EnvVar(name: string, value: string)

  function Names(vars: seq<EnvVar>): (names: seq<string>)
    ensures |names| == |vars| && forall i :: 0 <= i < |vars| ==> names[i] == vars[i].name
  {
    if vars == [] then [] else [vars[0].name] + Names(vars[1..])
  }

  /** The value a build reads for `name`: that of the first variable so
      named. */
  function Lookup(vars: seq<EnvVar>, name: string): Option<string> {
    if vars == [] then None
    else if vars[0].name == name then Some(vars[0].value)
    else Lookup(vars[1..], name)
  }

  const EnvVarNames: seq<string> :=
    ["TOKEN", "API", "STORE", "UI", "TIMEOUT", "SDBUILDID", "SD_HAB_ENABLED", "SD_AWS_INTEGRATION"]

  /** `getEnvVars`: the eight variables the launcher reads, in a fixed order. */
  function EnvVars(config: Config): (r: Outcome<seq<EnvVar>>)
    ensures r.Ok? <==>
      && NumberAt(config, "buildTimeout").Ok? && NumberAt(config, "buildId").Ok?
      && StringAt(config, "token").Ok? && StringAt(config, "apiUri").Ok?
      && StringAt(config, "storeUri").Ok? && StringAt(config, "uiUri").Ok?
  {
    var buildTimeout :- NumberAt(config, "buildTimeout");
    var buildID :- NumberAt(config, "buildId");
    var token :- StringAt(config, "token");
    var api :- StringAt(config, "apiUri");
    var store :- StringAt(config, "storeUri");
    var ui :- StringAt(config, "uiUri");
    Ok(EnvList(token, api, store, ui, IntToDecimal(buildTimeout), IntToDecimal(buildID)))
  }

  function EnvList(token: string, api: string, store: string, ui: string, timeout: string, id: string): seq<EnvVar> {
    [EnvVar("TOKEN", token), EnvVar("API", api), EnvVar("STORE", store), EnvVar("UI", ui),
     EnvVar("TIMEOUT", timeout), EnvVar("SDBUILDID", id),
     EnvVar("SD_HAB_ENABLED", "false"), EnvVar("SD_AWS_INTEGRATION", "true")]
  }

  /** The variables are always the same eight, in the same order. */
  lemma EnvVarsNamed(config: Config)
    requires EnvVars(config).Ok?
    ensures Names(EnvVars(config).value) == EnvVarNames
  {
    var timeout := IntToDecimal(Int64Of(config["buildTimeout"].n));
    var id := IntToDecimal(Int64Of(config["buildId"].n));
    var t, a, s, u := config["token"].s, config["apiUri"].s, config["storeUri"].s, config["uiUri"].s;
    assert EnvVars(config).value == EnvList(t, a, s, u, timeout, id);
    EnvListNamed(t, a, s, u, timeout, id);
  }

  lemma EnvListNamed(token: string, api: string, store: string, ui: string, timeout: string, id: string)
    ensures Names(EnvList(token, api, store, ui, timeout, id)) == EnvVarNames
  {
    var n := Names(EnvList(token, api, store, ui, timeout, id));
    assert |n| == 8;
    assert n[0] == "TOKEN" && n[1] == "API" && n[2] == "STORE" && n[3] == "UI";
    assert n[4] == "TIMEOUT" && n[5] == "SDBUILDID" && n[6] == "SD_HAB_ENABLED" && n[7] == "SD_AWS_INTEGRATION";
  }

  lemma {:induction false} LookupAt(vars: seq<EnvVar>, i: nat, name: string)
    requires i < |vars| && vars[i].name == name
    requires forall j :: 0 <= j < i ==> vars[j].name != name
    ensures Lookup(vars, name) == Some(vars[i].value)
  {
    if i > 0 {
      LookupAt(vars[1..], i - 1, name);
    }
  }

  lemma EnvListFront(token: string, api: string, store: string, ui: string, timeout: string, id: string)
    ensures var vars := EnvList(token, api, store, ui, timeout, id);
      && Lookup(vars, "TOKEN") == Some(token) && Lookup(vars, "API") == Some(api)
      && Lookup(vars, "STORE") == Some(store) && Lookup(vars, "UI") == Some(ui)
  {
    var vars := EnvList(token, api, store, ui, timeout, id);
    LookupAt(vars, 2, "STORE");
    LookupAt(vars, 3, "UI");
  }

  lemma EnvListBack(token: string, api: string, store: string, ui: string, timeout: string, id: string)
    ensures var vars := EnvList(token, api, store, ui, timeout, id);
      && Lookup(vars, "TIMEOUT") == Some(timeout) && Lookup(vars, "SDBUILDID") == Some(id)
  {
    var vars := EnvList(token, api, store, ui, timeout, id);
    LookupAt(vars, 4, "TIMEOUT");
    LookupAt(vars, 5, "SDBUILDID");
  }

  lemma EnvListFlags(token: string, api: string, store: string, ui: string, timeout: string, id: string)
    ensures var vars := EnvList(token, api, store, ui, timeout, id);
      && Lookup(vars, "SD_HAB_ENABLED") == Some("false") && Lookup(vars, "SD_AWS_INTEGRATION") == Some("true")
  {
    var vars := EnvList(token, api, store, ui, timeout, id);
    LookupAt(vars, 6, "SD_HAB_ENABLED");
    LookupAt(vars, 7, "SD_AWS_INTEGRATION");
  }

  /** What the launcher reads back from the variables: the four addresses and
      credentials as given, the timeout and the build id as the integers
      of the configuration, and the two fixed flags. */
  lemma EnvVarsReadBack(config: Config)
    requires EnvVars(config).Ok?
    ensures var vars := EnvVars(config).value;
      && Lookup(vars, "TOKEN") == Some(config["token"].s)
      && Lookup(vars, "API") == Some(config["apiUri"].s)
      && Lookup(vars, "STORE") == Some(config["storeUri"].s)
      && Lookup(vars, "UI") == Some(config["uiUri"].s)
      && Lookup(vars, "TIMEOUT").Some?
      && ParseInt(Lookup(vars, "TIMEOUT").value) == Some(Int64Of(config["buildTimeout"].n))
      && Lookup(vars, "SDBUILDID").Some?
      && ParseInt(Lookup(vars, "SDBUILDID").value) == Some(Int64Of(config["buildId"].n))
      && Lookup(vars, "SD_HAB_ENABLED") == Some("false")
      && Lookup(vars, "SD_AWS_INTEGRATION") == Some("true")
  {
    var timeout := IntToDecimal(Int64Of(config["buildTimeout"].n));
    var id := IntToDecimal(Int64Of(config["buildId"].n));
    var t, a, s, u := config["token"].s, config["apiUri"].s, config["storeUri"].s, config["uiUri"].s;
    assert EnvVars(config).value == EnvList(t, a, s, u, timeout, id);
    EnvListFront(t, a, s, u, timeout, id);
    EnvListBack(t, a, s, u, timeout, id);
    EnvListFlags(t, a, s, u, timeout, id);
    IntDecimalRoundTrip(Int64Of(config["buildTimeout"].n));
    IntDecimalRoundTrip(Int64Of(config["buildId"].n));
  }

  /** The two buildspec texts: the single-build one is a constant; the batch
      one embeds the launcher environment type, image and compute type. */
  datatype Buildspec = SingleBuildspec | BatchBuildspec(envType: string, image: string, computeType: string)

  /** The batch text of `getBuildSpec`, which needs the three launcher keys. */
  function BatchBuildspecOf(provider: Config): (r: Outcome<Buildspec>)
    ensures r.Ok? <==>
      StringAt(provider, "launcherEnvironmentType").Ok? && StringAt(provider, "launcherImage").Ok?
      && StringAt(provider, "launcherComputeType").Ok?
    ensures r.Ok? ==> r.value.BatchBuildspec? && r.value.envType == provider["launcherEnvironmentType"].s
  {
    var envType :- StringAt(provider, "launcherEnvironmentType");
    var image :- StringAt(provider, "launcherImage");
    var computeType :- StringAt(provider, "launcherComputeType");
    Ok(BatchBuildspec(envType, image, computeType))
  }

  /** `sg.(string)` for each element of a JSON list. */
  function StringsOf(items: seq<Value>): (r: Outcome<seq<string>>)
    ensures r.Ok? <==> forall i :: 0 <= i < |items| ==> items[i].Str?
    ensures r.Ok? ==> |r.value| == |items| && forall i :: 0 <= i < |items| ==> r.value[i] == items[i].s
  {
    if items == [] then Ok([])
    else
      var init :- StringsOf(items[..|items| - 1]);
      var last := items[|items| - 1];
      if last.Str? then Ok(init + [last.s]) else Panic
  }

  /** The append loops of `getRequestObject`. */
  method StringItems(items: seq<Value>) returns (r: Outcome<seq<string>>)
    ensures r == StringsOf(items)
  {
    var acc: seq<string> := [];
    var i := 0;
    while i < |items|
      invariant 0 <= i <= |items|
      invariant StringsOf(items[..i]) == Ok(acc)
    {
      assert items[..i + 1][..i] == items[..i];
      if !items[i].Str? {
        return Panic;
      }
      acc := acc + [items[i].s];
      i := i + 1;
    }
    assert items[..i] == items;
    r := Ok(acc);
  }

  /** The project source: an S3 object holding the launcher, or none at all
      when the batch build builds the launcher first. */
  datatype Source = S3Source(buildspec: Buildspec, location: string) | NoSource(buildspec: Buildspec)

  /** A batch configuration; artifacts are never combined and at most two
      builds run. */
  datatype BatchConfig = BatchConfig(serviceRole: string, timeoutInMins: int)

  datatype Environment = Environment(computeType: string, image: string, imagePullCredentialsType: string,
                                     privilegedMode: bool, envType: string)

  datatype VpcConfig = VpcConfig(securityGroupIds: seq<string>, subnets: seq<string>, vpcId: string)

  /** A `CreateProjectInput` (equally the `UpdateProjectInput` converted
      from it). Its constant parts (no artifacts, two concurrent builds,
      logs disabled) are not represented. */
  datatype ProjectRequest = ProjectRequest(
    name: string, source: Source, queuedTimeout: int, serviceRole: string, timeout: int,
    environment: Environment, vpc: VpcConfig, encryptionKey: string,
    batchConfig: Option<BatchConfig>, localCache: bool)

  /** What `getRequestObject` hands back: the request, the batch buildspec,
      and the provider map as it left it (it writes two keys in place). */
  datatype ProjectPlan = ProjectPlan(request: ProjectRequest, batchSpec: Buildspec, provider: Config)

  /** `getRequestObject`, with the encryption-key alias read from the
      environment given as `encryptionKey`. */
  function RequestSpec(project: string, version: string, launcherUpdate: bool, config: Config,
                       encryptionKey: string): (r: Outcome<ProjectPlan>)
    ensures r.Ok? ==> ObjAt(config, "provider").Ok? && StringAt(config, "bucket").Ok? && StringAt(config, "container").Ok?
    ensures r.Ok? ==> r.value.request.name == project && r.value.request.encryptionKey == encryptionKey
  {
    var provider0 :- ObjAt(config, "provider");
    var envType :- StringAt(provider0, "environmentType");
    var provider1 := if envType == ArmContainer then provider0["launcherEnvironmentType" := Str(ArmContainer)] else provider0;
    var batchSpec :- BatchBuildspecOf(provider1);
    var vpc :- ObjAt(provider1, "vpc");
    var groupItems :- ArrAt(vpc, "securityGroupIds");
    var groups :- StringsOf(groupItems);
    var subnetItems :- ArrAt(vpc, "subnetIds");
    var subnets :- StringsOf(subnetItems);
    var queuedTimeout :- NumberAt(provider1, "queuedTimeout");
    var buildTimeout :- NumberAt(config, "buildTimeout");
    var container :- StringAt(config, "container");
    var provider := if HasPrefix(container, CodeBuildImagePrefix)
                    then provider1["imagePullCredentialsType" := Str("CODEBUILD")] else provider1;
    var bucket :- StringAt(config, "bucket");
    var role :- StringAt(provider, "role");
    var computeType :- StringAt(provider, "computeType");
    var pullType :- StringAt(provider, "imagePullCredentialsType");
    var privileged :- BoolAt(provider, "privilegedMode");
    var vpcID :- StringAt(vpc, "vpcId");
    var dlc :- BoolAt(provider, "dlc");
    var source := if launcherUpdate then NoSource(batchSpec)
                  else S3Source(SingleBuildspec, bucket + "/" + SourceIdentifier(version));
    var batch := if launcherUpdate then Some(BatchConfig(role, buildTimeout)) else None;
    var env := Environment(computeType, container, pullType, privileged || dlc, envType);
    Ok(ProjectPlan(
      ProjectRequest(project, source, queuedTimeout, role, buildTimeout, env,
                     VpcConfig(groups, subnets, vpcID), encryptionKey, batch, dlc),
      batchSpec, provider))
  }

  /** With a launcher update the project builds from no source, running the
      batch buildspec under a batch configuration with the project's role
      and timeout; without one it builds from the launcher object
      "<bucket>/sdinit-<version>" with the single-build buildspec. */
  lemma RequestLauncherUpdateRule(project: string, version: string, launcherUpdate: bool, config: Config, key: string)
    requires RequestSpec(project, version, launcherUpdate, config, key).Ok?
    ensures var plan := RequestSpec(project, version, launcherUpdate, config, key).value; var q := plan.request;
      && (launcherUpdate <==> q.source.NoSource?)
      && (launcherUpdate <==> q.batchConfig.Some?)
      && (launcherUpdate ==> q.source.buildspec == plan.batchSpec
                             && q.batchConfig.value == BatchConfig(q.serviceRole, q.timeout))
      && (!launcherUpdate ==> q.source == S3Source(SingleBuildspec, config["bucket"].s + "/" + SourceIdentifier(version)))
  {
  }

  /** Docker layer caching adds a local cache and forces privileged mode;
      without it the provider's `privilegedMode` is used. */
  lemma RequestDockerCacheRule(project: string, version: string, launcherUpdate: bool, config: Config, key: string)
    requires RequestSpec(project, version, launcherUpdate, config, key).Ok?
    ensures var q := RequestSpec(project, version, launcherUpdate, config, key).value.request;
      var p := config["provider"].fields;
      && (q.localCache <==> p["dlc"] == Bool(true))
      && q.environment.privilegedMode == (p["privilegedMode"].b || q.localCache)
  {
  }

  /** An image under "aws/codebuild/" is pulled with CodeBuild credentials,
      any other with the provider's `imagePullCredentialsType`; the choice is
      also written back into the provider map. */
  lemma RequestCredentialsRule(project: string, version: string, launcherUpdate: bool, config: Config, key: string)
    requires RequestSpec(project, version, launcherUpdate, config, key).Ok?
    ensures var plan := RequestSpec(project, version, launcherUpdate, config, key).value; var q := plan.request;
      var p := config["provider"].fields;
      && q.environment.image == config["container"].s
      && q.environment.imagePullCredentialsType
         == (if HasPrefix(config["container"].s, CodeBuildImagePrefix) then "CODEBUILD" else p["imagePullCredentialsType"].s)
      && plan.provider["imagePullCredentialsType"] == Str(q.environment.imagePullCredentialsType)
  {
  }

  /** An ARM build gets an ARM launcher; otherwise the launcher environment
      the provider names is used. */
  lemma RequestArmRule(project: string, version: string, launcherUpdate: bool, config: Config, key: string)
    requires RequestSpec(project, version, launcherUpdate, config, key).Ok?
    ensures var plan := RequestSpec(project, version, launcherUpdate, config, key).value;
      var p := config["provider"].fields;
      && plan.batchSpec.BatchBuildspec?
      && plan.request.environment.envType == p["environmentType"].s
      && (p["environmentType"] == Str(ArmContainer) ==> plan.batchSpec.envType == ArmContainer)
      && (p["environmentType"] != Str(ArmContainer) ==> plan.batchSpec.envType == p["launcherEnvironmentType"].s)
  {
  }

  /** The provider map keeps every key, and changes none but the two that
      the ARM and credentials rules write. */
  lemma RequestProviderFrame(project: string, version: string, launcherUpdate: bool, config: Config, key: string)
    requires RequestSpec(project, version, launcherUpdate, config, key).Ok?
    ensures var plan := RequestSpec(project, version, launcherUpdate, config, key).value;
      var p := config["provider"].fields;
      && plan.provider.Keys >= p.Keys
      && forall k :: k in plan.provider && k != "launcherEnvironmentType" && k != "imagePullCredentialsType"
           ==> k in p && plan.provider[k] == p[k]
  {
  }

  /** `getRequestObject` as the source runs it: the provider map is updated
      in place and the VPC lists are built by the append loops. */
  method GetRequestObject(project: string, version: string, launcherUpdate: bool, config: Config,
                          encryptionKey: string) returns (r: Outcome<ProjectPlan>)
    ensures r == RequestSpec(project, version, launcherUpdate, config, encryptionKey)
  {
    var po := ObjAt(config, "provider");
    if po.Panic? { return Panic; }
    var provider := po.value;
    var envType := StringAt(provider, "environmentType");
    if envType.Panic? { return Panic; }
    if envType.value == ArmContainer {
      provider := provider["launcherEnvironmentType" := Str(ArmContainer)];
    }
    var batchSpec := BatchBuildspecOf(provider);
    if batchSpec.Panic? { return Panic; }
    var vpc := ObjAt(provider, "vpc");
    if vpc.Panic? { return Panic; }
    var groupItems := ArrAt(vpc.value, "securityGroupIds");
    if groupItems.Panic? { return Panic; }
    var groups := StringItems(groupItems.value);
    if groups.Panic? { return Panic; }
    var subnetItems := ArrAt(vpc.value, "subnetIds");
    if subnetItems.Panic? { return Panic; }
    var subnets := StringItems(subnetItems.value);
    if subnets.Panic? { return Panic; }
    var queuedTimeout := NumberAt(provider, "queuedTimeout");
    var buildTimeout := NumberAt(config, "buildTimeout");
    var container := StringAt(config, "container");
    if queuedTimeout.Panic? || buildTimeout.Panic? || container.Panic? { return Panic; }
    if HasPrefix(container.value, CodeBuildImagePrefix) {
      provider := provider["imagePullCredentialsType" := Str("CODEBUILD")];
    }
    var bucket := StringAt(config, "bucket");
    var role := StringAt(provider, "role");
    var computeType := StringAt(provider, "computeType");
    var pullType := StringAt(provider, "imagePullCredentialsType");
    var privileged := BoolAt(provider, "privilegedMode");
    var vpcID := StringAt(vpc.value, "vpcId");
    if bucket.Panic? || role.Panic? || computeType.Panic? || pullType.Panic? || privileged.Panic? || vpcID.Panic? {
      return Panic;
    }
    var env := Environment(computeType.value, container.value, pullType.value, privileged.value, envType.value);
    var request := ProjectRequest(project, S3Source(SingleBuildspec, bucket.value + "/" + SourceIdentifier(version)),
                                  queuedTimeout.value, role.value, buildTimeout.value, env,
                                  VpcConfig(groups.value, subnets.value, vpcID.value), encryptionKey, None, false);
    if launcherUpdate {
      request := request.(source := NoSource(batchSpec.value),
                          batchConfig := Some(BatchConfig(role.value, buildTimeout.value)));
    }
    var dlc := BoolAt(provider, "dlc");
    if dlc.Panic? { return Panic; }
    if dlc.value {
      request := request.(localCache := true, environment := request.environment.(privilegedMode := true));
    }
    r := Ok(ProjectPlan(request, batchSpec.value, provider));
  }

  /** A `StartBuildInput`: CloudWatch logs are switched on when
      `executorLogs` is set, a debug session when `debugSession` is. */
  datatype StartBuildInput = StartBuildInput(project: string, envVars: seq<EnvVar>, serviceRole: string,
                                             cloudWatchLogs: bool, debugSession: bool)

  /** A `StartBuildBatchInput`: artifacts go, zipped, to the bucket under
      the launcher version's name; the batch builds from no source. */
  datatype StartBuildBatchInput = StartBuildBatchInput(
    project: string, envVars: seq<EnvVar>, serviceRole: string, artifactsLocation: string,
    artifactsName: string, batchConfig: BatchConfig, buildspec: Buildspec,
    cloudWatchLogs: bool, debugSession: bool)

  /** The inputs of `startBuild`, from the provider map. */
  function SingleBuildInput(project: string, vars: seq<EnvVar>, provider: Config): (r: Outcome<StartBuildInput>)
    ensures r.Ok? ==> r.value.project == project && r.value.envVars == vars
    ensures r.Ok? <==> StringAt(provider, "role").Ok? && BoolAt(provider, "executorLogs").Ok? && BoolAt(provider, "debugSession").Ok?
    ensures r.Ok? ==> r.value.cloudWatchLogs == provider["executorLogs"].b && r.value.debugSession == provider["debugSession"].b
  {
    var role :- StringAt(provider, "role");
    var logs :- BoolAt(provider, "executorLogs");
    var debug :- BoolAt(provider, "debugSession");
    Ok(StartBuildInput(project, vars, role, logs, debug))
  }

  /** `getStartBuildBatchInput`. */
  function BatchBuildInput(vars: seq<EnvVar>, project: string, config: Config, spec: Buildspec): (r: Outcome<StartBuildBatchInput>)
    ensures r.Ok? ==> r.value.project == project && r.value.envVars == vars && r.value.buildspec == spec
    ensures r.Ok? ==> r.value.batchConfig.serviceRole == r.value.serviceRole
    ensures r.Ok? ==> StringAt(config, "bucket") == Ok(r.value.artifactsLocation)
  {
    var provider :- ObjAt(config, "provider");
    var buildTimeout :- NumberAt(config, "buildTimeout");
    var role :- StringAt(provider, "role");
    var bucket :- StringAt(config, "bucket");
    var version :- StringAt(provider, "launcherVersion");
    var logs :- BoolAt(provider, "executorLogs");
    var debug :- BoolAt(provider, "debugSession");
    Ok(StartBuildBatchInput(project, vars, role, bucket, version, BatchConfig(role, buildTimeout), spec, logs, debug))
  }

  /** The AWS calls the executor makes, with what it sends. */
  datatype AwsCall =
    | ListObjects(bucket: string)
    | GetProjects(name: string)
    | CreateProject(request: ProjectRequest)
    | UpdateProject(request: ProjectRequest)
    | StartBuild(input: StartBuildInput)
    | StartBuildBatch(batchInput: StartBuildBatchInput)
    | DeleteProject(project: string)
    | ListBuilds(project: string)
    | ListBuildBatches(project: string)
    | GetBuilds(id: string)
    | StopBuild(id: string)
    | StopBuildBatch(id: string)

  /** The replies of the AWS services for one operation. `projects` is the
      BatchGetProjects result (`None` for a nil result, else how many
      projects it holds; its error is only logged). The list calls of the
      stop path give their ids, newest first (their errors are discarded).
      `buildStatuses` is what BatchGetBuilds returns for the newest build
      id; `batchStatuses` is what the same BatchGetBuilds returns when
      `stopBuildBatch` passes it the newest build-batch id. An empty reply
      makes `Builds[0]` panic. */
  datatype AwsReplies = AwsReplies(
    listing: Listing,
    projects: Option<nat>,
    create: Result<string>,
    update: Result<string>,
    startBuild: Option<string>,
    startBatch: Option<string>,
    delete: Option<string>,
    buildIds: seq<string>,
    buildStatuses: seq<string>,
    stopBuild: Option<string>,
    batchIds: seq<string>,
    batchStatuses: seq<string>,
    stopBatch: Option<string>)

  /** The environment the executor reads: SD_SLS_BUILD_BUCKET and
      SD_SLS_BUILD_ENCRYPTION_KEY_ALIAS. */
  datatype Env = Env(bucket: string, encryptionKey: string)

  /** One run of `Start` or `Stop`: the calls made, in order; how it ended;
      and the build configuration as it left it (`Start` and `Stop` write
      the bucket into it, `Start` the provider's updated keys). */
  datatype Run<+T> = Run(calls: seq<AwsCall>, outcome: Outcome<T>, config: Config)

  predicate NoProjectFound(projects: Option<nat>) {
    projects.None? || projects.value == 0
  }

  /** The launcher version and the bucket, read before any call. */
  function StartInputs(config: Config, env: Env): (r: Outcome<(string, string)>)
    ensures r.Ok? ==> ObjAt(config, "provider").Ok?
    ensures r.Ok? ==> StringAt(config["provider"].fields, "launcherVersion") == Ok(r.value.0)
  {
    var provider :- ObjAt(config, "provider");
    var version :- StringAt(provider, "launcherVersion");
    var region :- StringAt(provider, "region");
    var buildRegion :- StringAt(provider, "buildRegion");
    var bucket :- BucketName(region, buildRegion, env.bucket);
    Ok((version, bucket))
  }

  /** The call that starts the build: a batch when the launcher must be
      rebuilt, else a single build. */
  function StartCall(update: bool, project: string, vars: seq<EnvVar>, config: Config, plan: ProjectPlan): (r: Outcome<AwsCall>)
    ensures r.Ok? ==> (r.value.StartBuildBatch? <==> update) && (r.value.StartBuild? <==> !update)
  {
    if update then
      var input :- BatchBuildInput(vars, project, config, plan.batchSpec);
      Ok(StartBuildBatch(input))
    else
      var input :- SingleBuildInput(project, vars, plan.provider);
      Ok(StartBuild(input))
  }

  /** The start of the build once the project exists: the start call, if
      the environment and the input can be built, and its outcome. */
  function StartAfterProject(project: string, update: bool, cfg: Config, plan: ProjectPlan,
                             replies: AwsReplies, arn: string): (r: (seq<AwsCall>, Outcome<Result<string>>))
    ensures |r.0| <= 1 && (r.1.Ok? <==> |r.0| == 1)
    ensures |r.0| == 1 ==> (r.0[0].StartBuildBatch? <==> update) && (r.0[0].StartBuild? <==> !update)
    ensures r.1.Ok? ==>
      var err := if update then replies.startBatch else replies.startBuild;
      r.1.value == if err.Some? then Failure("Got error building project: " + err.value) else Success(arn)
  {
    match EnvVars(cfg)
    case Panic => ([], Panic)
    case Ok(vars) =>
      match StartCall(update, project, vars, cfg, plan)
      case Panic => ([], Panic)
      case Ok(call) =>
        var err := if update then replies.startBatch else replies.startBuild;
        ([call], Ok(if err.Some? then Failure("Got error building project: " + err.value) else Success(arn)))
  }

  /** The second half of `Start`, once the request object is built: create
      or update the project, then start the build. `looked` are the calls
      made so far. */
  function StartProject(looked: seq<AwsCall>, project: string, update: bool, cfg: Config,
                        plan: ProjectPlan, replies: AwsReplies): Run<Result<string>>
  {
    var create := NoProjectFound(replies.projects);
    var saved := looked + [if create then CreateProject(plan.request) else UpdateProject(plan.request)];
    var arn := if create then replies.create else replies.update;
    if arn.Failure? then
      Run(saved, Ok(Failure((if create then "Error-CreateProject: " else "Error-UpdateProject: ") + arn.error)), cfg)
    else
      var started := StartAfterProject(project, update, cfg, plan, replies, arn.value);
      Run(saved + started.0, started.1, cfg)
  }

  /** The calls made so far are kept, the create or update comes next, and
      at most the start call follows. */
  lemma StartProjectCalls(looked: seq<AwsCall>, project: string, update: bool, cfg: Config,
                          plan: ProjectPlan, replies: AwsReplies)
    ensures var run := StartProject(looked, project, update, cfg, plan, replies);
      && |looked| + 1 <= |run.calls| <= |looked| + 2 && run.calls[..|looked|] == looked
      && run.calls[|looked|] == (if NoProjectFound(replies.projects) then CreateProject(plan.request)
                                 else UpdateProject(plan.request))
  {
    var create := NoProjectFound(replies.projects);
    var first := if create then CreateProject(plan.request) else UpdateProject(plan.request);
    var arn := if create then replies.create else replies.update;
    var rest: seq<AwsCall> := [];
    if arn.Success? {
      rest := StartAfterProject(project, update, cfg, plan, replies, arn.value).0;
    }
    var run := StartProject(looked, project, update, cfg, plan, replies);
    assert run.calls == looked + [first] + rest;
    ConcatAssociates(looked, [first], rest);
    ConcatParts(looked, [first] + rest);
  }

  /** A failed create or update ends the run with its prefix, before the
      start call. */
  lemma StartProjectArnFails(looked: seq<AwsCall>, project: string, update: bool, cfg: Config,
                             plan: ProjectPlan, replies: AwsReplies)
    requires (if NoProjectFound(replies.projects) then replies.create else replies.update).Failure?
    ensures var run := StartProject(looked, project, update, cfg, plan, replies);
      var arn := if NoProjectFound(replies.projects) then replies.create else replies.update;
      && |run.calls| == |looked| + 1
      && run.outcome == Ok(Failure(
           (if NoProjectFound(replies.projects) then "Error-CreateProject: " else "Error-UpdateProject: ")
           + arn.error))
  {
  }

  /** When the start call is made, it is a batch exactly when the launcher
      must be rebuilt, and a failed start is reported with its own prefix. */
  lemma StartProjectStartCall(looked: seq<AwsCall>, project: string, update: bool, cfg: Config,
                              plan: ProjectPlan, replies: AwsReplies)
    requires var run := StartProject(looked, project, update, cfg, plan, replies);
      run.outcome.Ok? && |run.calls| == |looked| + 2
    ensures var run := StartProject(looked, project, update, cfg, plan, replies);
      && (run.calls[|looked| + 1].StartBuildBatch? <==> update)
      && (run.calls[|looked| + 1].StartBuild? <==> !update)
      && (var err := if update then replies.startBatch else replies.startBuild;
          err.Some? ==> run.outcome.value == Failure("Got error building project: " + err.value))
  {
    var create := NoProjectFound(replies.projects);
    var saved := looked + [if create then CreateProject(plan.request) else UpdateProject(plan.request)];
    var arn := if create then replies.create else replies.update;
    assert arn.Success?;
    var started := StartAfterProject(project, update, cfg, plan, replies, arn.value);
    var run := StartProject(looked, project, update, cfg, plan, replies);
    assert run.calls == saved + started.0;
    assert run.calls[|looked| + 1] == started.0[0];
  }

  /** Only a run in which every call succeeded returns the ARN. */
  lemma StartProjectSuccess(looked: seq<AwsCall>, project: string, update: bool, cfg: Config,
                            plan: ProjectPlan, replies: AwsReplies)
    ensures var run := StartProject(looked, project, update, cfg, plan, replies);
      run.outcome.Ok? && run.outcome.value.Success? ==>
        var arn := if NoProjectFound(replies.projects) then replies.create else replies.update;
        && |run.calls| == |looked| + 2 && arn.Success? && run.outcome.value.value == arn.value
        && (if update then replies.startBatch else replies.startBuild).None?
  {
  }

  /** `AwsServerless.Start`: returns the project ARN, or an error text. */
  function StartRun(config: Config, env: Env, replies: AwsReplies): (run: Run<Result<string>>)
    ensures run.outcome.Ok? ==> 3 <= |run.calls| <= 4
  {
    match StartInputs(config, env)
    case Panic => Run([], Panic, config)
    case Ok((version, bucket)) =>
      var cfg := config["bucket" := Str(bucket)];
      var update := LauncherUpdateNeeded(replies.listing, version);
      match ProjectName(cfg)
      case Panic => Run([ListObjects(bucket)], Panic, cfg)
      case Ok(project) =>
        match RequestSpec(project, version, update, cfg, env.encryptionKey)
        case Panic => Run([ListObjects(bucket), GetProjects(project)], Panic, cfg)
        case Ok(plan) =>
          StartProjectCalls([ListObjects(bucket), GetProjects(project)], project, update,
                            cfg["provider" := Obj(plan.provider)], plan, replies);
          StartProject([ListObjects(bucket), GetProjects(project)], project, update,
                       cfg["provider" := Obj(plan.provider)], plan, replies)
  }

  /** `Start` as the source runs it: it writes the bucket into the
      configuration, scans the listing, and makes the calls one by one. */
  method Start(config: Config, env: Env, replies: AwsReplies) returns (run: Run<Result<string>>)
    ensures run == StartRun(config, env, replies)
  {
    var inputs := StartInputs(config, env);
    if inputs.Panic? {
      return Run([], Panic, config);
    }
    var version := inputs.value.0;
    var bucket := inputs.value.1;
    assert inputs.value == (version, bucket);
    var cfg := config["bucket" := Str(bucket)];
    var calls := [ListObjects(bucket)];
    var update := CheckLauncherUpdate(replies.listing, version);
    var name := ProjectName(cfg);
    if name.Panic? {
      return Run(calls, Panic, cfg);
    }
    var project := name.value;
    calls := calls + [GetProjects(project)];
    var plan := GetRequestObject(project, version, update, cfg, env.encryptionKey);
    if plan.Panic? {
      return Run(calls, Panic, cfg);
    }
    assert calls == [ListObjects(bucket), GetProjects(project)];
    StartRunAfterPlan(config, env, replies, version, bucket, project, plan.value);
    cfg := cfg["provider" := Obj(plan.value.provider)];
    run := CreateAndBuild(calls, project, update, cfg, plan.value, replies);
  }

  /** Once the request object is built, `Start` goes on with the second
      half. */
  lemma StartRunAfterPlan(config: Config, env: Env, replies: AwsReplies, version: string, bucket: string,
                          project: string, plan: ProjectPlan)
    requires StartInputs(config, env) == Ok((version, bucket))
    requires ProjectName(config["bucket" := Str(bucket)]) == Ok(project)
    requires var update := LauncherUpdateNeeded(replies.listing, version);
      RequestSpec(project, version, update, config["bucket" := Str(bucket)], env.encryptionKey) == Ok(plan)
    ensures var cfg := config["bucket" := Str(bucket)];
      StartRun(config, env, replies)
        == StartProject([ListObjects(bucket), GetProjects(project)], project, LauncherUpdateNeeded(replies.listing, version),
                        cfg["provider" := Obj(plan.provider)], plan, replies)
  {
  }

  /** The calls of `Start` after the request object, one by one. */
  method CreateAndBuild(looked: seq<AwsCall>, project: string, update: bool, cfg: Config,
                        plan: ProjectPlan, replies: AwsReplies) returns (run: Run<Result<string>>)
    ensures run == StartProject(looked, project, update, cfg, plan, replies)
  {
    var calls := looked;
    var arn: Result<string>;
    if NoProjectFound(replies.projects) {
      calls := calls + [CreateProject(plan.request)];
      arn := replies.create;
      if arn.Failure? {
        return Run(calls, Ok(Failure("Error-CreateProject: " + arn.error)), cfg);
      }
    } else {
      calls := calls + [UpdateProject(plan.request)];
      arn := replies.update;
      if arn.Failure? {
        return Run(calls, Ok(Failure("Error-UpdateProject: " + arn.error)), cfg);
      }
    }
    var vars := EnvVars(cfg);
    if vars.Panic? {
      return Run(calls, Panic, cfg);
    }
    var call := StartCall(update, project, vars.value, cfg, plan);
    if call.Panic? {
      return Run(calls, Panic, cfg);
    }
    calls := calls + [call.value];
    var err := if update then replies.startBatch else replies.startBuild;
    if err.Some? {
      return Run(calls, Ok(Failure("Got error building project: " + err.value)), cfg);
    }
    run := Run(calls, Ok(Success(arn.value)), cfg);
  }

  /** A run that did not panic got past the request object: it is the
      second half applied to the project name and plan. */
  lemma StartRunStages(config: Config, env: Env, replies: AwsReplies)
    returns (looked: seq<AwsCall>, project: string, update: bool, cfg: Config, plan: ProjectPlan)
    requires StartRun(config, env, replies).outcome.Ok?
    ensures StartInputs(config, env).Ok?
    ensures var version := StartInputs(config, env).value.0;
      var seeded := config["bucket" := Str(StartInputs(config, env).value.1)];
      && update == LauncherUpdateNeeded(replies.listing, version)
      && ProjectName(seeded) == Ok(project)
      && RequestSpec(project, version, update, seeded, env.encryptionKey) == Ok(plan)
      && looked == [ListObjects(StartInputs(config, env).value.1), GetProjects(project)]
      && cfg == seeded["provider" := Obj(plan.provider)]
    ensures StartRun(config, env, replies) == StartProject(looked, project, update, cfg, plan, replies)
  {
    var version := StartInputs(config, env).value.0;
    var bucket := StartInputs(config, env).value.1;
    var seeded := config["bucket" := Str(bucket)];
    update := LauncherUpdateNeeded(replies.listing, version);
    project := ProjectName(seeded).value;
    plan := RequestSpec(project, version, update, seeded, env.encryptionKey).value;
    looked := [ListObjects(bucket), GetProjects(project)];
    cfg := seeded["provider" := Obj(plan.provider)];
  }

  /** The create-or-update rule: a run that gets past the request object
      creates the project exactly when BatchGetProjects found none, and
      updates it otherwise, with the same request. */
  lemma StartCreatesIffNoProject(config: Config, env: Env, replies: AwsReplies)
    requires StartRun(config, env, replies).outcome.Ok?
    ensures var run := StartRun(config, env, replies);
      && run.calls[0].ListObjects? && run.calls[1].GetProjects?
      && (run.calls[2].CreateProject? <==> NoProjectFound(replies.projects))
      && (run.calls[2].UpdateProject? <==> !NoProjectFound(replies.projects))
  {
    var looked, project, update, cfg, plan := StartRunStages(config, env, replies);
    StartProjectCalls(looked, project, update, cfg, plan, replies);
    var run := StartRun(config, env, replies);
    assert run.calls[..2][0] == run.calls[0] && run.calls[..2][1] == run.calls[1];
  }

  /** A failed create stops the run with its prefix; nothing is started. */
  lemma StartCreateFails(config: Config, env: Env, replies: AwsReplies)
    requires StartRun(config, env, replies).outcome.Ok?
    requires NoProjectFound(replies.projects) && replies.create.Failure?
    ensures var run := StartRun(config, env, replies);
      run.outcome.value == Failure("Error-CreateProject: " + replies.create.error) && |run.calls| == 3
  {
    var looked, project, update, cfg, plan := StartRunStages(config, env, replies);
    StartProjectArnFails(looked, project, update, cfg, plan, replies);
  }

  /** A failed update stops the run with its prefix; nothing is started. */
  lemma StartUpdateFails(config: Config, env: Env, replies: AwsReplies)
    requires StartRun(config, env, replies).outcome.Ok?
    requires !NoProjectFound(replies.projects) && replies.update.Failure?
    ensures var run := StartRun(config, env, replies);
      run.outcome.value == Failure("Error-UpdateProject: " + replies.update.error) && |run.calls| == 3
  {
    var looked, project, update, cfg, plan := StartRunStages(config, env, replies);
    StartProjectArnFails(looked, project, update, cfg, plan, replies);
  }

  /** A build that fails to start is reported with its own prefix. */
  lemma StartBuildFails(config: Config, env: Env, replies: AwsReplies)
    requires var run := StartRun(config, env, replies); run.outcome.Ok? && |run.calls| == 4
    ensures var run := StartRun(config, env, replies);
      && (run.calls[3].StartBuild? && replies.startBuild.Some? ==>
            run.outcome.value == Failure("Got error building project: " + replies.startBuild.value))
      && (run.calls[3].StartBuildBatch? && replies.startBatch.Some? ==>
            run.outcome.value == Failure("Got error building project: " + replies.startBatch.value))
  {
    var looked, project, update, cfg, plan := StartRunStages(config, env, replies);
    StartProjectStartCall(looked, project, update, cfg, plan, replies);
  }

  /** Only a run in which every call succeeded returns an ARN, and it is the
      ARN of the created or updated project. */
  lemma StartSucceedsOnlyFully(config: Config, env: Env, replies: AwsReplies)
    requires StartRun(config, env, replies).outcome.Ok?
    requires StartRun(config, env, replies).outcome.value.Success?
    ensures var run := StartRun(config, env, replies);
      var arn := if NoProjectFound(replies.projects) then replies.create else replies.update;
      && |run.calls| == 4 && arn.Success? && run.outcome.value.value == arn.value
      && (run.calls[3].StartBuild? ==> replies.startBuild.None?)
      && (run.calls[3].StartBuildBatch? ==> replies.startBatch.None?)
  {
    var looked, project, update, cfg, plan := StartRunStages(config, env, replies);
    StartProjectStartCall(looked, project, update, cfg, plan, replies);
    StartProjectSuccess(looked, project, update, cfg, plan, replies);
  }

  /** A batch build is started exactly when the launcher must be rebuilt,
      and then the project has no source and a batch configuration. */
  lemma StartBatchIffLauncherUpdate(config: Config, env: Env, replies: AwsReplies, version: string)
    requires ObjAt(config, "provider").Ok? && StringAt(config["provider"].fields, "launcherVersion") == Ok(version)
    requires var run := StartRun(config, env, replies); run.outcome.Ok? && |run.calls| == 4
    ensures var run := StartRun(config, env, replies);
      && (run.calls[3].StartBuildBatch? <==> LauncherUpdateNeeded(replies.listing, version))
      && (run.calls[3].StartBuild? <==> !LauncherUpdateNeeded(replies.listing, version))
      && (run.calls[2].CreateProject? || run.calls[2].UpdateProject?)
      && (run.calls[3].StartBuildBatch? <==> run.calls[2].request.source.NoSource?)
  {
    var looked, project, update, cfg, plan := StartRunStages(config, env, replies);
    StartProjectStartCall(looked, project, update, cfg, plan, replies);
    StartProjectCalls(looked, project, update, cfg, plan, replies);
    var inputs := StartInputs(config, env);
    assert inputs.value.0 == version;
    var seeded := config["bucket" := Str(inputs.value.1)];
    RequestLauncherUpdateRule(project, version, update, seeded, env.encryptionKey);
  }

  /** `stopBuild` and `stopBuildBatch`: only the most recent build (the
      list is sorted DESCENDING) is stopped, and only while it is in
      progress; a list that finds the id but BatchGetBuilds no build panics
      at `Builds[0]`. */
  function StopLatest(ids: seq<string>, statuses: seq<string>, stopping: Option<string>, batch: bool): (r: (seq<AwsCall>, Outcome<Option<string>>))
    ensures |ids| == 0 ==> r.1 == Ok(None) && |r.0| == 0
    ensures |ids| > 0 ==> 1 <= |r.0| <= 2 && r.0[0] == GetBuilds(ids[0])
    ensures |ids| > 0 && |statuses| == 0 ==> r.1 == Panic
    ensures r.1.Ok? && r.1.value.Some? ==> stopping.Some? && r.1.value.value == "Got error stopping build: " + stopping.value
    ensures |ids| > 0 && |statuses| > 0 ==>
      r.1.Ok? && (statuses[0] == InProgress <==> |r.0| == 2)
      && (|r.0| == 2 ==> r.0[1] == (if batch then StopBuildBatch(ids[0]) else StopBuild(ids[0])))
    ensures |ids| > 0 && |statuses| > 0 && statuses[0] != InProgress ==> r.1 == Ok(None)
    ensures |ids| > 0 && |statuses| > 0 && statuses[0] == InProgress ==>
      r.1 == Ok(if stopping.Some? then Some("Got error stopping build: " + stopping.value) else None)
  {
    if |ids| == 0 then ([], Ok(None))
    else
      var got := [GetBuilds(ids[0])];
      if |statuses| == 0 then (got, Panic)
      else if statuses[0] != InProgress then (got, Ok(None))
      else
        var stopped := got + [if batch then StopBuildBatch(ids[0]) else StopBuild(ids[0])];
        if stopping.Some? then (stopped, Ok(Some("Got error stopping build: " + stopping.value)))
        else (stopped, Ok(None))
  }

  /** `AwsServerless.Stop`: deletes the project when pruning, else stops its
      latest build or build batch. */
  function StopRun(config: Config, env: Env, replies: AwsReplies): (run: Run<Option<string>>)
  {
    match ObjAt(config, "provider")
    case Panic => Run([], Panic, config)
    case Ok(provider) =>
      match ProjectName(config)
      case Panic => Run([], Panic, config)
      case Ok(project) =>
        match BoolAt(provider, "prune")
        case Panic => Run([], Panic, config)
        case Ok(prune) =>
          if prune then
            Run([DeleteProject(project)],
                Ok(if replies.delete.Some? then Some("Got error deleting project: " + replies.delete.value) else None),
                config)
          else
            match BucketAndVersion(provider, env)
            case Panic => Run([], Panic, config)
            case Ok((bucket, version)) =>
              StopUnpruned(config["bucket" := Str(bucket)], bucket, project,
                           LauncherUpdateNeeded(replies.listing, version), replies)
  }

  /** The stop path without pruning, once the bucket has been listed: the
      latest build batch is stopped when the launcher must be rebuilt, else
      the latest build. */
  function StopUnpruned(cfg: Config, bucket: string, project: string, update: bool, replies: AwsReplies): (run: Run<Option<string>>)
    ensures 2 <= |run.calls| <= 4 && run.calls[0] == ListObjects(bucket)
    ensures run.calls[1] == (if update then ListBuildBatches(project) else ListBuilds(project))
  {
    var latest := if update then StopLatest(replies.batchIds, replies.batchStatuses, replies.stopBatch, true)
                  else StopLatest(replies.buildIds, replies.buildStatuses, replies.stopBuild, false);
    var listed := [ListObjects(bucket), if update then ListBuildBatches(project) else ListBuilds(project)];
    Run(listed + latest.0, latest.1, cfg)
  }

  /** The bucket, then the launcher version, as `Stop` reads them. */
  function BucketAndVersion(provider: Config, env: Env): (r: Outcome<(string, string)>)
    ensures r.Ok? ==> StringAt(provider, "launcherVersion") == Ok(r.value.1)
  {
    var region :- StringAt(provider, "region");
    var buildRegion :- StringAt(provider, "buildRegion");
    var bucket :- BucketName(region, buildRegion, env.bucket);
    var version :- StringAt(provider, "launcherVersion");
    Ok((bucket, version))
  }

  /** `Stop` as the source runs it. */
  method Stop(config: Config, env: Env, replies: AwsReplies) returns (run: Run<Option<string>>)
    ensures run == StopRun(config, env, replies)
  {
    var provider := ObjAt(config, "provider");
    if provider.Panic? {
      return Run([], Panic, config);
    }
    var project := ProjectName(config);
    var prune := BoolAt(provider.value, "prune");
    if project.Panic? || prune.Panic? {
      return Run([], Panic, config);
    }
    if prune.value {
      var err := if replies.delete.Some? then Some("Got error deleting project: " + replies.delete.value) else None;
      return Run([DeleteProject(project.value)], Ok(err), config);
    }
    var read := BucketAndVersion(provider.value, env);
    if read.Panic? {
      return Run([], Panic, config);
    }
    var (bucket, version) := read.value;
    var cfg := config["bucket" := Str(bucket)];
    var update := CheckLauncherUpdate(replies.listing, version);
    run := StopUnpruned(cfg, bucket, project.value, update, replies);
  }

  /** With `prune` set, `Stop` deletes the project and does nothing else. */
  lemma StopPrunes(config: Config, env: Env, replies: AwsReplies)
    requires ObjAt(config, "provider").Ok? && ProjectName(config).Ok?
    requires BoolAt(config["provider"].fields, "prune") == Ok(true)
    ensures var run := StopRun(config, env, replies);
      && run.calls == [DeleteProject(ProjectName(config).value)]
      && run.outcome == Ok(if replies.delete.Some? then Some("Got error deleting project: " + replies.delete.value) else None)
      && run.config == config
  {
  }

  /** Without `prune`, `Stop` lists the bucket and takes the unpruned path,
      choosing batches exactly when the launcher must be rebuilt. */
  lemma StopWithoutPrune(config: Config, env: Env, replies: AwsReplies, version: string)
    requires ObjAt(config, "provider").Ok? && ProjectName(config).Ok?
    requires BoolAt(config["provider"].fields, "prune") == Ok(false)
    requires BucketAndVersion(config["provider"].fields, env).Ok?
    requires StringAt(config["provider"].fields, "launcherVersion") == Ok(version)
    ensures var bucket := BucketAndVersion(config["provider"].fields, env).value.0;
      StopRun(config, env, replies)
      == StopUnpruned(config["bucket" := Str(bucket)], bucket, ProjectName(config).value,
                      LauncherUpdateNeeded(replies.listing, version), replies)
  {
  }

  /** When BatchGetBuilds finds no build for the newest batch id, the
      batch stop path panics at `Builds[0]` after the lookup. */
  lemma StopBatchWithoutBuildPanics(cfg: Config, bucket: string, project: string, replies: AwsReplies)
    requires |replies.batchIds| > 0 && replies.batchStatuses == []
    ensures var run := StopUnpruned(cfg, bucket, project, true, replies);
      && run.outcome == Panic
      && run.calls == [ListObjects(bucket), ListBuildBatches(project), GetBuilds(replies.batchIds[0])]
  {
  }

  /** The unpruned path never deletes: it looks up the newest build (or
      batch), panics when BatchGetBuilds returns nothing for it, stops it
      exactly when it is in progress, and reports only a failed stop. */
  lemma StopUnprunedStopsLatest(cfg: Config, bucket: string, project: string, update: bool, replies: AwsReplies)
    ensures var run := StopUnpruned(cfg, bucket, project, update, replies);
      var ids := if update then replies.batchIds else replies.buildIds;
      var statuses := if update then replies.batchStatuses else replies.buildStatuses;
      var stopping := if update then replies.stopBatch else replies.stopBuild;
      && (forall i :: 0 <= i < |run.calls| ==> !run.calls[i].DeleteProject?)
      && (|ids| > 0 ==> run.calls[2] == GetBuilds(ids[0]))
      && (run.outcome.Panic? <==> |ids| > 0 && |statuses| == 0)
      && (run.outcome.Ok? ==> (|run.calls| == 4 <==> |ids| > 0 && statuses[0] == InProgress))
      && (|run.calls| == 4 ==> run.calls[3] == (if update then StopBuildBatch(ids[0]) else StopBuild(ids[0])))
      && (run.outcome.Ok? ==>
            run.outcome.value == if |run.calls| == 4 && stopping.Some? then Some("Got error stopping build: " + stopping.value)
                                 else None)
  {
  }
}
