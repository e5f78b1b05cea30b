/** The Kubernetes executor (executor/eks/eks.go): the pod it builds for a
    job, the cached connection to the cluster, and `Start`/`Stop` against a
    cluster modelled as the sequence of its pods.

    The EKS DescribeCluster reply, the IAM token, the certificate decoding
    and the clientset construction are replaced by their outcomes
    (`EksReplies`); the five random characters of a pod name are a
    parameter. */
module Eks {
  import opened Values
  import opened Text

  const ExecutorName: string := "eks"

  /** What DescribeCluster tells about the cluster. */
  datatype ClusterInfo = ClusterInfo(name: string, endpoint: string, certificate: string, arn: string)

  /** The reply of the EKS DescribeCluster call: an error, a nil output, or
      the cluster. */
  datatype DescribeReply = DescribeFailed(err: string) | NoOutput | Described(info: ClusterInfo)

  /** `describeCluster`: refuses an empty name before calling the service,
      passes a service error on unchanged, and turns a nil output into an
      error. */
  function DescribeCluster(clusterName: string, reply: DescribeReply): (r: Result<ClusterInfo>)
    ensures clusterName == "" ==> r == Failure("cluster name is empty")
    ensures clusterName != "" ==> match reply
      case DescribeFailed(e) => r == Failure(e)
      case NoOutput => r == Failure("cluster does not exist")
      case Described(info) => r == Success(info)
  {
    if clusterName == "" then Failure("cluster name is empty")
    else match reply
      case DescribeFailed(e) => Failure(e)
      case NoOutput => Failure("cluster does not exist")
      case Described(info) => Success(info)
  }

  /** A connection to the cluster's API server. */
  datatype Clientset = Clientset(host: string, bearerToken: string, certificate: string)

  /** The outcomes of the calls behind the executor: DescribeCluster, the
      IAM token generator, decoding the certificate (its error, if any),
      building the clientset (its error, if any), creating the pod (a
      refusal other than a name clash), the node the re-fetched pod was
      scheduled on ("" when the fetch failed), and listing pods (its error,
      if any). */
  datatype EksReplies = EksReplies(
    describe: DescribeReply,
    token: Result<string>,
    caError: Option<string>,
    clientsetError: Option<string>,
    createError: Option<string>,
    nodeName: string,
    listError: Option<string>)

  /** The uncached path of `newClientSet`. The token generator's error is
      discarded: the connection is made with an empty token. */
  function ConnectSpec(config: Config, replies: EksReplies): (r: Outcome<Result<Clientset>>)
    ensures r.Ok? <==> StringAt(config, "clusterName").Ok?
    ensures r.Ok? && r.value.Failure? ==>
      var d := DescribeCluster(config["clusterName"].s, replies.describe);
      || (d.Failure? && r.value.error == "Error calling DescribeCluster:" + d.error)
      || (d.Success? && replies.caError.Some? && r.value.error == replies.caError.value)
      || (d.Success? && replies.caError.None? && replies.clientsetError.Some?
          && r.value.error == "Error creating clientset: " + replies.clientsetError.value)
    ensures r.Ok? && r.value.Success? ==>
      && replies.describe.Described? && replies.caError.None? && replies.clientsetError.None?
      && r.value.value.host == replies.describe.info.endpoint
      && r.value.value.bearerToken == (if replies.token.Success? then replies.token.value else "")
  {
    var clusterName :- StringAt(config, "clusterName");
    match DescribeCluster(clusterName, replies.describe)
    case Failure(e) => Ok(Failure("Error calling DescribeCluster:" + e))
    case Success(info) =>
      var token := if replies.token.Success? then replies.token.value else "";
      if replies.caError.Some? then Ok(Failure(replies.caError.value))
      else if replies.clientsetError.Some? then Ok(Failure("Error creating clientset: " + replies.clientsetError.value))
      else Ok(Success(Clientset(info.endpoint, token, info.certificate)))
  }

  /** `config["buildId"].(int)` as the source writes it: only a native Go
      int passes, so the `json.Number` that decoding a message produces
      always panics. */
  function BuildIDAsWritten(config: Config): Outcome<int> {
    GoIntAt(config, "buildId")
  }

  lemma DecodedBuildIDPanicsAsWritten(config: Config)
    requires "buildId" in config && config["buildId"].Num?
    ensures BuildIDAsWritten(config) == Panic
  {
  }

  /** The build id as the rest of the service reads it: a decoded JSON
      number (as `ProcessMessage` itself reads it), or a native int. */
  function BuildID(config: Config): (r: Outcome<int>)
    ensures "buildId" in config && config["buildId"].Num? ==> r == Ok(Int64Of(config["buildId"].n))
    ensures BuildIDAsWritten(config).Ok? ==> r == BuildIDAsWritten(config)
    ensures r.Ok? <==> "buildId" in config && (config["buildId"].Num? || config["buildId"].GoInt?)
  {
    if "buildId" in config && config["buildId"].Num? then Ok(Int64Of(config["buildId"].n))
    else GoIntAt(config, "buildId")
  }

  /** `buildIDWithPrefix`: "<prefix>-<buildId>". */
  function BuildLabel(prefix: string, buildID: int): string {
    prefix + "-" + IntToDecimal(buildID)
  }

  /** Two builds of one prefix carry the same label only if they are the
      same build. */
  lemma BuildLabelInjective(prefix: string, a: int, b: int)
    requires BuildLabel(prefix, a) == BuildLabel(prefix, b)
    ensures a == b
  {
    var la, lb := BuildLabel(prefix, a), BuildLabel(prefix, b);
    assert la[|prefix| + 1..] == IntToDecimal(a);
    assert lb[|prefix| + 1..] == IntToDecimal(b);
    IntDecimalInjective(a, b);
  }

  /** An environment variable of the build container: a literal, or one the
      kubelet fills from a pod field. */
  datatype PodEnv = Literal(name: string, value: string) | FromField(name: string, fieldPath: string)

  datatype Volume = HostPath(volumeName: string, path: string) | EmptyDir(volumeName: string) | DownwardAPI(volumeName: string)

  /** The parts of the build pod that the source sets from the
      configuration; constant parts other than the volumes (ports, mounts,
      restart and DNS policy, the init script) are not represented. */
  datatype Pod = Pod(
    name: string, namespace: string, labels: map<string, string>, serviceAccountName: string,
    containerName: string, image: string, privileged: bool, cpuLimit: string, memoryLimit: string,
    env: seq<PodEnv>, command: seq<string>, args: seq<string>,
    initContainerName: string, launcherImage: string, volumes: seq<Volume>)

  const LauncherPathPrefix: string := "/opt/screwdriver/sdlauncher/"
  const TempPathPrefix: string := "/opt/screwdriver/tmp_"

  const RunScript: string := "/opt/sd/run.sh"

  lemma RunScriptHasNoSpace()
    ensures ' ' !in RunScript
  {
    forall i | 0 <= i < |RunScript| ensures RunScript[i] != ' ' {
    }
  }

  /** The launch argument: run.sh followed by its six operands. */
  function LaunchArgs(token: string, api: string, store: string, timeout: string, id: string, ui: string): string {
    RunScript + " " + (token + " " + (api + " " + (store + " " + (timeout + " " + (id + " " + ui)))))
  }

  /** The settings of the build container, read in the order `getPodObject`
      asserts them. */
  datatype ContainerSettings = ContainerSettings(
    account: string, image: string, privileged: bool, cpu: string, memory: string)

  /** The settings the launcher receives, read in the order `getPodObject`
      asserts them. */
  datatype LaunchSettings = LaunchSettings(
    pipeline: string, token: string, api: string, store: string, timeout: string, ui: string,
    launcherImage: string, launcherVersion: string)

  /** The five container settings, read in order; a setting that is
      missing or of another type panics. */
  function ContainerSettingsOf(config: Config): (r: Outcome<ContainerSettings>)
    ensures r.Ok? <==>
      && StringAt(config, "serviceAccountName").Ok? && StringAt(config, "container").Ok?
      && BoolAt(config, "privilegedMode").Ok?
      && StringAt(config, "cpuLimit").Ok? && StringAt(config, "memoryLimit").Ok?
    ensures r.Ok? ==> r.value == ContainerSettings(
      config["serviceAccountName"].s, config["container"].s, config["privilegedMode"].b,
      config["cpuLimit"].s, config["memoryLimit"].s)
  {
    var account :- StringAt(config, "serviceAccountName");
    var image :- StringAt(config, "container");
    var privileged :- BoolAt(config, "privilegedMode");
    var cpu :- StringAt(config, "cpuLimit");
    var memory :- StringAt(config, "memoryLimit");
    Ok(ContainerSettings(account, image, privileged, cpu, memory))
  }

  /** The eight launcher settings as `getPodObject` asserts them: each
      must be a string, `buildTimeout` included, so the decoded number the
      rest of the service reads there panics. */
  function LaunchSettingsAsWritten(config: Config): (r: Outcome<LaunchSettings>)
    ensures r.Ok? <==>
      && StringAt(config, "pipelineId").Ok? && StringAt(config, "token").Ok?
      && StringAt(config, "apiUri").Ok? && StringAt(config, "storeUri").Ok?
      && StringAt(config, "buildTimeout").Ok? && StringAt(config, "uiUri").Ok?
      && StringAt(config, "launcherImage").Ok? && StringAt(config, "launcherVersion").Ok?
    ensures r.Ok? ==> r.value == LaunchSettings(
      config["pipelineId"].s, config["token"].s, config["apiUri"].s, config["storeUri"].s,
      config["buildTimeout"].s, config["uiUri"].s, config["launcherImage"].s,
      config["launcherVersion"].s)
  {
    var pipeline :- StringAt(config, "pipelineId");
    var token :- StringAt(config, "token");
    var api :- StringAt(config, "apiUri");
    var store :- StringAt(config, "storeUri");
    var timeout :- StringAt(config, "buildTimeout");
    var ui :- StringAt(config, "uiUri");
    var launcherImage :- StringAt(config, "launcherImage");
    var launcherVersion :- StringAt(config, "launcherVersion");
    Ok(LaunchSettings(pipeline, token, api, store, timeout, ui, launcherImage, launcherVersion))
  }

  /** As written, a decoded `buildTimeout` makes the pod settings panic. */
  lemma DecodedTimeoutPanicsAsWritten(config: Config)
    requires "buildTimeout" in config && config["buildTimeout"].Num?
    ensures LaunchSettingsAsWritten(config) == Panic
  {
  }

  /** The `%v` text of a setting that is a string or a decoded integer;
      any other value panics. */
  function FormattedAt(config: Config, key: string): (r: Outcome<string>)
    ensures r.Ok? <==> key in config && (config[key].Str? || config[key].Num?)
    ensures r.Ok? && config[key].Str? ==> r.value == config[key].s
    ensures r.Ok? && config[key].Num? ==> ParseInt(r.value) == Some(config[key].n)
  {
    if key !in config then Panic
    else match config[key]
      case Str(s) => Ok(s)
      case Num(n) => IntDecimalRoundTrip(n); Ok(IntToDecimal(n))
      case _ => Panic
  }

  /** The eight launcher settings, read in order, with `buildTimeout`
      taken as the service decodes it (a number) or as a string; any other
      setting that is missing or not a string panics. Wherever the as-written
      read succeeds, this one gives the same settings. */
  function LaunchSettingsOf(config: Config): (r: Outcome<LaunchSettings>)
    ensures r.Ok? <==>
      && StringAt(config, "pipelineId").Ok? && StringAt(config, "token").Ok?
      && StringAt(config, "apiUri").Ok? && StringAt(config, "storeUri").Ok?
      && FormattedAt(config, "buildTimeout").Ok? && StringAt(config, "uiUri").Ok?
      && StringAt(config, "launcherImage").Ok? && StringAt(config, "launcherVersion").Ok?
    ensures r.Ok? ==> r.value == LaunchSettings(
      config["pipelineId"].s, config["token"].s, config["apiUri"].s, config["storeUri"].s,
      FormattedAt(config, "buildTimeout").value, config["uiUri"].s, config["launcherImage"].s,
      config["launcherVersion"].s)
    ensures LaunchSettingsAsWritten(config).Ok? ==> r == LaunchSettingsAsWritten(config)
  {
    var pipeline :- StringAt(config, "pipelineId");
    var token :- StringAt(config, "token");
    var api :- StringAt(config, "apiUri");
    var store :- StringAt(config, "storeUri");
    var timeout :- FormattedAt(config, "buildTimeout");
    var ui :- StringAt(config, "uiUri");
    var launcherImage :- StringAt(config, "launcherImage");
    var launcherVersion :- StringAt(config, "launcherVersion");
    Ok(LaunchSettings(pipeline, token, api, store, timeout, ui, launcherImage, launcherVersion))
  }

  /** The pod built from the label "<prefix>-<buildId>", the decimal build
      id and the settings. */
  function AssemblePod(tag: string, idText: string, prefix: string, namespace: string, suffix: string,
                       c: ContainerSettings, l: LaunchSettings): Pod {
    Pod(
      tag + "-" + suffix, namespace,
      map["app" := "screwdriver", "tier" := "builds", "sdbuild" := tag], c.account,
      tag, c.image, c.privileged, c.cpu, c.memory,
      [Literal("SD_RUNTIME_CLASS", ""), Literal("SD_PUSHGATEWAY_URL", ""),
       Literal("SD_TERMINATION_GRACE_PERIOD_SECONDS", "60"), Literal("CONTAINER_IMAGE", c.image),
       Literal("SD_PIPELINE_ID", l.pipeline), Literal("SD_BUILD_PREFIX", prefix),
       FromField("NODE_ID", "spec.nodeName"), Literal("SD_BASE_COMMAND_PATH", "/sd/commands/"),
       Literal("SD_TEMP", "/opt/sd_tmp"), Literal("DOCKER_HOST", "tcp")],
      ["/opt/sd/launcher_entrypoint.sh"],
      [LaunchArgs(l.token, l.api, l.store, l.timeout, idText, l.ui)],
      "launcher-" + tag, l.launcherImage,
      [HostPath("screwdriver", LauncherPathPrefix + l.launcherVersion),
       HostPath("sdtemp", TempPathPrefix + idText),
       EmptyDir("workspace"), DownwardAPI("podinfo")])
  }

  /** `getPodObject`; `suffix` stands for the random five characters. */
  function PodObject(config: Config, namespace: string, suffix: string): (r: Outcome<Pod>)
    ensures r.Ok? <==> (BuildID(config).Ok? && StringAt(config, "prefix").Ok?
                        && ContainerSettingsOf(config).Ok? && LaunchSettingsOf(config).Ok?)
    ensures r.Ok? ==> r.value.namespace == namespace
  {
    var buildID :- BuildID(config);
    var prefix :- StringAt(config, "prefix");
    var c :- ContainerSettingsOf(config);
    var l :- LaunchSettingsOf(config);
    Ok(AssemblePod(BuildLabel(prefix, buildID), IntToDecimal(buildID), prefix, namespace, suffix, c, l))
  }

  /** `getPodObject` as written: `buildId` asserted as a Go `int` and
      `buildTimeout` as a string. Wherever it builds a pod, the corrected
      `PodObject` builds the same one. */
  function PodObjectAsWritten(config: Config, namespace: string, suffix: string): (r: Outcome<Pod>)
    ensures r.Ok? <==> (BuildIDAsWritten(config).Ok? && StringAt(config, "prefix").Ok?
                        && ContainerSettingsOf(config).Ok? && LaunchSettingsAsWritten(config).Ok?)
    ensures r.Ok? ==> r == PodObject(config, namespace, suffix)
  {
    var buildID :- BuildIDAsWritten(config);
    var prefix :- StringAt(config, "prefix");
    var c :- ContainerSettingsOf(config);
    var l :- LaunchSettingsAsWritten(config);
    Ok(AssemblePod(BuildLabel(prefix, buildID), IntToDecimal(buildID), prefix, namespace, suffix, c, l))
  }

  /** As written, no decoded message yields a pod: a decoded `buildId` or
      `buildTimeout` panics; the corrected read builds it from the same
      message once the other settings read. */
  lemma DecodedMessagePodAsWritten(config: Config, namespace: string, suffix: string)
    requires "buildId" in config && config["buildId"].Num?
    requires "buildTimeout" in config && config["buildTimeout"].Num?
    ensures PodObjectAsWritten(config, namespace, suffix) == Panic
    ensures StringAt(config, "prefix").Ok? && ContainerSettingsOf(config).Ok?
            && StringAt(config, "pipelineId").Ok? && StringAt(config, "token").Ok?
            && StringAt(config, "apiUri").Ok? && StringAt(config, "storeUri").Ok?
            && StringAt(config, "uiUri").Ok? && StringAt(config, "launcherImage").Ok?
            && StringAt(config, "launcherVersion").Ok?
            ==> PodObject(config, namespace, suffix).Ok?
  {
  }

  /** A pod is built exactly when every setting has the type the source
      asserts; it is then assembled from them. */
  lemma PodObjectStages(config: Config, namespace: string, suffix: string)
    returns (tag: string, idText: string, c: ContainerSettings, l: LaunchSettings)
    ensures PodObject(config, namespace, suffix).Ok? <==>
      BuildID(config).Ok? && StringAt(config, "prefix").Ok?
      && ContainerSettingsOf(config).Ok? && LaunchSettingsOf(config).Ok?
    ensures PodObject(config, namespace, suffix).Ok? ==>
      && tag == BuildLabel(config["prefix"].s, BuildID(config).value)
      && idText == IntToDecimal(BuildID(config).value)
      && c == ContainerSettingsOf(config).value && l == LaunchSettingsOf(config).value
      && PodObject(config, namespace, suffix).value
         == AssemblePod(tag, idText, config["prefix"].s, namespace, suffix, c, l)
  {
    if PodObject(config, namespace, suffix).Ok? {
      tag := BuildLabel(config["prefix"].s, BuildID(config).value);
      idText := IntToDecimal(BuildID(config).value);
      c, l := ContainerSettingsOf(config).value, LaunchSettingsOf(config).value;
    } else {
      tag, idText := "", "";
      c := ContainerSettings("", "", false, "", "");
      l := LaunchSettings("", "", "", "", "", "", "", "");
    }
  }

  /** The names and labels of the pod all derive from "<prefix>-<buildId>":
      the pod is that plus "-" and the random suffix, the build label and the
      build container are named exactly that, and the init container is
      "launcher-" followed by it. */
  lemma PodNaming(config: Config, namespace: string, suffix: string)
    requires PodObject(config, namespace, suffix).Ok?
    ensures var pod := PodObject(config, namespace, suffix).value;
      var tag := BuildLabel(config["prefix"].s, BuildID(config).value);
      && pod.name == tag + "-" + suffix
      && pod.labels == map["app" := "screwdriver", "tier" := "builds", "sdbuild" := tag]
      && pod.containerName == tag
      && pod.initContainerName == "launcher-" + tag
  {
    var tag, idText, c, l := PodObjectStages(config, namespace, suffix);
  }

  /** The host paths: the launcher of the configured version, and a
      scratch directory per build. */
  lemma PodVolumes(config: Config, namespace: string, suffix: string)
    requires PodObject(config, namespace, suffix).Ok?
    ensures var pod := PodObject(config, namespace, suffix).value;
      && HostPath("screwdriver", LauncherPathPrefix + config["launcherVersion"].s) in pod.volumes
      && HostPath("sdtemp", TempPathPrefix + IntToDecimal(BuildID(config).value)) in pod.volumes
  {
    var tag, idText, c, l := PodObjectStages(config, namespace, suffix);
    var pod := PodObject(config, namespace, suffix).value;
    assert pod.volumes[0] == HostPath("screwdriver", LauncherPathPrefix + l.launcherVersion);
    assert pod.volumes[1] == HostPath("sdtemp", TempPathPrefix + idText);
  }

  /** The build container runs the entry point with a single argument that
      carries the token, the API, the store, the build timeout, the build id
      and the UI, and it sees the configured image and build prefix. */
  lemma PodLaunch(config: Config, namespace: string, suffix: string)
    requires PodObject(config, namespace, suffix).Ok?
    ensures var pod := PodObject(config, namespace, suffix).value;
      && pod.image == config["container"].s
      && pod.command == ["/opt/sd/launcher_entrypoint.sh"]
      && pod.args == [LaunchArgs(config["token"].s, config["apiUri"].s, config["storeUri"].s,
                                 FormattedAt(config, "buildTimeout").value, IntToDecimal(BuildID(config).value),
                                 config["uiUri"].s)]
      && Literal("SD_BUILD_PREFIX", config["prefix"].s) in pod.env
      && Literal("CONTAINER_IMAGE", config["container"].s) in pod.env
  {
    var tag, idText, c, l := PodObjectStages(config, namespace, suffix);
    var pod := PodObject(config, namespace, suffix).value;
    assert pod.env[5] == Literal("SD_BUILD_PREFIX", config["prefix"].s);
    assert pod.env[3] == Literal("CONTAINER_IMAGE", c.image);
  }

  lemma {:induction false} SplitAfterFirst(x: string, rest: string, tail: seq<string>)
    requires ' ' !in x && Split(rest, ' ') == tail
    ensures Split(x + " " + rest, ' ') == [x] + tail
  {
    assert x + " " + rest == x + [' '] + rest;
    SplitAtFirst(x, ' ', rest);
  }

  /** The launcher splits its argument at spaces: when no operand contains
      a space it gets the script and the six operands back, in order. */
  lemma LaunchArgsSplit(token: string, api: string, store: string, timeout: string, id: string, ui: string)
    requires ' ' !in token && ' ' !in api && ' ' !in store && ' ' !in timeout && ' ' !in id && ' ' !in ui
    ensures Split(LaunchArgs(token, api, store, timeout, id, ui), ' ')
      == [RunScript, token, api, store, timeout, id, ui]
  {
    var run := RunScript;
    RunScriptHasNoSpace();
    var r5 := ui;
    var r4 := id + " " + r5;
    var r3 := timeout + " " + r4;
    var r2 := store + " " + r3;
    var r1 := api + " " + r2;
    var r0 := token + " " + r1;
    var t5 := [ui];
    var t4 := [id] + t5;
    var t3 := [timeout] + t4;
    var t2 := [store] + t3;
    var t1 := [api] + t2;
    var t0 := [token] + t1;
    SplitNoSeparator(ui, ' ');
    SplitAfterFirst(id, r5, t5);
    SplitAfterFirst(timeout, r4, t4);
    SplitAfterFirst(store, r3, t3);
    SplitAfterFirst(api, r2, t2);
    SplitAfterFirst(token, r1, t1);
    SplitAfterFirst(run, r0, t0);
    assert LaunchArgs(token, api, store, timeout, id, ui) == run + " " + r0;
    assert [run] + t0 == [RunScript, token, api, store, timeout, id, ui];
  }

  /** The decimal build id never contains a space. */
  lemma DecimalHasNoSpace(n: int)
    ensures ' ' !in IntToDecimal(n)
  {
    var d := IntToDecimal(n);
    forall i | 0 <= i < |d| ensures d[i] != ' ' {
    }
  }

  /** Whether `Stop`'s label selector "sdbuild=<label>" picks a pod of the
      namespace. */
  predicate Selected(p: Pod, namespace: string, tag: string) {
    p.namespace == namespace && "sdbuild" in p.labels && p.labels["sdbuild"] == tag
  }

  /** The pod `Start` creates is the one `Stop` selects for the same build. */
  lemma StopSelectsStartedPod(config: Config, namespace: string, suffix: string)
    requires PodObject(config, namespace, suffix).Ok?
    ensures Selected(PodObject(config, namespace, suffix).value, namespace,
                     BuildLabel(config["prefix"].s, BuildID(config).value))
  {
    PodNaming(config, namespace, suffix);
  }

  predicate SameName(p: Pod, q: Pod) {
    p.namespace == q.namespace && p.name == q.name
  }

  /** Kubernetes allows one pod per name in a namespace. */
  predicate UniqueNames(pods: seq<Pod>) {
    forall i, j :: 0 <= i < j < |pods| ==> !SameName(pods[i], pods[j])
  }

  /** The pods a List call with the label selector returns, in order. */
  function Matching(pods: seq<Pod>, namespace: string, tag: string): (r: seq<Pod>)
    ensures forall p :: p in r <==> p in pods && Selected(p, namespace, tag)
  {
    if pods == [] then []
    else (if Selected(pods[0], namespace, tag) then [pods[0]] else []) + Matching(pods[1..], namespace, tag)
  }

  /** The pods left after deleting every name of `names` in the namespace. */
  function Without(pods: seq<Pod>, namespace: string, names: set<string>): (r: seq<Pod>)
    ensures forall p :: p in r <==> p in pods && !(p.namespace == namespace && p.name in names)
  {
    if pods == [] then []
    else (if pods[0].namespace == namespace && pods[0].name in names then [] else [pods[0]])
         + Without(pods[1..], namespace, names)
  }

  /** The pods not selected, in their order. */
  function Unselected(pods: seq<Pod>, namespace: string, tag: string): (r: seq<Pod>)
    ensures forall p :: p in r <==> p in pods && !Selected(p, namespace, tag)
  {
    if pods == [] then []
    else (if Selected(pods[0], namespace, tag) then [] else [pods[0]]) + Unselected(pods[1..], namespace, tag)
  }

  function NamesOf(pods: seq<Pod>): set<string> {
    set p | p in pods :: p.name
  }

  lemma {:induction false} WithoutTwice(pods: seq<Pod>, namespace: string, names: set<string>, name: string)
    ensures Without(Without(pods, namespace, names), namespace, {name}) == Without(pods, namespace, names + {name})
  {
    if pods != [] {
      WithoutTwice(pods[1..], namespace, names, name);
      var h := pods[0];
      var once := Without(pods, namespace, names);
      var rest := Without(pods[1..], namespace, names);
      if h.namespace == namespace && h.name in names {
        assert once == rest;
      } else {
        assert once == [h] + rest;
        assert once[1..] == rest;
      }
    }
  }

  lemma {:induction false} WithoutNothing(pods: seq<Pod>, namespace: string)
    ensures Without(pods, namespace, {}) == pods
  {
    if pods != [] {
      WithoutNothing(pods[1..], namespace);
      assert [pods[0]] + pods[1..] == pods;
    }
  }

  lemma {:induction false} WithoutSelected(pods: seq<Pod>, namespace: string, tag: string, names: set<string>)
    requires forall p :: p in pods && p.namespace == namespace && p.name in names ==> Selected(p, namespace, tag)
    requires forall p :: p in pods && Selected(p, namespace, tag) ==> p.name in names
    ensures Without(pods, namespace, names) == Unselected(pods, namespace, tag)
  {
    if pods != [] {
      WithoutSelected(pods[1..], namespace, tag, names);
    }
  }

  lemma UniqueSameName(pods: seq<Pod>, p: Pod, q: Pod)
    requires UniqueNames(pods) && p in pods && q in pods && SameName(p, q)
    ensures p == q
  {
    var i :| 0 <= i < |pods| && pods[i] == p;
    var j :| 0 <= j < |pods| && pods[j] == q;
  }

  /** In a cluster where names are unique per namespace, deleting by name
      the pods a selector listed removes exactly the selected pods and keeps
      every other pod in its place. */
  lemma DeleteListedRemovesSelected(pods: seq<Pod>, namespace: string, tag: string)
    requires UniqueNames(pods)
    ensures Without(pods, namespace, NamesOf(Matching(pods, namespace, tag))) == Unselected(pods, namespace, tag)
  {
    var names := NamesOf(Matching(pods, namespace, tag));
    forall p | p in pods && p.namespace == namespace && p.name in names
      ensures Selected(p, namespace, tag)
    {
      var q :| q in Matching(pods, namespace, tag) && q.name == p.name;
      UniqueSameName(pods, p, q);
    }
    WithoutSelected(pods, namespace, tag, names);
  }

  /** A pod list with a pod in front has unique names exactly when the rest
      does and the front pod clashes with none of it. */
  lemma UniqueCons(h: Pod, rest: seq<Pod>)
    ensures UniqueNames([h] + rest) <==> UniqueNames(rest) && forall q :: q in rest ==> !SameName(h, q)
  {
    var s := [h] + rest;
    if UniqueNames(s) {
      forall i, j | 0 <= i < j < |rest| ensures !SameName(rest[i], rest[j]) {
        assert s[i + 1] == rest[i] && s[j + 1] == rest[j];
      }
      forall q | q in rest ensures !SameName(h, q) {
        var j :| 0 <= j < |rest| && rest[j] == q;
        assert s[0] == h && s[j + 1] == q;
        assert !SameName(s[0], s[j + 1]);
      }
    }
    if UniqueNames(rest) && forall q :: q in rest ==> !SameName(h, q) {
      forall i, j | 0 <= i < j < |s| ensures !SameName(s[i], s[j]) {
        if i == 0 {
          assert s[j] == rest[j - 1];
        } else {
          assert s[i] == rest[i - 1] && s[j] == rest[j - 1];
        }
      }
    }
  }

  lemma {:induction false} WithoutKeepsUnique(pods: seq<Pod>, namespace: string, names: set<string>)
    requires UniqueNames(pods)
    ensures UniqueNames(Without(pods, namespace, names))
  {
    if pods != [] {
      var h, tail := pods[0], pods[1..];
      assert pods == [h] + tail;
      UniqueCons(h, tail);
      WithoutKeepsUnique(tail, namespace, names);
      var rest := Without(tail, namespace, names);
      if !(h.namespace == namespace && h.name in names) {
        assert Without(pods, namespace, names) == [h] + rest;
        UniqueCons(h, rest);
      } else {
        assert Without(pods, namespace, names) == rest;
      }
    }
  }

  lemma NamesOfPrefix(items: seq<Pod>, i: nat)
    requires i < |items|
    ensures NamesOf(items[..i + 1]) == NamesOf(items[..i]) + {items[i].name}
  {
    assert items[..i + 1] == items[..i] + [items[i]];
  }

  /** The text the API server refuses a clashing name with. */
  function AlreadyExists(name: string): string {
    "pods \"" + name + "\" already exists"
  }

  /** The pods of the cluster, as the API server holds them. */
  class Cluster {
    var pods: seq<Pod>

    ghost predicate Valid()
      reads this
    {
      UniqueNames(pods)
    }

    constructor (initial: seq<Pod>)
      requires UniqueNames(initial)
      ensures Valid() && pods == initial
    {
      pods := initial;
    }

    /** Creates a pod unless its name is taken in its namespace or the
        server refuses it for another reason. */
    method Create(pod: Pod, refusal: Option<string>) returns (err: Option<string>)
      requires Valid()
      modifies this
      ensures Valid()
      ensures (exists q :: q in old(pods) && SameName(q, pod)) ==> err == Some(AlreadyExists(pod.name)) && pods == old(pods)
      ensures (forall q :: q in old(pods) ==> !SameName(q, pod)) ==>
        err == refusal && pods == (if refusal.None? then old(pods) + [pod] else old(pods))
    {
      if exists q :: q in pods && SameName(q, pod) {
        return Some(AlreadyExists(pod.name));
      }
      err := refusal;
      if refusal.None? {
        pods := pods + [pod];
        forall i, j | 0 <= i < j < |pods| ensures !SameName(pods[i], pods[j]) {
          if j == |pods| - 1 {
            assert pods[i] in old(pods);
          } else {
            assert pods[i] == old(pods)[i] && pods[j] == old(pods)[j];
          }
        }
      }
    }

    /** Deletes the pod of that name in the namespace, if there is one. */
    method Delete(namespace: string, name: string)
      requires Valid()
      modifies this
      ensures Valid()
      ensures pods == Without(old(pods), namespace, {name})
    {
      WithoutKeepsUnique(pods, namespace, {name});
      pods := Without(pods, namespace, {name});
    }
  }

  /** The loop of `Stop`: deletes each listed pod by name, ignoring the
      outcome of each delete. */
  method DeleteEach(cluster: Cluster, namespace: string, items: seq<Pod>)
    requires cluster.Valid()
    modifies cluster
    ensures cluster.Valid()
    ensures cluster.pods == Without(old(cluster.pods), namespace, NamesOf(items))
  {
    ghost var before := cluster.pods;
    var i := 0;
    WithoutNothing(before, namespace);
    assert NamesOf(items[..0]) == {};
    while i < |items|
      invariant 0 <= i <= |items|
      invariant cluster.Valid()
      invariant cluster.pods == Without(before, namespace, NamesOf(items[..i]))
    {
      var name := items[i].name;
      WithoutTwice(before, namespace, NamesOf(items[..i]), name);
      NamesOfPrefix(items, i);
      cluster.Delete(namespace, name);
      i := i + 1;
    }
    assert items[..|items|] == items;
  }

  /** The clientset cached after a call that needed one: the one already
      cached, otherwise the new connection when it succeeded. */
  function CachedAfter(cached: Option<Clientset>, config: Config, replies: EksReplies): (r: Option<Clientset>)
    ensures cached.Some? ==> r == cached
    ensures cached.None? ==> (r.Some? <==> ConnectSpec(config, replies).Ok? && ConnectSpec(config, replies).value.Success?)
    ensures cached.None? && r.Some? ==> r.value.host == replies.describe.info.endpoint
  {
    if cached.Some? then cached
    else match ConnectSpec(config, replies)
      case Ok(Success(cs)) => Some(cs)
      case _ => None
  }

  /** `AwsExecutorEKS`: its name and the clientset it caches. */
  class EksExecutor {
    const name: string
    var clientset: Option<Clientset>

    constructor ()
      ensures name == ExecutorName && clientset == None
    {
      name := ExecutorName;
      clientset := None;
    }

    /** `newClientSet`: the cached clientset when there is one, without any
        call; otherwise a new connection, cached only when it succeeds. */
    method NewClientSet(config: Config, replies: EksReplies) returns (r: Outcome<Result<Clientset>>)
      modifies this
      ensures old(clientset).Some? ==> r == Ok(Success(old(clientset).value)) && clientset == old(clientset)
      ensures old(clientset).None? ==> r == ConnectSpec(config, replies)
      ensures old(clientset).None? ==> clientset == (if r.Ok? && r.value.Success? then Some(r.value.value) else None)
    {
      if clientset.Some? {
        return Ok(Success(clientset.value));
      }
      r := ConnectSpec(config, replies);
      if r.Ok? && r.value.Success? {
        clientset := Some(r.value.value);
      }
    }

    /** `Start`: creates the build pod and returns the node it runs on. A
        failed connection is not checked: using the nil clientset
        panics. */
    method Start(config: Config, suffix: string, replies: EksReplies, cluster: Cluster) returns (r: Outcome<Result<string>>)
      requires cluster.Valid()
      modifies this, cluster
      ensures cluster.Valid()
      ensures clientset == CachedAfter(old(clientset), config, replies)
      ensures var connected := old(clientset).Some? || (ConnectSpec(config, replies).Ok? && ConnectSpec(config, replies).value.Success?);
        && (!connected || StringAt(config, "namespace").Panic? ==> r == Panic && cluster.pods == old(cluster.pods))
        && (connected && StringAt(config, "namespace").Ok? ==>
              var pod := PodObject(config, config["namespace"].s, suffix);
              && (pod.Panic? ==> r == Panic && cluster.pods == old(cluster.pods))
              && (pod.Ok? && (exists q :: q in old(cluster.pods) && SameName(q, pod.value)) ==>
                    r == Ok(Failure("Error creating pod " + AlreadyExists(pod.value.name))) && cluster.pods == old(cluster.pods))
              && (pod.Ok? && (forall q :: q in old(cluster.pods) ==> !SameName(q, pod.value)) ==>
                    match replies.createError
                    case Some(e) => r == Ok(Failure("Error creating pod " + e)) && cluster.pods == old(cluster.pods)
                    case None => r == Ok(Success(replies.nodeName)) && cluster.pods == old(cluster.pods) + [pod.value]))
    {
      var cs := NewClientSet(config, replies);
      var namespace := StringAt(config, "namespace");
      if namespace.Panic? || cs.Panic? || cs.value.Failure? {
        return Panic;
      }
      var pod := PodObject(config, namespace.value, suffix);
      if pod.Panic? {
        return Panic;
      }
      var err := cluster.Create(pod.value, replies.createError);
      if err.Some? {
        return Ok(Failure("Error creating pod " + err.value));
      }
      r := Ok(Success(replies.nodeName));
    }

    /** `Stop`: lists the pods of the build by its label and deletes each
        one by name. */
    method Stop(config: Config, replies: EksReplies, cluster: Cluster) returns (r: Outcome<Option<string>>)
      requires cluster.Valid()
      modifies this, cluster
      ensures cluster.Valid()
      ensures clientset == CachedAfter(old(clientset), config, replies)
      ensures var connected := old(clientset).Some? || (ConnectSpec(config, replies).Ok? && ConnectSpec(config, replies).value.Success?);
        var readable := StringAt(config, "namespace").Ok? && BuildID(config).Ok? && StringAt(config, "prefix").Ok?;
        && (!connected || !readable ==> r == Panic && cluster.pods == old(cluster.pods))
        && (connected && readable && replies.listError.Some? ==>
              r == Ok(Some("failed to get pods " + replies.listError.value)) && cluster.pods == old(cluster.pods))
        && (connected && readable && replies.listError.None? ==>
              r == Ok(None)
              && cluster.pods == Unselected(old(cluster.pods), config["namespace"].s,
                                            BuildLabel(config["prefix"].s, BuildID(config).value)))
    {
      var cs := NewClientSet(config, replies);
      var namespace := StringAt(config, "namespace");
      var buildID := BuildID(config);
      var prefix := StringAt(config, "prefix");
      if namespace.Panic? || buildID.Panic? || prefix.Panic? || cs.Panic? || cs.value.Failure? {
        return Panic;
      }
      var tag := BuildLabel(prefix.value, buildID.value);
      if replies.listError.Some? {
        return Ok(Some("failed to get pods " + replies.listError.value));
      }
      var items := Matching(cluster.pods, namespace.value, tag);
      ghost var before := cluster.pods;
      DeleteEach(cluster, namespace.value, items);
      DeleteListedRemovesSelected(before, namespace.value, tag);
      r := Ok(None);
    }
  }
}
