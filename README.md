# aws-consumer-service, modelled in Dafny

aws-consumer-service is the Screwdriver build consumer that runs as an AWS
Lambda. It receives Kafka events whose records carry base64-encoded JSON
build messages. For each message it:

- fills the build configuration with defaults;
- picks an executor by name: `eks`, which runs the build as a Kubernetes pod
  on an EKS cluster, or `sls`, which runs it as a CodeBuild project;
- starts or stops the build;
- reports the host the build runs on to the Screwdriver API.

The model has six modules. Each file holds one module.

- `values.dfy` (`Values`): decoded JSON values and the Go type assertions
  on them (`m[k].(string)` and so on). A failed assertion is an
  `Outcome.Panic`. `json.Number.Int64()` saturates at the int64 bounds.
- `text.dfy` (`Text`): the Go string operations the code uses:
  - decimal formatting and its inverse;
  - `strings.Split` on one character;
  - `strings.Index`, `strings.Replace(…, 1)` and `strings.HasPrefix`.
- `screwdriver.dfy` (`Screwdriver`): the build-tracking API client. It covers:
  - the Authorization header, the error text and the `/v4/` addresses;
  - the key checks of `UpdateBuild`;
  - the status whitelist and payload choice of `UpdateBuildStatus`;
  - the 2xx success rule of `write`.

  The HTTP exchange is replaced by the reply it produced.
- `serverless.dfy` (`Serverless`): the CodeBuild executor. It covers:
  - the region short names, the cross-region bucket and the project name;
  - the eight build variables and the launcher-version scan;
  - the create-project request and its rules;
  - the call sequence of `Start` and `Stop`.

  Each AWS call is replaced by its reply (`AwsReplies`). A run records the
  calls it makes, in order, with what each one sends.
- `eks.dfy` (`Eks`): the Kubernetes executor. It covers:
  - `describeCluster`;
  - the cached clientset, a field of the `EksExecutor` class updated in
    place;
  - the pod `getPodObject` builds;
  - `Start` and `Stop` against a `Cluster` class holding the pods of the
    API server.
- `dispatch.dfy` (`Dispatch`): `index.go`. It covers:
  - the executor lookup, the provider-default merge loop, the region
    fallback and the job switch;
  - the stats report and the deferred `wg.Done()`/`recoverPanic`;
  - `HandleRequest`'s partition loop with a `WaitGroup` counter and its
    summary.

Each loop of the source is a Dafny method with a `while` loop:

- `checkLauncherUpdate`;
- the append loops of `getRequestObject`;
- the provider-default merge;
- `GetExecutor`;
- the pod deletion loop of `Stop`;
- `HandleRequest`'s partition and record loops.

Each of these methods is proved equal to a specification function. The
properties are proved about those functions.

Four ways a record can end are distinguished:

- `Panic`/`Recovered`: a Go runtime panic that the deferred handler
  recovers;
- `Exited`: `log.Fatal` on a message that does not decode, which ends the
  process without running the defers;
- `Returned`: normal completion;
- a returned Go `error`, which becomes a `Result.Failure` or an
  `Option<string>` error text.

## Model

| member | source | states |
|---|---|---|
| Values.Int64Of | index.go:156 | The int64 value of a decoded number: itself when it fits, else the nearest int64 bound. |
| Screwdriver.TokenHeader | screwdriver/screwdriver.go:90-92 | The header begins with "Bearer " and the rest is exactly the token. |
| Screwdriver.TokenHeaderRoundTrip | screwdriver/screwdriver.go:90-92 | A server stripping the "Bearer " prefix gets the token back. |
| Screwdriver.ErrorTextLeadsWithCode | screwdriver/screwdriver.go:87-89 | The error text starts with the status code; the text before the first space parses back to that code. |
| Screwdriver.MakeURL | screwdriver/screwdriver.go:171-175 | It fails exactly when the URL does not parse. On success the address is the formatted text "<base>/v4/" followed by the path (not `url.URL.String()`'s canonical form; see "## Left out"). |
| Screwdriver.GetAPIURL | screwdriver/screwdriver.go:182-185 | On a parsing URL it gives "<base>/v4/". On a failing one the nil URL's `String` panics. |
| Screwdriver.GetAPIURLExample | screwdriver/screwdriver_test.go:133-149 | The API root of http://fakeurl is http://fakeurl/v4/. |
| Screwdriver.SuccessCodesAre2xx | screwdriver/screwdriver.go:156 | With Go's truncating division, `code/100 == 2` holds exactly for 200..299. |
| Screwdriver.Write | screwdriver/screwdriver.go:117-169 | No error exactly when a response arrived with a 2xx code. A transport failure, an unreadable body or any other status is an error. |
| Screwdriver.UpdateBuild | screwdriver/screwdriver.go:188-218 | A PUT is sent exactly when the address parses and both `hostname` and `imagePullStartTime` are present. Each earlier failure has its own error text and sends nothing. The PUT goes to builds/<id> with the bearer header and JSON content type. The status message is included only if non-empty. It succeeds exactly on a 2xx reply. |
| Screwdriver.UpdateBuildStatus | screwdriver/screwdriver.go:221-261 | A status outside RUNNING, SUCCESS, FAILURE and ABORTED is refused before any address is formed. Otherwise it sends exactly when the address parses: to builds/<id>, carrying the status and meta, with a statusMessage field exactly when the message is non-empty. It succeeds exactly on 2xx. |
| Screwdriver.UpdateBuildAcceptsAndRefuses | screwdriver/screwdriver_test.go:99-116 | Full stats with a 200 reply give no error. An empty stats map fails with "hostname value is empty or invalid: <nil>" and sends nothing. |
| Screwdriver.UpdateBuildErrorOfReply | screwdriver/screwdriver.go:212-215 | Once both keys are present, the error is the reply's `write` error for builds/<id>, prefixed "Posting to Build Stats: ". |
| Screwdriver.UpdateBuildReportsRejection | screwdriver/screwdriver_test.go:117 | A 400 reply for build 15 gives exactly "Posting to Build Stats: WARNING: received response 400 from http://fakeurl/v4/builds/15 ". |
| Serverless.RegionShortName | executor/serverless/serverless.go:48-52 | It panics exactly when the region has fewer than three dash-separated parts. |
| Serverless.RegionShortNameOfParts | executor/serverless/serverless.go:48-52 | For "a-b-c" with dash-free parts, the short name is a, then the table abbreviation of b ("" if unknown), then c. |
| Serverless.RegionShortNameNeedsDashes | executor/serverless/serverless.go:49-50 | A region without a dash indexes past the split and panics. |
| Serverless.RegionShortNameUsWest2 | executor/serverless/serverless.go:37-52 | us-west-2 becomes usw2. |
| Serverless.RegionShortNameUnknownWord | executor/serverless/serverless.go:50 | A middle word missing from the table contributes nothing: us-gov-1 becomes us1. |
| Serverless.BucketName | executor/serverless/serverless.go:55-65 | With no build region, or the same region, the bucket is unchanged. Otherwise it succeeds exactly when both short names can be formed. |
| Serverless.BucketNameCrossRegion | executor/serverless/serverless.go:60 | Only the first occurrence of the home short name is replaced by the build region's; the rest of the bucket name is kept. |
| Serverless.CheckLauncherUpdate | executor/serverless/serverless.go:68-89 | An update is needed exactly when the listing failed or holds no key "sdinit-<version>". |
| Serverless.LauncherUpdateTestCases | executor/serverless/serverless_test.go:152-208 | A listing holding sdinit-v101 needs no update for v101 but does for v102. A failed listing always needs one. |
| Serverless.ProjectName | executor/serverless/serverless.go:351-362 | It succeeds exactly when jobName is a string, isPR a bool and jobId a number. For a non-PR job it is "<jobName>-<jobId>". |
| Serverless.ProjectNameOfPullRequest | executor/serverless/serverless.go:353-357 | For a PR job "x:y" with no ':' in x, the name is "x-y-<jobId>": only the first ':' is replaced. |
| Serverless.ProjectNameOfPullRequestHasNoColon | executor/serverless/serverless.go:353-357 | That PR project name contains no ':' when y has none. |
| Serverless.EnvVars | executor/serverless/serverless.go:335-348 | It succeeds exactly when buildTimeout and buildId are numbers and token, apiUri, storeUri and uiUri are strings. |
| Serverless.EnvVarsNamed | executor/serverless/serverless.go:338-347 | There are exactly eight variables, in order: TOKEN, API, STORE, UI, TIMEOUT, SDBUILDID, SD_HAB_ENABLED, SD_AWS_INTEGRATION. |
| Serverless.EnvVarsReadBack | executor/serverless/serverless.go:335-348 | Reading each variable back gives the configured token and URIs. TIMEOUT and SDBUILDID parse back to the configured integers. The flags are "false" and "true". |
| Serverless.BatchBuildspecOf | executor/serverless/serverless.go:159-166 | The batch text needs the three launcher keys as strings. It carries the launcher environment type. |
| Serverless.StringsOf | executor/serverless/serverless.go:254-262 | It succeeds exactly when every element is a string. The result keeps the elements in order. |
| Serverless.StringItems | executor/serverless/serverless.go:254-262 | The append loop computes exactly StringsOf. |
| Serverless.RequestSpec | executor/serverless/serverless.go:242-332 | A built request needs provider, bucket and container. It is named after the project and carries the encryption-key alias. |
| Serverless.RequestLauncherUpdateRule | executor/serverless/serverless.go:278-321 | With a launcher update there is no source: the batch buildspec runs under a batch config with the project's role and timeout. Without one the source is S3 at "<bucket>/sdinit-<version>" with the single buildspec. |
| Serverless.RequestDockerCacheRule | executor/serverless/serverless.go:322-330 | A local cache is added exactly when dlc is true. Privileged mode is the provider's, or true under dlc. |
| Serverless.RequestCredentialsRule | executor/serverless/serverless.go:267-290 | An image under aws/codebuild/ pulls with CODEBUILD credentials, any other with the provider's type. The choice is written back into the provider map. |
| Serverless.RequestArmRule | executor/serverless/serverless.go:245-249 | An ARM_CONTAINER build gets an ARM launcher environment. Otherwise the provider's launcherEnvironmentType is used. The project environment type is the provider's. |
| Serverless.RequestProviderFrame | executor/serverless/serverless.go:243-271 | The provider map loses no key and changes only launcherEnvironmentType and imagePullCredentialsType. |
| Serverless.GetRequestObject | executor/serverless/serverless.go:242-332 | The in-place, loop-based construction yields exactly RequestSpec. |
| Serverless.SingleBuildInput | executor/serverless/serverless.go:169-190 | The single-build input carries the project and the variables. It needs role, executorLogs and debugSession. CloudWatch logs and the debug session follow those flags. |
| Serverless.BatchBuildInput | executor/serverless/serverless.go:203-239 | The batch input carries the project, the variables and the batch buildspec. Its batch config uses the same role. Its artifacts go to the configured bucket. |
| Serverless.StartInputs | executor/serverless/serverless.go:366-369 | The version it returns is the provider's launcherVersion. |
| Serverless.StartCall | executor/serverless/serverless.go:414-420 | The start call is a batch exactly when the launcher must be rebuilt, otherwise a single build. |
| Serverless.StartAfterProject | executor/serverless/serverless.go:412-428 | At most one start call is made, and the outcome is normal exactly when it is. It is a batch exactly under update. The result is "Got error building project: …" or the ARN. |
| Serverless.StartProjectCalls | executor/serverless/serverless.go:393-420 | The earlier calls are kept. Next comes CreateProject if no project was found, else UpdateProject with the same request. At most the start call follows. |
| Serverless.StartProjectArnFails | executor/serverless/serverless.go:393-408 | A failed create or update ends the run right there, with the Error-CreateProject: or Error-UpdateProject: prefix respectively. |
| Serverless.StartProjectStartCall | executor/serverless/serverless.go:414-424 | When the start call is made it is a batch exactly under update. A failed start is reported with "Got error building project: ". |
| Serverless.StartProjectSuccess | executor/serverless/serverless.go:422-428 | A successful result means both calls succeeded, and it is the created or updated project's ARN. |
| Serverless.StartRun | executor/serverless/serverless.go:365-429 | A run that does not panic makes three or four calls. |
| Serverless.Start | executor/serverless/serverless.go:365-429 | The stepwise Start equals StartRun. |
| Serverless.CreateAndBuild | executor/serverless/serverless.go:391-428 | The stepwise second half equals StartProject. |
| Serverless.StartCreatesIffNoProject | executor/serverless/serverless.go:393-408 | After ListObjects and BatchGetProjects, the project is created exactly when BatchGetProjects found none, else updated. |
| Serverless.StartCreateFails | executor/serverless/serverless.go:393-399 | A failed create returns "Error-CreateProject: <err>" after three calls; nothing is started. |
| Serverless.StartUpdateFails | executor/serverless/serverless.go:400-406 | A failed update returns "Error-UpdateProject: <err>" after three calls; nothing is started. |
| Serverless.StartBuildFails | executor/serverless/serverless.go:414-424 | A failed single or batch start returns "Got error building project: <err>". |
| Serverless.StartSucceedsOnlyFully | executor/serverless/serverless.go:393-428 | An ARN is returned only after four calls with no failure, and it is the create or update ARN. |
| Serverless.StartBatchIffLauncherUpdate | executor/serverless/serverless.go:414-420 | A batch build starts exactly when the launcher must be rebuilt, and exactly then the project has no source. |
| Serverless.StopLatest | executor/serverless/serverless.go:105-156 | With no ids nothing is called and nil is returned. Otherwise BatchGetBuilds is called on the newest id only. An empty BatchGetBuilds reply panics at `Builds[0]`. A build not IN_PROGRESS gives nil with no stop call. An in-progress one is stopped; its error comes back as "Got error stopping build: …" and success gives nil. |
| Serverless.StopUnpruned | executor/serverless/serverless.go:440-447 | The unpruned path lists the bucket, then lists batches under update and builds otherwise. |
| Serverless.BucketAndVersion | executor/serverless/serverless.go:440-444 | The version returned is the provider's launcherVersion. |
| Serverless.Stop | executor/serverless/serverless.go:432-448 | The stepwise Stop equals StopRun. |
| Serverless.StopPrunes | executor/serverless/serverless.go:92-102 | With prune set, Stop only deletes the project: "Got error deleting project: …" on failure, and the configuration is left as it was. |
| Serverless.StopWithoutPrune | executor/serverless/serverless.go:440-447 | Without prune, once the region, buildRegion, bucket and launcherVersion read, Stop takes the unpruned path with the cross-region bucket. It uses batches exactly when the launcher must be rebuilt. |
| Serverless.StopUnprunedStopsLatest | executor/serverless/serverless.go:105-156 | The unpruned path never deletes and looks up the newest id. It panics exactly when BatchGetBuilds returns nothing for that id. Otherwise it stops the build or batch exactly when in progress. It returns "Got error stopping build: …" exactly when that stop failed, else nil. |
| Serverless.StopBatchWithoutBuildPanics | executor/serverless/serverless.go:132-145 | When BatchGetBuilds finds no build for the newest batch id, the batch path panics after ListObjects, ListBuildBatches and the lookup. |
| Eks.DescribeCluster | executor/eks/eks.go:49-66 | An empty name fails with "cluster name is empty" before any call. A service error passes through. A nil output is "cluster does not exist". |
| Eks.ConnectSpec | executor/eks/eks.go:100-137 | It panics exactly when clusterName is not a string. Each failure has its own text: DescribeCluster, certificate, or clientset. A connection uses the cluster endpoint, and the token ("" when it could not be made). |
| Eks.DecodedBuildIDPanicsAsWritten | executor/eks/eks.go:141 | As written, `buildId.(int)` panics on every decoded JSON number. |
| Eks.BuildID | executor/eks/eks.go:141-142 | A decoded number gives its int64 value, and a native int is kept. It fails exactly when buildId is neither. |
| Eks.BuildLabelInjective | executor/eks/eks.go:142 | Two builds with one prefix share "<prefix>-<id>" only if they are the same build. |
| Eks.ContainerSettingsOf | executor/eks/eks.go:152-175 | It reads serviceAccountName, container, privilegedMode, cpuLimit and memoryLimit. It succeeds exactly when each has the asserted type. |
| Eks.LaunchSettingsAsWritten | executor/eks/eks.go:183-221 | As written: it succeeds exactly when pipelineId, token, apiUri, storeUri, buildTimeout, uiUri, launcherImage and launcherVersion are all strings, and carries them unchanged. |
| Eks.DecodedTimeoutPanicsAsWritten | executor/eks/eks.go:196 | As written, `buildTimeout.(string)` panics on a decoded JSON number. |
| Eks.FormattedAt | executor/eks/eks.go:191-199 | The `%v` text of a string setting is the string. For a decoded integer it is a decimal that parses back to it. Any other value panics. |
| Eks.LaunchSettingsOf | executor/eks/eks.go:183-199 | The corrected read. Every setting must be a string, except buildTimeout, which may also be a decoded number (its decimal text). Wherever the as-written read succeeds, this one gives the same settings. |
| Eks.PodObject | executor/eks/eks.go:140-231 | The corrected `getPodObject`, with the buildId of Eks.BuildID and the settings of Eks.LaunchSettingsOf. A pod is built exactly when those reads, the prefix and the container settings succeed. It lives in the given namespace. |
| Eks.PodObjectAsWritten | executor/eks/eks.go:140-231 | As written (`buildId.(int)`, `buildTimeout.(string)`): a pod is built exactly when each asserted type holds. It is then the pod the corrected PodObject builds. |
| Eks.DecodedMessagePodAsWritten | executor/eks/eks.go:141-196 | For a decoded message, with numeric buildId and buildTimeout, the as-written pod object panics. Once the string settings read, the corrected one builds the pod. |
| Eks.PodNaming | executor/eks/eks.go:142-211 | The pod name is "<prefix>-<id>-<random>". The sdbuild label (with app and tier) and the container name are "<prefix>-<id>". The init container is "launcher-<prefix>-<id>". |
| Eks.PodVolumes | executor/eks/eks.go:220-222 | The host paths are /opt/screwdriver/sdlauncher/<launcherVersion> and /opt/screwdriver/tmp_<buildId>. |
| Eks.PodLaunch | executor/eks/eks.go:160-199 | The image is the configured container and the command is the launcher entry point. The single argument is the run line of token, apiUri, storeUri, the text of buildTimeout, the decimal build id and uiUri. CONTAINER_IMAGE and SD_BUILD_PREFIX are in the environment. |
| Eks.LaunchArgsSplit | executor/eks/eks.go:191-199 | Split at spaces, the run line gives back /opt/sd/run.sh then token, api, store, timeout, build id and ui, in that order, when no operand holds a space. |
| Eks.StopSelectsStartedPod | executor/eks/eks.go:263-270 | The selector Stop uses picks the pod Start created for the same configuration. |
| Eks.Matching | executor/eks/eks.go:270 | The listed pods are exactly the namespace's pods labelled sdbuild=<prefix>-<id>. |
| Eks.Without | executor/eks/eks.go:276-280 | What remains after deleting by name is exactly the pods not named in that namespace. |
| Eks.Unselected | executor/eks/eks.go:263-283 | The pods a stop should leave: exactly those not selected. |
| Eks.DeleteListedRemovesSelected | executor/eks/eks.go:270-280 | With unique names, deleting the listed names removes exactly the selected pods and keeps the others in order. |
| Eks.Cluster.Create | executor/eks/eks.go:245-248 | A clashing name is refused as already existing and nothing changes. Otherwise the server's refusal or the pod is appended. Uniqueness is kept. |
| Eks.Cluster.Delete | executor/eks/eks.go:278 | It removes the pod of that name in the namespace, and only that one. |
| Eks.DeleteEach | executor/eks/eks.go:276-280 | After the loop, exactly the pods named in the list are gone from the namespace. |
| Eks.EksExecutor.constructor | executor/eks/eks.go:291-296 | The executor is named "eks" and has no cached clientset. |
| Eks.CachedAfter | executor/eks/eks.go:100-137 | After a call that needed a clientset, the cached one stays. Otherwise one is cached exactly when the connection succeeded, and it targets the cluster endpoint. |
| Eks.EksExecutor.NewClientSet | executor/eks/eks.go:100-137 | A cached clientset is returned with no call. Otherwise the connection is made and cached only when it succeeds. |
| Eks.EksExecutor.Start | executor/eks/eks.go:234-260 | The clientset is cached as newClientSet caches it, even when the call then panics. No connection, or an unreadable namespace or pod setting, panics and leaves the cluster unchanged. A clash or a refused create returns "Error creating pod …" with the cluster unchanged. Otherwise the pod is added and its node is returned. |
| Eks.EksExecutor.Stop | executor/eks/eks.go:263-283 | The clientset is cached as newClientSet caches it. No connection or unreadable keys panic, with the cluster unchanged. A list failure is "failed to get pods …" with the cluster unchanged. Otherwise exactly the build's selected pods are removed. |
| Dispatch.LastNamed | index.go:48-58 | The lookup yields nothing exactly when no executor has the name. Whatever it returns is in the list and has the name. |
| Dispatch.LastNamedIsLast | index.go:51-55 | The executor returned is the last with that name: no later one carries it. |
| Dispatch.GetExecutor | index.go:48-58 | The overwriting loop yields exactly LastNamed over the registry. |
| Dispatch.ExecutorNames | index.go:43-45 | Exactly "eks" and "sls" name an executor, made for the region given. |
| Dispatch.DefaultsFillOnlyNil | index.go:125-129 | The merged keys are the provider's plus the defaults'. Non-nil provider values stay, and absent or nil ones get the default. |
| Dispatch.MergeTwiceChangesNothing | index.go:125-129 | Merging non-null defaults a second time changes nothing. |
| Dispatch.ProviderDefaultsAllPresent | index.go:104-129 | After the merge every provider default key holds a non-nil value. |
| Dispatch.MergeDefaults | index.go:125-130 | The in-place loop over the defaults yields exactly WithDefaults, in any order. |
| Dispatch.TopLevelDefaultsYield | index.go:88-98 | The message's keys win. container=aws/codebuild/standard:5.0 and serviceAccountName=default survive only where it lacks them. |
| Dispatch.EffectiveRegion | index.go:137-140 | The region is buildRegion when non-empty, else region. Each is asserted to be a string where it is read. |
| Dispatch.Prepare | index.go:101-140 | It succeeds exactly when the configuration is a map with an object provider whose merged region reads. It yields the merged configuration and that region. |
| Dispatch.CallExecutor | index.go:142-150 | At most one executor call is made, and it is a Start or a Stop. |
| Dispatch.Steps | index.go:101-159 | The body of ProcessMessage never runs wg.Done itself. |
| Dispatch.AfterCall | index.go:156-158 | The steps after the executor call add no Done. |
| Dispatch.DoneExactlyOnce | index.go:74-100 | The process exits (no effects) exactly on an undecodable record. Otherwise Done happens exactly once, as the last step, recovered or not. |
| Dispatch.NoDispatchWithoutJob | index.go:142 | An empty job or executor type calls nothing and reports nothing. Only Done happens, and the message ends normally exactly when its configuration prepares. |
| Dispatch.BadConfigRecovers | index.go:101-102 | A configuration without an object provider is a recovered panic before any call. |
| Dispatch.UnknownExecutorRecovers | index.go:144-147 | A start or stop naming an unknown executor panics on the nil executor, is recovered, and calls nothing. |
| Dispatch.CallsFollowJob | index.go:142-150 | Start is called only for "start" and Stop only for "stop", at most once and first. The executor called has the named type and the effective region. |
| Dispatch.StepsCalls | index.go:142-158 | The steps are the executor call, if any, followed by reports only. |
| Dispatch.ReportOnlyWithHostname | index.go:61-71 | Every report comes from a "start" that returned a non-empty hostname. It carries exactly hostname and imagePullStartTime, for the configured buildId as int64. It is sent exactly when the API address parses. |
| Dispatch.ReportedByStart | index.go:142-158 | A report in the steps is UpdateBuild of the hostname's stats, with no status message, by the client from apiUri and token. |
| Dispatch.StartCallsExecutor | index.go:144-147 | A start of eks or sls calls that executor's Start. It yields its hostname, or "" on error. |
| Dispatch.StartReportsHostname | index.go:142-161 | A start returning a hostname calls Start, reports once, runs Done and returns normally. |
| Dispatch.StartWithoutHostnameReportsNothing | index.go:61-62 | A start returning "" or an error calls Start and Done only, with no report. |
| Dispatch.StopCallsExecutor | index.go:148-149 | A stop of eks or sls calls that executor's Stop, once, with the prepared configuration. It leaves no hostname to report, and panics only when Stop does. |
| Dispatch.StopReportsNothing | index.go:142-161 | A prepared stop of eks or sls gives exactly the Stop call followed by Done, with no report. It ends normally unless Stop panicked, in which case the panic is recovered. |
| Dispatch.WaitGroup.constructor | index.go:197 | A new wait group counts zero. |
| Dispatch.WaitGroup.Add | index.go:201 | The counter grows by the delta. |
| Dispatch.WaitGroup.Done | index.go:76 | The counter drops by one. |
| Dispatch.ProcessMessage | index.go:74-162 | One record yields exactly Process. The counter drops by one unless the process exits. |
| Dispatch.ProcessAllStops | index.go:98-100 | Once a record ends the process, no later record is processed. |
| Dispatch.ExitingPartition | index.go:196-211 | In a partition with an undecodable record, processing stops within it and no summary is returned. |
| Dispatch.SummaryCountsRecords | index.go:209-211 | The summary is "Finished processing messages: N", and N parses back to the number of records. |
| Dispatch.EmptyEventSummary | index_test.go:131-133 | An event without partitions gives "Finished processing messages: 0". |
| Dispatch.ProcessPartition | index.go:197-207 | The records of a partition, processed one per wait-group slot, give exactly ProcessAll of the partition. It reports an exit exactly when some record cannot be decoded. Otherwise the wait-group counter is back at zero when the partition ends. |
| Dispatch.HandleRequest | index.go:189-212 | The summary is Summary of the partitions, with all records counted. The log of processed records is ProcessAll of all records in order. |

## Left out

- Concurrency: the goroutines of a partition run one after another, in
  record order, and `wg.Wait` is the end of the loop. Interleavings are not
  modelled. Neither is what other goroutines of a partition do when one
  calls `log.Fatal`: here the records after it are not processed.
- Kafka partitions are a sequence. Go iterates the `Records` map in an
  unspecified order, and the model fixes one.
- Base64 and JSON decoding: each record arrives decoded. A base64 error is
  only logged in the source. Integers are `json.Number` holding an integer;
  fractional numbers are not modelled.
- `recoverPanic` and `finalRecover`: the stack-trace file, the stderr
  output and the clock are left out. Only the "recovered" outcome is kept.
- Logging (`log.Printf`) and `time.Now`: the clock is a parameter
  (`StatsService.now`).
- The random five-character pod suffix is a parameter.
- AWS SDK, client-go and aws-iam-authenticator: every reply is an input.
  The model assumes the non-nil reply fields the source dereferences.
  `getToken`'s error is discarded, as in the source.
- `Eks.EksExecutor.Start`: when re-fetching the pod fails, the node name is
  given as "" in the reply rather than modelled as the nil response of
  client-go.
- `Eks.EksExecutor.Stop`: delete results are ignored, as in the source.
  Name clashes and label selection follow the API server's semantics.
- Eks.PodObject, Eks.EksExecutor.Start and Eks.EksExecutor.Stop use the
  corrected reads of the Findings rows (Eks.BuildID and
  Eks.LaunchSettingsOf). The as-written reads are shown by
  Eks.PodObjectAsWritten and Eks.DecodedMessagePodAsWritten. As written,
  every decoded message makes `getPodObject` panic. The source's `Start`
  therefore connects, caches the clientset, then panics without creating a
  pod, and its `Stop` panics at line 266 before listing any pod. The model's
  `Start` and `Stop` create and delete pods instead.
- Eks.LaunchSettingsOf keeps `pipelineId` a string, as asserted. The EKS
  test fixture gives a number there and the serverless fixture a string, so
  the source does not settle the message format.
- Eks.FormattedAt: the `%v` text of a `json.Number` is its literal. The
  model gives the canonical decimal of its value, so a literal such as `020`
  is not kept.
- Serverless.StopLatest: the statuses BatchGetBuilds returns are an input.
  `stopBuildBatch` passes it a build-batch id. What CodeBuild returns for
  such an id is outside the source: if it finds no build, the source panics
  at `Builds[0]` (Serverless.StopBatchWithoutBuildPanics).
- `resource.MustParse` of the CPU and memory limits: the limits are kept as
  strings, and a malformed limit's panic is not modelled.
- Constant pod parts are not represented: ports, mounts, restart and DNS
  policy, and the init script.
- Constant request parts are not represented: no artifacts, a
  concurrent-build limit of two, disabled logs, the cache location.
- The YAML buildspec texts are uninterpreted. Only which text is used, and
  the three launcher values the batch text embeds, are kept.
- Screwdriver.MakeURL: the address is the formatted text
  "<base>/v4/<path>". The source uses the parsed URL's `String()`, whose
  canonical form (lower-case scheme, percent-escaped path) is not modelled:
  for `HTTP://host` or a path with a space the two texts differ. They agree
  on canonical addresses such as `http://fakeurl`. The same holds for every
  text built from it: `GetAPIURL`, the addresses `write` sends to and the
  addresses its error texts quote.
- The HTTP client: retries, timeouts, `http.NewRequest` errors, body
  reading and JSON marshalling. The reply of the exchange is an input.
  `json.Marshal` never fails on these payloads.
- Environment reads are parameters: `SDAPI_TIMEOUT_SECS`,
  `SDAPI_MAXRETRIES`, `SD_SLS_BUILD_BUCKET`,
  `SD_SLS_BUILD_ENCRYPTION_KEY_ALIAS` and `AWS_REGION`.
- `New` of the API client, of the serverless executor and of the AWS
  sessions are left out. The registry records only each executor's name
  and region; `executorsList` passes the region to the EKS `New`, which
  takes none.
- Dispatch: what the chosen executor's `Start` and `Stop` return is an input
  (`ExecutorReply`). The executors themselves are modelled in `Serverless`
  and `Eks`.
- Serverless.Stop and Serverless.Start: on a panic, the configuration in
  the returned run is the one read so far. The source may already have
  written `bucket` into the shared map.

## Findings

| source | as written | input that shows it | evidently intended | confidence | as-written member | corrected member |
|---|---|---|---|---|---|---|
| executor/eks/eks.go:141-142 | `getPodObject` (and `Stop`, line 266) reads the build id with `config["buildId"].(int)` | any message from the Kafka topic: `ProcessMessage` decodes with `UseNumber`, so `buildId` is a `json.Number` (index.go reads it that way at line 156); the assertion panics, so no EKS build can start or stop | read the build id as the decoded number, as the rest of the service does | not executed | Eks.DecodedBuildIDPanicsAsWritten | Eks.BuildID |
| executor/eks/eks.go:196 | `getPodObject` formats the run line with `config["buildTimeout"].(string)` | any message as the service decodes it: the serverless executor reads the same key as a `json.Number` (serverless.go:205, 265, 336), and the EKS test fixture decodes `"buildTimeout": 20` with `UseNumber` (eks_test.go:43, 70-71); the assertion panics, so even with the build id corrected no EKS pod is built | accept the decoded number and print it with `%v`, as the format string already does | not executed | Eks.DecodedTimeoutPanicsAsWritten | Eks.LaunchSettingsOf |
