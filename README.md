# ClusterManager core, modelled in Dafny

ClusterManager hands out virtual Kubernetes clusters (vclusters) that run
inside shared host clusters. This project models its three core parts:

- **cluster-api.** The FastAPI front end. It authenticates callers through Keycloak,
  validates cluster requests, keeps clusters, subscriptions, host clusters
  and users in MongoDB, and publishes work on a Dapr message bus.
- **cluster-service.** The worker that consumes those messages. It chooses a
  host cluster by load, creates the namespace, the vcluster, its custom
  resource, resource quota and ingress, and waits for the service and the
  pods. It also starts, stops, deletes and re-plans clusters and issues
  kubeconfigs.
- **cluster-status.** A Go controller. It watches the vcluster pods, derives a
  status string from their containers and reports it back to the API,
  retrying a failed key a bounded number of times.

The model's pieces:

- **Pure logic.** Version and duration parsing, name validation, placement,
  unit conversion, container-status derivation and the retry policy are
  functions. The lemmas about them state what the code promises.
- **Stateful parts.** These are classes whose methods are proved against those functions:
  - `ApiStore.Database` holds the Mongo collections (maps keyed by `_id`; users as an ordered list) and the bus.
  - `KubeApi.ControlPlane` is the Kubernetes API of a host cluster. It has a tick clock, a namespace map, and a fixed set of calls that fail, which stands for "any other API error".
  - `Kubeconfig.VirtualCluster` is the API inside a vcluster.
  - `ClusterStatus.RetryQueue` is the controller's rate-limited queue.
- **Loops.** The core's loops that update state step by step are method loops with invariants: `for` where the source walks a list, `while` where it polls or scans. Examples are the best-host scan, the node/metric tables, the quota deletion, the service and pod polls, and the first-Ready-condition search. Two scans that only look up a key are modelled as key lookups inside functions:
  - the search for the chosen host's name in cluster-api/routes/cluster.py:55-57 is `hosts[best.value].name` in `ClusterRoutes.CreateChecks`, because host ids are unique map keys;
  - the walk over a pod's labels in cluster-status/main.go:77 is a membership test in `ClusterStatus.ReportFor`, because a Go map holds each key once.

  Generator expressions that only compute a value are functions or predicates: `all(p.status.phase == "Running" ...)` is `UseCases.AllRunning`, and `any(group["name"] == REQUEST_GROUP_NAME ...)` is part of `UserRoutes.Decide`.

Modules follow the source files: `Placement`, `Metrics`, `HostCheck`,
`Manifests`, `ClusterUtils`, `ServiceSubscription`, `UseCases` and
`Kubeconfig` (cluster-service); `Duration`, `ClusterSchema`, `Plans`,
`UserSchema`, `Middleware`, `ClusterRoutes`, `UserRoutes` and
`PublicRoutes` (cluster-api); `ClusterStatus` (cluster-status). `Text`,
`Values`, `Wrappers`, `ApiStore` and `KubeApi` hold the shared pieces:
Python's `int()`/`str.split`, JSON values, results, the database and the
Kubernetes API.

Some behaviours of the code are surprising; the model keeps them as written:

- `"1h20m"` is worth 3600 seconds, and the kubeconfig route refuses `"0h20m"` as shorter than ten minutes (see Findings).
- The 403 of `token_verify` is answered 500.
- `parse_subscription_json` demands the misspelt key `persistance_vol_claims`.
- `clusters_serializer` emits `stauts`.
- The Go switch's empty cases keep the previous status.

## Model

| member | source | states |
|---|---|---|
| Placement.GetBestCluster | cluster-service/src/utils/best_cluster_utils.py:5-33 | the scan's result is the left fold `Run` over the hosts in order; the admin is notified exactly when no host is chosen; a chosen host is under both thresholds |
| Placement.RunPicksAnInputHost | cluster-service/src/utils/best_cluster_utils.py:12-27 | the best host, when there is one, is one of the input rows |
| Placement.NotificationTracksTier | cluster-service/src/utils/best_cluster_utils.py:16-31 | the notification flag is set exactly when the retained best is not under both thresholds, so the reset at the end clears it |
| Placement.ResultIsAnUnderThresholdHost | cluster-service/src/utils/best_cluster_utils.py:29-33 | a returned host is an input host with CPU and memory under the thresholds |
| Placement.StepKeepsUnderThresholdBest | cluster-service/src/utils/best_cluster_utils.py:16-27 | once the best is under both thresholds, a further row never replaces it with one that is not |
| Placement.UnderThresholdBestIsKept | cluster-service/src/utils/best_cluster_utils.py:12-27 | an under-threshold best survives any number of further rows |
| Placement.AllUnderThresholdsPicksFirstLexMin | cluster-service/src/utils/best_cluster_utils.py:16-21 | when every host is under the thresholds, the chosen one is the first lexicographic (cpu, memory) minimum |
| Placement.NothingUnderThresholdsSelectsNothing | cluster-service/src/utils/best_cluster_utils.py:23-31 | when no host is under the thresholds, nothing is returned and the admin is notified |
| Placement.SelectionDependsOnOrder | cluster-service/src/utils/best_cluster_utils.py:23-27 | the same hosts in another order give a different answer: an over-threshold host seen first can block a later under-threshold one |
| Placement.UnitTestCases | cluster-service/tests/test_best_cluster_utils.py:10-59 | the five cases of the unit tests hold for the model |
| Metrics.MilliOfRendered | cluster-service/src/utils/common_utils.py:147-148 | "<n>m" is n millicores |
| Metrics.MicroOfRendered | cluster-service/src/utils/common_utils.py:145-146 | "<n>u" is n/1000 millicores |
| Metrics.NanoOfRendered | cluster-service/src/utils/common_utils.py:143-144 | "<n>n" is n/1000000 millicores |
| Metrics.CoresOfRendered | cluster-service/src/utils/common_utils.py:150-151 | a bare "<n>" is n*1000 millicores |
| Metrics.UnknownCpuFormat | cluster-service/src/utils/common_utils.py:149-153 | a string with no unit suffix that is not an integer raises "Unknown CPU value format: " + the string |
| Metrics.KibiOfRendered | cluster-service/src/utils/common_utils.py:123-124 | "<n>Ki" is n/1024 MB |
| Metrics.MebiOfRendered | cluster-service/src/utils/common_utils.py:125-126 | "<n>Mi" is n MB |
| Metrics.GibiOfRendered | cluster-service/src/utils/common_utils.py:127-128 | "<n>Gi" is n*1024 MB |
| Metrics.TebiOfRendered | cluster-service/src/utils/common_utils.py:129-130 | "<n>Ti" is n*1024*1024 MB |
| Metrics.BytesOfRendered | cluster-service/src/utils/common_utils.py:131-132 | a bare "<n>" is n/(1024*1024) MB |
| Metrics.ConversionExamples | cluster-service/src/utils/common_utils.py:116-155 | "100m" is 100, "1" is 1000, "512Mi" is 512, "1Gi" is 1024 |
| Metrics.Int | cluster-service/src/utils/common_utils.py:151-153 | Python's `int()` on a string succeeds exactly when the string is an optionally signed run of decimal digits |
| Metrics.ToPercentage | cluster-service/src/utils/common_utils.py:104-112 | a zero total gives 0.0; otherwise the result times the total is value*100 |
| Metrics.PercentageBounded | cluster-service/src/utils/common_utils.py:104-112 | a usage within its total is between 0 and 100 percent |
| Metrics.TabulateNodes | cluster-service/src/utils/common_utils.py:73-81 | the node loop builds the table `Tabulate` describes, or fails with the first conversion error |
| Metrics.TabulateKeys | cluster-service/src/utils/common_utils.py:74-81 | the table has exactly one entry per node name, with current usage 0 |
| Metrics.TabulateLastWins | cluster-service/src/utils/common_utils.py:74-81 | a node name listed twice keeps the allocatable values of its last listing |
| Metrics.TabulateErrPersists | cluster-service/src/utils/common_utils.py:74-81 | once one node's conversion raises, the whole table fails with that error |
| Metrics.ApplySampleList | cluster-service/src/utils/common_utils.py:83-89 | the sample loop computes `ApplySamples`: the usage of listed nodes is overwritten, in order |
| Metrics.ApplySamplesErrPersists | cluster-service/src/utils/common_utils.py:83-89 | a sample whose conversion raises fails the whole load |
| Metrics.UnsampledNodeHasZeroUsage | cluster-service/src/utils/common_utils.py:79-89 | a node with no sample keeps current CPU and memory 0 |
| Metrics.UnlistedSamplesIgnored | cluster-service/src/utils/common_utils.py:85 | samples for nodes not in the table change nothing |
| Metrics.SumColumns | cluster-service/src/utils/common_utils.py:91-96 | the four sums over the table's entries, in insertion order |
| Metrics.ClusterLoad | cluster-service/src/utils/common_utils.py:64-101 | a missing list raises "Invalid node or node metrics lists"; otherwise `mx` gains PercCPU and PercMEM of the summed usage over the summed allocatable, or the first conversion error |
| Metrics.GetPodStatus | cluster-service/src/utils/common_utils.py:168-185 | "Failed" when the namespace cannot be read, "Creating" when the pod `<name>-0` cannot, otherwise the phase stored for that pod, whatever it is ("Running", "Pending", "Failed", "Succeeded", "Unknown", ...) |
| Metrics.FailedStatusAmbiguous | cluster-service/src/utils/common_utils.py:172-181 | a readable namespace whose pod has failed gives the same "Failed" as an unreadable namespace |
| HostCheck.Upsert | cluster-service/src/utils/common_utils.py:50-52 | writing a host's row keeps ids distinct, replaces an existing row in place and appends a new one |
| HostCheck.LoadOf | cluster-service/src/utils/common_utils.py:39-52 | a secret's row carries its id and the cluster load of its nodes; a failing load is the secret's error |
| HostCheck.Gather | cluster-service/src/utils/common_utils.py:23-53 | the gathered rows have distinct ids, exactly the secrets' ids |
| HostCheck.GatherErrPersists | cluster-service/src/utils/common_utils.py:24-61 | an error in one secret ends the whole gathering with that error |
| HostCheck.RepeatedHostKeepsPlaceTakesLastLoad | cluster-service/src/utils/common_utils.py:50-52 | a repeated host id keeps the position of its first secret and the load of its last |
| HostCheck.TwoHostsInOrder | cluster-service/src/utils/common_utils.py:24-52 | two distinct hosts appear in secret order |
| HostCheck.GatherStep | cluster-service/src/utils/common_utils.py:24-52 | one more secret upserts its row into the rows gathered so far |
| HostCheck.GatherLoads | cluster-service/src/utils/common_utils.py:22-61 | the secret loop computes `Gather` |
| HostCheck.CheckHostCluster | cluster-service/src/usecases/use_cases.py:211-231 | 200 with the chosen host exactly when one is chosen, 404 exactly when none is, 500 exactly when gathering the loads failed (the truthy error dict then raises on lookup) |
| HostCheck.ChosenHostWasAskedAbout | cluster-service/src/utils/common_utils.py:54-56 | a chosen host is one of the secrets' ids and is under both thresholds |
| Manifests.QuotaCarriesPlan | cluster-service/src/utils/cluster_utils.py:76-106 | the generated quota is named after the plan, lives in the namespace, has exactly the eight hard limits and gives the plan back |
| Manifests.QuotaForIsInjective | cluster-service/src/utils/cluster_utils.py:76-106 | two different plans never give the same quota |
| Manifests.GeneratedObjectsFit | cluster-service/src/utils/cluster_utils.py:8-73 | the custom resource refers to the generated vcluster, which serves the host, runs the requested version and has no resource version |
| Manifests.ClusterRefersOnlyToItsOwnName | cluster-service/src/utils/cluster_utils.py:52-73 | the custom resource refers only to the vcluster of its own name and namespace |
| ClusterUtils.CreateNamespace | cluster-service/src/utils/cluster_utils.py:109-138 | a namespace that exists is deleted and awaited first; without API errors the namespace ends up fresh and empty; no error is a 404; no other namespace changes |
| ClusterUtils.WaitForNamespaceDeletion | cluster-service/src/utils/cluster_utils.py:141-158 | polls until the namespace is gone (404), advancing the clock to its deletion; any other read error is returned unchanged |
| ClusterUtils.ErrorMessage | cluster-service/src/utils/cluster_utils.py:177-178 | the error text starts "An error occurred: " |
| ClusterUtils.MergeLabels | cluster-service/src/utils/cluster_utils.py:169 | the patch adds the labels, overwrites keys it names and keeps the others |
| ClusterUtils.MergeLabelsIdempotent | cluster-service/src/utils/cluster_utils.py:169 | applying the same label patch twice equals applying it once |
| ClusterUtils.AddLabelsToStatefulSet | cluster-service/src/utils/cluster_utils.py:161-178 | succeeds exactly when the read and patch succeed, and then the stateful set's labels are merged; a failure changes nothing and reports the error text |
| ServiceSubscription.ParseSubscriptionJson | cluster-service/src/models/subscription.py:43-62 | parsing succeeds exactly when every required key is present; otherwise the KeyError names the first missing key |
| ServiceSubscription.ParseToJson | cluster-service/src/models/subscription.py:32-62 | a plan written as JSON with the keys the parser reads is parsed back unchanged |
| ServiceSubscription.ExtraKeysIgnored | cluster-service/src/models/subscription.py:43-62 | keys the parser does not read do not affect the result |
| ServiceSubscription.CorrectSpellingRejected | cluster-service/src/models/subscription.py:57 | a document that spells the key `persistent_vol_claims` instead of the misspelt `persistance_vol_claims` is rejected |
| ServiceSubscription.VolumeClaimKeyMissing | cluster-service/src/models/subscription.py:53-57 | with the first four keys present and the volume-claim key absent, the error names that key |
| UseCases.NamespaceForInjective | cluster-service/src/usecases/use_cases.py:34 | two clusters with different names get different "-vcluster" namespaces |
| UseCases.WaitForServiceCreation | cluster-service/src/usecases/use_cases.py:392-404 | polls every 5 ticks until the service is readable; a non-404 error is raised; within enough polls a service that appears is found |
| UseCases.WaitForStsPodReadiness | cluster-service/src/usecases/use_cases.py:406-425 | Ready exactly when all the pods run; TimedOut only after more than 300 ticks; a failing list reports "An error occurred: "; the clock advances by at most 305; on Ready, when the StatefulSet exists and its read and patch do not fail, its template labels gain the status-controller labels and it gets a new resource version; in every other case the StatefulSets are unchanged |
| UseCases.StartStopToggle | cluster-service/src/usecases/use_cases.py:247-295 | start sets 0 replicas to 1 and stop sets any to 0; repeating either is reported "already"; stop after start and start after stop toggle |
| UseCases.NegativeReplicasUntouched | cluster-service/src/usecases/use_cases.py:247-295 | a negative replica count is left as it is and reported "starting"/"stopping" |
| UseCases.StartCluster | cluster-service/src/usecases/use_cases.py:233-260 | reads the stateful set and writes its replicas as `ReplicasAfterStart` says; errors change nothing |
| UseCases.StopCluster | cluster-service/src/usecases/use_cases.py:275-300 | the same for stopping |
| UseCases.DeleteCluster | cluster-service/src/usecases/use_cases.py:302-316 | succeeds with (204, "cluster deleted") exactly when the namespace exists and the delete call works, and then the namespace starts terminating |
| UseCases.PlanUpgradeLeavesOnlyNewQuota | cluster-service/src/usecases/use_cases.py:331-340 | deleting every previously listed quota leaves only the newly created one |
| UseCases.DeleteQuotaReportingErrors | cluster-service/src/usecases/use_cases.py:335-340 | one quota deletion removes the named quota, or changes nothing when the call fails |
| UseCases.DeleteListedQuotas | cluster-service/src/usecases/use_cases.py:331-340 | the deletion loop leaves exactly the quotas whose names were not listed |
| UseCases.UpdateClusterPlan | cluster-service/src/usecases/use_cases.py:318-346 | a plan that does not parse changes nothing; otherwise the new quota is created and the old ones deleted, leaving just the new one |
| UseCases.StageObjects | cluster-service/src/usecases/use_cases.py:81-100 | creates the namespace, the custom resource, the vcluster and the quota; when none of the namespace, Cluster, VCluster and quota calls fails it succeeds; other namespaces are not touched |
| UseCases.ProvisionNew | cluster-service/src/usecases/use_cases.py:81-109 | the create path: on success the namespace holds the generated objects and an ingress; errors are server errors or a timeout; when the staging calls, the service read and the ingress create do not fail and the polls outlast the service delay it succeeds, whatever the readiness wait reports |
| UseCases.ExposeAndAwait | cluster-service/src/usecases/use_cases.py:100-109 | waits for the service, creates the ingress and waits for the pods; succeeds when the service read and the ingress create do not fail and the polls outlast the service delay, whatever the readiness wait reports |
| UseCases.CreateClusterUseCase | cluster-service/src/usecases/use_cases.py:27-109 | a plan that does not parse is a KeyError, and only then; a lookup error other than 404 is a server error with nothing changed; an existing vcluster is replaced in place and the reply is "vcluster updated successfully" when the replace and the service read do not fail and the service is due within the polls; a missing one is provisioned from scratch and the reply is "vcluster created successfully" when the staging, service and ingress calls do not fail and the polls outlast the service delay |
| Kubeconfig.FirstPresentIndex | cluster-service/src/usecases/use_cases.py:122-135 | the first index whose value is present and non-empty |
| Kubeconfig.FirstPresent | cluster-service/src/usecases/use_cases.py:122-135 | nothing exactly when no entry is present; otherwise a present entry of the list |
| Kubeconfig.FirstPresentConcat | cluster-service/src/usecases/use_cases.py:122-135 | the first present value of a concatenation comes from the first part when it has one |
| Kubeconfig.FindFirstPresent | cluster-service/src/usecases/use_cases.py:122-127 | the loop with `break` finds `FirstPresent` |
| Kubeconfig.ServerAndCaFromDifferentEntries | cluster-service/src/usecases/use_cases.py:122-135 | the server and the CA data can come from different cluster entries |
| Kubeconfig.ProvisionAccess | cluster-service/src/usecases/use_cases.py:150-184 | creates the service account, the role and the binding; succeeds exactly when none of the calls fails |
| Kubeconfig.GenerateKubeconfig | cluster-service/src/usecases/use_cases.py:111-209 | reads the secret, provisions access when the account is missing, requests a token for the asked expiry, and replies with cluster, CA, token and server |
| Duration.MatchAt | cluster-api/utills/common_utills.py:23-24 | the pattern matches at the start exactly when a non-empty digit run is followed by 'h' or 'm' |
| Duration.ExtractTimeComponents | cluster-api/utills/common_utills.py:13-38 | a value exactly when the pattern matches, and then a non-negative multiple of 60 |
| Duration.HoursGroup | cluster-api/utills/common_utills.py:27-28 | after "<d>h" the hours group holds d |
| Duration.HoursForm | cluster-api/utills/common_utills.py:29-35 | "<d>h…" is d*3600 seconds |
| Duration.MinutesGroup | cluster-api/utills/common_utills.py:27-28 | "<d>m…" fills only the fourth group |
| Duration.MinutesForm | cluster-api/utills/common_utills.py:29-35 | "<d>m…" is d*60 seconds, as written and corrected |
| Duration.RenderedHoursAndMinutes | cluster-api/utills/common_utills.py:23-35 | the decimal rendering of n followed by "h" or "m" is n hours or n minutes |
| Duration.HourExamples | cluster-api/utills/common_utills.py:23-35 | "2h" and "2hours" are 7200 |
| Duration.HourAndMinutesExample | cluster-api/utills/common_utills.py:29-35 | "1h20m" is 3600 as written |
| Duration.MinuteExamples | cluster-api/utills/common_utills.py:23-35 | "45m" is 2700, "90m" is 5400, trailing text is ignored |
| Duration.RejectedExamples | cluster-api/utills/common_utills.py:36-38 | "", "abc" and "h5" do not match |
| Duration.CombinedFormDropsMinutes | cluster-api/utills/common_utills.py:29-35 | as written, "<h>h<m>m" counts the hours only |
| Duration.TimeComponents | cluster-api/utills/common_utills.py:13-38 | the corrected parse: same match, a non-negative multiple of 60 |
| Duration.MatchOfCombinedForm | cluster-api/utills/common_utills.py:23-28 | "<h>h<m>m" fills the first two groups |
| Duration.CombinedFormCounted | cluster-api/utills/common_utills.py:29-35 | corrected, "<h>h<m>m" is h*3600 + m*60 |
| Duration.CorrectionOnlyTouchesCombinedForm | cluster-api/utills/common_utills.py:29-35 | whenever the minutes-after-hours group is empty, the corrected and the written parse agree |
| ClusterSchema.MatchesTailIff | cluster-api/schemas/cluster_schema.py:45-49 | the `$`-anchored character class accepts name characters with at most one final newline |
| ClusterSchema.PatternIff | cluster-api/schemas/cluster_schema.py:45-49 | the name pattern is a letter, digit, '-' or '_' run, optionally followed by one newline |
| ClusterSchema.IsValidUrlName | cluster-api/schemas/cluster_schema.py:35-51 | a name is valid exactly when it is present, 1 to 255 characters long and matches the pattern; a message is given exactly when it is invalid |
| ClusterSchema.CheckOrder | cluster-api/schemas/cluster_schema.py:37-49 | the empty message comes before the length one, and the length one before the pattern one |
| ClusterSchema.NameExamples | cluster-api/schemas/cluster_schema.py:41-49 | 255 characters pass and 256 fail; a leading digit, '-' or '_' is accepted |
| ClusterSchema.NewlineExamples | cluster-api/schemas/cluster_schema.py:45-49 | one trailing newline is accepted; two are not, nor is a space |
| ClusterSchema.ClustersSerializer | cluster-api/schemas/cluster_schema.py:12-32 | succeeds exactly when the eight stored keys are present, else names the first missing one; the output's keys include the misspelt "stauts" |
| ClusterSchema.Serialized | cluster-api/schemas/cluster_schema.py:22-31 | renames `_id` to id and status to "stauts" and copies the other six fields |
| Plans.IsSubscriptionUpgrade | cluster-api/models/subscription.py:24-42 | an upgrade exactly when some one of the eight counts grows |
| Plans.SameCountsNotAnUpgrade | cluster-api/models/subscription.py:24-42 | equal counts are no upgrade |
| Plans.LoweringIsNotRaisingIs | cluster-api/models/subscription.py:24-42 | raising any count is an upgrade; lowering or keeping all of them is not |
| Plans.NotAntisymmetric | cluster-api/models/subscription.py:24-42 | two plans can each be an upgrade of the other |
| Plans.OnlyCountsMatter | cluster-api/models/subscription.py:24-42 | names and ids do not affect the answer |
| UserSchema.UserFromKeycloakDict | cluster-api/schemas/user_schema.py:11-18 | each field is the claim when present, else its default; name falls back to preferred_username |
| UserSchema.UserFromUserDict | cluster-api/schemas/user_schema.py:21-28 | each field is the stored field when present, else its default; name falls back to userName |
| UserSchema.UserDocRoundTrip | cluster-api/schemas/user_schema.py:21-28 | a user stored as a document reads back unchanged |
| UserSchema.PresentEmptyValueWins | cluster-api/schemas/user_schema.py:11-28 | `.get` prefers a present empty value over the fallback; an empty dict gives the defaults |
| Middleware.PublicRouteExamples | cluster-api/middleware/middleware.py:34-45 | public paths are matched exactly, so the websocket template matches no real path |
| Middleware.BearerToken | cluster-api/middleware/middleware.py:63-69 | a token exactly when the header starts "Bearer "; the token follows it, holds no further "Bearer ", and ends at the end of the header or where the next "Bearer " starts |
| Middleware.BearerTokenRoundTrip | cluster-api/middleware/middleware.py:63-69 | a token without "Bearer " in it is read back whole |
| Middleware.SecondBearerCutsToken | cluster-api/middleware/middleware.py:63-69 | a second "Bearer " cuts the token; lower-case or empty headers give none |
| Middleware.UserByEmail | cluster-api/middleware/middleware.py:133-155 | the first stored user with the e-mail, or none exactly when there is none |
| Middleware.CheckUser | cluster-api/middleware/middleware.py:133-155 | the stored user found by e-mail, or a new user built from the claims and appended; a missing e-mail or a taken `_id` fails |
| Middleware.StoredUserFoundAgain | cluster-api/middleware/middleware.py:133-155 | a user stored on a first request is found and read back the same on the next |
| Middleware.SidlessUsersCollide | cluster-api/schemas/user_schema.py:14 | two tokens without "sid" get the same default id |
| Middleware.ValidateKeycloakToken | cluster-api/middleware/middleware.py:49-89 | public paths pass; a bad header is a 401; expired, invalid and failing tokens get 401, 401 and 500; a valid token without "email" is a 500; a known e-mail forwards the stored user; an unknown one forwards the user built from the claims and appends it, or is a 500 when its `_id` is taken; the users change only by that append |
| ClusterRoutes.ParseInts | cluster-api/routes/cluster.py:109-110 | `map(int, …)` succeeds exactly when every part is an integer, giving them in order |
| ClusterRoutes.ParseVersion | cluster-api/routes/cluster.py:109-110 | a version parses only when it has a 'v', and has at least one part |
| ClusterRoutes.LexLeTotal | cluster-api/routes/cluster.py:112 | Python's list `<=` is total |
| ClusterRoutes.LexLeAntisymmetric | cluster-api/routes/cluster.py:112 | list `<=` both ways means equal |
| ClusterRoutes.LexLeReflexive | cluster-api/routes/cluster.py:112 | every list is `<=` itself |
| ClusterRoutes.PrefixIsBelow | cluster-api/routes/cluster.py:112 | a proper prefix is strictly below its extension |
| ClusterRoutes.UpgradeIsStrictOrder | cluster-api/routes/cluster.py:112-113 | an upgrade differs from the current version and is not reversible; of two different versions one is an upgrade of the other |
| ClusterRoutes.ExtensionIsUpgrade | cluster-api/routes/cluster.py:112 | adding parts is an upgrade |
| ClusterRoutes.VersionOfParts | cluster-api/routes/cluster.py:109-110 | "v" plus digit parts joined by '.' parses to those parts' values |
| ClusterRoutes.NumericVersion | cluster-api/routes/cluster.py:109-110 | a rendered version parses to its numbers |
| ClusterRoutes.Version1_9_0 | cluster-api/routes/cluster.py:109-110 | "v1.9.0" is [1, 9, 0] |
| ClusterRoutes.Version1_10_0 | cluster-api/routes/cluster.py:109-110 | "v1.10.0" is [1, 10, 0] |
| ClusterRoutes.Version1_30 | cluster-api/routes/cluster.py:109-110 | "v1.30" is [1, 30] |
| ClusterRoutes.Version1_30_0 | cluster-api/routes/cluster.py:109-110 | "v1.30.0" is [1, 30, 0] |
| ClusterRoutes.VersionGateExamples | cluster-api/routes/cluster.py:112-113 | 1.9.0 to 1.10.0 and 1.30 to 1.30.0 are upgrades; same or lower versions are not |
| ClusterRoutes.VersionWithoutPrefixRaises | cluster-api/routes/cluster.py:109-110 | "1.30.0" without 'v' fails to parse |
| ClusterRoutes.SplitVersionText | cluster-api/routes/cluster.py:109-110 | splitting "v" + t on 'v' gives ["", t], and t on '.' gives its parts |
| ClusterRoutes.SplitJoin | cluster-api/routes/cluster.py:109-110 | splitting parts joined by a separator they lack gives them back |
| ClusterRoutes.CreateChecks | cluster-api/routes/cluster.py:28-59 | the checks of `create_Cluster` pass exactly when role, name, uniqueness, subscription, region and placement all hold, and then yield the chosen host |
| ClusterRoutes.CreateCheckOrder | cluster-api/routes/cluster.py:33-59 | the answer is that of the first failing check, in source order, with its status and message: 403 role, 400 name, 409 duplicate, 404 subscription, 404 empty region, 404 placement unavailable, 404 chosen host outside the region or unnamed |
| ClusterRoutes.NoRealmAccessActsAsRole | cluster-api/routes/cluster.py:33-37 | a token without realm_access is treated as if it had the role |
| ClusterRoutes.NewClusterDoc | cluster-api/routes/cluster.py:63-70 | the new document holds the stored keys and serializes as the requested cluster of the user on the host |
| ClusterRoutes.SerializedFields | cluster-api/schemas/cluster_schema.py:22-31 | a serialized document's fields are its stored fields |
| ClusterRoutes.CreateCluster | cluster-api/routes/cluster.py:27-100 | a failed check changes nothing and answers as the check says; otherwise the cluster is inserted and announced |
| ClusterRoutes.InsertAndAnnounce | cluster-api/routes/cluster.py:71-100 | inserts the document; publishes "cluster-create" with it, or answers 500 when publishing raises |
| ClusterRoutes.UpdateChecks | cluster-api/routes/cluster.py:105-121 | passes with the cluster, its host and its subscription exactly when it exists, the version is an upgrade and both lookups succeed; a missing cluster, a missing host and a missing subscription get their 404s; a missing or non-string stored version raises |
| ClusterRoutes.VersionCheckedBeforeLookups | cluster-api/routes/cluster.py:112-117 | a non-upgrade is refused before the host and the subscription are looked up |
| ClusterRoutes.SameVersionRefused | cluster-api/routes/cluster.py:112-113 | requesting the current version is refused |
| ClusterRoutes.Upgraded | cluster-api/routes/cluster.py:123-126 | the update sets kube_version and "Updating" and keeps the other fields |
| ClusterRoutes.UpdateCluster | cluster-api/routes/cluster.py:102-150 | the route's answers for each check; on success the document is upgraded and the event published |
| ClusterRoutes.ConfigRequestFor | cluster-api/routes/cluster.py:155-175 | the expiry is read by `extract_time_components` as written: unparsable is a 400 "Incorrect expiration time format", under 600 seconds a 400 "Expiration time shouldn't be less than 10 min", an unknown cluster a 404, a cluster without a name or host raises; the request is sent exactly when the expiry parses to at least 600 and the cluster exists with a name and a host, and then carries them |
| ClusterRoutes.GenerateKubeConfig | cluster-api/routes/cluster.py:152-190 | a kubeconfig file exactly when the request passes the as-written checks and the service replies; a failed check is answered with that check's error; a service reply other than 200 is a 500 |
| ClusterRoutes.ExpiryRefused | cluster-api/routes/cluster.py:155-161 | "9m" is too short, and "abc" has an incorrect format |
| ClusterRoutes.TenMinutesAccepted | cluster-api/routes/cluster.py:158-161 | "10m" is exactly enough |
| ClusterRoutes.CombinedExpiryAsWritten | cluster-api/routes/cluster.py:155-161 | the route asks for 3600 seconds for "1h20m" and refuses "0h20m" as shorter than ten minutes |
| ClusterRoutes.DeleteCluster | cluster-api/routes/cluster.py:369-401 | 404 for an unknown cluster or host; otherwise the document is deleted and "cluster-delete" published, or 500 when publishing raises |
| UserRoutes.TokenVerify | cluster-api/routes/user.py:120-148 | succeeds exactly when the claims have realm roles including "create-cluster" and a "sub"; every failure is the same 500 |
| UserRoutes.TokenVerifyNeverForbids | cluster-api/routes/user.py:127-148 | the 403 is never returned; a token without realm_access fails too |
| UserRoutes.Decide | cluster-api/routes/user.py:170-190 | join when the user has no groups, "already requested" exactly when the request group is among them, else "already approved" |
| UserRoutes.SubscriptionRequest | cluster-api/routes/user.py:157-206 | answers per `Decide`; only a granted request changes the memberships, adding the request group; lookup failures answer 500 |
| UserRoutes.RequestGrantedOnce | cluster-api/routes/user.py:170-190 | after joining, the next request is "already requested"; an approved user is never moved |
| PublicRoutes.OwnerOf | cluster-api/routes/public.py:79-83 | the top-level user_id when present, else the id of a "user" dict, else none |
| PublicRoutes.NotificationSent | cluster-api/routes/public.py:86-99 | the reported flag is never truthy; it is False exactly when there is no truthy owner |
| PublicRoutes.UpdateClusterStatus | cluster-api/routes/public.py:39-120 | 400 for a missing id or status, 404 for an unknown cluster; otherwise status and updated_at are written and the reply reports the notification, or 500 for an unhashable owner |
| PublicRoutes.OwnerPrecedence | cluster-api/routes/public.py:79-83 | an empty top-level user_id wins over "user" and notifies nobody |
| ApiStore.Database.Publish | cluster-api/routes/cluster.py:383-393 | publishing appends the event unless the bus raises, and changes no collection |
| Values.Show | cluster-api/routes/cluster.py:121 | an f-string shows a string as itself and an integer as digits that parse back to it |
| Text.ParseInt | cluster-service/src/utils/common_utils.py:151 | `int()` accepts exactly an optionally signed run of ASCII digits |
| Text.ParseIntToString | cluster-service/src/utils/common_utils.py:151 | `int(str(n)) == n` |
| Text.Split | cluster-api/routes/cluster.py:109 | `str.split` gives at least one part, none holding the separator |
| Text.JoinSplit | cluster-api/routes/cluster.py:109 | joining the parts of a split gives the string back |
| ClusterStatus.Step | cluster-status/main.go:84-101 | the three empty cases keep the previous status; "CrashLoopBackOff" gives itself, any other waiting reason "Pending", Running "Running", Terminated "Stopped", and a container with no state "Failed" (the only new source of "Failed") |
| ClusterStatus.ContainerStatus | cluster-status/main.go:80-102 | the container loop computes `DeriveStatus` |
| ClusterStatus.LastDeciding | cluster-status/main.go:80-102 | the last container whose state is not one of the ignored ones |
| ClusterStatus.StatusFromLastDeciding | cluster-status/main.go:80-102 | the status is set by the last deciding container alone, and is "" when there is none |
| ClusterStatus.StatusIsKnown | cluster-status/main.go:80-102 | the status is "" or one of the five strings |
| ClusterStatus.IgnoredKeepsStatus | cluster-status/main.go:86-91 | an ImagePullBackOff, OOMKilled or ContainerConfigError wait changes nothing |
| ClusterStatus.Payload | cluster-status/main.go:264-269 | the patch body holds name, id, status and Node "Node1" |
| ClusterStatus.ReportFor | cluster-status/main.go:76-104 | a pod is reported exactly when it carries both labels, with its name, its "status-controller" label and its derived status |
| ClusterStatus.Sync | cluster-status/main.go:60-111 | a sync fails exactly when fetching fails; a found pod is reported as `ReportFor` says |
| ClusterStatus.ReportExamples | cluster-status/main.go:76-78 | pods missing either label are not reported |
| ClusterStatus.HandleErrSpec | cluster-status/main.go:114-137 | success forgets the key; a failure with under 5 requeues requeues it; otherwise it is dropped and forgotten; other keys are unchanged |
| ClusterStatus.FailuresWithinBudget | cluster-status/main.go:124-130 | up to 5 failures in a row are each requeued |
| ClusterStatus.SixthFailureDrops | cluster-status/main.go:124-137 | the sixth failure in a row drops the key |
| ClusterStatus.ReplayAppend | cluster-status/main.go:114-137 | replaying outcomes one by one is handling each in turn |
| ClusterStatus.RetryQueue.HandleErr | cluster-status/main.go:114-137 | the queue moves to `HandleErrSpec` of its state |
| ClusterStatus.NodeCondition | cluster-status/main.go:242-252 | one of Ready, NotReady, Unknown; Unknown exactly when no condition has kind Ready |
| ClusterStatus.GetNodeCondition | cluster-status/main.go:242-252 | the loop returns at the first Ready condition, Ready exactly when its status is True |
| ClusterStatus.FirstReadyWins | cluster-status/main.go:243-251 | a later Ready condition is ignored |

## Left out

- **I/O and foreign calls are parameters, not modelled:**
  - Vault reads, base64 decoding, temporary files, `load_kube_config`;
  - the HTTP calls between the services;
  - Keycloak token decoding and group administration beyond a membership map;
  - WebSocket delivery;
  - logging.
- **Kubernetes API replaced.** `KubeApi.ControlPlane` and `Kubeconfig.VirtualCluster` stand in for the Kubernetes client libraries: each call either succeeds as described or fails with a fixed injected error.
- **Informers and the workqueue timing.** Informers, the watch loop, and the rate limiter's delays and concurrency are not modelled; the queue is modelled by its requeue counts only.
- **Floating point.** Python floats are modelled as exact reals, so IEEE rounding in `to_percentage`, the conversions and the threshold comparisons is not modelled. `float('inf')` is modelled as "no best yet".
- **Python `int()`.** It is modelled on ASCII digits with an optional sign; surrounding whitespace, underscores and non-ASCII digits are not accepted.
- **Regex `\d`.** It is modelled as ASCII digits only.
- **Dead code.** The code after the return in cluster-service/src/usecases/use_cases.py:427-527 is dead and not modelled. The second `delete_vcluster_usecase` at :528 shadows the first at import time; the model follows the first definition (:302-316). As written the later definition takes no argument, while cluster-service/src/controller/routes.py:89 passes one; that call is not modelled.
- `Metrics.GetPodStatus`: a pod whose phase is `None` is not modelled; every pod of the model has a string phase.
- `UseCases.WaitForServiceCreation` takes a `polls` bound (fuel). The source polls forever, so a service that never appears is modelled as giving up after `polls` rounds.
- **Kubeconfig file.** The kubeconfig file template and its formatting are not part of this model; the route's reply carries the values the template is filled with.
- **Claims.** Token claims are modelled as string values plus an optional roles list. A `realm_access` without "roles" raises in the source and is modelled as no realm access.
- `Values.Show` renders a dict or a list by its opening bracket only, not by Python's full `repr`; JSON floats are not part of the value model.
- **`kube_version`.** A null or non-string `kube_version` is modelled as failing to parse.
- **Pydantic models.** cluster-api/models/cluster.py and the request DTOs are not part of this model beyond the fields the routes read.
- `ClusterRoutes.DeleteCluster`: the `vanished` parameter stands for a concurrent delete that makes `deleted_count` 0; which delete wins is not modelled.
- **Status patch.** The HTTP PATCH in `patchClusterStatus` is not modelled; its error is ignored by the caller, so the model records only the payload.
- **Ingress.** `create_ingress` is modelled as adding one fixed ingress object; its YAML body is left out.
- **`HTTPException` import.** `create_cluster_usecase` imports `HTTPException` from `http.client`, whose constructor rejects the keyword arguments given; the raise therefore fails with a TypeError and is modelled as a server error.
- **Routes not modelled.** The remaining routes (host clusters, kube versions, subscriptions listing, websocket management, seeding) and the UI are not part of this model.

## Findings

| source | as written | input that shows it | evidently intended | confidence | as-written member | corrected member |
|---|---|---|---|---|---|---|
| cluster-api/utills/common_utills.py:29-35 | with both an hours and a minutes group matched, only the hours are counted | "1h20m" gives 3600 seconds | 4800 seconds (1 hour 20 minutes) | not executed | Duration.CombinedFormDropsMinutes | Duration.CombinedFormCounted |

The routes of the model (`ClusterRoutes.ConfigRequestFor` and
`ClusterRoutes.GenerateKubeConfig`) use the parse as written, as the source
does: `ClusterRoutes.CombinedExpiryAsWritten` shows the route asking for 3600
seconds for "1h20m" and refusing "0h20m". The corrected parse is
`Duration.TimeComponents`; it is proved against its intended meaning but no
route uses it.
`Duration.CorrectionOnlyTouchesCombinedForm` shows the correction changes
nothing for any other input.
