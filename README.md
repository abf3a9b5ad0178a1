# hikaru reconciliation engine in Dafny

hikaru deploys a cluster specification to Kubernetes and keeps it there.
This project models the core of that reconciliation engine and proves properties of it:

- **Structural diff.** The JSON diff is computed between a live object and its desired manifest.
  It compares units, skips `hostPath.type` and echoes `name`.
  The copy the controllers use is in `src/k8s/specDiff.js`; an older copy is in `src/specDiff.js`.
  The diff is then classified by `canPatch`, `canReplace` and `isBackoffOnly`.
- **Per-kind controllers** (`src/k8s/*.js`). Each controller gets the object and diffs it.
  It then keeps, patches, replaces, or deletes and recreates the object, and polls for readiness with a growing delay.
- **The orchestration of a cluster**:
  - `src/cluster.js`: the per-service create and delete chains, the ordering of levels, reserved namespaces, container choice, `match`, and upgrade candidates;
  - `lib/index.js`: the kubectl-based `deploy` and `run`.
- **Image tags**: parsing them (`src/imageParser.js`) and comparing them (`src/imageComparer.js`).
- **Smaller pieces**:
  - the alias cache with its Base64 credentials (`src/aliasCache.js`);
  - the load-balancer filter and export table of `src/k8s/index.js`;
  - `getContainersFromSpec` (`src/k8s/core.js`);
  - the namespace manifest (`lib/resources.js`).

JSON is a datatype with exact decimal numbers; a JavaScript `undefined` is `None`.
JavaScript's loose `==`, strict `===`, truthiness and lodash `isEqual` and `isEmpty` are explicit functions (`json.dfy`).

The Kubernetes API server is `Platform.Store`, a class holding a map from object key to object.
It also holds a table of the calls the server refuses, with their error messages, and a trace of the requests made.
Each controller operation is specified by a pure function of the old map (`Controllers.ApplyEffect`, `Controllers.RemoveEffect`, `Controllers.UpgradeEffect`).
A method implements the operation against the store and is proved equal to that function.

A readiness wait is a pure function over a finite feed of observations.
The source polls without any attempt bound, so the length of the feed plays the part of fuel:
a wait that has not settled when the feed runs out is `Pending`.

The cluster and deploy orchestration issue calls against a client class.
The client logs every call, and an oracle (a function value) says how each call settles: it resolves, rejects, or never settles.
A stateful set's upgrade that was patched never resolves, whatever the oracle says.
Each method is proved to produce exactly the trace (the result and the calls issued) that a specification function computes.
Calls that the source starts together under `Promise.all` are issued one after another, in the order the source starts them.

Several behaviours are modelled exactly as coded, and lemmas state them:

- `deleteServicesInLevel` removes only the services of reserved namespaces, as it does for configuration maps; unreserved namespaces are deleted whole beforehand (`Cluster.UnreservedLevelUntouched`).
- `upgradeStatefulSet` waits for an outcome its check never accepts (`Readiness.StatefulSetUpdateNeverSettles`), so upgradeResources never resolves with a stateful set to upgrade (`Upgrades.StatefulSetNeverResolves`).
- `checkManifest` reads `manifest.metdata`, so a manifest controller never settles after a call (`Controllers.ManifestResolvesOnlyWithoutCalls`).
- `patchDaemonSet` is exported but bound to nothing (`K8s.ExportsWellWired`).
- `listRoles` concatenates list objects and so always rejects (`Controllers.ListRolesRejects`).
- A password containing ':' is cut by the alias cache (`AliasCache.PasswordWithColonIsCut`).

## Model

| member | source | states |
|---|---|---|
| `SpecDiff.ParseFloatOfNat` | src/k8s/specDiff.js:183-194 | `parseFloat` of a decimal numeral reads back that integer |
| `SpecDiff.PercentageOf` | src/k8s/specDiff.js:5-6 | 'N%' matches the percentage pattern with value N and not the milli pattern |
| `SpecDiff.MilliOf` | src/k8s/specDiff.js:5-7 | 'Nm' matches the milli pattern with value N, and neither the percentage nor the whole-number pattern |
| `SpecDiff.ScalarDiff` | src/k8s/specDiff.js:183-200 | the scalar branch reports either nothing or the whole desired value |
| `SpecDiff.SimpleDiff` | src/k8s/specDiff.js:147-202 | an object diff throws or is an object whose keys are among the desired keys; a scalar diff is nothing or the desired value |
| `SpecDiff.Entries` | src/k8s/specDiff.js:162-177 | the entries computed are only for keys the for-in visits (desired keys not on the ignore list) |
| `SpecDiff.ObjectDiff` | src/k8s/specDiff.js:162-181 | the object branch throws or returns an object keyed within the desired keys |
| `SpecDiff.Elements` | src/k8s/specDiff.js:148-161 | the array branch computes one sub-diff per remaining desired element |
| `SpecDiff.NonEmpty` | src/k8s/specDiff.js:155-160 | the filter keeps exactly the sub-diffs that are non-empty values, and never more entries than it is given |
| `SpecDiff.NonEmptyKeepsOrder` | src/k8s/specDiff.js:155-160 | the filter keeps order: filtering a concatenation concatenates the filtered parts, and one result is kept exactly when it is a non-empty value |
| `SpecDiff.Unmatched` | src/k8s/specDiff.js:45-52 | the kept elements are exactly the desired elements that deep-equal no live element |
| `SpecDiff.PushUnmatchedIsFilter` | src/k8s/specDiff.js:47-52 | the reduce that pushes unmatched elements equals the accumulator followed by the filter of unmatched elements |
| `SpecDiff.ComplexElements` | src/k8s/specDiff.js:58-64 | the array map of complexDiff has one result per remaining desired element |
| `SpecDiff.DiffScoped` | src/k8s/specDiff.js:147-181 | every part of a simple diff comes from the desired document, at the same path |
| `SpecDiff.EntryScoped` | src/k8s/specDiff.js:168-175 | each object entry of the diff lies within the desired value at that key |
| `SpecDiff.ElementsScoped` | src/k8s/specDiff.js:148-161 | each array sub-diff lies within the desired element at that index |
| `SpecDiff.HostPathTypeIgnored` | src/k8s/specDiff.js:11-13 | under a `hostPath` parent a desired `type` never appears in the diff |
| `SpecDiff.SelfDiffEmpty` | src/k8s/specDiff.js:147-202 | a document diffed against itself gives `{}` for objects and nothing otherwise |
| `SpecDiff.MissingKeyCopied` | src/k8s/specDiff.js:169-170 | a desired key that is missing or null in the live object is copied whole into the diff |
| `SpecDiff.NameEchoed` | src/k8s/specDiff.js:178-180 | a non-empty object diff carries the desired `name` when it strictly equals the live one |
| `SpecDiff.DiffEntriesKept` | src/k8s/specDiff.js:174 | every entry of an object diff passes the filter: no falsy primitive and no empty object or array |
| `SpecDiff.FalsyChangeDropped` | src/k8s/specDiff.js:174 | a desired change to 0, false, '' or null is never reported |
| `SpecDiff.PercentAgainstMilli` | src/k8s/specDiff.js:183-188 | desired 'N%' against live 'Mm' is no change exactly when M = 10·N |
| `SpecDiff.MilliAgainstWhole` | src/k8s/specDiff.js:189-194 | desired 'Nm' against a live whole number D is no change exactly when N = 1000·D |
| `SpecDiff.MilliAgainstPlainDiffers` | src/k8s/specDiff.js:195-199 | the unit rules are one-directional: live '1000m' against desired '1' is a change |
| `SpecDiff.ExampleMilliPercent` | src/k8s/specDiff.js:183-188 | live '1000m' against desired '100%' is no change |
| `SpecDiff.ExampleWholeMilli` | src/k8s/specDiff.js:189-194 | live '1.5' against desired '1500m' is no change |
| `SpecDiff.ComplexArrayUnmatched` | src/k8s/specDiff.js:45-52 | for more than one desired element, complexDiff keeps exactly the unmatched ones, in order |
| `SpecDiff.ComplexEmptyArrayThrows` | src/k8s/specDiff.js:77 | an empty desired array under a key the live object has makes complexDiff throw on `b[c][0].name` |
| `SpecDiff.CanPatchImpliesCanReplace` | src/k8s/specDiff.js:15-42 | whenever a diff can be patched it can also be replaced |
| `SpecDiff.CanReplaceOnlyAddsService` | src/k8s/specDiff.js:15-42 | the two classifiers differ only for type 'service', so without a type the replace branch is dead |
| `SpecDiff.JobsNeverPatchedOrReplaced` | src/k8s/specDiff.js:15-16 | jobs and cron jobs are neither patchable nor replaceable, whatever the diff |
| `SpecDiff.ImagePatchIsPatchable` | src/k8s/specDiff.js:98-113 | the image patch sets no kind and no clusterIP, so it is patchable for any patchable type |
| `SpecDiff.BackoffOnlyShape` | src/k8s/specDiff.js:115-130 | a backoff-only diff has `spec` as its only key, and `{}` is never backoff-only |
| `SpecDiff.BackoffOnlyExactly` | src/k8s/specDiff.js:115-130 | the template built from the job's own limit is backoff-only; a job without a limit has no backoff-only diff |
| `LegacyDiff.LegacySimpleDiff` | src/specDiff.js:114-149 | the older diff throws or returns an object keyed within the desired keys; a scalar diff is nothing or the desired value |
| `LegacyDiff.LegacyObject` | src/specDiff.js:129-142 | the older object branch keeps only desired keys |
| `LegacyDiff.LegacyEntries` | src/specDiff.js:131-141 | the for-in accumulator only holds desired keys (no ignore list) |
| `LegacyDiff.LegacyElements` | src/specDiff.js:115-128 | the older array branch computes one sub-diff per remaining desired element |
| `LegacyDiff.SomeChanges` | src/specDiff.js:5-17 | a container search that answers true has found a container changing command, args or env |
| `LegacyDiff.SomeChangesExact` | src/specDiff.js:73-80 | over non-null containers, the search answers exactly whether some container changes command, args or env |
| `LegacyDiff.LegacyCanPatchExact` | src/specDiff.js:5-17 | with an array of non-null containers, patching is refused exactly when one changes command, args or env |
| `LegacyDiff.LegacyCanPatchWithoutContainers` | src/specDiff.js:5-17 | a diff without a containers list is patchable |
| `LegacyDiff.LegacyCanPatchNullContainer` | src/specDiff.js:5-17 | a null container met before any changing one makes canPatch throw |
| `LegacyDiff.LegacyDiffScoped` | src/specDiff.js:114-149 | every part of the older diff comes from the desired document |
| `LegacyDiff.LegacyEntryScoped` | src/specDiff.js:133-139 | each object entry of the older diff lies within the desired value at that key |
| `LegacyDiff.LegacyElementsScoped` | src/specDiff.js:115-128 | each array sub-diff of the older diff lies within its desired element |
| `LegacyDiff.LegacySelfDiffEmpty` | src/specDiff.js:114-149 | a document diffed against itself gives `{}` for objects and nothing otherwise |
| `LegacyDiff.LegacyFalsyChangeDropped` | src/specDiff.js:138 | falsy desired scalars are dropped exactly as in the controller copy |
| `LegacyDiff.LegacyHasNoUnits` | src/specDiff.js:143-148 | the older copy never compares units: live '1000m' against desired '100%' is a change |
| `Platform.MergePatch` | src/k8s/deployment.js:167-179 | a patch that is not an object replaces the target; an object patch yields an object (JSON merge patch) |
| `Platform.Store.constructor` | src/k8s/deployment.js:8-20 | the server starts with the given objects and refusals and an empty trace |
| `Platform.Store.Get` | src/k8s/deployment.js:14-16 | a get answers from the map, changes nothing and is recorded in the trace |
| `Platform.Store.Create` | src/k8s/deployment.js:18-20 | a create adds a missing, unrefused object and fails on an existing one |
| `Platform.Store.Patch` | src/k8s/deployment.js:167-179 | a patch merges the diff into an existing object |
| `Platform.Store.Update` | src/k8s/deployment.js:153-165 | an update replaces an existing object with the body |
| `Platform.Store.Delete` | src/k8s/deployment.js:102-120 | a delete removes an existing object and fails on a missing one |
| `Platform.ServeTouchesOnlyItsKey` | src/k8s/deployment.js:14-20 | a request changes only the object it names; gets and failed requests change nothing |
| `Platform.CreateThenGet` | src/k8s/deployment.js:60-69 | create succeeds exactly on a missing, unrefused object, and a get then returns the body |
| `Platform.DeleteThenGet` | src/k8s/deployment.js:102-120 | after a successful delete the object is gone: a get fails and it can be created again |
| `Platform.MergePatchKeys` | src/k8s/deployment.js:167-179 | an object patch keeps the other keys, sets the patched ones and removes those set to null |
| `Platform.MergePatchIdempotent` | src/k8s/deployment.js:167-179 | applying the same merge patch twice is the same as applying it once |
| `Readiness.Poll` | src/k8s/deployment.js:22-55 | a wait never reads past the observations it is given |
| `Readiness.PollMeaning` | src/k8s/deployment.js:28-54 | the wait settles at the first step that does not ask again, having used the observations up to it; otherwise it is still pending after all of them |
| `Readiness.Growth` | src/k8s/deployment.js:23-24 | the growth factor 1.5^k of the delay is at least 1 |
| `Readiness.Await` | src/k8s/job.js:20-66 | for any check of one observation, the loop of timed polls settles as the step-by-step run of that check does, and sleeps the sum of the delays of its steps |
| `Readiness.PollFirstSettled` | src/k8s/deployment.js:28-54 | a wait is decided by its first step that is not "again" |
| `Readiness.PollSettlesIffSomeStepDoes` | src/k8s/deployment.js:28-54 | a wait settles within the observations exactly when some step does not ask again |
| `Readiness.FailedGetEndsOnlyDeletion` | src/k8s/deployment.js:44-51 | a failed get ends a 'deletion' wait and retries any other |
| `Readiness.DeploymentReadiness` | src/k8s/deployment.js:34-39 | 'creation' needs a ready replica, 'updated' an updated and a ready one, 'deletion' any phase but Terminating |
| `Readiness.StatefulSetUpdatedNeedsOnlyReady` | src/k8s/statefulSet.js:46-49 | a stateful set's 'updated' wait needs only a ready replica |
| `Readiness.StatefulSetUpdateNeverSettles` | src/k8s/statefulSet.js:198-211 | the 'update' wait of upgradeStatefulSet never settles, whatever is observed |
| `Readiness.UnknownOutcomeNeverEnds` | src/k8s/statefulSet.js:34-67 | a wait for an outcome its kind does not know never resolves or rejects |
| `Readiness.DaemonSetReadiness` | src/k8s/daemonSet.js:46-47 | creation and update are ready exactly when numberReady === desiredNumberScheduled, so an empty status is ready |
| `Readiness.JobConditions` | src/k8s/job.js:30-47 | the first condition decides: Complete/True resolves, Failed/True rejects when there is a reject; cron jobs agree |
| `Readiness.JobWithoutConditionsWaits` | src/k8s/job.js:30-31 | without conditions the examined condition is `{}`, and the wait goes on |
| `Readiness.JobWithoutRejectNeverRejects` | src/k8s/job.js:142-168 | a job wait without a reject callback never rejects; a failed job stalls it |
| `Readiness.ServiceDeletionEndsOnFailedGet` | src/k8s/service.js:35-47 | a service 'deletion' wait resolves exactly when some get fails |
| `Readiness.JobDeletionEndsOnFailedGet` | src/k8s/job.js:48-59 | a job 'deletion' wait resolves only on a failed get and never rejects |
| `Readiness.ServiceReadiness` | src/k8s/service.js:31-37 | creation and update end when status.loadBalancer is truthy |
| `Readiness.NamespaceReadiness` | src/k8s/namespace.js:13-24 | 'creation' needs phase Active, 'deletion' any phase but Terminating |
| `Readiness.DelayClosedForm` | src/k8s/deployment.js:23-27 | the delay before step k is the initial delay times 1.5^k, capped at 5000 ms for capped kinds |
| `Readiness.GrowthMonotone` | src/k8s/job.js:21-22 | the delay never shrinks from one step to a later one |
| `Readiness.CapReached` | src/k8s/statefulSet.js:35-39 | from the seventh step on, a capped delay is 5000 ms |
| `Readiness.UncappedDelay` | src/k8s/namespace.js:5-6 | jobs and namespaces grow their delay without bound, from 500 and 250 ms |
| `Controllers.Follow` | src/k8s/deployment.js:63-65 | what follows a successful call uses no more observations than it has |
| `Controllers.Send` | src/k8s/deployment.js:79-94 | one call sends exactly its request and leaves the objects as the server does |
| `Controllers.CreateEffect` | src/k8s/deployment.js:60-69 | the create path uses no more observations than it has |
| `Controllers.RemoveEffect` | src/k8s/deployment.js:102-120 | the delete path uses no more observations than it has |
| `Controllers.ChangeEffect` | src/k8s/statefulSet.js:86-111 | the change of an existing object uses no more observations than it has |
| `Controllers.ApplyEffect` | src/k8s/deployment.js:57-100 | the create-or-change operation uses no more observations than it has |
| `Controllers.UpgradeEffect` | src/k8s/deployment.js:181-194 | the upgrade uses no more observations than it has |
| `Controllers.FollowUp` | src/k8s/deployment.js:22-55 | the wait after a call settles as `Follow` says |
| `Controllers.SendTo` | src/k8s/deployment.js:153-179 | one call against the store has the effect `Send` specifies, on the objects and on the trace |
| `Controllers.Remove` | src/k8s/deployment.js:102-120 | deleting against the store has exactly the effect `RemoveEffect` specifies |
| `Controllers.Change` | src/k8s/daemonSet.js:86-111 | changing an existing object against the store has exactly the effect `ChangeEffect` specifies |
| `Controllers.Apply` | src/k8s/deployment.js:57-100 | creating against the store has exactly the effect `ApplyEffect` specifies |
| `Controllers.CreateResource` | src/k8s/deployment.js:57-100 | the create operation of every kind is the generic engine run with that kind's profile and route; a manifest without metadata, or a manifest-kind one without a string kind, throws a TypeError before any call (rejects, for the async createAccount) |
| `Controllers.Unroutable` | src/k8s/account.js:17-19 | an unroutable manifest rejects createAccount's promise, and makes every other create throw |
| `Controllers.DeleteResource` | src/k8s/service.js:102-120 | the delete operation of every kind is the generic delete with that kind's profile and route |
| `Controllers.DeleteManifest` | src/k8s/manifest.js:110-130 | deleteManifest is the generic delete, routed by the manifest itself; missing metadata throws before any call, and a kind that is not a string rejects |
| `Controllers.Upgrade` | src/k8s/daemonSet.js:200-213 | an image upgrade is the generic upgrade with the kind's profile |
| `Controllers.CreateNamespace` | src/k8s/namespace.js:34-55 | createNamespace builds the namespace manifest and applies it without a readiness wait |
| `Controllers.NamespaceNames` | src/k8s/namespace.js:78-85 | the names are the items' metadata.name in order; an item without metadata throws |
| `Controllers.DecideEmptyDiffKeeps` | src/k8s/deployment.js:75-77 | an object that already matches its manifest is left alone, whatever the rule |
| `Controllers.ThreeWayWithoutTypeNeverReplaces` | src/k8s/statefulSet.js:86-111 | without a type the replace branch is unreachable: a non-empty diff is patched, or the object recreated when it sets kind or clusterIP |
| `Controllers.JobPatchedOnlyWhenBackoffOnly` | src/k8s/job.js:89-110 | a job is patched exactly when the diff only changes the backoff limit, otherwise deleted and recreated |
| `Controllers.DeploymentNeverRecreates` | src/k8s/deployment.js:79-94 | a deployment is never recreated; it is replaced with the whole manifest exactly when the diff sets kind or clusterIP |
| `Controllers.AccountReplacesWithDiff` | src/k8s/account.js:30-41 | an account that cannot be patched is updated with the diff, not the manifest |
| `Controllers.AlwaysPatchSendsDiff` | src/k8s/configuration.js:33-41 | config maps and secrets patch any non-empty diff as it is |
| `Controllers.KeepExistingNeverChanges` | src/k8s/role.js:50-52 | existing namespaces, roles and bindings are never diffed or changed |
| `Controllers.UpToDateMakesOnlyAGet` | src/k8s/deployment.js:71-78 | applying an up-to-date manifest makes one get and nothing else |
| `Controllers.MissingIsCreated` | src/k8s/deployment.js:60-69 | a missing object is created from the manifest and its creation wait decides the outcome |
| `Controllers.CreateErrorWrapped` | src/k8s/deployment.js:66-68 | a refused create rejects with the controller's wrapped message and changes nothing |
| `Controllers.SendTouchesOnlyItsKey` | src/k8s/deployment.js:153-179 | a call changes no object but the one it names |
| `Controllers.RemoveTouchesOnlyTarget` | src/k8s/statefulSet.js:119-137 | a delete changes no object but its target |
| `Controllers.ApplyTouchesOnlyTarget` | src/k8s/statefulSet.js:69-117 | applying a manifest changes no other object, and every request names the target |
| `Controllers.RemoveMissingIsNoop` | src/k8s/daemonSet.js:119-139 | deleting a missing object makes one get, changes nothing and resolves |
| `Controllers.RemoveDeletes` | src/k8s/cronJob.js:130-148 | deleting an existing object removes it and the deletion wait decides the outcome |
| `Controllers.DeleteErrorWording` | src/k8s/role.js:65-79 | a refused delete rejects with the kind's wrapped message, except config maps and secrets, which pass the error on |
| `Controllers.DeploymentsNeverDeleted` | src/k8s/deployment.js:57-100 | applying a deployment never sends a delete |
| `Controllers.NetworkPolicySettlesWithoutPolling` | src/k8s/networkPolicy.js:32-80 | network policies never poll: every call settles when the API answers |
| `Controllers.ManifestResolvesOnlyWithoutCalls` | src/k8s/manifest.js:27-31 | a manifest resolves only when no call beyond the get was needed, since its check throws |
| `Controllers.StatefulSetUpgradeNeverResolves` | src/k8s/statefulSet.js:198-211 | upgrading a stateful set never resolves |
| `Controllers.UpgradePatchesOneContainer` | src/k8s/deployment.js:181-194 | the upgrade sends one patch naming the given container, or the resource when none is given |
| `Controllers.NamespaceDefaults` | src/k8s/deployment.js:58 | a manifest without a namespace goes to 'default', except config maps and secrets |
| `Controllers.ClusterRolesHaveNoNamespace` | src/k8s/role.js:14-43 | cluster roles and bindings are routed outside any namespace, to their own collections |
| `Controllers.DeleteFindsCreated` | src/k8s/service.js:52-120 | deleting by the manifest's namespace and name addresses the object its create made |
| `Controllers.NamespaceFindsCreated` | src/k8s/namespace.js:34-72 | a namespace created by name is addressed like a deleted one |
| `Controllers.GroupTables` | src/k8s/statefulSet.js:8-18 | the API group of each kind depends on the client version, and versions outside the table have none |
| `Controllers.NamespaceNamesOrder` | src/k8s/namespace.js:78-85 | the names of concatenated item lists are the concatenated names |
| `Controllers.ListRolesRejects` | src/k8s/role.js:81-98 | list responses are objects without `concat`, so listRoles always rejects |
| `Controllers.RoleBindingListIgnoresVersion` | src/k8s/roleBinding.js:81-98 | listRoleBindings reads the same group for every version; listRoles reads cluster role bindings first |
| `Core.FindByPrefix` | src/k8s/core.js:10-15 | the search finds the first container whose image starts with the prefix (a string image) or whose first element is the prefix (an array image, by Array indexOf), or none, or throws at an unsearchable one before it |
| `Core.ProjectAllExact` | src/k8s/core.js:16-20 | the projection succeeds exactly when no container is null, and gives (image, name) of each in order |
| `Core.SingleContainerIgnoresFilter` | src/k8s/core.js:4-9 | a single container is reported whatever the filter |
| `Core.FilterFindsFirst` | src/k8s/core.js:10-15 | with a filter, the result is the first matching container, or empty exactly when none matches |
| `Core.NoFilterProjectsAll` | src/k8s/core.js:16-20 | without a filter every container is reported in order |
| `Core.ContainersBounded` | src/k8s/core.js:3-21 | the result never has more entries than containers, and at most one with a filter |
| `Resources.NamespaceManifest` | lib/resources.js:3-11 | the manifest has exactly the keys apiVersion, kind and metadata |
| `Resources.NamespaceManifestFields` | lib/resources.js:4-10 | kind is 'Namespace', apiVersion 'v1', metadata.name the argument, and metadata holds nothing else |
| `Resources.NamespaceManifestInjective` | lib/resources.js:3-11 | different names give different manifests |
| `K8s.LoadBalancersIn` | src/k8s/index.js:9-15 | the filtered list is no longer than the services listed |
| `K8s.CollectLoadBalancers` | src/k8s/index.js:9-15 | the reduce loop computes the load-balancer filter |
| `K8s.AllLoadBalancers` | src/k8s/index.js:18-28 | the walk over all namespaces computes the flattened per-namespace filter |
| `K8s.PrefixErrorStays` | src/k8s/index.js:9-15 | a service without a status fails the whole list |
| `K8s.LoadBalancersExact` | src/k8s/index.js:9-15 | exactly the services with ingress points are kept, and the list fails exactly when a service cannot be read |
| `K8s.LoadBalancersAppend` | src/k8s/index.js:9-15 | filtering a list split in two gives the two filtered halves, in order |
| `K8s.AcrossErrorStays` | src/k8s/index.js:18-28 | a namespace that fails fails the whole walk |
| `K8s.AcrossIsFilterOfGathered` | src/k8s/index.js:18-28 | across namespaces the result is the filter of all their services, in namespace order |
| `K8s.AcrossOk` | src/k8s/index.js:18-28 | the walk succeeds when every namespace's list does |
| `K8s.MissingLoadBalancerExcluded` | src/k8s/index.js:10-11 | a missing loadBalancer counts as `{}`: the service is left out, not an error |
| `K8s.ExportsWellWired` | src/k8s/index.js:31-102 | every export is an operation its module has or a facade member; patchDaemonSet names no function |
| `Cluster.Trimmed` | src/cluster.js:467 | each filter key is trimmed, in order |
| `Cluster.MatchKeyList` | src/cluster.js:465-468 | the compared keys are never empty: the trimmed filter, or the default keys |
| `Cluster.MatchFold` | src/cluster.js:469-477 | the reduce holds exactly when every listed key matches |
| `Cluster.Match` | src/cluster.js:465-478 | match throws exactly for a missing target or pattern, null options, or a filter without `split` |
| `Cluster.Chosen` | src/cluster.js:344-373 | the workload is the first truthy key in the priority daemonSet, deployment, statefulSet, cronJob, job |
| `Cluster.FirstKinded` | src/cluster.js:375-393 | the spec found has a kind, and a failure is the TypeError of reading null |
| `Cluster.FirstManifest` | src/cluster.js:295-298 | a manifest found passes the container-manifest filter |
| `Cluster.K8s.constructor` | src/cluster.js:725-764 | the client starts with an empty call log |
| `Cluster.K8s.Send` | src/cluster.js:725-764 | every call is logged and settles as the oracle says, except that a patched stateful-set upgrade never resolves |
| `Cluster.Settle` | src/k8s/statefulSet.js:198-211 | a stateful-set upgrade never resolves: a successful patch leaves it pending, a refused one rejects; every other call settles as the oracle says |
| `Cluster.Cluster.constructor` | src/cluster.js:78-83 | the cluster holds its graph and a fresh array of its levels |
| `Cluster.Steps` | src/cluster.js:139-145 | calls started together give one start per call |
| `Cluster.ServiceStarts` | src/cluster.js:66-76 | one start per service |
| `Cluster.CreateStarts` | src/cluster.js:139-145 | one start per service of the level |
| `Cluster.DeleteStarts` | src/cluster.js:263-275 | one start per service of the level |
| `Cluster.NamespaceCalls` | src/cluster.js:85-92 | one create per namespace |
| `Cluster.Unreserved` | src/cluster.js:209-216 | the namespaces kept are exactly those that are not reserved |
| `Cluster.DeleteNamespaceCalls` | src/cluster.js:209-216 | one delete per namespace |
| `Cluster.CreateConfigStarts` | src/cluster.js:41-48 | one start per configuration map |
| `Cluster.DeleteConfigStarts` | src/cluster.js:169-178 | one start per configuration map |
| `Cluster.Reversed` | src/cluster.js:201-207 | the reversal puts element i at position n-1-i |
| `Cluster.Reverse` | src/cluster.js:202 | the in-place reversal leaves the array holding the reversed levels |
| `Cluster.SendInBatch` | src/cluster.js:139-145 | one call of a batch is logged, only the first rejection of the batch is kept, and a call that never settles leaves the batch hung |
| `Cluster.SendAll` | src/cluster.js:139-145 | the calls started together are logged and joined as the specification says |
| `Cluster.CreateNamespaces` | src/cluster.js:85-92 | the calls and result are those of creating every namespace, then fixing the labels |
| `Cluster.DeleteNamespaces` | src/cluster.js:209-216 | the calls and result are those of deleting the unreserved namespaces |
| `Cluster.CreateConfigurationMaps` | src/cluster.js:41-48 | the calls and result are those of creating every configuration map |
| `Cluster.DeleteConfigurationMaps` | src/cluster.js:169-178 | the calls and result are those of deleting the maps in reserved namespaces |
| `Cluster.StartServices` | src/cluster.js:66-76 | the service calls are logged and joined as specified |
| `Cluster.CreateContainerServices` | src/cluster.js:66-76 | creating the services of a group has the specified calls and result |
| `Cluster.DeleteContainerServices` | src/cluster.js:189-199 | deleting the services of a group has the specified calls and result |
| `Cluster.StartAccount` | src/cluster.js:26-40 | the account call is made, or its log line throws before any call |
| `Cluster.CreateRoleOf` | src/cluster.js:109-123 | createRole has the specified calls and result |
| `Cluster.CreateRoleBindingOf` | src/cluster.js:124-138 | createRoleBinding has the specified calls and result |
| `Cluster.CreateContainer` | src/cluster.js:49-65 | createContainer has the specified calls and result |
| `Cluster.CreateNetworkPolicyOf` | src/cluster.js:94-108 | createNetworkPolicy has the specified calls and result |
| `Cluster.DeleteNetworkPolicyOf` | src/cluster.js:218-232 | deleteNetworkPolicy has the specified calls and result |
| `Cluster.OnContainerCreated` | src/cluster.js:534-539 | after the container, the services and then the network policy |
| `Cluster.OnRoleBindingCreated` | src/cluster.js:633-638 | after the role binding, the rest of the create chain |
| `Cluster.OnRoleCreated` | src/cluster.js:609-614 | after the role, the rest of the create chain |
| `Cluster.OnAccountCreated` | src/cluster.js:485-490 | after the account, the rest of the create chain |
| `Cluster.CreateServiceResources` | src/cluster.js:147-152 | the whole create chain of one service group, as specified |
| `Cluster.DeleteRoleBindingOf` | src/cluster.js:248-262 | deleteRoleBinding has the specified calls and result |
| `Cluster.DeleteRoleOf` | src/cluster.js:233-247 | deleteRole has the specified calls and result |
| `Cluster.DeleteContainer` | src/cluster.js:180-188 | deleteContainer has the specified calls and result |
| `Cluster.OnRoleDeleted` | src/cluster.js:616-621 | after the role, the workload and then the services |
| `Cluster.OnRoleBindingDeleted` | src/cluster.js:640-645 | after the role binding, the rest of the delete chain |
| `Cluster.OnAccountDeleted` | src/cluster.js:497-502 | after the account, the rest of the delete chain |
| `Cluster.DeleteServiceResources` | src/cluster.js:276-281 | the whole delete chain of one service group, as specified |
| `Cluster.CreateServicesInLevel` | src/cluster.js:139-145 | every service chain of the level is started, then all are joined |
| `Cluster.DeleteServicesInLevel` | src/cluster.js:263-275 | only the services in reserved namespaces are removed, then all are joined |
| `Cluster.DeleteInBatch` | src/cluster.js:263-275 | one service of a level being removed is started and joins the batch, or its start throws before any call |
| `Cluster.CreateLevels` | src/cluster.js:78-83 | the levels are created one after another, stopping at the first that rejects |
| `Cluster.DeleteLevelsIn` | src/cluster.js:201-207 | the reversed levels are removed one after another |
| `Cluster.DeleteLevels` | src/cluster.js:201-207 | the cluster's levels are reversed in place, then removed in that order |
| `Cluster.DeployCluster` | src/cluster.js:283-290 | namespaces, then configuration, then the levels, with process.exit(100) on a stage failure; the deploy never settles when a stage never does |
| `Cluster.RemoveCluster` | src/cluster.js:667-673 | unreserved namespaces, reserved configuration, then the levels in reverse; the levels are reversed only when reached, and the removal never settles when a stage never does |
| `Cluster.AllThrewStays` | src/cluster.js:139-145 | once a start throws, the joined result no longer changes |
| `Cluster.AllUnresolved` | src/cluster.js:139-145 | when no start throws, one chain that does not resolve keeps the joined promise from resolving: it rejects or never settles |
| `Cluster.CreateLevelsErrorStays` | src/cluster.js:78-83 | once a level rejects, no later level runs |
| `Cluster.DeleteLevelsErrorStays` | src/cluster.js:201-207 | once a level's removal rejects, no later level runs |
| `Cluster.MatchMeaning` | src/cluster.js:465-478 | match holds exactly when every listed key matches in pattern and in set options |
| `Cluster.MatchNeedsArguments` | src/cluster.js:465-478 | a missing target or pattern makes match throw |
| `Cluster.MatchDefaults` | src/cluster.js:9 | without a filter, the default keys are compared, and undefined options are `{}` |
| `Cluster.MatchIgnoresOtherKeys` | src/cluster.js:465-478 | a key outside the compared keys can take any value in the target |
| `Cluster.FilterOfTwo` | src/cluster.js:467 | a filter of two comma-separated names compares exactly the two trimmed names |
| `Cluster.FilterKeysAreTrimmed` | src/cluster.js:467 | the filter 'imageOwner, imageName' compares imageOwner and imageName |
| `Cluster.FilterIgnoresUnmatchedFields` | src/cluster.js:465-478 | with that filter, fields other than imageOwner and imageName may differ |
| `Cluster.WorkloadCallMatchesSpec` | src/cluster.js:344-393 | for a workload key, getContainer creates exactly what getContainerSpec returns |
| `Cluster.ManifestCallMatchesSpec` | src/cluster.js:344-393 | a manifest is created only without workload keys, with a string kind outside the filter |
| `Cluster.ManifestFoundAfterSpec` | src/cluster.js:375-393 | a manifest getContainer finds, getContainerSpec finds too |
| `Cluster.NothingToCreate` | src/cluster.js:344-373 | getContainer creates nothing exactly when there is no workload and no container manifest |
| `Cluster.FirstManifestNone` | src/cluster.js:295-298 | no manifest is found exactly when every value fails the filter |
| `Cluster.WorkloadlessRemovalFails` | src/cluster.js:180-188 | a group without a workload cannot be removed: the chain fails with a TypeError |
| `Cluster.SequenceStopsAtFailure` | src/cluster.js:147-152 | in a chain, the first step that does not resolve settles it, or leaves it hung, and no later step issues a call |
| `Cluster.SequenceSucceeds` | src/cluster.js:147-152 | when every step resolves, the chain resolves with all their calls in order |
| `Cluster.ThenDone` | src/cluster.js:147-152 | a step followed by nothing is that step |
| `Cluster.CreateChainOrder` | src/cluster.js:147-152 | the create chain is account, role, role binding, container, services, network policy |
| `Cluster.DeleteChainOrder` | src/cluster.js:276-281 | the delete chain is account, role binding, role, workload, services, and never the network policy |
| `Cluster.RoleNeedsBinding` | src/cluster.js:109-123 | a role without a role binding fails both chains before any call |
| `Cluster.DeleteRoleDeletesBinding` | src/cluster.js:233-247 | deleteRole deletes the role binding object, not the role |
| `Cluster.OneServiceCreated` | src/cluster.js:66-76 | one service is one create call |
| `Cluster.JobServicesTwice` | src/cluster.js:58-63 | a job group creates its services before and after the job |
| `Cluster.CronJobServicesOnce` | src/cluster.js:58-63 | a `cronJob` key takes the normal path: its services only after the workload |
| `Cluster.ServicesEvery` | src/cluster.js:66-76 | creating services only creates, deleting them only removes |
| `Cluster.CreateChainCreates` | src/cluster.js:147-152 | the create chain makes only creations |
| `Cluster.DeleteChainRemoves` | src/cluster.js:276-281 | the delete chain makes only removals, never of a network policy |
| `Cluster.CreateLevelsCreate` | src/cluster.js:78-83 | creating levels makes only creations |
| `Cluster.DeleteLevelsRemove` | src/cluster.js:201-207 | removing levels makes only removals |
| `Cluster.DeployOnlyCreates` | src/cluster.js:283-290 | deployCluster never removes anything |
| `Cluster.RemoveOnlyRemoves` | src/cluster.js:667-673 | removeCluster never creates, and never deletes a reserved namespace or a network policy |
| `Cluster.UnreservedLevelUntouched` | src/cluster.js:265 | as coded, removal skips a level whose services are all outside the reserved namespaces |
| `Cluster.AllStepsIssued` | src/cluster.js:85-92 | calls started together are all issued; the join fails exactly when one of them does, and is hung exactly when one never settles |
| `Cluster.DeployStages` | src/cluster.js:564-572 | deploy starts with the namespaces and label fix; a failure there rejects without exit, a namespace that never settles leaves deploy hung, and exit 100 follows only after they succeed |
| `Cluster.CreateLevelsAppend` | src/cluster.js:78-83 | the levels a + b run as a, then b only if a resolved |
| `Cluster.ThenAssoc` | src/cluster.js:147-152 | chaining steps is associative |
| `Cluster.ReversedTwice` | src/cluster.js:201-207 | reversing twice restores the levels, so a second removal walks them in the original order |
| `Deploy.Kubectl.constructor` | lib/index.js:8-18 | the kubectl runner starts with an empty command log |
| `Deploy.Kubectl.Run` | lib/index.js:8-18 | every command is logged, and its outcome is the oracle's |
| `Deploy.Prefixed` | lib/index.js:12-14 | a stage error is rethrown with the stage's prefix; a success passes through |
| `Deploy.Present` | lib/index.js:55-59 | the values picked are at most the keys asked for |
| `Deploy.GatherResources` | lib/index.js:53-66 | the gathering loop computes the gathered list |
| `Deploy.Then` | lib/index.js:99-106 | the second stage runs only when the first succeeded |
| `Deploy.NamespaceItems` | lib/index.js:9 | item i is a manifest of kind Namespace whose metadata names the i-th namespace, one per name |
| `Deploy.EntryValues` | lib/index.js:20-26 | one item per entry, in order |
| `Deploy.ApplyList` | lib/index.js:8-18 | one kubectl apply of the list document, its failure prefixed |
| `Deploy.ApplyNamespaces` | lib/index.js:8-18 | one apply of the namespace manifests, its failure prefixed |
| `Deploy.ApplyImagePullSecrets` | lib/index.js:20-36 | one apply of every pull secret, namespace by namespace, its failure prefixed |
| `Deploy.ApplyConfig` | lib/index.js:38-49 | one apply of the configuration, its failure prefixed |
| `Deploy.ApplyLevel` | lib/index.js:68-85 | the level's apply is the one specified, and a level without an order entry throws first |
| `Deploy.Deploy` | lib/index.js:87-107 | deploy runs the compile check, namespaces, pull secrets, configuration and levels as specified |
| `Deploy.ApplyLevels` | lib/index.js:104-106 | the levels are applied in order, stopping at the first failure |
| `Deploy.RunJob` | lib/index.js:109-129 | run deletes the old job, then applies the new one, as specified |
| `Deploy.LevelErrorStays` | lib/index.js:72-74 | a missing group makes the whole level throw |
| `Deploy.LevelsErrorStays` | lib/index.js:104-106 | once a level fails, no later level runs |
| `Deploy.GatherFullSegment` | lib/index.js:51-66 | a full segment gives its values in the fixed key order |
| `Deploy.PresentAllIn` | lib/index.js:55-59 | with every key present, the values are picked in key order |
| `Deploy.PresentIgnoresOtherKeys` | lib/index.js:55-59 | keys that are not resource keys change nothing |
| `Deploy.GatherIgnoresOtherKeys` | lib/index.js:53-66 | only the resource keys and the services of a segment count |
| `Deploy.GatherServicesLast` | lib/index.js:60-65 | the services follow the picked resources, in their own order |
| `Deploy.FlattenIndex` | lib/index.js:20-26 | secret j of namespace i is one item of the pull-secrets document, at its place in order |
| `Deploy.FlattenLength` | lib/index.js:20-26 | there is one item per (namespace, name) pair |
| `Deploy.LevelItemsAppend` | lib/index.js:68-75 | a level's document holds its groups' resources in the level's order |
| `Deploy.ThenStops` | lib/index.js:99-106 | chaining stages keeps "no command after a failure" |
| `Deploy.StageStops` | lib/index.js:8-18 | a single stage issues one command |
| `Deploy.LevelStops` | lib/index.js:68-85 | a level issues no command after a failure |
| `Deploy.LevelsStop` | lib/index.js:104-106 | the levels issue no command after a failure |
| `Deploy.DeployStops` | lib/index.js:87-107 | deploy issues no command after one that failed |
| `Deploy.LevelsInOrder` | lib/index.js:104-106 | a successful run applies one document per level, in level order |
| `Deploy.DeployOrder` | lib/index.js:99-106 | a successful deploy applies namespaces, pull secrets, configuration with secrets, then the levels in order |
| `Deploy.NamespacesFailureStopsDeploy` | lib/index.js:8-18 | a failing namespaces apply ends deploy with the prefixed message and nothing else runs |
| `Deploy.LevelFailureMessage` | lib/index.js:79-82 | a failing level names its level in the message |
| `Deploy.TokensMessage` | lib/index.js:91-96 | undefined tokens are counted and listed; other compile errors are prefixed |
| `Deploy.RunDeletesThenApplies` | lib/index.js:121-128 | a job key 'name.namespace' deletes that job in that namespace, then applies the entry's job or cronJob |
| `Deploy.RunWithoutNamespace` | lib/index.js:121 | as coded, a job key without '.' deletes in the namespace "undefined" |
| `Deploy.RunDeleteFailureStops` | lib/index.js:124-126 | a failing delete stops run before the apply |
| `Upgrades.Tested` | src/cluster.js:300-342 | a test that throws throws a TypeError |
| `Upgrades.ListOf` | src/cluster.js:300-320 | a list that is not an array throws a TypeError |
| `Upgrades.InNamespace` | src/cluster.js:300-320 | reading a namespace's resources fails only with a TypeError |
| `Upgrades.Flat` | src/cluster.js:300-320 | reading every namespace fails only with a TypeError |
| `Upgrades.TesterOf` | src/cluster.js:300-342 | both tests fail only with a TypeError |
| `Upgrades.Keep` | src/cluster.js:300-320 | the kept resources are no more than those tested |
| `Upgrades.ScanList` | src/cluster.js:306-314 | the inner forEach extends the kept list as the filter says |
| `Upgrades.ScanNamespace` | src/cluster.js:333-337 | one namespace's daemon sets, deployments and stateful sets are tested in that order, extending the kept list as the filter of everything seen so far |
| `Upgrades.FindResources` | src/cluster.js:300-342 | findResources* resolve with the filter of all resources, or reject with the first TypeError |
| `Upgrades.KeepErrorStays` | src/cluster.js:300-320 | a test that throws ends the walk |
| `Upgrades.FlatPrefix` | src/cluster.js:300-320 | a prefix of the namespaces yields a prefix of the resources |
| `Upgrades.FoundErrorAt` | src/cluster.js:300-320 | a failing test in a prefix fails the whole search |
| `Upgrades.KeepMeaning` | src/cluster.js:300-342 | the walk resolves iff every test completes, and keeps exactly the resources that pass |
| `Upgrades.KeepTypeErrors` | src/cluster.js:300-342 | the walk can only fail with a TypeError |
| `Upgrades.ImageSearch` | src/cluster.js:300-320 | the image search finds exactly the resources whose image contains the given text |
| `Upgrades.BinOf` | src/cluster.js:450-458 | 'upgrade', 'obsolete' and 'equal' name their buckets; every mismatch goes to error |
| `Upgrades.LabellerOf` | src/cluster.js:450-452 | the labeller compares each resource's image with the given one |
| `Upgrades.Annotated` | src/cluster.js:453-456 | the resource gains `diff` and `comparedTo` and nothing else changes |
| `Upgrades.BucketResources` | src/cluster.js:449-461 | the reduce computes the buckets |
| `Upgrades.BucketedErrorStays` | src/cluster.js:449-461 | a compare that throws rejects the whole reduce |
| `Upgrades.BucketsPartition` | src/cluster.js:449-461 | the reduce resolves iff every compare does, and each bucket holds exactly the resources of its label, in order |
| `Upgrades.ColumnsCount` | src/cluster.js:449-461 | no candidate is lost or duplicated: the bucket sizes add up to the number of candidates |
| `Upgrades.UpgradeColumnLabelled` | src/cluster.js:453-456 | everything in the upgrade bucket is labelled 'upgrade' and compared with the image |
| `Upgrades.MetaObject` | src/imageParser.js:99-115 | the parsed object has owner, repo and branch exactly when the tag gives them |
| `Upgrades.GetUpgradeCandidates` | src/cluster.js:439-463 | the candidates are computed as specified: refused without a filter, else searched, compared and bucketed |
| `Upgrades.RefusedWithoutFilter` | src/cluster.js:440-444 | without a filter, or with an empty one, the upgrade is refused before anything is read |
| `Upgrades.DefaultFilterPicks` | src/cluster.js:439 | the default filter picks only owner, repo and branch, since parse has no imageName or imageOwner |
| `Upgrades.MatchedLackAbsentKeys` | src/cluster.js:465-478 | a resource matched on metadata without imageOwner and imageName lacks them too |
| `Upgrades.DefaultCandidatesLackImageFields` | src/cluster.js:439-463 | with the default filter, every candidate's metadata lacks imageOwner and imageName |
| `Upgrades.UpgradeStarts` | src/cluster.js:694-709 | one start per candidate |
| `Upgrades.UpgradeResources` | src/cluster.js:694-709 | upgradeResources computes the candidates, then upgrades the upgrade bucket: it rejects with the first failed upgrade, never settles when an upgrade never does, else resolves with the buckets |
| `Upgrades.UpgradeCandidates` | src/cluster.js:698-708 | the `.then` upgrades every resource of the upgrade bucket as specified, including upgrades that never settle |
| `Upgrades.UpgradeCallsOnly` | src/cluster.js:711-723 | only upgrade calls are made, at most one per resource of the upgrade bucket |
| `Upgrades.RejectedSearchResolves` | src/cluster.js:704-707 | a rejected search is swallowed: upgradeResources resolves undefined without calls |
| `Upgrades.StatefulSetNeverResolves` | src/k8s/statefulSet.js:198-211 | with a stateful set in the upgrade bucket, upgradeResources rejects or never settles, and never resolves |
| `ImageParser.ParseImage` | src/imageParser.js:6-15 | the image path always yields an owner and a name |
| `ImageParser.DigitRun` | src/imageParser.js:3-4 | a digit run stays within the string |
| `ImageParser.MatchAt` | src/imageParser.js:2-4 | a match lies within the string and is at least two characters long |
| `ImageParser.FirstMatch` | src/imageParser.js:92-97 | the match found is the leftmost one |
| `ImageParser.Extract` | src/imageParser.js:92-97 | the match is returned without its '_' and removed from the tag; with no match, '' and the tag unchanged |
| `ImageParser.ProblemTag` | src/imageParser.js:44-90 | sha, then version, then build are cut out of the tag, and the last three positions are version, build and sha; owner, repo and branch are split from the remainder as `Named` states |
| `ImageParser.Named` | src/imageParser.js:55-89 | when exactly one of the image owner and name appears and the remainder has a '_', that name is taken and the other field is the segment before the first '_', the branch the rest; otherwise the image owner, image name and whole remainder |
| `ImageParser.BranchOnlyTag` | spec/imageParser.spec.js:152-166 | with neither owner nor name in the tag, the whole remainder is the branch |
| `ImageParser.ImageNamedTag` | spec/imageParser.spec.js:201-212 | a tag 'owner_image_branch' naming the image but not the owner reads back owner, image and branch |
| `ImageParser.OwnerNamedTag` | spec/imageParser.spec.js:266-277 | a tag 'owner_repo_branch' naming the owner but not the image reads back owner, repo and branch |
| `ImageParser.Defined` | src/imageParser.js:24-42 | every position of a parsed tag is defined |
| `ImageParser.MatchTextIsFirstOccurrence` | src/imageParser.js:92-97 | replacing the matched text removes the leftmost match itself |
| `ImageParser.OfficialImage` | src/imageParser.js:6-15 | a path without a slash is an official image |
| `ImageParser.OwnerAndName` | src/imageParser.js:6-15 | 'owner/name' reads back as (owner, name) |
| `ImageParser.RegistryDropped` | src/imageParser.js:6-15 | with three or more segments, only the registry is dropped |
| `ImageParser.SixPartTag` | src/imageParser.js:29-40 | a six-part tag is read back field by field |
| `ImageParser.FourPartTag` | src/imageParser.js:29-40 | a four-part tag takes owner and repo from the image |
| `ImageParser.TwoPartTag` | src/imageParser.js:29-40 | 'version_sha' is on branch master and has no build number |
| `ImageParser.OnePartTag` | src/imageParser.js:29-40 | a tag without underscores is a version on branch master |
| `ImageParser.OddTagsRejected` | src/imageParser.js:99-115 | tags of three or five parts make parse throw |
| `ImageParser.UntaggedRejected` | src/imageParser.js:99-115 | an image without a tag makes parse throw |
| `ImageParser.LongTagsSearched` | src/imageParser.js:26-28 | tags of more than six parts go to the problem-tag search, which fills all six positions |
| `ImageParser.ParseRoundTrip` | src/imageParser.js:99-115 | 'owner/name:o_r_b_v_n_c' parses back to exactly those fields |
| `ImageParser.ProblemTagSha` | src/imageParser.js:51-53 | the hash found is the eight hex digits after the first '_' that starts one |
| `ImageComparer.Cycle` | src/imageComparer.js:30-31 | the fill repeated and cut to exactly k characters |
| `ImageComparer.PadEnd` | src/imageComparer.js:30-31 | a short string is filled up to n with the fill repeated; a long one is unchanged |
| `ImageComparer.ParseVersion` | src/imageComparer.js:30-34 | an invalid version throws 'Invalid Version: v' |
| `ImageComparer.SemverGte` | src/imageComparer.js:33-34 | semver.gte throws on the first side that fails to parse |
| `ImageComparer.LeadingDigits` | src/imageComparer.js:32 | the longest prefix made of digits |
| `ImageComparer.ParseInt` | src/imageComparer.js:32 | parseInt is NaN exactly when no digit follows the space and sign |
| `ImageComparer.GteTotalOrder` | src/imageComparer.js:33-34 | precedence of release versions is a total order |
| `ImageComparer.ParseVersionRoundTrip` | src/imageComparer.js:33-34 | every release version reads back from its text |
| `ImageComparer.ParseVersionCanonical` | src/imageComparer.js:33-34 | a version that parses is the text of what it parses to |
| `ImageComparer.PadCycles` | src/imageComparer.js:30-31 | padding with '.0' alternates '.' and '0' |
| `ImageComparer.ThreeParts` | src/imageComparer.js:30-34 | 'x.y.z' of single digits parses to their values |
| `ImageComparer.OneDigitPads` | src/imageComparer.js:30-31 | a single digit pads to 'd.0.0' |
| `ImageComparer.TwoDigitsPad` | src/imageComparer.js:30-31 | 'd.e' pads to 'd.e.0' |
| `ImageComparer.TwoDigitMinorIsInvalid` | src/imageComparer.js:30-34 | as coded, '1.10' pads to '1.10.', which semver rejects |
| `ImageComparer.LadderOrder` | src/imageComparer.js:9-23 | the first failing check decides; branch, owner and repo count only when their option is set |
| `ImageComparer.EqualExactly` | src/imageComparer.js:24-26 | 'equal' exactly when the checks pass and the installed commit is set and equal to the built one |
| `ImageComparer.LatestUpgrades` | src/imageComparer.js:27-29 | past the commit check, 'latest' on either side is an upgrade |
| `ImageComparer.ByVersion` | src/imageComparer.js:30-38 | once the ladder of checks has passed, the label is 'upgrade' or 'obsolete', or an invalid version throws |
| `ImageComparer.VersionDecides` | src/imageComparer.js:30-38 | 'upgrade' iff the built version and build are at least the installed ones, else 'obsolete'; an invalid version throws |
| `ImageComparer.SelfComparison` | src/imageComparer.js:5-40 | an image compared with itself is never a mismatch; without a commit and with a numeric build it is an upgrade |
| `ImageComparer.NaNBuildIsObsolete` | src/imageComparer.js:32-36 | as coded, a build parseInt reads as NaN makes an image obsolete against itself |
| `ImageComparer.MutualUpgradeMeansSame` | src/imageComparer.js:30-38 | upgrades both ways mean the same version and build |
| `AliasCache.Stored` | src/aliasCache.js:6-17 | with a login, user and password are replaced by their credentials and the rest copied; otherwise the options are kept |
| `AliasCache.SetEntry` | src/aliasCache.js:12-15 | the table gains the entry under its alias |
| `AliasCache.AddEffect` | src/aliasCache.js:6-17 | addAlias fails when the cache has no readable table, and with a RangeError exactly when the alias 'length' is set on an array table; `__proto__` on an object table without that key leaves the cache unchanged |
| `AliasCache.Padded` | src/aliasCache.js:15 | assigning index i of an array sets element i, keeps the others, and fills a gap up to i with null |
| `AliasCache.SetIndex` | src/aliasCache.js:15 | an array table gains the entry at the alias's index |
| `AliasCache.Cache.constructor` | src/aliasCache.js:55-67 | the factory loads an existing file into the shared cache |
| `AliasCache.Cache.Load` | src/aliasCache.js:37-44 | load replaces the cache with the file's content, or keeps it |
| `AliasCache.Cache.Save` | src/aliasCache.js:46-53 | save writes the cache to the file |
| `AliasCache.Cache.AddAlias` | src/aliasCache.js:6-17 | the new table is stored and saved; a RangeError for 'length' on an array table, or a missing table, changes nothing |
| `AliasCache.Cache.GetAlias` | src/aliasCache.js:19-30 | after loading, the entry's credentials are decoded into user and password, and the entry is changed in place |
| `AliasCache.Cache.ListAliases` | src/aliasCache.js:32-35 | after loading, the keys of the table |
| `AliasCache.CredentialsDecode` | src/aliasCache.js:10-11 | the credentials decode back to 'user:password' |
| `AliasCache.CombinedStrings` | src/aliasCache.js:10 | two strings join with ':' |
| `AliasCache.LoginSplits` | src/aliasCache.js:23-26 | credentials of two strings without ':' split back into them |
| `AliasCache.CredentialsRoundTrip` | src/aliasCache.js:6-30 | getAlias after addAlias recovers user and password when neither contains ':' |
| `AliasCache.PasswordWithColonIsCut` | src/aliasCache.js:23-26 | as coded, a password containing ':' comes back cut at its first ':' |
| `AliasCache.ColonSplits` | src/aliasCache.js:23-26 | the split gives the user and the password up to its first ':' |
| `AliasCache.PlainSettingsUnchanged` | src/aliasCache.js:21-29 | settings without credentials are read back as stored |
| `AliasCache.AddThenGet` | src/aliasCache.js:6-30 | an added alias reads back as the given options, for every alias except an unowned `__proto__` |
| `AliasCache.ProtoAliasLost` | src/aliasCache.js:15-16 | adding the alias `__proto__` to an object table that does not own it succeeds, but the saved table is unchanged, so the alias is lost from the file; reading it back throws in the model (see `AliasCache.ProtoAliasLost` under "## Left out") |
| `AliasCache.AddToArrayThenGet` | src/aliasCache.js:6-30 | on a table that is an array, an alias that is an index reads back as the given options |
| `AliasCache.StoredReadsBack` | src/aliasCache.js:19-30 | stored settings read back as the options they were made from |
| `AliasCache.AddThenList` | src/aliasCache.js:6-35 | after addAlias the listed aliases are the earlier ones and the new one |
| `AliasCache.GetIsRepeatable` | src/aliasCache.js:19-30 | getAlias changes the cache but not the file, so a second read returns the same settings |
| `AliasCache.UnknownAliasThrows` | src/aliasCache.js:21-22 | an unknown alias makes getAlias throw |
| `Codec.Base64Encode` | src/aliasCache.js:10-11 | the Base64 text has 4·⌈n/3⌉ characters, each a symbol or '=' (RFC 4648, section 4) |
| `Codec.Values` | src/aliasCache.js:23-24 | decoding reads only symbols of the alphabet |
| `Codec.SymbolRoundTrip` | src/aliasCache.js:10-11 | every 6-bit value reads back from its symbol |
| `Codec.GroupRoundTrip` | src/aliasCache.js:10-11 | three bytes survive their four symbols |
| `Codec.BytesOfSextets` | src/aliasCache.js:10-11 | the bytes read back from their 6-bit groups |
| `Codec.Base64RoundTrip` | src/aliasCache.js:10-24 | decoding recovers every byte string from its Base64 text |
| `Codec.Utf8Encode` | src/aliasCache.js:10-11 | a string has at least as many UTF-8 bytes as characters (RFC 3629) |
| `Codec.CharWellFormed` | src/aliasCache.js:10-11 | each character's bytes are well formed and decode back to it |
| `Codec.DecodeChar` | src/aliasCache.js:23-24 | decoding reads one character's bytes back, then the rest |
| `Codec.Utf8RoundTrip` | src/aliasCache.js:10-24 | decoding recovers every string from its UTF-8 bytes |

## Left out

- Kubernetes API calls through kubernetes-client are not modelled as network calls.
  The server is the abstract `Platform.Store`, with a table of the calls it refuses.
  Objects the server adds on its own (status, defaults) are not modelled.
  A controller's readiness observations are an input feed.
- The kubectl subprocess (`lib/kubectl.js`) is replaced by an outcome function, a parameter of `Deploy.Kubectl`.
  The mcgonagall specification compiler is represented by its result (`Deploy.Compiled`).
- Readiness waits have no attempt bound, so they are modelled over a finite feed of observations.
  A wait that is still polling when the feed runs out is `Pending` or `Unsettled`.
  Termination of the real poll is not modelled.
- Promise concurrency is not modelled. Calls started together under `Promise.all` or `Promise.map` are issued one after another, in start order.
  The first rejection in start order is the one reported, and interleavings are not modelled.
  A joined batch with no rejection and a member that never settles never settles.
- Timers are not modelled. `setTimeout` delays are `real` numbers summed by `Readiness.Await`.
- Floating point is not modelled. Numbers are exact decimals, and NaN and Infinity as JSON values are left out.
  `parseFloat` is modelled only on strings of digits and dots.
- Object key order is not modelled; objects are maps.
  So the order of keys in a diff, and of aliases listed, is not captured.
- Delete and upgrade by name take a string namespace. An `undefined` namespace argument is not modelled.
- `pluralize` is not modelled. A manifest's collection is its lower-cased kind, for both the single and the plural accessor.
- `semver` is modelled only for release versions `major.minor.patch`.
  Pre-release tags, build metadata, leading 'v' and '=' and whitespace trimming are left out.
- Writing diffs to files (`saveDiff` in both diff copies) is left out, along with the `client.saveDiffs` switch that enables it.
- The alias cache file is its parsed content. File-system errors and JSON parse errors are folded into "no file".
- Logging (bole, console output) is left out. Where a log line reads a field that can throw, that throw is modelled.
- `getImageMetadata`, `getImageMetadataForNamespace` and `getNamespaces` in `src/cluster.js` are not modelled as calls.
  They read the cluster's workloads, and their result is an input (`Upgrades.Images`).
- Helpers that only list objects are not modelled: the list* operations of the controllers, and getXByNamespace.
  Exceptions are `listNamespaces` and the role and role-binding lists.
- The older diff's `complexDiff` and `isBackoffOnly` are not modelled separately.
  Their text is the same as the controller copy, which `SpecDiff.ComplexDiff` and `SpecDiff.IsBackoffOnly` model.
- Controllers.CreateEffect: a rejected job or cron-job completion wait carries only the message start (`CompletionFailure`). The source appends the observed status rendered as indented JSON (src/k8s/job.js:36, src/k8s/cronJob.js:48); JSON rendering is not modelled.
- Controllers.ApplyEffect: the same completion-failure message is shortened on the create path it inherits.
- Controllers.Follow: a rejected wait's message is the fixed failure text; the status JSON of the observation that settled it is dropped.
- AliasCache.Recovered: truthy credentials that are not a string are a TypeError. `Buffer.from` instead reads an array, an array-like object or `{type: 'Buffer', data}` as bytes, so for example `credentials: []` gives the user ''.
- AliasCache.Cache.GetAlias: inherits that gap from `Recovered` for non-string credentials.
- Json.Prop: only own keys are read. Inherited properties such as `constructor` or `toString` are undefined in the model, so an alias named like one throws in getAlias where the source reads a function. Reading an unowned `__proto__` returns the object's prototype in the source and is undefined in the model.
- AliasCache.ProtoAliasLost: after an unowned `__proto__` alias is added, the model's getAlias throws. The source's getAlias reads the reloaded table's prototype instead (`Object.prototype`, or the options themselves when no file was written), whose `credentials` is undefined, and returns it. This follows from the own-keys reading of `Json.Prop`.
- JavaScript strings are sequences of UTF-16 code units; the model's strings (`Json.JStr`, and `string` throughout) are sequences of Unicode scalar values. So `.length`, index reads and `_.some` over a string that holds a character outside the Basic Multilingual Plane count one element where the source counts two, and a JSON string with a lone surrogate (such as `"\ud800"`) has no value in the model. The code modelled compares string lengths only with zero and parses ASCII image tags, so no contract depends on the difference.
- Strings.Lower: only ASCII letters are lower-cased. `toLowerCase` on a manifest kind with non-ASCII letters is not modelled; the case-insensitive kind tests of upgradeResources need only ASCII.
- Upgrades.Picked: filter entries are taken as top-level keys. Lodash's `_.pick` also follows dotted or bracketed paths, which are not modelled.
- Core.FindByPrefix: a container list that is not an array (an object with a `length`, a string) is a TypeError in the model, while the source reads it through `length`, `[0]` and `_.find`. The image filter is taken in its string form. Against an array image the source compares the filter itself by strict equality, so a filter that is not a string (a number, say) never matches there, while the model matches an element equal to its string form.
- Cluster.K8s.Send: apart from the stateful-set upgrade, which calls never settle is left to the oracle and not derived from the controllers' model. This covers a manifest create that needed a call beyond its get (src/k8s/manifest.js:27-31, whose check reads a misspelled field) and readiness waits that never observe their status.
- `Platform.MergePatch`: a merge patch is assumed for the patch verb. Strategic merge patch semantics for lists are not modelled.
- Test expectations that the code contradicts are not encoded:
  - `canPatch` blocking selector and port changes;
  - the deep-compare expectations against the controller diff;
  - the parser fields `imageName`, `fullVersion` and `refineVersion`;
  - `version` and `commit` options in `match`;
  - job-name validation in `run`.
- The HTTP front end, the CLI, authentication, `src/version.js` and `src/retry.js` are not part of this model.
