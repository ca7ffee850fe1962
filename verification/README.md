# Agentic SRE: a verified model

This project models the parts of Agentic SRE whose correctness is hard to see by
reading, and proves what they are meant to guarantee.

* **The operator.** `Spec`, `Store`, `Builders`, `Conditions` and `Plan` describe a
  custom resource, the API server, the pure builders and what one reconcile does call
  by call. The store is a map from (kind, namespace, name) to objects. Every call of a
  reconcile takes place in a `World`: others may have changed the store just before it,
  and it may be served, refused, or served with its answer lost. An update that changes what must not change is refused in any case. A reconcile may stop
  anywhere, because a spent script refuses everything.
  `Reconciler` is the reconciler in its own form, methods on a mutable API server and a
  mutable copy of the resource; each method is proved equal to its part of `Plan`.
  `Worker` is the same reconcile one call at a time, and `Runs` interleaves any number of
  workers with the users and the cluster for any length of time; `KeyRuns`, `Reporting` and
  `Neighbours` prove more about the same runs. `Convergence`, `Naming`, `Converged`,
  `Calls` and `Leftovers` are about what a reconcile achieves, at what cost, and what it leaves alone or behind;
  `Wiring`, `Access`, `Permissions`, `Requests` and `Contents` about how the parts of one plan fit together.
* **The automatic fixers.** `Cluster` (the cluster they see, mutations that may be refused, the
  history of attempts), `StuckJobs`, `StuckReplicas`, `StalePods`, `StuckCertRequests`,
  `Gates`, which spells out what they go after, and `FixerRuns` for runs one after the other.
* **The endpoint probe** (`Endpoints`, with its list of URLs in `Targets`), **the DNS chain** (`DnsChain`, `DnsTerms`), **the cron
  estimate** (`Cron`), and three **aggregators** (`LogPatterns`, `VaultPaths` with `VaultTerms`, `ImagePins`),
  which share `Totals` and `Sorting`.

Where code and comments disagree the model follows the code:

* The names of the two cluster-scoped bindings are not injective in (namespace, name)
  (`Naming.BindingNamesCollide`). The finalizer's label check therefore matters; the disable
  path has none, and `Leftovers.DisablingTakesCollidingBindings` says exactly whose binding it takes.
* Switching approval off leaves the silence-writer roles, and store roles kept in
  another namespace; leaving the configmap backend leaves the store roles
  (`Leftovers.DisablingLeavesRolesBehind`, `Leftovers.LeavingConfigMapsKeepsStoreRoles`).
* `WatcherRunning` does not gate `Ready`, although `api/v1alpha1/agenticsre_types.go` says it does;
  `Reporting.Healthy` has no clause on the watcher.
* Resources of one name that audit to one namespace share their events roles there
  (`Leftovers.EventsRolesMeet`).
* The fixers are idempotent one by one but not together: `FixerRuns.StalePodsAroundStuckJobs` says for
  which pods the Job fixer makes work, `FixerRuns.JobDeletionMakesItsPodStale` gives one. The ReplicaSet fixer
  acts again on a cluster that is still stuck (`FixerRuns.StuckReplicasTwice`, `FixerRuns.ADeploymentIsDue`).
* The overdue threshold for cron jobs is too short for some weekday schedules
  (`Cron.OverdueIsTrustworthyExactly`, `Cron.OneMorningAWeek`), for those that run on one day of the month or on
  late days only, and for nearly all that leave out a month (`Cron.MonthlyListExactly`, `Cron.FirstOfTheMonth`,
  `Cron.OnceAYear`).
* Missing Vault keys whose path and key, joined by a slash, read the same share one diagnostic
  (`VaultPaths.Classify` says which is told, `VaultPaths.OneOfTwoGaps` is a case).
* One host can be probed twice (`internal/probe/endpoints.go:193` says it cannot); `Targets.Merge` says
  exactly when, `Targets.OneHostTwice` is a case. A URL listed twice reaches the paging threshold in one
  cycle (`Endpoints.ListedTwiceCountsTwice`).

Assumptions about everybody else, stated in `Runs.OthersMay` and beside it: nobody strips the
operator's finalizer or writes its ownership labels; the API server keeps a resource that
carries a finalizer and gives every change a fresh version; at most one worker per resource.

## Model

| member | source | states |
|---|---|---|
| Reconcilers.Reconciler.Reconcile | internal/operator/reconciler.go:65-221 | the whole reconcile, as methods on a mutable server and resource, does what `RunReconcile` says in every world: same calls, same final store, same returned error |
| Reconcilers.Reconciler.Work | internal/operator/reconciler.go:107-220 | after the finalizer: refusal with a status update, or children, conditions and status in that order, status errors swallowed |
| Reconcilers.Reconciler.CheckSpec | internal/operator/reconciler.go:109-193 | the returns at the door accept exactly the valid specifications |
| Reconcilers.Reconciler.ReconcileChildren | internal/operator/reconciler.go:195-211 | all eight sub-reconciles in order, each on the world the one before left, the first error kept |
| Reconcilers.Reconciler.CreateOrUpdate | internal/operator/reconciler.go:801-822 | fetch, then create (a lost race is no error) or merge and update, under any answers |
| Reconcilers.Reconciler.DeleteIfExists | internal/operator/reconciler.go:826-834 | fetch and delete, absence tolerated both times |
| Reconcilers.Reconciler.ReconcileSigningKeySecret | internal/operator/reconciler.go:704-737 | create once; an existing Secret is written only if a label has drifted, and then only its labels |
| Reconcilers.Reconciler.ReconcileServiceAccount | internal/operator/reconciler.go:225-247 | nothing for a foreign account, else the operator's own |
| Reconcilers.Reconciler.ReconcileReaderRbac | internal/operator/reconciler.go:257-280 | shared role, then the resource's binding |
| Reconcilers.Reconciler.ReconcileWatcher | internal/operator/reconciler.go:346-392 | Deployment and webhook Service settled or removed, stopping at the first error |
| Reconcilers.Reconciler.ReconcileDiagnose | internal/operator/reconciler.go:395-413 | CronJob settled or removed |
| Reconcilers.Reconciler.ReconcileRemediate | internal/operator/reconciler.go:417-435 | CronJob settled or removed |
| Reconcilers.Reconciler.ReconcileAiWatch | internal/operator/reconciler.go:445-489 | Deployment and metrics Service settled or removed |
| Reconcilers.Reconciler.ReconcileQdrant | internal/operator/reconciler.go:749-795 | Service before StatefulSet when on, after it when off |
| Reconcilers.Reconciler.TeardownApproval | internal/operator/reconciler.go:509-541 | the twelve deletions of the disable path, in order |
| Reconcilers.Reconciler.ReconcileRolePairs | internal/operator/reconciler.go:586-634 | role and binding of each pair, absent pairs passed over, owned only in the resource's namespace |
| Reconcilers.Reconciler.ReconcileApprovalHead | internal/operator/reconciler.go:552-584 | key, account, shared role and fixer binding, in order |
| Reconcilers.Reconciler.ReconcileApprovalTail | internal/operator/reconciler.go:636-698 | Service, Deployment, optional policy and ingress, in order |
| Reconcilers.Reconciler.ReconcileApprovalServer | internal/operator/reconciler.go:501-698 | the whole approval stack, up or down |
| Reconcilers.Reconciler.FinalizeReaderRbac | internal/operator/reconciler.go:291-341 | both bindings only if still labelled for the resource, then the cross-namespace events pair |
| Reconcilers.Reconciler.JudgeAll | internal/operator/reconciler.go:838-1069 | the reads in source order and the verdict each group of answers leads to |
| Reconcilers.Reconciler.ComputeConditions | internal/operator/reconciler.go:838-1096 | all six conditions and the observed generation, from what was read |
| Reconcilers.Resource.SetCondition | internal/operator/reconciler.go:1144-1167 | the in-place upsert of the first entry of a type |
| Reconcilers.MergeLabels | internal/operator/reconciler.go:1184-1191 | every wanted label over the live ones, all others kept, whatever the order of the map |
| Reconcilers.CheckLabels | internal/operator/reconciler.go:1172-1179 | true exactly if every wanted label is there |
| Worker.ReconcileIsTheMachine | internal/operator/reconciler.go:65-221 | the big-step reconcile equals the one-call-at-a-time machine run to its end, in every world |
| Worker.NextShrinks | internal/operator/reconciler.go:65-221 | every call brings a reconcile closer to its end, whatever answer it gets |
| Runs.BindingsAreGuarded | internal/operator/reconciler.go:86-107 | in every state of every run a binding labelled for a resource means the resource exists with the finalizer, even when binding names collide |
| Runs.EventsAreGuarded | internal/operator/reconciler.go:318-339 | with audit namespaces that stay put, a resource that is gone has left no un-owned events role or binding elsewhere, under any failures |
| Runs.SystemStep | internal/operator/reconciler.go:257-316 | every move of the system, a call of any worker, a crash, a change by others, keeps the invariant behind both |
| Runs.RequestTurn | internal/operator/reconciler.go:801-834 | one call made under the finalizer keeps the store in order and disturbs no other worker |
| Runs.StepResidue | internal/operator/reconciler.go:291-341 | residue appears only for the caller and only where its cleanup looks |
| KeyRuns.SigningKeysNeverChange | internal/operator/reconciler.go:704-737 | over every run a Secret that is the same Secret holds the same key pair |
| KeyRuns.OperatorNeverDropsSecrets | internal/operator/reconciler.go:509-541 | no call of any reconcile removes or replaces a Secret, in particular not when approval is off |
| KeyRuns.FleetsShareTheirStore | internal/operator/reconciler.go:178-193 | in every state of every run an approval Deployment as the operator wrote it has one replica or a replay store that is not in memory |
| Neighbours.OthersKeepTheirWorkloads | internal/operator/builders.go:105-114 | in every run no call made for one resource touches a workload or Service another resource may have |
| Naming.WorkloadsAreDisjoint | internal/operator/builders.go:105-114 | two resources of a namespace never share a Deployment, CronJob, StatefulSet or Service name |
| Naming.PlanIsDistinct | internal/operator/approval_builders.go:97-112 | the requests of one reconcile go to pairwise different objects |
| Naming.BindingNamesCollide | internal/operator/rbac_builders.go:50-52 | two resources whose cluster-scoped binding names are the same |
| Converged.ReconcileConverges | internal/operator/reconciler.go:343-489 | from any store, an error-free reconcile nobody interferes with leaves every wanted child with its managed fields, no unwanted one, foreign labels, annotations and immutable fields as they were, and everything else untouched |
| Converged.SecondReconcileIsAFixpoint | internal/operator/reconciler.go:501-698 | after an error-free reconcile a second one leaves every child as the first made it, even if its own calls fail |
| Converged.WorkloadsExistExactly | internal/operator/builders.go:194-343 | afterwards each workload, Service, policy and ingress exists exactly when the specification switches it on |
| Calls.ReconcileSucceeds | internal/operator/reconciler.go:65-221 | from any store, left alone and with more than 66 answered calls, a reconcile of a valid resource returns no error exactly if the server allows every update it has to make of what is there, and then every child is settled |
| Converged.AllowedExactly | internal/operator/reconciler.go:785-822 | an update is refused exactly if a binding there names another role, or the selector of a Deployment or StatefulSet there does not find the pods it is about to get |
| Wiring.SpecChangesAreAllowed | internal/operator/reconciler.go:785-794 | whatever a child was built from and whatever the specification says now, the server lets the operator update it, unless somebody else changed what cannot be changed |
| Calls.ReconcileCalls | internal/operator/reconciler.go:65-221 | no reconcile makes more than 66 calls, whatever happens between and to them |
| Converged.DeletionCompletes | internal/operator/reconciler.go:86-99 | a deletion that goes through drops the finalizer and removes exactly what is labelled for the resource and its events pair elsewhere |
| Converged.InvalidSpecTouchesNoChild | internal/operator/reconciler.go:109-193 | a refused specification changes nothing but that resource's finalizers and status |
| Convergence.StageFits | internal/operator/reconciler.go:801-834 | a sub-reconcile without error achieves all its requests; with or without error it touches nothing else |
| Convergence.MergeManages | internal/operator/reconciler.go:785-794 | a merge sets the managed fields and keeps foreign labels, annotations, cluster IP, suspension and what a StatefulSet must not change |
| Reporting.ConditionsThroughEveryRun | internal/operator/reconciler.go:1144-1167 | in every run each resource has at most one condition per type, and a transition time moves exactly with its status |
| Reporting.ReportAdvances | internal/operator/reconciler.go:838-1096 | the six upserts of one report move no transition time twice, lose no entry, and leave the Ready verdict to be found |
| Reporting.UpsertTouchesOne | internal/operator/reconciler.go:1144-1167 | an upsert changes at most one entry, of its type, or appends one if there is none |
| Reporting.EightAttemptsFirstError | internal/operator/reconciler.go:195-220 | under any interference and failures all eight sub-reconciles start where the one before stopped, and the returned error is the first |
| Reporting.ReadyNeverLies | internal/operator/reconciler.go:1066-1096 | however many calls failed, a saved Ready=True means no sub-reconcile failed and the cluster left behind is healthy |
| Reporting.ReadyExactlyWhenHealthy | internal/operator/reconciler.go:1066-1096 | with every call answered, the saved Ready is True exactly if the server allowed every update and the cluster left behind is healthy |
| Reporting.ReadyNamesTheGate | internal/operator/reconciler.go:1066-1096 | with every call answered, Ready gives the first gate that is not open in the cluster left behind as its reason |
| Reporting.ConditionsExactly | internal/operator/reconciler.go:838-1064 | with every call answered, the saved list has an entry for each of the other five types, true exactly if the feature is on and its own objects are there and available, "Disabled" exactly if it is off, and else naming the first thing missing |
| Reporting.ConditionsNeverLie | internal/operator/reconciler.go:838-1064 | however many calls failed, none of the five is saved as true unless its feature is on and its own objects are up |
| Reporting.EachSaysItsOwn | internal/operator/reconciler.go:870-1064 | after one report each of the six types reads its own verdict |
| Reporting.RefusalIsTold | internal/operator/reconciler.go:109-193 | a refused specification is saved as Ready=False/InvalidSpec, all other entries staying as they were |
| Wiring.SelectorsFindTheirOwn | internal/operator/builders.go:126-141 | among all pods all resources of a namespace may run, a selector matches those of its own workload and no others |
| Wiring.ServicesHaveBackends | internal/operator/builders.go:1182-1218 | a Service is wanted only with its workload, which declares the ports the Service names |
| Wiring.FrontDoorsLeadIn | internal/operator/approval_builders.go:729-880 | all four paths of the ingress lead through a port of the plan's own Service to a port its pods declare, and the policy lets in the port behind that Service |
| Wiring.VariablesAreSet | internal/operator/builders.go:531-606 | every variable a container's arguments expand is set in it, and the Slack variables set are those expanded and those passed through, no others |
| Access.FixersAreTheApprovalPods | internal/operator/approval_builders.go:412-437 | with approval on every role bound has exactly one subject, the account the approval pods run as, which is asked for as well |
| Access.ReadersAreTheWatchers | internal/operator/rbac_builders.go:78-103 | the reader role has exactly one subject, the account that watcher, AI watcher and both cron jobs run as; it is the approval account only if the specification names it |
| Permissions.PermissionsFit | internal/operator/approval_builders.go:443-560 | the approval pods may read the very Secret provided, write events where they are told to audit, and write silences at home |
| Permissions.StoresFit | internal/operator/approval_builders.go:592-625 | a store in config maps comes with a role over the very config maps and namespace the pods are told of; no other backend does |
| Permissions.PlanIsAtHome | internal/operator/reconciler.go:586-634 | of everything asked for, exactly what lives in the namespace of the resource is owned by it |
| Permissions.NewKeyIsAtHome | internal/operator/reconciler.go:728-736 | a new signing key is owned by the resource and made of the pair drawn for it |
| Permissions.FinalizerKnowsItsBindings | internal/operator/reconciler.go:291-316 | cluster-wide bindings a plan has achieved carry the labels the finalizer looks for |
| Contents.FleetsAreAsAsked | internal/operator/approval_builders.go:251-310 | replicas as given or one; a second AI watcher only with leader election; approval pods are rolled exactly if they share their store |
| Contents.CommandsAndImages | internal/operator/builders.go:143-147 | each workload runs its own command in the version the specification names |
| Contents.ModesAreAsAsked | internal/operator/builders.go:345-362 | all run live, remediation dry exactly if told to, and flags passed through arrive |
| Contents.SchedulesAreAsAsked | internal/operator/builders.go:372-438 | schedules and retry limits as given, zero included, else the usual ones; runs never overlap |
| Contents.PortsAgree | internal/operator/builders.go:1182-1218 | a Service and its pods speak of one port number, the one given or the usual one; metrics are headless |
| Contents.DoorsAreAsAsked | internal/operator/approval_builders.go:729-888 | host, class, annotations, certificate and gateway are those asked for |
| Contents.StorageIsAsAsked | internal/operator/builders.go:1318-1345 | size and class as asked for, five gigabytes where nothing readable is |
| Contents.StoreKeepsToItself | internal/operator/builders.go:1370-1378 | the store writes where its data are and runs under no account of the resource |
| Contents.ChannelsKeepApart | internal/operator/builders.go:531-606 | each Slack channel reaches its own flag from its own Secret |
| Contents.EnvironmentsFit | internal/operator/builders.go:883-967 | both watchers know their pods, and all that act are warned of the extra namespaces |
| Contents.KeyIsFound | internal/operator/approval_builders.go:275-330 | the approval pods find the key where both argument and variable say, and the AI watcher where theirs do |
| Contents.RolesPlayed | internal/operator/builders.go:126-141 | every child carries the common labels and its own role |
| Contents.ApprovalRolesPlayed | internal/operator/approval_builders.go:198-300 | all of approval plays one role |
| Contents.SharedRolesAre | internal/operator/rbac_builders.go:60-76 | the shared roles are labelled by purpose and name no resource |
| Contents.SharedBindingsAre | internal/operator/rbac_builders.go:78-90 | their bindings are labelled alike, and for whom they are |
| Contents.ApprovalDefaults | internal/operator/approval_builders.go:86-137 | audit namespace, key Secret, store and its namespace where nothing is said |
| Contents.MapsAreAsAsked | internal/operator/approval_builders.go:140-152 | the config maps named, or the usual two |
| Contents.MetricsExactly | internal/operator/builders.go:1182-1190 | metrics are served exactly if the AI watcher runs and is told where |
| Contents.WatcherListens | internal/operator/builders.go:1507-1532 | every watcher answers for its health, and takes in webhooks exactly if told where to listen |
| Requests.RefusedExactly | internal/operator/reconciler.go:109-193 | a specification is refused exactly if something built from it would be of no use |
| Requests.ApprovalPodsComeLast | internal/operator/reconciler.go:552-698 | key, account, roles, bindings and Service are asked for before the approval pods |
| Requests.AccountsComeFirst | internal/operator/reconciler.go:195-211 | account and reader permissions are asked for before anything else |
| Requests.StoresComeAfterTheirService | internal/operator/reconciler.go:749-795 | the Service before the store that names it, and after the store when both go |
| Requests.TeardownExactly | internal/operator/reconciler.go:509-541 | what disabling asks away, exactly |
| Requests.PlacesAre | internal/operator/builders.go:105-114 | where everything that is switched on or off lives, and what it is called |
| Requests.EightInOrder | internal/operator/reconciler.go:195-211 | the eight sub-reconciles in their order, told by what they are about |
| Requests.ClusterPlacesAre | internal/operator/rbac_builders.go:36-52 | names of the cluster-wide roles and bindings |
| Requests.RacesAreTold | internal/operator/reconciler.go:801-834 | created or deleted meanwhile by another is no error; changed meanwhile, or gone before an update, is one |
| Leftovers.DisablingTakesCollidingBindings | internal/operator/reconciler.go:534-534 | with approval off, another resource's approval binding survives exactly if namespace and name joined by a dash read differently |
| Leftovers.DisablingLeavesRolesBehind | internal/operator/reconciler.go:518-541 | after an error-free disable a role or binding is there exactly if it was before and is not one of those torn down, and as it was; the silence-writer's and foreign store roles are not torn down |
| Leftovers.LeavingConfigMapsKeepsStoreRoles | internal/operator/reconciler.go:598-602 | leaving the configmap backend leaves the store roles as they were |
| Leftovers.EventsRolesMeet | internal/operator/approval_builders.go:492-530 | exactly when two resources share their events roles |
| StuckJobs.Run | internal/fix/stuck_jobs.go:40-144 | the Jobs tried are exactly the condemned ones in whatever order pods come and whichever deletions are refused; none is tried after it went; one that never goes is tried once per pod |
| StuckJobs.TryJob | internal/fix/stuck_jobs.go:78-142 | a Job is tried exactly if it is not settled and every gate is open |
| Gates.CondemnedExactly | internal/fix/stuck_jobs.go:78-142 | a Job is condemned exactly if a pod it owns lacks a key and a CronJob that owns it is there, not suspended and unmarked |
| StuckJobs.OncePerJob | internal/fix/stuck_jobs.go:56-57 | with every deletion accepted each condemned Job is tried once and goes |
| StuckJobs.SecondRunFindsNothing | internal/fix/stuck_jobs.go:40-144 | nothing is condemned in the cluster such a run leaves |
| StuckReplicas.Run | internal/fix/stuck_rs_pods.go:37-167 | the Deployments patched are exactly those due, independent of pod order and refusals, and never again once patched |
| StuckReplicas.TryPod | internal/fix/stuck_rs_pods.go:54-165 | a pod leads to a patch exactly if its whole owner chain and every gate say so |
| Gates.DueExactly | internal/fix/stuck_rs_pods.go:54-165 | a Deployment is due exactly if unmarked, not paused, and a pod of one of its ReplicaSets is misconfigured on another revision than its own |
| StalePods.Run | internal/fix/stale_error_pods.go:31-123 | exactly the stale pods are tried, each once, in any listing order |
| StalePods.SecondRunFindsNothing | internal/fix/stale_error_pods.go:31-123 | nothing is stale in the cluster a fully accepted run leaves |
| StalePods.JobDeletionExposes | internal/fix/stale_error_pods.go:84-98 | Jobs that go make exactly those pods stale that nothing but the mark on one of these Jobs protected |
| Gates.StaleExactly | internal/fix/stale_error_pods.go:43-104 | a failed pod is stale exactly if a Job or nobody owns it first and neither is marked |
| StuckCertRequests.Run | internal/fix/stuck_cert_requests.go:49-78 | nothing at all while the controller is down; else exactly the failed requests, then the failed orders, each once |
| StuckCertRequests.DeleteFailed | internal/fix/stuck_cert_requests.go:80-138 | the loop over one kind tries exactly what failed outside protected namespaces |
| Gates.FailedExactly | internal/fix/stuck_cert_requests.go:142-175 | which requests and orders have failed for good |
| Gates.MarkedExactly | internal/fix/gitops.go:57-85 | the annotations, label and managers that make an object somebody else's |
| Gates.ContainersExactly | internal/fix/stuck_jobs.go:160-200 | which pods are misconfigured, and which lack a key |
| Gates.ControllerDownExactly | internal/fix/stuck_cert_requests.go:49-78 | the controller is down exactly if it is there without a ready replica |
| Gates.ProtectedExactly | internal/fix/protected.go:22-45 | the namespaces that are never touched |
| FixerRuns.StuckJobsTwice | internal/fix/types.go:15-20 | two runs touch no protected namespace, and the second makes no attempt if the first was accepted |
| FixerRuns.StalePodsTwice | internal/fix/types.go:15-20 | the same for stale pods |
| FixerRuns.StuckCertRequestsTwice | internal/fix/types.go:15-20 | the same for certificate requests, and no attempt while the controller is down |
| FixerRuns.StuckReplicasTwice | internal/fix/stuck_rs_pods.go:37-167 | a second run tries the same Deployments as the first, and nothing exactly if none is due |
| FixerRuns.ADeploymentIsDue | internal/fix/stuck_rs_pods.go:54-165 | a cluster with a Deployment that is due |
| FixerRuns.StalePodsAroundStuckJobs | internal/fix/stale_error_pods.go:31-123 | pod fixer, Job fixer, pod fixer: the last run tries what the first left and exactly the pods whose Job the Job fixer took away |
| FixerRuns.JobDeletionMakesItsPodStale | internal/fix/stale_error_pods.go:84-98 | a cluster on which one fixer makes work for another |
| Endpoints.Run | internal/probe/endpoints.go:182-284 | findings, counters and status of a cycle depend only on each URL's failures since its last success; a failure that may pass is a Warning exactly below the threshold and Critical from it on, any other comes out as probed; status is critical exactly if some target pages; healthy, suppressed and failing add up to the targets |
| Endpoints.RetryExactly | internal/probe/endpoints.go:290-312 | a second check is made for a flake only, and has the last word |
| Endpoints.DeterministicMessages | internal/probe/endpoints.go:428-460 | the messages of failures that another try cannot mend, with `NoOtherMessages` for the rest |
| Endpoints.TransientMessages | internal/probe/endpoints.go:428-445 | the messages of failures that may pass |
| Endpoints.ThresholdIs | internal/probe/endpoints.go:215-219 | two failures in a row page unless a number is given |
| Endpoints.StreakTracker.Record | internal/probe/endpoints.go:167-176 | the counter map refines the history of probes |
| Endpoints.StreakIsTheFailingTail | internal/probe/endpoints.go:156-176 | the streak is the longest failing tail of the URL's own results |
| Endpoints.OneCycle | internal/probe/endpoints.go:156-176 | a cycle moves the counter as one cycle should, whatever it stood at, exactly if the URL was probed once in it or did not fail |
| Endpoints.CountersCountCycles | internal/probe/endpoints.go:156-176 | over such cycles the counter is the number of failing cycles since the last good one among those that probed the URL |
| Endpoints.ListedTwiceCountsTwice | internal/probe/endpoints.go:233-262 | a first cycle over a URL that fails is noted once and does not page; over the same URL listed twice it pages |
| Endpoints.ProbeWithRetry | internal/probe/endpoints.go:290-312 | one retry, only for a transient failure of a cycle still running |
| Targets.Merge | internal/probe/endpoints.go:191-205 | configured before learnt before discovered URLs, a later source adding exactly what the earlier do not cover; no host comes up twice exactly if the sources keep the hosts apart |
| Targets.LearntHosts | internal/probe/learnt_targets.go:22-62 | exactly the learnt keys not covered yet, each once |
| Targets.DiscoveredHosts | internal/probe/ingress_discovery.go:72-145 | exactly the hosts offered by Ingresses that may be probed and not covered yet, sorted, each once |
| Targets.OffersExactly | internal/probe/ingress_discovery.go:106-130 | which hosts the Ingresses offer |
| Targets.PlainSourcesKeepApart | internal/probe/ingress_discovery.go:164-182 | with plain hosts learnt and offered, no host comes up twice exactly if the configured hosts differ |
| Targets.PathsShareAHost | internal/probe/learnt_targets.go:64-73 | two learnt keys that are one host with two paths bring it up twice, whatever else there is |
| Targets.OneHostTwice | internal/probe/learnt_targets.go:21-59 | a merge from which both such keys come out |
| DnsChain.Run | internal/diagnose/dns_chain_drift.go:109-440 | hosts in sorted order, each reported once as specified: Cloudflare first, then contested paths, then the Service; no missing-ingress finding ever, one note with the number of hosts if Cloudflare was not checked |
| DnsChain.CriticalExactly | internal/diagnose/dns_chain_drift.go:250-420 | for a host with an Ingress each finding exactly: orphaned, proxied or deserted Service of its own backend if reached, contested paths if reached, critical unless Cloudflare agrees and the Service can answer |
| DnsChain.RecordsExactly | internal/diagnose/dns_chain_drift.go:250-270 | for every host: a missing record exactly if zones are read and none has it, pointing elsewhere exactly if none of its records has the known address; nothing else of hosts without an Ingress |
| DnsTerms.ClaimsExactly | internal/diagnose/dns_chain_drift.go:144-214 | the claims are those of Ingresses that neither opt out nor solve challenges |
| DnsTerms.FirstForExactly | internal/diagnose/dns_chain_drift.go:471-520 | the own rule of a host is the first that names it, its Service that of the first path |
| DnsTerms.TakesExactly | internal/diagnose/dns_chain_drift.go:175-210 | paths with their defaults |
| DnsTerms.LbIpExactly | internal/diagnose/dns_chain_drift.go:523-572 | the address is that of the first controller that has one |
| DnsTerms.ReadyExactly | internal/diagnose/dns_chain_drift.go:703-757 | unknown readiness counts, slices before Endpoints |
| DnsTerms.SeveritiesAre | internal/diagnose/dns_chain_drift.go:280-420 | which findings are critical |
| DnsTerms.RecordExactly | internal/diagnose/dns_chain_drift.go:579-598 | records are found by lower-cased name in every zone that could be read |
| DnsChain.CheckHost | internal/diagnose/dns_chain_drift.go:243-425 | the report of one host; a host known from the target list alone is judged by Cloudflare only |
| DnsChain.Collect | internal/diagnose/dns_chain_drift.go:144-214 | the first rule wins a host, and every claimant of every path is recorded with the defaults filled in |
| DnsChain.Collisions | internal/diagnose/dns_chain_drift.go:311-335 | the colliding paths are those two different Ingresses claim |
| DnsChain.ReadyAddresses | internal/diagnose/dns_chain_drift.go:703-757 | a positive count exactly if a visible slice, or without one the Endpoints object, has a usable address |
| DnsChain.CheckCfLayer | internal/diagnose/dns_chain_drift.go:606-664 | silent exactly if a record agrees; the walk stops exactly if there is no record |
| DnsChain.BuildCache | internal/diagnose/dns_chain_drift.go:579-598 | the cache holds exactly the records of the readable zones, by lower-cased name |
| Sorting.InsertionSort | internal/diagnose/dns_chain_drift.go:762-773 | the hand-written sort sorts and permutes |
| Sorting.OrderIsDetermined | internal/diagnose/dns_chain_drift.go:759-773 | the sorted keys of a map do not depend on the order the map gives them in |
| Cron.OverdueIsTrustworthyExactly | internal/diagnose/cronjob_stuck.go:86-94 | with day-of-month unrestricted the threshold covers every gap between firings exactly if no month is left out and the schedule fires every weekday or neither minute nor hour is a star or step |
| Cron.StepsAreRead | internal/diagnose/cronjob_stuck.go:167-174 | a step reads as the number it is written as, and nothing else is a step |
| Cron.LeapYears | internal/diagnose/cronjob_stuck.go:158-160 | the calendar the month thresholds are measured against is the Gregorian one |
| Cron.SilenceAfterARun | internal/diagnose/cronjob_stuck.go:138-173 | a schedule that skips weekdays is silent for more than a day |
| Cron.OneMorningAWeek | internal/diagnose/cronjob_stuck.go:138-173 | a schedule overdue for most of every week |
| Cron.MonthlyListExactly | internal/diagnose/cronjob_stuck.go:156-160 | with listed days of the month, and any months, the threshold of thirty days covers every gap of the Gregorian calendar exactly if no month is left out, two days are listed and one is at most the 28th, or February alone is left out and the 1st and 31st are listed |
| Cron.MonthlyStepsExactly | internal/diagnose/cronjob_stuck.go:156-159 | a step of the day of the month is covered if no month is left out, and up to steps of 31 only then or if it is 30 and February alone is left out |
| Cron.MonthlyIgnoredExactly | internal/diagnose/cronjob_stuck.go:145-152 | where minute or hour is a star or step, and weekdays are unrestricted, a day covers every gap exactly if every day of every month is listed |
| Cron.EveryWeekdayExactly | internal/diagnose/cronjob_stuck.go:153-155 | a weekday field of a step of one sets a threshold of a week, which covers every gap exactly if no month is left out and every seven days in a row, in months of any length, hold a listed one |
| Cron.BothRestrictedExactly | internal/diagnose/cronjob_stuck.go:153-155 | with both day fields restricted and looked at, a week covers every gap exactly if no month is left out |
| Cron.BothRestrictedIgnoredExactly | internal/diagnose/cronjob_stuck.go:145-152 | with both restricted and minute or hour a star or step, a day covers every gap exactly if no month is left out and one of the fields lists everything |
| Cron.FirstOfTheMonth | internal/diagnose/cronjob_stuck.go:156-160 | a schedule that fires on the first of January and next on the first of February, past its threshold |
| Cron.OnceAYear | internal/diagnose/cronjob_stuck.go:143-143 | the month field is dropped: a schedule that fires on one first of January and next on the other, with a threshold of thirty days |
| LogPatterns.Run | internal/diagnose/log_pattern_matcher.go:104-174 | one diagnostic per object and pattern, as grave as the sum of its events' counts and the live pod make it |
| LogPatterns.Aggregate | internal/diagnose/log_pattern_matcher.go:119-148 | each object and pattern is counted once with the total over all its events |
| LogPatterns.Escalated | internal/diagnose/log_pattern_matcher.go:207-228 | critical exactly if recurring, or the live pod is not ready or restart-looping |
| LogPatterns.GraveExactly | internal/diagnose/log_pattern_matcher.go:55-98 | which diagnostics are critical, over totals, tags and the live pod |
| LogPatterns.RecordedIsRepeated | internal/diagnose/log_pattern_matcher.go:190-198 | anywhere among other events, an event with a count (else a series count) of n adds what n of it without add |
| LogPatterns.CountOutweighsSeries | internal/diagnose/log_pattern_matcher.go:190-198 | where a count is recorded the series count changes nothing |
| LogPatterns.RepetitionIsReportedAlike | internal/diagnose/log_pattern_matcher.go:104-174 | one event of count n and n single events are reported with the same diagnostics |
| LogPatterns.EventOrderIsIgnored | internal/diagnose/log_pattern_matcher.go:104-174 | reports over the same events in any order hold the same diagnostics |
| Totals.FindingsIgnoreOrder | internal/diagnose/log_pattern_matcher.go:104-174 | the order of events, or of pods, changes neither which keys are found nor any total |
| VaultPaths.Run | internal/diagnose/vault_path_missing.go:86-174 | needed paths split into absent, reachable and failing; outage counts plus single errors equal the failing paths |
| VaultPaths.Collect | internal/diagnose/vault_path_missing.go:251-309 | exactly the paths, keys and consumers that Vault-backed secrets reference |
| VaultPaths.Classify | internal/diagnose/vault_path_missing.go:107-170 | every absent path is told and nothing but gaps; a missing key is told exactly if no path before has a gap that reads the same; failing paths are grouped by error |
| VaultPaths.EveryFailureIsToldOf | internal/diagnose/vault_path_missing.go:183-235 | a failing path is spoken for with the others of its error from three on, else by itself |
| VaultTerms.NeededExactly | internal/diagnose/vault_path_missing.go:251-309 | which paths are needed |
| VaultTerms.KeysAndConsumersExactly | internal/diagnose/vault_path_missing.go:251-309 | which keys are needed, and by whom |
| VaultTerms.SubjectsExactly | internal/diagnose/vault_path_missing.go:119-235 | how each kind of diagnostic is filed |
| VaultTerms.TogetherFromThree | internal/diagnose/vault_path_missing.go:177-235 | three alike make one outage and no single error, fewer the other way round |
| VaultPaths.RenderTransportErrors | internal/diagnose/vault_path_missing.go:183-235 | the groups in the order of their errors, every path of every group accounted for once |
| VaultPaths.SubjectsCollide | internal/diagnose/vault_path_missing.go:152-156 | two gaps have one subject exactly if path and key joined by a slash read the same; never two keys of one path |
| VaultPaths.OneOfTwoGaps | internal/diagnose/vault_path_missing.go:152-156 | two such gaps, of which only the first is told |
| ImagePins.Group | internal/diagnose/security_drift.go:263-321 | every eligible pod is counted in exactly one group, and a group is a warning exactly if one of its pods is |
| ImagePins.UnpinnedExactly | internal/diagnose/security_drift.go:263-300 | images with a tag that is not the floating one and no digest |
| ImagePins.EligibleExactly | internal/diagnose/security_drift.go:236-300 | pods with such an image outside seven namespaces |
| ImagePins.GroupedExactly | internal/diagnose/security_drift.go:298-310 | pods that run the same share a group exactly by namespace and by controller, or else by name |
| ImagePins.ContainerOrderIsIgnored | internal/diagnose/security_drift.go:298-310 | the order of a pod's containers decides neither whether it is counted nor its group |
| ImagePins.PodOrderIsIgnored | internal/diagnose/security_drift.go:263-321 | the order of the pods changes neither groups nor counts nor severities |
| Totals.CountsAreConserved | internal/diagnose/log_pattern_matcher.go:138-146 | the totals of all keys add up to everything counted |

## Left out

* Wording of messages, remediation texts and skip reasons; conditions keep type, status, reason, transition time and generation.
* Flags, volumes, probes, resources, image overrides and `extraArgs` of the builders: passed through as text or dropped; rule tables of roles are names. Variables for ticketing, triggers, DNS, API keys and `extraEnv` are passed through as one list.
* Children with finalizers of their own, foreground deletion, server-side defaulting and informer caches: a deleted child is gone at once and reads see the store.
* Garbage collection by owner references beyond what any other party may do to objects.
* One clock reading per reconcile, where the source reads the clock at each condition.
* Uniqueness of uids is assumed of new Secrets only (`KeyRuns.SecretsKept`); key generation is an arbitrary draw.
* Removal of silence-writer roles and of store roles outside the resource's namespace, injective binding names, and `WatcherRunning` as a gate: the code does not provide them.
* Layer-7 annotations and display names of endpoint targets, and Traefik routes (`DiscoverTraefikRouteTargets`), which repeat the Ingress discovery over a regular expression.
* HTTP, TLS, DNS and Vault themselves, regular expressions and URL parsing: outcomes, matches and hosts are inputs.
* Objects of malformed shape, such as list entries that are not maps.
* Which stores count as Vault (`isVaultBackedESO`, `loadVaultBackedStores`): a flag on each external secret.
* Trust classes of image registries: the set of untrusted images is an input. The order in which `checkMutableImageTags` prints groups of one workload is not determined by the code and not modelled.
* Severity wording of overdue cron jobs; `Cron` models the interval, the threshold and the firing times.
* Cron.OverdueIsTrustworthyExactly: steps are taken to lie within their field (minutes below 60, hours up to 24).
* Cron.MonthlyStepsExactly: steps beyond 31 days in a schedule that leaves out months. How fields combine is taken from crontab: both day fields must agree, unless both are restricted, and a step of one is no restriction. A day-of-month list is its set of days; time zones and changes of the clock are not part of `Cron`.
* What the API server refuses on creation, and on update beyond roles of bindings, selectors and what a StatefulSet must not change.
* StuckJobs.Run: the fixer's keys `namespace/name` are pairs here; reads of one run see one cluster except for the fixer's own deletions.
* The fixer for TLS Secrets (`internal/fix/tls_secret_mismatch.go`), which compares certificates.
* Everything under `cmd/`, `catalog/`, the watcher loop, `pkg/ai`, `pkg/silence` and `pkg/rag`.
