# Proofs about starboard-exporter

A model of starboard-exporter in Dafny, with proofs. The exporter runs as a fleet of pods. Each pod publishes the
vulnerability reports that its own hash ring assigns to it as Prometheus series, and hands reports on to other pods by
means of an owner label on the report. The model covers

* the **report-ownership protocol** of the fleet, as a step system (`Fleet*.dfy`),
* the **hydrating cache** that the reconciles read through (`HydratingCache.dfy`, `HydrationRuns.dfy`),
* **publishing**: counting, label maps, scores and gauge series (`Gauges.dfy`, `Metrics.dfy`, `Reports.dfy`,
  `Severities.dfy`, `Scores.dfy`, `Publishing.dfy`, `Reconciler.dfy`, `ReadBack.dfy`),
* **membership**: endpoint slices, the ring's members, and the requeue timer (`Sharding.dfy`, `Jitter.dfy`),
* the **`target-labels` flag** (`TargetLabels.dfy`).

`dafny verify dfyconfig.toml` checks everything.

## How the protocol is modelled

For each report the API server keeps the list of all its versions; a resource version is a position in that list.
`Update` is accepted only on the latest version, and an update that changes nothing makes no version. Each pod has its
own ring, a cached version per report that may lag behind, a queue, a rate-limited retry, a requeue timer, a detail store
entry and its gauges. `Reconcile` is cut into single steps: take the report off the queue, clear the summary vector, clear
the detail vector, ask the ring, read the base cache (which may show a manifest without its matches), look into the detail
store, read the API server, write the detail store, publish one series after another in any order of the severities,
remove a Trivy finalizer, write the label. Watch deliveries, timers, retries, restarts, the shutdown hook, ring changes
and the scanner's writes are steps too. Every write request may be accepted, be refused, or be accepted and its reply
lost. The pods' and reports' steps interleave in any order, and rings may disagree at any time.

A pod's `decided` and `outcome` and its `lost` flag only keep a record of its last reconcile, for the theorems to speak of;
no step depends on them.

`Reachable` states are those of all runs from the empty fleet. The invariant has two halves that are kept apart:
`FleetControl.ControlInv` speaks of versions, queues and decisions, `FleetGauges.ShowInv` of the series shown.

`Sharding`, `HydratingCache`, `Publishing`, `Reconciler` and `TargetLabels` model the code that changes things in place,
as classes and methods with loops. A hash ring's state is the list of the calls made on it, so that the rings on the way
of `SetMembers` are in it. The methods of `Reconciler` are specified by the functions that the steps of `Fleet`
write with, and are proved to publish what any order of the publishing steps publishes; the steps that read, run straight
through, are proved to be `HydratingCache.Get`.

## Assumptions

* `locate`, the consistent hash ring's answer, is a function of the member set and the name. That it names a member is
  required only where it is needed (`ExactlyOneExporter`, and the conservation lemmas, which need the owner to be a pod).
* An ownership check needs a non-empty ring. The start-up loop in `main.go:268` means to wait until the ring is
  populated, but spins while it is *not* empty; `Sharding.ShardHelper.GetShardOwner` requires a non-empty ring, and the
  fleet's `CheckOwner` step is possible only with one.
* The reports of the two scanners differ in namespace or name, because both reconciles delete by `report_name` alone.
  `Reports.ClearSparesIffApart` shows that this is exactly what keeps one report's series safe from another's clearing,
  and `Fleet.ValidIffNamesApart` that it is all that the fleet asks for.
* The jitter percentage is positive, so that a reconcile that ends with a requeue does not panic
  (`Jitter.DefaultPanicsExactly`): the step that ends one always sets the timer. `FleetClock` asks that it is 100 at most.
* Trivy reports carry a label map. `Reconciler.Exporter.ReconcileTrivy` shows what happens otherwise: a panic.

## Where the code does less than it means to

* *Handover.* A label write that is refused for another reason than a conflict is only logged. The pod then exports a
  report labelled for another pod, and nothing but its timer ends that (`TimerEndsStray`), so that it lasts no longer
  than the requeue's target duration (`FleetClock.StrayLifetime`). The exact condition:
  in any step of the fleet a pod becomes such a stray exporter if and only if its own label write is refused, was needed,
  and nothing is pending (`StrayArisesIff`). `StrayFromStart` gives runs into such a state. Without such refusals the
  handover has no exception (`HandoverWithoutRefusal`).
* *One exporter.* A settled report has at most one exporter that has not lost its label write, whatever the rings say
  (`AtMostOneExporter`). With a lost one there can be two (`TwoExportersFromStart`), exactly if one of them is a
  stray exporter (`TwoExportersIffStray`).
* *Coming to rest.* While two rings give a report to two pods, these can relabel it any number of times:
  `ContestFromStart`. Once everything is queued, the events end if and only if no report that is there to stay has such
  rivals: `EventsEndIffNoRivals`. Absent reports, and Trivy reports that are being deleted, do no harm. With agreed rings
  convergence is always within reach: `CanAlwaysConverge`.
* *Empty exits.* A reconcile that ends shows the report if and only if it ends with the label's write, or with the failed
  removal of Trivy's finalizer (`ExitsShowIff`). So the one error exit that leaves series is the latter. It is taken exactly
  if that update is refused, in conflict or its reply lost (`FinalizerExitIff`, and `ErrorAfterPublishingIff` for the
  method), and the pod has a retry outstanding or queued that clears them (`FailuresAreRetried`).
  `FailedExitFromStart` gives runs that take it.
* *Detail store.* With several `Get`s at once a slow one may overwrite a newer entry with an older one:
  `HydrationRuns.StoreMayGoBack`. A step takes the store back if and only if it keeps a copy older than the entry
  (`MoveGoesBackIff`). That never happens over runs in which no reader asks the API server while another has yet to keep
  its copy (`ApartNeverGoesBack`), and can happen whenever one does so while an old copy is to be kept (`RaceGoesBack`).
  One `Get` after another never goes back as long as the base cache's objects need hydration (`SequentialReads`), and
  otherwise exactly if an older object passes for complete (`ReadGoesBackIff`).
* *Jitter.* The comment and the flag's description say plus or minus; the code only subtracts (`DelayBounds`). A
  percentage of zero or less makes a reconcile panic: `DefaultPanicsExactly`.
* *Trivy's shutdown.* `RequeueTrivyReportsForPod` empties the label of the listed item but writes the fetched copy, so no
  report is handed on: `Reconciler.RequeueReport`. The Kubescape version does hand on: `ShutdownHandsOn`.

## Model

| member | source | states |
|---|---|---|
| FleetTheorems.Handover | controllers/vulnerabilityreport/vulnerabilityreport_kubescape_controller.go:66-121 | In every reachable state, stale caches, conflicts and disagreeing rings included, a pod that shows series of a report and is not reconciling it is named by the server's owner label, or has the report queued, up for a retry or still to hear of, or lost its last label write to an error |
| FleetTheorems.HandoverWithoutRefusal | controllers/vulnerabilityreport/vulnerabilityreport_kubescape_controller.go:106-116 | In runs in which no label write meets an error other than a conflict, the last exception is gone |
| FleetTheorems.RefusedLabelLeavesStray | controllers/vulnerabilityreport/vulnerabilityreport_kubescape_controller.go:112-115 | Whenever nothing is pending and a needed label write is refused, the pod goes on exporting a report labelled for another and only its timer is left |
| FleetTheorems.LabelStraysIff | controllers/vulnerabilityreport/vulnerabilityreport_kubescape_controller.go:106-116 | A label write makes its pod a stray exporter if and only if it is refused, the copy in hand bears another label and nothing is pending |
| FleetTheorems.StrayArisesIff | controllers/vulnerabilityreport/vulnerabilityreport_kubescape_controller.go:62-124 | In any step of the fleet, by any pod, scanner, ring or restart, a pod that was none becomes a stray exporter if and only if the step is such a label write of its own |
| FleetStray.StrayFromStart | controllers/vulnerabilityreport/vulnerabilityreport_kubescape_controller.go:112-115 | From an empty fleet, for every pod, ring and new report that the ring gives to the pod, some run makes the pod such a stray exporter |
| FleetStray.TimerEndsStray | controllers/vulnerabilityreport/vulnerabilityreport_kubescape_controller.go:69-70 | A stray exporter has its timer running; when it fires, four steps of the pod's own, firing included, clear the report |
| FleetClock.StrayLifetime | utils/jitter.go:15-53 | With a clock, due times and jittered delays, from the tick that makes a pod a stray exporter no more time passes while it is one than the requeue's target duration |
| FleetClock.StraysAreYoung | controllers/key.go:10 | In every timed run from an empty fleet, a stray exporter's last reconcile of the report ended no longer ago than that |
| FleetClock.TickKeeps | utils/jitter.go:15-27 | Every timer that is running fires within the target duration of the reconcile that set it |
| FleetTheorems.NoForgottenExporter | controllers/vulnerabilityreport/vulnerabilityreport_kubescape_controller.go:123 | A pod that shows series and is not reconciling has the report on its timer, in its queue or up for a retry, so every stray exporter is revisited |
| FleetTheorems.NewVersionsAreNews | controllers/vulnerabilityreport/vulnerabilityreport_kubescape_controller.go:106-116 | Every step that makes a new version of a report, the label write included, leaves every pod with news of it to come, which is how previous owners learn to drop the series |
| FleetTheorems.AtMostOneExporter | controllers/vulnerabilityreport/vulnerabilityreport_kubescape_controller.go:68-121 | In every reachable state, whatever the rings say, at most one pod that has not lost its last label write exports a report for which nothing is running or pending |
| FleetTheorems.TwoExportersIffStray | controllers/vulnerabilityreport/vulnerabilityreport_kubescape_controller.go:106-121 | Two pods both export a settled report if and only if one exports it and the other is a stray exporter of it |
| FleetTheorems.AtMostOneWithoutRefusal | controllers/vulnerabilityreport/vulnerabilityreport_kubescape_controller.go:106-116 | In runs in which no label write meets an error other than a conflict, at most one pod at all does |
| FleetStray.TwoExportersFromStart | controllers/vulnerabilityreport/vulnerabilityreport_kubescape_controller.go:112-115 | The exclusion is needed: from an empty fleet of two pods with rival rings, for every new report, a run ends with nothing running or pending and both pods exporting it |
| FleetTheorems.Convergence | controllers/vulnerabilityreport/vulnerabilityreport_kubescape_controller.go:68-121 | When nothing is running or pending and every pod's last decision was made under the member set M, exactly the pod that the ring of M names for "namespace/name" shows the report, with the series of the latest version, and every other pod shows nothing |
| Fleet.CheckAsksForTheName | controllers/vulnerabilityreport/vulnerabilityreport_kubescape_controller.go:72 | The ownership check asks the pod's ring for the joined name "namespace/name", and goes on if and only if the answer is the pod itself |
| Reconciler.OwnsAgrees | utils/sharding.go:37-46 | The reconcile methods and the fleet's check decide alike, for the same pod, members and ring |
| FleetTheorems.ExactlyOneExporter | utils/sharding.go:37-46 | In a converged state an existing report has exactly one exporter, the pod that the ring names for "namespace/name", if that is a member and all members run |
| FleetTheorems.NoMixing | controllers/vulnerabilityreport/vulnerabilityreport_kubescape_controller.go:69-104 | At every step of every run, what a pod shows of a report comes from a single version; nothing is shown between clearing and publishing, and exactly the expected series after publishing |
| FleetTheorems.UnpublishedExitsAreEmpty | controllers/vulnerabilityreport/vulnerabilityreport_trivy_controller.go:69-86 | Declining, not finding and failing to read a report all leave no series of it |
| FleetTheorems.ExitsShowIff | controllers/vulnerabilityreport/vulnerabilityreport_trivy_controller.go:62-122 | A reconcile that ends leaves series of its report if and only if it ends with the label's write or with the failed removal of a finalizer |
| FleetTheorems.FinalizerExitIff | controllers/vulnerabilityreport/vulnerabilityreport_trivy_controller.go:101-107 | Removing the finalizer ends the reconcile if and only if the update is refused, in conflict or its reply lost; then as failed, with a retry outstanding |
| FleetStray.FailedExitFromStart | controllers/vulnerabilityreport/vulnerabilityreport_trivy_controller.go:104-106 | From an empty fleet, for every pod, ring and new Trivy report with a finalizer that the ring gives to the pod, some run ends in a failed reconcile with the series published |
| FleetTheorems.FailuresAreRetried | controllers/vulnerabilityreport/vulnerabilityreport_trivy_controller.go:104-106 | A pod whose last reconcile failed has the report up for a retry or queued |
| FleetTheorems.ReportsAreTheScanners | utils/hydrating_cache.go:84-118 | In every reachable state the server's report is the one the scanner wrote last, although exporters write back objects read through a cache that may strip them |
| FleetTheorems.ExportersOnlyLabel | controllers/vulnerabilityreport/vulnerabilityreport_trivy_controller.go:101-114 | Each exporter step makes at most one version, which differs from the one before in the owner label alone or the finalizer alone |
| FleetTheorems.OnlyDueWrites | controllers/vulnerabilityreport/vulnerabilityreport_kubescape_controller.go:107-121 | A new version made by an exporter comes from a pod whose ring named it owner and whose label was not there (or a finalizer was), or from a pod that empties its own label while shutting down; non-owners never write |
| FleetTheorems.StrippedWriteWouldLose | main.go:234-237 | An accepted update with a stripped manifest would destroy its matches, so the hydration is needed |
| FleetTheorems.ShutdownHandsOn | controllers/vulnerabilityreport/vulnerabilityreport_kubescape_controller.go:361-368 | An accepted write of the shutdown hook leaves the report with an empty owner label and every pod with news of it |
| FleetSafety.StepKeeps | controllers/vulnerabilityreport/vulnerabilityreport_kubescape_controller.go:62-124 | Every step, of any pod on any report, of the scanner or of the rings, keeps the fleet's invariant |
| FleetSafety.RunKeeps | controllers/vulnerabilityreport/vulnerabilityreport_kubescape_controller.go:62-124 | So does every run, by induction over its steps |
| FleetSafety.ActionIsLocal | controllers/vulnerabilityreport/vulnerabilityreport_kubescape_controller.go:69-104 | No exporter step changes what the pod shows of any other report |
| FleetControl.DeliverKeeps | controllers/vulnerabilityreport/vulnerabilityreport_kubescape_controller.go:222-230 | A watch event, even one that skips versions, keeps the control invariant |
| FleetControl.WriteLabelKeeps | controllers/vulnerabilityreport/vulnerabilityreport_kubescape_controller.go:106-116 | The label write keeps it, accepted, in conflict, refused or with its reply lost |
| FleetControl.RemoveFinalizerKeeps | controllers/vulnerabilityreport/vulnerabilityreport_trivy_controller.go:101-107 | The finalizer's removal keeps it, also when the report vanishes with its last finalizer |
| FleetControl.ReadBaseKeeps | utils/hydrating_cache.go:86-94 | What the base cache shows and passes for complete is the full object of its version |
| FleetGauges.ShowingIsSingle | controllers/vulnerabilityreport/vulnerabilityreport_kubescape_controller.go:161-204 | A publication cut off anywhere shows series of one version only |
| FleetQuiescence.EventLowers | controllers/vulnerabilityreport/vulnerabilityreport_kubescape_controller.go:107-121 | Unless two pods both take a report for theirs that is there to stay, every event-driven step lowers a measure made of the writes that can still come and the work queued or to be delivered |
| FleetQuiescence.EventRunsEnd | controllers/vulnerabilityreport/vulnerabilityreport_kubescape_controller.go:107-121 | From every such reachable state, no run of event-driven steps is longer than the state's measure, conflicts and lost replies included |
| FleetConvergence.RestIsSettled | controllers/vulnerabilityreport/vulnerabilityreport_kubescape_controller.go:62-124 | A state in which no event is possible and no retry is left has nothing running or pending: the steps never get stuck in between |
| FleetConvergence.EventsConverge | utils/sharding.go:37-46 | With agreed rings and all timers fired, every run of events that cannot go on and leaves no retry ends converged |
| FleetConvergence.RunToRest | controllers/vulnerabilityreport/vulnerabilityreport_kubescape_controller.go:62-124 | A run to rest exists from every state that keeps the invariant and has no two believers of one report |
| FleetSchedule.EventsCanConverge | controllers/vulnerabilityreport/vulnerabilityreport_kubescape_controller.go:62-124 | From every reachable state with agreed rings in which the timers of some reports have fired, a run of events ends with all these converged |
| FleetSchedule.CanAlwaysConverge | controllers/vulnerabilityreport/vulnerabilityreport_kubescape_controller.go:62-124 | From every reachable state with agreed rings, failures, strays and half-done reconciles included, the pods have a run of their own steps after which every report has converged |
| FleetConvergence.AgreementIsSole | utils/sharding.go:37-46 | Agreed rings leave every report at most one believer |
| FleetLivelock.ContestNeverEnds | controllers/vulnerabilityreport/vulnerabilityreport_kubescape_controller.go:110-116 | Of a report that two pods believe to own, event runs can make any number of new versions |
| FleetLivelock.EventsEndIffNoRivals | controllers/vulnerabilityreport/vulnerabilityreport_kubescape_controller.go:107-121 | Once every report is queued at every pod, the event runs have a bound if and only if no report that exists, and is not a Trivy report being deleted, has two believers |
| FleetStray.ContestFromStart | controllers/vulnerabilityreport/vulnerabilityreport_kubescape_controller.go:110-116 | From an empty fleet, two rings that give a new report to two pods allow, for every n, a run whose events make exactly n more versions of it |
| FleetConservation.SeverityIsConserved | controllers/vulnerabilityreport/vulnerabilityreport_kubescape_controller.go:127-172 | In a reachable converged state the fleet's Kubescape counters of a severity add up to the matches that normalise to it, over all manifests |
| FleetConservation.MatchesAreConserved | controllers/vulnerabilityreport/vulnerabilityreport_kubescape_controller.go:127-172 | And all six together to the number of all matches |
| FleetConservation.Contribution | controllers/vulnerabilityreport/vulnerabilityreport_kubescape_controller.go:161-172 | One report that is shown contributes exactly its own count to a severity, and a Trivy report nothing |
| Fleet.UnhydratedIsComplete | main.go:234-237 | What the base cache shows passes for complete if and only if it is a Trivy report, or a manifest with matches that are not stripped; and then it is the full object |
| Fleet.ValidIffNamesApart | controllers/vulnerabilityreport/vulnerabilityreport_trivy_controller.go:69-70 | The fleet's condition on names is that no two reports of different scanners share namespace and name |
| HydratingCache.HydratingCache.Get | utils/hydrating_cache.go:84-118 | What a read does to the store, the caller's object and the error, in every case, by copies: the caller's object and its label map are never the store's, and what the store takes in is fresh |
| HydratingCache.HydratingCache.Load | utils/hydrating_cache.go:96-103 | The object is filled from the entry exactly if there is one of the object's own version |
| HydratingCache.HydratingCache.Hydrate | utils/hydrating_cache.go:105-117 | A failed API read changes neither object nor store; a successful one fills both with the same version |
| HydratingCache.HydratingCache.Keep | utils/hydrating_cache.go:111-115 | The store takes in a fresh copy under the object's own version and keeps all other entries |
| HydratingCache.ApiObject.DeepCopyInto | utils/hydrating_cache.go:120-127 | The destination ends equal to what the source was, with a label map of its own |
| HydratingCache.MutateReturned | utils/hydrating_cache.go:96-102 | Whatever a caller then does to its object, in its fields or in its label map in place, the cache's entries stay as the read left them |
| HydrationRuns.RunsAreSound | utils/hydrating_cache.go:84-118 | Under any interleaving of readers, every stored or returned object is a full version of the history under its own number |
| HydrationRuns.EveryReadIsGenuine | utils/hydrating_cache.go:96-117 | Every successful read returns a full version no older than the one the base cache showed it, and exactly that one on a store hit |
| HydrationRuns.StoreMayGoBack | utils/hydrating_cache.go:105-115 | From the start, for any manifest and any next version, a run of two readers leaves the older one stored after the newer one was returned |
| HydrationRuns.MoveGoesBackIff | utils/hydrating_cache.go:111-115 | A move takes the store back if and only if it keeps a copy that is older than the entry |
| HydrationRuns.ApartNeverGoesBack | utils/hydrating_cache.go:105-115 | Over every run in which no reader asks the API server while another has yet to keep its copy, the store never goes back |
| HydrationRuns.RaceGoesBack | utils/hydrating_cache.go:105-115 | From every sound state in which a reader has a copy older than the latest version to keep and another is about to ask, three moves store the latest version and then take it back |
| HydrationRuns.SequentialReads | utils/hydrating_cache.go:84-118 | Reads one after another, failing ones included, while the base cache's objects need hydration, never go back, and the last one is the stored one |
| HydrationRuns.ReadGoesBackIff | utils/hydrating_cache.go:91-94 | After such reads the next one goes back if and only if the base cache shows an object that passes for complete and is older than what was got last |
| HydrationRuns.AtMostOneMoreRead | utils/hydrating_cache.go:96-108 | Once the base cache has caught up with an unchanging server, at most one more API read follows beyond those that fail, and none if the latest version is stored |
| HydrationRuns.FailuresAreAskedAgain | utils/hydrating_cache.go:107-109 | As long as the API server fails, every read that gets past the base cache asks it again |
| HydrationRuns.StepsAreGet | utils/hydrating_cache.go:84-118 | The fleet's reading steps, run straight through, end as `Get` does: same object, same store entry, same kind of error, for every answer of both readers; a complete object of the base cache is ready at once |
| HydrationRuns.CompleteIsReturned | utils/hydrating_cache.go:91-94 | A Trivy report or a manifest with matches is returned as the base cache shows it, with no error and nobody asked, whatever the API server would answer |
| HydrationRuns.EmptyIsHydrated | utils/hydrating_cache.go:96-117 | A manifest without matches comes from the store if that has its version; otherwise the API server is asked, and its answer is returned and stored |
| HydrationRuns.MovesAreGet | utils/hydrating_cache.go:84-118 | So do the moves of a reader that no other interrupts |
| Gauges.PutAllIsImage | controllers/vulnerabilityreport/vulnerabilityreport_kubescape_controller.go:178-203 | A list of writes has the effect of its last-writer-wins image over what there was |
| Gauges.PublishThenClear | controllers/vulnerabilityreport/vulnerabilityreport_kubescape_controller.go:69-70 | Clearing a report after publishing it removes what was published and nothing else |
| Reports.NameDeterminesKey | controllers/vulnerabilityreport/vulnerabilityreport_kubescape_controller.go:271-272 | The joined name tells namespace and name, for namespaces without a slash |
| Reports.ClearSparesIffApart | controllers/vulnerabilityreport/vulnerabilityreport_trivy_controller.go:69-70 | Clearing one report spares another's series, whatever the gauges hold, if and only if they differ in namespace or name |
| Reports.ScoreChoice | controllers/vulnerabilityreport/vulnerabilityreport_kubescape_controller.go:186-199 | The score is the first preferred entry's, else the first entry's with the greatest version, else the initial one |
| Reports.ScoreIsChosen | controllers/vulnerabilityreport/vulnerabilityreport_kubescape_controller.go:186-199 | One of these three always applies, and the score is zero only of entries without version |
| Reports.LessIsStrictOrder | controllers/vulnerabilityreport/vulnerabilityreport_kubescape_controller.go:195 | The comparison of versions is a strict total order, so "greatest" has a meaning |
| Scores.LessByFirstDifference | controllers/vulnerabilityreport/vulnerabilityreport_kubescape_controller.go:195 | One version is less than another if and only if it has the smaller character, or has ended, at the first place where they differ |
| Scores.KnownVersions | controllers/vulnerabilityreport/vulnerabilityreport_kubescape_controller.go:47-48 | The order of the versions in use; 4.0 is greater than the preferred 3.1 |
| Reports.PlanGivesExpected | controllers/vulnerabilityreport/vulnerabilityreport_kubescape_controller.go:161-204 | Every visiting order of the severities publishes exactly the expected series |
| Reports.CountOrderIrrelevant | controllers/vulnerabilityreport/vulnerabilityreport_kubescape_controller.go:164-171 | The order in which the range loop visits the counters does not matter |
| Reports.SummaryLabelSet | controllers/vulnerabilityreport/vulnerabilityreport_trivy_controller.go:201-213 | The summary label map with its severity has exactly the declared names |
| Reports.DetailLabelSet | controllers/vulnerabilityreport/vulnerabilityreport_trivy_controller.go:215-236 | The merged label map has exactly the declared names, and no value of either part is overwritten |
| Reports.CountsAddUp | controllers/vulnerabilityreport/vulnerabilityreport_kubescape_controller.go:128-151 | The six counters add up to the number of matches |
| Reports.CountsIgnoreOrder | controllers/vulnerabilityreport/vulnerabilityreport_kubescape_controller.go:141-151 | Each counter depends only on the multiset of matches |
| ReadBack.SummaryTellsTheReport | controllers/vulnerabilityreport/vulnerabilityreport_kubescape_controller.go:267-306 | Scanner, namespace, name, image and severity can be read back from a summary series |
| ReadBack.DetailTellsTheReport | controllers/vulnerabilityreport/vulnerabilityreport_trivy_controller.go:258-279 | With all labels exposed, from every detail series as well |
| ReadBack.CountersTellTheSummary | controllers/vulnerabilityreport/vulnerabilityreport_trivy_controller.go:190-213 | Trivy's own summary can be read back from its five counters |
| ReadBack.SeriesTellsTheFinding | controllers/vulnerabilityreport/vulnerabilityreport_trivy_controller.go:281-308 | With all labels exposed, a Trivy finding can be read back from its series, but for the score |
| ReadBack.FindingsShareASeriesIff | controllers/vulnerabilityreport/vulnerabilityreport_trivy_controller.go:217-235 | Two findings then share one series if and only if they differ in the score alone |
| ReadBack.SeriesTellsTheMatch | controllers/vulnerabilityreport/vulnerabilityreport_kubescape_controller.go:308-337 | And a Kubescape match, with its first link and first fix only; its severity is spelled as in the match but without small letters |
| Metrics.LabelWithName | controllers/vulnerabilityreport/vulnerabilityreport_metrics.go:121-128 | Finds a label if and only if the table has the name, and then one of that name |
| Metrics.LabelsForGroup | controllers/vulnerabilityreport/vulnerabilityreport_metrics.go:130-138 | The labels of a group, in table order |
| Metrics.LabelNamesForGroup | controllers/vulnerabilityreport/vulnerabilityreport_metrics.go:140-148 | Their names, in the same order |
| Metrics.LabelNamesForList | controllers/vulnerabilityreport/vulnerabilityreport_metrics.go:150-156 | The names of a list, in its order |
| Metrics.InGroupMembers | controllers/vulnerabilityreport/vulnerabilityreport_metrics.go:130-138 | A label is in the group's list if and only if it is in the table and names the group; no name comes twice |
| Metrics.InGroupKeepsOrder | controllers/vulnerabilityreport/vulnerabilityreport_metrics.go:130-138 | And the labels come in the order of the table |
| Metrics.TableIsDistinct | controllers/vulnerabilityreport/vulnerabilityreport_metrics.go:32-119 | No two labels of the table share a name |
| Metrics.ScopesAreDisjoint | controllers/vulnerabilityreport/vulnerabilityreport_metrics.go:18-30 | In a list drawn from the table every name has exactly one scope |
| Publishing.GaugeVec.DeletePartialMatch | controllers/vulnerabilityreport/vulnerabilityreport_kubescape_controller.go:69-70 | Removes exactly the vector's series with that value of the label report_name, leaves all others with their values, and says how many went |
| Publishing.CountPerSeverity | controllers/vulnerabilityreport/vulnerabilityreport_kubescape_controller.go:127-159 | The loop's six counters hold the numbers of matches that normalise to each severity; each but UNKNOWN the number of matches that spell its name in whatever case |
| Severities.CounterOfSeverity | controllers/vulnerabilityreport/vulnerabilityreport_kubescape_controller.go:141-151 | A severity goes to the counter whose name it spells, letter by letter and in whatever case, and to UNKNOWN if and only if it spells none of the others |
| Severities.CaseDoesNotCount | controllers/vulnerabilityreport/vulnerabilityreport_kubescape_controller.go:142-143 | Severities that differ in letter case only go to the same counter and have the same label |
| Severities.NamesCountThemselves | controllers/vulnerabilityreport/vulnerabilityreport_kubescape_controller.go:128-135 | Each of the six names, in whatever case, is its own counter |
| Severities.CapitalsOf | controllers/vulnerabilityreport/vulnerabilityreport_kubescape_controller.go:331-333 | The capitals differ from the string in case only, and hold no letter a to z |
| Severities.CountIsOfSpellings | controllers/vulnerabilityreport/vulnerabilityreport_kubescape_controller.go:141-151 | A counter other than UNKNOWN holds the number of matches that spell its name |
| Publishing.PublishSummary | controllers/vulnerabilityreport/vulnerabilityreport_kubescape_controller.go:161-172 | Although all rounds write into one shared label map, in any order, the series are the unchanged base labels with each severity and its own count |
| Publishing.Score | controllers/vulnerabilityreport/vulnerabilityreport_kubescape_controller.go:188-199 | The loop with its break gives the score that `ScoreIsChosen` describes |
| Publishing.ValuesForReport | controllers/vulnerabilityreport/vulnerabilityreport_kubescape_controller.go:232-244 | Values for exactly the report-scope labels of the list, in a fresh map |
| Publishing.ValuesForMatch | controllers/vulnerabilityreport/vulnerabilityreport_kubescape_controller.go:257-265 | Values for exactly the vulnerability-scope labels |
| Publishing.ValuesForFinding | controllers/vulnerabilityreport/vulnerabilityreport_trivy_controller.go:248-256 | The same for Trivy |
| Publishing.Include | controllers/vulnerabilityreport/vulnerabilityreport_kubescape_controller.go:181-184 | The copying loop overrides one map with the other, in any order |
| Publishing.PublishDetails | controllers/vulnerabilityreport/vulnerabilityreport_kubescape_controller.go:174-204 | The vector ends as the last-writer-wins fold over the report's vulnerabilities, and every `With` gets the declared names; each vulnerability's series shows its score unless a later one has the same series |
| Scores.MatchShowsItsScore | controllers/vulnerabilityreport/vulnerabilityreport_kubescape_controller.go:186-202 | A Kubescape series has the score of the first entry of version 3.1, else of the first entry with the greatest version, else zero |
| Scores.OneRuleApplies | controllers/vulnerabilityreport/vulnerabilityreport_kubescape_controller.go:188-199 | One of the three applies to every match |
| Scores.FindingShowsItsScore | controllers/vulnerabilityreport/vulnerabilityreport_trivy_controller.go:225-234 | A Trivy series has the finding's score, or zero if there is none |
| Scores.VectorShowsScores | controllers/vulnerabilityreport/vulnerabilityreport_kubescape_controller.go:178-203 | Publishing over any gauges leaves each vulnerability's score in its series, unless a later one has the same series |
| Scores.ExpectedShowsScores | controllers/vulnerabilityreport/vulnerabilityreport_kubescape_controller.go:178-203 | So do the series expected of the report |
| Scores.ExpectedDetails | controllers/vulnerabilityreport/vulnerabilityreport_kubescape_controller.go:102-104 | The detail series expected of a report are those of its vulnerabilities and no others, and none without target labels |
| Scores.ExpectedSummaries | controllers/vulnerabilityreport/vulnerabilityreport_kubescape_controller.go:164-171 | The summary series expected are one for each severity, with its count, and no others |
| Reconciler.ApiServer.Update | controllers/vulnerabilityreport/vulnerabilityreport_kubescape_controller.go:112 | Accepted exactly on the latest version; one version more unless nothing changes |
| Reconciler.Exporter.ClearReport | controllers/vulnerabilityreport/vulnerabilityreport_kubescape_controller.go:69-70 | Both vectors lose exactly the report's series |
| Reconciler.Exporter.ReconcileKubescape | controllers/vulnerabilityreport/vulnerabilityreport_kubescape_controller.go:62-124 | Gauges, server and result of the whole reconcile, for owners and others, found, missing and unreadable manifests |
| Reconciler.Exporter.ReconcileTrivy | controllers/vulnerabilityreport/vulnerabilityreport_trivy_controller.go:62-122 | The same with the finalizer's removal, its error exit and the unconditional label write; a missing label map panics after publishing. An error leaves series exactly if the report was read with a finalizer and removing it failed |
| Reconciler.PlanOnCleared | controllers/vulnerabilityreport/vulnerabilityreport_kubescape_controller.go:69-104 | Clearing and publishing in any order of single writes gives the gauges that the methods give |
| Reconciler.ScannersLabelAlike | controllers/vulnerabilityreport/vulnerabilityreport_trivy_controller.go:109-114 | Trivy's unconditional label write and Kubescape's conditional one make the same history: one version more exactly if the copy is the latest, shows another owner, and the update is not refused |
| Reconciler.ErrorAfterPublishingIff | controllers/vulnerabilityreport/vulnerabilityreport_trivy_controller.go:99-107 | After publishing, the Trivy reconcile returns an error if and only if there is a finalizer and its update is refused, in conflict, or its reply lost |
| Reconciler.FinalizerStepAgrees | controllers/vulnerabilityreport/vulnerabilityreport_trivy_controller.go:101-114 | The fleet's finalizer step and the label step after it write what the method writes, and return an error alike |
| Reconciler.RequeueManifest | controllers/vulnerabilityreport/vulnerabilityreport_kubescape_controller.go:352-369 | A fetched manifest that still bears our label loses it, if the update is accepted; nothing else is written |
| Reconciler.FreeingIff | controllers/vulnerabilityreport/vulnerabilityreport_kubescape_controller.go:361-368 | One version more, with an empty label, exactly if the fetched copy is the latest, bears our label, and the update is not refused |
| Reconciler.RequeueReport | controllers/vulnerabilityreport/vulnerabilityreport_trivy_controller.go:171-187 | Trivy's shutdown requeue never makes a new version, whatever is listed and fetched |
| Sharding.ShardHelper.ShouldOwn | utils/sharding.go:43-46 | Whether the ring answers with the pod's own address |
| Sharding.ShardHelper.SetMembers | utils/sharding.go:49-64 | The calls on the ring are those of the two loops, in some orders; the ring ends with exactly the new members, and after every call holds all old or all new ones and no others, is not empty if there are new members, and has changed by one member at most; setting the same members never changes it |
| Sharding.EveryOrderIsSafe | utils/sharding.go:53-63 | The same for all orders in which the two loops can go |
| Sharding.HashRing.GetMembers | utils/sharding.go:59 | Each member once, in no particular order |
| Sharding.ShardHelper.SetMembersFromLists | utils/sharding.go:67-75 | The members are the union of the lists |
| Sharding.ShardHelper.UpdateAllEndpoints | utils/sharding.go:143-170 | An address is a member if and only if some slice that is not nil is of IPv4 addresses and has an endpoint that lists it and is ready or does not say |
| Sharding.PeerInformer.Handle | utils/sharding.go:117-133 | After every event an address is a member if and only if a slice in the informer's store names it in this way, whatever happened before |
| Sharding.PeerInformer.List | utils/sharding.go:172-184 | In whatever order they are listed, the slices that convert name the store's addresses |
| Sharding.ListingIsIrrelevant | utils/sharding.go:146-165 | The members do not depend on order, repetition or nil slices |
| Sharding.SplitIsIrrelevant | utils/sharding.go:124-132 | Nor on how endpoints are split over slices |
| Sharding.LastWordCounts | utils/sharding.go:118-132 | After any events, the informer's store holds under a name what the last event about it says |
| Sharding.UnmentionedIsAbsent | utils/sharding.go:118-132 | And nothing under a name that no event speaks of |
| TargetLabels.AppendIfNotExists | main.go:378-394 | The base list followed by the new items whose names are not taken, each name once |
| TargetLabels.NewItemsFacts | main.go:386-391 | Those items are distinct, new, among the given ones, and miss no name |
| TargetLabels.NewItemsInOrder | main.go:386-391 | They are the items whose name is not taken, neither before nor by an earlier item, in the order given |
| TargetLabels.TokensAskFor | main.go:132-143 | The token "all" asks for every name of the table, any other for its own alone; known are "all" and the names of the table |
| TargetLabels.TargetLabelsFlag.Parse | main.go:129-151 | One occurrence of the flag is accepted exactly if all tokens are known; then the old list is a prefix of a list of table labels without duplicates, whose names are the old ones, those asked for and `report_name`; otherwise the tokens before the first unknown one are in |
| TargetLabels.TargetLabelsFlag.ParseAll | main.go:127-172 | Over any number of occurrences, the names are exactly the union of what was asked for |
| Jitter.DelayBounds | utils/jitter.go:49-52 | The delay is less than the target and at least the target less the maximum jitter |
| Jitter.EveryDelayIsDrawn | utils/jitter.go:49-52 | The delays are exactly those from the target less the maximum jitter up to, but not including, the target |
| Jitter.DefaultJitter | utils/jitter.go:31-44 | The maximum jitter of the default duration is the given percentage of five minutes |
| Jitter.DefaultPanicsExactly | utils/jitter.go:31-53 | For which percentages the requeue of a reconcile panics |
| Jitter.VisitsAreSpread | utils/jitter.go:15-27 | After n requeues between n (t - max) and n t have passed |
| Jitter.VisitInEveryWindow | utils/jitter.go:15-27 | However the draws fall, the requeues leave no window free that is as long as their target |

## Left out

- The consistent-hash library, its load bound and xxhash: `locate` stands for them.
- The client, informer, queue and manager plumbing, discovery and setup: only the watch, queue and versioned-update semantics are kept.
- Conversion of unstructured endpoint slices and parsing of image references: their results are inputs.
- The Prometheus registry and HTTP exposition: a vector is a map from label map to value.
- The ConfigAudit reconcile: the same protocol with a smaller summary table.
- Memory limit, logging, Helm chart, dashboards and smoke tests.
- The start-up wait loop as written: it does not do what its comment says.
- Goroutines inside one reconcile: the steps above are the atomic ones; the mutex of the ring and the synchronised map make their operations atomic.
- A request still in flight when its pod restarts: a restarted pod starts afresh and writes nothing old.
- Which version the shutdown hook's read returns is the cached or the latest one; how the cache arrives at it is shown in `HydrationRuns`, not repeated in the step.
- Label groups are a two-valued type instead of strings.
- Floating point: scores are reals, and the jitter is exact where the code may round by a millisecond.
- strings.ToUpper beyond ASCII: letters outside a to z stay as they are.
- EventsEndIffNoRivals: states the equivalence for states in which every report is queued everywhere; in the direction from no rivals to a bound, `EventRunsEnd` holds in all reachable states.
- EventsConverge: asks that no failed attempt is left to be retried at the end; how often reads and finalizer updates fail is up to the API server.
- DefaultPanicsExactly: asks that the jitter's length fits a 64-bit integer; beyond that Go leaves the conversion undefined.
- StrayLifetime: takes a timer to fire when it is due, and the clock not to run on before; the time a reconcile itself takes is not bounded.
- EventsCanConverge: that such a run exists is shown, not that every one is of this kind; how often reads and writes fail is up to the API server.
- Parse: takes the comma-separated tokens; splitting the string is left out.
