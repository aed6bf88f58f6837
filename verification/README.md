# Traffic membership of the PgBouncer Aurora operator, modelled in Dafny

The operator keeps two Kubernetes Services, Writer and Reader, pointed at the PgBouncer pods of an Aurora cluster.
A scheduler discovers the topology and probes the instances; a planner turns topology, health and history into the
members of the two Services; a reconciler applies the plan to ConfigMaps, Deployments, Services and pod labels and
records what it did in the status of the custom resource. This project models that loop and proves what it keeps
over every run: every interleaving of jobs with stale snapshots, every interruption of an apply at any call, every
schedule of the probe workers.

Where the operator computes, the model has functions and lemmas. Where it updates in place, the model has classes and
methods with loops, each proved equal to such a function: the planner's draft (`Planner.Draft`), the pod store
(`Relabel.PodStore`), the cluster (`Reconciler.Cluster`), the API server's resource and the job table
(`Scheduler.Store`, `Scheduler.JobTable`), the RDS cache (`MetadataCache.Resolver`). The probe workers are a state
machine over the steps of goroutines and channels.

| module | what it holds |
|---|---|
| `Text`, `Domain` | names and lists; the custom resource |
| `Planner`, `PlannerLaws`, `Hysteresis`, `PhysicalIdentity` | the planner, and what is true of every plan |
| `Settings` | the main results over the fields of the spec and their defaults |
| `Aurora`, `MetadataCache` | trusting discovery rows; the RDS inventory cache |
| `ProbePool` | the monitor's workers |
| `Commits`, `Scheduler` | what each job reads and commits; the jobs as they run against the API server |
| `Interleavings`, `StaleSnapshots`, `MissingEntries` | runs with every interleaving and stale snapshot |
| `SerialRuns`, `DiscoveryLatch`, `MissingLifecycle`, `BoundedPreservation`, `HealthRuns` | serial runs |
| `Relabel`, `Objects`, `Apply`, `Reconciler` | pods, objects, applying and detecting drift, one reconcile |
| `ApplyLaws`, `DesiredState`, `RetryLaws`, `RestartTokens` | what an apply guarantees, and what restart tokens do |
| `ReconcileLaws`, `Decisions`, `Quiescence`, `RetriedReconcile` | what a reconcile decides and guarantees, also repeated or retried |
| `Affinity`, `DnsLabel`, `Naming` | zone placement; object names |

A run (`Interleavings.IsRun`) starts from an empty status; a step may use any earlier state as its snapshot and any
clock reading, and commits onto the current state. `Scheduler.Store.RetryOnConflict` shows why one commit may be taken
as one step, and `Reconciler.CommittedIsStep` that a reconcile commits exactly its step. Properties that the commit of a
stale job breaks (missing counts, the freeze; see `StaleSnapshots` and `MissingEntries`) are stated
for serial runs (`SerialRuns.IsSerial`): no other writer between a job's read and its commit, clocks that do not go
back.

## Where the code differs from its documentation or from the obvious claim

The model follows the code. Every claim that fails has an input and the exact condition under which it holds.

- A reconcile that fails half way is retried, but the retry applies again only if the status or the drift detector gives
  a reason, and the detector does not look at restart tokens. An apply of a scheduled reconcile that fails among the
  restarts is therefore not resumed: `RetriedReconcile.RestartRetryIff` says exactly when, `LostRestart` gives the failing
  family, `LostForGood` shows that no later reconcile makes up for it, and `SensedRetryResumes` that a reconcile which
  sensed anew does. `DeletionCutDrift` says what the detector notices of an apply cut off among its deletions.
- The writer fast path is not a fixed point: unless the new writer is found healthy meanwhile, the next scheduled
  reconcile leaves the writer Service empty (`Quiescence.FastPathUndone`). It is the only obstacle to idleness
  (`Quiescence.SecondReconcileIsIdle`).
- README.md of the operator says RDS metadata is not a membership-removal trigger. A changed DbiResourceId makes the
  planner forget recorded health, so it can be: `PhysicalIdentity.MetadataCanRemove` gives the failing family and
  `PhysicalIdentity.MetadataMovesTrafficIff` says exactly when metadata moves traffic.
- The affinity conflict check reads, in each term, the first expression on the topology key that is not a comparison. It
  misses terms that rule the zone out by another expression or by comparisons only, and terms that contradict themselves
  on another key. `Affinity.MissedIff` is exact for all terms, `Affinity.ConflictMissed`, `Affinity.ComparisonMissed` and
  `Affinity.OtherKeyMissed` give inputs, and `Affinity.ReportedIffUnsatisfiable` names terms for which nothing is missed.
  What it does report is real unless the topology key consists of blanks: the check (internal/controller/reconciler.go:2389-2396)
  then reads the well-known key, the renderer (internal/render/config.go:248-255) the blanks. `Affinity.FalseAlarmIff` says
  exactly when that is a false alarm, `Affinity.FalseAlarm` gives a family.
- A required node selector with an empty term, or with no term, admits nothing, but after the merge it admits the whole
  zone (`Affinity.Placement`, its degenerate case).
- Distinct instances can be given one object name; `DnsLabel.SameNameIff` says exactly when, and an instance named like a
  role Service always collides with it (`Naming.NamedLikeRole`). Properties of an apply therefore ask for distinct names;
  `Naming.DistinctNamesHold` provides them for well-formed names.
- A restart token is tied to the content of a writer change, so a change restarts a target only if the last change that
  named it was a different one (`RestartTokens.RestartsIffNewChange`); `RestartTokens.SecondMoveRestartsLess` shows a
  cycle of changes, made by the planner, in which a change restarts less than it names.
- Outside serial runs a stale reconcile ends a freeze (`StaleSnapshots.StaleReconcileUnfreezes`, exactly when:
  `StaleSnapshots.FreezeEndsIff`), and a stale job lowers or erases missing entries (`MissingEntries.CountGoesBack`,
  `MissingEntries.EntryErased`, exactly when: `MissingEntries.EntryLostIff`). An instance whose entry was erased is
  forgotten: nothing counts it again (`MissingEntries.ForgottenForGood`) and its objects stay
  (`MissingEntries.ForgottenObjectsStay`) until it is discovered again.
- A frozen reconcile records the generation of a spec it does not apply (`RetriedReconcile.FreezeConsumesEdit`), and the
  detector does not look at objects of disabled instances, so these can stay: `RetriedReconcile.LeftBehindIff` says when.
- A discovery that returns an error freezes at once; only an untrusted answer is bridged by the failure threshold, so
  `DiscoveryLatch.Bridged` also asks for no error since the last good answer. The Aurora provider wired into the operator
  (internal/discovery/aurora.go:48-81) never returns an error, so this needs another implementation of the discovery
  interface.

## Model

| member | source | states |
|---|---|---|
| `Planner.RunPlan` | internal/planner/planner.go:30-117 | the stages run on an output updated in place give exactly the function Plan, frozen case included |
| `Planner.Draft.Observe` | internal/planner/planner.go:49-112 | the pass over the discovered instances leaves the assessed instances, the sorted healthy names of each role and the all-readers-disabled flag |
| `Planner.Draft.KeepWriter` | internal/planner/planner.go:198-219 | the writer stage, in place, is StabilizeWriter |
| `Planner.Draft.KeepMissingReaders` | internal/planner/planner.go:292-307 | adding back the missing readers, in place, is PreserveReaders |
| `Planner.Draft.FillReader` | internal/planner/planner.go:225-243 | the reader stage, in place, is StabilizeReader |
| `PlannerLaws.ReaderProvenance` | internal/planner/planner.go:95-116 | a name is a reader if and only if it is a healthy discovered reader, a kept missing one, or a writer borrowed because there is none of these |
| `PlannerLaws.LastReaderBranchIsDead` | internal/planner/planner.go:225-251 | the last branch of the reader stage never adds anything |
| `PlannerLaws.SoleHealthyWriter` | internal/planner/planner.go:198-201 | a single healthy discovered writer is the writer, whatever was applied or is missing |
| `PlannerLaws.NoHealthyWriter` | internal/planner/planner.go:212-219 | without a healthy discovered writer exactly the kept missing ones are writers |
| `PlannerLaws.SeveralHealthyWriters` | internal/planner/planner.go:202-211 | among several healthy writers only a sole previously applied one survives, otherwise none |
| `PlannerLaws.WriterOrigin` | internal/planner/planner.go:198-223 | every planned writer is a healthy discovered writer or a kept missing one |
| `PlannerLaws.OriginsExclude` | internal/planner/planner.go:253-273 | when nothing missing is discovered, no member has two origins |
| `PlannerLaws.NoDisabledMember` | internal/planner/planner.go:64-73 | no disabled instance is a member of either list of a trusted plan |
| `PlannerLaws.AtMostOneWriter` | internal/planner/planner.go:198-223 | at most one writer is planned when at most one was applied |
| `PlannerLaws.MembersNoDup` | internal/planner/planner.go:113-116 | the planned reader list is duplicate-free when topology and missing list are and at most one writer was applied |
| `PlannerLaws.PlanIsFixedPoint` | internal/planner/planner.go:113-116 | replanning after the plan's own membership was recorded gives the same writer list, the same set of readers and the same instances |
| `Settings.ReaderFallback` | internal/planner/planner.go:225-251 | without a healthy or kept reader the readers are exactly the planned writers, unless readerFallback is set to false or there are discovered readers and an override switches each of them off: then there is none |
| `Settings.SwitchedOffServesNobody` | internal/planner/planner.go:330-337 | an instance with any override that sets enabled to false is in neither list |
| `Settings.FirstCheckServes` | internal/planner/planner.go:79-100 | on a first check a discovered instance is in the list of its role if and only if the check found it healthy and no override switches it off |
| `Settings.KeptBelowSetting` | internal/planner/planner.go:292-307 | an applied reader that is no longer discovered, and no writer, stays a reader if and only if it is not switched off and missing fewer times than removeAfterMissingCount, 3 by default |
| `Settings.ReplicasOf` | internal/planner/planner.go:317-328 | an instance gets the replicas of its first override that sets any, else those set for all, else one |
| `Decisions.FrozenPlanIsRecord` | internal/planner/planner.go:37-46 | without trust the plan is frozen and holds the recorded membership and exactly the recorded instances that have a name |
| `Decisions.NotesTell` | internal/planner/planner.go:198-307 | a trusted plan gives exactly the reasons that hold: a writer kept although it is not the one healthy writer, no choice between several, a missing reader kept, a borrowing suppressed, a reader borrowed |
| `Hysteresis.TurnsAtThreshold` | internal/planner/planner.go:173-196 | the closed form turns healthy exactly when a success run reaches the recovery threshold and unhealthy exactly when a failure run reaches the failure threshold |
| `Hysteresis.NextProbe` | internal/planner/planner.go:173-196 | one more probe result keeps counters and health equal to the closed form of the history |
| `Hysteresis.RecordedAssessment` | internal/planner/planner.go:49-57 | what the next round finds recorded for an instance is this round's assessment |
| `Hysteresis.HealthOfHistory` | internal/planner/planner.go:79-91 | after any chain of rounds the counters are the trailing run lengths of the raw results and the health is the latest decisive result; rounds on cached health change nothing |
| `Settings.TurnsAtSettings` | internal/planner/planner.go:173-196 | health turns exactly when a run of failures reaches failureThreshold, 3 by default, or a run of successes recoveryThreshold, 2 by default |
| `HealthRuns.HealthOfRun` | internal/controller/scheduler.go:337-362 | while a serial run of the whole loop keeps an enabled instance in its topology, its stored counters are the trailing run lengths of all check results committed since, by monitor jobs or reconciles, and its stored health their closed form; failed checks, discoveries and other reconciles contribute nothing |
| `HealthRuns.AssessedFields` | internal/planner/planner.go:52-91 | the ready pods a check leaves are those it counted; a failed check leaves what was recorded, unless the physical instance is known to have changed; a disabled instance is left blank |
| `PhysicalIdentity.VerdictChangesIff` | internal/planner/planner.go:54-57 | another resource id changes an instance's health verdict if and only if it makes the planner forget a history that was deciding |
| `PhysicalIdentity.HealthyIsMember` | internal/planner/planner.go:54-100 | on a discovered topology an instance is in the list of its role if and only if its assessed health is good |
| `PhysicalIdentity.MetadataMovesTrafficIff` | internal/planner/planner.go:54-57 | two inputs that differ in zones and resource ids only give different memberships if and only if for some instance a deciding history is forgotten in one of them |
| `PhysicalIdentity.MetadataCanRemove` | internal/planner/planner.go:147-149 | on cached health a healthy applied writer leaves both Services when only its resource id changes |
| `Aurora.BuildResult` | internal/discovery/aurora.go:87-137 | the loop trusts the rows if and only if they are good (TrustedIffGood); every instance it then reports says what the row of its name, the settings, the metadata and the last stored entry say, and the instances are sorted by name |
| `Aurora.TrustedIffGood` | internal/discovery/aurora.go:87-137 | rows are trusted if and only if their trimmed ids are non-empty and distinct, each is reachable under a domain or an endpoint known before, and exactly one trimmed session id reads MASTER_SESSION_ID up to letter case |
| `Aurora.TrustedReports` | internal/discovery/aurora.go:100-202 | every trusted instance comes from a row; it is the writer if and only if the session id of its row reads MASTER_SESSION_ID, and endpoint, port, zone and resource id are the configured or told ones, else the last known ones, else 5432 or blank |
| `Aurora.MasterNeeded` | internal/discovery/aurora.go:130-134 | rows without a master, or with two, are not trusted |
| `Aurora.TrustedShapeHolds` | internal/discovery/aurora.go:120-136 | trusted instances are non-empty, strictly ascending by non-empty name, with endpoints, positive ports and exactly one writer |
| `Aurora.RowOrderIrrelevant` | internal/discovery/aurora.go:135-136 | permuted rows give the same trust and the same instances |
| `Aurora.MetadataDoesNotDecide` | internal/discovery/aurora.go:164-202 | for any two metadata maps trust, names, roles, endpoints and ports agree |
| `MetadataCache.InventorySpec` | internal/discovery/rds.go:156-164 | an instance is in a refreshed inventory if and only if some row names it, with what its last row says |
| `MetadataCache.ReappearedIff` | internal/discovery/rds.go:188-204 | a name has reappeared if and only if it is asked for and still tracked as missing, blanks around it aside |
| `MetadataCache.KeysApart` | internal/discovery/rds.go:320-326 | a cluster's cache key is never another cluster's nor any instance's |
| `MetadataCache.Resolver.constructor` | internal/discovery/rds.go:27-36 | an empty cache remembers nothing and is valid |
| `MetadataCache.Resolver.Prune` | internal/discovery/rds.go:328-336 | exactly the expired entries go, in any visiting order, and validity shows that no later lookup can tell |
| `MetadataCache.Resolver.ClusterSnapshot` | internal/discovery/rds.go:261-280 | the answer is the inventory of the cluster's last successful refresh while it is not older than the time to live, and nothing otherwise |
| `MetadataCache.Resolver.ClusterCached` | internal/discovery/rds.go:235-259 | a hit only if that live inventory covers every requested name |
| `MetadataCache.Resolver.Store` | internal/discovery/rds.go:298-305 | storing an instance disturbs no cluster |
| `MetadataCache.Resolver.StoreCluster` | internal/discovery/rds.go:307-318 | the stored inventory becomes the cluster's last refresh and no other cluster's |
| `MetadataCache.Resolver.RefreshCluster` | internal/discovery/rds.go:116-172 | a successful refresh returns and remembers the listed inventory; a failed one remembers what it did before |
| `MetadataCache.Resolver.Resolve` | internal/discovery/rds.go:56-114 | cached-only answers are the inventory not older than the configured time to live, 60 seconds by default, without reappeared names; otherwise that inventory is served only if nothing reappeared and it covers the request, and else the fresh listing or the error |
| `ProbePool.Split` | internal/monitor/probe.go:42-51 | enabled instances without a ready pod, and only those, are unhealthy at once; the other enabled ones are probed, each once when names are unique |
| `ProbePool.StepKeeps` | internal/monitor/probe.go:59-121 | every step of workers, feeder, collector and cancellation keeps the pool invariant |
| `ProbePool.FinishedIsComplete` | internal/monitor/probe.go:100-122 | in every schedule a returned map has exactly the enabled instances, not-ready ones unhealthy, ready ones their own probe result, and no probe was a configuration failure |
| `ProbePool.SendNeverBlocks` | internal/monitor/probe.go:61-83 | in every schedule a worker with a result finds room in the results channel |
| `ProbePool.ProbedOnce` | internal/monitor/probe.go:86-95 | no instance is probed twice |
| `ProbePool.FailureEndsWorker` | internal/monitor/probe.go:64-83 | in every schedule a worker that has sent a configuration failure takes no further instance |
| `ProbePool.NoDeadlock` | internal/monitor/probe.go:104-121 | until the call has returned some step other than cancellation is possible |
| `ProbePool.NoLeak` | internal/monitor/probe.go:96-99 | a schedule that cannot go on has returned and left no worker, feeder or closer |
| `ProbePool.ScheduleIsBounded` | internal/monitor/probe.go:59-122 | every schedule has at most four steps per ready instance, one per worker and four more |
| `Scheduler.MissingInstancesFor` | internal/controller/reconciler.go:2031-2070 | the loops over maps, in any visiting order, give the sorted list of absent tracked names with counts raised and first times kept |
| `Scheduler.Store.RetryOnConflict` | internal/controller/scheduler.go:307-335 | whatever other writers do between read and write, a successful retry changed the very state that preceded its write, and a failed one wrote nothing |
| `Scheduler.RunDiscoveryJob` | internal/controller/scheduler.go:156-188 | a discovery job that commits makes exactly the discovery step of a run, on its snapshot and the state before its commit |
| `Scheduler.RunMonitorJob` | internal/controller/scheduler.go:231-270 | a monitor job that commits makes exactly the monitor step of a run; an untrusted cached topology makes it change nothing |
| `Scheduler.JobIdInjective` | internal/controller/scheduler.go:391-393 | two jobs share an in-flight id if and only if they are the same job |
| `Scheduler.JobTable.constructor` | internal/controller/scheduler.go:46-46 | a new table is valid and nothing runs |
| `Scheduler.JobTable.Enqueue` | internal/controller/scheduler.go:129-141 | a job starts if and only if the same job is not running, and no job ever runs twice at a time |
| `Scheduler.JobTable.Finish` | internal/controller/scheduler.go:385-389 | a finished job may start again and no other job is affected |
| `Interleavings.EveryStateIsSound` | internal/controller/reconciler.go:1954-2020 | in every state of every interleaving at most one writer is recorded, all recorded lists are duplicate-free, and a topology hash is the hash of the stored topology |
| `Interleavings.TimesNeverDecrease` | internal/controller/scheduler.go:314-353 | in every interleaving the discovery and monitor times never decrease |
| `Decisions.RecordedTimeIsLatest` | internal/controller/scheduler.go:314-330 | in every interleaving the recorded discovery time is the latest of all discoveries that came back, in whatever order they commit, and there is none if and only if none did |
| `Decisions.AppliedTimeIsChange` | internal/controller/reconciler.go:2002-2012 | in every interleaving the recorded membership moves in reconciles only, with the time of the one that moved it, and the time moves with nothing else but the first reconcile that is not frozen |
| `Decisions.StatusesMoveWithTime` | internal/controller/reconciler.go:1975-2001 | in every interleaving instance statuses change only together with the monitor time, which becomes that of the step, but for the very first record |
| `Decisions.ChangedIff` | internal/controller/reconciler.go:455-566 | a plan counts as a change if and only if another set of instances is to serve a role or an instance is new, gone, observed differently, switched on or off, or scaled |
| `Interleavings.MembershipChangeIsSetInequality` | internal/controller/reconciler.go:1555-1566 | between any recorded and any proposed membership of a run, the change test is inequality of sets |
| `Interleavings.MonitorMatchesStoredTopology` | internal/controller/scheduler.go:337-362 | every monitor job that commits writes, for each instance of the topology stored at that moment and in its order, exactly the assessment from its own snapshot and check, records its time and changes nothing else |
| `Interleavings.ProposalSound` | internal/controller/reconciler.go:336-379 | every proposed membership, the fast path included, has at most one writer and no duplicates |
| `SerialRuns.NeverLate` | internal/controller/scheduler.go:314-350 | in a serial run no commit is dropped as outdated |
| `SerialRuns.TopologyAfter` | internal/controller/reconciler.go:1977-1992 | in a serial run the stored topology changes exactly when a step commits a trusted discovery, and to it |
| `StaleSnapshots.FreezeEndsIff` | internal/controller/reconciler.go:2014-2016 | in every interleaving a step ends a freeze if and only if it commits a trusted discovery, its own or its snapshot's |
| `StaleSnapshots.EndedByStaleSnapshot` | internal/controller/reconciler.go:1067-1083 | a step that ends a freeze without finding anything works from a snapshot taken before the freeze |
| `StaleSnapshots.StaleReconcileUnfreezes` | internal/controller/reconciler.go:2014-2016 | for every resource and topology, a run frozen by untrusted answers in which a stale reconcile ends the freeze |
| `MissingEntries.ReconcileEntry` | internal/controller/reconciler.go:1988-1995 | whatever is stored by then, the missing entry a reconcile leaves for a name is that of its own list, or none if it expires there, whenever it writes the list |
| `MissingEntries.DiscoverEntry` | internal/controller/scheduler.go:184-186 | the entry a discovery job leaves is none if it finds the name or its snapshot does not know it, and else its snapshot's with the count raised |
| `MissingEntries.EntryLostIff` | internal/controller/reconciler.go:1988-1995 | in every interleaving a step lowers or erases the entry of a name if and only if it finds the name, deletes it as expired, or works from a snapshot without the entry or with a lower count |
| `MissingEntries.ScheduledTakesIff` | internal/controller/reconciler.go:1993-1995 | for a scheduled reconcile: if and only if its snapshot is trusted and has no entry, a lower count, or one that has expired there |
| `MissingEntries.StaleTrack` | internal/controller/reconciler.go:1993-1995 | what a scheduled reconcile makes of a vanished instance is what its snapshot says about it, nothing at all included |
| `MissingEntries.EntryErased` | internal/controller/reconciler.go:1993-1995 | for every vanished instance, a run in which a reconcile that had read the state before it vanished erases its entry |
| `MissingEntries.CountGoesBack` | internal/controller/reconciler.go:1993-1995 | for every vanished instance, a run in which a stale reconcile takes its count from two to one |
| `MissingEntries.ForgottenForGood` | internal/controller/reconciler.go:2031-2070 | an instance that is neither known nor tracked stays so until it is discovered again, in every interleaving whose jobs have read a state since |
| `MissingEntries.UntrackedObjectsStay` | internal/controller/reconciler.go:1408-1432 | a reconcile deletes the objects of no instance outside its missing list |
| `MissingEntries.ForgottenObjectsStay` | internal/controller/reconciler.go:1408-1432 | over such a run the deployment, config map and Service of a forgotten instance are never deleted |
| `DiscoveryLatch.StatusAgrees` | internal/controller/reconciler.go:1085-1107 | the stored failure count, topology and trust are those of an observer who only notes the attempts |
| `DiscoveryLatch.TrustedBelowThreshold` | internal/controller/scheduler.go:173-188 | after k failures the loop plans on exactly the last good topology while k is below the threshold (and none was an error), and is frozen from then on |
| `Settings.FrozenAtSetting` | internal/controller/reconciler.go:1085-1107 | at every step of a serial run discovery counts as trusted if and only if there was a good answer, no error since, and fewer failures since than discoveryFailureThreshold, 3 by default |
| `DiscoveryLatch.FreezeLatches` | internal/controller/scheduler.go:424-433 | once untrusted, discovery stays so until an attempt succeeds, even if the threshold is edited |
| `DiscoveryLatch.FrozenRunIsInert` | internal/controller/reconciler.go:394-397 | from an untrusted state until an attempt succeeds no step of a serial run changes membership, instances, topology or missing list |
| `ReconcileLaws.FrozenClusterIsInert` | internal/controller/reconciler.go:394-397 | over the same steps no object and no pod label of the cluster changes |
| `MissingLifecycle.TidiedIsRemaining` | internal/controller/reconciler.go:568-575 | a reconcile that is not frozen drops every expired instance even if nothing else calls for an apply |
| `MissingLifecycle.BumpedSpec` | internal/controller/reconciler.go:2031-2070 | for every name: tracked after a trusted discovery if and only if it was known or tracked and is not discovered, with its count raised by one |
| `Decisions.MissedNow` | internal/controller/reconciler.go:2055-2067 | every instance tracked after a trusted discovery was last missed by it |
| `MissingLifecycle.LifecycleOf` | internal/controller/reconciler.go:1408-1439 | at every step of a serial run every name follows the automaton unknown, present, absent with count and first time, forgotten when expired; the missing list is disjoint from the topology |
| `MissingLifecycle.CountIsCommitsSinceVanished` | internal/controller/reconciler.go:2055-2067 | a missing count is the number of trusted or bridged discovery commits since the name was last known, and its first time is that of the step where it vanished |
| `BoundedPreservation.NoDisabledProposal` | internal/controller/reconciler.go:344-357 | no disabled instance is proposed, also by the fast path |
| `BoundedPreservation.VanishedReader` | internal/planner/planner.go:292-307 | an applied reader that vanished is planned if and only if it is enabled and missing below the threshold |
| `BoundedPreservation.VanishedWriter` | internal/planner/planner.go:198-223 | an applied writer that vanished is proposed if and only if it is enabled, missing below the threshold, no discovered writer is healthy and the fast path has not moved on |
| `BoundedPreservation.AppliedAfter` | internal/controller/reconciler.go:2002-2012 | the recorded lists change only in a reconcile that is not frozen, and then to the proposed sets |
| `BoundedPreservation.ReaderKeptBelowThreshold` | internal/planner/planner.go:253-273 | through every step of a serial run a vanished applied reader keeps its traffic while its count is below the threshold |
| `BoundedPreservation.ReaderGoneAtThreshold` | internal/planner/planner.go:292-307 | the first reconcile that is not frozen at the threshold ends it, and it stays out until discovered again |
| `BoundedPreservation.WriterKeptWithoutSuccessor` | internal/planner/planner.go:198-223 | below the threshold a vanished applied writer stays the writer through a serial run if and only if no reconcile on the way had a healthy discovered writer or the fast path to go to |
| `Relabel.FirstPassKeeps` | internal/controller/reconciler.go:1778-1827 | at every point of the first pass every pod that served a role still serves it |
| `Relabel.SecondPassServes` | internal/controller/reconciler.go:1829-1862 | at every point of the second pass every pod that should serve a role does |
| `Relabel.EndsExact` | internal/controller/reconciler.go:1749-1776 | relabelling ends with exactly the desired pods in each role |
| `Relabel.NeverEmpty` | internal/controller/reconciler.go:1749-1776 | a role with pods before and after is without one in no state of a relabelling |
| `Relabel.ExactIsExact` | internal/controller/reconciler.go:1864-1884 | the label check accepts what the exact pass writes, and accepts labels if and only if that pass would leave them alone |
| `Relabel.PodStore.AddLabels` | internal/controller/reconciler.go:1778-1827 | the first loop over the pods, cut off anywhere, passes only through states that lost no pod of any role |
| `Relabel.PodStore.FixLabels` | internal/controller/reconciler.go:1829-1862 | the second loop, cut off anywhere, passes only through states in which every role has its new pods, and ends in the relabelled pods |
| `Relabel.PodStore.PatchMembership` | internal/controller/reconciler.go:1749-1776 | of all states of a relabelling, also one that fails half way, those before the second pass keep the old pods and those from there on have the new ones; success gives the relabelled pods |
| `Objects.RoleServiceSelectsServingPods` | internal/render/resources.go:224-264 | a role Service selects exactly the managed pods that carry its membership label |
| `Objects.RoleServiceOffers` | internal/render/resources.go:224-264 | a role Service is named and typed as asked for, "writer" or "reader" and ClusterIP by default, and offers the listen port |
| `Objects.InstanceServiceSelectsItsPods` | internal/render/resources.go:198-222 | the Service of an instance selects a pod with the labels of the plan's instances, the user's own included, if and only if it is a pod of that instance |
| `Objects.InstanceServiceSelectsNoOther` | internal/render/resources.go:314-330 | whatever a pod is labelled with, the Service of an instance selects it only if it is labelled with this cluster and instance |
| `Objects.AcceptedIsNormal` | internal/controller/reconciler.go:753-837 | neither the server's defaults nor a restart token look like drift |
| `Objects.NormalTellsApart` | internal/controller/reconciler.go:753-837 | the drift check takes two pod templates for the same if and only if labels, annotations but the restart token, and specs are the same once the server's defaults are filled in |
| `Objects.ContainerEditNoticed` | internal/controller/reconciler.go:798-816 | a hand edit of any container is noticed |
| `ApplyLaws.DeploymentSettles` | internal/controller/reconciler.go:1616-1641 | copying a desired deployment onto a stored one twice is copying it once, also after creation |
| `ApplyLaws.ServiceSettles` | internal/controller/reconciler.go:1643-1737 | the same for Services, with what the server allocated kept |
| `ApplyLaws.QuietAfterApply` | internal/controller/reconciler.go:577-630 | with distinct names the detector reports no change for a plan that was just applied |
| `DesiredState.QuietIffMatches` | internal/controller/reconciler.go:577-751 | the detector is quiet if and only if every wanted object is there, labelled as the cluster's own and, field by field, as the plan wants it (config text; replicas, strategy, template with defaults filled in up to the token, resource id; type, annotations, selector and port), no other Service serves a role, and every pod has exactly its membership and role labels |
| `DesiredState.MatchesAfterApply` | internal/controller/reconciler.go:1283-1365 | an apply leaves such a cluster |
| `DesiredState.StoredServiceSelects` | internal/render/resources.go:198-222 | in such a cluster the Service stored under an instance's name selects exactly the pods of that instance, and no pod of another instance or cluster |
| `DesiredState.StoredRoleServiceSelects` | internal/render/resources.go:224-264 | and the writer Service selects a pod of the cluster if and only if its instance is a planned writer, likewise the reader |
| `DesiredState.LabelsAfterApply` | internal/controller/reconciler.go:1616-1679 | after an apply a Deployment is labelled with its role, and with the resource id observed or, when none is, the one it had |
| `DesiredState.AnnotationsAfterApply` | internal/render/resources.go:52-86 | after an apply the Deployment and the ConfigMap are annotated with the cluster's name, and the Deployment with the same resource id as its label |
| `DesiredState.UpdateKeepsAllocated` | internal/controller/reconciler.go:1681-1737 | updating a Service keeps its address, families, load balancer class and, for types that have one, its node port, and takes everything else from the plan |
| `RetryLaws.QuietMeansUnchanged` | internal/controller/reconciler.go:632-751 | when the detector is quiet, applying anyway changes no field it compares of any wanted object |
| `RetryLaws.QuietMeansPodsUnchanged` | internal/controller/reconciler.go:935-957 | and it leaves a pod alone if and only if the pod is not a managed one without instance label that carries membership labels |
| `RetryLaws.RetryConverges` | internal/controller/reconciler.go:1283-1365 | if the apply is called again on anything an interrupted apply can leave, it ends in the same cluster |
| `RetryLaws.RetryRestartsNothing` | internal/controller/reconciler.go:1470-1533 | after a complete apply whose commit failed, the retry changes no deployment while writing or restarting |
| `RestartTokens.SharedTokenIff` | internal/controller/reconciler.go:1535-1553 | two writer changes share a token if and only if policy, writers before and after, targets and instance shapes are the same |
| `DesiredState.RestartedByPolicy` | internal/controller/reconciler.go:1470-1507 | a change from one set of writers to another restarts the old and new writers by default, the old ones and every active instance when all are to restart, nobody when connections are kept; a first writer restarts nobody |
| `RestartTokens.TokenOfHistory` | internal/controller/reconciler.go:1509-1533 | after any history of changes a deployment holds the token of the last change that named it |
| `RestartTokens.RestartsIffNewChange` | internal/controller/reconciler.go:1509-1533 | after any history, a change restarts a target if and only if the last change that named it was not the same change |
| `RestartTokens.SecondMoveRestartsLess` | internal/controller/reconciler.go:1470-1533 | after a to b, b lost, back to a, the second move from a to b names a as a target and does not restart it, because a still holds that token |
| `RestartTokens.PlannedCycle` | internal/planner/planner.go:198-223 | the planner makes such a cycle of changes |
| `Reconciler.Cluster.PutInstances` | internal/controller/reconciler.go:1283-1302 | the loop over the active instances, cut off anywhere, has put a prefix of each kind of object, config maps first and Services last; uncut it has put all of them |
| `Reconciler.Cluster.ApplyDesired` | internal/controller/reconciler.go:1283-1365 | all wanted objects are put, stale role Services and the objects of disabled instances are gone; with distinct names every object is then field by field as the plan wants it; a failing call leaves each kind as a cut apply leaves it |
| `Reconciler.Cluster.CleanupRemoved` | internal/controller/reconciler.go:1408-1453 | the loop deletes exactly the objects of expired missing instances and returns those still tracked; a failing call leaves only such objects deleted |
| `Reconciler.Cluster.RestartWriters` | internal/controller/reconciler.go:1470-1533 | exactly the targets reached that lack the token get it, all of them unless a call fails |
| `Reconciler.Cluster.ApplyAll` | internal/controller/reconciler.go:279-297 | an apply that succeeds leaves the world ApplyPlan describes, which with distinct names matches the plan field by field, and one that fails at any call leaves a cut world |
| `Reconciler.Cluster.Reconcile` | internal/controller/reconciler.go:92-334 | a successful reconcile leaves the world Decide describes and makes the reconcile step of a run; one that fails commits nothing and leaves the world untouched or cut |
| `Reconciler.CommittedIsStep` | internal/controller/reconciler.go:1954-2020 | what a reconcile commits is the reconcile step of a run with this cluster's ready pods and drift |
| `ReconcileLaws.LabelsAreRecordedMembership` | internal/controller/reconciler.go:394-415 | after any reconcile that is not frozen, applied or skipped, a managed pod carries a role's label if and only if its instance is in the membership just recorded |
| `ReconcileLaws.DeletedExactlyWhenExpired` | internal/controller/reconciler.go:1408-1439 | a reconcile that is not frozen deletes a missing instance's deployment, config map and Service, and stops tracking it, if and only if count and retention are both met |
| `Settings.DeletedBySettings` | internal/controller/reconciler.go:1434-1453 | in particular if and only if it is missing at least removeAfterMissingCount times, 3 by default, and for at least the retention, an hour by default |
| `Quiescence.SecondLook` | internal/planner/planner.go:113-116 | planning again after the plan was recorded gives the same plan up to the order of readers |
| `Quiescence.PlainReconcileSettles` | internal/controller/reconciler.go:92-334 | after a reconcile without the fast path, a second one with nothing new and nothing expired applies nothing, leaves the cluster alone and commits the status it found |
| `Quiescence.FastPathUndone` | internal/controller/reconciler.go:336-365 | after a reconcile with the fast path the next scheduled one records no writer at all |
| `Quiescence.FastPathIsTaken` | internal/controller/reconciler.go:336-379 | a family of resources that take the fast path |
| `Decisions.FailsOverIff` | internal/controller/reconciler.go:336-379 | a reconcile fails over at once if and only if a writer other than the discovered one is recorded, the plan has not moved to it, it is not switched off and it has a ready pod; then it is the only writer |
| `Decisions.FailoverInstances` | internal/controller/reconciler.go:353-362 | and its ready pods are counted, every other instance staying as planned |
| `Decisions.FrozenOverZonesIff` | internal/controller/reconciler.go:2267-2324 | a plan is frozen over zones if and only if the policy is to fail, zone awareness is not switched off, and an active instance's zone is ruled out or pods pinned to a zone are to spread over zones; nothing else of it changes |
| `Quiescence.SecondReconcileIsIdle` | internal/controller/reconciler.go:92-365 | a second reconcile with nothing new and nothing expired is idle if and only if the first did not take the fast path |
| `RetriedReconcile.RetryDecision` | internal/controller/reconciler.go:394-415 | the retry of a failed scheduled reconcile proposes the same and applies if and only if the status gives a reason or what is left of the cluster drifts |
| `RetriedReconcile.RetryEndsIff` | internal/controller/reconciler.go:394-415 | wherever the apply was cut off, the retry ends in the cluster of the undisturbed reconcile if and only if it applies again or nothing was left to do |
| `RetriedReconcile.RestartRetryIff` | internal/controller/reconciler.go:1470-1533 | cut off among the restarts, it does if and only if the status gives a reason or no remaining target lacks the token |
| `RetriedReconcile.RestartIsLost` | internal/controller/reconciler.go:1509-1533 | in every other case the retry does nothing and the restarts stay undone |
| `RetriedReconcile.LostForGood` | internal/controller/reconciler.go:1470-1478 | and once it has recorded the new writer no later reconcile that keeps it has a target |
| `RetriedReconcile.LostRestart` | internal/controller/reconciler.go:394-415 | a family of resources that lose the restart of their new writer in every cluster that drifts in any way |
| `RetriedReconcile.LabelDriftIsEnough` | internal/controller/reconciler.go:935-957 | a pod of the new writer without its label is such a drift |
| `RetriedReconcile.SensedRetryResumes` | internal/controller/reconciler.go:401-405 | a reconcile that sensed anew applies whenever a writer change is pending |
| `RetriedReconcile.DeletionCutDrift` | internal/controller/reconciler.go:577-630 | once everything is written the detector sees drift if and only if a pod has other labels or a stale role Service is left |
| `RetriedReconcile.LeftBehindIff` | internal/controller/reconciler.go:1323-1333 | a reconcile that is not frozen leaves objects of a disabled instance behind if and only if the status gives no reason to apply and the detector sees no drift |
| `RetriedReconcile.FreezeConsumesEdit` | internal/controller/reconciler.go:1954-2020 | a frozen reconcile records the generation of the spec it did not apply |
| `Affinity.Placement` | internal/render/resources.go:280-312 | a node is admitted after the merge if and only if it was before and lies in the zone, the degenerate selectors excepted |
| `Settings.PlacedBySettings` | internal/render/resources.go:280-312 | unless zone awareness is switched off or no zone is known, a required zone is what the merged selector adds and a preferred one a single preference of weight 100, under the key set or the well-known one |
| `Affinity.ConflictIsUnsatisfiable` | internal/controller/reconciler.go:2337-2375 | a reported conflict means no node of the zone is admitted before the merge, nor any node after it unless the topology key is blank |
| `Affinity.ReportedIff` | internal/controller/reconciler.go:2337-2375 | a conflict is reported if and only if every term rules the zone out and none by anything but its deciding expression |
| `Affinity.RejectedIsUnsatisfiable` | internal/controller/reconciler.go:2337-2375 | when every term rules the zone out, no node of the zone is admitted and the merged selector admits no node |
| `Affinity.PlainIsComplete` | internal/controller/reconciler.go:2351-2375 | for terms with at most one expression on the key, and no comparison, the check reports exactly the zones that every term rules out on that key |
| `Affinity.UnsatisfiableIff` | internal/render/resources.go:303-312 | whatever the user requires, the merged selector admits no node if and only if there are terms and each rules the zone out or cannot be met on some other key |
| `Affinity.MissedIff` | internal/controller/reconciler.go:2337-2375 | an unsatisfiable placement goes unreported if and only if no term is open for the zone and the deciding expression of one of them, if it has any, accepts the zone |
| `Affinity.ReportedIffUnsatisfiable` | internal/controller/reconciler.go:2337-2375 | for terms that are plain on the key and can be met on every other key, and a key that is not blank, a conflict is reported if and only if the placement is unsatisfiable |
| `Affinity.ConflictMissed` | internal/controller/reconciler.go:2351-2375 | an input that is missed because two expressions on the key contradict each other |
| `Affinity.ComparisonMissed` | internal/controller/reconciler.go:2351-2375 | a family of inputs missed because the only expression on the key is a comparison |
| `Affinity.OtherKeyMissed` | internal/controller/reconciler.go:2351-2375 | a family of plain inputs missed because one term contradicts itself on another key |
| `Affinity.FalseAlarmIff` | internal/controller/reconciler.go:2389-2396 | a satisfiable placement is reported if and only if every term is rejected on the detector's key and one is open on the renderer's; the key is then blank |
| `Affinity.FalseAlarm` | internal/controller/reconciler.go:2389-2396 | a family of such inputs |
| `DnsLabel.NormalizeLabel` | internal/render/resources.go:400-423 | the one-pass loop with its dash flag computes Normalize |
| `DnsLabel.NormalizeJoinsWords` | internal/render/resources.go:400-423 | a normalised label is the words of the text joined by single dashes |
| `DnsLabel.SafeLabelIsDnsLabel` | internal/render/resources.go:384-398 | every name has 1 to 63 characters from a-z, 0-9 and dash, no dash at either end and no two together |
| `DnsLabel.PlainName` | internal/render/resources.go:384-423 | a text of letters and digits becomes its lower case: in full up to 63 characters, and else its first 52, a dash and 10 characters of the digest |
| `DnsLabel.SafeLabelIdempotent` | internal/render/resources.go:384-398 | naming a name gives the same name |
| `DnsLabel.SameNameIff` | internal/render/resources.go:384-423 | two names of any length coincide if and only if both fit and have the same words, neither fits and both keep the same stem and digest piece, or the words of the fitting one are those of the other's name |
| `DnsLabel.WellFormedName` | internal/render/resources.go:372-398 | well-formed cluster and instance names that fit are joined by a dash unchanged |
| `DnsLabel.NamesCanCollide` | internal/render/resources.go:384-398 | two clusters with the same object name |
| `Naming.NamedLikeRole` | internal/render/resources.go:372-382 | an instance named like a role Service shares its object name, in every cluster |
| `Naming.DistinctNamesHold` | internal/render/resources.go:372-398 | well-formed names that differ as texts give a plan distinct object names |

## Left out

- The AWS and Kubernetes clients, database connections, secrets, leader election and process wiring: their answers are parameters.
- The status page, logging, events, condition messages and reason texts: they only report.
- PgBouncer configuration text and the assembly of pod specs: uninterpreted functions of spec and observation.
- Digests: topology hashes are injective, restart tokens a function of what they digest, the digest in a name any long enough text of letters and digits.
- When jobs are due, watch names and ticks: a step may happen at any time, which covers every schedule.
- A missing resource (nil) in the planner and in discovery: callers always have one.
- 32-bit wrap-around of counters: they are unbounded.
- The metadata worker: a ticker around RefreshCluster.
- The monitor's job timeout and the classification of probe errors: cancellation may happen at any step and a probe may find anything.
- API failures other than update conflicts in the scheduler's jobs: such a job commits nothing and is no step of a run.
- Pods that are created or deleted while a relabelling is under way.
- Server-side defaulting beyond the fields the drift check normalises.
- Resolver concurrency: cache operations run one after another, with a clock that does not go back.
- Quiescence.SecondReconcileIsIdle: asks that no missing name is in the topology, which LifecycleOf proves for serial runs; it is about scheduled reconciles, since one without a scheduler senses anew.
