/** The missing list in every interleaving.  Jobs commit the list of their snapshot, so an entry can be lowered or erased
    by a job that had read an older state; an erased instance is forgotten, and its objects are never deleted. */
module MissingEntries {
  import opened Text
  import opened Domain
  import opened Planner
  import opened Commits
  import opened Objects
  import opened Apply
  import opened Interleavings
  import opened SerialRuns
  import opened StaleSnapshots
  import opened MissingLifecycle
  import opened Reconciler
  import opened ReconcileLaws
  import opened BoundedPreservation

  function Entry(s: Status, n: string): Option<Missing> { LastMissing(s.missing, n) }

  /** The entry is gone, or its count went down. */
  predicate Loses(before: Option<Missing>, after: Option<Missing>) {
    before.Some? && (after.None? || after.value.count < before.value.count)
  }

  // ---------------------------------------------------------------- what a reconcile commits for a name

  /** This reconcile writes a missing list. */
  predicate Writes(stored: Status, p: Proposal, now: int) {
    p.sensed.discovery.trusted && (p.sensed.ran ==> !After(stored.lastDiscoveryTime, now))
  }

  /** This reconcile deletes the instance for good. */
  predicate Expires(r: Resource, p: Proposal, n: string, now: int) {
    var e := LastMissing(p.missing, n);
    && !p.plan.frozen && p.sensed.discovery.trusted && e.Some?
    && n !in DiscoveredNames(p.sensed.discovery.instances) && ReadyForDelete(r.spec, e.value, now)
  }

  lemma TidiedEntry(r: Resource, p: Proposal, drift: bool, now: int, n: string)
    requires NoDup(Map(MissingName, p.missing)) && p.sensed.discovery.trusted
    ensures LastMissing(Tidied(r, p, drift, now), n) == if Expires(r, p, n, now) then None else LastMissing(p.missing, n)
  {
    if !p.plan.frozen {
      TidiedIsRemaining(r, p, drift, now);
      RemainingSpec(r.spec, p.sensed.discovery, p.missing, now);
      LastMissingSpec(p.missing, n);
      var rest, e := Remaining(r.spec, p.sensed.discovery, p.missing, now), LastMissing(p.missing, n);
      if e.Some? {
        forall m | m in p.missing && m.name == n ensures m == e.value { TrackedBy(p.missing, n, Some(m)); }
      }
      TrackedBy(rest, n, if Expires(r, p, n, now) then None else e);
    }
  }

  lemma CommittedMissing(stored: Status, r: Resource, p: Proposal, missing: seq<Missing>, now: int)
    ensures CommitReconcile(stored, r, p, missing, now).missing == if Writes(stored, p, now) then missing else stored.missing
  {
  }

  lemma ProposedNoDup(r: Resource, mode: Mode, ready: map<string, int>, now: int)
    requires Propose(r, mode, ready, now).Some? && NoDup(Map(MissingName, r.status.missing))
    ensures NoDup(Map(MissingName, Propose(r, mode, ready, now).value.missing))
  {
    ProposeParts(r, mode, ready, now);
    MissingForNoDup(r.status, SenseDiscovery(r, mode).value.discovery, now);
  }

  /** The entry a reconcile leaves: that of its own list, unless it expires there, whatever is stored by then. */
  lemma ReconcileEntry(stored: Status, r: Resource, mode: Mode, ready: map<string, int>, drift: bool, now: int, n: string)
    requires Propose(r, mode, ready, now).Some? && NoDup(Map(MissingName, r.status.missing))
    ensures var p := Propose(r, mode, ready, now).value;
            Entry(ReconcileStep(stored, r, mode, ready, drift, now), n) ==
            if !Writes(stored, p, now) then Entry(stored, n) else if Expires(r, p, n, now) then None else LastMissing(p.missing, n)
  {
    var p := Propose(r, mode, ready, now).value;
    ProposedNoDup(r, mode, ready, now);
    CommittedMissing(stored, r, p, Tidied(r, p, drift, now), now);
    if p.sensed.discovery.trusted { TidiedEntry(r, p, drift, now, n); }
  }

  /** The entry a discovery job leaves: none if it finds the instance or its snapshot does not know it, and otherwise the
      entry of its snapshot with the count raised. */
  lemma DiscoverEntry(stored: Status, r: Resource, attempt: Attempt, now: int, n: string)
    requires NoDup(Map(MissingName, r.status.missing)) && n != ""
    ensures var d := JobDiscovery(r, attempt).discovery;
            Entry(DiscoverStep(stored, r, attempt, now), n) ==
            if After(stored.lastDiscoveryTime, now) || !d.trusted then Entry(stored, n)
            else if n in Names(d.instances) || TrackOf(r.status, n).Unknown? then None
            else Some(Bump(Entry(r.status, n), n, now))
  {
    var d := JobDiscovery(r, attempt).discovery;
    if d.trusted { BumpedSpec(r.status, d, now, n); }
  }

  // ---------------------------------------------------------------- exactly when an entry is lost

  function CountOf(s: Status, n: string): int { if Entry(s, n).Some? then Entry(s, n).value.count else 0 }

  /** The step, made from snapshot `r` onto `current`, lowers or erases the entry of the instance. */
  predicate Takes(current: Status, r: Resource, step: Step, n: string) {
    Entry(current, n).Some? &&
    match step
    case Edit(_) => false
    case Monitor(_, _, _) => false
    case Discover(_, attempt, now) =>
      var d := JobDiscovery(r, attempt).discovery;
      && !After(current.lastDiscoveryTime, now) && d.trusted
      && (n in Names(d.instances) || TrackOf(r.status, n).Unknown? || CountOf(r.status, n) + 1 < CountOf(current, n))
    case Reconcile(_, mode, ready, _, now) =>
      && Propose(r, mode, ready, now).Some?
      && var p := Propose(r, mode, ready, now).value;
         && Writes(current, p, now)
         && (|| LastMissing(p.missing, n).None? || LastMissing(p.missing, n).value.count < CountOf(current, n)
             || Expires(r, p, n, now))
  }

  function SnapshotOf(run: seq<Resource>, step: Step): Resource
    requires run != [] && (step.Edit? || step.snapshot < |run|)
  {
    if step.Edit? then run[|run| - 1] else run[step.snapshot]
  }

  lemma NextEntry(run: seq<Resource>, step: Step, n: string)
    requires run != [] && ValidStep(run, step) && n != ""
    requires NoDup(Map(MissingName, SnapshotOf(run, step).status.missing))
    ensures Loses(Entry(run[|run| - 1].status, n), Entry(Next(run, step).status, n)) <==>
            Takes(run[|run| - 1].status, SnapshotOf(run, step), step, n)
  {
    var current, r := run[|run| - 1].status, SnapshotOf(run, step);
    match step
    case Edit(_) =>
    case Monitor(_, _, _) =>
    case Discover(_, attempt, now) => DiscoverEntry(current, r, attempt, now, n);
    case Reconcile(_, mode, ready, drift, now) =>
      if Propose(r, mode, ready, now).Some? { ReconcileEntry(current, r, mode, ready, drift, now, n); }
  }

  /** In every interleaving, for every step and every instance: its entry is lowered or erased if and only if the step
      finds it, deletes it as expired, or works from a snapshot that does not have the entry or has a lower count. */
  lemma EntryLostIff(run: seq<Resource>, steps: seq<Step>, i: nat, n: string)
    requires IsRun(run, steps) && i < |steps| && ValidStep(run[..i + 1], steps[i]) && n != ""
    ensures Loses(Entry(run[i].status, n), Entry(run[i + 1].status, n)) <==>
            Takes(run[i].status, SnapshotOf(run[..i + 1], steps[i]), steps[i], n)
  {
    var before := run[..i + 1];
    StepOf(run, steps, i);
    RunSound(run, steps, i);
    if !steps[i].Edit? { SameState(run, i + 1, steps[i].snapshot); }
    NextEntry(before, steps[i], n);
  }

  lemma ScheduledParts(r: Resource, ready: map<string, int>, now: int)
    ensures Propose(r, Scheduled, ready, now).Some?
    ensures var p := Propose(r, Scheduled, ready, now).value;
            p.sensed.discovery == CachedDiscovery(r.status) && !p.sensed.ran && p.missing == r.status.missing
  {
  }

  /** For a scheduled reconcile: if and only if its snapshot is trusted and has no entry, a lower count, or one that has
      expired there. */
  lemma ScheduledTakesIff(current: Status, r: Resource, step: Step, n: string)
    requires step.Reconcile? && step.mode.Scheduled?
    ensures var e, stored := Entry(r.status, n), Entry(current, n);
            Takes(current, r, step, n) <==>
            && CachedDiscovery(r.status).trusted && stored.Some?
            && (|| e.None? || e.value.count < stored.value.count
                || (&& n !in DiscoveredNames(r.status.topology) && ReadyForDelete(r.spec, e.value, step.now)
                    && !Propose(r, Scheduled, step.ready, step.now).value.plan.frozen))
  {
    ScheduledParts(r, step.ready, step.now);
  }

  // ---------------------------------------------------------------- inputs

  ghost predicate AllBy(steps: seq<Step>, now: int) { forall i :: 0 <= i < |steps| && !steps[i].Edit? ==> steps[i].now <= now }

  /** One more discovery of a serial run moves every name's track on. */
  lemma SerialFinding(run: seq<Resource>, steps: seq<Step>, good: seq<Observation>, now: int, n: string) returns (longer: seq<Resource>, more: seq<Step>)
    requires IsSerial(run, steps) && TrustedShape(good) && n != "" && AllBy(steps, now) && !After(run[|steps|].status.lastDiscoveryTime, now)
    ensures IsSerial(longer, more) && |more| == |steps| + 1 && longer[..|run|] == run && AllBy(more, now)
    ensures var s := longer[|run|].status;
            s.discoveryTrusted.Trusted? && s.topology == good && s.lastDiscoveryTime == Some(now) && longer[|run|].spec == run[|steps|].spec
    ensures TrackOf(longer[|run|].status, n) == Observed(TrackOf(run[|steps|].status, n), n in Names(good), now)
  {
    longer := AfterFinding(run, steps, good, now);
    more := steps + [Discovers(run, Answered(Discovery(true, good)), now)];
    assert longer[|steps|] == run[|steps|];
    LifecycleOf(longer, more, |steps|, n);
  }

  /** Three discoveries in a row: the instance is there, then twice it is not. */
  lemma VanishingRun(r: Resource, g: seq<Observation>, h: seq<Observation>, n: string) returns (run: seq<Resource>, steps: seq<Step>)
    requires r.status == EMPTY_STATUS && TrustedShape(g) && TrustedShape(h) && n in Names(g) && n !in Names(h) && n != ""
    ensures IsSerial(run, steps) && |steps| == 3 && run[0] == r && run[2].spec == r.spec
    ensures CachedDiscovery(run[2].status).trusted && run[3].status.topology == h
    ensures TrackOf(run[2].status, n) == Absent(1, 2) && TrackOf(run[3].status, n) == Absent(2, 2)
  {
    RunStarts(r);
    var run1, steps1 := SerialFinding([r], [], g, 1, n);
    var run2, steps2 := SerialFinding(run1, steps1, h, 2, n);
    run, steps := SerialFinding(run2, steps2, h, 3, n);
    assert run2[0] == run1[0] == r && run[0] == run2[0] && run[2] == run2[2];
  }

  /** A reconcile that had read the state of count one takes a count of two back to one: for every resource that removes
      later than after one discovery, and every instance that one topology has and another has not. */
  lemma CountGoesBack(r: Resource, g: seq<Observation>, h: seq<Observation>, n: string) returns (run: seq<Resource>, steps: seq<Step>)
    requires r.status == EMPTY_STATUS && TrustedShape(g) && TrustedShape(h) && n in Names(g) && n !in Names(h) && n != ""
    requires RemoveAfter(r.spec) > 1
    ensures IsRun(run, steps) && |steps| == 4 && steps[3] == Reconcile(2, Scheduled, map[], false, 4)
    ensures TrackOf(run[3].status, n) == Absent(2, 2) && TrackOf(run[4].status, n) == Absent(1, 2)
  {
    var run3, steps3 := VanishingRun(r, g, h, n);
    run := AfterStaleReconcile(run3, steps3, 2, 4);
    steps := steps3 + [Reconcile(2, Scheduled, map[], false, 4)];
    assert run[3] == run3[3];
    RunOrderly(run3, steps3, 2);
    StaleTrack(run3[3].status, run3[2], map[], false, 4, n);
  }

  lemma ScheduledTopology(stored: Status, r: Resource, p: Proposal, missing: seq<Missing>, now: int)
    requires !p.sensed.ran
    ensures CommitReconcile(stored, r, p, missing, now).topology == stored.topology
  {
  }

  /** What a scheduled reconcile on a trusted snapshot makes of an instance that is gone by then: what the snapshot says
      about it, absent with its count or nothing at all, unless it expires. */
  lemma StaleTrack(stored: Status, r: Resource, ready: map<string, int>, drift: bool, now: int, n: string)
    requires NoDup(Map(MissingName, r.status.missing)) && CachedDiscovery(r.status).trusted && n !in Names(stored.topology)
    ensures var p, e := Propose(r, Scheduled, ready, now).value, Entry(r.status, n);
            TrackOf(ReconcileStep(stored, r, Scheduled, ready, drift, now), n) ==
            if e.None? || Expires(r, p, n, now) then Unknown else Absent(e.value.count, if e.value.first.Some? then e.value.first.value else 0)
  {
    var p := Propose(r, Scheduled, ready, now).value;
    ScheduledParts(r, ready, now);
    ReconcileEntry(stored, r, Scheduled, ready, drift, now, n);
    ScheduledTopology(stored, r, p, Tidied(r, p, drift, now), now);
  }

  /** A reconcile that had read the state before the instance vanished erases its entry: found at 1, gone at 2, and
      forgotten at 3, for every resource and every instance that one topology has and another has not. */
  lemma EntryErased(r: Resource, g: seq<Observation>, h: seq<Observation>, n: string) returns (run: seq<Resource>, steps: seq<Step>)
    requires r.status == EMPTY_STATUS && TrustedShape(g) && TrustedShape(h) && n in Names(g) && n !in Names(h) && n != ""
    ensures IsRun(run, steps) && |steps| == 3 && steps[2] == Reconcile(1, Scheduled, map[], false, 3)
    ensures TrackOf(run[1].status, n) == Present && TrackOf(run[2].status, n) == Absent(1, 2) && TrackOf(run[3].status, n) == Unknown
  {
    RunStarts(r);
    var run1, steps1 := SerialFinding([r], [], g, 1, n);
    var run2, steps2 := SerialFinding(run1, steps1, h, 2, n);
    run := AfterStaleReconcile(run2, steps2, 1, 3);
    steps := steps2 + [Reconcile(1, Scheduled, map[], false, 3)];
    assert run2[1] == run1[1] && run[2] == run2[2] && run[1] == run2[1];
    RunOrderly(run2, steps2, 1);
    FirstEntryEmpty(run2, steps2, n);
    StaleTrack(run2[2].status, run2[1], map[], false, 3, n);
  }

  lemma FirstEntryEmpty(run: seq<Resource>, steps: seq<Step>, n: string)
    requires IsSerial(run, steps) && |steps| >= 1 && n in Names(run[1].status.topology)
    ensures Entry(run[1].status, n).None?
  {
    RunOrderly(run, steps, 1);
    LastMissingSpec(run[1].status.missing, n);
  }

  // ---------------------------------------------------------------- forgotten for good

  ghost predicate Forgotten(s: Status, n: string) { TrackOf(s, n).Unknown? }

  /** The step does not discover the instance. */
  predicate Misses(r: Resource, step: Step, n: string) {
    FindsTopology(r, step) ==> n !in Names(Finding(r, step).value.instances)
  }

  lemma DiscoverForgets(current: Status, r: Resource, step: Step, n: string)
    requires step.Discover? && Forgotten(current, n) && Forgotten(r.status, n) && Misses(r, step, n) && n != ""
    requires NoDup(Map(MissingName, r.status.missing))
    ensures Forgotten(DiscoverStep(current, r, step.attempt, step.now), n)
  {
    DiscoverEntry(current, r, step.attempt, step.now, n);
  }

  lemma CommittedTopology(stored: Status, r: Resource, p: Proposal, missing: seq<Missing>, now: int)
    ensures var s := CommitReconcile(stored, r, p, missing, now);
            s.topology == if p.sensed.ran && Writes(stored, p, now) then p.sensed.discovery.instances else stored.topology
  {
  }

  lemma ProposedForgets(r: Resource, step: Step, n: string)
    requires step.Reconcile? && Propose(r, step.mode, step.ready, step.now).Some?
    requires Forgotten(r.status, n) && n != "" && NoDup(Map(MissingName, r.status.missing))
    ensures LastMissing(Propose(r, step.mode, step.ready, step.now).value.missing, n).None?
  {
    ProposeParts(r, step.mode, step.ready, step.now);
    var d := SenseDiscovery(r, step.mode).value.discovery;
    if d.trusted { BumpedSpec(r.status, d, step.now, n); }
  }

  lemma CommitMisses(stored: Status, r: Resource, p: Proposal, missing: seq<Missing>, now: int, n: string)
    requires n !in Names(stored.topology)
    requires p.sensed.ran && p.sensed.discovery.trusted ==> n !in Names(p.sensed.discovery.instances)
    ensures n !in Names(CommitReconcile(stored, r, p, missing, now).topology)
  {
    CommittedTopology(stored, r, p, missing, now);
  }

  lemma SensedMisses(r: Resource, step: Step, n: string)
    requires step.Reconcile? && SenseDiscovery(r, step.mode).Some? && Misses(r, step, n)
    ensures var sensed := SenseDiscovery(r, step.mode).value;
            sensed.ran && sensed.discovery.trusted ==> n !in Names(sensed.discovery.instances)
  {
  }

  lemma ReconcileMisses(current: Status, r: Resource, step: Step, n: string)
    requires step.Reconcile? && n !in Names(current.topology) && Misses(r, step, n)
    ensures n !in Names(ReconcileStep(current, r, step.mode, step.ready, step.drift, step.now).topology)
  {
    var proposed := Propose(r, step.mode, step.ready, step.now);
    if proposed.Some? {
      ProposeParts(r, step.mode, step.ready, step.now);
      SensedMisses(r, step, n);
      CommitMisses(current, r, proposed.value, Tidied(r, proposed.value, step.drift, step.now), step.now, n);
    }
  }

  lemma ReconcileUntracked(current: Status, r: Resource, step: Step, n: string)
    requires step.Reconcile? && Forgotten(current, n) && Forgotten(r.status, n) && n != "" && NoDup(Map(MissingName, r.status.missing))
    ensures LastMissing(ReconcileStep(current, r, step.mode, step.ready, step.drift, step.now).missing, n).None?
  {
    if Propose(r, step.mode, step.ready, step.now).Some? {
      ProposedForgets(r, step, n);
      ReconcileEntry(current, r, step.mode, step.ready, step.drift, step.now, n);
    }
  }

  lemma ReconcileForgets(current: Status, r: Resource, step: Step, n: string)
    requires step.Reconcile? && Forgotten(current, n) && Forgotten(r.status, n) && Misses(r, step, n) && n != ""
    requires NoDup(Map(MissingName, r.status.missing))
    ensures Forgotten(ReconcileStep(current, r, step.mode, step.ready, step.drift, step.now), n)
  {
    ReconcileMisses(current, r, step, n);
    ReconcileUntracked(current, r, step, n);
  }

  lemma MonitorForgets(current: Status, r: Resource, step: Step, n: string)
    requires step.Monitor? && Forgotten(current, n)
    ensures Forgotten(MonitorStep(current, r, step.check, step.now), n)
  {
  }

  lemma NextForgets(run: seq<Resource>, step: Step, n: string)
    requires run != [] && ValidStep(run, step) && n != "" && Forgotten(run[|run| - 1].status, n)
    requires var r := SnapshotOf(run, step); Forgotten(r.status, n) && Misses(r, step, n) && NoDup(Map(MissingName, r.status.missing))
    ensures Forgotten(Next(run, step).status, n)
  {
    var current, r := run[|run| - 1].status, SnapshotOf(run, step);
    match step
    case Edit(_) =>
    case Monitor(_, _, _) => MonitorForgets(current, r, step, n);
    case Discover(_, _, _) => DiscoverForgets(current, r, step, n);
    case Reconcile(_, _, _, _, _) => ReconcileForgets(current, r, step, n);
  }

  /** Step k reads a state from i on and does not discover the instance. */
  ghost predicate ReadsSince(run: seq<Resource>, steps: seq<Step>, i: nat, k: nat, n: string)
    requires k < |steps| < |run|
  {
    steps[k].Edit? || (i <= steps[k].snapshot <= k && Misses(run[steps[k].snapshot], steps[k], n))
  }

  /** A forgotten instance stays forgotten until it is discovered again, in every interleaving whose jobs have read a state
      since: no discovery that misses it ever starts to count it. */
  lemma {:induction false} ForgottenForGood(run: seq<Resource>, steps: seq<Step>, i: nat, j: nat, n: string)
    requires IsRun(run, steps) && i <= j <= |steps| && n != "" && Forgotten(run[i].status, n)
    requires forall k :: i <= k < j ==> ReadsSince(run, steps, i, k, n)
    ensures forall m :: i <= m <= j ==> Forgotten(run[m].status, n)
    decreases j - i
  {
    if i < j {
      ForgottenForGood(run, steps, i, j - 1, n);
      assert ReadsSince(run, steps, i, j - 1, n);
      ForgetsAgain(run, steps, i, j - 1, n);
    }
  }

  lemma ForgetsAgain(run: seq<Resource>, steps: seq<Step>, i: nat, k: nat, n: string)
    requires IsRun(run, steps) && i <= k < |steps| && n != "" && ReadsSince(run, steps, i, k, n)
    requires forall m :: i <= m <= k ==> Forgotten(run[m].status, n)
    ensures Forgotten(run[k + 1].status, n)
  {
    var before := run[..k + 1];
    StepOf(run, steps, k);
    RunSound(run, steps, k);
    if !steps[k].Edit? { SameState(run, k + 1, steps[k].snapshot); }
    NextForgets(before, steps[k], n);
  }

  // ---------------------------------------------------------------- and its objects stay

  /** The objects of an instance, under their name. */
  ghost predicate HasObjects(w: World, name: string) {
    && name in w.deployments && name in w.configMaps && name in w.services
    && Label(w.services[name].labels, InstanceKey) != ""
  }

  /** No object name a reconcile of this proposal writes or deletes is the given one, other than for the instance itself
      when it is missing. */
  ghost predicate NameApart(env: Renderer, r: Resource, p: Proposal, n: string) {
    var name := InstanceName(env, r, n);
    && name !in ServiceNames(env, r, p.plan)
    && (forall m :: m in p.missing && InstanceName(env, r, m.name) == name ==> m.name == n)
    && (forall x :: x in p.plan.instances && x.disabled ==> InstanceName(env, r, x.obs.name) != name)
  }

  lemma ApplyKeepsObjects(w: World, env: Renderer, r: Resource, plan: Output, removed: set<string>, name: string)
    requires name !in ServiceNames(env, r, plan) && name !in Gone(env, r, plan, removed) && HasObjects(w, name)
    ensures HasObjects(ApplyPlan(w, env, r, plan, removed), name)
  {
    assert forall x :: x in ObjectNames(env, r, plan) ==> x in ServiceNames(env, r, plan);
    UnwantedAfterApply(w, env, r, plan, removed, name);
    UnwantedServiceAfterApply(w, env, r, plan, removed, name);
    PutAllOther(w.services, ServiceNames(env, r, plan), WantedServices(env, r, plan), CopyService, Same, name);
  }

  lemma UntrackedNotGone(env: Renderer, r: Resource, p: Proposal, now: int, n: string)
    requires NameApart(env, r, p, n) && LastMissing(p.missing, n).None?
    ensures InstanceName(env, r, n) !in Gone(env, r, p.plan, Removed(r.spec, p.sensed.discovery, p.missing, now))
  {
    LastMissingSpec(p.missing, n);
  }

  /** A reconcile deletes the objects of no instance that is not in its missing list. */
  lemma UntrackedObjectsStay(w: World, env: Renderer, r: Resource, mode: Mode, now: int, n: string)
    requires Decide(w, env, r, mode, now).Some?
    requires var p := Decide(w, env, r, mode, now).value.proposal; NameApart(env, r, p, n) && LastMissing(p.missing, n).None?
    requires HasObjects(w, InstanceName(env, r, n))
    ensures HasObjects(Decide(w, env, r, mode, now).value.world, InstanceName(env, r, n))
  {
    var o := Decide(w, env, r, mode, now).value;
    if o.applied {
      UntrackedNotGone(env, r, o.proposal, now, n);
      ApplyKeepsObjects(w, env, r, o.proposal.plan, Removed(r.spec, o.proposal.sensed.discovery, o.proposal.missing, now), InstanceName(env, r, n));
    }
  }

  /** The clusters of a run: reconciles touch them, working from their snapshots. */
  ghost predicate ClustersOf(worlds: seq<World>, env: Renderer, run: seq<Resource>, steps: seq<Step>) {
    && |worlds| == |run| == |steps| + 1
    && forall k :: 0 <= k < |steps| ==> TouchedAt(worlds, env, run, steps, k)
  }

  ghost predicate TouchedAt(worlds: seq<World>, env: Renderer, run: seq<Resource>, steps: seq<Step>, k: nat)
    requires |worlds| == |run| == |steps| + 1 && k < |steps|
  {
    (steps[k].Edit? || steps[k].snapshot <= k) &&
    Touches(worlds[k], env, if steps[k].Edit? then run[k] else run[steps[k].snapshot], steps[k], worlds[k + 1])
  }

  ghost predicate ApartAt(worlds: seq<World>, env: Renderer, run: seq<Resource>, steps: seq<Step>, k: nat, n: string)
    requires |worlds| == |run| == |steps| + 1 && k < |steps|
  {
    steps[k].Reconcile? && steps[k].snapshot <= k && Decide(worlds[k], env, run[steps[k].snapshot], steps[k].mode, steps[k].now).Some? ==>
      NameApart(env, run[steps[k].snapshot], Decide(worlds[k], env, run[steps[k].snapshot], steps[k].mode, steps[k].now).value.proposal, n)
  }

  lemma StepLeavesObjects(w: World, env: Renderer, r: Resource, step: Step, next: World, n: string)
    requires Touches(w, env, r, step, next) && Forgotten(r.status, n) && n != "" && NoDup(Map(MissingName, r.status.missing))
    requires step.Reconcile? && Decide(w, env, r, step.mode, step.now).Some? ==> NameApart(env, r, Decide(w, env, r, step.mode, step.now).value.proposal, n)
    requires HasObjects(w, InstanceName(env, r, n))
    ensures HasObjects(next, InstanceName(env, r, n))
  {
    if step.Reconcile? && Decide(w, env, r, step.mode, step.now).Some? {
      ProposedForgets(r, step, n);
      UntrackedObjectsStay(w, env, r, step.mode, step.now, n);
    }
  }

  lemma {:induction false} NameKept(run: seq<Resource>, steps: seq<Step>, k: nat)
    requires IsRun(run, steps) && k <= |steps|
    ensures run[k].name == run[0].name
  {
    if k > 0 {
      NameKept(run, steps, k - 1);
      StepOf(run, steps, k - 1);
    }
  }

  /** Step k reads a state from i on, does not discover the instance, and its object name is nobody else's. */
  ghost predicate PassesBy(worlds: seq<World>, env: Renderer, run: seq<Resource>, steps: seq<Step>, i: nat, k: nat, n: string)
    requires |worlds| == |run| == |steps| + 1 && k < |steps|
  {
    ReadsSince(run, steps, i, k, n) && ApartAt(worlds, env, run, steps, k, n)
  }

  ghost function Holding(worlds: seq<World>, name: string): seq<bool> { seq(|worlds|, k requires 0 <= k < |worlds| => HasObjects(worlds[k], name)) }

  lemma HoldingKept(worlds: seq<World>, env: Renderer, run: seq<Resource>, steps: seq<Step>, i: nat, k: nat, n: string)
    requires IsRun(run, steps) && |worlds| == |run| && i <= k < |steps| && n != ""
    requires TouchedAt(worlds, env, run, steps, k) && PassesBy(worlds, env, run, steps, i, k, n)
    requires forall m :: i <= m <= k ==> Forgotten(run[m].status, n)
    ensures Keeps(Holding(worlds, env.objectName(run[0].name, n)), k)
  {
    if HasObjects(worlds[k], env.objectName(run[0].name, n)) { LeavesAt(worlds, env, run, steps, i, k, n); }
  }

  lemma ForgottenWhilePassedBy(worlds: seq<World>, env: Renderer, run: seq<Resource>, steps: seq<Step>, i: nat, j: nat, n: string)
    requires IsRun(run, steps) && |worlds| == |run| && i <= j <= |steps| && n != "" && Forgotten(run[i].status, n)
    requires forall k :: i <= k < j ==> PassesBy(worlds, env, run, steps, i, k, n)
    ensures forall m :: i <= m <= j ==> Forgotten(run[m].status, n)
  {
    forall k | i <= k < j ensures ReadsSince(run, steps, i, k, n) { assert PassesBy(worlds, env, run, steps, i, k, n); }
    ForgottenForGood(run, steps, i, j, n);
  }

  /** The deployment, config map and Service of a forgotten instance are deleted by no step, however long the run, until it
      is discovered again. */
  lemma ForgottenObjectsStay(worlds: seq<World>, env: Renderer, run: seq<Resource>, steps: seq<Step>, i: nat, j: nat, n: string)
    requires IsRun(run, steps) && ClustersOf(worlds, env, run, steps) && i <= j <= |steps| && n != "" && Forgotten(run[i].status, n)
    requires forall k :: i <= k < j ==> PassesBy(worlds, env, run, steps, i, k, n)
    requires HasObjects(worlds[i], env.objectName(run[0].name, n))
    ensures HasObjects(worlds[j], env.objectName(run[0].name, n))
  {
    ForgottenWhilePassedBy(worlds, env, run, steps, i, j, n);
    forall k | i <= k < j ensures Keeps(Holding(worlds, env.objectName(run[0].name, n)), k) {
      assert TouchedAt(worlds, env, run, steps, k) && PassesBy(worlds, env, run, steps, i, k, n);
      HoldingKept(worlds, env, run, steps, i, k, n);
    }
    Persists(Holding(worlds, env.objectName(run[0].name, n)), i, j);
  }

  lemma LeavesAt(worlds: seq<World>, env: Renderer, run: seq<Resource>, steps: seq<Step>, i: nat, k: nat, n: string)
    requires IsRun(run, steps) && |worlds| == |run| && i <= k < |steps| && n != ""
    requires TouchedAt(worlds, env, run, steps, k) && ReadsSince(run, steps, i, k, n) && ApartAt(worlds, env, run, steps, k, n)
    requires forall m :: i <= m <= k ==> Forgotten(run[m].status, n)
    requires HasObjects(worlds[k], env.objectName(run[0].name, n))
    ensures HasObjects(worlds[k + 1], env.objectName(run[0].name, n))
  {
    if !steps[k].Edit? {
      RunSound(run, steps, k);
      NameKept(run, steps, steps[k].snapshot);
      StepLeavesObjects(worlds[k], env, run[steps[k].snapshot], steps[k], worlds[k + 1], n);
    }
  }
}
