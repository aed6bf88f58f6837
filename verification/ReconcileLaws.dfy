/** What holds after a whole reconcile: the pod labels are the recorded membership, resources go exactly when they
    expire, and a frozen one touches nothing. */
module ReconcileLaws {
  import opened Text
  import opened Domain
  import opened Planner
  import opened Commits
  import opened Objects
  import opened Relabel
  import opened Apply
  import opened ApplyLaws
  import opened Reconciler
  import opened Interleavings
  import opened SerialRuns
  import opened DiscoveryLatch
  import opened MissingLifecycle
  import opened BoundedPreservation

  // ---------------------------------------------------------------- labels follow the recorded membership

  lemma LabelsAfterReconcile(w: World, env: Renderer, r: Resource, mode: Mode, now: int)
    requires Decide(w, env, r, mode, now).Some? && !Decide(w, env, r, mode, now).value.proposal.plan.frozen
    ensures var o := Decide(w, env, r, mode, now).value;
            PodsQuiet(o.world.pods, env.clusterLabel(r.name), TargetsOf(o.proposal.plan))
  {
    var o := Decide(w, env, r, mode, now).value;
    if o.applied { PodsAfter(w.pods, env.clusterLabel(r.name), TargetsOf(o.proposal.plan)); }
  }

  lemma CommittedMembership(stored: Status, r: Resource, p: Proposal, missing: seq<Missing>, now: int)
    requires !p.plan.frozen
    ensures CommitReconcile(stored, r, p, missing, now).lastApplied == Settle(stored.lastApplied, p.plan.membership)
  {
  }

  /** After a reconcile that is not frozen, whether it applied or found nothing to do and whatever was
      stored when it committed, a managed pod carries a role's label exactly when its instance is in the
      membership just recorded for that role. */
  lemma LabelsAreRecordedMembership(
    w: World, env: Renderer, stored: Status, r: Resource, mode: Mode, now: int, pod: string)
    requires Sound(stored) && Sound(r.status) && ValidMode(mode)
    requires Decide(w, env, r, mode, now).Some? && !Decide(w, env, r, mode, now).value.proposal.plan.frozen
    requires var pods := Decide(w, env, r, mode, now).value.world.pods;
             pod in pods && Managed(pods[pod].labels, env.clusterLabel(r.name)) && Label(pods[pod].labels, InstanceKey) != ""
    ensures var o := Decide(w, env, r, mode, now).value;
            var labels, recorded := o.world.pods[pod].labels, Committed(stored, r, o, now).lastApplied;
            && (Label(labels, WriterKey) == "true" <==> Label(labels, InstanceKey) in recorded.writer)
            && (Label(labels, ReaderKey) == "true" <==> Label(labels, InstanceKey) in recorded.reader)
  {
    var o := Decide(w, env, r, mode, now).value;
    var labels := o.world.pods[pod].labels;
    LabelsAfterReconcile(w, env, r, mode, now);
    assert LabelsExact(labels, TargetsOf(o.proposal.plan));
    ProposalSound(r, mode, ReadyCounts(w.pods, env.clusterLabel(r.name)), now);
    CommittedMembership(stored, r, o.proposal, o.missing, now);
    RecordedElements(stored.lastApplied, o.proposal.plan.membership, Label(labels, InstanceKey));
  }

  // ---------------------------------------------------------------- resources go exactly when they expire

  /** No other missing, disabled or wanted instance shares the object name of `m`. */
  ghost predicate OwnName(env: Renderer, r: Resource, p: Proposal, m: Missing) {
    var n := InstanceName(env, r, m.name);
    && n !in ObjectNames(env, r, p.plan)
    && (forall x :: x in p.missing && InstanceName(env, r, x.name) == n ==> x == m)
    && (forall x :: x in p.plan.instances && x.disabled ==> InstanceName(env, r, x.obs.name) != n)
  }

  lemma ExpiredIsRemoved(spec: Spec, d: Discovery, missing: seq<Missing>, m: Missing, now: int)
    requires d.trusted && m in missing && m.name !in DiscoveredNames(d.instances) && ReadyForDelete(spec, m, now)
    ensures m.name in Removed(spec, d, missing, now)
  {
  }

  lemma OwnNameGone(env: Renderer, r: Resource, p: Proposal, m: Missing, now: int)
    requires p.sensed.discovery.trusted && m in p.missing && m.name !in DiscoveredNames(p.sensed.discovery.instances) && OwnName(env, r, p, m)
    ensures InstanceName(env, r, m.name) in Gone(env, r, p.plan, Removed(r.spec, p.sensed.discovery, p.missing, now)) <==> ReadyForDelete(r.spec, m, now)
  {
    var removed := Removed(r.spec, p.sensed.discovery, p.missing, now);
    if ReadyForDelete(r.spec, m, now) { ExpiredIsRemoved(r.spec, p.sensed.discovery, p.missing, m, now); }
    forall n | n in removed ensures InstanceName(env, r, n) == InstanceName(env, r, m.name) ==> ReadyForDelete(r.spec, m, now) {
      var x :| x in p.missing && x.name == n && ReadyForDelete(r.spec, x, now);
    }
  }

  lemma UnwantedAfterApply(w: World, env: Renderer, r: Resource, plan: Output, removed: set<string>, n: string)
    requires n !in ObjectNames(env, r, plan)
    ensures n in ApplyDeployments(w, env, r, plan, removed) <==> n in w.deployments && n !in Gone(env, r, plan, removed)
    ensures n in ApplyConfigMaps(w, env, r, plan, removed) <==> n in w.configMaps && n !in Gone(env, r, plan, removed)
    ensures n in Gone(env, r, plan, removed) ==> n !in ApplyServices(w, env, r, plan, removed)
  {
    PutAllOther(w.deployments, ObjectNames(env, r, plan), WantedDeployments(env, r, plan), CopyDeployment, Accept, n);
    PutAllOther(w.configMaps, ObjectNames(env, r, plan), WantedConfigMaps(env, r, plan), CopyConfigMap, Same, n);
  }

  lemma UnwantedServiceAfterApply(w: World, env: Renderer, r: Resource, plan: Output, removed: set<string>, n: string)
    requires n !in ServiceNames(env, r, plan) && n in w.services && Label(w.services[n].labels, InstanceKey) != ""
    ensures n in ApplyServices(w, env, r, plan, removed) <==> n !in Gone(env, r, plan, removed)
  {
    PutAllOther(w.services, ServiceNames(env, r, plan), WantedServices(env, r, plan), CopyService, Same, n);
  }

  /** A reconcile that is not frozen deletes the resources of a missing instance, and stops tracking it, exactly
      when both the missing count and the retention are met: not before, and not a reconcile later. */
  lemma DeletedExactlyWhenExpired(w: World, env: Renderer, r: Resource, mode: Mode, now: int, m: Missing)
    requires Decide(w, env, r, mode, now).Some? && !Decide(w, env, r, mode, now).value.proposal.plan.frozen
    requires var p := Decide(w, env, r, mode, now).value.proposal;
             m in p.missing && m.name !in DiscoveredNames(p.sensed.discovery.instances) && OwnName(env, r, p, m)
    requires InstanceName(env, r, m.name) in w.deployments && InstanceName(env, r, m.name) in w.configMaps
    ensures var o, n := Decide(w, env, r, mode, now).value, InstanceName(env, r, m.name);
            && (n !in o.world.deployments <==> ReadyForDelete(r.spec, m, now))
            && (n !in o.world.configMaps <==> ReadyForDelete(r.spec, m, now))
            && (m !in o.missing <==> ReadyForDelete(r.spec, m, now))
            && (ReadyForDelete(r.spec, m, now) ==> n !in o.world.services)
            && (n in w.services && Label(w.services[n].labels, InstanceKey) != "" && n !in RoleNames(env, r) ==>
                  (n !in o.world.services <==> ReadyForDelete(r.spec, m, now)))
  {
    var o, n := Decide(w, env, r, mode, now).value, InstanceName(env, r, m.name);
    var p := o.proposal;
    UnfrozenIsTrusted(r, mode, ReadyCounts(w.pods, env.clusterLabel(r.name)), now);
    OwnNameGone(env, r, p, m, now);
    UnwantedAfterApply(w, env, r, p.plan, Removed(r.spec, p.sensed.discovery, p.missing, now), n);
    if n in w.services && Label(w.services[n].labels, InstanceKey) != "" && n !in RoleNames(env, r) {
      UnwantedServiceAfterApply(w, env, r, p.plan, Removed(r.spec, p.sensed.discovery, p.missing, now), n);
    }
    TidiedIsRemaining(r, p, NeedsApply(w, env, r, p.plan), now);
    RemainingSpec(r.spec, p.sensed.discovery, p.missing, now);
  }

  // ---------------------------------------------------------------- readiness does not depend on membership labels

  /** Two pod maps that agree on everything but the membership labels. */
  ghost predicate SameButMembership(a: Pods, b: Pods, cluster: string) {
    && a.Keys == b.Keys
    && forall p :: p in a ==>
         && (Managed(a[p].labels, cluster) <==> Managed(b[p].labels, cluster)) && a[p].ready == b[p].ready
         && Label(a[p].labels, InstanceKey) == Label(b[p].labels, InstanceKey)
  }

  lemma StagePod(pods: Pods, cluster: string, t: Targets, first: set<string>, second: set<string>, p: string)
    requires p in pods
    ensures var pod := Stage(pods, t, first, second)[p];
            && (Managed(pod.labels, cluster) <==> Managed(pods[p].labels, cluster)) && pod.ready == pods[p].ready
            && Label(pod.labels, InstanceKey) == Label(pods[p].labels, InstanceKey)
  {
    OtherLabelsKept(pods[p].labels, t);
  }

  lemma StageSame(pods: Pods, cluster: string, t: Targets, first: set<string>, second: set<string>)
    ensures SameButMembership(Stage(pods, t, first, second), pods, cluster)
  {
    var now := Stage(pods, t, first, second);
    assert now.Keys == pods.Keys;
    forall p | p in now
      ensures (Managed(now[p].labels, cluster) <==> Managed(pods[p].labels, cluster)) && now[p].ready == pods[p].ready
           && Label(now[p].labels, InstanceKey) == Label(pods[p].labels, InstanceKey)
    {
      StagePod(pods, cluster, t, first, second, p);
    }
  }

  lemma SameReadyInstances(a: Pods, b: Pods, cluster: string)
    requires SameButMembership(a, b, cluster)
    ensures ReadyInstances(a, cluster) <= ReadyInstances(b, cluster)
  {
    forall n | n in ReadyInstances(a, cluster) ensures n in ReadyInstances(b, cluster) {
      var p :| p in a && Managed(a[p].labels, cluster) && a[p].ready && Label(a[p].labels, InstanceKey) != "" && Label(a[p].labels, InstanceKey) == n;
      assert p in b && Label(b[p].labels, InstanceKey) == n;
    }
  }

  lemma SameReadyPods(a: Pods, b: Pods, cluster: string, n: string)
    requires SameButMembership(a, b, cluster)
    ensures ReadyPods(a, cluster, n) == ReadyPods(b, cluster, n)
  {
  }

  /** Relabelling, finished or not, does not change which instances are ready. */
  lemma ReadyCountsKept(pods: Pods, cluster: string, t: Targets, first: set<string>, second: set<string>)
    ensures ReadyCounts(Stage(pods, t, first, second), cluster) == ReadyCounts(pods, cluster)
  {
    var now := Stage(pods, t, first, second);
    StageSame(pods, cluster, t, first, second);
    SameReadyInstances(now, pods, cluster);
    SameReadyInstances(pods, now, cluster);
    forall n ensures ReadyPods(now, cluster, n) == ReadyPods(pods, cluster, n) { SameReadyPods(now, pods, cluster, n); }
  }

  // ---------------------------------------------------------------- a frozen cluster stays as it is

  /** What a step does to the cluster: only a reconcile touches it, with the ready pods and the drift it finds there. */
  ghost predicate Touches(w: World, env: Renderer, r: Resource, step: Step, next: World) {
    if !step.Reconcile? then next == w
    else
      && step.ready == ReadyCounts(w.pods, env.clusterLabel(r.name)) && step.drift == Drifted(w, env, r, step.mode, step.now)
      && next == match Decide(w, env, r, step.mode, step.now)
                 case None => w
                 case Some(o) => o.world
  }

  /** The clusters of a serial run. */
  ghost predicate IsClusterRun(worlds: seq<World>, env: Renderer, run: seq<Resource>, steps: seq<Step>) {
    && IsSerial(run, steps) && |worlds| == |run|
    && forall k :: 0 <= k < |steps| ==> Touches(worlds[k], env, run[k], steps[k], worlds[k + 1])
  }

  lemma FrozenReconcileTouchesNothing(w: World, env: Renderer, r: Resource, mode: Mode, now: int)
    requires Decide(w, env, r, mode, now).Some? && Decide(w, env, r, mode, now).value.proposal.plan.frozen
    ensures !Decide(w, env, r, mode, now).value.applied && Decide(w, env, r, mode, now).value.world == w
  {
  }

  lemma UntrustedSenses(r: Resource, step: Step)
    requires step.Reconcile? && !r.status.discoveryTrusted.Trusted? && !Succeeds(step)
    ensures SenseDiscovery(r, step.mode).Some? ==> !SenseDiscovery(r, step.mode).value.discovery.trusted
  {
  }

  lemma UntrustedProposal(r: Resource, mode: Mode, ready: map<string, int>, now: int)
    requires Propose(r, mode, ready, now).Some? && !SenseDiscovery(r, mode).value.discovery.trusted
    ensures Propose(r, mode, ready, now).value.plan.frozen
  {
    FrozenReconcileIsInert(r.status, r, mode, ready, false, now);
  }

  lemma UntrustedIsFrozen(r: Resource, step: Step)
    requires step.Reconcile? && !r.status.discoveryTrusted.Trusted? && !Succeeds(step)
    ensures var p := Propose(r, step.mode, step.ready, step.now); p.Some? ==> p.value.plan.frozen
  {
    UntrustedSenses(r, step);
    if Propose(r, step.mode, step.ready, step.now).Some? { UntrustedProposal(r, step.mode, step.ready, step.now); }
  }

  lemma FrozenStepTouchesNothing(w: World, env: Renderer, r: Resource, step: Step, next: World)
    requires !r.status.discoveryTrusted.Trusted? && !Succeeds(step) && Touches(w, env, r, step, next)
    ensures next == w
  {
    if step.Reconcile? && Decide(w, env, r, step.mode, step.now).Some? {
      UntrustedIsFrozen(r, step);
      FrozenReconcileTouchesNothing(w, env, r, step.mode, step.now);
    }
  }

  /** From an untrusted state until an attempt succeeds, no object and no pod label of the cluster changes. */
  lemma {:induction false} FrozenClusterIsInert(worlds: seq<World>, env: Renderer, run: seq<Resource>, steps: seq<Step>, i: nat, j: nat)
    requires IsClusterRun(worlds, env, run, steps) && i <= j <= |steps|
    requires !run[i].status.discoveryTrusted.Trusted? && forall k :: i <= k < j ==> !Succeeds(steps[k])
    ensures worlds[j] == worlds[i]
    decreases j - i
  {
    if i < j {
      FrozenClusterIsInert(worlds, env, run, steps, i, j - 1);
      FreezeLatches(run, steps, i, j - 1);
      FrozenStepTouchesNothing(worlds[j - 1], env, run[j - 1], steps[j - 1], worlds[j]);
    }
  }
}
