/** Retrying a reconcile that failed half way.  The retry applies again only if it sees a reason to, and the drift
    detector does not look at everything an apply does, so some of the work of a failed apply is never resumed. */
module RetriedReconcile {
  import opened Text
  import Affinity
  import opened Domain
  import opened Planner
  import opened PlannerLaws
  import opened Commits
  import opened Objects
  import opened Relabel
  import opened Apply
  import opened ApplyLaws
  import opened RetryLaws
  import opened Reconciler
  import opened ReconcileLaws
  import opened Interleavings
  import opened Quiescence

  // ---------------------------------------------------------------- the retry

  /** A reason to apply that does not depend on the state of the cluster. */
  predicate Reason(r: Resource, p: Proposal, now: int) {
    || r.generation != r.status.observedGeneration || r.status.lastAppliedTime.None?
    || ((p.sensed.ran || p.monitorRan) && DesiredStateChanged(r.status, p.plan))
    || (exists m :: m in p.missing && ReadyForDelete(r.spec, m, now))
  }

  function GoneBy(r: Resource, p: Proposal, now: int): set<string> { Removed(r.spec, p.sensed.discovery, p.missing, now) }

  /** A scheduled reconcile that applied, or tried to, and what a failure may have left of it.  Nothing more expires
      before the retry. */
  ghost predicate FailedApply(w: World, cut: World, env: Renderer, r: Resource, now: int, later: int) {
    && Decide(w, env, r, Scheduled, now).Some? && Decide(w, env, r, Scheduled, now).value.applied
    && var p := Decide(w, env, r, Scheduled, now).value.proposal;
       && DistinctNames(env, r, p.plan, GoneBy(r, p, now)) && CutWorld(cut, w, env, r, p.plan, GoneBy(r, p, now))
       && GoneBy(r, p, later) == GoneBy(r, p, now)
  }

  lemma CutReadyCounts(pods: Pods, before: Pods, cluster: string, t: Targets)
    requires CutPods(pods, before, cluster, t)
    ensures ReadyCounts(pods, cluster) == ReadyCounts(before, cluster)
  {
    var first, second :| pods == Stage(before, t, first, second) && first <= ManagedPods(before, cluster) && second <= ManagedPods(before, cluster);
    ReadyCountsKept(before, cluster, t, first, second);
  }

  /** The retry proposes what the failed reconcile proposed, and applies it if and only if there is a reason in the
      status or drift in what is left of the cluster. */
  lemma RetryDecision(w: World, cut: World, env: Renderer, r: Resource, now: int, later: int)
    requires FailedApply(w, cut, env, r, now, later)
    ensures Decide(cut, env, r, Scheduled, later).Some?
    ensures var p, o := Decide(w, env, r, Scheduled, now).value.proposal, Decide(cut, env, r, Scheduled, later).value;
            o.proposal == p && (o.applied <==> Reason(r, p, later) || NeedsApply(cut, env, r, p.plan))
  {
    var p := Decide(w, env, r, Scheduled, now).value.proposal;
    CutReadyCounts(cut.pods, w.pods, env.clusterLabel(r.name), TargetsOf(p.plan));
  }

  /** Wherever the apply was cut off, the retried reconcile ends in the cluster the undisturbed one would have left if
      and only if it applies again or nothing was left to do. */
  lemma RetryEndsIff(w: World, cut: World, env: Renderer, r: Resource, now: int, later: int)
    requires FailedApply(w, cut, env, r, now, later)
    ensures Decide(cut, env, r, Scheduled, later).Some?
    ensures var o, retry := Decide(w, env, r, Scheduled, now).value, Decide(cut, env, r, Scheduled, later).value;
            && (retry.applied ==> retry.world == o.world)
            && (!retry.applied ==> retry.world == cut)
            && (retry.world == o.world <==> Reason(r, o.proposal, later) || NeedsApply(cut, env, r, o.proposal.plan) || cut == o.world)
  {
    var p := Decide(w, env, r, Scheduled, now).value.proposal;
    RetryDecision(w, cut, env, r, now, later);
    RetryConverges(w, cut, env, r, p.plan, GoneBy(r, p, now));
  }

  // ---------------------------------------------------------------- cut off among the restarts

  /** Everything is applied but the restarts of the targets outside `some`. */
  function RestartCut(w: World, env: Renderer, r: Resource, plan: Output, removed: set<string>, some: set<string>): World {
    ApplyPlan(w, env, r, plan, removed).(deployments :=
      Restarted(PutDeployments(w, env, r, plan) - Gone(env, r, plan, removed), some, TokenFor(env, r, plan)))
  }

  lemma RestartCutIsCut(w: World, env: Renderer, r: Resource, plan: Output, removed: set<string>, some: set<string>)
    requires some <= RestartNames(env, r, plan)
    ensures CutWorld(RestartCut(w, env, r, plan, removed, some), w, env, r, plan, removed)
  {
    CutAfterObjects(w, env, r, plan, removed);
    CutAtRestart(w, env, r, plan, removed, some);
    var managed := ManagedPods(w.pods, env.clusterLabel(r.name));
    assert Relabelled(w.pods, env.clusterLabel(r.name), TargetsOf(plan)) == Stage(w.pods, TargetsOf(plan), managed, managed);
  }

  /** The detector takes deployments alike that differ in their restart tokens. */
  lemma TokensLookAlike(left: map<string, Deployment>, a: set<string>, b: set<string>, token: string, env: Renderer, r: Resource, p: InstancePlan)
    requires DeploymentQuiet(Restarted(left, a, token), env, r, p)
    ensures DeploymentQuiet(Restarted(left, b, token), env, r, p)
  {
    var n := InstanceName(env, r, p.obs.name);
    AcceptedIsNormal(left[n], token);
  }

  lemma RestartCutQuiet(w: World, env: Renderer, r: Resource, plan: Output, removed: set<string>, some: set<string>)
    requires DistinctNames(env, r, plan, removed)
    ensures !NeedsApply(RestartCut(w, env, r, plan, removed, some), env, r, plan)
  {
    QuietAfterApply(w, env, r, plan, removed);
    var left := PutDeployments(w, env, r, plan) - Gone(env, r, plan, removed);
    forall p | p in Active(plan.instances) ensures DeploymentQuiet(Restarted(left, some, TokenFor(env, r, plan)), env, r, p) {
      TokensLookAlike(left, RestartNames(env, r, plan), some, TokenFor(env, r, plan), env, r, p);
    }
  }

  /** Every deployment of these names already holds the token. */
  predicate AllHold(deployments: map<string, Deployment>, names: set<string>, token: string) {
    forall n :: n in names && n in deployments ==> Token(deployments[n]) == token
  }

  lemma RestartedSameIff(left: map<string, Deployment>, some: set<string>, names: set<string>, token: string)
    requires some <= names && token != ""
    ensures Restarted(left, some, token) == Restarted(left, names, token) <==> AllHold(left, names - some, token)
  {
    var a, b := Restarted(left, some, token), Restarted(left, names, token);
    forall n | n in left ensures a[n] == b[n] <==> (n in names - some ==> Token(left[n]) == token) {
      TokenOfSet(left[n], token);
    }
    if AllHold(left, names - some, token) {
      assert a.Keys == b.Keys;
    } else {
      var n :| n in names - some && n in left && Token(left[n]) != token;
      assert a[n] != b[n];
    }
  }

  /** When the apply failed among the restarts, the retry makes up for them if and only if there is a reason to apply in
      the status or none of the remaining targets lacks the token: the detector never asks for it. */
  lemma RestartRetryIff(w: World, env: Renderer, r: Resource, now: int, later: int, some: set<string>)
    requires Decide(w, env, r, Scheduled, now).Some?
    requires var p := Decide(w, env, r, Scheduled, now).value.proposal;
             && some <= RestartNames(env, r, p.plan)
             && FailedApply(w, RestartCut(w, env, r, p.plan, GoneBy(r, p, now), some), env, r, now, later)
    ensures var o := Decide(w, env, r, Scheduled, now).value;
            var p := o.proposal;
            var left := PutDeployments(w, env, r, p.plan) - Gone(env, r, p.plan, GoneBy(r, p, now));
            var cut := RestartCut(w, env, r, p.plan, GoneBy(r, p, now), some);
            && Decide(cut, env, r, Scheduled, later).Some?
            && (Decide(cut, env, r, Scheduled, later).value.world == o.world <==>
                  Reason(r, p, later) || AllHold(left, RestartNames(env, r, p.plan) - some, TokenFor(env, r, p.plan)))
  {
    var o := Decide(w, env, r, Scheduled, now).value;
    var p := o.proposal;
    var left := PutDeployments(w, env, r, p.plan) - Gone(env, r, p.plan, GoneBy(r, p, now));
    var cut := RestartCut(w, env, r, p.plan, GoneBy(r, p, now), some);
    RetryEndsIff(w, cut, env, r, now, later);
    RestartCutQuiet(w, env, r, p.plan, GoneBy(r, p, now), some);
    RestartedSameIff(left, some, RestartNames(env, r, p.plan), TokenFor(env, r, p.plan));
  }

  lemma CommitsWriter(r: Resource, p: Proposal, missing: seq<Missing>, now: int)
    requires !p.plan.frozen && RestartTargets(r, p.plan) != {}
    ensures CommitReconcile(r.status, r, p, missing, now).lastApplied == p.plan.membership
  {
  }

  /** The retry then records the new writer, and no later reconcile that keeps it restarts anything for this change. */
  lemma LostForGood(w: World, env: Renderer, r: Resource, now: int, later: int, some: set<string>, next: Output)
    requires Decide(w, env, r, Scheduled, now).Some?
    requires var p := Decide(w, env, r, Scheduled, now).value.proposal;
             && some <= RestartNames(env, r, p.plan)
             && FailedApply(w, RestartCut(w, env, r, p.plan, GoneBy(r, p, now), some), env, r, now, later)
             && !Reason(r, p, later) && RestartTargets(r, p.plan) != {} && next.membership.writer == p.plan.membership.writer
    ensures var p := Decide(w, env, r, Scheduled, now).value.proposal;
            var cut := RestartCut(w, env, r, p.plan, GoneBy(r, p, now), some);
            && Decide(cut, env, r, Scheduled, later).Some?
            && var retry := Decide(cut, env, r, Scheduled, later).value;
               && !retry.applied && retry.world == cut
               && RestartTargets(r.(status := Committed(r.status, r, retry, later)), next) == {}
  {
    var p := Decide(w, env, r, Scheduled, now).value.proposal;
    var cut := RestartCut(w, env, r, p.plan, GoneBy(r, p, now), some);
    RetryDecision(w, cut, env, r, now, later);
    RestartCutQuiet(w, env, r, p.plan, GoneBy(r, p, now), some);
    CommitsWriter(r, p, Decide(cut, env, r, Scheduled, later).value.missing, later);
  }

  /** The retry of this failed apply does nothing and leaves something undone. */
  ghost predicate IsLost(w: World, cut: World, env: Renderer, r: Resource, now: int, later: int) {
    && FailedApply(w, cut, env, r, now, later)
    && Decide(cut, env, r, Scheduled, later).Some?
    && Decide(cut, env, r, Scheduled, later).value.world == cut && cut != Decide(w, env, r, Scheduled, now).value.world
  }

  lemma RestartFails(w: World, env: Renderer, r: Resource, p: Proposal, now: int, later: int, some: set<string>)
    requires Propose(r, Scheduled, ReadyCounts(w.pods, env.clusterLabel(r.name)), now) == Some(p) && Applies(w, env, r, p, now)
    requires DistinctNames(env, r, p.plan, GoneBy(r, p, now)) && GoneBy(r, p, later) == GoneBy(r, p, now)
    requires some <= RestartNames(env, r, p.plan)
    ensures Decide(w, env, r, Scheduled, now).Some? && Decide(w, env, r, Scheduled, now).value.proposal == p
    ensures FailedApply(w, RestartCut(w, env, r, p.plan, GoneBy(r, p, now), some), env, r, now, later)
  {
    RestartCutIsCut(w, env, r, p.plan, GoneBy(r, p, now), some);
  }

  /** An apply that fails among the restarts loses them whenever nothing else calls for an apply and some target lacks
      the token. */
  lemma RestartIsLost(w: World, env: Renderer, r: Resource, p: Proposal, now: int, later: int, some: set<string>)
    requires Propose(r, Scheduled, ReadyCounts(w.pods, env.clusterLabel(r.name)), now) == Some(p) && Applies(w, env, r, p, now)
    requires DistinctNames(env, r, p.plan, GoneBy(r, p, now)) && GoneBy(r, p, later) == GoneBy(r, p, now)
    requires some <= RestartNames(env, r, p.plan) && !Reason(r, p, later)
    requires !AllHold(PutDeployments(w, env, r, p.plan) - Gone(env, r, p.plan, GoneBy(r, p, now)), RestartNames(env, r, p.plan) - some, TokenFor(env, r, p.plan))
    ensures IsLost(w, RestartCut(w, env, r, p.plan, GoneBy(r, p, now), some), env, r, now, later)
  {
    var cut := RestartCut(w, env, r, p.plan, GoneBy(r, p, now), some);
    RestartFails(w, env, r, p, now, later, some);
    RestartRetryIff(w, env, r, now, later, some);
    RetryEndsIff(w, cut, env, r, now, later);
  }

  /** A reconcile that sensed anew never loses a restart: a pending writer change is itself a reason to apply. */
  lemma SensedRetryResumes(cut: World, env: Renderer, r: Resource, mode: Mode, later: int)
    requires Decide(cut, env, r, mode, later).Some?
    requires var p := Decide(cut, env, r, mode, later).value.proposal;
             !p.plan.frozen && (p.sensed.ran || p.monitorRan) && RestartTargets(r, p.plan) != {}
    ensures Decide(cut, env, r, mode, later).value.applied
  {
  }

  // ---------------------------------------------------------------- cut off among the deletions

  /** Everything is written, some of what should go is deleted, and no pod is relabelled. */
  function DeletionCut(w: World, env: Renderer, r: Resource, plan: Output, c: set<string>, d: set<string>, s: set<string>): World {
    Apply.World(w.pods, PutConfigMaps(w, env, r, plan) - c, PutDeployments(w, env, r, plan) - d, PutServices(w, env, r, plan) - s)
  }

  lemma WrittenObjectsQuiet(w: World, env: Renderer, r: Resource, plan: Output, removed: set<string>, c: set<string>, d: set<string>, p: InstancePlan)
    requires DistinctNames(env, r, plan, removed) && p in Active(plan.instances) && c + d <= Gone(env, r, plan, removed)
    ensures ConfigMapQuiet(PutConfigMaps(w, env, r, plan) - c, env, r, p)
    ensures DeploymentQuiet(PutDeployments(w, env, r, plan) - d, env, r, p)
  {
    var k := IndexOf(env, r, plan, p);
    assert ServiceNames(env, r, plan)[k] in ServiceNames(env, r, plan);
    ConfigMapAfter(w, env, r, plan, removed, p);
    PutDeploymentQuiet(w, env, r, plan, p);
  }

  lemma WrittenServicesQuiet(w: World, env: Renderer, r: Resource, plan: Output, removed: set<string>, s: set<string>)
    requires DistinctNames(env, r, plan, removed) && s <= StaleRoles(env, r, PutServices(w, env, r, plan)) + Gone(env, r, plan, removed)
    ensures ServicesQuiet(PutServices(w, env, r, plan) - s, env, r, plan) <==> StaleRoles(env, r, PutServices(w, env, r, plan)) <= s
  {
    var put, names := PutServices(w, env, r, plan), ServiceNames(env, r, plan);
    forall n | n in names ensures n !in StaleRoles(env, r, put) && n !in s {
      var k :| 0 <= k < |names| && names[k] == n;
      WantedNotStale(w, env, r, plan, removed, k);
    }
    AppliedServicesQuiet(w, env, r, plan, removed);
    forall p | p in Active(plan.instances) { InstanceServiceStays(w, env, r, plan, removed, s, p); }
    forall role { RoleServiceStays(w, env, r, plan, removed, s, role); }
    assert forall n :: n in ObjectNames(env, r, plan) ==> n in names;
  }

  lemma QuietServiceStays(w: World, env: Renderer, r: Resource, plan: Output, removed: set<string>, s: set<string>, n: string, wanted: Service)
    requires n in ServiceNames(env, r, plan) && n !in s && ServiceQuiet(ApplyServices(w, env, r, plan, removed), env, r, n, wanted)
    ensures ServiceQuiet(PutServices(w, env, r, plan) - s, env, r, n, wanted)
  {
  }

  lemma AppliedServicesQuiet(w: World, env: Renderer, r: Resource, plan: Output, removed: set<string>)
    requires DistinctNames(env, r, plan, removed)
    ensures ServicesQuiet(ApplyServices(w, env, r, plan, removed), env, r, plan)
  {
    QuietAfterApply(w, env, r, plan, removed);
  }

  lemma InstanceServiceStays(w: World, env: Renderer, r: Resource, plan: Output, removed: set<string>, s: set<string>, p: InstancePlan)
    requires ServicesQuiet(ApplyServices(w, env, r, plan, removed), env, r, plan) && forall n :: n in ServiceNames(env, r, plan) ==> n !in s
    requires p in Active(plan.instances)
    ensures ServiceQuiet(PutServices(w, env, r, plan) - s, env, r, InstanceName(env, r, p.obs.name), RenderInstanceService(env, r, p.obs.name))
  {
    var k := IndexOf(env, r, plan, p);
    assert ServiceNames(env, r, plan)[k] == InstanceName(env, r, p.obs.name);
    QuietServiceStays(w, env, r, plan, removed, s, InstanceName(env, r, p.obs.name), RenderInstanceService(env, r, p.obs.name));
  }

  lemma RoleServiceStays(w: World, env: Renderer, r: Resource, plan: Output, removed: set<string>, s: set<string>, role: Role)
    requires ServicesQuiet(ApplyServices(w, env, r, plan, removed), env, r, plan) && forall n :: n in ServiceNames(env, r, plan) ==> n !in s
    ensures ServiceQuiet(PutServices(w, env, r, plan) - s, env, r, RoleServiceName(env, r, role), RenderRoleService(env, r, role))
  {
    assert RoleServiceName(env, r, role) in RoleNames(env, r);
    QuietServiceStays(w, env, r, plan, removed, s, RoleServiceName(env, r, role), RenderRoleService(env, r, role));
  }

  /** After everything was written the detector sees drift if and only if a pod still has other labels or a stale role
      Service is left; objects of disabled instances that were not deleted yet go unnoticed. */
  lemma DeletionCutDrift(w: World, env: Renderer, r: Resource, plan: Output, removed: set<string>, c: set<string>, d: set<string>, s: set<string>)
    requires DistinctNames(env, r, plan, removed) && c + d <= Gone(env, r, plan, removed)
    requires s <= StaleRoles(env, r, PutServices(w, env, r, plan)) + Gone(env, r, plan, removed)
    ensures NeedsApply(DeletionCut(w, env, r, plan, c, d, s), env, r, plan) <==>
            !PodsQuiet(w.pods, env.clusterLabel(r.name), TargetsOf(plan)) || !(StaleRoles(env, r, PutServices(w, env, r, plan)) <= s)
  {
    forall p | p in Active(plan.instances) { WrittenObjectsQuiet(w, env, r, plan, removed, c, d, p); }
    WrittenServicesQuiet(w, env, r, plan, removed, s);
  }

  // ---------------------------------------------------------------- an input that loses a restart

  /** A resource whose only instance is a healthy writer that was not the writer before. */
  ghost predicate LoneFailover(r: Resource, o: Observation) {
    && r.status.discoveryTrusted.Trusted? && r.status.topology == [o] && r.status.missing == []
    && o.role == Writer && o.name != "" && !Disabled(r.spec, o.name) && !r.spec.zoneAware.policy.Fail?
    && (exists p :: r.status.instances == [p] && p.obs == o && p.healthy)
    && r.status.lastApplied.writer != [] && o.name !in r.status.lastApplied.writer
    && r.generation == r.status.observedGeneration && r.status.lastAppliedTime.Some?
    && EffectivePolicy(r).RestartWriters?
  }

  lemma LonePlan(r: Resource, o: Observation)
    requires LoneFailover(r, o)
    ensures var plan := Plan(Look(r));
            && plan.membership.writer == [o.name] && !plan.frozen
            && |plan.instances| == 1 && plan.instances[0].obs == o && !plan.instances[0].disabled
  {
    var p :| r.status.instances == [p] && p.obs == o && p.healthy;
    var input := Look(r);
    assert LastStatus([p], o.name) == Some(p);
    DisabledUnhealthy(input, o);
    assert Assess(input, o).healthy;
    assert input.discovered == [o] && Assessed(input) == [Assess(input, o)];
    assert HealthyNames([Assess(input, o)], Writer) == [o.name] by { assert [Assess(input, o)][..0] == []; }
    SortOfStrict(Self, [o.name]);
    SortOfStrict(PlanName, [Assess(input, o)]);
    WriterOf(input);
  }

  lemma LoneProposal(r: Resource, o: Observation, ready: map<string, int>, now: int)
    requires LoneFailover(r, o)
    ensures Propose(r, Scheduled, ready, now) == Some(Proposal(Sensed(CachedDiscovery(r.status), false, false), false, Plan(Look(r)), []))
    ensures !Reason(r, Propose(r, Scheduled, ready, now).value, now)
  {
    LonePlan(r, o);
    ScheduledProposal(r, ready, now);
    assert SingleWriter([o]) == o.name by { assert [o][1..] == []; }
  }

  lemma LoneActive(plan: Output)
    requires |plan.instances| == 1 && !plan.instances[0].disabled
    ensures Active(plan.instances) == plan.instances
  {
    assert plan.instances[..0] == [];
    assert plan.instances == [plan.instances[0]];
  }

  lemma LoneNames(env: Renderer, r: Resource, o: Observation, plan: Output)
    requires plan == Plan(Look(r)) && LoneFailover(r, o) && ThreeNames(env, r, o)
    ensures Gone(env, r, plan, {}) == {} && DistinctNames(env, r, plan, {})
  {
    LonePlan(r, o);
    LoneActive(plan);
    var n := InstanceName(env, r, o.name);
    assert ObjectNames(env, r, plan) == [n] && ServiceNames(env, r, plan) == [n, RoleServiceName(env, r, Writer), RoleServiceName(env, r, Reader)];
  }

  ghost predicate ThreeNames(env: Renderer, r: Resource, o: Observation) {
    NoDup([InstanceName(env, r, o.name), RoleServiceName(env, r, Writer), RoleServiceName(env, r, Reader)])
  }

  lemma LoneFailure(w: World, env: Renderer, r: Resource, o: Observation, now: int, p: Proposal)
    requires LoneFailover(r, o) && Propose(r, Scheduled, ReadyCounts(w.pods, env.clusterLabel(r.name)), now) == Some(p)
    requires NeedsApply(w, env, r, Plan(Look(r)))
    ensures !p.plan.frozen && GoneBy(r, p, now) == {} && !Reason(r, p, now) && p.plan == Plan(Look(r))
    ensures Applies(w, env, r, p, now)
  {
    LoneProposal(r, o, ReadyCounts(w.pods, env.clusterLabel(r.name)), now);
    LonePlan(r, o);
  }

  lemma LacksToken(left: map<string, Deployment>, names: set<string>, token: string, n: string)
    requires n in left && n in names && Token(left[n]) == "" && token != ""
    ensures !AllHold(left, names, token)
  {
  }

  lemma LoneTarget(env: Renderer, r: Resource, o: Observation, plan: Output)
    requires LoneFailover(r, o) && plan.membership.writer == [o.name]
    ensures InstanceName(env, r, o.name) in RestartNames(env, r, plan)
  {
    assert o.name in plan.membership.writer;
    assert o.name in RestartTargets(r, plan);
  }

  /** The restart of the new writer is lost when the API fails on that very update: in every cluster that drifts from the
      plan in any way and in which the new writer's deployment, if there is one, was never restarted. */
  lemma LostRestart(w: World, env: Renderer, r: Resource, o: Observation, now: int)
    requires LoneFailover(r, o) && RestartedAt !in r.spec.podAnnotations && ThreeNames(env, r, o)
    requires NeedsApply(w, env, r, Plan(Look(r)))
    requires var n := InstanceName(env, r, o.name); n in w.deployments ==> Token(w.deployments[n]) == ""
    ensures Decide(w, env, r, Scheduled, now).Some?
    ensures var first := Decide(w, env, r, Scheduled, now).value;
            IsLost(w, RestartCut(w, env, r, first.proposal.plan, {}, {}), env, r, now, now)
  {
    LoneProposal(r, o, ReadyCounts(w.pods, env.clusterLabel(r.name)), now);
    var p := Propose(r, Scheduled, ReadyCounts(w.pods, env.clusterLabel(r.name)), now).value;
    LoneFailure(w, env, r, o, now, p);
    LoneNames(env, r, o, p.plan);
    LonePlan(r, o);
    LoneTarget(env, r, o, p.plan);
    PutLacksToken(w, env, r, p.plan, o);
    LacksToken(PutDeployments(w, env, r, p.plan) - Gone(env, r, p.plan, {}), RestartNames(env, r, p.plan) - {}, TokenFor(env, r, p.plan), InstanceName(env, r, o.name));
    RestartIsLost(w, env, r, p, now, now, {});
  }

  /** A failover that shows in nothing but pod labels is such a drift: a ready pod of the new writer without its label.
      Relabelling it removes the last reason to apply before the restart fails. */
  lemma LabelDriftIsEnough(w: World, env: Renderer, r: Resource, o: Observation, pod: string)
    requires LoneFailover(r, o)
    requires pod in w.pods && Managed(w.pods[pod].labels, env.clusterLabel(r.name))
    requires Label(w.pods[pod].labels, InstanceKey) == o.name && WriterKey !in w.pods[pod].labels
    ensures NeedsApply(w, env, r, Plan(Look(r)))
  {
    LonePlan(r, o);
    assert o.name in TargetsOf(Plan(Look(r))).writer;
    assert !LabelsExact(w.pods[pod].labels, TargetsOf(Plan(Look(r))));
  }

  /** There is such a resource. */
  lemma LoneFailoverExists() returns (r: Resource, o: Observation)
    ensures LoneFailover(r, o) && RestartedAt !in r.spec.podAnnotations
  {
    o := Observation("b", "b.example", 5432, Writer, "", "");
    var service := ServiceSpec("", "", map[]);
    var spec := Spec("example", 5432, 3, 3, 2, None, [], map[], None, [], map[], map[], 3, 3600, UnsetChange, None,
                     Affinity.ZoneAware(None, false, "", Affinity.Warn), service, service, service);
    var p := InstancePlan(o, true, false, 1, 1, 0, 1);
    r := Resource("c", 1, spec, Status(1, HashOf([o]), 0, Some(0), Some(0), Some(0), [o], Membership(["a"], ["a"]), [], [p], Trusted));
    assert r.status.instances == [p];
  }

  lemma RenderedLacksToken(env: Renderer, r: Resource, p: InstancePlan)
    requires RestartedAt !in r.spec.podAnnotations
    ensures Token(Accept(RenderDeployment(env, r, p))) == ""
  {
    assert RestartedAt !in TemplateAnnotations(env, r, p.obs);
  }

  lemma CopyLacksToken(stored: Deployment, desired: Deployment)
    requires Token(stored) == "" && Token(Accept(desired)) == ""
    ensures Token(CopyDeployment(stored, desired)) == ""
  {
  }

  lemma PutLacksToken(w: World, env: Renderer, r: Resource, plan: Output, o: Observation)
    requires |plan.instances| == 1 && plan.instances[0].obs == o && !plan.instances[0].disabled
    requires RestartedAt !in r.spec.podAnnotations
    requires var n := InstanceName(env, r, o.name); n in w.deployments ==> Token(w.deployments[n]) == ""
    ensures var n := InstanceName(env, r, o.name);
            n in PutDeployments(w, env, r, plan) && Token(PutDeployments(w, env, r, plan)[n]) == ""
  {
    LoneActive(plan);
    var names, wanted, n := ObjectNames(env, r, plan), WantedDeployments(env, r, plan), InstanceName(env, r, o.name);
    assert names[0] == n && wanted[0] == RenderDeployment(env, r, plan.instances[0]);
    PutAllAt(w.deployments, names, wanted, CopyDeployment, Accept, 0);
    RenderedLacksToken(env, r, plan.instances[0]);
    if n in w.deployments { CopyLacksToken(w.deployments[n], wanted[0]); }
  }

  // ---------------------------------------------------------------- objects of disabled instances

  /** A reconcile that is not frozen leaves the deployment, config map and Service of a disabled instance behind if and
      only if the status gives no reason to apply and the detector, which does not look at them, sees no drift. */
  lemma LeftBehindIff(w: World, env: Renderer, r: Resource, mode: Mode, now: int, x: InstancePlan)
    requires Decide(w, env, r, mode, now).Some? && !Decide(w, env, r, mode, now).value.proposal.plan.frozen
    requires var p := Decide(w, env, r, mode, now).value.proposal;
             x in p.plan.instances && x.disabled && InstanceName(env, r, x.obs.name) !in ObjectNames(env, r, p.plan)
    ensures var o, n := Decide(w, env, r, mode, now).value, InstanceName(env, r, x.obs.name);
            var left := !Reason(r, o.proposal, now) && !NeedsApply(w, env, r, o.proposal.plan);
            && (n in o.world.deployments <==> n in w.deployments && left)
            && (n in o.world.configMaps <==> n in w.configMaps && left)
            && (n in o.world.services <==> n in w.services && left)
  {
    var o, n := Decide(w, env, r, mode, now).value, InstanceName(env, r, x.obs.name);
    var removed := GoneBy(r, o.proposal, now);
    assert n in Gone(env, r, o.proposal.plan, removed);
    UnwantedAfterApply(w, env, r, o.proposal.plan, removed, n);
  }

  /** A frozen reconcile still records that it has seen the spec, so an instance disabled during a freeze gives the first
      reconcile after it no reason to apply. */
  lemma FreezeConsumesEdit(stored: Status, r: Resource, mode: Mode, ready: map<string, int>, drift: bool, now: int)
    requires Propose(r, mode, ready, now).Some? && Propose(r, mode, ready, now).value.plan.frozen
    ensures var s := ReconcileStep(stored, r, mode, ready, drift, now);
            s.observedGeneration == r.generation && s.lastApplied == stored.lastApplied && s.lastAppliedTime == stored.lastAppliedTime
  {
  }
}
