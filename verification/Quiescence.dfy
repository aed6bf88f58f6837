/** A scheduled reconcile reaches a fixed point in one step: run again with nothing new to see, it neither
    touches an object nor changes the status. */
module Quiescence {
  import opened Text
  import opened Domain
  import Affinity
  import opened Planner
  import opened PlannerLaws
  import Hysteresis
  import opened Commits
  import opened Objects
  import opened Relabel
  import opened Apply
  import opened ApplyLaws
  import opened Reconciler
  import opened ReconcileLaws
  import opened Interleavings
  import opened SerialRuns
  import MissingLifecycle

  // ---------------------------------------------------------------- plans that see the same thing

  /** Two inputs that differ only in what a plan does not look at. */
  ghost predicate Alike(a: Input, b: Input) {
    && a.trusted && b.trusted && a.discovered == b.discovered && a.resource.spec == b.resource.spec
    && (forall o :: o in a.discovered ==> Assess(a, o) == Assess(b, o))
    && ActiveMissing(a.missing, RemoveAfter(a.resource.spec)) == ActiveMissing(b.missing, RemoveAfter(a.resource.spec))
    && a.resource.status.lastApplied.writer == b.resource.status.lastApplied.writer
    && Elements(a.resource.status.lastApplied.reader) == Elements(b.resource.status.lastApplied.reader)
  }

  lemma AlikeDrafts(a: Input, b: Input)
    requires Alike(a, b)
    ensures FirstDraft(a) == FirstDraft(b)
    ensures forall role, n :: HealthyMember(a, role, n) <==> HealthyMember(b, role, n)
  {
    assert Assessed(a) == Assessed(b);
  }

  lemma AlikeKept(a: Input, b: Input, n: string)
    requires Alike(a, b)
    ensures KeptReader(a, n) <==> KeptReader(b, n)
  {
    assert n in a.resource.status.lastApplied.reader <==> n in Elements(a.resource.status.lastApplied.reader);
    assert n in b.resource.status.lastApplied.reader <==> n in Elements(b.resource.status.lastApplied.reader);
    assert n in ActiveMissing(a.missing, RemoveAfter(a.resource.spec)) <==> n in ActiveMissing(b.missing, RemoveAfter(a.resource.spec));
  }

  lemma AlikePlans(a: Input, b: Input)
    requires Alike(a, b)
    ensures Plan(a).membership.writer == Plan(b).membership.writer && Plan(a).instances == Plan(b).instances
    ensures forall n :: n in Plan(a).membership.reader <==> n in Plan(b).membership.reader
  {
    AlikeDrafts(a, b);
    WriterOf(a);
    WriterOf(b);
    forall n ensures KeptReader(a, n) <==> KeptReader(b, n) { AlikeKept(a, b, n); }
    assert BorrowsWriter(a) <==> BorrowsWriter(b);
    forall n ensures n in Plan(a).membership.reader <==> n in Plan(b).membership.reader {
      ReaderProvenance(a, n);
      ReaderProvenance(b, n);
    }
  }

  // ---------------------------------------------------------------- the second look

  /** What a scheduled reconcile plans from. */
  function Look(r: Resource): Input {
    Input(r, CachedDiscovery(r.status).trusted, CachedDiscovery(r.status).instances, map[], true, r.status.missing)
  }

  lemma ScheduledProposal(r: Resource, ready: map<string, int>, now: int)
    ensures Propose(r, Scheduled, ready, now) ==
            Some(Proposal(Sensed(CachedDiscovery(r.status), false, false), false,
                          ZonePolicy(r.spec, FastPath(r, CachedDiscovery(r.status), ready, Plan(Look(r)))), r.status.missing))
  {
  }

  /** The status after a scheduled reconcile that recorded `plan`. */
  ghost predicate RecordedBy(before: Status, after: Status, spec: Spec, plan: Output, missing: seq<Missing>, generation: int) {
    && after.topology == before.topology && after.discoveryTrusted == Trusted
    && after.missing == missing && after.observedGeneration == generation && after.lastAppliedTime.Some?
    && after.instances == (if before.instances == [] then plan.instances else before.instances)
    && after.lastApplied == Settle(before.lastApplied, plan.membership)
  }

  lemma ScheduledCommit(r: Resource, p: Proposal, missing: seq<Missing>, now: int)
    requires p.sensed == Sensed(CachedDiscovery(r.status), false, false) && !p.monitorRan && !p.plan.frozen
    requires CachedDiscovery(r.status).trusted
    ensures RecordedBy(r.status, CommitReconcile(r.status, r, p, missing, now), r.spec, p.plan, missing, r.generation)
  {
  }

  lemma SameActiveMissing(spec: Spec, d: Discovery, missing: seq<Missing>, now: int)
    ensures ActiveMissing(Remaining(spec, d, missing, now), RemoveAfter(spec)) == ActiveMissing(missing, RemoveAfter(spec))
  {
    RemainingSpec(spec, d, missing, now);
    var rest := Remaining(spec, d, missing, now);
    forall m | m in missing && m.name != "" && m.count < RemoveAfter(spec) ensures m in rest { }
  }

  lemma SameAssessment(input: Input, again: Input, o: Observation)
    requires input.trusted && input.cached && again.cached && NoDup(Names(input.discovered)) && o in input.discovered && o.name != ""
    requires again.resource.spec == input.resource.spec
    requires again.resource.status.instances ==
             if input.resource.status.instances == [] then Plan(input).instances else input.resource.status.instances
    ensures Assess(again, o) == Assess(input, o)
  {
    if input.resource.status.instances == [] {
      Hysteresis.RecordedAssessment(input, o);
      DisabledUnhealthy(input, o);
    }
  }

  lemma SettledLists(applied: Membership, planned: Membership)
    requires SoundMembership(applied) && SoundMembership(planned)
    ensures Settle(applied, planned).writer == planned.writer
    ensures Elements(Settle(applied, planned).reader) == Elements(planned.reader)
    ensures SoundMembership(Settle(applied, planned))
    ensures Settle(Settle(applied, planned), planned) == Settle(applied, planned)
  {
    SameLengthDuplicates(applied.writer, planned.writer);
    SameLengthDuplicates(applied.reader, planned.reader);
    if !MembershipChanged(applied.writer, planned.writer) && planned.writer != [] {
      assert planned.writer[0] in planned.writer;
      assert applied.writer == [applied.writer[0]] && planned.writer == [planned.writer[0]];
    }
    SameLengthDuplicates(planned.writer, planned.writer);
    SameLengthDuplicates(planned.reader, planned.reader);
  }

  /** Looking again after the plan was recorded gives the same plan, up to the order of the readers. */
  lemma SecondLook(r: Resource, after: Status, now: int)
    requires Sound(r.status) && Look(r).trusted
    requires RecordedBy(r.status, after, r.spec, Plan(Look(r)), Remaining(r.spec, CachedDiscovery(r.status), r.status.missing, now), r.generation)
    ensures var a, b := Plan(Look(r)), Plan(Look(r.(status := after)));
            && a.membership.writer == b.membership.writer && a.instances == b.instances && !a.frozen && !b.frozen
            && Elements(a.membership.reader) == Elements(b.membership.reader)
            && SoundMembership(a.membership) && SoundMembership(b.membership)
  {
    var input, again := Look(r), Look(r.(status := after));
    StrictNamesNoDup(input.discovered);
    PlanSound(input);
    SettledLists(r.status.lastApplied, Plan(input).membership);
    SameActiveMissing(r.spec, CachedDiscovery(r.status), r.status.missing, now);
    AssessIgnoresApplied(input, Plan(input).membership);
    forall o | o in input.discovered ensures Assess(again, o) == Assess(Recorded(input), o) {
      SameAssessment(input, again, o);
    }
    assert Alike(again, Recorded(input));
    AlikePlans(again, Recorded(input));
    forall n ensures n in Plan(Recorded(input)).membership.reader <==> n in Plan(input).membership.reader { PlanIsFixedPoint(input, n); }
    PlanIsFixedPoint(input, "");
    WriterOf(input);
    WriterOf(again);
    RemainingSpec(r.spec, CachedDiscovery(r.status), r.status.missing, now);
    PlanSound(again);
  }

  // ---------------------------------------------------------------- the fast path is not taken later

  lemma {:induction false} SingleWriterOnly(instances: seq<Observation>, writer: string, o: Observation)
    requires o in instances && o.role == Writer && (forall x :: x in instances ==> x.name != "")
    ensures SingleWriter(instances, writer) != "" ==> writer == "" && SingleWriter(instances, writer) == o.name
  {
    var rest := instances[1..];
    if instances[0].role != Writer {
      SingleWriterOnly(rest, writer, o);
    } else if writer == "" {
      if o in rest { SingleWriterOnly(rest, instances[0].name, o); } else { NoWriterAfter(rest, instances[0].name); }
    }
  }

  lemma {:induction false} NoWriterAfter(instances: seq<Observation>, writer: string)
    ensures SingleWriter(instances, writer) != "" ==> writer == "" || SingleWriter(instances, writer) == writer
  {
    if instances != [] && instances[0].role != Writer { NoWriterAfter(instances[1..], writer); }
  }

  /** A planned writer other than the one discovered writer was applied before. */
  lemma OtherWriterWasApplied(r: Resource, n: string)
    requires Sound(r.status) && Look(r).trusted && n in Plan(Look(r)).membership.writer
    requires SingleWriter(Look(r).discovered) != "" && n != SingleWriter(Look(r).discovered)
    ensures n in r.status.lastApplied.writer
  {
    WriterOrigin(Look(r), n);
    if o :| o in Look(r).discovered && o.name == n && o.role == Writer { SingleWriterOnly(Look(r).discovered, "", o); }
  }

  lemma NotTakenLater(r: Resource, r1: Resource, d: Discovery, ready: map<string, int>, plan: Output, plan1: Output)
    requires r1.spec == r.spec && !plan.frozen && |plan.membership.writer| <= 1 && |r.status.lastApplied.writer| <= 1
    requires r1.status.lastApplied.writer == plan1.membership.writer == plan.membership.writer
    requires forall n :: n in plan.membership.writer && SingleWriter(d.instances) != "" && n != SingleWriter(d.instances) ==> n in r.status.lastApplied.writer
    requires !TakesFastPath(r, d, ready, plan)
    ensures !TakesFastPath(r1, d, ready, plan1)
  {
    var planned, applied := plan.membership.writer, r.status.lastApplied.writer;
    if planned != [] {
      assert planned == [planned[0]] && planned[0] in planned;
      if SingleWriter(d.instances) != "" && planned[0] != SingleWriter(d.instances) {
        assert applied == [applied[0]] == planned;
      }
    }
  }

  lemma FastPathNotLater(r: Resource, after: Status, ready: map<string, int>)
    requires Sound(r.status) && Look(r).trusted && after.topology == r.status.topology && after.discoveryTrusted == Trusted
    requires var plan := Plan(Look(r));
             && SoundMembership(plan.membership) && after.lastApplied.writer == plan.membership.writer
             && Plan(Look(r.(status := after))).membership.writer == plan.membership.writer
             && !TakesFastPath(r, CachedDiscovery(r.status), ready, plan)
    ensures !TakesFastPath(r.(status := after), CachedDiscovery(after), ready, Plan(Look(r.(status := after))))
  {
    var plan, d := Plan(Look(r)), CachedDiscovery(r.status);
    forall n | n in plan.membership.writer && SingleWriter(d.instances) != "" && n != SingleWriter(d.instances)
      ensures n in r.status.lastApplied.writer
    {
      OtherWriterWasApplied(r, n);
    }
    WriterOf(Look(r));
    NotTakenLater(r, r.(status := after), d, ready, plan, Plan(Look(r.(status := after))));
  }

  // ---------------------------------------------------------------- the cluster looks the same

  lemma RenderingIgnoresStatus(env: Renderer, r: Resource, s: Status)
    ensures var r' := r.(status := s);
            && (forall o :: RenderConfigMap(env, r', o) == RenderConfigMap(env, r, o))
            && (forall p :: RenderDeployment(env, r', p) == RenderDeployment(env, r, p))
            && (forall n :: RenderInstanceService(env, r', n) == RenderInstanceService(env, r, n))
            && (forall role :: RenderRoleService(env, r', role) == RenderRoleService(env, r, role))
            && (forall role :: RoleServiceName(env, r', role) == RoleServiceName(env, r, role))
            && (forall n :: InstanceName(env, r', n) == InstanceName(env, r, n))
  {
  }

  lemma DetectorIgnoresStatus(w: World, env: Renderer, r: Resource, s: Status, plan: Output, plan': Output)
    requires plan.instances == plan'.instances && plan.membership.writer == plan'.membership.writer
    requires Elements(plan.membership.reader) == Elements(plan'.membership.reader)
    requires !NeedsApply(w, env, r, plan)
    ensures !NeedsApply(w, env, r.(status := s), plan')
  {
    var r' := r.(status := s);
    RenderingIgnoresStatus(env, r, s);
    assert ObjectNames(env, r', plan') == ObjectNames(env, r, plan);
    assert RoleNames(env, r') == RoleNames(env, r);
    assert TargetsOf(plan) == TargetsOf(plan') by {
      assert (set n | n in plan.membership.reader) == Elements(plan.membership.reader);
      assert (set n | n in plan'.membership.reader) == Elements(plan'.membership.reader);
    }
    assert ConfigMapsQuiet(w.configMaps, env, r', plan') && DeploymentsQuiet(w.deployments, env, r', plan');
  }

  // ---------------------------------------------------------------- quiescence

  /** A first scheduled reconcile that is not frozen. */
  ghost predicate FirstReconcile(w: World, env: Renderer, r: Resource, now: int) {
    && Sound(r.status) && Look(r).trusted
    && Decide(w, env, r, Scheduled, now).Some?
    && var p := Decide(w, env, r, Scheduled, now).value.proposal;
       !p.plan.frozen && DistinctNames(env, r, p.plan, Removed(r.spec, CachedDiscovery(r.status), r.status.missing, now))
  }

  predicate FastPathTaken(w: World, env: Renderer, r: Resource) {
    TakesFastPath(r, CachedDiscovery(r.status), ReadyCounts(w.pods, env.clusterLabel(r.name)), Plan(Look(r)))
  }

  /** A first scheduled reconcile that is not frozen and does not take the writer fast path. */
  ghost predicate PlainReconcile(w: World, env: Renderer, r: Resource, now: int) {
    FirstReconcile(w, env, r, now) && !FastPathTaken(w, env, r)
  }

  lemma FirstOutcome(w: World, env: Renderer, r: Resource, now: int)
    requires PlainReconcile(w, env, r, now)
    ensures var o := Decide(w, env, r, Scheduled, now).value;
            var after := Committed(r.status, r, o, now);
            && o.proposal.plan == Plan(Look(r)) == ZonePolicy(r.spec, Plan(Look(r)))
            && o.missing == Remaining(r.spec, CachedDiscovery(r.status), r.status.missing, now)
            && RecordedBy(r.status, after, r.spec, Plan(Look(r)), Remaining(r.spec, CachedDiscovery(r.status), r.status.missing, now), r.generation)
            && !NeedsApply(o.world, env, r, Plan(Look(r)))
            && ReadyCounts(o.world.pods, env.clusterLabel(r.name)) == ReadyCounts(w.pods, env.clusterLabel(r.name))
  {
    var o := Decide(w, env, r, Scheduled, now).value;
    var p, cluster := o.proposal, env.clusterLabel(r.name);
    ScheduledProposal(r, ReadyCounts(w.pods, cluster), now);
    MissingLifecycle.TidiedIsRemaining(r, p, NeedsApply(w, env, r, p.plan), now);
    ScheduledCommit(r, p, o.missing, now);
    if o.applied {
      QuietAfterApply(w, env, r, p.plan, Removed(r.spec, CachedDiscovery(r.status), r.status.missing, now));
      ReadyCountsKept(w.pods, cluster, TargetsOf(p.plan), ManagedPods(w.pods, cluster), ManagedPods(w.pods, cluster));
    }
  }

  /** What the second reconcile proposes: the plan it finds recorded. */
  lemma SecondProposal(r: Resource, after: Status, ready: map<string, int>, now: int, later: int)
    requires Sound(r.status) && Look(r).trusted && !TakesFastPath(r, CachedDiscovery(r.status), ready, Plan(Look(r)))
    requires ZonePolicy(r.spec, Plan(Look(r))) == Plan(Look(r))
    requires RecordedBy(r.status, after, r.spec, Plan(Look(r)), Remaining(r.spec, CachedDiscovery(r.status), r.status.missing, now), r.generation)
    ensures var r1 := r.(status := after);
            && Propose(r1, Scheduled, ready, later) ==
               Some(Proposal(Sensed(Discovery(true, after.topology), false, false), false, Plan(Look(r1)), after.missing))
            && Plan(Look(r1)).instances == Plan(Look(r)).instances && !Plan(Look(r1)).frozen
            && after.lastApplied.writer == Plan(Look(r1)).membership.writer == Plan(Look(r)).membership.writer
            && Elements(after.lastApplied.reader) == Elements(Plan(Look(r1)).membership.reader) == Elements(Plan(Look(r)).membership.reader)
            && SoundMembership(after.lastApplied) && SoundMembership(Plan(Look(r1)).membership)
  {
    SecondLook(r, after, now);
    SettledLists(r.status.lastApplied, Plan(Look(r)).membership);
    FastPathNotLater(r, after, ready);
    ScheduledProposal(r.(status := after), ready, later);
  }

  lemma PlanNotEmpty(r: Resource)
    requires Look(r).trusted
    ensures Plan(Look(r)).instances != []
  {
    WriterOf(Look(r));
    SortPermutes(PlanName, Assessed(Look(r)));
  }

  /** A reconcile of snapshot `r` that applies nothing, leaves the cluster as it is and commits the status it found. */
  ghost predicate Idle(w: World, env: Renderer, r: Resource, now: int) {
    && Decide(w, env, r, Scheduled, now).Some?
    && var o := Decide(w, env, r, Scheduled, now).value;
       !o.applied && o.world == w && Committed(r.status, r, o, now) == r.status
  }

  /** The resource after the first reconcile, and the cluster it leaves. */
  function AfterFirst(w: World, env: Renderer, r: Resource, now: int): Resource
    requires Decide(w, env, r, Scheduled, now).Some?
  {
    r.(status := Committed(r.status, r, Decide(w, env, r, Scheduled, now).value, now))
  }

  /** Without the writer fast path, run again with nothing new to see and nothing newly expired, the reconcile is
      idle. */
  lemma PlainReconcileSettles(w: World, env: Renderer, r: Resource, now: int, later: int)
    requires PlainReconcile(w, env, r, now)
    requires forall m :: m in Decide(w, env, r, Scheduled, now).value.missing ==> !ReadyForDelete(r.spec, m, later)
    ensures Idle(Decide(w, env, r, Scheduled, now).value.world, env, AfterFirst(w, env, r, now), later)
  {
    var o := Decide(w, env, r, Scheduled, now).value;
    var after := Committed(r.status, r, o, now);
    FirstOutcome(w, env, r, now);
    SecondProposal(r, after, ReadyCounts(w.pods, env.clusterLabel(r.name)), now, later);
    DetectorIgnoresStatus(o.world, env, r, after, Plan(Look(r)), Plan(Look(r.(status := after))));
    PlanNotEmpty(r);
    SecondDecision(o.world, env, r, after, later);
  }

  lemma SecondDecision(w: World, env: Renderer, r: Resource, s: Status, later: int)
    requires s.discoveryTrusted == Trusted && s.observedGeneration == r.generation && s.lastAppliedTime.Some? && s.instances != []
    requires forall m :: m in s.missing ==> !ReadyForDelete(r.spec, m, later)
    requires var r1 := r.(status := s);
             var p := Proposal(Sensed(Discovery(true, s.topology), false, false), false, Plan(Look(r1)), s.missing);
             && Propose(r1, Scheduled, ReadyCounts(w.pods, env.clusterLabel(r.name)), later) == Some(p)
             && !p.plan.frozen && !NeedsApply(w, env, r1, p.plan)
             && SoundMembership(s.lastApplied) && SoundMembership(p.plan.membership)
             && s.lastApplied.writer == p.plan.membership.writer && Elements(s.lastApplied.reader) == Elements(p.plan.membership.reader)
    ensures var r1 := r.(status := s);
            && Decide(w, env, r1, Scheduled, later).Some?
            && var o := Decide(w, env, r1, Scheduled, later).value;
               !o.applied && o.world == w && Committed(s, r1, o, later) == s
  {
    var r1 := r.(status := s);
    var p := Propose(r1, Scheduled, ReadyCounts(w.pods, env.clusterLabel(r.name)), later).value;
    assert !ShouldApply(r1, p.plan, s.missing, false, false, later);
    IdleCommit(r, s, p, later);
  }

  lemma IdleCommit(r: Resource, s: Status, p: Proposal, later: int)
    requires p.sensed == Sensed(Discovery(true, s.topology), false, false) && !p.monitorRan && !p.plan.frozen
    requires s.discoveryTrusted == Trusted && s.observedGeneration == r.generation && s.lastAppliedTime.Some? && s.instances != []
    requires SoundMembership(s.lastApplied) && SoundMembership(p.plan.membership)
    requires s.lastApplied.writer == p.plan.membership.writer && Elements(s.lastApplied.reader) == Elements(p.plan.membership.reader)
    ensures CommitReconcile(s, r.(status := s), p, s.missing, later) == s
  {
    SameLengthDuplicates(s.lastApplied.writer, p.plan.membership.writer);
    SameLengthDuplicates(s.lastApplied.reader, p.plan.membership.reader);
  }

  // ---------------------------------------------------------------- the fast path is undone

  lemma {:induction false} SingleWriterIsDiscovered(instances: seq<Observation>, writer: string) returns (o: Observation)
    requires SingleWriter(instances, writer) != "" && SingleWriter(instances, writer) != writer
    ensures o in instances && o.role == Writer && o.name == SingleWriter(instances, writer)
  {
    if instances[0].role != Writer {
      o := SingleWriterIsDiscovered(instances[1..], writer);
    } else if SingleWriter(instances[1..], instances[0].name) == instances[0].name {
      o := instances[0];
    } else {
      o := SingleWriterIsDiscovered(instances[1..], instances[0].name);
    }
  }

  /** The fast path is taken for a writer that is not counted as healthy; then no discovered writer is. */
  lemma FastPathWriterUnhealthy(r: Resource, ready: map<string, int>, n: string)
    requires Sound(r.status) && Look(r).trusted && TakesFastPath(r, CachedDiscovery(r.status), ready, Plan(Look(r)))
    ensures !HealthyMember(Look(r), Writer, n)
  {
    if HealthyMember(Look(r), Writer, n) {
      var o :| o in Look(r).discovered && o.name == n && o.role == Writer;
      SingleWriterOnly(Look(r).discovered, "", o);
      forall x | HealthyMember(Look(r), Writer, x) ensures x == n {
        var y :| y in Look(r).discovered && y.name == x && y.role == Writer;
        SingleWriterOnly(Look(r).discovered, "", y);
      }
      StrictNamesNoDup(Look(r).discovered);
      SoleHealthyWriter(Look(r), n);
    }
  }

  lemma LastStatusIn(statuses: seq<InstanceStatus>, n: string)
    ensures LastStatus(statuses, n).Some? ==> LastStatus(statuses, n).value in statuses
  {
    if statuses != [] { LastStatusIn(statuses[..|statuses| - 1], n); }
  }

  lemma NeverHealthy(input: Input, o: Observation)
    requires input.cached && (forall p :: p in input.resource.status.instances ==> !p.healthy)
    ensures !Assess(input, o).healthy
  {
    LastStatusIn(input.resource.status.instances, o.name);
  }

  /** With nothing recorded nobody is healthy, and the fast path makes nobody so. */
  lemma FirstPlanUnhealthy(r: Resource, ready: map<string, int>)
    requires Look(r).trusted && r.status.instances == []
    ensures forall p :: p in FastPath(r, CachedDiscovery(r.status), ready, Plan(Look(r))).instances ==> !p.healthy
  {
    var a, b := Plan(Look(r)).instances, FastPath(r, CachedDiscovery(r.status), ready, Plan(Look(r))).instances;
    WriterOf(Look(r));
    SortElements(PlanName, Assessed(Look(r)));
    forall p | p in a ensures !p.healthy {
      var i :| 0 <= i < |Assessed(Look(r))| && Assessed(Look(r))[i] == p;
      NeverHealthy(Look(r), Look(r).discovered[i]);
    }
    assert |a| == |b| && forall i :: 0 <= i < |a| ==> a[i] in a && b[i].healthy == a[i].healthy;
  }

  lemma StillUnhealthy(r: Resource, after: Status, ready: map<string, int>, o: Observation)
    requires Look(r).trusted && !Assess(Look(r), o).healthy
    requires after.instances == if r.status.instances == [] then FastPath(r, CachedDiscovery(r.status), ready, Plan(Look(r))).instances else r.status.instances
    ensures !Assess(Look(r.(status := after)), o).healthy
  {
    if r.status.instances == [] {
      FirstPlanUnhealthy(r, ready);
      NeverHealthy(Look(r.(status := after)), o);
    }
  }

  /** The zone check sees the same conflicts in every plan of one topology. */
  predicate ConflictsFor(spec: Spec, topology: seq<Observation>) {
    var key := Affinity.TopologyKey(spec.zoneAware);
    && Affinity.EnabledDefaultTrue(spec.zoneAware.enabled) && !spec.zoneAware.policy.Ignore?
    && (|| (exists o :: o in topology && !Disabled(spec, o.name) && o.zone != "" &&
              ((key in spec.nodeSelector && spec.nodeSelector[key] != o.zone) || Affinity.Conflicts(spec.affinity, key, o.zone)))
        || (spec.zoneAware.required && key in spec.spreadKeys))
  }

  lemma ConflictsByTopology(input: Input)
    requires input.trusted
    ensures ZoneConflicts(input.resource.spec, Plan(input).instances) <==> ConflictsFor(input.resource.spec, input.discovered)
  {
    var plans := Assessed(input);
    WriterOf(input);
    SortElements(PlanName, plans);
    forall i | 0 <= i < |plans|
      ensures plans[i] in plans && input.discovered[i] in input.discovered && plans[i].obs == input.discovered[i]
           && plans[i].disabled == Disabled(input.resource.spec, input.discovered[i].name)
    {
      DisabledUnhealthy(input, input.discovered[i]);
    }
  }

  lemma FastPathKeepsConflicts(r: Resource, d: Discovery, ready: map<string, int>, plan: Output)
    ensures ZoneConflicts(r.spec, FastPath(r, d, ready, plan).instances) <==> ZoneConflicts(r.spec, plan.instances)
  {
    var a, b := plan.instances, FastPath(r, d, ready, plan).instances;
    assert |a| == |b| && forall i :: 0 <= i < |a| ==> a[i].obs == b[i].obs && a[i].disabled == b[i].disabled;
    forall i | 0 <= i < |a| ensures a[i] in a && b[i] in b { }
  }

  /** What a fast-path reconcile records. */
  lemma FastPathRecorded(w: World, env: Renderer, r: Resource, now: int)
    requires FirstReconcile(w, env, r, now) && FastPathTaken(w, env, r)
    ensures var s := AfterFirst(w, env, r, now).status;
            && s.topology == r.status.topology && s.discoveryTrusted == Trusted
            && s.lastApplied.writer == [SingleWriter(r.status.topology)]
            && s.missing == Remaining(r.spec, CachedDiscovery(r.status), r.status.missing, now)
            && s.instances == (if r.status.instances == []
                               then FastPath(r, CachedDiscovery(r.status), ReadyCounts(w.pods, env.clusterLabel(r.name)), Plan(Look(r))).instances
                               else r.status.instances)
    ensures !(r.spec.zoneAware.policy.Fail? && ConflictsFor(r.spec, r.status.topology))
  {
    var o, ready := Decide(w, env, r, Scheduled, now).value, ReadyCounts(w.pods, env.clusterLabel(r.name));
    ScheduledProposal(r, ready, now);
    MissingLifecycle.TidiedIsRemaining(r, o.proposal, NeedsApply(w, env, r, o.proposal.plan), now);
    ScheduledCommit(r, o.proposal, o.missing, now);
    FastPathKeepsConflicts(r, CachedDiscovery(r.status), ready, Plan(Look(r)));
    ConflictsByTopology(Look(r));
    WriterOf(Look(r));
  }

  ghost predicate MissingAbsent(s: Status) { forall m :: m in s.missing ==> m.name !in Names(s.topology) }

  /** Planning again after the fast path was recorded takes the new writer out: it is not healthy and not missing. */
  lemma FastPathLook(r: Resource, after: Status, ready: map<string, int>, now: int)
    requires Sound(r.status) && Look(r).trusted && MissingAbsent(r.status)
    requires TakesFastPath(r, CachedDiscovery(r.status), ready, Plan(Look(r)))
    requires after.topology == r.status.topology && after.discoveryTrusted == Trusted
    requires after.lastApplied.writer == [SingleWriter(r.status.topology)]
    requires after.missing == Remaining(r.spec, CachedDiscovery(r.status), r.status.missing, now)
    requires after.instances == if r.status.instances == [] then FastPath(r, CachedDiscovery(r.status), ready, Plan(Look(r))).instances else r.status.instances
    ensures Plan(Look(r.(status := after))).membership.writer == [] && !Plan(Look(r.(status := after))).frozen
  {
    var again := Look(r.(status := after));
    forall n ensures !HealthyMember(again, Writer, n) {
      FastPathWriterUnhealthy(r, ready, n);
      forall o | o in again.discovered && o.name == n && o.role == Writer ensures !Assess(again, o).healthy {
        assert !Assess(Look(r), o).healthy;
        StillUnhealthy(r, after, ready, o);
      }
    }
    RemainingSpec(r.spec, CachedDiscovery(r.status), r.status.missing, now);
    var o := SingleWriterIsDiscovered(r.status.topology, "");
    var i :| 0 <= i < |r.status.topology| && r.status.topology[i] == o;
    assert Names(r.status.topology)[i] == o.name;
    forall n ensures n !in Plan(again).membership.writer { NoHealthyWriter(again, n); }
    EmptyIff(Plan(again).membership.writer);
    WriterOf(again);
  }

  /** A reconcile that takes the writer fast path is undone by the next one, as long as the new writer has not been
      found healthy meanwhile: the next scheduled reconcile leaves the writer Service without a member. */
  lemma FastPathUndone(w: World, env: Renderer, r: Resource, now: int, later: int)
    requires FirstReconcile(w, env, r, now) && FastPathTaken(w, env, r) && MissingAbsent(r.status)
    ensures var r1, w1 := AfterFirst(w, env, r, now), Decide(w, env, r, Scheduled, now).value.world;
            && r1.status.lastApplied.writer == [SingleWriter(r.status.topology)]
            && Decide(w1, env, r1, Scheduled, later).Some?
            && AfterFirst(w1, env, r1, later).status.lastApplied.writer == []
  {
    var ready := ReadyCounts(w.pods, env.clusterLabel(r.name));
    var r1, w1 := AfterFirst(w, env, r, now), Decide(w, env, r, Scheduled, now).value.world;
    FastPathRecorded(w, env, r, now);
    FastPathLook(r, r1.status, ready, now);
    ConflictsByTopology(Look(r1));
    UndoneCommit(w1, env, r1, later);
  }

  lemma UndoneCommit(w: World, env: Renderer, r: Resource, now: int)
    requires Look(r).trusted && Plan(Look(r)).membership.writer == [] && !Plan(Look(r)).frozen
    requires r.status.lastApplied.writer == [SingleWriter(r.status.topology)]
    requires !(r.spec.zoneAware.policy.Fail? && ZoneConflicts(r.spec, Plan(Look(r)).instances))
    ensures Decide(w, env, r, Scheduled, now).Some? && AfterFirst(w, env, r, now).status.lastApplied.writer == []
  {
    ScheduledProposal(r, ReadyCounts(w.pods, env.clusterLabel(r.name)), now);
  }

  /** The fast path is there to be taken: the only instance is an enabled discovered writer that is recorded as unhealthy,
      has a ready pod, and was not the writer before. */
  lemma FastPathIsTaken(r: Resource, o: Observation, p: InstanceStatus, ready: map<string, int>)
    requires r.status.discoveryTrusted.Trusted? && r.status.topology == [o] && r.status.missing == [] && r.status.instances == [p]
    requires o.role == Writer && o.name != "" && !Disabled(r.spec, o.name) && p.obs == o && !p.healthy
    requires |r.status.lastApplied.writer| == 1 && o.name !in r.status.lastApplied.writer && ReadyCount(ready, o.name) != 0
    ensures TakesFastPath(r, CachedDiscovery(r.status), ready, Plan(Look(r)))
  {
    var input := Look(r);
    forall x ensures !Assess(input, x).healthy { NeverHealthy(input, x); }
    forall n ensures n !in Plan(input).membership.writer { NoHealthyWriter(input, n); }
    EmptyIff(Plan(input).membership.writer);
    WriterOf(input);
    assert SingleWriter([o]) == o.name by { assert [o][1..] == []; }
    assert o.name in [o.name];
  }

  /** Run again with nothing new to see and nothing newly expired, a reconcile is idle if and only if the first one did
      not take the writer fast path. */
  lemma SecondReconcileIsIdle(w: World, env: Renderer, r: Resource, now: int, later: int)
    requires FirstReconcile(w, env, r, now) && MissingAbsent(r.status)
    requires forall m :: m in Decide(w, env, r, Scheduled, now).value.missing ==> !ReadyForDelete(r.spec, m, later)
    ensures Idle(Decide(w, env, r, Scheduled, now).value.world, env, AfterFirst(w, env, r, now), later) <==> !FastPathTaken(w, env, r)
  {
    if FastPathTaken(w, env, r) {
      FastPathUndone(w, env, r, now, later);
    } else {
      PlainReconcileSettles(w, env, r, now, later);
    }
  }
}
