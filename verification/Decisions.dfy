/** When a reconcile fails over at once, when it sees reason to apply, what it plans from while frozen, and which times a
    run records: each as a condition on the status and the cluster a caller could look up. */
module Decisions {
  import opened Text
  import opened Domain
  import opened Planner
  import opened PlannerLaws
  import opened Commits
  import opened Interleavings
  import opened Relabel
  import opened Objects
  import opened Apply
  import opened Reconciler
  import opened Quiescence
  import opened Settings

  // ---------------------------------------------------------------- writer failover at once

  /** A ready pod of this cluster and instance. */
  ghost predicate ReadyPod(pods: Pods, cluster: string, n: string, pod: string) {
    pod in pods && pods[pod].ready && Managed(pods[pod].labels, cluster) && Label(pods[pod].labels, InstanceKey) == n
  }

  lemma ReadyCountIff(pods: Pods, cluster: string, n: string)
    requires n != ""
    ensures ReadyCount(ReadyCounts(pods, cluster), n) != 0 <==> exists pod :: ReadyPod(pods, cluster, n, pod)
    ensures ReadyCount(ReadyCounts(pods, cluster), n) == |set pod | pod in pods && ReadyPod(pods, cluster, n, pod)|
  {
    var ready := ReadyPods(pods, cluster, n);
    assert ready == set pod | pod in pods && ReadyPod(pods, cluster, n, pod);
    if pod :| ReadyPod(pods, cluster, n, pod) {
      assert pod in ready && n in ReadyInstances(pods, cluster);
    }
    if ready != {} {
      var pod :| pod in ready;
      assert ReadyPod(pods, cluster, n, pod);
    }
  }

  lemma {:induction false} NoWriterLeft(instances: seq<Observation>, writer: string)
    requires forall o :: o in instances ==> o.role != Writer
    ensures SingleWriter(instances, writer) == writer
  {
    if instances != [] { NoWriterLeft(instances[1..], writer); }
  }

  lemma {:induction false} SingleWriterIs(instances: seq<Observation>, i: nat)
    requires i < |instances| && OnlyWriter(instances, i) && instances[i].name != ""
    ensures SingleWriter(instances) == instances[i].name
  {
    if i == 0 {
      forall o | o in instances[1..] ensures o.role != Writer {
        var j :| 0 < j < |instances| && instances[j] == o;
      }
      NoWriterLeft(instances[1..], instances[0].name);
    } else {
      var rest := instances[1..];
      assert OnlyWriter(rest, i - 1) by {
        forall j | 0 <= j < |rest| && IsWriter(rest[j]) ensures j == i - 1 { assert IsWriter(instances[j + 1]); }
      }
      assert instances[0].role != Writer;
      SingleWriterIs(rest, i - 1);
    }
  }

  lemma ChangedToIff(applied: seq<string>, n: string)
    ensures MembershipChanged(applied, [n]) <==> applied != [n]
  {
    if !MembershipChanged(applied, [n]) { assert n in [n] && applied == [applied[0]]; }
  }

  /** A reconcile on trusted topology fails over at once if and only if the discovered writer is another one than the one
      recorded, is not switched off, has a ready pod, and is not what the plan has anyway; then it is the only writer. */
  lemma FailsOverIff(w: World, env: Renderer, r: Resource, i: nat)
    requires Sound(r.status) && Look(r).trusted && i < |r.status.topology| && OnlyWriter(r.status.topology, i)
    ensures var n, plan := r.status.topology[i].name, Plan(Look(r));
            var out := FastPath(r, CachedDiscovery(r.status), ReadyCounts(w.pods, env.clusterLabel(r.name)), plan);
            && (FastPathTaken(w, env, r) <==>
                  && r.status.lastApplied.writer != [] && r.status.lastApplied.writer != [n] && plan.membership.writer != [n]
                  && !SwitchedOff(r.spec, n) && exists pod :: ReadyPod(w.pods, env.clusterLabel(r.name), n, pod))
            && (FastPathTaken(w, env, r) ==> out.membership.writer == [n])
            && out.membership.reader == plan.membership.reader && !out.frozen
            && (!FastPathTaken(w, env, r) ==> out == plan)
  {
    var n, plan, cluster := r.status.topology[i].name, Plan(Look(r)), env.clusterLabel(r.name);
    assert r.status.topology[i] in r.status.topology;
    SingleWriterIs(r.status.topology, i);
    ChangedToIff(r.status.lastApplied.writer, n);
    ChangedToIff(plan.membership.writer, n);
    ReadyCountIff(w.pods, cluster, n);
    DisabledIff(r.spec, n);
    WriterOf(Look(r));
  }

  /** A failover at once counts the writer's ready pods, and leaves every other instance as planned. */
  lemma FailoverInstances(w: World, env: Renderer, r: Resource, i: nat, k: nat)
    requires Sound(r.status) && Look(r).trusted && i < |r.status.topology| && OnlyWriter(r.status.topology, i)
    requires FastPathTaken(w, env, r) && k < |Plan(Look(r)).instances|
    ensures var n, cluster, p := r.status.topology[i].name, env.clusterLabel(r.name), Plan(Look(r)).instances[k];
            var out := FastPath(r, CachedDiscovery(r.status), ReadyCounts(w.pods, cluster), Plan(Look(r)));
            var count := |set pod | pod in w.pods && ReadyPod(w.pods, cluster, n, pod)|;
            && |out.instances| == |Plan(Look(r)).instances|
            && out.instances[k] == p.(ready := if p.obs.name == n && p.ready < count then count else p.ready)
  {
    var n := r.status.topology[i].name;
    assert r.status.topology[i] in r.status.topology;
    SingleWriterIs(r.status.topology, i);
    ReadyCountIff(w.pods, env.clusterLabel(r.name), n);
  }

  // ---------------------------------------------------------------- reasons to apply

  /** Some instance is observed, switched off and scaled like this. */
  ghost predicate Has(plans: seq<InstancePlan>, o: Observation, disabled: bool, replicas: int) {
    exists p :: p in plans && p.obs == o && p.disabled == disabled && p.replicas == replicas
  }

  ghost predicate SameInstances(a: seq<InstancePlan>, b: seq<InstancePlan>) {
    forall o, disabled, replicas :: Has(a, o, disabled, replicas) <==> Has(b, o, disabled, replicas)
  }

  function ShapeName(s: (Observation, bool, int)): string { s.0.name }

  lemma ShapesStrict(plans: seq<InstancePlan>)
    requires NoDup(Map(PlanName, plans))
    ensures StrictlyAscending(ShapeName, Shapes(plans))
  {
    SortStrict(PlanName, plans);
    var sorted, shapes := Sort(PlanName, plans), Shapes(plans);
    forall i, j | 0 <= i < j < |shapes| ensures Less(ShapeName(shapes[i]), ShapeName(shapes[j])) {
      assert Less(PlanName(sorted[i]), PlanName(sorted[j]));
    }
  }

  lemma StrictNoDup(shapes: seq<(Observation, bool, int)>)
    requires StrictlyAscending(ShapeName, shapes)
    ensures NoDup(shapes)
  {
    forall i, j | 0 <= i < j < |shapes| ensures shapes[i] != shapes[j] { LessIrreflexive(ShapeName(shapes[i])); }
  }

  lemma ShapesSpec(plans: seq<InstancePlan>, s: (Observation, bool, int))
    ensures s in Shapes(plans) <==> Has(plans, s.0, s.1, s.2)
  {
    SortElements(PlanName, plans);
    var sorted, shapes := Sort(PlanName, plans), Shapes(plans);
    if s in shapes {
      var i :| 0 <= i < |shapes| && shapes[i] == s;
      assert sorted[i] in sorted;
    }
    if p :| p in plans && p.obs == s.0 && p.disabled == s.1 && p.replicas == s.2 {
      var i :| 0 <= i < |sorted| && sorted[i] == p;
      assert shapes[i] in shapes;
    }
  }

  lemma SameElementsIff(a: seq<InstancePlan>, b: seq<InstancePlan>)
    ensures (forall s :: s in Shapes(a) <==> s in Shapes(b)) <==> SameInstances(a, b)
  {
    forall s { ShapesSpec(a, s); }
    forall s { ShapesSpec(b, s); }
    if forall s :: s in Shapes(a) <==> s in Shapes(b) {
      forall o, disabled, replicas ensures Has(a, o, disabled, replicas) <==> Has(b, o, disabled, replicas) {
        assert (o, disabled, replicas) in Shapes(a) <==> (o, disabled, replicas) in Shapes(b);
      }
    }
  }

  lemma SameShapesIff(a: seq<InstancePlan>, b: seq<InstancePlan>)
    requires NoDup(Map(PlanName, a)) && NoDup(Map(PlanName, b))
    ensures Shapes(a) == Shapes(b) <==> SameInstances(a, b)
  {
    SameElementsIff(a, b);
    if SameInstances(a, b) {
      ShapesStrict(a);
      ShapesStrict(b);
      StrictNoDup(Shapes(a));
      StrictNoDup(Shapes(b));
      NoDupMultiset(Shapes(a));
      NoDupMultiset(Shapes(b));
      forall s ensures multiset(Shapes(a))[s] == multiset(Shapes(b))[s] {
        assert s in multiset(Shapes(a)) <==> s in Shapes(a);
        assert s in multiset(Shapes(b)) <==> s in Shapes(b);
      }
      StrictUnique(ShapeName, Shapes(a), Shapes(b));
    }
  }

  /** A plan counts as a change if and only if another set of instances is to serve a role, or an instance is new, gone,
      observed differently, switched on or off, or scaled. */
  lemma ChangedIff(s: Status, plan: Output)
    requires NoDup(s.lastApplied.writer) && NoDup(s.lastApplied.reader) && NoDup(plan.membership.writer) && NoDup(plan.membership.reader)
    requires NoDup(Map(PlanName, s.instances)) && NoDup(Map(PlanName, plan.instances))
    ensures DesiredStateChanged(s, plan) <==>
            || Elements(s.lastApplied.writer) != Elements(plan.membership.writer)
            || Elements(s.lastApplied.reader) != Elements(plan.membership.reader)
            || !SameInstances(s.instances, plan.instances)
  {
    SameLengthDuplicates(s.lastApplied.writer, plan.membership.writer);
    SameLengthDuplicates(s.lastApplied.reader, plan.membership.reader);
    SameShapesIff(s.instances, plan.instances);
  }

  // ---------------------------------------------------------------- what a frozen plan holds

  lemma {:induction false} FromStatusSpec(statuses: seq<InstanceStatus>, p: InstancePlan)
    ensures p in FromStatus(statuses) <==> p in statuses && p.obs.name != ""
  {
    if statuses != [] { FromStatusSpec(statuses[..|statuses| - 1], p); }
  }

  /** Without trust the plan is the record: the recorded membership, and the recorded instances that have a name. */
  lemma FrozenPlanIsRecord(input: Input, p: InstancePlan)
    requires !input.trusted
    ensures Plan(input).frozen && Plan(input).membership == input.resource.status.lastApplied
    ensures p in Plan(input).instances <==> p in input.resource.status.instances && p.obs.name != ""
  {
    FromStatusSpec(input.resource.status.instances, p);
    SortElements(PlanName, FromStatus(input.resource.status.instances));
  }

  // ---------------------------------------------------------------- the times a run records

  /** The step ran a discovery that came back, at this time; the discovery job records its errors too. */
  predicate RanDiscovery(step: Step) {
    step.Discover? || (step.Reconcile? && step.mode.Inline? && step.mode.attempt.Some? && step.mode.attempt.value.Answered?)
  }

  ghost predicate IsLatest(t: Option<int>, steps: seq<Step>) {
    && (t.None? <==> forall i :: 0 <= i < |steps| ==> !RanDiscovery(steps[i]))
    && (t.Some? ==>
          && (exists i :: 0 <= i < |steps| && RanDiscovery(steps[i]) && steps[i].now == t.value)
          && (forall i :: 0 <= i < |steps| && RanDiscovery(steps[i]) ==> steps[i].now <= t.value))
  }

  function Later(t: Option<int>, now: int): Option<int> { if t.Some? && t.value > now then t else Some(now) }

  lemma ReconcileTime(stored: Status, r: Resource, p: Proposal, missing: seq<Missing>, now: int)
    ensures CommitReconcile(stored, r, p, missing, now).lastDiscoveryTime ==
            if p.sensed.ran then Later(stored.lastDiscoveryTime, now) else stored.lastDiscoveryTime
  {
  }

  lemma ProposalRan(r: Resource, mode: Mode, ready: map<string, int>, now: int)
    ensures var p, tried := Propose(r, mode, ready, now), mode.Inline? && mode.attempt.Some?;
            && (p.None? <==> tried && mode.attempt.value.Errored?)
            && (p.Some? ==> (p.value.sensed.ran <==> tried))
  {
  }

  lemma StepTime(run: seq<Resource>, step: Step)
    requires run != [] && ValidStep(run, step)
    ensures var before, after := run[|run| - 1].status.lastDiscoveryTime, Next(run, step).status.lastDiscoveryTime;
            after == if RanDiscovery(step) then Later(before, step.now) else before
  {
    if step.Reconcile? {
      var r, stored := run[step.snapshot], run[|run| - 1].status;
      ProposalRan(r, step.mode, step.ready, step.now);
      var p := Propose(r, step.mode, step.ready, step.now);
      if p.Some? { ReconcileTime(stored, r, p.value, Tidied(r, p.value, step.drift, step.now), step.now); }
    }
  }

  lemma LatestNext(t: Option<int>, steps: seq<Step>, step: Step)
    requires IsLatest(t, steps)
    ensures IsLatest(if RanDiscovery(step) then Later(t, step.now) else t, steps + [step])
  {
    var more := steps + [step];
    assert more[|steps|] == step && forall i :: 0 <= i < |steps| ==> more[i] == steps[i];
    if t.Some? {
      var i :| 0 <= i < |steps| && RanDiscovery(steps[i]) && steps[i].now == t.value;
      assert more[i] == steps[i];
    }
  }

  /** In every run the recorded discovery time is the latest time of all discoveries that came back, in whatever order
      they commit. */
  lemma {:induction false} RecordedTimeIsLatest(run: seq<Resource>, steps: seq<Step>, n: nat)
    requires IsRun(run, steps) && n <= |steps|
    ensures IsLatest(run[n].status.lastDiscoveryTime, steps[..n])
    decreases n
  {
    if n > 0 {
      RecordedTimeIsLatest(run, steps, n - 1);
      StepOf(run, steps, n - 1);
      StepTime(run[..n], steps[n - 1]);
      LatestNext(run[n - 1].status.lastDiscoveryTime, steps[..n - 1], steps[n - 1]);
      assert steps[..n] == steps[..n - 1] + [steps[n - 1]];
    }
  }

  lemma ReconcileMovesStatuses(stored: Status, r: Resource, p: Proposal, missing: seq<Missing>, now: int)
    ensures var s := CommitReconcile(stored, r, p, missing, now);
            && (s.instances != stored.instances ==> stored.instances == [] || s.lastMonitorTime == Some(now))
            && (s.lastMonitorTime != stored.lastMonitorTime ==> p.monitorRan && s.lastMonitorTime == Some(now))
            && (p.monitorRan ==> s.lastMonitorTime == Later(stored.lastMonitorTime, now))
  {
  }

  /** In every interleaving instance statuses change only with the monitor time, to that of the step that changed them, but
      for the very first record. */
  lemma StatusesMoveWithTime(run: seq<Resource>, steps: seq<Step>, i: nat)
    requires IsRun(run, steps) && i < |steps|
    ensures var before, after := run[i].status, run[i + 1].status;
            && (after.instances != before.instances ==> !steps[i].Edit? && (before.instances == [] || after.lastMonitorTime == Some(steps[i].now)))
            && (after.lastMonitorTime != before.lastMonitorTime ==> !steps[i].Edit? && after.lastMonitorTime == Some(steps[i].now))
  {
    StepOf(run, steps, i);
    var step := steps[i];
    if step.Reconcile? {
      var r := run[..i + 1][step.snapshot];
      if Propose(r, step.mode, step.ready, step.now).Some? {
        var p := Propose(r, step.mode, step.ready, step.now).value;
        ReconcileMovesStatuses(run[i].status, r, p, Tidied(r, p, step.drift, step.now), step.now);
      }
    }
  }

  /** Every instance tracked after a trusted discovery was last missed by it. */
  lemma MissedNow(s: Status, d: Discovery, now: int, m: Missing)
    requires d.trusted && m in MissingFor(s, d, now)
    ensures m.last == Some(now)
  {
    var missing := MissingFor(s, d, now);
    var i :| 0 <= i < |missing| && missing[i] == m;
  }

  lemma CommitAppliedTime(stored: Status, r: Resource, p: Proposal, missing: seq<Missing>, now: int)
    requires SoundMembership(stored.lastApplied) && SoundMembership(p.plan.membership)
    ensures var s := CommitReconcile(stored, r, p, missing, now);
            var moved := Elements(stored.lastApplied.writer) != Elements(p.plan.membership.writer) || Elements(stored.lastApplied.reader) != Elements(p.plan.membership.reader);
            && s.lastAppliedTime == (if !p.plan.frozen && (moved || stored.lastAppliedTime.None?) then Some(now) else stored.lastAppliedTime)
            && s.lastApplied == if !p.plan.frozen && moved then p.plan.membership else stored.lastApplied
  {
    SameLengthDuplicates(stored.lastApplied.writer, p.plan.membership.writer);
    SameLengthDuplicates(stored.lastApplied.reader, p.plan.membership.reader);
  }

  /** In every interleaving the membership is recorded by reconciles only, with the time of the one that moved it; the time
      moves with nothing else, but for the first reconcile that is not frozen. */
  lemma AppliedTimeIsChange(run: seq<Resource>, steps: seq<Step>, i: nat)
    requires IsRun(run, steps) && i < |steps|
    ensures var before, after := run[i].status, run[i + 1].status;
            && (after.lastApplied != before.lastApplied ==> steps[i].Reconcile? && after.lastAppliedTime == Some(steps[i].now))
            && (after.lastAppliedTime != before.lastAppliedTime ==>
                  && steps[i].Reconcile? && after.lastAppliedTime == Some(steps[i].now)
                  && (before.lastAppliedTime.None? || after.lastApplied != before.lastApplied))
  {
    StepOf(run, steps, i);
    SoundPrefix(run, steps, i);
    if steps[i].Reconcile? {
      var step := steps[i];
      var r, before := run[..i + 1][step.snapshot], run[i].status;
      assert r == run[step.snapshot];
      if Propose(r, step.mode, step.ready, step.now).Some? {
        ProposalSound(r, step.mode, step.ready, step.now);
        var p := Propose(r, step.mode, step.ready, step.now).value;
        CommitAppliedTime(before, r, p, Tidied(r, p, step.drift, step.now), step.now);
      }
    }
  }

  // ---------------------------------------------------------------- zones that cannot be had

  /** The node selector names another zone, or no required term lets this one through. */
  ghost predicate ZoneRuledOut(spec: Spec, key: string, zone: string) {
    || (key in spec.nodeSelector && spec.nodeSelector[key] != zone)
    || (&& spec.affinity.Some? && spec.affinity.value.required.Some? && spec.affinity.value.required.value != []
        && forall t :: t in spec.affinity.value.required.value ==> !Affinity.AllowsZone(t.expressions, key, zone))
  }

  /** A plan is frozen over zones if and only if the policy is to fail, zone awareness is not switched off, and an active
      instance's zone is ruled out or pods pinned to one zone are to spread over zones.  Nothing else of it changes. */
  lemma FrozenOverZonesIff(spec: Spec, plan: Output)
    requires !plan.frozen
    ensures var key := if Trim(spec.zoneAware.topologyKey) != "" then spec.zoneAware.topologyKey else "topology.kubernetes.io/zone";
            var out := ZonePolicy(spec, plan);
            && (out.frozen <==>
                  && spec.zoneAware.policy == Affinity.Fail && spec.zoneAware.enabled != Some(false)
                  && (|| (exists p :: p in plan.instances && !p.disabled && p.obs.zone != "" && ZoneRuledOut(spec, key, p.obs.zone))
                      || (spec.zoneAware.required && key in spec.spreadKeys)))
            && out.instances == plan.instances && out.membership == plan.membership
  {
  }

  // ---------------------------------------------------------------- the reasons a plan gives

  lemma WriterNote(r: Resource, out: Output, missing: seq<Missing>)
    requires out.notes == []
    ensures var next, n := StabilizeWriter(r, out, missing), |out.membership.writer|;
            next.notes == if next.membership.writer != [] && n != 1 then [WriterPreserved]
                          else if next.membership.writer == [] && n > 1 then [WriterAmbiguous] else []
  {
  }

  /** Some missing reader is added back. */
  ghost predicate AddsBack(r: Resource, current: seq<string>, missing: seq<Missing>) { exists m :: m in missing && Preservable(r, current, m) }

  lemma {:induction false} AddedBackIff(r: Resource, current: seq<string>, missing: seq<Missing>)
    ensures PreservedReaders(r, current, missing) != [] <==> AddsBack(r, current, missing)
  {
    if missing != [] {
      var init, last := missing[..|missing| - 1], missing[|missing| - 1];
      AddedBackIff(r, current, init);
      assert missing == init + [last];
    }
  }

  lemma MissingNote(r: Resource, out: Output, missing: seq<Missing>)
    ensures var k := |PreserveReaders(r, out, missing).notes| - |out.notes|;
            && k >= 0 && PreserveReaders(r, out, missing).notes == out.notes + seq(k, _ => MissingReaderPreserved)
            && (k > 0 <==> AddsBack(r, out.membership.reader, missing))
  {
    AddedBackIff(r, out.membership.reader, missing);
    assert out.notes + [] == out.notes;
  }

  lemma ReaderNote(r: Resource, out: Output, missing: seq<Missing>)
    requires out.membership.reader == [] ==> StillMissing(r.spec, r.status.lastApplied.reader, missing) == []
    ensures StabilizeReader(r, out, missing).notes ==
            out.notes + if out.membership.reader == [] && out.suppressed then [FallbackSuppressed]
                        else if out.membership.reader == [] && FallbackEnabled(r.spec) && out.membership.writer != [] then [ReaderFallback] else []
    ensures out.suppressed ==> StabilizeReader(r, out, missing).membership.reader == out.membership.reader
  {
    assert out.notes + [] == out.notes;
  }

  lemma AddsBackIffKept(input: Input, current: seq<string>)
    requires forall n :: n in current <==> HealthyMember(input, Reader, n)
    ensures AddsBack(input.resource, current, input.missing) <==> exists n :: KeptReader(input, n) && !HealthyMember(input, Reader, n)
  {
    var r := input.resource;
    if m :| m in input.missing && Preservable(r, current, m) { assert KeptReader(input, m.name); }
    if n :| KeptReader(input, n) && !HealthyMember(input, Reader, n) {
      var m :| m in input.missing && m.name == n && m.count < RemoveAfter(r.spec);
      assert Preservable(r, current, m);
    }
  }

  lemma JoinedNotes(w: seq<Note>, k: nat, f: seq<Note>, x: Note)
    ensures x in w + seq(k, _ => MissingReaderPreserved) + f <==> x in w || (x == MissingReaderPreserved && k > 0) || x in f
  {
    var middle := seq(k, _ => MissingReaderPreserved);
    assert k > 0 ==> middle[0] in middle;
  }

  /** The reasons the three stages give, one after the other, for any draft. */
  lemma StageNotes(r: Resource, draft: Output, missing: seq<Missing>, x: Note)
    requires draft.notes == []
    requires var mid := PreserveReaders(r, StabilizeWriter(r, draft, missing), missing);
             mid.membership.reader == [] ==> StillMissing(r.spec, r.status.lastApplied.reader, missing) == []
    ensures var out := StabilizeWriter(r, draft, missing);
            var mid := PreserveReaders(r, out, missing);
            var none, writer := mid.membership.reader == [], out.membership.writer;
            x in StabilizeReader(r, mid, missing).notes <==>
            || (x == WriterPreserved && writer != [] && |draft.membership.writer| != 1)
            || (x == WriterAmbiguous && writer == [] && |draft.membership.writer| > 1)
            || (x == MissingReaderPreserved && AddsBack(r, out.membership.reader, missing))
            || (x == FallbackSuppressed && none && mid.suppressed)
            || (x == ReaderFallback && none && !mid.suppressed && FallbackEnabled(r.spec) && writer != [])
  {
    var out := StabilizeWriter(r, draft, missing);
    var mid := PreserveReaders(r, out, missing);
    WriterNote(r, draft, missing);
    MissingNote(r, out, missing);
    ReaderNote(r, mid, missing);
    ReaderStagesKeepTheRest(r, out, missing);
    JoinedNotes(out.notes, |mid.notes| - |out.notes|, StabilizeReader(r, mid, missing).notes[|mid.notes|..], x);
  }

  lemma PlanNotes(input: Input, x: Note)
    requires input.trusted
    ensures var out, none := StabilizeWriter(input.resource, FirstDraft(input), input.missing), Settled(input).membership.reader == [];
            x in Plan(input).notes <==>
            || (x == WriterPreserved && out.membership.writer != [] && |FirstDraft(input).membership.writer| != 1)
            || (x == WriterAmbiguous && out.membership.writer == [] && |FirstDraft(input).membership.writer| > 1)
            || (x == MissingReaderPreserved && AddsBack(input.resource, out.membership.reader, input.missing))
            || (x == FallbackSuppressed && none && Settled(input).suppressed)
            || (x == ReaderFallback && none && !Settled(input).suppressed && FallbackEnabled(input.resource.spec) && out.membership.writer != [])
  {
    if Settled(input).membership.reader == [] { LastReaderBranchIsDead(input); }
    StageNotes(input.resource, FirstDraft(input), input.missing, x);
  }

  lemma SuppressedKept(r: Resource, draft: Output, missing: seq<Missing>)
    ensures PreserveReaders(r, StabilizeWriter(r, draft, missing), missing).suppressed == draft.suppressed
    ensures StabilizeWriter(r, draft, missing).membership.reader == draft.membership.reader
  {
  }

  /** The reasons of a trusted plan: a writer kept although it is not the one healthy writer, no choice between several, a
      missing reader kept, a borrowing suppressed, a reader borrowed. */
  lemma NotesTell(input: Input, x: Note)
    requires input.trusted
    ensures var m, healthy := Plan(input).membership, |HealthyNames(Assessed(input), Writer)|;
            x in Plan(input).notes <==>
            || (x == WriterPreserved && m.writer != [] && healthy != 1)
            || (x == WriterAmbiguous && m.writer == [] && healthy > 1)
            || (x == MissingReaderPreserved && exists n :: KeptReader(input, n) && !HealthyMember(input, Reader, n))
            || (x == FallbackSuppressed && (forall n :: !HealthyMember(input, Reader, n) && !KeptReader(input, n)) && AllReadersDisabled(input.resource.spec, input.discovered))
            || (x == ReaderFallback && BorrowsWriter(input) && m.writer != [])
  {
    var names := HealthyNames(Assessed(input), Writer);
    SortPermutes(Self, names);
    assert |SortNames(names)| == |multiset(SortNames(names))| == |names|;
    PlanNotes(input, x);
    WriterOf(input);
    SettledEmpty(input);
    SuppressedKept(input.resource, FirstDraft(input), input.missing);
    forall n ensures n in FirstDraft(input).membership.reader <==> HealthyMember(input, Reader, n) { DraftElements(input, n); }
    AddsBackIffKept(input, FirstDraft(input).membership.reader);
  }
}
