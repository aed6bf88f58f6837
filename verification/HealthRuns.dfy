/** The recorded health of an instance over serial runs of the whole loop: the closed form of the check results, whoever
    committed them. */
module HealthRuns {
  import opened Text
  import opened Domain
  import opened Planner
  import opened PlannerLaws
  import opened Hysteresis
  import opened Commits
  import opened Interleavings
  import opened SerialRuns
  import MissingLifecycle
  import opened BoundedPreservation

  // ---------------------------------------------------------------- what an observer of the checks notes down

  /** The health the record began with, None when it began with a check result, and the check results since. */
  datatype Story = Story(start: Option<bool>, results: seq<bool>)

  const NOTHING_RECORDED := Story(None, [])

  /** What a step contributes: nothing, a record without a check, or a check result. */
  datatype Effect = Nothing | Unchecked | Checked(healthy: bool)

  predicate Found(check: map<string, Health>, n: string) { n in check && check[n].healthy }

  function EffectOf(r: Resource, step: Step, n: string): Effect {
    match step
    case Edit(_) => Nothing
    case Discover(_, _, _) => Nothing
    case Monitor(_, check, _) =>
      if !r.status.discoveryTrusted.Trusted? || r.status.topology == [] then Nothing
      else if check.None? then Unchecked
      else Checked(Found(check.value, n))
    case Reconcile(_, mode, ready, _, now) =>
      match Propose(r, mode, ready, now)
      case None => Nothing
      case Some(p) =>
        if p.plan.frozen then Nothing
        else if mode.Inline? && mode.probe.Some? && mode.probe.value.Some? then Checked(Found(mode.probe.value.value, n))
        else if r.status.instances == [] then Unchecked
        else Nothing
  }

  /** A record without a check says unhealthy, and only if there was none. */
  function Tell(story: Story, e: Effect): Story {
    match e
    case Nothing => story
    case Unchecked => if story == NOTHING_RECORDED then Story(Some(false), []) else story
    case Checked(healthy) => story.(results := story.results + [healthy])
  }

  ghost function StoryOf(run: seq<Resource>, steps: seq<Step>, i: nat, j: nat, n: string, story: Story): Story
    requires i <= j <= |steps| < |run|
    decreases j - i
  {
    if i == j then story else Tell(StoryOf(run, steps, i, j - 1, n, story), EffectOf(run[j - 1], steps[j - 1], n))
  }

  // ---------------------------------------------------------------- the record

  /** The same physical instance, as far as the ids tell. */
  predicate SameBody(known: string, dbi: string) { known == "" || known == dbi }

  /** The stored record of the instance is what the story says. */
  ghost predicate Tells(s: Status, n: string, spec: Spec, dbi: string, story: Story) {
    match LastStatus(s.instances, n)
    case None => story == NOTHING_RECORDED
    case Some(p) => story != NOTHING_RECORDED && SameBody(p.obs.dbi, dbi) && Describes(spec, story.start, story.results, p)
  }

  /** The instance is enabled under the thresholds of `spec`, and the topology has it. */
  ghost predicate Watched(r: Resource, topology: seq<Observation>, n: string, spec: Spec, dbi: string) {
    && !Disabled(r.spec, n) && Failure(r.spec) == Failure(spec) && Recovery(r.spec) == Recovery(spec)
    && exists o :: o in topology && o.name == n && SameBody(o.dbi, dbi)
  }

  lemma BodyKept(a: string, b: string, dbi: string)
    requires SameBody(a, dbi) && SameBody(b, dbi)
    ensures !IdentityChanged(a, b)
  {
  }

  lemma FirstRecord(round: Input, o: Observation, spec: Spec)
    requires Watches(spec, o, round) && LastStatus(round.resource.status.instances, o.name).None?
    ensures var story := if round.cached then Story(Some(false), []) else Story(None, [RawResult(round, o.name)]);
            story != NOTHING_RECORDED && Describes(spec, story.start, story.results, Assess(round, o))
  {
    if !round.cached {
      NextRound(spec, o, round, None, []);
      assert [] + [RawResult(round, o.name)] == [RawResult(round, o.name)];
    }
  }

  lemma NextRecord(round: Input, o: Observation, spec: Spec, dbi: string, story: Story)
    requires Watches(spec, o, round) && SameBody(o.dbi, dbi) && LastStatus(round.resource.status.instances, o.name).Some?
    requires Tells(round.resource.status, o.name, spec, dbi, story)
    ensures var after := Tell(story, if round.cached then Unchecked else Checked(RawResult(round, o.name)));
            after != NOTHING_RECORDED && Describes(spec, after.start, after.results, Assess(round, o))
  {
    var p := LastStatus(round.resource.status.instances, o.name).value;
    BodyKept(o.dbi, p.obs.dbi, dbi);
    Resumes(spec, o, round.resource.status.instances, p, story.start, story.results);
    NextRound(spec, o, round, story.start, story.results);
  }

  /** One round of assessment moves the story on. */
  lemma RoundTells(round: Input, o: Observation, spec: Spec, dbi: string, story: Story)
    requires Watches(spec, o, round) && SameBody(o.dbi, dbi) && o.name != ""
    requires Tells(round.resource.status, o.name, spec, dbi, story)
    ensures var after := Tell(story, if round.cached then Unchecked else Checked(RawResult(round, o.name)));
            after != NOTHING_RECORDED && Describes(spec, after.start, after.results, Assess(round, o)) && Assess(round, o).obs == o
  {
    DisabledUnhealthy(round, o);
    if LastStatus(round.resource.status.instances, o.name).None? {
      FirstRecord(round, o, spec);
      assert NOTHING_RECORDED.results + [RawResult(round, o.name)] == [RawResult(round, o.name)];
    } else {
      NextRecord(round, o, spec, dbi, story);
    }
  }

  // ---------------------------------------------------------------- the steps

  lemma MonitorTells(r: Resource, check: Option<map<string, Health>>, now: int, n: string, spec: Spec, dbi: string, story: Story)
    requires Sound(r.status) && InTime(r.status, now) && n != "" && Tells(r.status, n, spec, dbi, story)
    requires Watched(r, r.status.topology, n, spec, dbi)
    ensures Tells(MonitorStep(r.status, r, check, now), n, spec, dbi, Tell(story, EffectOf(r, Monitor(0, check, now), n)))
  {
    if CachedDiscovery(r.status).trusted {
      var o :| o in r.status.topology && o.name == n && SameBody(o.dbi, dbi);
      var round := MonitorInput(r, check);
      StrictNamesNoDup(r.status.topology);
      RecordedAssessment(round, o);
      RoundTells(round, o, spec, dbi, story);
    }
  }

  /** The same record, but for the number of ready pods. */
  predicate SameRecord(p: InstanceStatus, q: InstanceStatus) { q == p.(ready := q.ready) }

  lemma {:induction false} LastOfSame(a: seq<InstanceStatus>, b: seq<InstanceStatus>, n: string)
    requires |a| == |b| && forall k :: 0 <= k < |a| ==> SameRecord(a[k], b[k])
    ensures LastStatus(a, n).Some? <==> LastStatus(b, n).Some?
    ensures LastStatus(a, n).Some? ==> SameRecord(LastStatus(a, n).value, LastStatus(b, n).value)
  {
    if a != [] { LastOfSame(a[..|a| - 1], b[..|b| - 1], n); }
  }

  lemma FastPathSame(r: Resource, d: Discovery, ready: map<string, int>, plan: Output, n: string)
    ensures var a, b := LastStatus(plan.instances, n), LastStatus(FastPath(r, d, ready, plan).instances, n);
            (a.Some? <==> b.Some?) && (a.Some? ==> SameRecord(a.value, b.value))
  {
    LastOfSame(plan.instances, FastPath(r, d, ready, plan).instances, n);
  }

  /** The instances a reconcile that is not frozen proposes, and whether it probed. */
  lemma ProposedInstances(r: Resource, mode: Mode, ready: map<string, int>, now: int)
    requires Propose(r, mode, ready, now).Some? && !Propose(r, mode, ready, now).value.plan.frozen
    ensures SenseDiscovery(r, mode).Some?
    ensures var p, input := Propose(r, mode, ready, now).value, InputOf(r, mode, now);
            && input.trusted && input.resource == r && p.plan.instances == FastPath(r, p.sensed.discovery, ready, Plan(input)).instances
            && input.discovered == p.sensed.discovery.instances
            && (p.monitorRan <==> mode.Inline? && mode.probe.Some? && mode.probe.value.Some?)
            && input.cached == !p.monitorRan && (p.monitorRan ==> input.health == mode.probe.value.value)
  {
  }

  lemma WrittenInstances(stored: Status, r: Resource, p: Proposal, missing: seq<Missing>, now: int)
    requires InTime(stored, now)
    ensures CommitReconcile(stored, r, p, missing, now).instances ==
            if !p.plan.frozen && (p.monitorRan || stored.instances == []) then p.plan.instances else stored.instances
  {
  }

  lemma WritingReconcileTells(r: Resource, step: Step, n: string, spec: Spec, dbi: string, story: Story)
    requires MissingLifecycle.Sweeps(r, step) && Sound(r.status) && ValidReadings(step) && InTime(r.status, step.now) && n != ""
    requires Tells(r.status, n, spec, dbi, story) && Watched(r, Advance(r, step).status.topology, n, spec, dbi)
    requires var p := Propose(r, step.mode, step.ready, step.now).value; p.monitorRan || r.status.instances == []
    ensures Tells(Advance(r, step).status, n, spec, dbi, Tell(story, EffectOf(r, step, n)))
  {
    var p := Propose(r, step.mode, step.ready, step.now).value;
    ProposedInstances(r, step.mode, step.ready, step.now);
    SweepTopology(r, step);
    var round := InputOf(r, step.mode, step.now);
    var o :| o in round.discovered && o.name == n && SameBody(o.dbi, dbi);
    SensedSound(r, step.mode);
    StrictNamesNoDup(round.discovered);
    RecordedAssessment(round, o);
    RoundTells(round, o, spec, dbi, story);
    FastPathSame(r, p.sensed.discovery, step.ready, Plan(round), n);
    WrittenInstances(r.status, r, p, Tidied(r, p, step.drift, step.now), step.now);
  }

  lemma ReconcileTells(r: Resource, step: Step, n: string, spec: Spec, dbi: string, story: Story)
    requires step.Reconcile? && Sound(r.status) && ValidReadings(step) && InTime(r.status, step.now) && n != ""
    requires Tells(r.status, n, spec, dbi, story) && Watched(r, Advance(r, step).status.topology, n, spec, dbi)
    ensures Tells(Advance(r, step).status, n, spec, dbi, Tell(story, EffectOf(r, step, n)))
  {
    if Propose(r, step.mode, step.ready, step.now).Some? {
      var p := Propose(r, step.mode, step.ready, step.now).value;
      if !p.plan.frozen && (p.monitorRan || r.status.instances == []) {
        WritingReconcileTells(r, step, n, spec, dbi, story);
      } else {
        WrittenInstances(r.status, r, p, Tidied(r, p, step.drift, step.now), step.now);
        if !p.plan.frozen { ProposedInstances(r, step.mode, step.ready, step.now); }
      }
    }
  }

  lemma StepTells(r: Resource, step: Step, n: string, spec: Spec, dbi: string, story: Story)
    requires Sound(r.status) && ValidReadings(step) && (step.Edit? || InTime(r.status, step.now)) && n != ""
    requires Tells(r.status, n, spec, dbi, story) && Watched(r, Advance(r, step).status.topology, n, spec, dbi)
    ensures Tells(Advance(r, step).status, n, spec, dbi, Tell(story, EffectOf(r, step, n)))
  {
    match step
    case Edit(_) =>
    case Discover(_, _, _) =>
    case Monitor(_, check, now) => MonitorTells(r, check, now, n, spec, dbi, story);
    case Reconcile(_, _, _, _, _) => ReconcileTells(r, step, n, spec, dbi, story);
  }

  // ---------------------------------------------------------------- whole runs

  /** In the step from state k the instance is enabled, and afterwards the topology has it. */
  ghost predicate WatchedAt(run: seq<Resource>, k: nat, n: string, spec: Spec, dbi: string)
    requires k + 1 < |run|
  {
    Watched(run[k], run[k + 1].status.topology, n, spec, dbi)
  }

  lemma LinkedTells(run: seq<Resource>, steps: seq<Step>, k: nat, n: string, spec: Spec, dbi: string, story: Story)
    requires k < |steps| < |run| && Linked(run, steps, k) && WatchedAt(run, k, n, spec, dbi) && n != ""
    requires Tells(run[k].status, n, spec, dbi, story)
    ensures Tells(run[k + 1].status, n, spec, dbi, Tell(story, EffectOf(run[k], steps[k], n)))
  {
    StepTells(run[k], steps[k], n, spec, dbi, story);
  }

  /** State k says what the story since state i says. */
  ghost predicate ToldAt(run: seq<Resource>, steps: seq<Step>, i: nat, k: nat, n: string, spec: Spec, dbi: string, story: Story)
    requires i <= k <= |steps| < |run|
  {
    Tells(run[k].status, n, spec, dbi, StoryOf(run, steps, i, k, n, story))
  }

  lemma ToldNext(run: seq<Resource>, steps: seq<Step>, i: nat, k: nat, n: string, spec: Spec, dbi: string, story: Story)
    requires i <= k < |steps| < |run| && Linked(run, steps, k) && WatchedAt(run, k, n, spec, dbi) && n != ""
    requires ToldAt(run, steps, i, k, n, spec, dbi, story)
    ensures ToldAt(run, steps, i, k + 1, n, spec, dbi, story)
  {
    LinkedTells(run, steps, k, n, spec, dbi, StoryOf(run, steps, i, k, n, story));
  }

  ghost function Told(run: seq<Resource>, steps: seq<Step>, i: nat, n: string, spec: Spec, dbi: string, story: Story): seq<bool>
    requires i <= |steps| < |run|
  {
    seq(|steps| + 1, k requires 0 <= k <= |steps| => i <= k && ToldAt(run, steps, i, k, n, spec, dbi, story))
  }

  lemma ToldKeeps(run: seq<Resource>, steps: seq<Step>, i: nat, k: nat, n: string, spec: Spec, dbi: string, story: Story)
    requires i <= k < |steps| < |run| && Linked(run, steps, k) && WatchedAt(run, k, n, spec, dbi) && n != ""
    ensures Keeps(Told(run, steps, i, n, spec, dbi, story), k)
  {
    if ToldAt(run, steps, i, k, n, spec, dbi, story) { ToldNext(run, steps, i, k, n, spec, dbi, story); }
  }

  lemma LinkedStory(run: seq<Resource>, steps: seq<Step>, i: nat, j: nat, n: string, spec: Spec, dbi: string, story: Story)
    requires AllLinked(run, steps) && i <= j <= |steps| && n != "" && ToldAt(run, steps, i, i, n, spec, dbi, story)
    requires forall k :: i <= k < j ==> WatchedAt(run, k, n, spec, dbi)
    ensures ToldAt(run, steps, i, j, n, spec, dbi, story)
  {
    forall k | i <= k < j ensures Keeps(Told(run, steps, i, n, spec, dbi, story), k) {
      assert Linked(run, steps, k) && WatchedAt(run, k, n, spec, dbi);
      ToldKeeps(run, steps, i, k, n, spec, dbi, story);
    }
    Persists(Told(run, steps, i, n, spec, dbi, story), i, j);
  }

  /** While a serial run keeps an enabled instance in its topology, whatever else it does, the stored counters of the
      instance are the trailing run lengths of the check results committed since, and its stored health their closed
      form; failed checks, discoveries and reconciles on recorded health contribute nothing. */
  lemma HealthOfRun(run: seq<Resource>, steps: seq<Step>, i: nat, j: nat, n: string, spec: Spec, dbi: string, story: Story)
    requires IsSerial(run, steps) && i <= j <= |steps| && n != "" && Tells(run[i].status, n, spec, dbi, story)
    requires forall k :: i <= k < j ==> WatchedAt(run, k, n, spec, dbi)
    ensures Tells(run[j].status, n, spec, dbi, StoryOf(run, steps, i, j, n, story))
  {
    SerialIsLinked(run, steps);
    LinkedStory(run, steps, i, j, n, spec, dbi, story);
  }

  /** The other fields a check leaves: the ready pods it counted, none where it says nothing, and what was recorded when
      it failed. */
  lemma AssessedFields(r: Resource, check: Option<map<string, Health>>, o: Observation)
    ensures var p, last := Assess(MonitorInput(r, check), o), LastStatus(r.status.instances, o.name);
            && p.obs == o
            && (Disabled(r.spec, o.name) ==> p == InstancePlan(o, false, true, 0, 0, 0, 0))
            && (!Disabled(r.spec, o.name) && check.Some? ==>
                  !p.disabled && p.ready == if o.name in check.value then check.value[o.name].ready else 0)
            && (!Disabled(r.spec, o.name) && check.None? && last.Some? && (o.dbi == "" || last.value.obs.dbi == "" || o.dbi == last.value.obs.dbi) ==>
                  p == last.value.(obs := o, disabled := false, replicas := p.replicas))
            && (!Disabled(r.spec, o.name) && check.None? && (last.None? || (o.dbi != "" && last.value.obs.dbi != "" && o.dbi != last.value.obs.dbi)) ==>
                  p == InstancePlan(o, false, false, p.replicas, 0, 0, 0))
  {
  }
}
