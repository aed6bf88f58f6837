/** Every interleaving of spec edits, discovery jobs, monitor jobs and reconciles.  A run is the list of
    states the custom resource goes through; a job may have read any earlier state of it, so stale
    snapshots, overlapping jobs and cached reads are all covered, and its clock reading is arbitrary. */
module Interleavings {
  import opened Text
  import opened Domain
  import opened Planner
  import opened PlannerLaws
  import opened Commits

  datatype Step =
    | Edit(spec: Spec)
    | Discover(snapshot: nat, attempt: Attempt, now: int)
    | Monitor(snapshot: nat, check: Option<map<string, Health>>, now: int)
    | Reconcile(snapshot: nat, mode: Mode, ready: map<string, int>, drift: bool, now: int)

  ghost predicate ValidAttempt(a: Attempt) {
    a.Answered? && a.d.trusted ==> TrustedShape(a.d.instances)
  }

  ghost predicate ValidMode(mode: Mode) {
    mode.Inline? && mode.attempt.Some? ==> ValidAttempt(mode.attempt.value)
  }

  ghost predicate ValidStep(run: seq<Resource>, step: Step) {
    match step
    case Edit(_) => true
    case Discover(k, attempt, _) => k < |run| && ValidAttempt(attempt)
    case Monitor(k, _, _) => k < |run|
    case Reconcile(k, mode, _, _, _) => k < |run| && ValidMode(mode)
  }

  /** The monitor job only starts on a trusted cached topology. */
  function MonitorStep(current: Status, r: Resource, check: Option<map<string, Health>>, now: int): Status {
    var d := CachedDiscovery(r.status);
    if !d.trusted then current else CommitMonitor(current, d, MonitorPlan(r, check), now)
  }

  function DiscoverStep(current: Status, r: Resource, attempt: Attempt, now: int): Status {
    var sensed := JobDiscovery(r, attempt);
    CommitDiscovery(current, sensed, MissingFor(r.status, sensed.discovery, now), now)
  }

  function ReconcileStep(current: Status, r: Resource, mode: Mode, ready: map<string, int>, drift: bool, now: int): Status {
    match Propose(r, mode, ready, now)
    case None => current
    case Some(p) => CommitReconcile(current, r, p, Tidied(r, p, drift, now), now)
  }

  function Next(run: seq<Resource>, step: Step): Resource
    requires run != []
    requires match step
             case Edit(_) => true
             case Discover(k, _, _) => k < |run|
             case Monitor(k, _, _) => k < |run|
             case Reconcile(k, _, _, _, _) => k < |run|
  {
    var current := run[|run| - 1];
    match step
    case Edit(spec) => current.(spec := spec, generation := current.generation + 1)
    case Discover(k, attempt, now) => current.(status := DiscoverStep(current.status, run[k], attempt, now))
    case Monitor(k, check, now) => current.(status := MonitorStep(current.status, run[k], check, now))
    case Reconcile(k, mode, ready, drift, now) =>
      current.(status := ReconcileStep(current.status, run[k], mode, ready, drift, now))
  }

  ghost predicate Happens(run: seq<Resource>, steps: seq<Step>, i: nat)
    requires |run| == |steps| + 1 && i < |steps|
  {
    ValidStep(run[..i + 1], steps[i]) && run[i + 1] == Next(run[..i + 1], steps[i])
  }

  /** A run: it starts with an empty status and every later state is one valid step further. */
  ghost predicate IsRun(run: seq<Resource>, steps: seq<Step>) {
    && |run| == |steps| + 1
    && run[0].status == EMPTY_STATUS
    && forall i :: 0 <= i < |steps| ==> Happens(run, steps, i)
  }

  // ---------------------------------------------------------------- the invariant

  ghost predicate SoundTopology(s: Status) {
    && (s.topology == [] || TrustedShape(s.topology))
    && s.topologyHash == if s.topology == [] then NoHash else HashOf(s.topology)
  }

  ghost predicate SoundMembership(m: Membership) {
    |m.writer| <= 1 && NoDup(m.reader)
  }

  ghost predicate Sound(s: Status) {
    && SoundTopology(s)
    && SoundMembership(s.lastApplied)
    && NoDup(Map(MissingName, s.missing))
  }

  // ---------------------------------------------------------------- sensing keeps it

  ghost predicate SoundSensed(sensed: Sensed) {
    sensed.discovery.trusted ==>
      TrustedShape(sensed.discovery.instances) || (!sensed.ran && sensed.discovery.instances == [])
  }

  lemma JobSound(r: Resource, attempt: Attempt)
    requires Sound(r.status) && ValidAttempt(attempt)
    ensures SoundSensed(JobDiscovery(r, attempt))
  {
  }

  lemma SensedSound(r: Resource, mode: Mode)
    requires Sound(r.status) && ValidMode(mode) && SenseDiscovery(r, mode).Some?
    ensures SoundSensed(SenseDiscovery(r, mode).value)
  {
  }

  lemma {:induction false} DistinctSpec(s: seq<string>)
    ensures NoDup(Distinct(s))
    ensures forall x :: x in Distinct(s) <==> x in s
  {
    if s != [] { DistinctSpec(s[..|s| - 1]); }
  }

  lemma AbsentSpec(s: Status, instances: seq<Observation>)
    ensures NoDup(AbsentNames(s, instances))
    ensures forall n :: n in AbsentNames(s, instances) <==> n in Tracked(s) && n != "" && n !in DiscoveredNames(instances)
  {
    var tracked := Tracked(s);
    var kept := Keep(tracked, set n | n in tracked && n != "" && n !in DiscoveredNames(instances));
    DistinctSpec(kept);
    SortNoDup(Self, Distinct(kept));
    SortElements(Self, Distinct(kept));
  }

  lemma MissingForNoDup(s: Status, d: Discovery, now: int)
    requires NoDup(Map(MissingName, s.missing))
    ensures NoDup(Map(MissingName, MissingFor(s, d, now)))
  {
    if d.trusted {
      AbsentSpec(s, d.instances);
      assert Map(MissingName, MissingFor(s, d, now)) == AbsentNames(s, d.instances);
    }
  }

  lemma {:induction false} RemainingSpec(spec: Spec, d: Discovery, missing: seq<Missing>, now: int)
    ensures forall m :: m in Remaining(spec, d, missing, now) <==>
              m in missing && (d.trusted && m.name !in DiscoveredNames(d.instances) ==> !ReadyForDelete(spec, m, now))
    ensures NoDup(Map(MissingName, missing)) ==> NoDup(Map(MissingName, Remaining(spec, d, missing, now)))
  {
    if d.trusted && missing != [] {
      var init, last := missing[..|missing| - 1], missing[|missing| - 1];
      RemainingSpec(spec, d, init, now);
      var rest := Remaining(spec, d, init, now);
      if NoDup(Map(MissingName, missing)) {
        LastKeyFresh(MissingName, missing);
        FreshLast(rest, last);
      }
    }
  }

  lemma FreshLast(rest: seq<Missing>, last: Missing)
    requires NoDup(Map(MissingName, rest)) && forall m :: m in rest ==> MissingName(m) != MissingName(last)
    ensures NoDup(Map(MissingName, rest + [last]))
  {
    assert Map(MissingName, rest + [last]) == Map(MissingName, rest) + [last.name];
    forall i | 0 <= i < |rest| ensures Map(MissingName, rest)[i] != last.name { assert rest[i] in rest; }
  }

  // ---------------------------------------------------------------- planning keeps it

  lemma PlanSound(input: Input)
    requires SoundMembership(input.resource.status.lastApplied) && NoDup(Map(MissingName, input.missing))
    requires input.trusted ==> NoDup(Names(input.discovered))
    ensures SoundMembership(Plan(input).membership)
  {
    if input.trusted {
      AtMostOneWriter(input);
      MembersNoDup(input);
    }
  }

  lemma ProposalSound(r: Resource, mode: Mode, ready: map<string, int>, now: int)
    requires Sound(r.status) && ValidMode(mode) && Propose(r, mode, ready, now).Some?
    ensures var p := Propose(r, mode, ready, now).value;
            SoundSensed(p.sensed) && SoundMembership(p.plan.membership) && NoDup(Map(MissingName, p.missing))
  {
    SensedSound(r, mode);
    var sensed := SenseDiscovery(r, mode).value;
    MissingForNoDup(r.status, sensed.discovery, now);
    var missing := if sensed.ran then MissingFor(r.status, sensed.discovery, now) else r.status.missing;
    var input := PlanInput(r, sensed, SenseHealth(mode, sensed.discovery), missing);
    if input.trusted { StrictNamesNoDup(input.discovered); }
    PlanSound(input);
  }

  // ---------------------------------------------------------------- commits keep it

  predicate NotBefore(a: Option<int>, b: Option<int>) {
    a.Some? ==> b.Some? && a.value <= b.value
  }

  /** What no commit ever takes back. */
  ghost predicate Grows(before: Status, after: Status) {
    && NotBefore(before.lastDiscoveryTime, after.lastDiscoveryTime)
    && NotBefore(before.lastMonitorTime, after.lastMonitorTime)
    && (before.topology != [] ==> after.topology != [])
  }

  lemma DiscoveryCommitSound(stored: Status, sensed: Sensed, missing: seq<Missing>, now: int)
    requires Sound(stored) && SoundSensed(sensed) && sensed.ran && NoDup(Map(MissingName, missing))
    ensures Sound(CommitDiscovery(stored, sensed, missing, now)) && Grows(stored, CommitDiscovery(stored, sensed, missing, now))
  {
  }

  lemma MonitorCommitSound(stored: Status, d: Discovery, plan: Output, now: int)
    requires Sound(stored)
    ensures Sound(CommitMonitor(stored, d, plan, now)) && Grows(stored, CommitMonitor(stored, d, plan, now))
  {
  }

  lemma ReconcileCommitSound(stored: Status, r: Resource, p: Proposal, missing: seq<Missing>, now: int)
    requires Sound(stored) && SoundSensed(p.sensed) && SoundMembership(p.plan.membership) && NoDup(Map(MissingName, missing))
    ensures Sound(CommitReconcile(stored, r, p, missing, now))
  {
  }

  lemma ReconcileCommitGrows(stored: Status, r: Resource, p: Proposal, missing: seq<Missing>, now: int)
    requires SoundSensed(p.sensed)
    ensures Grows(stored, CommitReconcile(stored, r, p, missing, now))
  {
  }

  lemma StepSound(run: seq<Resource>, step: Step)
    requires run != [] && ValidStep(run, step) && forall i :: 0 <= i < |run| ==> Sound(run[i].status)
    ensures Sound(Next(run, step).status) && Grows(run[|run| - 1].status, Next(run, step).status)
  {
    var current := run[|run| - 1].status;
    match step
    case Edit(_) =>
    case Discover(k, attempt, now) =>
      JobSound(run[k], attempt);
      MissingForNoDup(run[k].status, JobDiscovery(run[k], attempt).discovery, now);
      DiscoveryCommitSound(current, JobDiscovery(run[k], attempt), MissingFor(run[k].status, JobDiscovery(run[k], attempt).discovery, now), now);
    case Monitor(k, check, now) =>
      MonitorCommitSound(current, CachedDiscovery(run[k].status), MonitorPlan(run[k], check), now);
    case Reconcile(k, mode, ready, drift, now) =>
      if Propose(run[k], mode, ready, now).Some? {
        var p := Propose(run[k], mode, ready, now).value;
        ProposalSound(run[k], mode, ready, now);
        RemainingSpec(run[k].spec, p.sensed.discovery, p.missing, now);
        ReconcileCommitSound(current, run[k], p, Tidied(run[k], p, drift, now), now);
        ReconcileCommitGrows(current, run[k], p, Tidied(run[k], p, drift, now), now);
      }
  }

  // ---------------------------------------------------------------- whole runs

  lemma StepOf(run: seq<Resource>, steps: seq<Step>, i: nat)
    requires IsRun(run, steps) && i < |steps|
    ensures ValidStep(run[..i + 1], steps[i]) && run[i + 1] == Next(run[..i + 1], steps[i])
    ensures run[..i + 1][i] == run[i]
  {
    assert Happens(run, steps, i);
  }

  ghost predicate SoundUpTo(run: seq<Resource>, n: nat)
    requires n < |run|
  {
    forall i :: 0 <= i <= n ==> Sound(run[i].status)
  }

  lemma SoundStep(run: seq<Resource>, steps: seq<Step>, i: nat)
    requires IsRun(run, steps) && i < |steps| && SoundUpTo(run, i)
    ensures Sound(run[i + 1].status) && Grows(run[i].status, run[i + 1].status)
  {
    StepOf(run, steps, i);
    var before := run[..i + 1];
    assert forall k :: 0 <= k < |before| ==> before[k] == run[k];
    StepSound(before, steps[i]);
  }

  lemma {:induction false} SoundPrefix(run: seq<Resource>, steps: seq<Step>, n: nat)
    requires IsRun(run, steps) && n <= |steps|
    ensures SoundUpTo(run, n)
    decreases n
  {
    if n > 0 {
      SoundPrefix(run, steps, n - 1);
      SoundStep(run, steps, n - 1);
    }
  }

  lemma RunSound(run: seq<Resource>, steps: seq<Step>, n: nat)
    requires IsRun(run, steps) && n <= |steps|
    ensures forall i :: 0 <= i <= n ==> Sound(run[i].status)
  {
    SoundPrefix(run, steps, n);
  }

  lemma StepGrows(run: seq<Resource>, steps: seq<Step>, i: nat)
    requires IsRun(run, steps) && i < |steps|
    ensures Grows(run[i].status, run[i + 1].status)
  {
    SoundPrefix(run, steps, i);
    SoundStep(run, steps, i);
  }

  lemma GrowsTransitive(a: Status, b: Status, c: Status)
    requires Grows(a, b) && Grows(b, c)
    ensures Grows(a, c)
  {
  }

  lemma {:induction false} RunGrows(run: seq<Resource>, steps: seq<Step>, i: nat, j: nat)
    requires IsRun(run, steps) && i <= j <= |steps|
    ensures Grows(run[i].status, run[j].status)
    decreases j - i
  {
    if i < j {
      RunGrows(run, steps, i, j - 1);
      StepGrows(run, steps, j - 1);
      GrowsTransitive(run[i].status, run[j - 1].status, run[j].status);
    }
  }

  /** In every state of every run at most one writer is recorded and the recorded lists, the missing
      list and the stored topology name nothing twice; a stored hash is the hash of the stored topology. */
  lemma EveryStateIsSound(run: seq<Resource>, steps: seq<Step>, i: nat)
    requires IsRun(run, steps) && i <= |steps|
    ensures var s := run[i].status;
            && |s.lastApplied.writer| <= 1 && NoDup(s.lastApplied.writer) && NoDup(s.lastApplied.reader)
            && NoDup(Map(MissingName, s.missing)) && NoDup(Names(s.topology))
            && (s.topologyHash != NoHash ==> s.topologyHash == HashOf(s.topology))
            && (s.topology != [] ==> TrustedShape(s.topology) && s.topologyHash != NoHash)
  {
    RunSound(run, steps, i);
    if run[i].status.topology != [] { StrictNamesNoDup(run[i].status.topology); }
  }

  /** Discovery and monitor times never run backwards, whatever the jobs' clocks say. */
  lemma TimesNeverDecrease(run: seq<Resource>, steps: seq<Step>, i: nat, j: nat)
    requires IsRun(run, steps) && i <= j <= |steps|
    ensures NotBefore(run[i].status.lastDiscoveryTime, run[j].status.lastDiscoveryTime)
    ensures NotBefore(run[i].status.lastMonitorTime, run[j].status.lastMonitorTime)
  {
    RunGrows(run, steps, i, j);
  }

  lemma SameLengthDuplicates(a: seq<string>, b: seq<string>)
    requires NoDup(a) && NoDup(b)
    ensures MembershipChanged(a, b) <==> Elements(a) != Elements(b)
  {
    NoDupCardinality(a);
    NoDupCardinality(b);
    if !MembershipChanged(a, b) {
      assert Elements(b) <= Elements(a);
      if Elements(b) < Elements(a) {
        SubsetSmaller(Elements(b), Elements(a));
      }
    } else if |a| == |b| {
      var v :| v in b && v !in a;
      assert v in Elements(b) && v !in Elements(a);
    }
  }

  lemma SubsetSmaller<T>(a: set<T>, b: set<T>)
    requires a < b
    ensures |a| < |b|
  {
    assert |b - a| == |b| - |a| by { assert b == a + (b - a); }
    var x :| x in b && x !in a;
    assert x in b - a;
  }

  /** Hence the length-and-containment test used to detect membership changes is set inequality, for
      whatever a reconcile of the run proposes against whatever is stored when it commits. */
  lemma MembershipChangeIsSetInequality(run: seq<Resource>, steps: seq<Step>, i: nat, j: nat, mode: Mode, ready: map<string, int>, now: int)
    requires IsRun(run, steps) && i <= |steps| && j <= |steps|
    requires ValidMode(mode) && Propose(run[i], mode, ready, now).Some?
    ensures var recorded, planned := run[j].status.lastApplied, Propose(run[i], mode, ready, now).value.plan.membership;
            && (MembershipChanged(recorded.writer, planned.writer) <==> Elements(recorded.writer) != Elements(planned.writer))
            && (MembershipChanged(recorded.reader, planned.reader) <==> Elements(recorded.reader) != Elements(planned.reader))
  {
    RunSound(run, steps, i);
    RunSound(run, steps, j);
    ProposalSound(run[i], mode, ready, now);
    var recorded, planned := run[j].status.lastApplied, Propose(run[i], mode, ready, now).value.plan.membership;
    SameLengthDuplicates(recorded.writer, planned.writer);
    SameLengthDuplicates(recorded.reader, planned.reader);
  }

  /** What a monitor job on snapshot `r` assesses instances from: its check, or the recorded health when the check
      failed. */
  function MonitorInput(r: Resource, check: Option<map<string, Health>>): Input {
    Input(r, true, r.status.topology, if check.Some? then check.value else map[], check.None?, r.status.missing)
  }

  /** A monitor job that commits writes, for every instance of the topology stored at that moment and in its order, the
      assessment of that instance from its own snapshot and check, and changes nothing else but the time: results probed
      against an outdated topology are dropped. */
  lemma MonitorMatchesStoredTopology(run: seq<Resource>, steps: seq<Step>, i: nat)
    requires IsRun(run, steps) && i < |steps| && Happens(run, steps, i) && steps[i].Monitor?
    requires CachedDiscovery(run[steps[i].snapshot].status).trusted
    requires MonitorCommits(run[i].status, CachedDiscovery(run[steps[i].snapshot].status), steps[i].now)
    ensures Map(PlanObs, run[i + 1].status.instances) == run[i].status.topology == run[i + 1].status.topology
    ensures var before, after, topology := run[i].status, run[i + 1].status, run[i].status.topology;
            && |after.instances| == |topology|
            && (forall k :: 0 <= k < |topology| ==> after.instances[k] == Assess(MonitorInput(run[steps[i].snapshot], steps[i].check), topology[k]))
            && after == before.(instances := after.instances, lastMonitorTime := Some(steps[i].now), discoveryTrusted := Trusted)
  {
    StepOf(run, steps, i);
    var k, check, now := steps[i].snapshot, steps[i].check, steps[i].now;
    var before := run[..i + 1];
    assert before[k] == run[k];
    RunGrows(run, steps, k, i);
    RunSound(run, steps, i);
    MonitorWrites(run[i].status, run[k], check, now);
  }

  lemma MonitorWrites(stored: Status, r: Resource, check: Option<map<string, Health>>, now: int)
    requires Sound(stored) && Sound(r.status) && stored.topology != []
    requires CachedDiscovery(r.status).trusted && MonitorCommits(stored, CachedDiscovery(r.status), now)
    ensures var s := MonitorStep(stored, r, check, now);
            && Map(PlanObs, s.instances) == stored.topology == s.topology
            && |s.instances| == |stored.topology|
            && (forall k :: 0 <= k < |stored.topology| ==> s.instances[k] == Assess(MonitorInput(r, check), stored.topology[k]))
            && s == stored.(instances := s.instances, lastMonitorTime := Some(now), discoveryTrusted := Trusted)
  {
    PlannedObservations(MonitorInput(r, check));
  }

  function PlanObs(p: InstancePlan): Observation { p.obs }

  lemma PlannedObservations(input: Input)
    requires input.trusted && StrictlyAscending(ObsName, input.discovered)
    ensures Plan(input).instances == Assessed(input)
    ensures Map(PlanObs, Plan(input).instances) == input.discovered
  {
    WriterOf(input);
    var plans := Assessed(input);
    forall i | 0 <= i < |plans| ensures plans[i].obs == input.discovered[i] {
      DisabledUnhealthy(input, input.discovered[i]);
    }
    forall i, j | 0 <= i < j < |plans| ensures Less(PlanName(plans[i]), PlanName(plans[j])) {
      assert Less(ObsName(input.discovered[i]), ObsName(input.discovered[j]));
    }
    SortOfStrict(PlanName, plans);
  }
}
