/** Runs in which no other writer comes between a job's read and its commit and the clock does not go
    back: every job works on the state it finally replaces. */
module SerialRuns {
  import opened Text
  import opened Domain
  import opened Commits
  import opened Interleavings

  ghost predicate IsSerial(run: seq<Resource>, steps: seq<Step>) {
    && IsRun(run, steps)
    && (forall i :: 0 <= i < |steps| && !steps[i].Edit? ==> steps[i].snapshot == i)
    && (forall i, j :: 0 <= i <= j < |steps| && !steps[i].Edit? && !steps[j].Edit? ==> steps[i].now <= steps[j].now)
  }

  /** One serial step of the resource. */
  function Advance(r: Resource, step: Step): Resource {
    match step
    case Edit(spec) => r.(spec := spec, generation := r.generation + 1)
    case Discover(_, attempt, now) => r.(status := DiscoverStep(r.status, r, attempt, now))
    case Monitor(_, check, now) => r.(status := MonitorStep(r.status, r, check, now))
    case Reconcile(_, mode, ready, drift, now) => r.(status := ReconcileStep(r.status, r, mode, ready, drift, now))
  }

  ghost predicate InTime(s: Status, now: int) {
    !After(s.lastDiscoveryTime, now) && !After(s.lastMonitorTime, now)
  }

  ghost predicate ValidReadings(step: Step) {
    match step
    case Edit(_) => true
    case Discover(_, attempt, _) => ValidAttempt(attempt)
    case Monitor(_, _, _) => true
    case Reconcile(_, mode, _, _, _) => ValidMode(mode)
  }

  lemma SerialStep(run: seq<Resource>, steps: seq<Step>, i: nat)
    requires IsSerial(run, steps) && i < |steps|
    ensures run[i + 1] == Advance(run[i], steps[i]) && Sound(run[i].status) && ValidReadings(steps[i])
  {
    StepOf(run, steps, i);
    RunSound(run, steps, i);
    var before := run[..i + 1];
    assert before[i] == run[i];
  }

  lemma AdvanceInTime(r: Resource, step: Step, later: int)
    requires InTime(r.status, later) && (!step.Edit? ==> step.now <= later)
    ensures InTime(Advance(r, step).status, later)
  {
    match step
    case Edit(_) =>
    case Discover(_, _, _) =>
    case Monitor(_, _, _) =>
    case Reconcile(_, mode, ready, drift, now) =>
      if Propose(r, mode, ready, now).Some? {
        CommitInTime(r, Propose(r, mode, ready, now).value, Tidied(r, Propose(r, mode, ready, now).value, drift, now), now, later);
      }
  }

  lemma CommitInTime(r: Resource, p: Proposal, missing: seq<Missing>, now: int, later: int)
    requires InTime(r.status, later) && now <= later
    ensures InTime(CommitReconcile(r.status, r, p, missing, now), later)
  {
  }

  lemma InOrder(run: seq<Resource>, steps: seq<Step>, i: nat, j: nat)
    requires IsSerial(run, steps) && i <= j < |steps| && !steps[j].Edit?
    ensures !steps[i].Edit? ==> steps[i].now <= steps[j].now
  {
  }

  /** No serial commit is ever dropped as outdated. */
  lemma {:induction false} NeverLate(run: seq<Resource>, steps: seq<Step>, i: nat, j: nat)
    requires IsSerial(run, steps) && i <= j < |steps| && !steps[j].Edit?
    ensures InTime(run[i].status, steps[j].now)
    decreases i
  {
    if i > 0 {
      NeverLate(run, steps, i - 1, j);
      SerialStep(run, steps, i - 1);
      InOrder(run, steps, i - 1, j);
      AdvanceInTime(run[i - 1], steps[i - 1], steps[j].now);
    }
  }

  // ---------------------------------------------------------------- what a step found out

  /** The discovery result a step commits, if it ran discovery. */
  function Finding(r: Resource, step: Step): Option<Discovery> {
    match step
    case Discover(_, attempt, _) => Some(JobDiscovery(r, attempt).discovery)
    case Reconcile(_, mode, _, _, _) =>
      if SenseDiscovery(r, mode).Some? && SenseDiscovery(r, mode).value.ran
      then Some(SenseDiscovery(r, mode).value.discovery) else None
    case _ => None
  }

  predicate FindsTopology(r: Resource, step: Step) {
    Finding(r, step).Some? && Finding(r, step).value.trusted
  }

  /** The topology changes exactly when a step commits a trusted discovery. */
  lemma TopologyAfter(r: Resource, step: Step)
    requires step.Edit? || InTime(r.status, step.now)
    ensures Advance(r, step).status.topology ==
            if FindsTopology(r, step) then Finding(r, step).value.instances else r.status.topology
  {
    if step.Reconcile? && Propose(r, step.mode, step.ready, step.now).Some? {
      var p := Propose(r, step.mode, step.ready, step.now).value;
      ReconcileTopology(r, p, Tidied(r, p, step.drift, step.now), step.now);
    }
  }

  lemma ReconcileTopology(r: Resource, p: Proposal, missing: seq<Missing>, now: int)
    requires InTime(r.status, now)
    ensures var s := CommitReconcile(r.status, r, p, missing, now);
            && s.topology == (if p.sensed.ran && p.sensed.discovery.trusted then p.sensed.discovery.instances else r.status.topology)
            && s.missing == (if p.sensed.discovery.trusted then missing else r.status.missing)
            && s.discoveryTrusted == Report(p.sensed.discovery)
            && s.discoveryFailures == (if !p.sensed.ran then r.status.discoveryFailures
                                       else if p.sensed.failed then r.status.discoveryFailures + 1 else 0)
            && s.lastApplied == (if p.plan.frozen then r.status.lastApplied else Settle(r.status.lastApplied, p.plan.membership))
  {
  }

  /** What is recorded as applied after a plan was: the plan, unless it names the same members. */
  function Settle(applied: Membership, planned: Membership): Membership {
    if MembershipChanged(applied.writer, planned.writer) || MembershipChanged(applied.reader, planned.reader)
    then planned else applied
  }
}
