/** What stale snapshots do to the freeze: a job commits the trust of its snapshot without looking at what was stored
    meanwhile, so outside serial runs a freeze can end without a discovery. */
module StaleSnapshots {
  import opened Text
  import opened Domain
  import opened Commits
  import opened Interleavings
  import opened SerialRuns
  import opened DiscoveryLatch

  // ---------------------------------------------------------------- how a freeze ends

  ghost predicate Frozen(s: Status) { !s.discoveryTrusted.Trusted? }

  /** The step commits a trusted discovery, its own or the one its snapshot holds. */
  predicate EndsFreeze(current: Status, run: seq<Resource>, step: Step) {
    match step
    case Edit(_) => false
    case Discover(k, attempt, now) => k < |run| && !After(current.lastDiscoveryTime, now) && JobDiscovery(run[k], attempt).discovery.trusted
    case Monitor(k, _, now) =>
      k < |run| && CachedDiscovery(run[k].status).trusted && MonitorCommits(current, CachedDiscovery(run[k].status), now)
    case Reconcile(k, mode, _, _, _) =>
      k < |run| && SenseDiscovery(run[k], mode).Some? && SenseDiscovery(run[k], mode).value.discovery.trusted
  }

  lemma CommitTrust(stored: Status, r: Resource, p: Proposal, missing: seq<Missing>, now: int)
    ensures CommitReconcile(stored, r, p, missing, now).discoveryTrusted == Report(p.sensed.discovery)
  {
  }

  lemma ReconcileTrust(stored: Status, r: Resource, mode: Mode, ready: map<string, int>, drift: bool, now: int)
    ensures var s := ReconcileStep(stored, r, mode, ready, drift, now);
            s.discoveryTrusted == if SenseDiscovery(r, mode).Some? then Report(SenseDiscovery(r, mode).value.discovery) else stored.discoveryTrusted
  {
    if Propose(r, mode, ready, now).Some? {
      var p := Propose(r, mode, ready, now).value;
      CommitTrust(stored, r, p, Tidied(r, p, drift, now), now);
    }
  }

  lemma NextTrust(run: seq<Resource>, step: Step)
    requires run != [] && ValidStep(run, step) && Frozen(run[|run| - 1].status)
    ensures Next(run, step).status.discoveryTrusted.Trusted? <==> EndsFreeze(run[|run| - 1].status, run, step)
  {
    if step.Reconcile? { ReconcileTrust(run[|run| - 1].status, run[step.snapshot], step.mode, step.ready, step.drift, step.now); }
  }

  lemma EndsFromSnapshot(current: Status, run: seq<Resource>, step: Step)
    requires EndsFreeze(current, run, step) && !Succeeds(step)
    ensures !step.Edit? && step.snapshot < |run| && !Frozen(run[step.snapshot].status)
  {
    TrustedReading(run[step.snapshot], step);
  }

  /** In every interleaving a step ends a freeze if and only if it commits a trusted discovery. */
  lemma FreezeEndsIff(run: seq<Resource>, steps: seq<Step>, i: nat)
    requires IsRun(run, steps) && i < |steps| && Frozen(run[i].status)
    ensures !Frozen(run[i + 1].status) <==> EndsFreeze(run[i].status, run[..i + 1], steps[i])
  {
    StepOf(run, steps, i);
    NextTrust(run[..i + 1], steps[i]);
  }

  /** And then it found one itself, or its snapshot was taken before the freeze. */
  lemma EndedByStaleSnapshot(run: seq<Resource>, steps: seq<Step>, i: nat)
    requires IsRun(run, steps) && i < |steps| && Frozen(run[i].status) && !Frozen(run[i + 1].status) && !Succeeds(steps[i])
    ensures !steps[i].Edit? && steps[i].snapshot < i && !Frozen(run[steps[i].snapshot].status)
  {
    FreezeEndsIff(run, steps, i);
    EndsFromSnapshot(run[i].status, run[..i + 1], steps[i]);
    SameState(run, i + 1, steps[i].snapshot);
  }

  lemma SameState(run: seq<Resource>, n: nat, k: nat)
    requires k < n <= |run|
    ensures run[..n][k] == run[k]
  {
  }

  /** A step that reads a trusted discovery without finding one works from a snapshot that is not frozen. */
  lemma TrustedReading(r: Resource, step: Step)
    requires !Succeeds(step)
    ensures step.Discover? && JobDiscovery(r, step.attempt).discovery.trusted ==> !Frozen(r.status)
    ensures step.Monitor? && CachedDiscovery(r.status).trusted ==> !Frozen(r.status)
    ensures step.Reconcile? && SenseDiscovery(r, step.mode).Some? && SenseDiscovery(r, step.mode).value.discovery.trusted ==> !Frozen(r.status)
  {
  }

  // ---------------------------------------------------------------- a stale reconcile ends a freeze

  function Extend(run: seq<Resource>, step: Step): seq<Resource>
    requires run != []
    requires match step
             case Edit(_) => true
             case Discover(k, _, _) => k < |run|
             case Monitor(k, _, _) => k < |run|
             case Reconcile(k, _, _, _, _) => k < |run|
  {
    run + [Next(run, step)]
  }

  lemma RunExtends(run: seq<Resource>, steps: seq<Step>, step: Step)
    requires IsRun(run, steps) && ValidStep(run, step)
    ensures IsRun(Extend(run, step), steps + [step])
  {
    var longer, more := Extend(run, step), steps + [step];
    forall i | 0 <= i < |more| ensures Happens(longer, more, i) {
      if i < |steps| {
        StepOf(run, steps, i);
        assert longer[..i + 1] == run[..i + 1];
      } else {
        assert longer[..i + 1] == run;
      }
    }
  }

  lemma RunStarts(r: Resource)
    requires r.status == EMPTY_STATUS
    ensures IsRun([r], [])
  {
  }

  /** One more discovery on the latest state. */
  function Discovers(run: seq<Resource>, attempt: Attempt, now: int): Step
    requires run != []
  {
    Discover(|run| - 1, attempt, now)
  }

  lemma AfterFinding(run: seq<Resource>, steps: seq<Step>, good: seq<Observation>, now: int) returns (longer: seq<Resource>)
    requires IsRun(run, steps) && TrustedShape(good) && !After(run[|steps|].status.lastDiscoveryTime, now)
    ensures longer == Extend(run, Discovers(run, Answered(Discovery(true, good)), now))
    ensures IsRun(longer, steps + [Discovers(run, Answered(Discovery(true, good)), now)]) && longer[..|run|] == run
    ensures var s := longer[|run|].status;
            s.discoveryTrusted.Trusted? && s.topology == good && s.lastDiscoveryTime == Some(now) && longer[|run|].spec == run[|steps|].spec
  {
    longer := Extend(run, Discovers(run, Answered(Discovery(true, good)), now));
    RunExtends(run, steps, Discovers(run, Answered(Discovery(true, good)), now));
  }

  /** The topology is found once and then discovery answers without trust, m times. */
  ghost predicate FailsAfter(run: seq<Resource>, steps: seq<Step>, r: Resource, good: seq<Observation>, m: nat) {
    && IsSerial(run, steps) && |steps| == m + 1 && run[0] == r
    && (forall k :: 0 <= k < |run| ==> run[k].spec == r.spec)
    && (forall k :: 0 <= k < |steps| ==> steps[k].Discover? && steps[k].now == k + 1)
    && (forall k :: 0 < k < |steps| ==> steps[k].attempt == Answered(UNTRUSTED))
    && CachedDiscovery(run[1].status).trusted && LedgerOf(steps) == Ledger(Some(good), m, false)
  }

  lemma FailsFirst(r: Resource, good: seq<Observation>) returns (run: seq<Resource>, steps: seq<Step>)
    requires r.status == EMPTY_STATUS && TrustedShape(good)
    ensures FailsAfter(run, steps, r, good, 0)
  {
    RunStarts(r);
    run := AfterFinding([r], [], good, 1);
    steps := [] + [Discovers([r], Answered(Discovery(true, good)), 1)];
    assert run[0] == r;
    assert steps[..0] == [];
  }

  lemma FailsMore(run: seq<Resource>, steps: seq<Step>, r: Resource, good: seq<Observation>, m: nat) returns (longer: seq<Resource>, more: seq<Step>)
    requires FailsAfter(run, steps, r, good, m)
    ensures FailsAfter(longer, more, r, good, m + 1)
  {
    var step := Discovers(run, Answered(UNTRUSTED), m + 2);
    longer, more := Extend(run, step), steps + [step];
    RunExtends(run, steps, step);
    assert longer[1] == run[1] && longer[0] == run[0] && longer[m + 2].spec == run[m + 1].spec;
    assert more[..m + 1] == steps;
  }

  lemma {:induction false} FailingRun(r: Resource, good: seq<Observation>, m: nat) returns (run: seq<Resource>, steps: seq<Step>)
    requires r.status == EMPTY_STATUS && TrustedShape(good)
    ensures FailsAfter(run, steps, r, good, m)
  {
    if m == 0 {
      run, steps := FailsFirst(r, good);
    } else {
      run, steps := FailingRun(r, good, m - 1);
      run, steps := FailsMore(run, steps, r, good, m - 1);
    }
  }

  lemma FrozenAtThreshold(run: seq<Resource>, steps: seq<Step>, r: Resource, good: seq<Observation>, m: nat)
    requires FailsAfter(run, steps, r, good, m) && m >= DiscoveryThreshold(r.spec)
    ensures Frozen(run[m + 1].status)
  {
    StatusAgrees(run, steps, DiscoveryThreshold(r.spec), m + 1);
    assert steps[..m + 1] == steps;
  }

  lemma AfterStaleReconcile(run: seq<Resource>, steps: seq<Step>, k: nat, now: int) returns (longer: seq<Resource>)
    requires IsRun(run, steps) && k <= |steps| && CachedDiscovery(run[k].status).trusted
    ensures longer == Extend(run, Reconcile(k, Scheduled, map[], false, now))
    ensures IsRun(longer, steps + [Reconcile(k, Scheduled, map[], false, now)]) && longer[..|run|] == run
    ensures !Frozen(longer[|run|].status)
    ensures longer[|run|].status == ReconcileStep(run[|steps|].status, run[k], Scheduled, map[], false, now)
  {
    longer := Extend(run, Reconcile(k, Scheduled, map[], false, now));
    RunExtends(run, steps, Reconcile(k, Scheduled, map[], false, now));
    ReconcileTrust(run[|steps|].status, run[k], Scheduled, map[], false, now);
  }

  /** For every resource and every topology: found once, as many untrusted answers as the threshold asks for freeze the
      loop, and a reconcile that had read the state before them ends the freeze although nothing was discovered. */
  lemma StaleReconcileUnfreezes(r: Resource, good: seq<Observation>) returns (run: seq<Resource>, steps: seq<Step>)
    requires r.status == EMPTY_STATUS && TrustedShape(good)
    ensures var m := DiscoveryThreshold(r.spec) + 1;
            && IsRun(run, steps) && |steps| == m + 1 && run[0] == r
            && (forall k :: 0 < k < m ==> steps[k].Discover? && steps[k].attempt == Answered(UNTRUSTED))
            && Frozen(run[m].status) && steps[m] == Reconcile(1, Scheduled, map[], false, m + 1)
            && !Succeeds(steps[m]) && !Frozen(run[m + 1].status)
  {
    var m := DiscoveryThreshold(r.spec);
    var before, failures := FailingRun(r, good, m);
    FrozenAtThreshold(before, failures, r, good, m);
    run := AfterStaleReconcile(before, failures, 1, m + 2);
    steps := failures + [Reconcile(1, Scheduled, map[], false, m + 2)];
    assert run[m + 1] == before[m + 1] && run[0] == before[0];
  }
}
