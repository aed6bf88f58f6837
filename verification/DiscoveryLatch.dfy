/** The discovery freeze: how many failures the loop bridges with its last good topology, and what it
    leaves alone once it stops trusting discovery. */
module DiscoveryLatch {
  import opened Text
  import opened Domain
  import opened Planner
  import opened Commits
  import opened Interleavings
  import opened SerialRuns

  /** What an observer of the discovery attempts alone would note down: the last good answer, the
      failures since, and whether one of them was an error instead of an untrusted answer. */
  datatype Ledger = Ledger(good: Option<seq<Observation>>, failures: nat, errored: bool)

  /** The attempt a step commits; an inline reconcile gives up on an error and commits nothing. */
  function Attempted(step: Step): Option<Attempt> {
    match step
    case Discover(_, attempt, _) => Some(attempt)
    case Reconcile(_, Inline(Some(Answered(d)), _), _, _, _) => Some(Answered(d))
    case _ => None
  }

  function Note(l: Ledger, attempt: Option<Attempt>): Ledger {
    match attempt
    case None => l
    case Some(Errored) => l.(failures := l.failures + 1, errored := true)
    case Some(Answered(d)) => if d.trusted then Ledger(Some(d.instances), 0, false) else l.(failures := l.failures + 1)
  }

  function LedgerOf(steps: seq<Step>): Ledger {
    if steps == [] then Ledger(None, 0, false)
    else Note(LedgerOf(steps[..|steps| - 1]), Attempted(steps[|steps| - 1]))
  }

  /** Trust as the documentation promises it: fewer than `threshold` consecutive failures since a good
      answer (and no error among them). */
  predicate Bridged(l: Ledger, threshold: int) {
    l.good.Some? && l.failures < threshold && !l.errored
  }

  ghost predicate Agrees(s: Status, l: Ledger, threshold: int) {
    && s.discoveryFailures == l.failures
    && s.topology == (if l.good.Some? then l.good.value else [])
    && (s.discoveryTrusted.Trusted? <==> Bridged(l, threshold))
  }

  lemma JobAgrees(r: Resource, attempt: Attempt, now: int, l: Ledger)
    requires InTime(r.status, now) && Agrees(r.status, l, DiscoveryThreshold(r.spec))
    requires ValidAttempt(attempt) && (l.good.Some? ==> l.good.value != [])
    ensures Agrees(DiscoverStep(r.status, r, attempt, now), Note(l, Some(attempt)), DiscoveryThreshold(r.spec))
  {
  }

  lemma ReconcileAgrees(r: Resource, step: Step, l: Ledger)
    requires step.Reconcile? && ValidReadings(step) && InTime(r.status, step.now)
    requires Agrees(r.status, l, DiscoveryThreshold(r.spec)) && (l.good.Some? ==> l.good.value != [])
    ensures Agrees(Advance(r, step).status, Note(l, Attempted(step)), DiscoveryThreshold(r.spec))
  {
    if Propose(r, step.mode, step.ready, step.now).Some? {
      var p := Propose(r, step.mode, step.ready, step.now).value;
      ReconcileTopology(r, p, Tidied(r, p, step.drift, step.now), step.now);
    }
  }

  lemma MonitorAgrees(r: Resource, check: Option<map<string, Health>>, now: int, l: Ledger, threshold: int)
    requires Agrees(r.status, l, threshold)
    ensures Agrees(MonitorStep(r.status, r, check, now), l, threshold)
  {
  }

  lemma NoteGood(l: Ledger, step: Step)
    requires ValidReadings(step) && (l.good.Some? ==> l.good.value != [])
    ensures Note(l, Attempted(step)).good.Some? ==> Note(l, Attempted(step)).good.value != []
  {
  }

  lemma {:induction false} GoodIsNonEmpty(run: seq<Resource>, steps: seq<Step>, n: nat)
    requires IsSerial(run, steps) && n <= |steps|
    ensures LedgerOf(steps[..n]).good.Some? ==> LedgerOf(steps[..n]).good.value != []
    decreases n
  {
    if n > 0 {
      GoodIsNonEmpty(run, steps, n - 1);
      SerialStep(run, steps, n - 1);
      LedgerStep(steps, n);
      NoteGood(LedgerOf(steps[..n - 1]), steps[n - 1]);
    }
  }

  ghost predicate FixedThreshold(run: seq<Resource>, threshold: int) {
    forall i :: 0 <= i < |run| ==> DiscoveryThreshold(run[i].spec) == threshold
  }

  lemma AdvanceAgrees(r: Resource, step: Step, l: Ledger)
    requires ValidReadings(step) && (step.Edit? || InTime(r.status, step.now))
    requires Agrees(r.status, l, DiscoveryThreshold(r.spec)) && (l.good.Some? ==> l.good.value != [])
    ensures Agrees(Advance(r, step).status, Note(l, Attempted(step)), DiscoveryThreshold(r.spec))
  {
    match step
    case Edit(_) =>
    case Discover(_, attempt, now) => JobAgrees(r, attempt, now, l);
    case Monitor(_, check, now) => MonitorAgrees(r, check, now, l, DiscoveryThreshold(r.spec));
    case Reconcile(_, _, _, _, _) => ReconcileAgrees(r, step, l);
  }

  lemma LedgerStep(steps: seq<Step>, n: nat)
    requires 0 < n <= |steps|
    ensures LedgerOf(steps[..n]) == Note(LedgerOf(steps[..n - 1]), Attempted(steps[n - 1]))
  {
    assert steps[..n][..n - 1] == steps[..n - 1];
  }

  lemma {:induction false} StatusAgrees(run: seq<Resource>, steps: seq<Step>, threshold: int, n: nat)
    requires IsSerial(run, steps) && FixedThreshold(run, threshold) && n <= |steps|
    ensures Agrees(run[n].status, LedgerOf(steps[..n]), threshold)
    decreases n
  {
    if n > 0 {
      StatusAgrees(run, steps, threshold, n - 1);
      SerialStep(run, steps, n - 1);
      GoodIsNonEmpty(run, steps, n - 1);
      LedgerStep(steps, n);
      if !steps[n - 1].Edit? { NeverLate(run, steps, n - 1, n - 1); }
      AdvanceAgrees(run[n - 1], steps[n - 1], LedgerOf(steps[..n - 1]));
    }
  }

  /** After k consecutive failed discoveries the loop plans on exactly the last good topology while k is
      below the threshold, and on nothing (frozen) from then on. */
  lemma TrustedBelowThreshold(run: seq<Resource>, steps: seq<Step>, threshold: int, n: nat)
    requires IsSerial(run, steps) && FixedThreshold(run, threshold) && n <= |steps|
    ensures var l := LedgerOf(steps[..n]);
            CachedDiscovery(run[n].status) == if Bridged(l, threshold) then Discovery(true, l.good.value) else UNTRUSTED
  {
    StatusAgrees(run, steps, threshold, n);
    GoodIsNonEmpty(run, steps, n);
  }

  // ---------------------------------------------------------------- the latch, for any thresholds

  predicate Succeeds(step: Step) {
    Attempted(step).Some? && Attempted(step).value.Answered? && Attempted(step).value.d.trusted
  }

  lemma StaysUntrusted(r: Resource, step: Step)
    requires !r.status.discoveryTrusted.Trusted? && !Succeeds(step) && (step.Edit? || InTime(r.status, step.now))
    ensures !Advance(r, step).status.discoveryTrusted.Trusted?
  {
    if step.Reconcile? && Propose(r, step.mode, step.ready, step.now).Some? {
      var p := Propose(r, step.mode, step.ready, step.now).value;
      ReconcileTopology(r, p, Tidied(r, p, step.drift, step.now), step.now);
    }
  }

  /** Once untrusted, discovery stays untrusted until an attempt succeeds, even if the threshold is
      edited meanwhile. */
  lemma {:induction false} FreezeLatches(run: seq<Resource>, steps: seq<Step>, i: nat, j: nat)
    requires IsSerial(run, steps) && i <= j <= |steps|
    requires !run[i].status.discoveryTrusted.Trusted? && forall k :: i <= k < j ==> !Succeeds(steps[k])
    ensures !run[j].status.discoveryTrusted.Trusted?
    decreases j - i
  {
    if i < j {
      FreezeLatches(run, steps, i, j - 1);
      SerialStep(run, steps, j - 1);
      if !steps[j - 1].Edit? { NeverLate(run, steps, j - 1, j - 1); }
      StaysUntrusted(run[j - 1], steps[j - 1]);
    }
  }

  // ---------------------------------------------------------------- what a frozen reconcile leaves alone

  /** The part of the status that steers traffic. */
  ghost predicate SameTraffic(a: Status, b: Status) {
    && a.lastApplied == b.lastApplied && a.lastAppliedTime == b.lastAppliedTime
    && a.instances == b.instances && a.topology == b.topology && a.topologyHash == b.topologyHash
    && a.missing == b.missing
  }

  /** A reconcile on untrusted discovery applies nothing and changes no traffic state, whatever was
      stored since its snapshot. */
  lemma FrozenReconcileIsInert(stored: Status, r: Resource, mode: Mode, ready: map<string, int>, drift: bool, now: int)
    requires Propose(r, mode, ready, now).Some? && !Propose(r, mode, ready, now).value.sensed.discovery.trusted
    ensures var p := Propose(r, mode, ready, now).value;
            p.plan.frozen && p.plan.membership == r.status.lastApplied
            && !ShouldApply(r, p.plan, p.missing, p.sensed.ran || p.monitorRan, drift, now)
    ensures SameTraffic(stored, ReconcileStep(stored, r, mode, ready, drift, now))
  {
  }

  lemma FrozenStepIsInert(r: Resource, step: Step)
    requires !r.status.discoveryTrusted.Trusted? && !Succeeds(step) && (step.Edit? || InTime(r.status, step.now))
    ensures SameTraffic(r.status, Advance(r, step).status)
  {
    if step.Reconcile? && Propose(r, step.mode, step.ready, step.now).Some? {
      FrozenReconcileIsInert(r.status, r, step.mode, step.ready, step.drift, step.now);
    }
  }

  /** A frozen loop is inert: from an untrusted state until an attempt succeeds no step of a serial run, whatever it is,
      changes the membership, the instances, the topology or the missing list. */
  lemma {:induction false} FrozenRunIsInert(run: seq<Resource>, steps: seq<Step>, i: nat, j: nat)
    requires IsSerial(run, steps) && i <= j <= |steps|
    requires !run[i].status.discoveryTrusted.Trusted? && forall k :: i <= k < j ==> !Succeeds(steps[k])
    ensures SameTraffic(run[i].status, run[j].status)
    decreases j - i
  {
    if i < j {
      FrozenRunIsInert(run, steps, i, j - 1);
      FreezeLatches(run, steps, i, j - 1);
      SerialStep(run, steps, j - 1);
      if !steps[j - 1].Edit? { NeverLate(run, steps, j - 1, j - 1); }
      FrozenStepIsInert(run[j - 1], steps[j - 1]);
    }
  }
}
