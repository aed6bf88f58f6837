/** How long a vanished member keeps receiving traffic, over serial runs. */
module BoundedPreservation {
  import opened Text
  import opened Domain
  import opened Planner
  import opened PlannerLaws
  import opened Commits
  import opened Interleavings
  import opened SerialRuns
  import opened MissingLifecycle

  // ---------------------------------------------------------------- the plan behind a proposal

  function InputOf(r: Resource, mode: Mode, now: int): Input
    requires SenseDiscovery(r, mode).Some?
  {
    var sensed := SenseDiscovery(r, mode).value;
    PlanInput(r, sensed, SenseHealth(mode, sensed.discovery),
              if sensed.ran then MissingFor(r.status, sensed.discovery, now) else r.status.missing)
  }

  lemma ProposedMembership(r: Resource, mode: Mode, ready: map<string, int>, now: int)
    requires Propose(r, mode, ready, now).Some?
    ensures SenseDiscovery(r, mode).Some?
    ensures var p, input := Propose(r, mode, ready, now).value, InputOf(r, mode, now);
            var base, d := Plan(input), SenseDiscovery(r, mode).value.discovery;
            && p.plan.membership.reader == base.membership.reader
            && p.plan.membership.writer == (if TakesFastPath(r, d, ready, base) then [SingleWriter(d.instances)] else base.membership.writer)
            && p.sensed.discovery == d && p.missing == input.missing && (d.trusted <==> input.trusted) && input.discovered == d.instances
  {
  }

  lemma {:induction false} SingleWriterFound(instances: seq<Observation>, writer: string)
    ensures SingleWriter(instances, writer) == "" || SingleWriter(instances, writer) == writer
            || exists o :: o in instances && o.role == Writer && o.name == SingleWriter(instances, writer)
  {
    if instances != [] {
      var rest := instances[1..];
      if instances[0].role != Writer { SingleWriterFound(rest, writer); }
      else if writer == "" { SingleWriterFound(rest, instances[0].name); assert instances[0] in instances; }
      assert forall o :: o in rest ==> o in instances;
    }
  }

  /** No disabled instance is proposed as a member, also by the writer fast path. */
  lemma NoDisabledProposal(r: Resource, mode: Mode, ready: map<string, int>, now: int, n: string)
    requires Propose(r, mode, ready, now).Some? && Propose(r, mode, ready, now).value.sensed.discovery.trusted
    requires var m := Propose(r, mode, ready, now).value.plan.membership; n in m.writer || n in m.reader
    ensures !Disabled(r.spec, n)
  {
    ProposedMembership(r, mode, ready, now);
    var input := InputOf(r, mode, now);
    if n in Plan(input).membership.writer || n in Plan(input).membership.reader { NoDisabledMember(input, n); }
  }

  // ---------------------------------------------------------------- members that are not discovered

  lemma CountedBelow(input: Input, s: Status, applied: seq<string>, n: string)
    requires Orderly(s) && s.missing == input.missing && n != "" && n !in Names(s.topology)
    ensures KeptMissing(input, applied, n) <==>
            n in applied && !Disabled(input.resource.spec, n)
            && TrackOf(s, n).Absent? && TrackOf(s, n).count < RemoveAfter(input.resource.spec)
  {
    LastMissingSpec(s.missing, n);
    forall m | m in s.missing && m.name == n ensures LastMissing(s.missing, n) == Some(m) {
      LastMissingUnique(s.missing, m);
    }
  }

  lemma UndiscoveredNotHealthy(input: Input, role: Role, n: string)
    requires n !in Names(input.discovered)
    ensures !HealthyMember(input, role, n)
  {
    NamesElements(input.discovered, n);
  }

  /** An applied reader that is no longer discovered is planned exactly while it is enabled and missing
      below the removal threshold. */
  lemma VanishedReader(input: Input, s: Status, n: string)
    requires input.trusted && Orderly(s) && s.missing == input.missing && s.topology == input.discovered
    requires n != "" && n !in Names(s.topology) && n in input.resource.status.lastApplied.reader
    ensures n in Plan(input).membership.reader <==>
            !Disabled(input.resource.spec, n) && TrackOf(s, n).Absent? && TrackOf(s, n).count < RemoveAfter(input.resource.spec)
  {
    ReaderProvenance(input, n);
    UndiscoveredNotHealthy(input, Reader, n);
    UndiscoveredNotHealthy(input, Writer, n);
    CountedBelow(input, s, input.resource.status.lastApplied.reader, n);
    if n in Plan(input).membership.writer {
      WriterOrigin(input, n);
      CountedBelow(input, s, input.resource.status.lastApplied.writer, n);
    }
  }

  /** Whoever was in neither list and is not discovered stays out of both. */
  lemma OutsiderStaysOut(input: Input, n: string)
    requires input.trusted && n !in Names(input.discovered)
    requires n !in input.resource.status.lastApplied.reader && n !in input.resource.status.lastApplied.writer
    ensures n !in Plan(input).membership.reader && n !in Plan(input).membership.writer
  {
    ReaderProvenance(input, n);
    UndiscoveredNotHealthy(input, Reader, n);
    UndiscoveredNotHealthy(input, Writer, n);
    if n in Plan(input).membership.writer { WriterOrigin(input, n); }
  }

  lemma HealthyWriterExcludesOthers(input: Input, w: string, n: string)
    requires input.trusted && HealthyMember(input, Writer, w) && n in Plan(input).membership.writer
    ensures HealthyMember(input, Writer, n)
  {
    WriterOf(input);
    DraftElements(input, w);
    DraftElements(input, n);
  }

  /** An applied writer that is no longer discovered is proposed exactly while it is enabled, missing below
      the threshold, no discovered writer is healthy, and the fast path has not moved on to the new one. */
  lemma VanishedWriter(r: Resource, mode: Mode, ready: map<string, int>, now: int, s: Status, n: string)
    requires Propose(r, mode, ready, now).Some? && SenseDiscovery(r, mode).Some?
    requires var input := InputOf(r, mode, now);
             input.trusted && Orderly(s) && s.missing == input.missing && s.topology == input.discovered
    requires n != "" && n !in Names(s.topology) && n in r.status.lastApplied.writer
    ensures var input := InputOf(r, mode, now);
            n in Propose(r, mode, ready, now).value.plan.membership.writer <==>
              && !Disabled(r.spec, n) && TrackOf(s, n).Absent? && TrackOf(s, n).count < RemoveAfter(r.spec)
              && (forall w :: !HealthyMember(input, Writer, w))
              && !TakesFastPath(r, SenseDiscovery(r, mode).value.discovery, ready, Plan(input))
  {
    ProposedMembership(r, mode, ready, now);
    var input := InputOf(r, mode, now);
    CountedBelow(input, s, r.status.lastApplied.writer, n);
    UndiscoveredNotHealthy(input, Writer, n);
    if TakesFastPath(r, SenseDiscovery(r, mode).value.discovery, ready, Plan(input)) {
      SingleWriterFound(input.discovered, "");
      NamesElements(input.discovered, n);
    } else if w :| HealthyMember(input, Writer, w) {
      if n in Plan(input).membership.writer { HealthyWriterExcludesOthers(input, w, n); }
    } else {
      NoHealthyWriter(input, n);
    }
  }

  ghost predicate Knows(s: Status, n: string) { n in Names(s.topology) }

  ghost predicate Serves(s: Status, n: string) { n in s.lastApplied.reader || n in s.lastApplied.writer }

  // ---------------------------------------------------------------- one serial step

  lemma RecordedElements(applied: Membership, planned: Membership, n: string)
    requires SoundMembership(applied) && SoundMembership(planned)
    ensures n in Settle(applied, planned).reader <==> n in planned.reader
    ensures n in Settle(applied, planned).writer <==> n in planned.writer
  {
    SameLengthDuplicates(applied.writer, planned.writer);
    SameLengthDuplicates(applied.reader, planned.reader);
    if Settle(applied, planned) == applied {
      assert n in applied.reader <==> n in Elements(applied.reader);
      assert n in applied.writer <==> n in Elements(applied.writer);
    }
  }

  /** The lists change only in a reconcile that is not frozen, and then to the proposed sets. */
  lemma AppliedAfter(r: Resource, step: Step, n: string)
    requires Sound(r.status) && ValidReadings(step) && (step.Edit? || InTime(r.status, step.now))
    ensures var after := Advance(r, step).status.lastApplied;
            if Sweeps(r, step) then
              var planned := Propose(r, step.mode, step.ready, step.now).value.plan.membership;
              (n in after.reader <==> n in planned.reader) && (n in after.writer <==> n in planned.writer)
            else after == r.status.lastApplied
  {
    if step.Reconcile? && Propose(r, step.mode, step.ready, step.now).Some? {
      var p := Propose(r, step.mode, step.ready, step.now).value;
      ReconcileTopology(r, p, Tidied(r, p, step.drift, step.now), step.now);
      ProposalSound(r, step.mode, step.ready, step.now);
      RecordedElements(r.status.lastApplied, p.plan.membership, n);
    }
  }

  lemma SweepSenses(r: Resource, step: Step, n: string)
    requires Sweeps(r, step) && Orderly(r.status) && n != ""
    ensures SenseDiscovery(r, step.mode).Some?
    ensures var input, sensed := InputOf(r, step.mode, step.now), SenseDiscovery(r, step.mode).value;
            var s := Sensing(r.status, sensed, input.missing);
            input.trusted && Orderly(s) && s.missing == input.missing && s.topology == input.discovered
  {
    var p := Propose(r, step.mode, step.ready, step.now).value;
    ProposedMembership(r, step.mode, step.ready, step.now);
    UnfrozenIsTrusted(r, step.mode, step.ready, step.now);
    SensingSpec(r, step.mode, p.missing, step.now, n);
  }

  lemma SweepTopology(r: Resource, step: Step)
    requires Sweeps(r, step) && InTime(r.status, step.now)
    ensures InputOf(r, step.mode, step.now).discovered == Advance(r, step).status.topology
  {
    var p := Propose(r, step.mode, step.ready, step.now).value;
    ProposedMembership(r, step.mode, step.ready, step.now);
    UnfrozenIsTrusted(r, step.mode, step.ready, step.now);
    ReconcileTopology(r, p, Tidied(r, p, step.drift, step.now), step.now);
  }

  lemma SweepTracks(r: Resource, step: Step, n: string)
    requires Sweeps(r, step) && InTime(r.status, step.now) && Orderly(r.status) && n != ""
    ensures SenseDiscovery(r, step.mode).Some?
    ensures var s := Sensing(r.status, SenseDiscovery(r, step.mode).value, InputOf(r, step.mode, step.now).missing);
            TrackOf(Advance(r, step).status, n) == Swept(TrackOf(s, n), r.spec, step.now)
  {
    ProposedMembership(r, step.mode, step.ready, step.now);
    SensingSpec(r, step.mode, Propose(r, step.mode, step.ready, step.now).value.missing, step.now, n);
    ReconcileTracks(r, step, n);
  }

  /** What a sweeping reconcile plans from, in terms of the status before and after it. */
  lemma SweepInput(r: Resource, step: Step, n: string)
    requires Sweeps(r, step) && InTime(r.status, step.now) && Orderly(r.status) && n != ""
    ensures SenseDiscovery(r, step.mode).Some?
    ensures var input, sensed := InputOf(r, step.mode, step.now), SenseDiscovery(r, step.mode).value;
            var s := Sensing(r.status, sensed, input.missing);
            && input.trusted && Orderly(s) && s.missing == input.missing
            && s.topology == input.discovered == Advance(r, step).status.topology
            && TrackOf(Advance(r, step).status, n) == Swept(TrackOf(s, n), r.spec, step.now)
  {
    SweepSenses(r, step, n);
    SweepTopology(r, step);
    SweepTracks(r, step, n);
  }

  lemma StepKeepsReader(r: Resource, step: Step, n: string)
    requires Sound(r.status) && Orderly(r.status) && ValidReadings(step) && (step.Edit? || InTime(r.status, step.now))
    requires n != "" && n in r.status.lastApplied.reader && !Disabled(r.spec, n)
    requires var t := TrackOf(Advance(r, step).status, n); t.Absent? && t.count < RemoveAfter(r.spec)
    ensures n in Advance(r, step).status.lastApplied.reader
  {
    AppliedAfter(r, step, n);
    if Sweeps(r, step) {
      SweepInput(r, step, n);
      var input := InputOf(r, step.mode, step.now);
      ProposedMembership(r, step.mode, step.ready, step.now);
      VanishedReader(input, Sensing(r.status, SenseDiscovery(r, step.mode).value, input.missing), n);
    }
  }

  /** A sweeping reconcile that finds the vanished reader at (or past) the threshold drops it from both
      lists. */
  lemma StepDropsReader(r: Resource, step: Step, n: string)
    requires Sound(r.status) && Orderly(r.status) && ValidReadings(step) && Sweeps(r, step) && InTime(r.status, step.now)
    requires n != "" && !Knows(Advance(r, step).status, n)
    requires var t := TrackOf(Advance(r, step).status, n); t.Absent? ==> t.count >= RemoveAfter(r.spec)
    ensures !Serves(Advance(r, step).status, n)
  {
    AppliedAfter(r, step, n);
    SweepInput(r, step, n);
    ProposedMembership(r, step.mode, step.ready, step.now);
    var input := InputOf(r, step.mode, step.now);
    var s := Sensing(r.status, SenseDiscovery(r, step.mode).value, input.missing);
    CountedBelow(input, s, r.status.lastApplied.reader, n);
    CountedBelow(input, s, r.status.lastApplied.writer, n);
    UndiscoveredNotHealthy(input, Reader, n);
    UndiscoveredNotHealthy(input, Writer, n);
    ReaderProvenance(input, n);
    if n in Plan(input).membership.writer { WriterOrigin(input, n); }
    SingleWriterFound(input.discovered, "");
    NamesElements(input.discovered, n);
  }

  lemma StepKeepsOut(r: Resource, step: Step, n: string)
    requires Sound(r.status) && Orderly(r.status) && ValidReadings(step) && (step.Edit? || InTime(r.status, step.now))
    requires n != "" && !Serves(r.status, n)
    requires !Knows(Advance(r, step).status, n)
    ensures !Serves(Advance(r, step).status, n)
  {
    AppliedAfter(r, step, n);
    if Sweeps(r, step) {
      SweepInput(r, step, n);
      ProposedMembership(r, step.mode, step.ready, step.now);
      var input := InputOf(r, step.mode, step.now);
      OutsiderStaysOut(input, n);
      SingleWriterFound(input.discovered, "");
      NamesElements(input.discovered, n);
    }
  }

  // ---------------------------------------------------------------- whole runs

  ghost predicate Linked(run: seq<Resource>, steps: seq<Step>, k: nat)
    requires k < |steps| < |run|
  {
    && run[k + 1] == Advance(run[k], steps[k]) && ValidReadings(steps[k])
    && Sound(run[k].status) && Orderly(run[k].status) && (steps[k].Edit? || InTime(run[k].status, steps[k].now))
  }

  ghost predicate AllLinked(run: seq<Resource>, steps: seq<Step>) {
    |run| == |steps| + 1 && forall k :: 0 <= k < |steps| ==> Linked(run, steps, k)
  }

  lemma SerialIsLinked(run: seq<Resource>, steps: seq<Step>)
    requires IsSerial(run, steps)
    ensures AllLinked(run, steps)
  {
    forall k | 0 <= k < |steps| ensures Linked(run, steps, k) {
      SerialStep(run, steps, k);
      RunOrderly(run, steps, k);
      if !steps[k].Edit? { NeverLate(run, steps, k, k); }
    }
  }

  /** In the step from state k the name is enabled, and afterwards it is counted below the threshold. */
  ghost predicate CountedBelowAt(run: seq<Resource>, k: nat, n: string)
    requires k + 1 < |run|
  {
    && !Disabled(run[k].spec, n)
    && TrackOf(run[k + 1].status, n).Absent? && TrackOf(run[k + 1].status, n).count < RemoveAfter(run[k].spec)
  }

  lemma {:induction false} LinkedKeeps(run: seq<Resource>, steps: seq<Step>, i: nat, j: nat, n: string)
    requires AllLinked(run, steps) && i <= j <= |steps| && n != ""
    requires n in run[i].status.lastApplied.reader && forall k :: i <= k < j ==> CountedBelowAt(run, k, n)
    ensures n in run[j].status.lastApplied.reader
    decreases j - i
  {
    if i < j {
      LinkedKeeps(run, steps, i, j - 1, n);
      assert Linked(run, steps, j - 1) && CountedBelowAt(run, j - 1, n);
      StepKeepsReader(run[j - 1], steps[j - 1], n);
    }
  }

  /** An applied reader that vanishes keeps its traffic through every discovery, monitor round, failed
      discovery, freeze, failover and reconcile, while its missing count is below the threshold. */
  lemma ReaderKeptBelowThreshold(run: seq<Resource>, steps: seq<Step>, i: nat, j: nat, n: string)
    requires IsSerial(run, steps) && i <= j <= |steps| && n != ""
    requires n in run[i].status.lastApplied.reader && forall k :: i <= k < j ==> CountedBelowAt(run, k, n)
    ensures n in run[j].status.lastApplied.reader
  {
    SerialIsLinked(run, steps);
    LinkedKeeps(run, steps, i, j, n);
  }

  ghost predicate Keeps(p: seq<bool>, k: nat)
    requires k + 1 < |p|
  {
    p[k] ==> p[k + 1]
  }

  ghost predicate EndsUnless(p: seq<bool>, q: seq<bool>, k: nat)
    requires k + 1 < |p| && k < |q|
  {
    p[k + 1] == (p[k] && q[k])
  }

  /** A fact that every step from i to j keeps holds at j. */
  lemma {:induction false} Persists(p: seq<bool>, i: nat, j: nat)
    requires i <= j < |p| && p[i] && forall k :: i <= k < j ==> Keeps(p, k)
    ensures p[j]
    decreases j - i
  {
    if i < j {
      Persists(p, i, j - 1);
      assert Keeps(p, j - 1);
    }
  }

  /** A fact that survives a step exactly when a condition holds has survived all steps exactly when it always held. */
  lemma {:induction false} SurvivesWhile(p: seq<bool>, q: seq<bool>, i: nat, j: nat)
    requires i <= j < |p| && j <= |q| && p[i] && forall k :: i <= k < j ==> EndsUnless(p, q, k)
    ensures p[j] <==> forall k :: i <= k < j ==> q[k]
    decreases j - i
  {
    if i < j {
      SurvivesWhile(p, q, i, j - 1);
      assert EndsUnless(p, q, j - 1);
    }
  }

  lemma LinkedOutStep(run: seq<Resource>, steps: seq<Step>, k: nat, n: string)
    requires k < |steps| < |run| && Linked(run, steps, k) && n != "" && !Serves(run[k].status, n) && !Knows(run[k + 1].status, n)
    ensures !Serves(run[k + 1].status, n)
  {
    StepKeepsOut(run[k], steps[k], n);
  }

  ghost function Outs(run: seq<Resource>, n: string): seq<bool> { seq(|run|, k requires 0 <= k < |run| => !Serves(run[k].status, n)) }

  lemma OutKeeps(run: seq<Resource>, steps: seq<Step>, k: nat, n: string)
    requires |run| == |steps| + 1 && k < |steps| && Linked(run, steps, k) && n != "" && !Knows(run[k + 1].status, n)
    ensures Keeps(Outs(run, n), k)
  {
    if !Serves(run[k].status, n) { LinkedOutStep(run, steps, k, n); }
  }

  ghost predicate Undiscovered(run: seq<Resource>, k: nat, n: string)
    requires k < |run|
  {
    !Knows(run[k].status, n)
  }

  lemma LinkedStaysOut(run: seq<Resource>, steps: seq<Step>, i: nat, j: nat, n: string)
    requires AllLinked(run, steps) && i <= j <= |steps| && n != ""
    requires !Serves(run[i].status, n)
    requires forall k :: i <= k <= j ==> Undiscovered(run, k, n)
    ensures !Serves(run[j].status, n)
  {
    forall k | i <= k < j ensures Keeps(Outs(run, n), k) {
      assert Linked(run, steps, k) && Undiscovered(run, k + 1, n);
      OutKeeps(run, steps, k, n);
    }
    Persists(Outs(run, n), i, j);
  }

  /** The reconcile from state i is not frozen and finds the name missing at the threshold, or untracked. */
  ghost predicate ThresholdReached(run: seq<Resource>, steps: seq<Step>, i: nat, n: string)
    requires i < |steps| && i + 1 < |run|
  {
    && Sweeps(run[i], steps[i])
    && (TrackOf(run[i + 1].status, n).Absent? ==> TrackOf(run[i + 1].status, n).count >= RemoveAfter(run[i].spec))
  }

  lemma LinkedDrops(run: seq<Resource>, steps: seq<Step>, i: nat, n: string)
    requires AllLinked(run, steps) && i < |steps| && n != ""
    requires ThresholdReached(run, steps, i, n) && !Knows(run[i + 1].status, n)
    ensures !Serves(run[i + 1].status, n)
  {
    assert Linked(run, steps, i);
    StepDropsReader(run[i], steps[i], n);
  }

  /** The first reconcile that is not frozen at the threshold ends it, and it gets no traffic again before
      it is discovered again. */
  lemma ReaderGoneAtThreshold(run: seq<Resource>, steps: seq<Step>, i: nat, j: nat, n: string)
    requires IsSerial(run, steps) && i < j <= |steps| && n != "" && ThresholdReached(run, steps, i, n)
    requires forall k :: i < k <= j ==> Undiscovered(run, k, n)
    ensures !Serves(run[j].status, n)
  {
    SerialIsLinked(run, steps);
    assert Undiscovered(run, i + 1, n);
    LinkedDrops(run, steps, i, n);
    LinkedStaysOut(run, steps, i + 1, j, n);
  }

  // ---------------------------------------------------------------- a vanished writer

  /** The step is a reconcile, not frozen, that has another writer to go to: a healthy discovered one, or the discovered
      one by the fast path. */
  ghost predicate HasSuccessor(r: Resource, step: Step) {
    && Sweeps(r, step) && SenseDiscovery(r, step.mode).Some?
    && var input := InputOf(r, step.mode, step.now);
       || (exists w :: HealthyMember(input, Writer, w))
       || TakesFastPath(r, SenseDiscovery(r, step.mode).value.discovery, step.ready, Plan(input))
  }

  lemma StepKeepsWriterIff(r: Resource, step: Step, n: string)
    requires Sound(r.status) && Orderly(r.status) && ValidReadings(step) && (step.Edit? || InTime(r.status, step.now))
    requires n != "" && n in r.status.lastApplied.writer && !Disabled(r.spec, n)
    requires var t := TrackOf(Advance(r, step).status, n); t.Absent? && t.count < RemoveAfter(r.spec)
    ensures n in Advance(r, step).status.lastApplied.writer <==> !HasSuccessor(r, step)
  {
    AppliedAfter(r, step, n);
    if Sweeps(r, step) {
      SweepInput(r, step, n);
      var input := InputOf(r, step.mode, step.now);
      VanishedWriter(r, step.mode, step.ready, step.now, Sensing(r.status, SenseDiscovery(r, step.mode).value, input.missing), n);
    }
  }

  /** Whoever is not the applied writer and not discovered does not become it. */
  lemma StepKeepsWriterOut(r: Resource, step: Step, n: string)
    requires Sound(r.status) && Orderly(r.status) && ValidReadings(step) && (step.Edit? || InTime(r.status, step.now))
    requires n != "" && n !in r.status.lastApplied.writer && !Knows(Advance(r, step).status, n)
    ensures n !in Advance(r, step).status.lastApplied.writer
  {
    AppliedAfter(r, step, n);
    if Sweeps(r, step) {
      SweepInput(r, step, n);
      ProposedMembership(r, step.mode, step.ready, step.now);
      var input := InputOf(r, step.mode, step.now);
      UndiscoveredNotHealthy(input, Writer, n);
      if n in Plan(input).membership.writer { WriterOrigin(input, n); }
      SingleWriterFound(input.discovered, "");
      NamesElements(input.discovered, n);
    }
  }

  ghost predicate HasSuccessorAt(run: seq<Resource>, steps: seq<Step>, k: nat)
    requires k < |steps| < |run|
  {
    HasSuccessor(run[k], steps[k])
  }

  ghost predicate NoSuccessor(run: seq<Resource>, steps: seq<Step>, i: nat, j: nat)
    requires i <= j <= |steps| < |run|
  {
    forall k :: i <= k < j ==> !HasSuccessorAt(run, steps, k)
  }

  lemma LinkedWriterStep(run: seq<Resource>, steps: seq<Step>, k: nat, n: string)
    requires k < |steps| < |run| && Linked(run, steps, k) && CountedBelowAt(run, k, n) && n != ""
    ensures n in run[k + 1].status.lastApplied.writer <==> n in run[k].status.lastApplied.writer && !HasSuccessorAt(run, steps, k)
  {
    if n in run[k].status.lastApplied.writer {
      StepKeepsWriterIff(run[k], steps[k], n);
    } else {
      StepKeepsWriterOut(run[k], steps[k], n);
    }
  }

  ghost function Writes(run: seq<Resource>, n: string): seq<bool> { seq(|run|, k requires 0 <= k < |run| => n in run[k].status.lastApplied.writer) }

  ghost function Alone(run: seq<Resource>, steps: seq<Step>): seq<bool>
    requires |steps| < |run|
  {
    seq(|steps|, k requires 0 <= k < |steps| => !HasSuccessorAt(run, steps, k))
  }

  lemma WriterEndsUnless(run: seq<Resource>, steps: seq<Step>, k: nat, n: string)
    requires |run| == |steps| + 1 && k < |steps| && Linked(run, steps, k) && CountedBelowAt(run, k, n) && n != ""
    ensures EndsUnless(Writes(run, n), Alone(run, steps), k)
  {
    LinkedWriterStep(run, steps, k, n);
  }

  lemma AloneIsNoSuccessor(run: seq<Resource>, steps: seq<Step>, i: nat, j: nat)
    requires |run| == |steps| + 1 && i <= j <= |steps|
    ensures (forall k :: i <= k < j ==> Alone(run, steps)[k]) <==> NoSuccessor(run, steps, i, j)
  {
    assert forall k :: i <= k < j ==> Alone(run, steps)[k] == !HasSuccessorAt(run, steps, k);
  }

  lemma LinkedKeepsWriter(run: seq<Resource>, steps: seq<Step>, i: nat, j: nat, n: string)
    requires AllLinked(run, steps) && i <= j <= |steps| && n != ""
    requires n in run[i].status.lastApplied.writer && forall k :: i <= k < j ==> CountedBelowAt(run, k, n)
    ensures n in run[j].status.lastApplied.writer <==> NoSuccessor(run, steps, i, j)
  {
    forall k | i <= k < j ensures EndsUnless(Writes(run, n), Alone(run, steps), k) {
      assert Linked(run, steps, k) && CountedBelowAt(run, k, n);
      WriterEndsUnless(run, steps, k, n);
    }
    SurvivesWhile(Writes(run, n), Alone(run, steps), i, j);
    AloneIsNoSuccessor(run, steps, i, j);
  }

  /** Below the threshold a vanished applied writer stays the writer through every step of a serial run if and only if no
      reconcile on the way had another writer to go to. */
  lemma WriterKeptWithoutSuccessor(run: seq<Resource>, steps: seq<Step>, i: nat, j: nat, n: string)
    requires IsSerial(run, steps) && i <= j <= |steps| && n != ""
    requires n in run[i].status.lastApplied.writer && forall k :: i <= k < j ==> CountedBelowAt(run, k, n)
    ensures n in run[j].status.lastApplied.writer <==> NoSuccessor(run, steps, i, j)
  {
    SerialIsLinked(run, steps);
    LinkedKeepsWriter(run, steps, i, j, n);
  }
}
