/** The life of a vanished instance over serial runs: tracked from the first discovery that misses it,
    counted once per trusted discovery, kept in the membership below the removal threshold, deleted
    once count and retention are both reached, and forgotten until it is discovered again. */
module MissingLifecycle {
  import opened Text
  import opened Domain
  import opened Commits
  import opened Interleavings
  import opened SerialRuns

  // ---------------------------------------------------------------- one name as an automaton

  datatype Track = Unknown | Present | Absent(count: int, since: int)

  function TrackOf(s: Status, n: string): Track {
    if n in Names(s.topology) then Present
    else match LastMissing(s.missing, n)
      case Some(m) => Absent(m.count, if m.first.Some? then m.first.value else 0)
      case None => Unknown
  }

  /** A trusted discovery at time `now` that does or does not name the instance. */
  function Observed(t: Track, named: bool, now: int): Track {
    if named then Present
    else match t
      case Unknown => Unknown
      case Present => Absent(1, now)
      case Absent(count, since) => Absent(count + 1, since)
  }

  predicate Expired(t: Track, spec: Spec, now: int) {
    t.Absent? && t.count >= RemoveAfter(spec) && now - t.since >= Retention(spec)
  }

  /** A reconcile that is not frozen forgets (and deletes) what has expired. */
  function Swept(t: Track, spec: Spec, now: int): Track {
    if Expired(t, spec, now) then Unknown else t
  }

  predicate Sweeps(r: Resource, step: Step) {
    step.Reconcile? && Propose(r, step.mode, step.ready, step.now).Some?
    && !Propose(r, step.mode, step.ready, step.now).value.plan.frozen
  }

  function TrackStep(t: Track, r: Resource, step: Step, n: string): Track {
    var seen := if FindsTopology(r, step) then Observed(t, n in Names(Finding(r, step).value.instances), step.now) else t;
    if Sweeps(r, step) then Swept(seen, r.spec, step.now) else seen
  }

  // ---------------------------------------------------------------- the invariant of serial runs

  ghost predicate Orderly(s: Status) {
    && NoDup(Map(MissingName, s.missing))
    && (forall m :: m in s.missing ==> m.name != "" && m.name !in Names(s.topology) && m.first.Some? && m.count >= 1)
  }

  lemma {:induction false} LastMissingSpec(missing: seq<Missing>, n: string)
    ensures match LastMissing(missing, n)
            case None => forall m :: m in missing ==> m.name != n
            case Some(m) => m in missing && m.name == n
  {
    if missing != [] { LastMissingSpec(missing[..|missing| - 1], n); }
  }

  lemma {:induction false} LastMissingUnique(missing: seq<Missing>, m: Missing)
    requires m in missing && NoDup(Map(MissingName, missing))
    ensures LastMissing(missing, m.name) == Some(m)
  {
    LastKeyFresh(MissingName, missing);
    var init, last := missing[..|missing| - 1], missing[|missing| - 1];
    assert forall x :: x in init ==> MissingName(x) != MissingName(last);
    if m != last {
      assert m in init;
      LastMissingUnique(init, m);
    }
  }

  /** A list is determined by what it says about each name. */
  lemma TrackedBy(missing: seq<Missing>, n: string, m: Option<Missing>)
    requires NoDup(Map(MissingName, missing))
    requires m.Some? ==> m.value in missing && m.value.name == n
    requires m.None? ==> forall x :: x in missing ==> x.name != n
    ensures LastMissing(missing, n) == m
  {
    if m.Some? { LastMissingUnique(missing, m.value); } else { LastMissingSpec(missing, n); }
  }

  lemma NamesElements(topology: seq<Observation>, n: string)
    ensures n in Names(topology) <==> exists o :: o in topology && o.name == n
  {
    if n in Names(topology) {
      var i :| 0 <= i < |topology| && Names(topology)[i] == n;
      assert topology[i] in topology;
    }
    if o :| o in topology && o.name == n {
      var i :| 0 <= i < |topology| && topology[i] == o;
      assert Names(topology)[i] == n;
    }
  }

  lemma DiscoveredNamesElements(instances: seq<Observation>, n: string)
    requires n != ""
    ensures n in DiscoveredNames(instances) <==> n in Names(instances)
  {
    NamesElements(instances, n);
  }

  lemma TrackedElements(s: Status, n: string)
    ensures n in Tracked(s) <==> n in Names(s.topology) || exists m :: m in s.missing && m.name == n
  {
    var names := Map(MissingName, s.missing);
    if n in names {
      var i :| 0 <= i < |names| && names[i] == n;
      assert s.missing[i] in s.missing;
    }
    if m :| m in s.missing && m.name == n {
      var i :| 0 <= i < |names| && s.missing[i] == m;
      assert names[i] == n;
    }
  }

  /** The bumped list holds exactly the absent tracked names, each with its count raised by one. */
  lemma BumpedSpec(s: Status, d: Discovery, now: int, n: string)
    requires d.trusted && NoDup(Map(MissingName, s.missing)) && n != ""
    ensures LastMissing(MissingFor(s, d, now), n) ==
            if n in Names(d.instances) || TrackOf(s, n).Unknown? then None
            else Some(Bump(LastMissing(s.missing, n), n, now))
  {
    var names, bumped := AbsentNames(s, d.instances), MissingFor(s, d, now);
    AbsentSpec(s, d.instances);
    MissingForNoDup(s, d, now);
    DiscoveredNamesElements(d.instances, n);
    TrackedElements(s, n);
    LastMissingSpec(s.missing, n);
    if n in names {
      var i :| 0 <= i < |names| && names[i] == n;
      assert bumped[i] == Bump(LastMissing(s.missing, n), n, now);
      TrackedBy(bumped, n, Some(bumped[i]));
    } else {
      forall m | m in bumped ensures m.name != n {
        var i :| 0 <= i < |bumped| && bumped[i] == m;
        assert bumped[i].name == names[i];
      }
      TrackedBy(bumped, n, None);
    }
  }

  lemma BumpedOrderly(s: Status, d: Discovery, now: int)
    requires d.trusted && Orderly(s)
    ensures Orderly(s.(topology := d.instances, missing := MissingFor(s, d, now)))
  {
    var names, bumped := AbsentNames(s, d.instances), MissingFor(s, d, now);
    AbsentSpec(s, d.instances);
    MissingForNoDup(s, d, now);
    forall m | m in bumped ensures m.name != "" && m.name !in Names(d.instances) && m.first.Some? && m.count >= 1 {
      var i :| 0 <= i < |bumped| && bumped[i] == m;
      assert m.name == names[i] && names[i] in names;
      DiscoveredNamesElements(d.instances, m.name);
      LastMissingSpec(s.missing, m.name);
    }
  }

  /** Tracking a trusted discovery is the automaton's observation. */
  lemma ObservedStep(s: Status, d: Discovery, now: int, n: string)
    requires d.trusted && Orderly(s) && n != ""
    ensures TrackOf(s.(topology := d.instances, missing := MissingFor(s, d, now)), n) ==
            Observed(TrackOf(s, n), n in Names(d.instances), now)
  {
    BumpedSpec(s, d, now, n);
    LastMissingSpec(s.missing, n);
  }

  // ---------------------------------------------------------------- sweeping

  lemma {:induction false} RemainingAll(spec: Spec, d: Discovery, missing: seq<Missing>, now: int)
    requires forall m :: m in missing ==> !ReadyForDelete(spec, m, now)
    ensures Remaining(spec, d, missing, now) == missing
  {
    if d.trusted && missing != [] { RemainingAll(spec, d, missing[..|missing| - 1], now); }
  }

  /** A reconcile that is not frozen deletes every expired instance, whether or not anything else
      called for an apply. */
  lemma TidiedIsRemaining(r: Resource, p: Proposal, drift: bool, now: int)
    requires !p.plan.frozen
    ensures Tidied(r, p, drift, now) == Remaining(r.spec, p.sensed.discovery, p.missing, now)
  {
    if !ShouldApply(r, p.plan, p.missing, p.sensed.ran || p.monitorRan, drift, now) {
      RemainingAll(r.spec, p.sensed.discovery, p.missing, now);
    }
  }

  lemma UnfrozenIsTrusted(r: Resource, mode: Mode, ready: map<string, int>, now: int)
    requires Propose(r, mode, ready, now).Some? && !Propose(r, mode, ready, now).value.plan.frozen
    ensures Propose(r, mode, ready, now).value.sensed.discovery.trusted
  {
  }

  lemma RemainingOrderly(spec: Spec, d: Discovery, s: Status, now: int)
    requires Orderly(s)
    ensures Orderly(s.(missing := Remaining(spec, d, s.missing, now)))
  {
    RemainingSpec(spec, d, s.missing, now);
  }

  lemma SweptStep(spec: Spec, d: Discovery, s: Status, now: int, n: string)
    requires Orderly(s) && d.trusted && d.instances == s.topology && n != ""
    ensures TrackOf(s.(missing := Remaining(spec, d, s.missing, now)), n) == Swept(TrackOf(s, n), spec, now)
  {
    var rest := Remaining(spec, d, s.missing, now);
    RemainingSpec(spec, d, s.missing, now);
    LastMissingSpec(s.missing, n);
    DiscoveredNamesElements(d.instances, n);
    var before := LastMissing(s.missing, n);
    if before.Some? {
      assert before.value.name != "" && before.value.first.Some? && before.value.name !in DiscoveredNames(d.instances);
      if ReadyForDelete(spec, before.value, now) {
        forall m | m in rest ensures m.name != n {
          if m.name == n { LastMissingUnique(s.missing, m); }
        }
        TrackedBy(rest, n, None);
      } else {
        TrackedBy(rest, n, before);
      }
    } else {
      TrackedBy(rest, n, None);
    }
  }

  // ---------------------------------------------------------------- a whole step

  /** The status as a reconcile sees it once its own discovery is taken into account. */
  function Sensing(s: Status, sensed: Sensed, missing: seq<Missing>): Status {
    if sensed.ran && sensed.discovery.trusted then s.(topology := sensed.discovery.instances, missing := missing) else s
  }

  lemma ProposeParts(r: Resource, mode: Mode, ready: map<string, int>, now: int)
    requires Propose(r, mode, ready, now).Some?
    ensures SenseDiscovery(r, mode).Some?
    ensures var p, sensed := Propose(r, mode, ready, now).value, SenseDiscovery(r, mode).value;
            p.sensed == sensed && p.missing == if sensed.ran then MissingFor(r.status, sensed.discovery, now) else r.status.missing
  {
  }

  lemma SensingSpec(r: Resource, mode: Mode, missing: seq<Missing>, now: int, n: string)
    requires SenseDiscovery(r, mode).Some? && Orderly(r.status) && n != ""
    requires var sensed := SenseDiscovery(r, mode).value;
             missing == if sensed.ran then MissingFor(r.status, sensed.discovery, now) else r.status.missing
    ensures var sensed := SenseDiscovery(r, mode).value;
            var s := Sensing(r.status, sensed, missing);
            && Orderly(s) && s.missing == missing
            && (sensed.discovery.trusted ==> sensed.discovery.instances == s.topology)
            && TrackOf(s, n) == (if sensed.ran && sensed.discovery.trusted
                                 then Observed(TrackOf(r.status, n), n in Names(sensed.discovery.instances), now)
                                 else TrackOf(r.status, n))
  {
    var sensed := SenseDiscovery(r, mode).value;
    if sensed.ran && sensed.discovery.trusted {
      BumpedOrderly(r.status, sensed.discovery, now);
      ObservedStep(r.status, sensed.discovery, now, n);
    }
  }

  lemma SameTrack(a: Status, b: Status, n: string)
    requires a.topology == b.topology && a.missing == b.missing
    ensures TrackOf(a, n) == TrackOf(b, n) && (Orderly(a) <==> Orderly(b))
  {
  }

  lemma ReconcileTracks(r: Resource, step: Step, n: string)
    requires step.Reconcile? && InTime(r.status, step.now) && Orderly(r.status) && n != ""
    ensures Orderly(Advance(r, step).status)
    ensures TrackOf(Advance(r, step).status, n) == TrackStep(TrackOf(r.status, n), r, step, n)
  {
    if Propose(r, step.mode, step.ready, step.now).Some? {
      var p := Propose(r, step.mode, step.ready, step.now).value;
      ProposeParts(r, step.mode, step.ready, step.now);
      var s, d := Sensing(r.status, p.sensed, p.missing), p.sensed.discovery;
      SensingSpec(r, step.mode, p.missing, step.now, n);
      ReconcileTopology(r, p, Tidied(r, p, step.drift, step.now), step.now);
      if p.plan.frozen {
        SameTrack(Advance(r, step).status, s, n);
      } else {
        UnfrozenIsTrusted(r, step.mode, step.ready, step.now);
        TidiedIsRemaining(r, p, step.drift, step.now);
        RemainingOrderly(r.spec, d, s, step.now);
        SweptStep(r.spec, d, s, step.now, n);
        SameTrack(Advance(r, step).status, s.(missing := Remaining(r.spec, d, s.missing, step.now)), n);
      }
    }
  }

  lemma StepTracks(r: Resource, step: Step, n: string)
    requires (step.Edit? || InTime(r.status, step.now)) && Orderly(r.status) && n != ""
    ensures Orderly(Advance(r, step).status)
    ensures TrackOf(Advance(r, step).status, n) == TrackStep(TrackOf(r.status, n), r, step, n)
  {
    match step
    case Edit(_) =>
    case Monitor(_, _, _) => SameTrack(Advance(r, step).status, r.status, n);
    case Reconcile(_, _, _, _, _) => ReconcileTracks(r, step, n);
    case Discover(_, attempt, now) =>
      var d := JobDiscovery(r, attempt).discovery;
      if d.trusted {
        BumpedOrderly(r.status, d, now);
        ObservedStep(r.status, d, now, n);
        SameTrack(Advance(r, step).status, r.status.(topology := d.instances, missing := MissingFor(r.status, d, now)), n);
      } else {
        SameTrack(Advance(r, step).status, r.status, n);
      }
  }

  // ---------------------------------------------------------------- whole runs

  lemma {:induction false} RunOrderly(run: seq<Resource>, steps: seq<Step>, i: nat)
    requires IsSerial(run, steps) && i <= |steps|
    ensures Orderly(run[i].status)
    decreases i
  {
    if i == 0 {
      assert run[0].status == EMPTY_STATUS;
    } else {
      RunOrderly(run, steps, i - 1);
      SerialStep(run, steps, i - 1);
      if !steps[i - 1].Edit? { NeverLate(run, steps, i - 1, i - 1); }
      StepTracks(run[i - 1], steps[i - 1], "x");
    }
  }

  /** In every serial run the stored lists implement the automaton, for every name at every step. */
  lemma LifecycleOf(run: seq<Resource>, steps: seq<Step>, i: nat, n: string)
    requires IsSerial(run, steps) && i < |steps| && n != ""
    ensures TrackOf(run[i + 1].status, n) == TrackStep(TrackOf(run[i].status, n), run[i], steps[i], n)
    ensures forall m :: m in run[i].status.missing ==> m.name !in Names(run[i].status.topology)
  {
    RunOrderly(run, steps, i);
    SerialStep(run, steps, i);
    if !steps[i].Edit? { NeverLate(run, steps, i, i); }
    StepTracks(run[i], steps[i], n);
  }

  /** How many of the steps i..j committed a trusted (or bridged) discovery. */
  ghost function TrustedCommits(run: seq<Resource>, steps: seq<Step>, i: nat, j: nat): nat
    requires i <= j <= |steps| < |run|
    decreases j - i
  {
    if i == j then 0
    else TrustedCommits(run, steps, i, j - 1) + if FindsTopology(run[j - 1], steps[j - 1]) then 1 else 0
  }

  /** Step j is where the instance vanished: known before, not found by that step's discovery, and not
      known in any state since. */
  ghost predicate VanishedAt(run: seq<Resource>, steps: seq<Step>, j: nat, i: nat, n: string)
    requires j < i <= |steps| < |run|
  {
    && FindsTopology(run[j], steps[j])
    && n in Names(run[j].status.topology)
    && forall k :: j < k <= i ==> n !in Names(run[k].status.topology)
  }

  lemma PresentIsKnown(s: Status, n: string)
    ensures TrackOf(s, n).Present? <==> n in Names(s.topology)
  {
  }

  lemma AbsentComesFrom(t: Track, r: Resource, step: Step, n: string)
    requires TrackStep(t, r, step, n).Absent?
    ensures TrackStep(t, r, step, n) ==
            if t.Absent? then Absent(t.count + (if FindsTopology(r, step) then 1 else 0), t.since) else Absent(1, step.now)
    ensures !t.Absent? ==> t.Present? && FindsTopology(r, step)
  {
  }

  /** The states track the name the way the automaton does, starting from nothing. */
  ghost predicate Follows(run: seq<Resource>, steps: seq<Step>, n: string) {
    && |run| == |steps| + 1
    && !TrackOf(run[0].status, n).Absent?
    && forall k :: 0 <= k < |steps| ==> TrackOf(run[k + 1].status, n) == TrackStep(TrackOf(run[k].status, n), run[k], steps[k], n)
  }

  lemma {:induction false} CountOfTracks(run: seq<Resource>, steps: seq<Step>, i: nat, n: string) returns (j: nat)
    requires Follows(run, steps, n) && i <= |steps| && TrackOf(run[i].status, n).Absent?
    ensures j < i && VanishedAt(run, steps, j, i, n)
    ensures TrackOf(run[i].status, n) == Absent(TrustedCommits(run, steps, j, i), steps[j].now)
    decreases i
  {
    assert TrackOf(run[i - 1 + 1].status, n) == TrackStep(TrackOf(run[i - 1].status, n), run[i - 1], steps[i - 1], n);
    AbsentComesFrom(TrackOf(run[i - 1].status, n), run[i - 1], steps[i - 1], n);
    PresentIsKnown(run[i].status, n);
    PresentIsKnown(run[i - 1].status, n);
    if TrackOf(run[i - 1].status, n).Absent? {
      j := CountOfTracks(run, steps, i - 1, n);
    } else {
      j := i - 1;
      assert TrustedCommits(run, steps, j, j) == 0;
    }
  }

  /** A missing count is the number of trusted discoveries since the instance was last known, and its
      first-missing time is the moment it vanished: that time never moves. */
  lemma CountIsCommitsSinceVanished(run: seq<Resource>, steps: seq<Step>, i: nat, n: string) returns (j: nat)
    requires IsSerial(run, steps) && i <= |steps| && n != "" && TrackOf(run[i].status, n).Absent?
    ensures j < i && VanishedAt(run, steps, j, i, n)
    ensures TrackOf(run[i].status, n) == Absent(TrustedCommits(run, steps, j, i), steps[j].now)
  {
    assert run[0].status == EMPTY_STATUS;
    forall k | 0 <= k < |steps|
      ensures TrackOf(run[k + 1].status, n) == TrackStep(TrackOf(run[k].status, n), run[k], steps[k], n)
    {
      LifecycleOf(run, steps, k, n);
    }
    j := CountOfTracks(run, steps, i, n);
  }
}
