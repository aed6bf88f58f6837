/** The settings a user makes, and what they do to traffic, health, deletion and placement: the main results once more,
    over the fields of the spec and their documented defaults instead of the functions that read them. */
module Settings {
  import opened Text
  import opened Affinity
  import opened Domain
  import opened Planner
  import opened PlannerLaws
  import opened Hysteresis
  import opened Commits
  import opened Interleavings
  import opened SerialRuns
  import opened DiscoveryLatch
  import opened Objects
  import opened Apply
  import opened Reconciler
  import opened ReconcileLaws
  import opened PhysicalIdentity

  /** A numeric setting means itself when it is positive and the default otherwise. */
  predicate Means(setting: int, default: int, value: int) { value == if setting > 0 then setting else default }

  /** Some override switches the instance off. */
  ghost predicate SwitchedOff(spec: Spec, name: string) {
    exists i :: 0 <= i < |spec.overrides| && spec.overrides[i].name == name && spec.overrides[i].enabled == Some(false)
  }

  lemma DisabledIff(spec: Spec, name: string)
    ensures Disabled(spec, name) <==> SwitchedOff(spec, name)
  {
    if Disabled(spec, name) {
      var o :| o in spec.overrides && o.name == name && o.enabled == Some(false);
      var i :| 0 <= i < |spec.overrides| && spec.overrides[i] == o;
    }
  }

  // ---------------------------------------------------------------- reader fallback

  /** Without a reader of its own the reader Service borrows the writers, unless the fallback is switched off or every
      discovered reader is switched off. */
  lemma ReaderFallback(input: Input)
    requires input.trusted && forall n :: !HealthyMember(input, Reader, n) && !KeptReader(input, n)
    ensures var spec, m := input.resource.spec, Plan(input).membership;
            var suppressed := (exists o :: o in input.discovered && o.role == Reader) &&
                              forall o :: o in input.discovered && o.role == Reader ==> SwitchedOff(spec, o.name);
            && (spec.readerFallback != Some(false) && !suppressed ==> forall n :: n in m.reader <==> n in m.writer)
            && (spec.readerFallback == Some(false) || suppressed ==> m.reader == [])
  {
    forall n ensures n in Plan(input).membership.reader <==> BorrowsWriter(input) && n in Plan(input).membership.writer { ReaderProvenance(input, n); }
    forall o: Observation ensures Disabled(input.resource.spec, o.name) <==> SwitchedOff(input.resource.spec, o.name) { DisabledIff(input.resource.spec, o.name); }
    EmptyIff(Plan(input).membership.reader);
  }

  /** A switched-off instance serves nobody. */
  lemma SwitchedOffServesNobody(input: Input, n: string)
    requires input.trusted && SwitchedOff(input.resource.spec, n)
    ensures n !in Plan(input).membership.writer && n !in Plan(input).membership.reader
  {
    DisabledIff(input.resource.spec, n);
    if n in Plan(input).membership.writer || n in Plan(input).membership.reader { NoDisabledMember(input, n); }
  }

  /** On a first check an instance is a member if and only if the check found it healthy and it is not switched off. */
  lemma FirstCheckServes(input: Input, i: nat)
    requires input.trusted && !input.cached && TrustedShape(input.discovered) && MissingApart(input) && i < |input.discovered|
    requires input.resource.status.instances == []
    ensures var o, m := input.discovered[i], Plan(input).membership;
            (o.name in if o.role == Writer then m.writer else m.reader) <==>
            o.name in input.health && input.health[o.name].healthy && !SwitchedOff(input.resource.spec, o.name)
  {
    HealthyIsMember(input, i);
    DisabledIff(input.resource.spec, input.discovered[i].name);
  }

  // ---------------------------------------------------------------- missing instances

  /** A missing reader that was applied keeps its traffic while it is missing fewer times than the setting, 3 by default,
      and is not switched off. */
  lemma KeptBelowSetting(input: Input, n: string, limit: int)
    requires input.trusted && Means(input.resource.spec.removeAfterMissingCount, 3, limit)
    requires n != "" && n in input.resource.status.lastApplied.reader && (forall o :: o in input.discovered ==> o.name != n)
    requires n !in Plan(input).membership.writer
    ensures n in Plan(input).membership.reader <==>
            !SwitchedOff(input.resource.spec, n) && exists m :: m in input.missing && m.name == n && m.count < limit
  {
    ReaderProvenance(input, n);
    DisabledIff(input.resource.spec, n);
  }

  /** The resources of a missing instance are deleted if and only if it is missing at least as often as one setting says,
      3 by default, and for at least as long as the other, an hour by default. */
  lemma DeletedBySettings(w: World, env: Renderer, r: Resource, mode: Mode, now: int, m: Missing, limit: int, retention: int)
    requires Means(r.spec.removeAfterMissingCount, 3, limit) && Means(r.spec.removedInstanceRetention, 3600, retention)
    requires Decide(w, env, r, mode, now).Some? && !Decide(w, env, r, mode, now).value.proposal.plan.frozen
    requires var p := Decide(w, env, r, mode, now).value.proposal;
             m in p.missing && m.name !in DiscoveredNames(p.sensed.discovery.instances) && OwnName(env, r, p, m)
    requires m.name != "" && m.first.Some? && InstanceName(env, r, m.name) in w.deployments && InstanceName(env, r, m.name) in w.configMaps
    ensures InstanceName(env, r, m.name) !in Decide(w, env, r, mode, now).value.world.deployments <==>
            m.count >= limit && now >= m.first.value + retention
  {
    DeletedExactlyWhenExpired(w, env, r, mode, now, m);
  }

  // ---------------------------------------------------------------- discovery failures

  /** Discovery is trusted if and only if there was a good answer, and since then no error and fewer failures than the
      setting, 3 by default. */
  lemma FrozenAtSetting(run: seq<Resource>, steps: seq<Step>, limit: int, n: nat)
    requires IsSerial(run, steps) && n <= |steps| && forall k :: 0 <= k < |run| ==> Means(run[k].spec.discoveryFailureThreshold, 3, limit)
    ensures var l := LedgerOf(steps[..n]);
            run[n].status.discoveryTrusted.Trusted? <==> l.good.Some? && !l.errored && l.failures < limit
  {
    StatusAgrees(run, steps, limit, n);
  }

  // ---------------------------------------------------------------- health thresholds

  /** Health turns when a run of equal results reaches its setting: 3 failures or 2 successes by default. */
  lemma TurnsAtSettings(spec: Spec, start: Option<bool>, h: seq<bool>, failures: int, successes: int)
    requires Means(spec.failureThreshold, 3, failures) && Means(spec.recoveryThreshold, 2, successes)
    requires h != [] && (start.Some? || |h| > 1)
    ensures !Verdict(spec, start, h[..|h| - 1]) ==> (Verdict(spec, start, h) <==> TrailingRun(h, true) == successes)
    ensures Verdict(spec, start, h[..|h| - 1]) ==> (!Verdict(spec, start, h) <==> TrailingRun(h, false) == failures)
  {
    TurnsAtThreshold(spec, start, h);
  }

  // ---------------------------------------------------------------- replicas

  /** The first override of that name that sets a number. */
  ghost predicate FirstSetting(spec: Spec, name: string, i: nat) {
    && i < |spec.overrides| && spec.overrides[i].name == name && spec.overrides[i].replicas > 0
    && forall j :: 0 <= j < i ==> spec.overrides[j].name != name || spec.overrides[j].replicas <= 0
  }

  lemma {:induction false} OverrideFirst(overrides: seq<Override>, name: string, fallback: int, i: nat)
    requires i < |overrides| && overrides[i].name == name && overrides[i].replicas > 0
    requires forall j :: 0 <= j < i ==> overrides[j].name != name || overrides[j].replicas <= 0
    ensures OverrideReplicas(overrides, name, fallback) == overrides[i].replicas
  {
    if i > 0 { OverrideFirst(overrides[1..], name, fallback, i - 1); }
  }

  lemma {:induction false} OverrideNone(overrides: seq<Override>, name: string, fallback: int)
    requires forall j :: 0 <= j < |overrides| ==> overrides[j].name != name || overrides[j].replicas <= 0
    ensures OverrideReplicas(overrides, name, fallback) == fallback
  {
    if overrides != [] { OverrideNone(overrides[1..], name, fallback); }
  }

  /** An enabled instance gets the replicas of its first override that sets any, else those set for all, else one. */
  lemma ReplicasOf(input: Input, o: Observation)
    requires !SwitchedOff(input.resource.spec, o.name)
    ensures var spec, p := input.resource.spec, Assess(input, o);
            && (forall i: nat :: FirstSetting(spec, o.name, i) ==> p.replicas == spec.overrides[i].replicas)
            && ((forall j :: 0 <= j < |spec.overrides| ==> spec.overrides[j].name != o.name || spec.overrides[j].replicas <= 0) ==>
                  p.replicas == if spec.replicas.Some? && spec.replicas.value > 0 then spec.replicas.value else 1)
  {
    var spec := input.resource.spec;
    DisabledIff(spec, o.name);
    var fallback := if spec.replicas.Some? && spec.replicas.value > 0 then spec.replicas.value else 1;
    forall i: nat | FirstSetting(spec, o.name, i) { OverrideFirst(spec.overrides, o.name, fallback, i); }
    if forall j :: 0 <= j < |spec.overrides| ==> spec.overrides[j].name != o.name || spec.overrides[j].replicas <= 0 {
      OverrideNone(spec.overrides, o.name, fallback);
    }
  }

  // ---------------------------------------------------------------- zone placement

  /** With zone awareness required (and not switched off) a pod goes to the instance's zone, under the key set or the
      well-known one; preferred, it gets one preference of weight 100 for it; otherwise its affinity is the user's. */
  lemma PlacedBySettings(affinity: Option<NodeAffinity>, spec: ZoneAware, zone: string, n: Node)
    ensures var key := if spec.topologyKey != "" then spec.topologyKey else "topology.kubernetes.io/zone";
            var placed := ApplyZoneAffinity(affinity, spec, zone);
            && (spec.enabled == Some(false) || zone == "" ==> placed == affinity)
            && (spec.enabled != Some(false) && zone != "" && spec.required ==>
                  (Admits(placed, n) <==> key in n.labels && n.labels[key] == zone && (Admits(affinity, n) || Degenerate(affinity))))
            && (spec.enabled != Some(false) && zone != "" && !spec.required ==>
                  && (Admits(placed, n) <==> Admits(affinity, n)) && placed.Some?
                  && placed.value.preferred == (if affinity.Some? then affinity.value.preferred else []) + [Preference(100, Term([Requirement(key, In, [zone])], []))])
  {
    Placement(affinity, spec, zone, n);
  }
}
