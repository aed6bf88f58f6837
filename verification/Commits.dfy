/** The jobs of the control loop as functions from what they read to what they commit: the scheduler's
    discovery and monitor jobs, and the status side of a reconcile.  Every commit is one atomic
    read-modify-write of the freshest status, using a plan made from an earlier snapshot. */
module Commits {
  import opened Text
  import opened Domain
  import opened Planner
  import Affinity

  // ---------------------------------------------------------------- sensing

  /** What Discovery.Discover came back with. */
  datatype Attempt = Errored | Answered(d: Discovery)

  datatype Sensed = Sensed(discovery: Discovery, ran: bool, failed: bool)

  function CachedDiscovery(s: Status): Discovery {
    if !s.discoveryTrusted.Trusted? || s.topology == [] then UNTRUSTED else Discovery(true, s.topology)
  }

  function AfterFailure(r: Resource, failed: Discovery): Discovery {
    if r.status.discoveryFailures + 1 >= DiscoveryThreshold(r.spec) || !r.status.discoveryTrusted.Trusted? || r.status.topology == []
    then failed
    else Discovery(true, r.status.topology)
  }

  /** The scheduler's discovery job; an error is never bridged by the cache. */
  function JobDiscovery(r: Resource, attempt: Attempt): Sensed {
    match attempt
    case Errored => Sensed(UNTRUSTED, true, true)
    case Answered(d) => if d.trusted then Sensed(d, true, false) else Sensed(AfterFailure(r, d), true, true)
  }

  /** Scheduled: a reconcile works from the status alone.  Inline: without a scheduler it may run
      discovery (unless not due) and the monitor (unless not due; None inside means it failed). */
  datatype Mode = Scheduled | Inline(attempt: Option<Attempt>, probe: Option<Option<map<string, Health>>>)

  /** None when discovery errored and the reconcile gives up. */
  function SenseDiscovery(r: Resource, mode: Mode): Option<Sensed> {
    match mode
    case Scheduled => Some(Sensed(CachedDiscovery(r.status), false, false))
    case Inline(None, _) =>
      Some(Sensed(if r.status.discoveryTrusted.Trusted? then Discovery(true, r.status.topology) else UNTRUSTED, false, false))
    case Inline(Some(Errored), _) => None
    case Inline(Some(Answered(d)), _) =>
      Some(if d.trusted then Sensed(d, true, false) else Sensed(AfterFailure(r, d), true, true))
  }

  datatype Probed = Probed(health: map<string, Health>, ran: bool, cached: bool)

  function SenseHealth(mode: Mode, d: Discovery): Probed {
    if mode.Scheduled? then Probed(map[], false, true)
    else if !d.trusted then Probed(map[], false, false)
    else if mode.probe.Some? && mode.probe.value.Some? then Probed(mode.probe.value.value, true, false)
    else Probed(map[], false, true)
  }

  // ---------------------------------------------------------------- missing instances

  function Distinct(s: seq<string>): seq<string> {
    if s == [] then []
    else
      var rest, last := Distinct(s[..|s| - 1]), s[|s| - 1];
      if last in rest then rest else rest + [last]
  }

  function DiscoveredNames(instances: seq<Observation>): set<string> {
    set o | o in instances && o.name != "" :: o.name
  }

  function Tracked(s: Status): seq<string> {
    Map(MissingName, s.missing) + Names(s.topology)
  }

  /** Tracked or previously known names that are not discovered now, in ascending order. */
  function AbsentNames(s: Status, instances: seq<Observation>): seq<string> {
    var tracked, current := Tracked(s), DiscoveredNames(instances);
    SortNames(Distinct(Keep(tracked, set n | n in tracked && n != "" && n !in current)))
  }

  function LastMissing(missing: seq<Missing>, name: string): Option<Missing> {
    if missing == [] then None
    else if missing[|missing| - 1].name == name then Some(missing[|missing| - 1])
    else LastMissing(missing[..|missing| - 1], name)
  }

  function Bump(previous: Option<Missing>, name: string, now: int): Missing {
    match previous
    case None => Missing(name, 1, Some(now), Some(now))
    case Some(m) => Missing(name, m.count + 1, if m.first.None? then Some(now) else m.first, Some(now))
  }

  function BumpAll(missing: seq<Missing>, names: seq<string>, now: int): seq<Missing> {
    Map(n => Bump(LastMissing(missing, n), n, now), names)
  }

  /** missingInstancesFor, for a discovery that ran. */
  function MissingFor(s: Status, d: Discovery, now: int): seq<Missing> {
    if !d.trusted then s.missing else BumpAll(s.missing, AbsentNames(s, d.instances), now)
  }

  predicate ReadyForDelete(spec: Spec, m: Missing, now: int) {
    && m.name != "" && m.count >= RemoveAfter(spec) && m.first.Some?
    && now - m.first.value >= Retention(spec)
  }

  /** cleanupRemovedInstanceResources: what is still tracked after the expired ones are deleted. */
  function Remaining(spec: Spec, d: Discovery, missing: seq<Missing>, now: int): seq<Missing> {
    if !d.trusted || missing == [] then missing
    else
      var rest, last := Remaining(spec, d, missing[..|missing| - 1], now), missing[|missing| - 1];
      if last.name in DiscoveredNames(d.instances) || !ReadyForDelete(spec, last, now) then rest + [last] else rest
  }

  // ---------------------------------------------------------------- adjusting a plan

  predicate MembershipChanged(a: seq<string>, b: seq<string>) {
    |a| != |b| || exists v :: v in b && v !in a
  }

  /** singleDiscoveredWriter. */
  function SingleWriter(instances: seq<Observation>, writer: string := ""): string {
    if instances == [] then writer
    else if instances[0].role != Writer then SingleWriter(instances[1..], writer)
    else if writer != "" then ""
    else SingleWriter(instances[1..], instances[0].name)
  }

  function ReadyCount(ready: map<string, int>, name: string): int {
    if name in ready then ready[name] else 0
  }

  predicate TakesFastPath(r: Resource, d: Discovery, ready: map<string, int>, plan: Output) {
    var writer := SingleWriter(d.instances);
    && !plan.frozen && d.trusted && writer != ""
    && MembershipChanged(r.status.lastApplied.writer, [writer]) && r.status.lastApplied.writer != []
    && !Disabled(r.spec, writer)
    && MembershipChanged(plan.membership.writer, [writer])
    && ReadyCount(ready, writer) != 0
  }

  /** applyWriterFailoverFastPath. */
  function FastPath(r: Resource, d: Discovery, ready: map<string, int>, plan: Output): Output {
    if !TakesFastPath(r, d, ready, plan) then plan
    else
      var writer := SingleWriter(d.instances);
      var count := ReadyCount(ready, writer);
      plan.(membership := plan.membership.(writer := [writer]),
            instances := Map((p: InstancePlan) => if p.obs.name == writer && p.ready < count then p.(ready := count) else p,
                             plan.instances),
            notes := plan.notes + [WriterFastPath])
  }

  /** zoneAwareConflictCondition: a zone that the node selector or the required affinity rules out, or
      pinning to one zone while spreading over zones. */
  predicate ZoneConflicts(spec: Spec, plans: seq<InstancePlan>) {
    var key := Affinity.TopologyKey(spec.zoneAware);
    && Affinity.EnabledDefaultTrue(spec.zoneAware.enabled) && !spec.zoneAware.policy.Ignore?
    && (|| (exists p :: p in plans && !p.disabled && p.obs.zone != "" &&
              ((key in spec.nodeSelector && spec.nodeSelector[key] != p.obs.zone) || Affinity.Conflicts(spec.affinity, key, p.obs.zone)))
        || (spec.zoneAware.required && key in spec.spreadKeys))
  }

  /** applyZoneAwareConflictPolicy. */
  function ZonePolicy(spec: Spec, plan: Output): Output {
    if plan.frozen || !spec.zoneAware.policy.Fail? || !ZoneConflicts(spec, plan.instances) then plan
    else plan.(frozen := true, notes := plan.notes + [ZoneConflict])
  }

  // ---------------------------------------------------------------- deciding whether to apply

  /** The fields of an instance that its rendered objects depend on. */
  function Shape(p: InstancePlan): (Observation, bool, int) { (p.obs, p.disabled, p.replicas) }

  function Shapes(plans: seq<InstancePlan>): seq<(Observation, bool, int)> {
    Map(Shape, Sort(PlanName, plans))
  }

  predicate DesiredStateChanged(s: Status, plan: Output) {
    || MembershipChanged(s.lastApplied.writer, plan.membership.writer)
    || MembershipChanged(s.lastApplied.reader, plan.membership.reader)
    || Shapes(s.instances) != Shapes(plan.instances)
  }

  /** shouldApplyPlan; `drift` is the verdict of the drift detector. */
  predicate ShouldApply(r: Resource, plan: Output, missing: seq<Missing>, sensed: bool, drift: bool, now: int) {
    && !plan.frozen
    && (|| r.generation != r.status.observedGeneration || r.status.lastAppliedTime.None?
        || (sensed && DesiredStateChanged(r.status, plan))
        || (exists m :: m in missing && ReadyForDelete(r.spec, m, now))
        || drift)
  }

  // ---------------------------------------------------------------- a reconcile, up to its commit

  /** What a reconcile senses and plans from its snapshot. */
  datatype Proposal = Proposal(sensed: Sensed, monitorRan: bool, plan: Output, missing: seq<Missing>)

  function PlanInput(r: Resource, sensed: Sensed, probed: Probed, missing: seq<Missing>): Input {
    Input(r, sensed.discovery.trusted, sensed.discovery.instances, probed.health, probed.cached, missing)
  }

  function Propose(r: Resource, mode: Mode, ready: map<string, int>, now: int): Option<Proposal> {
    match SenseDiscovery(r, mode)
    case None => None
    case Some(sensed) =>
      var probed := SenseHealth(mode, sensed.discovery);
      var missing := if sensed.ran then MissingFor(r.status, sensed.discovery, now) else r.status.missing;
      var plan := Plan(PlanInput(r, sensed, probed, missing));
      Some(Proposal(sensed, probed.ran, ZonePolicy(r.spec, FastPath(r, sensed.discovery, ready, plan)), missing))
  }

  /** The missing list a reconcile commits: cleaned up when the plan was applied. */
  function Tidied(r: Resource, p: Proposal, drift: bool, now: int): seq<Missing> {
    if ShouldApply(r, p.plan, p.missing, p.sensed.ran || p.monitorRan, drift, now)
    then Remaining(r.spec, p.sensed.discovery, p.missing, now)
    else p.missing
  }

  // ---------------------------------------------------------------- the three commits

  predicate After(t: Option<int>, now: int) { t.Some? && t.value > now }

  function Report(d: Discovery): Trust { if d.trusted then Trusted else Untrusted }

  /** updateDiscoveryStatus. */
  function CommitDiscovery(stored: Status, sensed: Sensed, missing: seq<Missing>, now: int): Status {
    if After(stored.lastDiscoveryTime, now) then stored
    else
      var s := stored.(lastDiscoveryTime := Some(now),
                      discoveryFailures := if sensed.failed then stored.discoveryFailures + 1 else 0,
                      discoveryTrusted := Report(sensed.discovery));
      if sensed.discovery.trusted
      then s.(topology := sensed.discovery.instances, missing := missing, topologyHash := HashOf(sensed.discovery.instances))
      else s
  }

  /** updateMonitorStatus: dropped when newer, or when the topology moved on since the snapshot. */
  predicate MonitorCommits(stored: Status, d: Discovery, now: int) {
    && !After(stored.lastMonitorTime, now)
    && (stored.topologyHash.NoHash? || stored.topologyHash == HashOf(d.instances))
  }

  function CommitMonitor(stored: Status, d: Discovery, plan: Output, now: int): Status {
    if !MonitorCommits(stored, d, now) then stored
    else stored.(lastMonitorTime := Some(now), instances := plan.instances, discoveryTrusted := Report(d))
  }

  /** updateStatus: `r` is the snapshot the reconcile worked from. */
  function CommitReconcile(stored: Status, r: Resource, p: Proposal, missing: seq<Missing>, now: int): Status {
    var d := p.sensed.discovery;
    var discoveryRan := p.sensed.ran && !After(stored.lastDiscoveryTime, now);
    var monitorRan := p.monitorRan && !After(stored.lastMonitorTime, now);
    var s1 := stored.(observedGeneration := r.generation, discoveryTrusted := Report(d));
    var s2 := if !discoveryRan then s1
              else s1.(lastDiscoveryTime := Some(now),
                       discoveryFailures := if p.sensed.failed then r.status.discoveryFailures + 1 else 0);
    var s3 := if !monitorRan then s2 else s2.(lastMonitorTime := Some(now));
    var s4 := if d.trusted && discoveryRan
              then s3.(topology := d.instances, missing := missing, topologyHash := HashOf(d.instances))
              else if d.trusted && !p.sensed.ran then s3.(missing := missing)
              else s3;
    var s5 := if !p.plan.frozen && (monitorRan || stored.instances == []) then s4.(instances := p.plan.instances) else s4;
    if p.plan.frozen then s5
    else
      var changed := MembershipChanged(stored.lastApplied.writer, p.plan.membership.writer)
                  || MembershipChanged(stored.lastApplied.reader, p.plan.membership.reader);
      var s6 := if changed || stored.lastAppliedTime.None? then s5.(lastAppliedTime := Some(now)) else s5;
      if changed then s6.(lastApplied := p.plan.membership) else s6
  }

  /** The plan of the scheduler's monitor job; None means the check failed and health stays cached. */
  function MonitorPlan(r: Resource, check: Option<map<string, Health>>): Output {
    var d := CachedDiscovery(r.status);
    Plan(Input(r, d.trusted, d.instances, if check.Some? then check.value else map[], check.None?, r.status.missing))
  }
}
