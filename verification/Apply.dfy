/** Applying a plan to the cluster, detecting that a cluster has drifted from a plan, and why the two
    agree. */
module Apply {
  import opened Text
  import opened Domain
  import opened Planner
  import opened Commits
  import opened Objects
  import opened Relabel

  datatype World = World(
    pods: Pods, configMaps: map<string, ConfigMap>, deployments: map<string, Deployment>, services: map<string, Service>)

  // ---------------------------------------------------------------- create-or-update of a list of objects

  /** applyObject: create, or update keeping what `copy` keeps of the stored object. */
  function Put<T>(m: map<string, T>, name: string, desired: T, copy: (T, T) -> T, create: T -> T): map<string, T> {
    m[name := if name in m then copy(m[name], desired) else create(desired)]
  }

  function PutAll<T>(m: map<string, T>, names: seq<string>, desired: seq<T>, copy: (T, T) -> T, create: T -> T): map<string, T>
    requires |names| == |desired|
  {
    if names == [] then m
    else
      var k := |names| - 1;
      Put(PutAll(m, names[..k], desired[..k], copy, create), names[k], desired[k], copy, create)
  }

  lemma {:induction false} PutAllOther<T>(m: map<string, T>, names: seq<string>, desired: seq<T>, copy: (T, T) -> T, create: T -> T, n: string)
    requires |names| == |desired| && n !in names
    ensures var r := PutAll(m, names, desired, copy, create);
            (n in r <==> n in m) && (n in m ==> r[n] == m[n])
  {
    if names != [] { PutAllOther(m, names[..|names| - 1], desired[..|names| - 1], copy, create, n); }
  }

  lemma {:induction false} PutAllAt<T>(m: map<string, T>, names: seq<string>, desired: seq<T>, copy: (T, T) -> T, create: T -> T, k: nat)
    requires |names| == |desired| && NoDup(names) && k < |names|
    ensures var r := PutAll(m, names, desired, copy, create);
            names[k] in r && r[names[k]] == if names[k] in m then copy(m[names[k]], desired[k]) else create(desired[k])
  {
    var last := |names| - 1;
    if k == last {
      PutAllOther(m, names[..last], desired[..last], copy, create, names[k]);
    } else {
      PutAllAt(m, names[..last], desired[..last], copy, create, k);
    }
  }

  /** Copying twice is copying once, also onto a freshly created object. */
  ghost predicate Settles<T(!new)>(copy: (T, T) -> T, create: T -> T, desired: seq<T>) {
    && (forall d, s :: d in desired ==> copy(copy(s, d), d) == copy(s, d))
    && (forall d :: d in desired ==> copy(create(d), d) == create(d))
  }

  /** Applying again after being cut off anywhere ends where an undisturbed apply ends. */
  lemma PutAllResumes<T(!new)>(m: map<string, T>, names: seq<string>, desired: seq<T>, copy: (T, T) -> T, create: T -> T, j: nat)
    requires |names| == |desired| && NoDup(names) && j <= |names| && Settles(copy, create, desired)
    ensures PutAll(PutAll(m, names[..j], desired[..j], copy, create), names, desired, copy, create) ==
            PutAll(m, names, desired, copy, create)
  {
    var cut := PutAll(m, names[..j], desired[..j], copy, create);
    var a, b := PutAll(cut, names, desired, copy, create), PutAll(m, names, desired, copy, create);
    forall n ensures (n in a <==> n in b) && (n in a && n in b ==> a[n] == b[n]) {
      if n in names {
        var k :| 0 <= k < |names| && names[k] == n;
        PutAllAt(cut, names, desired, copy, create, k);
        PutAllAt(m, names, desired, copy, create, k);
        assert desired[k] in desired;
        if k < j {
          PutAllAt(m, names[..j], desired[..j], copy, create, k);
        } else {
          assert n !in names[..j];
          PutAllOther(m, names[..j], desired[..j], copy, create, n);
        }
      } else {
        PutAllOther(cut, names, desired, copy, create, n);
        PutAllOther(m, names, desired, copy, create, n);
        PutAllOther(m, names[..j], desired[..j], copy, create, n);
      }
    }
    assert a.Keys == b.Keys;
  }

  // ---------------------------------------------------------------- what a plan wants

  function Active(plans: seq<InstancePlan>): seq<InstancePlan> {
    if plans == [] then []
    else
      var rest, last := Active(plans[..|plans| - 1]), plans[|plans| - 1];
      if last.disabled then rest else rest + [last]
  }

  function RolesOf(plans: seq<InstancePlan>): map<string, Role> {
    if plans == [] then map[]
    else
      var rest, last := RolesOf(plans[..|plans| - 1]), plans[|plans| - 1];
      if last.obs.name == "" then rest else rest[last.obs.name := last.obs.role]
  }

  function TargetsOf(plan: Output): Targets {
    Targets((set n | n in plan.membership.writer), (set n | n in plan.membership.reader), RolesOf(Active(plan.instances)))
  }

  function ObjectNames(env: Renderer, r: Resource, plan: Output): seq<string> {
    Map((p: InstancePlan) => InstanceName(env, r, p.obs.name), Active(plan.instances))
  }

  function RoleNames(env: Renderer, r: Resource): seq<string> {
    [RoleServiceName(env, r, Writer), RoleServiceName(env, r, Reader)]
  }

  function WantedConfigMaps(env: Renderer, r: Resource, plan: Output): seq<ConfigMap> {
    Map((p: InstancePlan) => RenderConfigMap(env, r, p.obs), Active(plan.instances))
  }

  function WantedDeployments(env: Renderer, r: Resource, plan: Output): seq<Deployment> {
    Map((p: InstancePlan) => RenderDeployment(env, r, p), Active(plan.instances))
  }

  function InstanceServices(env: Renderer, r: Resource, plan: Output): seq<Service> {
    Map((p: InstancePlan) => RenderInstanceService(env, r, p.obs.name), Active(plan.instances))
  }

  function WantedServices(env: Renderer, r: Resource, plan: Output): seq<Service> {
    InstanceServices(env, r, plan) + [RenderRoleService(env, r, Writer), RenderRoleService(env, r, Reader)]
  }

  function ServiceNames(env: Renderer, r: Resource, plan: Output): seq<string> {
    ObjectNames(env, r, plan) + RoleNames(env, r)
  }

  /** The object names of disabled instances and of the removed instances in `removed`. */
  function Gone(env: Renderer, r: Resource, plan: Output, removed: set<string>): set<string> {
    (set p | p in plan.instances && p.disabled :: InstanceName(env, r, p.obs.name)) +
    (set n | n in removed :: InstanceName(env, r, n))
  }

  /** A role Service of this cluster under a name that no role uses any more. */
  predicate StaleRole(env: Renderer, r: Resource, name: string, s: Service) {
    && Managed(s.labels, env.clusterLabel(r.name)) && Label(s.labels, InstanceKey) == ""
    && (Label(s.labels, ServiceRoleKey) != "" || Label(s.selector, WriterKey) == "true" || Label(s.selector, ReaderKey) == "true")
    && name !in RoleNames(env, r)
  }

  function StaleRoles(env: Renderer, r: Resource, services: map<string, Service>): set<string> {
    set n | n in services && StaleRole(env, r, n, services[n])
  }

  function Same<T>(x: T): T { x }

  // ---------------------------------------------------------------- writer restarts

  function EffectivePolicy(r: Resource): WriterChange {
    if r.spec.writerChange.UnsetChange? then RestartWriters else r.spec.writerChange
  }

  /** The instances a writer change restarts. */
  function RestartTargets(r: Resource, plan: Output): set<string> {
    var applied, policy := r.status.lastApplied.writer, EffectivePolicy(r);
    if !MembershipChanged(applied, plan.membership.writer) || applied == [] then {}
    else if policy.RestartWriters? then (set n | n in applied) + (set n | n in plan.membership.writer)
    else if policy.RestartAll? then (set p | p in plan.instances && !p.disabled :: p.obs.name) + (set n | n in applied)
    else {}
  }

  function TokenFor(env: Renderer, r: Resource, plan: Output): string {
    env.token(EffectivePolicy(r), SortNames(r.status.lastApplied.writer), SortNames(plan.membership.writer),
              RestartTargets(r, plan), Shapes(plan.instances))
  }

  /** restartInstanceDeployments: a deployment that already carries the token is left alone. */
  function Restarted(deployments: map<string, Deployment>, names: set<string>, token: string): map<string, Deployment> {
    map n | n in deployments :: if n in names && Token(deployments[n]) != token then SetToken(deployments[n], token) else deployments[n]
  }

  function RestartNames(env: Renderer, r: Resource, plan: Output): set<string> {
    set n | n in RestartTargets(r, plan) :: InstanceName(env, r, n)
  }

  // ---------------------------------------------------------------- the whole apply

  function PutConfigMaps(w: World, env: Renderer, r: Resource, plan: Output): map<string, ConfigMap> {
    PutAll(w.configMaps, ObjectNames(env, r, plan), WantedConfigMaps(env, r, plan), CopyConfigMap, Same)
  }

  function ApplyConfigMaps(w: World, env: Renderer, r: Resource, plan: Output, removed: set<string>): map<string, ConfigMap> {
    PutConfigMaps(w, env, r, plan) - Gone(env, r, plan, removed)
  }

  function PutServices(w: World, env: Renderer, r: Resource, plan: Output): map<string, Service> {
    PutAll(w.services, ServiceNames(env, r, plan), WantedServices(env, r, plan), CopyService, Same)
  }

  function ApplyServices(w: World, env: Renderer, r: Resource, plan: Output, removed: set<string>): map<string, Service> {
    PutServices(w, env, r, plan) - StaleRoles(env, r, PutServices(w, env, r, plan)) - Gone(env, r, plan, removed)
  }

  function PutDeployments(w: World, env: Renderer, r: Resource, plan: Output): map<string, Deployment> {
    PutAll(w.deployments, ObjectNames(env, r, plan), WantedDeployments(env, r, plan), CopyDeployment, Accept)
  }

  function ApplyDeployments(w: World, env: Renderer, r: Resource, plan: Output, removed: set<string>): map<string, Deployment> {
    Restarted(PutDeployments(w, env, r, plan) - Gone(env, r, plan, removed), RestartNames(env, r, plan), TokenFor(env, r, plan))
  }

  /** applyDesired, the clean-ups, the relabelling and the restarts of one apply. */
  function ApplyPlan(w: World, env: Renderer, r: Resource, plan: Output, removed: set<string>): World {
    World(Relabelled(w.pods, env.clusterLabel(r.name), TargetsOf(plan)),
          ApplyConfigMaps(w, env, r, plan, removed), ApplyDeployments(w, env, r, plan, removed), ApplyServices(w, env, r, plan, removed))
  }

  /** Rendered names are pairwise distinct and nothing wanted is about to be deleted. */
  ghost predicate DistinctNames(env: Renderer, r: Resource, plan: Output, removed: set<string>) {
    && NoDup(ServiceNames(env, r, plan))
    && (forall n :: n in ServiceNames(env, r, plan) ==> n !in Gone(env, r, plan, removed))
    && (forall p :: p in Active(plan.instances) ==> p.obs.name != "")
  }

  // ---------------------------------------------------------------- an apply that stopped half way

  /** The config maps of an apply that stopped while writing or while deleting. */
  ghost predicate CutConfigMaps(m: map<string, ConfigMap>, w: World, env: Renderer, r: Resource, plan: Output, removed: set<string>) {
    var names, wanted := ObjectNames(env, r, plan), WantedConfigMaps(env, r, plan);
    || (exists j :: 0 <= j <= |names| && m == PutAll(w.configMaps, names[..j], wanted[..j], CopyConfigMap, Same))
    || (exists deleted :: deleted <= Gone(env, r, plan, removed) && m == PutConfigMaps(w, env, r, plan) - deleted)
  }

  ghost predicate CutServices(m: map<string, Service>, w: World, env: Renderer, r: Resource, plan: Output, removed: set<string>) {
    var names, wanted, put := ServiceNames(env, r, plan), WantedServices(env, r, plan), PutServices(w, env, r, plan);
    || (exists j :: 0 <= j <= |names| && m == PutAll(w.services, names[..j], wanted[..j], CopyService, Same))
    || (exists deleted :: deleted <= StaleRoles(env, r, put) + Gone(env, r, plan, removed) && m == put - deleted)
  }

  /** The deployments may also have been cut off between two restarts. */
  ghost predicate CutDeployments(m: map<string, Deployment>, w: World, env: Renderer, r: Resource, plan: Output, removed: set<string>) {
    var names, wanted, put := ObjectNames(env, r, plan), WantedDeployments(env, r, plan), PutDeployments(w, env, r, plan);
    || (exists j :: 0 <= j <= |names| && m == PutAll(w.deployments, names[..j], wanted[..j], CopyDeployment, Accept))
    || (exists deleted :: deleted <= Gone(env, r, plan, removed) && m == put - deleted)
    || (exists some :: some <= RestartNames(env, r, plan) && m == Restarted(put - Gone(env, r, plan, removed), some, TokenFor(env, r, plan)))
  }

  ghost predicate CutPods(pods: Pods, before: Pods, cluster: string, t: Targets) {
    exists first, second :: pods == Stage(before, t, first, second) && first <= ManagedPods(before, cluster) && second <= ManagedPods(before, cluster)
  }

  /** What an apply of the plan to `w` can leave behind when some call to the API fails. */
  ghost predicate CutWorld(cut: World, w: World, env: Renderer, r: Resource, plan: Output, removed: set<string>) {
    && CutConfigMaps(cut.configMaps, w, env, r, plan, removed) && CutDeployments(cut.deployments, w, env, r, plan, removed)
    && CutServices(cut.services, w, env, r, plan, removed) && CutPods(cut.pods, w.pods, env.clusterLabel(r.name), TargetsOf(plan))
  }

  // ---------------------------------------------------------------- the drift detector

  predicate SamePort(a: Port, b: Port) {
    a.name == b.name && a.protocol == b.protocol && a.port == b.port && a.target == b.target && a.appProtocol == b.appProtocol
  }

  predicate SamePorts(a: seq<Port>, b: seq<Port>) {
    |a| == |b| && forall i :: 0 <= i < |a| ==> SamePort(a[i], b[i])
  }

  /** serviceSpecDrifted; node ports are the server's business. */
  predicate ServiceDrifted(stored: Service, wanted: Service) {
    stored.kind != wanted.kind || stored.selector != wanted.selector || !SamePorts(stored.ports, wanted.ports)
    || stored.annotations != wanted.annotations
  }

  predicate DbiDrifted(stored: Labels, wanted: Labels) {
    var a, b := Trim(Label(stored, DbiKey)), Trim(Label(wanted, DbiKey));
    b != "" && a != b
  }

  predicate DeploymentDrifted(stored: Deployment, wanted: Deployment) {
    DbiDrifted(stored.labels, wanted.labels) || stored.replicas != wanted.replicas || stored.strategy != wanted.strategy
    || Normal(stored.template) != Normal(wanted.template)
  }

  predicate ConfigMapDrifted(stored: ConfigMap, wanted: ConfigMap) {
    stored.data != wanted.data || stored.binaryData != wanted.binaryData
  }

  /** An expected object is missing from the labelled list, or drifted. */
  predicate ConfigMapQuiet(configMaps: map<string, ConfigMap>, env: Renderer, r: Resource, p: InstancePlan) {
    var n := InstanceName(env, r, p.obs.name);
    && n in configMaps && Managed(configMaps[n].labels, env.clusterLabel(r.name))
    && !ConfigMapDrifted(configMaps[n], RenderConfigMap(env, r, p.obs))
  }

  predicate DeploymentQuiet(deployments: map<string, Deployment>, env: Renderer, r: Resource, p: InstancePlan) {
    var n := InstanceName(env, r, p.obs.name);
    && n in deployments && Managed(deployments[n].labels, env.clusterLabel(r.name))
    && !DeploymentDrifted(deployments[n], RenderDeployment(env, r, p))
  }

  predicate ServiceQuiet(services: map<string, Service>, env: Renderer, r: Resource, n: string, wanted: Service) {
    n in services && Managed(services[n].labels, env.clusterLabel(r.name)) && !ServiceDrifted(services[n], wanted)
  }

  predicate PodsQuiet(pods: Pods, cluster: string, t: Targets) {
    forall p :: p in pods && Managed(pods[p].labels, cluster) && Label(pods[p].labels, InstanceKey) != "" ==> LabelsExact(pods[p].labels, t)
  }

  predicate ServicesQuiet(services: map<string, Service>, env: Renderer, r: Resource, plan: Output) {
    && (forall p :: p in Active(plan.instances) ==> ServiceQuiet(services, env, r, InstanceName(env, r, p.obs.name), RenderInstanceService(env, r, p.obs.name)))
    && ServiceQuiet(services, env, r, RoleServiceName(env, r, Writer), RenderRoleService(env, r, Writer))
    && ServiceQuiet(services, env, r, RoleServiceName(env, r, Reader), RenderRoleService(env, r, Reader))
    && (forall n :: n in services && n !in ObjectNames(env, r, plan) ==> !StaleRole(env, r, n, services[n]))
  }

  predicate ConfigMapsQuiet(configMaps: map<string, ConfigMap>, env: Renderer, r: Resource, plan: Output) {
    forall p :: p in Active(plan.instances) ==> ConfigMapQuiet(configMaps, env, r, p)
  }

  predicate DeploymentsQuiet(deployments: map<string, Deployment>, env: Renderer, r: Resource, plan: Output) {
    forall p :: p in Active(plan.instances) ==> DeploymentQuiet(deployments, env, r, p)
  }

  /** cachedPlanNeedsApply. */
  predicate NeedsApply(w: World, env: Renderer, r: Resource, plan: Output) {
    !(&& ConfigMapsQuiet(w.configMaps, env, r, plan) && DeploymentsQuiet(w.deployments, env, r, plan)
      && ServicesQuiet(w.services, env, r, plan) && PodsQuiet(w.pods, env.clusterLabel(r.name), TargetsOf(plan)))
  }
}
