/** The Kubernetes objects of one resource: how they are rendered, what an update keeps of the stored
    object, and which differences count as drift. */
module Objects {
  import opened Text
  import opened Domain
  import Relabel

  // ---------------------------------------------------------------- object types

  /** The pod spec, split into the fields the drift check normalises and the rest. */
  datatype Volume = Volume(defaultMode: Option<int>, rest: string)
  datatype Probe = Probe(successThreshold: int, failureThreshold: int, rest: string)
  datatype ContainerPort = ContainerPort(protocol: string, rest: string)
  datatype Container = Container(
    messagePath: string, messagePolicy: string, securityContext: Option<string>,
    readiness: Option<Probe>, liveness: Option<Probe>, startup: Option<Probe>,
    ports: seq<ContainerPort>, rest: string)
  datatype PodSpec = PodSpec(
    dnsPolicy: string, schedulerName: string, serviceAccount: string, oldServiceAccount: string,
    grace: Option<int>, securityContext: Option<string>, serviceLinks: Option<bool>,
    volumes: seq<Volume>, containers: seq<Container>, initContainers: seq<Container>, rest: string)
  datatype Template = Template(labels: Labels, annotations: Labels, spec: PodSpec)

  datatype ConfigMap = ConfigMap(labels: Labels, annotations: Labels, data: map<string, string>, binaryData: map<string, string>)

  datatype Port = Port(name: string, protocol: string, port: int, target: int, appProtocol: Option<string>, nodePort: int)
  datatype Allocated = Allocated(
    clusterIP: string, clusterIPs: seq<string>, families: seq<string>, familyPolicy: Option<string>,
    loadBalancerClass: Option<string>, healthCheckNodePort: int)
  datatype Service = Service(
    labels: Labels, annotations: Labels, kind: string, selector: Labels, ports: seq<Port>,
    trafficPolicy: string, given: Allocated)

  datatype Deployment = Deployment(
    labels: Labels, annotations: Labels, replicas: int, strategy: string, template: Template)

  // ---------------------------------------------------------------- rendering

  /** The parts of rendering that are opaque here: object names, the PgBouncer configuration text, the pod
      spec, the listen port, hashes, and the fingerprint of the auth secret. */
  datatype Renderer = Renderer(
    objectName: (string, string) -> string,
    clusterLabel: string -> string,
    config: (Spec, Observation) -> string,
    podSpec: (Spec, Observation) -> PodSpec,
    listenPort: Spec -> int,
    textHash: string -> string,
    authHash: string,
    token: (WriterChange, seq<string>, seq<string>, set<string>, seq<(Observation, bool, int)>) -> RestartToken)

  /** A digest, never empty. */
  type RestartToken = s: string | s != "" witness "0"

  function ClusterLabels(env: Renderer, r: Resource): Labels {
    map[ManagedBy := Relabel.MANAGED_BY, ClusterKey := env.clusterLabel(r.name), AppName := "pgbouncer-aurora",
        AppComponent := "pgbouncer", AppInstance := env.clusterLabel(r.name), AppManagedBy := Relabel.MANAGED_BY,
        AppPartOf := "pgbouncer-aurora"]
  }

  function BaseLabels(env: Renderer, r: Resource, instance: string): Labels {
    ClusterLabels(env, r)[InstanceKey := instance]
  }

  function InstanceName(env: Renderer, r: Resource, instance: string): string { env.objectName(r.name, instance) }

  function RenderConfigMap(env: Renderer, r: Resource, o: Observation): ConfigMap {
    ConfigMap(BaseLabels(env, r, o.name), map[ClusterName := r.name], map["pgbouncer.ini" := env.config(r.spec, o)], map[])
  }

  function TemplateAnnotations(env: Renderer, r: Resource, o: Observation): Labels {
    map[ClusterName := r.name, ConfigHash := env.textHash(env.config(r.spec, o)), AuthFileHash := env.authHash]
  }

  function DbiLabels(dbi: string): Labels { if Trim(dbi) == "" then map[] else map[DbiKey := Trim(dbi)] }

  function RenderDeployment(env: Renderer, r: Resource, p: InstancePlan): Deployment {
    var labels := (r.spec.podLabels + BaseLabels(env, r, p.obs.name)) - {DbiKey};
    Deployment(labels[RoleKey := Relabel.RoleText(p.obs.role)] + DbiLabels(p.obs.dbi),
               TemplateAnnotations(env, r, p.obs) + DbiLabels(p.obs.dbi),
               p.replicas, "RollingUpdate",
               Template(labels, (r.spec.podAnnotations + TemplateAnnotations(env, r, p.obs)) - {DbiKey}, env.podSpec(r.spec, p.obs)))
  }

  const NOTHING_ALLOCATED := Allocated("", [], [], None, None, 0)

  function RenderService(env: Renderer, r: Resource, labels: Labels, spec: ServiceSpec, selector: Labels): Service {
    Service(labels, spec.annotations + map[ClusterName := r.name], if spec.kind == "" then "ClusterIP" else spec.kind, selector,
            [Port("pgbouncer", "TCP", env.listenPort(r.spec), env.listenPort(r.spec), None, 0)], "", NOTHING_ALLOCATED)
  }

  function RenderInstanceService(env: Renderer, r: Resource, instance: string): Service {
    RenderService(env, r, BaseLabels(env, r, instance), r.spec.perInstance, BaseLabels(env, r, instance))
  }

  function RoleSpec(r: Resource, role: Role): ServiceSpec { if role.Reader? then r.spec.readerService else r.spec.writerService }

  function RoleServiceName(env: Renderer, r: Resource, role: Role): string {
    env.objectName(r.name, if RoleSpec(r, role).name == "" then Relabel.RoleText(role) else RoleSpec(r, role).name)
  }

  function RenderRoleService(env: Renderer, r: Resource, role: Role): Service {
    RenderService(env, r, ClusterLabels(env, r)[ServiceRoleKey := Relabel.RoleText(role)], RoleSpec(r, role),
                  map[ManagedBy := Relabel.MANAGED_BY, ClusterKey := env.clusterLabel(r.name)]
                     [(if role.Reader? then ReaderKey else WriterKey) := "true"])
  }

  /** The writer Service selects exactly the pods that carry the writer label, and likewise the reader. */
  lemma RoleServiceSelectsServingPods(env: Renderer, r: Resource, role: Role, labels: Labels)
    ensures Selects(RenderRoleService(env, r, role), labels) <==>
            Relabel.Managed(labels, env.clusterLabel(r.name)) && Label(labels, if role.Reader? then ReaderKey else WriterKey) == "true"
  {
    var selector := RenderRoleService(env, r, role).selector;
    var key := if role.Reader? then ReaderKey else WriterKey;
    assert ManagedBy in selector && ClusterKey in selector && key in selector;
  }

  /** A Service selects the pods whose labels agree with its selector. */
  predicate Selects(s: Service, labels: Labels) {
    forall key :: key in s.selector ==> key in labels && labels[key] == s.selector[key]
  }

  /** The labels a pod of the instance is created with, whatever labels the user adds. */
  function PodLabels(env: Renderer, r: Resource, p: InstancePlan): Labels { RenderDeployment(env, r, p).template.labels }

  /** The pod still has the labels it was created with, but for those that relabelling touches. */
  ghost predicate StillLabelled(labels: Labels, created: Labels) {
    forall key :: key in created && key !in Relabel.MEMBERSHIP_KEYS ==> key in labels && labels[key] == created[key]
  }

  lemma ClusterLabelKeys(env: Renderer, r: Resource)
    ensures InstanceKey !in ClusterLabels(env, r) && DbiKey !in ClusterLabels(env, r)
    ensures forall key :: key in ClusterLabels(env, r) ==> key !in Relabel.MEMBERSHIP_KEYS
  {
  }

  /** Both labellings agree on these keys. */
  ghost predicate Carries(labels: Labels, some: Labels) { forall key :: key in some ==> key in labels && labels[key] == some[key] }

  lemma MergedLabels(user: Labels, cluster: Labels, n: string)
    requires DbiKey !in cluster
    ensures var created := (user + cluster[InstanceKey := n]) - {DbiKey};
            InstanceKey in created && created[InstanceKey] == n && forall key :: key in cluster && key != InstanceKey ==> key in created && created[key] == cluster[key]
  {
  }

  lemma CreatedLabels(env: Renderer, r: Resource, p: InstancePlan)
    ensures var created := PodLabels(env, r, p);
            InstanceKey in created && created[InstanceKey] == p.obs.name && Carries(created, ClusterLabels(env, r))
  {
    ClusterLabelKeys(env, r);
    MergedLabels(r.spec.podLabels, ClusterLabels(env, r), p.obs.name);
  }

  lemma CarriesWithInstance(labels: Labels, cluster: Labels, a: string)
    requires InstanceKey !in cluster && InstanceKey in labels && Carries(labels, cluster)
    ensures Carries(labels, cluster[InstanceKey := a]) <==> labels[InstanceKey] == a
  {
    assert InstanceKey in cluster[InstanceKey := a];
  }

  lemma SelectsIsCarries(env: Renderer, r: Resource, a: string, labels: Labels)
    ensures Selects(RenderInstanceService(env, r, a), labels) <==> Carries(labels, ClusterLabels(env, r)[InstanceKey := a])
  {
  }

  /** The Service of an instance selects a pod of the plan if and only if the pod is one of that instance, relabelled or
      not. */
  lemma InstanceServiceSelectsItsPods(env: Renderer, r: Resource, a: string, p: InstancePlan, labels: Labels)
    requires StillLabelled(labels, PodLabels(env, r, p))
    ensures Selects(RenderInstanceService(env, r, a), labels) <==> p.obs.name == a
  {
    CreatedLabels(env, r, p);
    ClusterLabelKeys(env, r);
    SelectsIsCarries(env, r, a, labels);
    CarriesWithInstance(labels, ClusterLabels(env, r), a);
  }

  /** Whatever a pod is labelled with, only pods labelled with this cluster and instance are selected. */
  lemma InstanceServiceSelectsNoOther(env: Renderer, r: Resource, a: string, labels: Labels)
    requires Selects(RenderInstanceService(env, r, a), labels)
    ensures Relabel.Managed(labels, env.clusterLabel(r.name)) && Label(labels, InstanceKey) == a
  {
    var selector := RenderInstanceService(env, r, a).selector;
    assert InstanceKey in selector && ManagedBy in selector && ClusterKey in selector;
  }

  lemma RenderedShape(env: Renderer, r: Resource, labels: Labels, spec: ServiceSpec, selector: Labels)
    ensures var s := RenderService(env, r, labels, spec, selector);
            && |s.ports| == 1 && s.ports[0].port == s.ports[0].target == env.listenPort(r.spec)
            && s.ports[0].name == "pgbouncer" && s.ports[0].protocol == "TCP"
            && s.kind == (if spec.kind != "" then spec.kind else "ClusterIP")
            && s.annotations == spec.annotations[ClusterName := r.name] && s.labels == labels && s.selector == selector
  {
  }

  /** A role Service is named and typed as asked for, "writer" or "reader" and ClusterIP by default, and offers the listen
      port. */
  lemma RoleServiceOffers(env: Renderer, r: Resource, role: Role)
    ensures var asked, s := if role.Reader? then r.spec.readerService else r.spec.writerService, RenderRoleService(env, r, role);
            && RoleServiceName(env, r, role) == env.objectName(r.name, if asked.name != "" then asked.name else if role.Reader? then "reader" else "writer")
            && s.kind == (if asked.kind != "" then asked.kind else "ClusterIP") && s.annotations == asked.annotations[ClusterName := r.name]
            && |s.ports| == 1 && s.ports[0].port == s.ports[0].target == env.listenPort(r.spec)
            && Label(s.labels, ServiceRoleKey) == (if role.Reader? then "reader" else "writer") && Label(s.labels, InstanceKey) == ""
  {
    ClusterLabelKeys(env, r);
    RenderedShape(env, r, ClusterLabels(env, r)[ServiceRoleKey := Relabel.RoleText(role)], RoleSpec(r, role), RenderRoleService(env, r, role).selector);
  }

  lemma InstanceServiceOffers(env: Renderer, r: Resource, a: string)
    ensures var asked, s := r.spec.perInstance, RenderInstanceService(env, r, a);
            && s.kind == (if asked.kind != "" then asked.kind else "ClusterIP") && s.annotations == asked.annotations[ClusterName := r.name]
            && |s.ports| == 1 && s.ports[0].port == s.ports[0].target == env.listenPort(r.spec)
  {
    RenderedShape(env, r, BaseLabels(env, r, a), r.spec.perInstance, RenderInstanceService(env, r, a).selector);
  }

  // ---------------------------------------------------------------- what an update keeps

  datatype PortKey = ByName(name: string) | ByNumber(protocol: string, port: int)

  function KeyOf(p: Port): PortKey { if p.name != "" then ByName(p.name) else ByNumber(p.protocol, p.port) }

  function NodePortFor(ports: seq<Port>, key: PortKey): int {
    if ports == [] then 0
    else if ports[|ports| - 1].nodePort != 0 && KeyOf(ports[|ports| - 1]) == key then ports[|ports| - 1].nodePort
    else NodePortFor(ports[..|ports| - 1], key)
  }

  function KeepNodePorts(target: seq<Port>, stored: seq<Port>): seq<Port> {
    Map((p: Port) => if NodePortFor(stored, KeyOf(p)) != 0 then p.(nodePort := NodePortFor(stored, KeyOf(p))) else p, target)
  }

  function CopyConfigMap(stored: ConfigMap, desired: ConfigMap): ConfigMap { desired }

  function KeepAllocated(kind: string, trafficPolicy: string, stored: Allocated, desired: Allocated): Allocated {
    Allocated(
      if stored.clusterIP != "" then stored.clusterIP else desired.clusterIP,
      if stored.clusterIP != "" then stored.clusterIPs else desired.clusterIPs,
      if stored.families != [] then stored.families else desired.families,
      if stored.familyPolicy.Some? then stored.familyPolicy else desired.familyPolicy,
      if stored.loadBalancerClass.Some? then stored.loadBalancerClass else desired.loadBalancerClass,
      if kind == "LoadBalancer" && trafficPolicy == "Local" && stored.healthCheckNodePort != 0
      then stored.healthCheckNodePort else desired.healthCheckNodePort)
  }

  function CopyService(stored: Service, desired: Service): Service {
    desired.(ports := if desired.kind == "NodePort" || desired.kind == "LoadBalancer" then KeepNodePorts(desired.ports, stored.ports) else desired.ports,
             given := KeepAllocated(desired.kind, desired.trafficPolicy, stored.given, desired.given))
  }

  function KeepDbi(stored: Labels, desired: Labels): Labels {
    if Trim(Label(desired, DbiKey)) == "" && Trim(Label(stored, DbiKey)) != ""
    then desired[DbiKey := Trim(Label(stored, DbiKey))] else desired
  }

  function Token(d: Deployment): string { Label(d.template.annotations, RestartedAt) }

  function SetToken(d: Deployment, token: string): Deployment {
    d.(template := d.template.(annotations := d.template.annotations[RestartedAt := token]))
  }

  function CopyDeployment(stored: Deployment, desired: Deployment): Deployment {
    var d := desired.(labels := KeepDbi(stored.labels, desired.labels), annotations := KeepDbi(stored.annotations, desired.annotations));
    Accept(if Token(stored) == "" then d else SetToken(d, Token(stored)))
  }

  // ---------------------------------------------------------------- server defaults and normalisation

  function DefaultText(value: string, default: string): string { if value == "" then default else value }

  function DefaultContainer(c: Container): Container {
    c.(messagePath := DefaultText(c.messagePath, "/dev/termination-log"), messagePolicy := DefaultText(c.messagePolicy, "File"),
       readiness := DefaultProbe(c.readiness), liveness := DefaultProbe(c.liveness), startup := DefaultProbe(c.startup),
       ports := Map((p: ContainerPort) => p.(protocol := DefaultText(p.protocol, "TCP")), c.ports))
  }

  function DefaultProbe(p: Option<Probe>): Option<Probe> {
    if p.None? then None
    else Some(p.value.(successThreshold := if p.value.successThreshold == 0 then 1 else p.value.successThreshold,
                       failureThreshold := if p.value.failureThreshold == 0 then 3 else p.value.failureThreshold))
  }

  /** What the API server fills in when a pod template leaves it open. */
  function DefaultSpec(s: PodSpec): PodSpec {
    s.(dnsPolicy := DefaultText(s.dnsPolicy, "ClusterFirst"), schedulerName := DefaultText(s.schedulerName, "default-scheduler"),
       oldServiceAccount := if s.oldServiceAccount == "" then s.serviceAccount else s.oldServiceAccount,
       grace := if s.grace.None? then Some(30) else s.grace,
       securityContext := if s.securityContext.None? then Some("") else s.securityContext,
       serviceLinks := if s.serviceLinks.None? then Some(true) else s.serviceLinks,
       volumes := Map((v: Volume) => if v.defaultMode.None? then v.(defaultMode := Some(420)) else v, s.volumes),
       containers := Map(DefaultContainer, s.containers), initContainers := Map(DefaultContainer, s.initContainers))
  }

  /** A deployment as the API server stores it. */
  function Accept(d: Deployment): Deployment {
    d.(template := d.template.(spec := DefaultSpec(d.template.spec)))
  }

  function DropText(value: string, default: string): string { if value == default then "" else value }

  function NormalProbe(p: Option<Probe>): Option<Probe> {
    if p.None? then None
    else Some(p.value.(successThreshold := if p.value.successThreshold == 1 then 0 else p.value.successThreshold,
                       failureThreshold := if p.value.failureThreshold == 3 then 0 else p.value.failureThreshold))
  }

  /** normalizeContainerForDrift. */
  function NormalContainer(c: Container): Container {
    c.(messagePath := DropText(c.messagePath, "/dev/termination-log"), messagePolicy := DropText(c.messagePolicy, "File"),
       securityContext := if c.securityContext == Some("") then None else c.securityContext,
       readiness := NormalProbe(c.readiness), liveness := NormalProbe(c.liveness), startup := NormalProbe(c.startup),
       ports := Map((p: ContainerPort) => p.(protocol := DropText(p.protocol, "TCP")), c.ports))
  }

  function NormalVolume(v: Volume): Volume { if v.defaultMode == Some(420) then v.(defaultMode := None) else v }

  function NormalSpec(s: PodSpec): PodSpec {
    s.(dnsPolicy := DropText(s.dnsPolicy, "ClusterFirst"), schedulerName := DropText(s.schedulerName, "default-scheduler"),
       oldServiceAccount := DropText(s.oldServiceAccount, s.serviceAccount),
       grace := if s.grace == Some(30) then None else s.grace,
       securityContext := if s.securityContext == Some("") then None else s.securityContext,
       serviceLinks := if s.serviceLinks == Some(true) then None else s.serviceLinks,
       volumes := Map(NormalVolume, s.volumes),
       containers := Map(NormalContainer, s.containers), initContainers := Map(NormalContainer, s.initContainers))
  }

  /** normalizePodTemplateForDrift: the restart token and server defaults do not count. */
  function Normal(t: Template): Template {
    Template(t.labels, t.annotations - {RestartedAt}, NormalSpec(t.spec))
  }

  lemma ContainerDefaultsForgotten(c: Container)
    ensures NormalContainer(DefaultContainer(c)) == NormalContainer(c)
  {
    assert NormalContainer(DefaultContainer(c)).ports == NormalContainer(c).ports;
  }

  lemma SpecDefaultsForgotten(s: PodSpec)
    ensures NormalSpec(DefaultSpec(s)) == NormalSpec(s)
  {
    forall c ensures NormalContainer(DefaultContainer(c)) == NormalContainer(c) { ContainerDefaultsForgotten(c); }
    assert NormalSpec(DefaultSpec(s)).containers == NormalSpec(s).containers;
    assert NormalSpec(DefaultSpec(s)).initContainers == NormalSpec(s).initContainers;
    assert NormalSpec(DefaultSpec(s)).volumes == NormalSpec(s).volumes;
  }

  /** Neither the API server's defaults nor a restart token ever look like drift. */
  lemma AcceptedIsNormal(d: Deployment, token: string)
    ensures Normal(Accept(d).template) == Normal(d.template)
    ensures Normal(SetToken(d, token).template) == Normal(d.template)
  {
    SpecDefaultsForgotten(d.template.spec);
    assert SetToken(d, token).template.annotations - {RestartedAt} == d.template.annotations - {RestartedAt};
  }

  // ---------------------------------------------------------------- what the normal form tells apart

  /** An empty security context is as good as none. */
  function Bare(c: Container): Container { if c.securityContext == Some("") then c.(securityContext := None) else c }

  /** The pod spec with everything filled in that the server would fill in. */
  function FilledSpec(s: PodSpec): PodSpec {
    var d := DefaultSpec(s);
    d.(containers := Map(Bare, d.containers), initContainers := Map(Bare, d.initContainers))
  }

  lemma SameVolumeIff(v: Volume, u: Volume)
    ensures NormalVolume(v) == NormalVolume(u) <==>
            (if v.defaultMode.None? then v.(defaultMode := Some(420)) else v) == (if u.defaultMode.None? then u.(defaultMode := Some(420)) else u)
  {
  }

  lemma SameProbeIff(p: Option<Probe>, q: Option<Probe>)
    ensures NormalProbe(p) == NormalProbe(q) <==> DefaultProbe(p) == DefaultProbe(q)
  {
  }

  lemma SamePortsIff(a: seq<ContainerPort>, b: seq<ContainerPort>)
    ensures Map((p: ContainerPort) => p.(protocol := DropText(p.protocol, "TCP")), a) == Map((p: ContainerPort) => p.(protocol := DropText(p.protocol, "TCP")), b) <==>
            Map((p: ContainerPort) => p.(protocol := DefaultText(p.protocol, "TCP")), a) == Map((p: ContainerPort) => p.(protocol := DefaultText(p.protocol, "TCP")), b)
  {
    SameMapIff((p: ContainerPort) => p.(protocol := DropText(p.protocol, "TCP")), (p: ContainerPort) => p.(protocol := DefaultText(p.protocol, "TCP")), a, b);
  }

  /** Two ways of looking at elements that tell the same elements apart tell the same lists apart. */
  lemma SameMapIff<A(!new), B, C>(f: A -> B, g: A -> C, a: seq<A>, b: seq<A>)
    requires forall x, y :: f(x) == f(y) <==> g(x) == g(y)
    ensures Map(f, a) == Map(f, b) <==> Map(g, a) == Map(g, b)
  {
    if Map(f, a) == Map(f, b) {
      assert |a| == |Map(f, a)| == |b|;
      forall i | 0 <= i < |a| ensures g(a[i]) == g(b[i]) { assert Map(f, a)[i] == Map(f, b)[i]; }
    }
    if Map(g, a) == Map(g, b) {
      assert |a| == |Map(g, a)| == |b|;
      forall i | 0 <= i < |a| ensures f(a[i]) == f(b[i]) { assert Map(g, a)[i] == Map(g, b)[i]; }
    }
  }

  lemma SameContainerIff(c: Container, d: Container)
    ensures NormalContainer(c) == NormalContainer(d) <==> Bare(DefaultContainer(c)) == Bare(DefaultContainer(d))
  {
    SameProbeIff(c.readiness, d.readiness);
    SameProbeIff(c.liveness, d.liveness);
    SameProbeIff(c.startup, d.startup);
    SamePortsIff(c.ports, d.ports);
  }

  function BareDefault(c: Container): Container { Bare(DefaultContainer(c)) }

  lemma SameContainersIff(a: seq<Container>, b: seq<Container>)
    ensures Map(NormalContainer, a) == Map(NormalContainer, b) <==> Map(Bare, Map(DefaultContainer, a)) == Map(Bare, Map(DefaultContainer, b))
  {
    forall x, y ensures NormalContainer(x) == NormalContainer(y) <==> BareDefault(x) == BareDefault(y) { SameContainerIff(x, y); }
    SameMapIff(NormalContainer, BareDefault, a, b);
    assert Map(Bare, Map(DefaultContainer, a)) == Map(BareDefault, a) && Map(Bare, Map(DefaultContainer, b)) == Map(BareDefault, b);
  }

  lemma SameVolumesIff(a: seq<Volume>, b: seq<Volume>)
    ensures Map(NormalVolume, a) == Map(NormalVolume, b) <==>
            Map((v: Volume) => if v.defaultMode.None? then v.(defaultMode := Some(420)) else v, a) ==
            Map((v: Volume) => if v.defaultMode.None? then v.(defaultMode := Some(420)) else v, b)
  {
    SameMapIff(NormalVolume, (v: Volume) => if v.defaultMode.None? then v.(defaultMode := Some(420)) else v, a, b);
  }

  lemma SameScalarsIff(s: PodSpec, t: PodSpec)
    ensures var a, b, x, y := NormalSpec(s), NormalSpec(t), FilledSpec(s), FilledSpec(t);
            a == b.(volumes := a.volumes, containers := a.containers, initContainers := a.initContainers) <==>
            x == y.(volumes := x.volumes, containers := x.containers, initContainers := x.initContainers)
  {
  }

  lemma SameSpecIff(s: PodSpec, t: PodSpec)
    ensures NormalSpec(s) == NormalSpec(t) <==> FilledSpec(s) == FilledSpec(t)
  {
    SameScalarsIff(s, t);
    SameVolumesIff(s.volumes, t.volumes);
    SameContainersIff(s.containers, t.containers);
    SameContainersIff(s.initContainers, t.initContainers);
  }

  /** The template once the server's defaults are filled in, without the restart token. */
  function FilledTemplate(t: Template): Template { Template(t.labels, t.annotations - {RestartedAt}, FilledSpec(t.spec)) }

  /** The drift check takes two templates for the same if and only if they are, once the server's defaults are filled in,
      up to the restart token: no other field is overlooked. */
  lemma NormalTellsApart(a: Template, b: Template)
    ensures Normal(a) == Normal(b) <==> FilledTemplate(a) == FilledTemplate(b)
  {
    SameSpecIff(a.spec, b.spec);
  }

  /** In particular a hand edit of a container, of its image say, is noticed. */
  lemma ContainerEditNoticed(t: Template, i: nat, rest: string)
    requires i < |t.spec.containers| && rest != t.spec.containers[i].rest
    ensures Normal(t) != Normal(t.(spec := t.spec.(containers := t.spec.containers[i := t.spec.containers[i].(rest := rest)])))
  {
    var edited := t.(spec := t.spec.(containers := t.spec.containers[i := t.spec.containers[i].(rest := rest)]));
    assert Normal(t).spec.containers[i].rest == t.spec.containers[i].rest && Normal(edited).spec.containers[i].rest == rest;
  }
}
