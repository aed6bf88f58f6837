/** The custom resource: the part of its spec that steers traffic and the status the control loop
    keeps in it.  A stored topology entry has the fields of an observation and a stored instance
    status the fields of an instance plan, so each pair shares one datatype. */
module Domain {
  import opened Text
  import Affinity

  datatype Role = Writer | Reader

  datatype Observation = Observation(
    name: string, endpoint: string, port: int, role: Role, zone: string, dbi: string)

  datatype Health = Health(healthy: bool, ready: int)

  datatype InstancePlan = InstancePlan(
    obs: Observation, healthy: bool, disabled: bool, replicas: int, ready: int, failures: int, successes: int)

  type InstanceStatus = InstancePlan

  datatype Membership = Membership(writer: seq<string>, reader: seq<string>)

  datatype Missing = Missing(name: string, count: int, first: Option<int>, last: Option<int>)

  /** The label and annotation keys the operator owns; Other covers every remaining key. */
  datatype Key =
    | ManagedBy | ClusterKey | InstanceKey | RoleKey | ServiceRoleKey | WriterKey | ReaderKey | DbiKey
    | ClusterName | ConfigHash | AuthFileHash | RestartedAt
    | AppName | AppComponent | AppInstance | AppManagedBy | AppPartOf
    | Other(name: string)

  type Labels = map<Key, string>

  function Label(labels: Labels, key: Key): string { if key in labels then labels[key] else "" }

  // ---------------------------------------------------------------- spec

  datatype Override = Override(name: string, enabled: Option<bool>, replicas: int)

  datatype WriterChange = UnsetChange | KeepExisting | RestartWriters | RestartAll | UnknownChange

  datatype ServiceSpec = ServiceSpec(name: string, kind: string, annotations: Labels)

  datatype Spec = Spec(
    domainName: string,
    port: int,
    discoveryFailureThreshold: int,
    failureThreshold: int,
    recoveryThreshold: int,
    replicas: Option<int>,
    overrides: seq<Override>,
    nodeSelector: map<string, string>,
    affinity: Option<Affinity.NodeAffinity>,
    spreadKeys: seq<string>,
    podLabels: Labels,
    podAnnotations: Labels,
    removeAfterMissingCount: int,
    removedInstanceRetention: int,
    writerChange: WriterChange,
    readerFallback: Option<bool>,
    zoneAware: Affinity.ZoneAware,
    writerService: ServiceSpec,
    readerService: ServiceSpec,
    perInstance: ServiceSpec)

  function DefaultInt(value: int, fallback: int): (r: int)
    requires fallback > 0
    ensures r > 0
  {
    if value > 0 then value else fallback
  }

  predicate Disabled(spec: Spec, name: string) {
    exists o :: o in spec.overrides && o.name == name && o.enabled == Some(false)
  }

  function OverrideReplicas(overrides: seq<Override>, name: string, fallback: int): int {
    if overrides == [] then fallback
    else if overrides[0].name == name && overrides[0].replicas > 0 then overrides[0].replicas
    else OverrideReplicas(overrides[1..], name, fallback)
  }

  function ReplicasFor(spec: Spec, name: string): int {
    OverrideReplicas(spec.overrides, name,
                     if spec.replicas.Some? && spec.replicas.value > 0 then spec.replicas.value else 1)
  }

  function RemoveAfter(spec: Spec): int { DefaultInt(spec.removeAfterMissingCount, 3) }

  function Retention(spec: Spec): int { DefaultInt(spec.removedInstanceRetention, 3600) }

  function DiscoveryThreshold(spec: Spec): int { DefaultInt(spec.discoveryFailureThreshold, 3) }

  // ---------------------------------------------------------------- status

  /** hashObject of a topology, taken as injective; NoHash is the empty string. */
  datatype Hash = NoHash | HashOf(topology: seq<Observation>)

  /** The DiscoveryTrusted condition, the only condition the loop reads back. */
  datatype Trust = Unreported | Untrusted | Trusted

  datatype Status = Status(
    observedGeneration: int,
    topologyHash: Hash,
    discoveryFailures: int,
    lastDiscoveryTime: Option<int>,
    lastMonitorTime: Option<int>,
    lastAppliedTime: Option<int>,
    topology: seq<Observation>,
    lastApplied: Membership,
    missing: seq<Missing>,
    instances: seq<InstanceStatus>,
    discoveryTrusted: Trust)

  const EMPTY_STATUS :=
    Status(0, NoHash, 0, None, None, None, [], Membership([], []), [], [], Unreported)

  datatype Resource = Resource(name: string, generation: int, spec: Spec, status: Status)

  // ---------------------------------------------------------------- discovery results

  datatype Discovery = Discovery(trusted: bool, instances: seq<Observation>)

  const UNTRUSTED := Discovery(false, [])

  function ObsName(o: Observation): string { o.name }

  function PlanName(p: InstancePlan): string { p.obs.name }

  function MissingName(m: Missing): string { m.name }

  function Names(topology: seq<Observation>): seq<string> { Map(ObsName, topology) }

  predicate IsWriter(o: Observation) { o.role == Writer }

  /** What every trusted discovery looks like (established by Aurora.TrustedShapeHolds). */
  ghost predicate TrustedShape(instances: seq<Observation>) {
    && instances != []
    && StrictlyAscending(ObsName, instances)
    && (forall o :: o in instances ==> o.name != "" && o.endpoint != "" && o.port > 0)
    && (exists i :: 0 <= i < |instances| && OnlyWriter(instances, i))
  }

  ghost predicate OnlyWriter(instances: seq<Observation>, i: nat)
    requires i < |instances|
  {
    IsWriter(instances[i]) && forall j :: 0 <= j < |instances| && IsWriter(instances[j]) ==> j == i
  }

  lemma StrictNamesNoDup(instances: seq<Observation>)
    requires StrictlyAscending(ObsName, instances)
    ensures NoDup(Names(instances))
  {
    forall i, j | 0 <= i < j < |instances| ensures Names(instances)[i] != Names(instances)[j] {
      LessIrreflexive(ObsName(instances[i]));
    }
  }
}
