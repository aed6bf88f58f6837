/** What the cluster looks like when it is as a plan wants it, field by field, and what an apply leaves behind. */
module DesiredState {
  import opened Text
  import opened Domain
  import opened Planner
  import opened Commits
  import opened Interleavings
  import opened Objects
  import opened Relabel
  import opened Apply
  import opened ApplyLaws

  // ---------------------------------------------------------------- one object

  ghost predicate ConfigMapHolds(m: ConfigMap, env: Renderer, r: Resource, o: Observation) {
    m.data == map["pgbouncer.ini" := env.config(r.spec, o)] && m.binaryData == map[]
  }

  /** The pod template, with the server's defaults filled in, is the instance's own pod spec under the cluster's labels and
      the user's, up to the restart token. */
  ghost predicate TemplateHolds(t: Template, env: Renderer, r: Resource, o: Observation) {
    && FilledSpec(t.spec) == FilledSpec(env.podSpec(r.spec, o))
    && t.labels == (r.spec.podLabels + BaseLabels(env, r, o.name)) - {DbiKey}
    && t.annotations - {RestartedAt} ==
       (r.spec.podAnnotations + map[ClusterName := r.name, ConfigHash := env.textHash(env.config(r.spec, o)), AuthFileHash := env.authHash])
       - {DbiKey, RestartedAt}
  }

  ghost predicate DeploymentHolds(d: Deployment, env: Renderer, r: Resource, p: InstancePlan) {
    && d.replicas == p.replicas && d.strategy == "RollingUpdate" && TemplateHolds(d.template, env, r, p.obs)
    && (Trim(p.obs.dbi) != "" ==> Trim(Label(d.labels, DbiKey)) == Trim(p.obs.dbi))
  }

  /** One port, the type and the annotations asked for, and this selector. */
  ghost predicate ServiceHolds(s: Service, env: Renderer, r: Resource, asked: ServiceSpec, selector: Labels) {
    && s.kind == (if asked.kind != "" then asked.kind else "ClusterIP") && s.annotations == asked.annotations[ClusterName := r.name]
    && s.selector == selector && |s.ports| == 1
    && var port := s.ports[0];
       port.name == "pgbouncer" && port.protocol == "TCP" && port.port == port.target == env.listenPort(r.spec) && port.appProtocol.None?
  }

  ghost predicate RoleServiceHolds(services: map<string, Service>, env: Renderer, r: Resource, role: Role) {
    var asked := if role.Reader? then r.spec.readerService else r.spec.writerService;
    var n := env.objectName(r.name, if asked.name != "" then asked.name else if role.Reader? then "reader" else "writer");
    && n in services && Managed(services[n].labels, env.clusterLabel(r.name))
    && ServiceHolds(services[n], env, r, asked,
         map[ManagedBy := MANAGED_BY, ClusterKey := env.clusterLabel(r.name), if role.Reader? then ReaderKey else WriterKey := "true"])
  }

  /** All three objects of an instance exist, belong to this cluster and are as wanted. */
  ghost predicate InstanceHolds(w: World, env: Renderer, r: Resource, p: InstancePlan) {
    var n, cluster := env.objectName(r.name, p.obs.name), env.clusterLabel(r.name);
    && n in w.configMaps && Managed(w.configMaps[n].labels, cluster) && ConfigMapHolds(w.configMaps[n], env, r, p.obs)
    && n in w.deployments && Managed(w.deployments[n].labels, cluster) && DeploymentHolds(w.deployments[n], env, r, p)
    && n in w.services && Managed(w.services[n].labels, cluster)
    && ServiceHolds(w.services[n], env, r, r.spec.perInstance, BaseLabels(env, r, p.obs.name))
  }

  /** A Service of this cluster, not of an instance, that is labelled for a role or selects the pods of one. */
  ghost predicate ServesRole(s: Service, cluster: string) {
    && Managed(s.labels, cluster) && Label(s.labels, InstanceKey) == ""
    && (Label(s.labels, ServiceRoleKey) != "" || Label(s.selector, WriterKey) == "true" || Label(s.selector, ReaderKey) == "true")
  }

  /** A pod's membership labels: "true" for each role its instance serves, and the role of the active instance. */
  ghost predicate PodHolds(labels: Labels, plan: Output) {
    var n := Label(labels, InstanceKey);
    && FlagExact(labels, WriterKey, n in plan.membership.writer) && FlagExact(labels, ReaderKey, n in plan.membership.reader)
    && (forall p :: p in plan.instances && !p.disabled && p.obs.name == n ==> RoleKey in labels && labels[RoleKey] == if p.obs.role.Writer? then "writer" else "reader")
    && ((forall p :: p in plan.instances && p.obs.name == n ==> p.disabled) ==> RoleKey !in labels)
  }

  /** Every object the plan wants is there and as wanted, and no Service serves a role under a name no role uses. */
  ghost predicate ObjectsHold(w: World, env: Renderer, r: Resource, plan: Output) {
    && (forall p :: p in plan.instances && !p.disabled ==> InstanceHolds(w, env, r, p))
    && RoleServiceHolds(w.services, env, r, Writer) && RoleServiceHolds(w.services, env, r, Reader)
    && (forall n :: n in w.services && ServesRole(w.services[n], env.clusterLabel(r.name)) && n !in ObjectNames(env, r, plan) ==>
          n == RoleServiceName(env, r, Writer) || n == RoleServiceName(env, r, Reader))
  }

  /** The cluster is as the plan wants it, down to the labels of every pod. */
  ghost predicate Matches(w: World, env: Renderer, r: Resource, plan: Output) {
    && ObjectsHold(w, env, r, plan)
    && (forall x :: x in w.pods && Managed(w.pods[x].labels, env.clusterLabel(r.name)) && Label(w.pods[x].labels, InstanceKey) != "" ==>
          PodHolds(w.pods[x].labels, plan))
  }

  // ---------------------------------------------------------------- the detector sees exactly that

  lemma TemplateIff(t: Template, env: Renderer, r: Resource, p: InstancePlan)
    ensures Normal(t) == Normal(RenderDeployment(env, r, p).template) <==> TemplateHolds(t, env, r, p.obs)
  {
    var wanted := RenderDeployment(env, r, p).template;
    NormalTellsApart(t, wanted);
    assert wanted.annotations - {RestartedAt} ==
           (r.spec.podAnnotations + map[ClusterName := r.name, ConfigHash := env.textHash(env.config(r.spec, p.obs)), AuthFileHash := env.authHash])
           - {DbiKey, RestartedAt};
  }

  lemma RenderedDbi(env: Renderer, r: Resource, p: InstancePlan)
    ensures Trim(Label(RenderDeployment(env, r, p).labels, DbiKey)) == Trim(p.obs.dbi)
  {
    var labels := RenderDeployment(env, r, p).labels;
    TrimIdempotent(p.obs.dbi);
    if Trim(p.obs.dbi) == "" { assert DbiKey !in labels; } else { assert labels[DbiKey] == Trim(p.obs.dbi); }
  }

  lemma DeploymentIff(d: Deployment, env: Renderer, r: Resource, p: InstancePlan)
    ensures !DeploymentDrifted(d, RenderDeployment(env, r, p)) <==> DeploymentHolds(d, env, r, p)
  {
    TemplateIff(d.template, env, r, p);
    RenderedDbi(env, r, p);
  }

  lemma ServiceIff(s: Service, env: Renderer, r: Resource, labels: Labels, asked: ServiceSpec, selector: Labels)
    ensures !ServiceDrifted(s, RenderService(env, r, labels, asked, selector)) <==> ServiceHolds(s, env, r, asked, selector)
  {
    assert asked.annotations + map[ClusterName := r.name] == asked.annotations[ClusterName := r.name];
  }

  lemma RoleServiceIff(services: map<string, Service>, env: Renderer, r: Resource, role: Role)
    ensures ServiceQuiet(services, env, r, RoleServiceName(env, r, role), RenderRoleService(env, r, role)) <==> RoleServiceHolds(services, env, r, role)
  {
    var n, asked := RoleServiceName(env, r, role), RoleSpec(r, role);
    var wanted := RenderRoleService(env, r, role);
    assert wanted.selector == map[ManagedBy := MANAGED_BY, ClusterKey := env.clusterLabel(r.name), if role.Reader? then ReaderKey else WriterKey := "true"];
    if n in services { ServiceIff(services[n], env, r, wanted.labels, asked, wanted.selector); }
  }

  ghost predicate InstanceQuiet(w: World, env: Renderer, r: Resource, p: InstancePlan) {
    && ConfigMapQuiet(w.configMaps, env, r, p) && DeploymentQuiet(w.deployments, env, r, p)
    && ServiceQuiet(w.services, env, r, InstanceName(env, r, p.obs.name), RenderInstanceService(env, r, p.obs.name))
  }

  lemma InstanceIff(w: World, env: Renderer, r: Resource, p: InstancePlan)
    ensures InstanceQuiet(w, env, r, p) <==> InstanceHolds(w, env, r, p)
  {
    var n := InstanceName(env, r, p.obs.name);
    if n in w.deployments { DeploymentIff(w.deployments[n], env, r, p); }
    if n in w.services { ServiceIff(w.services[n], env, r, BaseLabels(env, r, p.obs.name), r.spec.perInstance, BaseLabels(env, r, p.obs.name)); }
  }

  lemma {:induction false} RolesOfSpec(plans: seq<InstancePlan>, n: string)
    requires n != "" && NoDup(Map(PlanName, plans))
    ensures n in RolesOf(plans) <==> exists p :: p in plans && p.obs.name == n
    ensures forall p :: p in plans && p.obs.name == n ==> n in RolesOf(plans) && RolesOf(plans)[n] == p.obs.role
  {
    if plans != [] {
      var init, last := plans[..|plans| - 1], plans[|plans| - 1];
      assert plans == init + [last];
      forall i, j | 0 <= i < j < |init| ensures Map(PlanName, init)[i] != Map(PlanName, init)[j] { assert Map(PlanName, plans)[i] != Map(PlanName, plans)[j]; }
      RolesOfSpec(init, n);
      forall p | p in init ensures p.obs.name != last.obs.name {
        var i :| 0 <= i < |init| && init[i] == p;
        assert Map(PlanName, plans)[i] != Map(PlanName, plans)[|init|];
      }
    }
  }

  lemma {:induction false} ActiveNoDup(plans: seq<InstancePlan>)
    requires NoDup(Map(PlanName, plans))
    ensures NoDup(Map(PlanName, Active(plans)))
  {
    if plans != [] {
      var init, last := plans[..|plans| - 1], plans[|plans| - 1];
      assert plans == init + [last];
      forall i, j | 0 <= i < j < |init| ensures Map(PlanName, init)[i] != Map(PlanName, init)[j] { assert Map(PlanName, plans)[i] != Map(PlanName, plans)[j]; }
      ActiveNoDup(init);
      var kept := Active(init);
      forall i | 0 <= i < |kept| ensures kept[i].obs.name != last.obs.name {
        ActiveSpec(init, kept[i]);
        var j :| 0 <= j < |init| && init[j] == kept[i];
        assert Map(PlanName, plans)[j] != Map(PlanName, plans)[|init|];
      }
    }
  }

  lemma PodIff(labels: Labels, plan: Output)
    requires NoDup(Map(PlanName, plan.instances)) && Label(labels, InstanceKey) != ""
    ensures LabelsExact(labels, TargetsOf(plan)) <==> PodHolds(labels, plan)
  {
    var n := Label(labels, InstanceKey);
    ActiveNoDup(plan.instances);
    RolesOfSpec(Active(plan.instances), n);
    forall p ensures p in Active(plan.instances) <==> p in plan.instances && !p.disabled { ActiveSpec(plan.instances, p); }
  }

  lemma InstancesIff(w: World, env: Renderer, r: Resource, plan: Output)
    ensures (forall p :: p in Active(plan.instances) ==> InstanceQuiet(w, env, r, p)) <==>
            (forall p :: p in plan.instances && !p.disabled ==> InstanceHolds(w, env, r, p))
  {
    forall p ensures p in Active(plan.instances) <==> p in plan.instances && !p.disabled { ActiveSpec(plan.instances, p); }
    forall p ensures InstanceQuiet(w, env, r, p) <==> InstanceHolds(w, env, r, p) { InstanceIff(w, env, r, p); }
  }

  lemma PodsIff(pods: Pods, cluster: string, plan: Output)
    requires NoDup(Map(PlanName, plan.instances))
    ensures PodsQuiet(pods, cluster, TargetsOf(plan)) <==>
            forall x :: x in pods && Managed(pods[x].labels, cluster) && Label(pods[x].labels, InstanceKey) != "" ==> PodHolds(pods[x].labels, plan)
  {
    forall x | x in pods && Label(pods[x].labels, InstanceKey) != "" ensures LabelsExact(pods[x].labels, TargetsOf(plan)) <==> PodHolds(pods[x].labels, plan) {
      PodIff(pods[x].labels, plan);
    }
  }

  ghost predicate AllQuiet(w: World, env: Renderer, r: Resource, plan: Output) {
    && (forall p :: p in Active(plan.instances) ==> InstanceQuiet(w, env, r, p))
    && (forall role :: ServiceQuiet(w.services, env, r, RoleServiceName(env, r, role), RenderRoleService(env, r, role)))
    && (forall n :: n in w.services && n !in ObjectNames(env, r, plan) ==> !StaleRole(env, r, n, w.services[n]))
  }

  lemma ObjectsIff(w: World, env: Renderer, r: Resource, plan: Output)
    ensures AllQuiet(w, env, r, plan) <==> ObjectsHold(w, env, r, plan)
  {
    InstancesIff(w, env, r, plan);
    RoleServiceIff(w.services, env, r, Writer);
    RoleServiceIff(w.services, env, r, Reader);
    assert (forall role :: RoleServiceHolds(w.services, env, r, role)) <==> RoleServiceHolds(w.services, env, r, Writer) && RoleServiceHolds(w.services, env, r, Reader);
    forall role { RoleServiceIff(w.services, env, r, role); }
  }

  lemma QuietParts(w: World, env: Renderer, r: Resource, plan: Output)
    ensures !NeedsApply(w, env, r, plan) <==> AllQuiet(w, env, r, plan) && PodsQuiet(w.pods, env.clusterLabel(r.name), TargetsOf(plan))
  {
  }

  /** The drift detector is quiet if and only if the cluster matches the plan: every object is there, is the cluster's own
      and agrees in every field that is not the server's, no stale role Service is left and every pod label is exact. */
  lemma QuietIffMatches(w: World, env: Renderer, r: Resource, plan: Output)
    requires NoDup(Map(PlanName, plan.instances))
    ensures !NeedsApply(w, env, r, plan) <==> Matches(w, env, r, plan)
  {
    QuietParts(w, env, r, plan);
    ObjectsIff(w, env, r, plan);
    PodsIff(w.pods, env.clusterLabel(r.name), plan);
  }

  lemma InstanceAfterApply(w: World, after: World, env: Renderer, r: Resource, plan: Output, removed: set<string>, p: InstancePlan)
    requires DistinctNames(env, r, plan, removed) && p in Active(plan.instances) && ServicesQuiet(after.services, env, r, plan)
    requires after.configMaps == ApplyConfigMaps(w, env, r, plan, removed)
    requires after.deployments == PutDeployments(w, env, r, plan) - Gone(env, r, plan, removed)
    ensures InstanceQuiet(after, env, r, p)
  {
    var n := InstanceName(env, r, p.obs.name);
    ConfigMapAfter(w, env, r, plan, removed, p);
    PutDeploymentQuiet(w, env, r, plan, p);
    var k := IndexOf(env, r, plan, p);
    assert n in ServiceNames(env, r, plan);
    assert n in after.deployments && after.deployments[n] == PutDeployments(w, env, r, plan)[n];
  }

  lemma QuietServices(w: World, env: Renderer, r: Resource, plan: Output)
    requires ServicesQuiet(w.services, env, r, plan) && forall p :: p in Active(plan.instances) ==> InstanceQuiet(w, env, r, p)
    ensures AllQuiet(w, env, r, plan)
  {
  }

  /** Whether or not the writers were restarted, the objects of an apply are as wanted. */
  lemma ObjectsAfterApply(w: World, after: World, env: Renderer, r: Resource, plan: Output, removed: set<string>)
    requires DistinctNames(env, r, plan, removed)
    requires after.configMaps == ApplyConfigMaps(w, env, r, plan, removed) && after.services == ApplyServices(w, env, r, plan, removed)
    requires after.deployments == PutDeployments(w, env, r, plan) - Gone(env, r, plan, removed)
    ensures ObjectsHold(after, env, r, plan)
  {
    ServicesAfter(w, env, r, plan, removed);
    forall p | p in Active(plan.instances) ensures InstanceQuiet(after, env, r, p) { InstanceAfterApply(w, after, env, r, plan, removed, p); }
    QuietServices(after, env, r, plan);
    ObjectsIff(after, env, r, plan);
  }

  /** An apply leaves a cluster that matches the plan. */
  lemma MatchesAfterApply(w: World, env: Renderer, r: Resource, plan: Output, removed: set<string>)
    requires NoDup(Map(PlanName, plan.instances)) && DistinctNames(env, r, plan, removed)
    ensures Matches(ApplyPlan(w, env, r, plan, removed), env, r, plan)
  {
    QuietAfterApply(w, env, r, plan, removed);
    QuietIffMatches(ApplyPlan(w, env, r, plan, removed), env, r, plan);
  }

  // ---------------------------------------------------------------- who the stored Services select

  /** On a cluster that matches the plan the Service under an instance's object name selects, of the pods the plan's
      instances create, exactly those of that instance, and no pod of another instance or cluster. */
  lemma StoredServiceSelects(w: World, env: Renderer, r: Resource, plan: Output, p: InstancePlan, q: InstancePlan, labels: Labels)
    requires Matches(w, env, r, plan) && p in plan.instances && !p.disabled
    ensures var n := env.objectName(r.name, p.obs.name);
            && n in w.services
            && (StillLabelled(labels, PodLabels(env, r, q)) ==> (Selects(w.services[n], labels) <==> q.obs.name == p.obs.name))
            && (Selects(w.services[n], labels) ==> Managed(labels, env.clusterLabel(r.name)) && Label(labels, InstanceKey) == p.obs.name)
  {
    var n := env.objectName(r.name, p.obs.name);
    assert InstanceHolds(w, env, r, p);
    var wanted := RenderInstanceService(env, r, p.obs.name);
    assert w.services[n].selector == wanted.selector;
    assert Selects(w.services[n], labels) <==> Selects(wanted, labels);
    if StillLabelled(labels, PodLabels(env, r, q)) { InstanceServiceSelectsItsPods(env, r, p.obs.name, q, labels); }
    if Selects(wanted, labels) { InstanceServiceSelectsNoOther(env, r, p.obs.name, labels); }
  }

  /** On a cluster that matches the plan the writer Service selects a pod of the cluster if and only if its instance is in
      the planned writers, and likewise the reader. */
  lemma StoredRoleServiceSelects(w: World, env: Renderer, r: Resource, plan: Output, role: Role, pod: string)
    requires Matches(w, env, r, plan)
    requires pod in w.pods && Managed(w.pods[pod].labels, env.clusterLabel(r.name)) && Label(w.pods[pod].labels, InstanceKey) != ""
    ensures var n := RoleServiceName(env, r, role);
            n in w.services && (Selects(w.services[n], w.pods[pod].labels) <==>
                                  Label(w.pods[pod].labels, InstanceKey) in if role.Reader? then plan.membership.reader else plan.membership.writer)
  {
    var n, labels := RoleServiceName(env, r, role), w.pods[pod].labels;
    assert RoleServiceHolds(w.services, env, r, role) && PodHolds(labels, plan);
    var selector, key := w.services[n].selector, if role.Reader? then ReaderKey else WriterKey;
    assert ManagedBy in selector && ClusterKey in selector && key in selector;
  }

  // ---------------------------------------------------------------- what an update leaves to the server

  /** Updating a stored Service keeps its cluster address and, when the type wants one, the node port of its port; a health
      check port is the server's to allocate again, as no traffic policy is asked for. */
  lemma UpdateKeepsAllocated(stored: Service, desired: Service, i: nat)
    requires Fresh(desired) && i < |stored.ports|
    requires stored.ports[i].name == desired.ports[0].name != "" && stored.ports[i].nodePort != 0
    requires forall j :: i < j < |stored.ports| && stored.ports[j].name == desired.ports[0].name ==> stored.ports[j].nodePort == 0
    ensures var after := CopyService(stored, desired);
            && (stored.given.clusterIP != "" ==> after.given.clusterIP == stored.given.clusterIP && after.given.clusterIPs == stored.given.clusterIPs)
            && (stored.given.families != [] ==> after.given.families == stored.given.families)
            && (stored.given.familyPolicy.Some? ==> after.given.familyPolicy == stored.given.familyPolicy)
            && (stored.given.loadBalancerClass.Some? ==> after.given.loadBalancerClass == stored.given.loadBalancerClass)
            && after.given.healthCheckNodePort == 0
            && after.ports == [desired.ports[0].(nodePort := if desired.kind == "NodePort" || desired.kind == "LoadBalancer" then stored.ports[i].nodePort else 0)]
            && after == desired.(ports := after.ports, given := after.given)
  {
    NodePortFound(stored.ports, KeyOf(desired.ports[0]), i);
    KeepOneNodePort(desired.ports[0], stored.ports);
    assert desired.ports == [desired.ports[0]];
  }

  lemma {:induction false} NodePortFound(ports: seq<Port>, key: PortKey, i: nat)
    requires i < |ports| && KeyOf(ports[i]) == key && ports[i].nodePort != 0
    requires forall j :: i < j < |ports| && KeyOf(ports[j]) == key ==> ports[j].nodePort == 0
    ensures NodePortFor(ports, key) == ports[i].nodePort
  {
    if i < |ports| - 1 { NodePortFound(ports[..|ports| - 1], key, i); }
  }

  lemma RoleLabel(env: Renderer, r: Resource, p: InstancePlan, stored: Labels)
    ensures Label(KeepDbi(stored, RenderDeployment(env, r, p).labels), RoleKey) == if p.obs.role.Writer? then "writer" else "reader"
  {
  }

  lemma PutLabels(w: World, env: Renderer, r: Resource, plan: Output, p: InstancePlan)
    requires NoDup(ServiceNames(env, r, plan)) && p in Active(plan.instances)
    ensures var n, put := InstanceName(env, r, p.obs.name), PutDeployments(w, env, r, plan);
            n in put && put[n].labels == KeepDbi(if n in w.deployments then w.deployments[n].labels else map[], RenderDeployment(env, r, p).labels)
  {
    var n, wanted := InstanceName(env, r, p.obs.name), RenderDeployment(env, r, p);
    var k := IndexOf(env, r, plan, p);
    PrefixNoDup(env, r, plan);
    PutAllAt(w.deployments, ObjectNames(env, r, plan), WantedDeployments(env, r, plan), CopyDeployment, Accept, k);
    if n in w.deployments { CopiedDeployment(w.deployments[n], wanted); } else { assert Trim(Label(map[], DbiKey)) == ""; }
  }

  lemma RestartKeepsLabels(deployments: map<string, Deployment>, names: set<string>, token: string, n: string)
    requires n in deployments
    ensures var after := Restarted(deployments, names, token);
            n in after && after[n].labels == deployments[n].labels && after[n].annotations == deployments[n].annotations
  {
  }

  lemma CopiedAnnotations(stored: Deployment, wanted: Deployment)
    ensures CopyDeployment(stored, wanted).annotations == KeepDbi(stored.annotations, wanted.annotations)
  {
  }

  lemma RenderedAnnotations(env: Renderer, r: Resource, p: InstancePlan, stored: Labels)
    ensures var kept := KeepDbi(stored, RenderDeployment(env, r, p).annotations);
            && Label(kept, ClusterName) == r.name
            && Trim(Label(kept, DbiKey)) == if Trim(p.obs.dbi) != "" then Trim(p.obs.dbi) else Trim(Label(stored, DbiKey))
  {
    var annotations := RenderDeployment(env, r, p).annotations;
    TrimIdempotent(p.obs.dbi);
    TrimIdempotent(Label(stored, DbiKey));
    if Trim(p.obs.dbi) == "" { assert DbiKey !in annotations; } else { assert annotations[DbiKey] == Trim(p.obs.dbi); }
  }

  lemma PutAnnotations(w: World, env: Renderer, r: Resource, plan: Output, p: InstancePlan)
    requires NoDup(ServiceNames(env, r, plan)) && p in Active(plan.instances)
    ensures var n, put := InstanceName(env, r, p.obs.name), PutDeployments(w, env, r, plan);
            n in put && put[n].annotations == KeepDbi(if n in w.deployments then w.deployments[n].annotations else map[], RenderDeployment(env, r, p).annotations)
  {
    var n, wanted := InstanceName(env, r, p.obs.name), RenderDeployment(env, r, p);
    var k := IndexOf(env, r, plan, p);
    PrefixNoDup(env, r, plan);
    PutAllAt(w.deployments, ObjectNames(env, r, plan), WantedDeployments(env, r, plan), CopyDeployment, Accept, k);
    if n in w.deployments { CopiedAnnotations(w.deployments[n], wanted); } else { assert Trim(Label(map[], DbiKey)) == ""; }
  }

  /** After an apply the Deployment and the ConfigMap of an instance are annotated with the cluster's name, and the
      Deployment with the identity of the physical instance as it is labelled. */
  lemma AnnotationsAfterApply(w: World, env: Renderer, r: Resource, plan: Output, removed: set<string>, p: InstancePlan)
    requires DistinctNames(env, r, plan, removed) && p in Active(plan.instances)
    ensures var n, after := InstanceName(env, r, p.obs.name), ApplyPlan(w, env, r, plan, removed);
            && n in after.configMaps && Label(after.configMaps[n].annotations, ClusterName) == r.name
            && n in after.deployments && Label(after.deployments[n].annotations, ClusterName) == r.name
            && Trim(Label(after.deployments[n].annotations, DbiKey)) ==
               if Trim(p.obs.dbi) != "" then Trim(p.obs.dbi) else if n in w.deployments then Trim(Label(w.deployments[n].annotations, DbiKey)) else ""
  {
    var n := InstanceName(env, r, p.obs.name);
    AnnotatedConfigMap(w, env, r, plan, removed, p);
    PutAnnotations(w, env, r, plan, p);
    StoredLabels(w, env, r, plan, removed, p);
    RenderedAnnotations(env, r, p, if n in w.deployments then w.deployments[n].annotations else map[]);
  }

  lemma AnnotatedConfigMap(w: World, env: Renderer, r: Resource, plan: Output, removed: set<string>, p: InstancePlan)
    requires DistinctNames(env, r, plan, removed) && p in Active(plan.instances)
    ensures var n, after := InstanceName(env, r, p.obs.name), ApplyConfigMaps(w, env, r, plan, removed);
            n in after && Label(after[n].annotations, ClusterName) == r.name
  {
    var k := IndexOf(env, r, plan, p);
    PrefixNoDup(env, r, plan);
    ConfigMapAfter(w, env, r, plan, removed, p);
    PutAllAt(w.configMaps, ObjectNames(env, r, plan), WantedConfigMaps(env, r, plan), CopyConfigMap, Same, k);
  }

  lemma StoredLabels(w: World, env: Renderer, r: Resource, plan: Output, removed: set<string>, p: InstancePlan)
    requires DistinctNames(env, r, plan, removed) && p in Active(plan.instances)
    ensures var n, after, put := InstanceName(env, r, p.obs.name), ApplyDeployments(w, env, r, plan, removed), PutDeployments(w, env, r, plan);
            n in after && n in put && after[n].labels == put[n].labels && after[n].annotations == put[n].annotations
  {
    var n, left := InstanceName(env, r, p.obs.name), PutDeployments(w, env, r, plan) - Gone(env, r, plan, removed);
    var k := IndexOf(env, r, plan, p);
    PrefixNoDup(env, r, plan);
    PutLabels(w, env, r, plan, p);
    assert n in left;
    RestartKeepsLabels(left, RestartNames(env, r, plan), TokenFor(env, r, plan), n);
  }

  /** After an apply the Deployment of an instance is labelled with its role, and with the identity of the physical instance
      as observed or, when that is not known now, as it was. */
  lemma LabelsAfterApply(w: World, env: Renderer, r: Resource, plan: Output, removed: set<string>, p: InstancePlan)
    requires DistinctNames(env, r, plan, removed) && p in Active(plan.instances)
    ensures var n, after := InstanceName(env, r, p.obs.name), ApplyPlan(w, env, r, plan, removed).deployments;
            && n in after
            && Label(after[n].labels, RoleKey) == (if p.obs.role.Writer? then "writer" else "reader")
            && Trim(Label(after[n].labels, DbiKey)) ==
               if Trim(p.obs.dbi) != "" then Trim(p.obs.dbi) else if n in w.deployments then Trim(Label(w.deployments[n].labels, DbiKey)) else ""
  {
    var n := InstanceName(env, r, p.obs.name);
    var stored := if n in w.deployments then w.deployments[n].labels else map[];
    StoredLabels(w, env, r, plan, removed, p);
    PutLabels(w, env, r, plan, p);
    RoleLabel(env, r, p, stored);
    RenderedDbi(env, r, p);
    TrimIdempotent(Label(stored, DbiKey));
  }

  // ---------------------------------------------------------------- writer restarts, by the policy set

  /** A change of writers restarts the old and the new writers by default, those and every active instance when all are to
      restart, and nobody otherwise; a first writer or an unchanged one restarts nobody. */
  lemma RestartedByPolicy(r: Resource, plan: Output, n: string)
    requires NoDup(r.status.lastApplied.writer) && NoDup(plan.membership.writer)
    ensures var before, after, policy := r.status.lastApplied.writer, plan.membership.writer, r.spec.writerChange;
            var change := before != [] && !(forall x :: x in before <==> x in after);
            n in RestartTargets(r, plan) <==>
            && change
            && (|| ((policy == UnsetChange || policy == RestartWriters) && (n in before || n in after))
                || (policy == RestartAll && (n in before || exists p :: p in plan.instances && !p.disabled && p.obs.name == n)))
  {
    var before, after := r.status.lastApplied.writer, plan.membership.writer;
    SameLengthDuplicates(before, after);
    if Elements(before) == Elements(after) {
      forall x ensures x in before <==> x in after { assert x in Elements(before) <==> x in Elements(after); }
    }
    assert (forall x :: x in before <==> x in after) ==> Elements(before) == Elements(after);
  }
}
