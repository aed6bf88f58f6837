/** The applier and the drift detector agree, and an apply can be repeated from wherever it stopped. */
module ApplyLaws {
  import opened Text
  import opened Domain
  import opened Planner
  import opened Objects
  import opened Relabel
  import opened Apply

  // ---------------------------------------------------------------- copying settles at once

  lemma KeepDbiTwice(stored: Labels, desired: Labels)
    ensures KeepDbi(KeepDbi(stored, desired), desired) == KeepDbi(stored, desired)
    ensures KeepDbi(desired, desired) == desired
    ensures !DbiDrifted(KeepDbi(stored, desired), desired)
  {
    TrimIdempotent(Label(stored, DbiKey));
  }

  lemma TokenOfSet(d: Deployment, token: string)
    ensures Token(SetToken(d, token)) == token
    ensures token != "" && Token(d) == token ==> SetToken(d, token) == d
    ensures Token(Accept(d)) == Token(d)
  {
  }

  lemma DeploymentSettles(stored: Deployment, desired: Deployment)
    ensures CopyDeployment(CopyDeployment(stored, desired), desired) == CopyDeployment(stored, desired)
    ensures CopyDeployment(Accept(desired), desired) == Accept(desired)
  {
    KeepDbiTwice(stored.labels, desired.labels);
    KeepDbiTwice(stored.annotations, desired.annotations);
    var d := desired.(labels := KeepDbi(stored.labels, desired.labels), annotations := KeepDbi(stored.annotations, desired.annotations));
    TokenOfSet(d, Token(stored));
    TokenOfSet(SetToken(d, Token(stored)), Token(stored));
    TokenOfSet(d, Token(desired));
    TokenOfSet(desired, Token(desired));
  }

  /** A Service as it is rendered: one port, nothing allocated. */
  ghost predicate Fresh(d: Service) {
    |d.ports| == 1 && d.ports[0].nodePort == 0 && d.given == NOTHING_ALLOCATED && d.trafficPolicy == ""
  }

  lemma KeepOneNodePort(p: Port, stored: seq<Port>)
    requires p.nodePort == 0
    ensures KeepNodePorts([p], stored) == [p.(nodePort := NodePortFor(stored, KeyOf(p)))]
    ensures KeepNodePorts([p], [p.(nodePort := NodePortFor(stored, KeyOf(p)))]) == KeepNodePorts([p], stored)
  {
    var kept := p.(nodePort := NodePortFor(stored, KeyOf(p)));
    assert KeyOf(kept) == KeyOf(p);
    assert [kept][..0] == [] && NodePortFor([], KeyOf(p)) == 0;
    assert NodePortFor([kept], KeyOf(p)) == kept.nodePort;
  }

  lemma ServiceSettles(stored: Service, desired: Service)
    requires Fresh(desired)
    ensures CopyService(CopyService(stored, desired), desired) == CopyService(stored, desired)
    ensures CopyService(desired, desired) == desired
    ensures !ServiceDrifted(CopyService(stored, desired), desired)
  {
    var p := desired.ports[0];
    assert desired.ports == [p];
    KeepOneNodePort(p, stored.ports);
    KeepOneNodePort(p, desired.ports);
    assert [p][..0] == [] && NodePortFor([p], KeyOf(p)) == 0;
  }

  lemma WantedServicesFresh(env: Renderer, r: Resource, plan: Output)
    ensures forall d :: d in WantedServices(env, r, plan) ==> Fresh(d)
  {
    var inst := InstanceServices(env, r, plan);
    forall d | d in WantedServices(env, r, plan) ensures Fresh(d) {
      if d in inst {
        var i :| 0 <= i < |inst| && inst[i] == d;
      }
    }
  }

  lemma AllSettle(env: Renderer, r: Resource, plan: Output)
    ensures Settles(CopyConfigMap, Same, WantedConfigMaps(env, r, plan))
    ensures Settles(CopyDeployment, Accept, WantedDeployments(env, r, plan))
    ensures Settles(CopyService, Same, WantedServices(env, r, plan))
  {
    WantedServicesFresh(env, r, plan);
    forall d, s | d in WantedServices(env, r, plan) ensures CopyService(CopyService(s, d), d) == CopyService(s, d) {
      ServiceSettles(s, d);
    }
    forall d | d in WantedServices(env, r, plan) ensures CopyService(Same(d), d) == Same(d) { ServiceSettles(d, d); }
    forall d, s ensures CopyDeployment(CopyDeployment(s, d), d) == CopyDeployment(s, d) { DeploymentSettles(s, d); }
    forall d ensures CopyDeployment(Accept(d), d) == Accept(d) { DeploymentSettles(d, d); }
  }

  // ---------------------------------------------------------------- the detector is quiet after an apply

  lemma PrefixNoDup(env: Renderer, r: Resource, plan: Output)
    requires NoDup(ServiceNames(env, r, plan))
    ensures NoDup(ObjectNames(env, r, plan))
    ensures forall n :: n in ObjectNames(env, r, plan) ==> n in ServiceNames(env, r, plan) && n !in RoleNames(env, r)
  {
    var a, b := ObjectNames(env, r, plan), RoleNames(env, r);
    forall i, j | 0 <= i < j < |a| ensures a[i] != a[j] { assert (a + b)[i] != (a + b)[j]; }
    forall n | n in a ensures n !in b {
      var i :| 0 <= i < |a| && a[i] == n;
      forall j | 0 <= j < |b| ensures b[j] != n { assert (a + b)[i] != (a + b)[|a| + j]; }
    }
  }

  lemma {:induction false} ActiveSpec(plans: seq<InstancePlan>, p: InstancePlan)
    ensures p in Active(plans) <==> p in plans && !p.disabled
  {
    if plans != [] {
      ActiveSpec(plans[..|plans| - 1], p);
      assert plans == plans[..|plans| - 1] + [plans[|plans| - 1]];
    }
  }

  lemma IndexOf(env: Renderer, r: Resource, plan: Output, p: InstancePlan) returns (k: nat)
    requires p in Active(plan.instances)
    ensures k < |Active(plan.instances)| && Active(plan.instances)[k] == p
    ensures ObjectNames(env, r, plan)[k] == InstanceName(env, r, p.obs.name) && InstanceName(env, r, p.obs.name) in ObjectNames(env, r, plan)
  {
    k :| 0 <= k < |Active(plan.instances)| && Active(plan.instances)[k] == p;
    assert ObjectNames(env, r, plan)[k] in ObjectNames(env, r, plan);
  }

  lemma ConfigMapManaged(env: Renderer, r: Resource, o: Observation)
    ensures Managed(RenderConfigMap(env, r, o).labels, env.clusterLabel(r.name))
  {
  }

  lemma DeploymentManaged(env: Renderer, r: Resource, p: InstancePlan, stored: Labels)
    ensures Managed(KeepDbi(stored, RenderDeployment(env, r, p).labels), env.clusterLabel(r.name))
  {
  }

  lemma InstanceServiceManaged(env: Renderer, r: Resource, name: string)
    ensures Managed(RenderInstanceService(env, r, name).labels, env.clusterLabel(r.name))
    ensures Label(RenderInstanceService(env, r, name).labels, InstanceKey) == name
  {
  }

  lemma RoleServiceManaged(env: Renderer, r: Resource, role: Role)
    ensures Managed(RenderRoleService(env, r, role).labels, env.clusterLabel(r.name))
  {
  }

  lemma RenderedManaged(env: Renderer, r: Resource, p: InstancePlan, stored: Labels)
    ensures Managed(RenderConfigMap(env, r, p.obs).labels, env.clusterLabel(r.name))
    ensures Managed(KeepDbi(stored, RenderDeployment(env, r, p).labels), env.clusterLabel(r.name))
    ensures Managed(RenderInstanceService(env, r, p.obs.name).labels, env.clusterLabel(r.name))
    ensures forall role :: Managed(RenderRoleService(env, r, role).labels, env.clusterLabel(r.name))
    ensures Label(RenderInstanceService(env, r, p.obs.name).labels, InstanceKey) == p.obs.name
  {
    ConfigMapManaged(env, r, p.obs);
    DeploymentManaged(env, r, p, stored);
    InstanceServiceManaged(env, r, p.obs.name);
    forall role { RoleServiceManaged(env, r, role); }
  }

  lemma ConfigMapAfter(w: World, env: Renderer, r: Resource, plan: Output, removed: set<string>, p: InstancePlan)
    requires DistinctNames(env, r, plan, removed) && p in Active(plan.instances)
    ensures ConfigMapQuiet(ApplyConfigMaps(w, env, r, plan, removed), env, r, p)
  {
    var k := IndexOf(env, r, plan, p);
    PrefixNoDup(env, r, plan);
    PutAllAt(w.configMaps, ObjectNames(env, r, plan), WantedConfigMaps(env, r, plan), CopyConfigMap, Same, k);
    RenderedManaged(env, r, p, map[]);
  }

  /** What the stored deployment of an active instance is after the put: never drifted. */
  lemma PutDeploymentQuiet(w: World, env: Renderer, r: Resource, plan: Output, p: InstancePlan)
    requires NoDup(ServiceNames(env, r, plan)) && p in Active(plan.instances)
    ensures var n, after := InstanceName(env, r, p.obs.name), PutDeployments(w, env, r, plan);
            n in after && Managed(after[n].labels, env.clusterLabel(r.name)) && !DeploymentDrifted(after[n], RenderDeployment(env, r, p))
  {
    var k := IndexOf(env, r, plan, p);
    var n, wanted := InstanceName(env, r, p.obs.name), RenderDeployment(env, r, p);
    PrefixNoDup(env, r, plan);
    PutAllAt(w.deployments, ObjectNames(env, r, plan), WantedDeployments(env, r, plan), CopyDeployment, Accept, k);
    var stored := if n in w.deployments then w.deployments[n] else Accept(wanted);
    DeploymentSettles(stored, wanted);
    CopiedDeployment(stored, wanted);
    RenderedManaged(env, r, p, stored.labels);
  }

  lemma CopiedDeployment(stored: Deployment, wanted: Deployment)
    ensures !DeploymentDrifted(CopyDeployment(stored, wanted), wanted)
    ensures CopyDeployment(stored, wanted).labels == KeepDbi(stored.labels, wanted.labels)
  {
    KeepDbiTwice(stored.labels, wanted.labels);
    var d := wanted.(labels := KeepDbi(stored.labels, wanted.labels), annotations := KeepDbi(stored.annotations, wanted.annotations));
    AcceptedIsNormal(d, Token(stored));
    AcceptedIsNormal(SetToken(d, Token(stored)), "");
  }

  lemma DeploymentAfter(w: World, env: Renderer, r: Resource, plan: Output, removed: set<string>, p: InstancePlan)
    requires DistinctNames(env, r, plan, removed) && p in Active(plan.instances)
    ensures DeploymentQuiet(ApplyDeployments(w, env, r, plan, removed), env, r, p)
  {
    var k := IndexOf(env, r, plan, p);
    var n := InstanceName(env, r, p.obs.name);
    PrefixNoDup(env, r, plan);
    PutDeploymentQuiet(w, env, r, plan, p);
    AcceptedIsNormal(PutDeployments(w, env, r, plan)[n], TokenFor(env, r, plan));
  }

  lemma ServiceAfter(w: World, env: Renderer, r: Resource, plan: Output, removed: set<string>, k: nat)
    requires DistinctNames(env, r, plan, removed) && k < |ServiceNames(env, r, plan)|
    requires |WantedServices(env, r, plan)| == |ServiceNames(env, r, plan)|
    requires Managed(WantedServices(env, r, plan)[k].labels, env.clusterLabel(r.name))
    requires ServiceNames(env, r, plan)[k] in RoleNames(env, r) || Label(WantedServices(env, r, plan)[k].labels, InstanceKey) != ""
    ensures ServiceQuiet(ApplyServices(w, env, r, plan, removed), env, r, ServiceNames(env, r, plan)[k], WantedServices(env, r, plan)[k])
  {
    var n, wanted := ServiceNames(env, r, plan)[k], WantedServices(env, r, plan)[k];
    PutAllAt(w.services, ServiceNames(env, r, plan), WantedServices(env, r, plan), CopyService, Same, k);
    WantedServicesFresh(env, r, plan);
    assert wanted in WantedServices(env, r, plan) && n in ServiceNames(env, r, plan);
    ServiceSettles(if n in w.services then w.services[n] else wanted, wanted);
    assert PutServices(w, env, r, plan)[n].labels == wanted.labels;
  }

  lemma ServicesAfter(w: World, env: Renderer, r: Resource, plan: Output, removed: set<string>)
    requires DistinctNames(env, r, plan, removed)
    ensures ServicesQuiet(ApplyServices(w, env, r, plan, removed), env, r, plan)
  {
    var after := ApplyServices(w, env, r, plan, removed);
    forall p | p in Active(plan.instances)
      ensures ServiceQuiet(after, env, r, InstanceName(env, r, p.obs.name), RenderInstanceService(env, r, p.obs.name))
    {
      var k := IndexOf(env, r, plan, p);
      RenderedManaged(env, r, p, map[]);
      assert WantedServices(env, r, plan)[k] == RenderInstanceService(env, r, p.obs.name);
      ServiceAfter(w, env, r, plan, removed, k);
    }
    RoleServicesAfter(w, env, r, plan, removed);
    forall n | n in after ensures !StaleRole(env, r, n, after[n]) {
      assert after[n] == PutServices(w, env, r, plan)[n];
    }
  }

  lemma RoleServicesAfter(w: World, env: Renderer, r: Resource, plan: Output, removed: set<string>)
    requires DistinctNames(env, r, plan, removed)
    ensures var after := ApplyServices(w, env, r, plan, removed);
            && ServiceQuiet(after, env, r, RoleServiceName(env, r, Writer), RenderRoleService(env, r, Writer))
            && ServiceQuiet(after, env, r, RoleServiceName(env, r, Reader), RenderRoleService(env, r, Reader))
  {
    var k := |Active(plan.instances)|;
    var names, wanted := ServiceNames(env, r, plan), WantedServices(env, r, plan);
    assert names[k] == RoleServiceName(env, r, Writer) && names[k + 1] == RoleServiceName(env, r, Reader);
    assert wanted[k] == RenderRoleService(env, r, Writer) && wanted[k + 1] == RenderRoleService(env, r, Reader);
    assert names[k] in RoleNames(env, r) && names[k + 1] in RoleNames(env, r);
    ServiceAfter(w, env, r, plan, removed, k);
    ServiceAfter(w, env, r, plan, removed, k + 1);
  }

  lemma PodsAfter(pods: Pods, cluster: string, t: Targets)
    ensures PodsQuiet(Relabelled(pods, cluster, t), cluster, t)
  {
    EndsExact(pods, cluster, t);
    var after := Relabelled(pods, cluster, t);
    assert forall p :: p in after && Managed(after[p].labels, cluster) ==> p in ManagedPods(after, cluster);
  }

  /** After an apply the detector reports no change for the same plan. */
  lemma QuietAfterApply(w: World, env: Renderer, r: Resource, plan: Output, removed: set<string>)
    requires DistinctNames(env, r, plan, removed)
    ensures !NeedsApply(ApplyPlan(w, env, r, plan, removed), env, r, plan)
  {
    forall p | p in Active(plan.instances) ensures ConfigMapQuiet(ApplyConfigMaps(w, env, r, plan, removed), env, r, p) {
      ConfigMapAfter(w, env, r, plan, removed, p);
    }
    forall p | p in Active(plan.instances) ensures DeploymentQuiet(ApplyDeployments(w, env, r, plan, removed), env, r, p) {
      DeploymentAfter(w, env, r, plan, removed, p);
    }
    ServicesAfter(w, env, r, plan, removed);
    PodsAfter(w.pods, env.clusterLabel(r.name), TargetsOf(plan));
  }
}
