/** Object names inside one cluster, as the operator renders them: when the names of a plan are distinct, and an instance
    whose name is taken by a role Service. */
module Naming {
  import opened Text
  import opened Domain
  import opened Planner
  import opened Objects
  import opened Relabel
  import opened Apply
  import opened DnsLabel

  /** The renderer names objects as safeDNSLabel does. */
  ghost predicate NamesByLabel(env: Renderer, hash: string -> string) {
    IsDigest(hash) && forall c, n :: env.objectName(c, n) == SafeLabel(hash, [c, n])
  }

  function RoleServiceText(r: Resource, role: Role): string { if RoleSpec(r, role).name == "" then RoleText(role) else RoleSpec(r, role).name }

  /** An instance that is named like a role Service shares its object name, so no plan that wants it has distinct
      names: its own Service and the role Service overwrite each other. */
  lemma NamedLikeRole(env: Renderer, r: Resource, plan: Output, removed: set<string>, p: InstancePlan, role: Role)
    requires p in Active(plan.instances) && p.obs.name == RoleServiceText(r, role)
    ensures InstanceName(env, r, p.obs.name) == RoleServiceName(env, r, role) && !DistinctNames(env, r, plan, removed)
  {
    var k :| 0 <= k < |Active(plan.instances)| && Active(plan.instances)[k] == p;
    var n, names := |Active(plan.instances)|, ServiceNames(env, r, plan);
    assert names[k] == InstanceName(env, r, p.obs.name);
    assert names[if role.Writer? then n else n + 1] == RoleServiceName(env, r, role);
  }

  /** A name that needs no normalising and fits with the cluster's. */
  ghost predicate WellFormed(cluster: string, n: string) { Tight(n) && |cluster| + 1 + |n| <= MAX_LENGTH }

  lemma NameIs(env: Renderer, hash: string -> string, cluster: string, n: string)
    requires NamesByLabel(env, hash) && Tight(cluster) && WellFormed(cluster, n)
    ensures env.objectName(cluster, n) == cluster + "-" + n
  {
    WellFormedName(hash, cluster, n);
  }

  lemma NamesDiffer(env: Renderer, hash: string -> string, cluster: string, a: string, b: string)
    requires NamesByLabel(env, hash) && Tight(cluster) && WellFormed(cluster, a) && WellFormed(cluster, b)
    ensures env.objectName(cluster, a) == env.objectName(cluster, b) <==> a == b
  {
    NameIs(env, hash, cluster, a);
    NameIs(env, hash, cluster, b);
    var l, r := cluster + "-" + a, cluster + "-" + b;
    assert l[|cluster| + 1..] == a && r[|cluster| + 1..] == b;
  }

  /** The instance names a plan and its removals use, in the order of the Services, roles last. */
  function ServiceTexts(r: Resource, plan: Output): seq<string> {
    Map(PlanName, Active(plan.instances)) + [RoleServiceText(r, Writer), RoleServiceText(r, Reader)]
  }

  ghost predicate GoneText(plan: Output, removed: set<string>, n: string) {
    n in removed || exists p :: p in plan.instances && p.disabled && p.obs.name == n
  }

  /** Well-formed instance and Service names that are distinct as texts give distinct object names: the condition every
      statement about an apply asks for. */
  lemma DistinctNamesHold(env: Renderer, hash: string -> string, r: Resource, plan: Output, removed: set<string>)
    requires NamesByLabel(env, hash) && Tight(r.name)
    requires forall n :: n in ServiceTexts(r, plan) ==> WellFormed(r.name, n)
    requires forall n :: GoneText(plan, removed, n) ==> WellFormed(r.name, n)
    requires NoDup(ServiceTexts(r, plan)) && forall n :: n in ServiceTexts(r, plan) ==> !GoneText(plan, removed, n)
    ensures DistinctNames(env, r, plan, removed)
  {
    var names, texts := ServiceNames(env, r, plan), ServiceTexts(r, plan);
    NamesOfTexts(env, r, plan);
    forall i, j | 0 <= i < j < |names| ensures names[i] != names[j] {
      assert texts[i] in texts && texts[j] in texts;
      NamesDiffer(env, hash, r.name, texts[i], texts[j]);
    }
    forall n | n in names ensures n !in Gone(env, r, plan, removed) {
      var i :| 0 <= i < |names| && names[i] == n;
      assert texts[i] in texts;
      forall g | GoneText(plan, removed, g) ensures InstanceName(env, r, g) != n { NamesDiffer(env, hash, r.name, texts[i], g); }
      GoneHasText(env, r, plan, removed, n);
    }
    forall p | p in Active(plan.instances) ensures p.obs.name != "" {
      var k :| 0 <= k < |Active(plan.instances)| && Active(plan.instances)[k] == p;
      assert texts[k] == p.obs.name && texts[k] in texts;
    }
  }

  lemma NamesOfTexts(env: Renderer, r: Resource, plan: Output)
    ensures |ServiceNames(env, r, plan)| == |ServiceTexts(r, plan)|
    ensures forall i :: 0 <= i < |ServiceTexts(r, plan)| ==> ServiceNames(env, r, plan)[i] == env.objectName(r.name, ServiceTexts(r, plan)[i])
  {
  }

  lemma GoneHasText(env: Renderer, r: Resource, plan: Output, removed: set<string>, n: string)
    ensures n in Gone(env, r, plan, removed) ==> exists g :: GoneText(plan, removed, g) && InstanceName(env, r, g) == n
  {
    if n in Gone(env, r, plan, removed) {
      if g :| g in removed && InstanceName(env, r, g) == n {
        assert GoneText(plan, removed, g);
      } else {
        var p :| p in plan.instances && p.disabled && InstanceName(env, r, p.obs.name) == n;
        assert GoneText(plan, removed, p.obs.name);
      }
    }
  }
}
