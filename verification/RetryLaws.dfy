/** Calling the apply again: on a quiet cluster it changes nothing that is compared, on what an interrupted apply left it
    ends where an undisturbed one ends, and it sets each restart token at most once.  Whether a retried reconcile does
    call it again is the subject of RetriedReconcile. */
module RetryLaws {
  import opened Text
  import opened Domain
  import opened Planner
  import opened Objects
  import opened Relabel
  import opened Apply
  import opened ApplyLaws

  // ---------------------------------------------------------------- a quiet detector means nothing to do

  predicate SameDeployment(a: Deployment, b: Deployment) {
    && Trim(Label(a.labels, DbiKey)) == Trim(Label(b.labels, DbiKey))
    && a.replicas == b.replicas && a.strategy == b.strategy && Normal(a.template) == Normal(b.template)
  }

  /** Every field the detector compares, of every object the plan wants, is the same in both worlds. */
  ghost predicate SameCompared(a: World, b: World, env: Renderer, r: Resource, p: InstancePlan) {
    var n := InstanceName(env, r, p.obs.name);
    && n in a.configMaps && n in b.configMaps && n in a.deployments && n in b.deployments && n in a.services && n in b.services
    && !ConfigMapDrifted(a.configMaps[n], b.configMaps[n])
    && SameDeployment(a.deployments[n], b.deployments[n])
    && !ServiceDrifted(a.services[n], b.services[n])
  }

  lemma DriftTransitive(a: Service, b: Service, wanted: Service)
    requires !ServiceDrifted(a, wanted) && !ServiceDrifted(b, wanted)
    ensures !ServiceDrifted(a, b)
  {
  }

  lemma SameDbi(w: World, env: Renderer, r: Resource, plan: Output, removed: set<string>, p: InstancePlan)
    requires DistinctNames(env, r, plan, removed) && p in Active(plan.instances) && DeploymentQuiet(w.deployments, env, r, p)
    ensures var n, after := InstanceName(env, r, p.obs.name), ApplyDeployments(w, env, r, plan, removed);
            n in after && Trim(Label(after[n].labels, DbiKey)) == Trim(Label(w.deployments[n].labels, DbiKey))
  {
    var n, wanted := InstanceName(env, r, p.obs.name), RenderDeployment(env, r, p);
    var k := IndexOf(env, r, plan, p);
    PrefixNoDup(env, r, plan);
    DeploymentAfter(w, env, r, plan, removed, p);
    PutAllAt(w.deployments, ObjectNames(env, r, plan), WantedDeployments(env, r, plan), CopyDeployment, Accept, k);
    CopiedDeployment(w.deployments[n], wanted);
    TrimIdempotent(Label(w.deployments[n].labels, DbiKey));
    assert ApplyDeployments(w, env, r, plan, removed)[n].labels == KeepDbi(w.deployments[n].labels, wanted.labels);
  }

  lemma QuietInstance(w: World, env: Renderer, r: Resource, plan: Output, removed: set<string>, p: InstancePlan)
    requires DistinctNames(env, r, plan, removed) && p in Active(plan.instances)
    requires !NeedsApply(w, env, r, plan) && !NeedsApply(ApplyPlan(w, env, r, plan, removed), env, r, plan)
    ensures SameCompared(w, ApplyPlan(w, env, r, plan, removed), env, r, p)
  {
    var n, after := InstanceName(env, r, p.obs.name), ApplyPlan(w, env, r, plan, removed);
    assert ConfigMapQuiet(w.configMaps, env, r, p) && ConfigMapQuiet(after.configMaps, env, r, p);
    assert DeploymentQuiet(w.deployments, env, r, p) && DeploymentQuiet(after.deployments, env, r, p);
    SameDbi(w, env, r, plan, removed, p);
    DriftTransitive(w.services[n], after.services[n], RenderInstanceService(env, r, p.obs.name));
  }

  lemma QuietRole(w: World, after: World, env: Renderer, r: Resource, plan: Output, role: Role)
    requires !NeedsApply(w, env, r, plan) && !NeedsApply(after, env, r, plan)
    ensures var n := RoleServiceName(env, r, role);
            n in w.services && n in after.services && !ServiceDrifted(w.services[n], after.services[n])
  {
    var n := RoleServiceName(env, r, role);
    assert ServiceQuiet(w.services, env, r, n, RenderRoleService(env, r, role));
    assert ServiceQuiet(after.services, env, r, n, RenderRoleService(env, r, role));
    DriftTransitive(w.services[n], after.services[n], RenderRoleService(env, r, role));
  }

  /** An apply leaves a pod alone if and only if it is not managed or its membership labels are exact. */
  lemma UntouchedPodIff(pods: Pods, cluster: string, t: Targets, p: string)
    requires p in pods
    ensures Relabelled(pods, cluster, t)[p] == pods[p] <==> Managed(pods[p].labels, cluster) ==> LabelsExact(pods[p].labels, t)
  {
    ExactIsExact(pods[p].labels, t);
  }

  /** When the detector is quiet, applying anyway leaves every compared field of every wanted object alone. */
  lemma QuietMeansUnchanged(w: World, env: Renderer, r: Resource, plan: Output, removed: set<string>)
    requires DistinctNames(env, r, plan, removed) && !NeedsApply(w, env, r, plan)
    ensures var after := ApplyPlan(w, env, r, plan, removed);
            && (forall p :: p in Active(plan.instances) ==> SameCompared(w, after, env, r, p))
            && (forall role :: var n := RoleServiceName(env, r, role);
                  n in w.services && n in after.services && !ServiceDrifted(w.services[n], after.services[n]))
  {
    QuietAfterApply(w, env, r, plan, removed);
    forall p | p in Active(plan.instances) { QuietInstance(w, env, r, plan, removed, p); }
    forall role { QuietRole(w, ApplyPlan(w, env, r, plan, removed), env, r, plan, role); }
  }

  /** And every pod, except a managed pod without an instance label: that one the detector skips, and it is left alone if
      and only if it carries no membership label it should not. */
  lemma QuietMeansPodsUnchanged(pods: Pods, cluster: string, t: Targets, p: string)
    requires PodsQuiet(pods, cluster, t) && p in pods
    ensures Relabelled(pods, cluster, t)[p] == pods[p] <==>
            Managed(pods[p].labels, cluster) && Label(pods[p].labels, InstanceKey) == "" ==> LabelsExact(pods[p].labels, t)
  {
    UntouchedPodIff(pods, cluster, t, p);
  }

  // ---------------------------------------------------------------- interrupted applies converge

  /** Putting the same objects again onto a result that only lost other objects changes nothing. */
  lemma PutAgain<T(!new)>(m: map<string, T>, names: seq<string>, desired: seq<T>, copy: (T, T) -> T, create: T -> T)
    requires |names| == |desired| && NoDup(names)
    requires forall k :: 0 <= k < |names| ==> names[k] in m && copy(m[names[k]], desired[k]) == m[names[k]]
    ensures PutAll(m, names, desired, copy, create) == m
  {
    var again := PutAll(m, names, desired, copy, create);
    forall n ensures (n in again <==> n in m) && (n in m ==> n in again && again[n] == m[n]) {
      if n in names {
        var k :| 0 <= k < |names| && names[k] == n;
        PutAllAt(m, names, desired, copy, create, k);
      } else {
        PutAllOther(m, names, desired, copy, create, n);
      }
    }
    assert again.Keys == m.Keys;
  }

  /** An object that was just put is a fixed point of putting it. */
  lemma PutSettled<T(!new)>(m: map<string, T>, names: seq<string>, desired: seq<T>, copy: (T, T) -> T, create: T -> T, k: nat)
    requires |names| == |desired| && NoDup(names) && k < |names| && Settles(copy, create, desired)
    ensures var put := PutAll(m, names, desired, copy, create);
            names[k] in put && copy(put[names[k]], desired[k]) == put[names[k]]
  {
    PutAllAt(m, names, desired, copy, create, k);
    assert desired[k] in desired;
  }

  lemma PutAfterDeleting<T(!new)>(m: map<string, T>, names: seq<string>, desired: seq<T>, copy: (T, T) -> T, create: T -> T, deleted: set<string>)
    requires |names| == |desired| && NoDup(names) && Settles(copy, create, desired) && forall n :: n in names ==> n !in deleted
    ensures var left := PutAll(m, names, desired, copy, create) - deleted;
            PutAll(left, names, desired, copy, create) == left
  {
    var put := PutAll(m, names, desired, copy, create);
    var left := put - deleted;
    forall k | 0 <= k < |names| ensures names[k] in left && copy(left[names[k]], desired[k]) == left[names[k]] {
      PutSettled(m, names, desired, copy, create, k);
      assert names[k] in names;
    }
    PutAgain(left, names, desired, copy, create);
  }

  lemma DeletedTwice<T>(m: map<string, T>, deleted: set<string>, gone: set<string>)
    requires deleted <= gone
    ensures m - deleted - gone == m - gone
  {
  }

  lemma CutWritingConfig(w: World, env: Renderer, r: Resource, plan: Output, removed: set<string>, j: nat)
    requires DistinctNames(env, r, plan, removed) && j <= |ObjectNames(env, r, plan)|
    ensures var names, wanted := ObjectNames(env, r, plan), WantedConfigMaps(env, r, plan);
            PutAll(PutAll(w.configMaps, names[..j], wanted[..j], CopyConfigMap, Same), names, wanted, CopyConfigMap, Same) ==
            PutAll(w.configMaps, names, wanted, CopyConfigMap, Same)
  {
    AllSettle(env, r, plan);
    PrefixNoDup(env, r, plan);
    PutAllResumes(w.configMaps, ObjectNames(env, r, plan), WantedConfigMaps(env, r, plan), CopyConfigMap, Same, j);
  }

  lemma CutDeletingConfig(w: World, env: Renderer, r: Resource, plan: Output, removed: set<string>, deleted: set<string>)
    requires DistinctNames(env, r, plan, removed) && deleted <= Gone(env, r, plan, removed)
    ensures var names, wanted := ObjectNames(env, r, plan), WantedConfigMaps(env, r, plan);
            var put := PutAll(w.configMaps, names, wanted, CopyConfigMap, Same);
            PutAll(put - deleted, names, wanted, CopyConfigMap, Same) == put - deleted
  {
    AllSettle(env, r, plan);
    PrefixNoDup(env, r, plan);
    PutAfterDeleting(w.configMaps, ObjectNames(env, r, plan), WantedConfigMaps(env, r, plan), CopyConfigMap, Same, deleted);
  }

  lemma ConfigMapsConverge(m: map<string, ConfigMap>, w: World, env: Renderer, r: Resource, plan: Output, removed: set<string>)
    requires DistinctNames(env, r, plan, removed) && CutConfigMaps(m, w, env, r, plan, removed)
    ensures ApplyConfigMaps(w.(configMaps := m), env, r, plan, removed) == ApplyConfigMaps(w, env, r, plan, removed)
  {
    var names, wanted := ObjectNames(env, r, plan), WantedConfigMaps(env, r, plan);
    if j :| 0 <= j <= |names| && m == PutAll(w.configMaps, names[..j], wanted[..j], CopyConfigMap, Same) {
      CutWritingConfig(w, env, r, plan, removed, j);
    } else {
      var put := PutConfigMaps(w, env, r, plan);
      var deleted :| deleted <= Gone(env, r, plan, removed) && m == put - deleted;
      CutDeletingConfig(w, env, r, plan, removed, deleted);
      DeletedTwice(put, deleted, Gone(env, r, plan, removed));
    }
  }

  lemma WantedNotStale(w: World, env: Renderer, r: Resource, plan: Output, removed: set<string>, k: nat)
    requires DistinctNames(env, r, plan, removed) && k < |ServiceNames(env, r, plan)|
    ensures ServiceNames(env, r, plan)[k] !in StaleRoles(env, r, PutServices(w, env, r, plan))
  {
    var names, wanted, active := ServiceNames(env, r, plan), WantedServices(env, r, plan), Active(plan.instances);
    PutAllAt(w.services, names, wanted, CopyService, Same, k);
    assert PutServices(w, env, r, plan)[names[k]].labels == wanted[k].labels;
    if k < |active| {
      assert wanted[k] == RenderInstanceService(env, r, active[k].obs.name) && active[k] in active;
      RenderedManaged(env, r, active[k], map[]);
    } else {
      assert names[k] == RoleNames(env, r)[k - |active|];
    }
  }

  lemma StaleAfterDeleting(env: Renderer, r: Resource, put: map<string, Service>, deleted: set<string>, gone: set<string>)
    requires deleted <= StaleRoles(env, r, put) + gone
    ensures put - deleted - StaleRoles(env, r, put - deleted) - gone == put - StaleRoles(env, r, put) - gone
  {
  }

  lemma ServicesConverge(m: map<string, Service>, w: World, env: Renderer, r: Resource, plan: Output, removed: set<string>)
    requires DistinctNames(env, r, plan, removed) && CutServices(m, w, env, r, plan, removed)
    ensures ApplyServices(w.(services := m), env, r, plan, removed) == ApplyServices(w, env, r, plan, removed)
  {
    var names, wanted, put := ServiceNames(env, r, plan), WantedServices(env, r, plan), PutServices(w, env, r, plan);
    AllSettle(env, r, plan);
    if j :| 0 <= j <= |names| && m == PutAll(w.services, names[..j], wanted[..j], CopyService, Same) {
      PutAllResumes(w.services, names, wanted, CopyService, Same, j);
    } else {
      var deleted :| deleted <= StaleRoles(env, r, put) + Gone(env, r, plan, removed) && m == put - deleted;
      forall k | 0 <= k < |names| ensures names[k] !in deleted {
        WantedNotStale(w, env, r, plan, removed, k);
        assert names[k] in names;
      }
      PutAfterDeleting(w.services, names, wanted, CopyService, Same, deleted);
      StaleAfterDeleting(env, r, put, deleted, Gone(env, r, plan, removed));
    }
  }

  // ---------------------------------------------------------------- restarts

  /** A token set by a restart survives the next apply of the same deployment. */
  lemma TokenSurvives(stored: Deployment, desired: Deployment, token: string)
    requires token != "" && CopyDeployment(stored, desired) == stored
    ensures CopyDeployment(SetToken(stored, token), desired) == SetToken(stored, token)
  {
    KeepDbiTwice(stored.labels, desired.labels);
    KeepDbiTwice(stored.annotations, desired.annotations);
    TokenOfSet(stored, token);
    var d := desired.(labels := KeepDbi(stored.labels, desired.labels), annotations := KeepDbi(stored.annotations, desired.annotations));
    var kept := if Token(stored) == "" then d else SetToken(d, Token(stored));
    assert stored == Accept(kept);
    assert SetToken(d, token).template.annotations == SetToken(kept, token).template.annotations;
  }

  lemma RestartedTwice(m: map<string, Deployment>, some: set<string>, names: set<string>, token: string)
    requires some <= names && token != ""
    ensures Restarted(Restarted(m, some, token), names, token) == Restarted(m, names, token)
  {
  }

  lemma RestartedSettled(put: map<string, Deployment>, gone: set<string>, some: set<string>, token: string, n: string, wanted: Deployment)
    requires n in put && n !in gone && token != "" && CopyDeployment(put[n], wanted) == put[n]
    ensures var m := Restarted(put - gone, some, token); n in m && CopyDeployment(m[n], wanted) == m[n]
  {
    TokenSurvives(put[n], wanted, token);
  }

  lemma RestartedPutAgain(w: World, env: Renderer, r: Resource, plan: Output, removed: set<string>, some: set<string>)
    requires DistinctNames(env, r, plan, removed) && some <= RestartNames(env, r, plan)
    ensures var m := Restarted(PutDeployments(w, env, r, plan) - Gone(env, r, plan, removed), some, TokenFor(env, r, plan));
            PutDeployments(w.(deployments := m), env, r, plan) == m
  {
    var names, wanted, put := ObjectNames(env, r, plan), WantedDeployments(env, r, plan), PutDeployments(w, env, r, plan);
    var token, gone := TokenFor(env, r, plan), Gone(env, r, plan, removed);
    var m := Restarted(put - gone, some, token);
    AllSettle(env, r, plan);
    PrefixNoDup(env, r, plan);
    forall k | 0 <= k < |names| ensures names[k] in m && CopyDeployment(m[names[k]], wanted[k]) == m[names[k]] {
      PutSettled(w.deployments, names, wanted, CopyDeployment, Accept, k);
      assert names[k] in names;
      RestartedSettled(put, gone, some, token, names[k], wanted[k]);
    }
    PutAgain(m, names, wanted, CopyDeployment, Accept);
  }

  lemma CutWriting(w: World, env: Renderer, r: Resource, plan: Output, removed: set<string>, j: nat)
    requires DistinctNames(env, r, plan, removed) && j <= |ObjectNames(env, r, plan)|
    ensures var m := PutAll(w.deployments, ObjectNames(env, r, plan)[..j], WantedDeployments(env, r, plan)[..j], CopyDeployment, Accept);
            PutDeployments(w.(deployments := m), env, r, plan) == PutDeployments(w, env, r, plan)
  {
    AllSettle(env, r, plan);
    PrefixNoDup(env, r, plan);
    PutAllResumes(w.deployments, ObjectNames(env, r, plan), WantedDeployments(env, r, plan), CopyDeployment, Accept, j);
  }

  lemma CutDeleting(w: World, env: Renderer, r: Resource, plan: Output, removed: set<string>, deleted: set<string>)
    requires DistinctNames(env, r, plan, removed) && deleted <= Gone(env, r, plan, removed)
    ensures var m := PutDeployments(w, env, r, plan) - deleted;
            PutDeployments(w.(deployments := m), env, r, plan) - Gone(env, r, plan, removed) ==
            PutDeployments(w, env, r, plan) - Gone(env, r, plan, removed)
  {
    AllSettle(env, r, plan);
    PrefixNoDup(env, r, plan);
    PutAfterDeleting(w.deployments, ObjectNames(env, r, plan), WantedDeployments(env, r, plan), CopyDeployment, Accept, deleted);
    DeletedTwice(PutDeployments(w, env, r, plan), deleted, Gone(env, r, plan, removed));
  }

  lemma CutRestarting(w: World, env: Renderer, r: Resource, plan: Output, removed: set<string>, some: set<string>)
    requires DistinctNames(env, r, plan, removed) && some <= RestartNames(env, r, plan)
    ensures var m := Restarted(PutDeployments(w, env, r, plan) - Gone(env, r, plan, removed), some, TokenFor(env, r, plan));
            ApplyDeployments(w.(deployments := m), env, r, plan, removed) == ApplyDeployments(w, env, r, plan, removed)
  {
    var left := PutDeployments(w, env, r, plan) - Gone(env, r, plan, removed);
    var m := Restarted(left, some, TokenFor(env, r, plan));
    RestartedPutAgain(w, env, r, plan, removed, some);
    assert m.Keys == left.Keys;
    assert m - Gone(env, r, plan, removed) == m;
    RestartedTwice(left, some, RestartNames(env, r, plan), TokenFor(env, r, plan));
  }

  lemma WritingConverges(w: World, env: Renderer, r: Resource, plan: Output, removed: set<string>, j: nat)
    requires DistinctNames(env, r, plan, removed) && j <= |ObjectNames(env, r, plan)|
    ensures var m := PutAll(w.deployments, ObjectNames(env, r, plan)[..j], WantedDeployments(env, r, plan)[..j], CopyDeployment, Accept);
            ApplyDeployments(w.(deployments := m), env, r, plan, removed) == ApplyDeployments(w, env, r, plan, removed)
  {
    CutWriting(w, env, r, plan, removed, j);
  }

  lemma DeletingConverges(w: World, env: Renderer, r: Resource, plan: Output, removed: set<string>, deleted: set<string>)
    requires DistinctNames(env, r, plan, removed) && deleted <= Gone(env, r, plan, removed)
    ensures var m := PutDeployments(w, env, r, plan) - deleted;
            ApplyDeployments(w.(deployments := m), env, r, plan, removed) == ApplyDeployments(w, env, r, plan, removed)
  {
    CutDeleting(w, env, r, plan, removed, deleted);
  }

  lemma DeploymentsConverge(m: map<string, Deployment>, w: World, env: Renderer, r: Resource, plan: Output, removed: set<string>)
    requires DistinctNames(env, r, plan, removed) && CutDeployments(m, w, env, r, plan, removed)
    ensures ApplyDeployments(w.(deployments := m), env, r, plan, removed) == ApplyDeployments(w, env, r, plan, removed)
  {
    var names, wanted, put := ObjectNames(env, r, plan), WantedDeployments(env, r, plan), PutDeployments(w, env, r, plan);
    if j :| 0 <= j <= |names| && m == PutAll(w.deployments, names[..j], wanted[..j], CopyDeployment, Accept) {
      WritingConverges(w, env, r, plan, removed, j);
    } else if deleted :| deleted <= Gone(env, r, plan, removed) && m == put - deleted {
      DeletingConverges(w, env, r, plan, removed, deleted);
    } else {
      var some :| some <= RestartNames(env, r, plan) && m == Restarted(put - Gone(env, r, plan, removed), some, TokenFor(env, r, plan));
      CutRestarting(w, env, r, plan, removed, some);
    }
  }

  lemma CutPod(pods: Pods, cluster: string, t: Targets, first: set<string>, second: set<string>, p: string)
    requires p in pods
    ensures var cut := Stage(pods, t, first, second)[p];
            && cut.ready == pods[p].ready && Exact(cut.labels, t) == Exact(pods[p].labels, t)
            && (Managed(cut.labels, cluster) <==> Managed(pods[p].labels, cluster))
  {
    ExactAbsorbs(pods[p].labels, t);
    OtherLabelsKept(pods[p].labels, t);
  }

  lemma PodsConverge(pods: Pods, cluster: string, t: Targets, first: set<string>, second: set<string>)
    requires first <= ManagedPods(pods, cluster) && second <= ManagedPods(pods, cluster)
    ensures Relabelled(Stage(pods, t, first, second), cluster, t) == Relabelled(pods, cluster, t)
  {
    var cut := Stage(pods, t, first, second);
    var a, b := Relabelled(cut, cluster, t), Relabelled(pods, cluster, t);
    forall p | p in pods ensures a[p] == b[p] {
      CutPod(pods, cluster, t, first, second, p);
      assert p in ManagedPods(cut, cluster) <==> p in ManagedPods(pods, cluster);
    }
    assert a.Keys == b.Keys;
  }

  /** Wherever an apply was interrupted, applying the same plan again ends in the same cluster. */
  lemma RetryConverges(w: World, cut: World, env: Renderer, r: Resource, plan: Output, removed: set<string>)
    requires DistinctNames(env, r, plan, removed) && CutWorld(cut, w, env, r, plan, removed)
    ensures ApplyPlan(cut, env, r, plan, removed) == ApplyPlan(w, env, r, plan, removed)
  {
    var cluster, t := env.clusterLabel(r.name), TargetsOf(plan);
    ConfigMapsConverge(cut.configMaps, w, env, r, plan, removed);
    DeploymentsConverge(cut.deployments, w, env, r, plan, removed);
    ServicesConverge(cut.services, w, env, r, plan, removed);
    var first, second :| cut.pods == Stage(w.pods, t, first, second) && first <= ManagedPods(w.pods, cluster) && second <= ManagedPods(w.pods, cluster);
    PodsConverge(w.pods, cluster, t, first, second);
  }

  /** After a complete apply whose status commit failed, the retry computes the same token and changes no
      deployment at any point: neither when it writes them nor when it restarts. */
  lemma RetryRestartsNothing(w: World, env: Renderer, r: Resource, plan: Output, removed: set<string>)
    requires DistinctNames(env, r, plan, removed)
    ensures var after := ApplyPlan(w, env, r, plan, removed);
            && PutDeployments(after, env, r, plan) == after.deployments
            && Restarted(after.deployments, RestartNames(env, r, plan), TokenFor(env, r, plan)) == after.deployments
  {
    RestartedPutAgain(w, env, r, plan, removed, RestartNames(env, r, plan));
    RestartedTwice(PutDeployments(w, env, r, plan) - Gone(env, r, plan, removed), RestartNames(env, r, plan), RestartNames(env, r, plan), TokenFor(env, r, plan));
  }

  /** A writer change restarts a target exactly when it does not hold that change's token already. */
  lemma RestartIffTokenDiffers(deployments: map<string, Deployment>, names: set<string>, token: string, n: string)
    requires n in deployments && token != ""
    ensures Restarted(deployments, names, token)[n].template != deployments[n].template <==> n in names && Token(deployments[n]) != token
  {
    TokenOfSet(deployments[n], token);
  }
}
