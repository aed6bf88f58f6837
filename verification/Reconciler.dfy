/** One whole reconcile: sense, plan, apply or skip, commit. */
module Reconciler {
  import opened Text
  import opened Domain
  import opened Planner
  import opened Commits
  import opened Objects
  import opened Relabel
  import opened Apply
  import opened Interleavings
  import opened DesiredState

  function ReadyPods(pods: Pods, cluster: string, instance: string): set<string> {
    set p | p in pods && Managed(pods[p].labels, cluster) && pods[p].ready && Label(pods[p].labels, InstanceKey) == instance
  }

  function ReadyInstances(pods: Pods, cluster: string): set<string> {
    set p | p in pods && Managed(pods[p].labels, cluster) && pods[p].ready && Label(pods[p].labels, InstanceKey) != ""
      :: Label(pods[p].labels, InstanceKey)
  }

  /** readyPodCounts. */
  function ReadyCounts(pods: Pods, cluster: string): map<string, int> {
    map n | n in ReadyInstances(pods, cluster) :: |ReadyPods(pods, cluster, n)|
  }

  /** The instances whose resources this reconcile deletes for good. */
  function Removed(spec: Spec, d: Discovery, missing: seq<Missing>, now: int): set<string> {
    if !d.trusted then {}
    else set m | m in missing && m.name !in DiscoveredNames(d.instances) && ReadyForDelete(spec, m, now) :: m.name
  }

  /** What a reconcile of snapshot `r` does to the cluster. */
  datatype Outcome = Outcome(proposal: Proposal, applied: bool, world: World, missing: seq<Missing>)

  predicate Applies(w: World, env: Renderer, r: Resource, p: Proposal, now: int) {
    ShouldApply(r, p.plan, p.missing, p.sensed.ran || p.monitorRan, NeedsApply(w, env, r, p.plan), now)
  }

  function Afterwards(w: World, env: Renderer, r: Resource, p: Proposal, now: int): World {
    if Applies(w, env, r, p, now) then ApplyPlan(w, env, r, p.plan, Removed(r.spec, p.sensed.discovery, p.missing, now)) else w
  }

  function Decide(w: World, env: Renderer, r: Resource, mode: Mode, now: int): Option<Outcome> {
    match Propose(r, mode, ReadyCounts(w.pods, env.clusterLabel(r.name)), now)
    case None => None
    case Some(p) =>
      var drift := NeedsApply(w, env, r, p.plan);
      Some(Outcome(p, Applies(w, env, r, p, now), Afterwards(w, env, r, p, now), Tidied(r, p, drift, now)))
  }

  /** The status a reconcile commits onto whatever is stored by then. */
  function Committed(stored: Status, r: Resource, o: Outcome, now: int): Status {
    CommitReconcile(stored, r, o.proposal, o.missing, now)
  }

  lemma OneDeletion(cs: map<string, ConfigMap>, ds: map<string, Deployment>, ss: map<string, Service>, c: set<string>, d: set<string>, s: set<string>, n: string)
    ensures cs - c - {n} == cs - (c + {n}) && ds - d - {n} == ds - (d + {n}) && ss - s - {n} == ss - (s + {n})
    ensures cs - c - {} == cs - (c + {}) && ds - d - {} == ds - (d + {}) && ss - s - {} == ss - (s + {})
  {
  }

  lemma NothingDeleted<T>(m: map<string, T>)
    ensures m - {} == m
  {
  }

  lemma TwoDeletions<T>(m: map<string, T>, a: set<string>, b: set<string>)
    ensures m - a - b == m - (a + b)
  {
  }

  function DisabledNames(env: Renderer, r: Resource, plans: seq<InstancePlan>): set<string> {
    set p | p in plans && p.disabled :: InstanceName(env, r, p.obs.name)
  }

  function NamesOf(env: Renderer, r: Resource, instances: set<string>): set<string> {
    set n | n in instances :: InstanceName(env, r, n)
  }

  class Cluster {
    const podStore: PodStore
    var configMaps: map<string, ConfigMap>
    var deployments: map<string, Deployment>
    var services: map<string, Service>
    var resource: Resource

    ghost function World(): World
      reads this, podStore
    {
      Apply.World(podStore.pods, configMaps, deployments, services)
    }

    constructor (podStore: PodStore, w: World, resource: Resource)
      requires podStore.pods == w.pods
      ensures this.podStore == podStore && World() == w && this.resource == resource
    {
      this.podStore := podStore;
      configMaps, deployments, services := w.configMaps, w.deployments, w.services;
      this.resource := resource;
    }

    /** applyObject for the three objects of one instance; `calls` is how many writes the API still accepts and `done`
        how many of the three were made. */
    method PutObjects(n: string, c: ConfigMap, d: Deployment, s: Service, calls: nat) returns (left: nat, ok: bool, ghost done: nat)
      modifies this`configMaps, this`deployments, this`services
      ensures configMaps == (if done >= 1 then Put(old(configMaps), n, c, CopyConfigMap, Same) else old(configMaps))
      ensures deployments == (if done >= 2 then Put(old(deployments), n, d, CopyDeployment, Accept) else old(deployments))
      ensures services == (if done >= 3 then Put(old(services), n, s, CopyService, Same) else old(services))
      ensures ok <==> done == 3
    {
      left, ok, done := calls, false, 0;
      if left == 0 { return; }
      configMaps, left, done := Put(configMaps, n, c, CopyConfigMap, Same), left - 1, 1;
      if left == 0 { return; }
      deployments, left, done := Put(deployments, n, d, CopyDeployment, Accept), left - 1, 2;
      if left == 0 { return; }
      services, left, ok, done := Put(services, n, s, CopyService, Same), left - 1, true, 3;
    }

    /** The loop of applyDesired over the active instances: it stops in the order config map, deployment, service. */
    method PutInstances(env: Renderer, r: Resource, plan: Output, calls: nat)
      returns (left: nat, ok: bool, ghost c: nat, ghost d: nat, ghost s: nat)
      modifies this`configMaps, this`deployments, this`services
      ensures s <= d <= c <= |Active(plan.instances)|
      ensures configMaps == FirstConfigMaps(old(configMaps), env, r, plan, c)
      ensures deployments == FirstDeployments(old(deployments), env, r, plan, d)
      ensures services == FirstServices(old(services), env, r, plan, s)
      ensures ok ==> c == d == s == |Active(plan.instances)|
    {
      var active := Active(plan.instances);
      left, ok := calls, true;
      c, d, s := 0, 0, 0;
      for k := 0 to |active|
        invariant ok && c == d == s == k
        invariant configMaps == FirstConfigMaps(old(configMaps), env, r, plan, k)
        invariant deployments == FirstDeployments(old(deployments), env, r, plan, k)
        invariant services == FirstServices(old(services), env, r, plan, k)
      {
        FirstNext(old(configMaps), old(deployments), old(services), env, r, plan, k);
        ghost var done;
        var p := active[k];
        left, ok, done := PutObjects(InstanceName(env, r, p.obs.name), RenderConfigMap(env, r, p.obs), RenderDeployment(env, r, p),
                                     RenderInstanceService(env, r, p.obs.name), left);
        c, d, s := if done >= 1 then k + 1 else k, if done >= 2 then k + 1 else k, if done >= 3 then k + 1 else k;
        if !ok { return; }
      }
    }

    /** The two role Services. */
    method PutRoles(env: Renderer, r: Resource, plan: Output, calls: nat, ghost before: map<string, Service>)
      returns (left: nat, ok: bool, ghost j: nat)
      requires services == FirstServices(before, env, r, plan, |Active(plan.instances)|)
      modifies this`services
      ensures j <= |ServiceNames(env, r, plan)|
      ensures services == PutAll(before, ServiceNames(env, r, plan)[..j], WantedServices(env, r, plan)[..j], CopyService, Same)
      ensures ok ==> j == |ServiceNames(env, r, plan)|
    {
      ghost var n := |Active(plan.instances)|;
      FirstServicesAre(before, env, r, plan, n);
      left, ok, j := calls, false, n;
      if left == 0 { return; }
      RolesNext(before, env, r, plan);
      services := Put(services, RoleServiceName(env, r, Writer), RenderRoleService(env, r, Writer), CopyService, Same);
      left, j := left - 1, n + 1;
      if left == 0 { return; }
      services := Put(services, RoleServiceName(env, r, Reader), RenderRoleService(env, r, Reader), CopyService, Same);
      left, ok, j := left - 1, true, n + 2;
    }

    /** The deletions of cleanupStaleRoleServices. */
    method DeleteServices(names: set<string>, calls: nat) returns (left: nat, ok: bool, ghost deleted: set<string>)
      modifies this`services
      ensures services == old(services) - deleted && deleted <= names
      ensures ok ==> deleted == names
    {
      var todo := names;
      left, ok, deleted := calls, false, {};
      while todo != {}
        invariant deleted + todo == names
        invariant services == old(services) - deleted
        decreases |todo|
      {
        if left == 0 { return; }
        var n :| n in todo;
        TwoDeletions(old(services), deleted, {n});
        left, todo, services, deleted := left - 1, todo - {n}, services - {n}, deleted + {n};
      }
      ok := true;
    }

    /** deleteInstanceResources: the config map, the deployment and the Service of that name, in this order. */
    method DeleteInstance(name: string, calls: nat) returns (left: nat, ok: bool, ghost done: nat)
      modifies this`configMaps, this`deployments, this`services
      ensures configMaps == old(configMaps) - (if done >= 1 then {name} else {})
      ensures deployments == old(deployments) - (if done >= 2 then {name} else {})
      ensures services == old(services) - (if done >= 3 then {name} else {})
      ensures ok <==> done == 3
    {
      left, ok, done := calls, false, 0;
      if left == 0 { return; }
      configMaps, left, done := configMaps - {name}, left - 1, 1;
      if left == 0 { return; }
      deployments, left, done := deployments - {name}, left - 1, 2;
      if left == 0 { return; }
      services, left, ok, done := services - {name}, left - 1, true, 3;
    }

    /** cleanupDisabledInstanceResources; `c`, `d` and `s` are the names deleted of each kind. */
    method DeleteDisabled(env: Renderer, r: Resource, plan: Output, calls: nat)
      returns (left: nat, ok: bool, ghost c: set<string>, ghost d: set<string>, ghost s: set<string>)
      modifies this`configMaps, this`deployments, this`services
      ensures configMaps == old(configMaps) - c && deployments == old(deployments) - d && services == old(services) - s
      ensures c + d + s <= DisabledNames(env, r, plan.instances)
      ensures ok ==> c == d == s == DisabledNames(env, r, plan.instances)
    {
      var plans := plan.instances;
      left, ok := calls, true;
      c, d, s := {}, {}, {};
      for k := 0 to |plans|
        invariant ok && c == d == s == DisabledNames(env, r, plans[..k])
        invariant configMaps == old(configMaps) - c && deployments == old(deployments) - d && services == old(services) - s
      {
        DisabledNext(env, r, plans, k);
        if plans[k].disabled {
          ghost var done;
          var name := InstanceName(env, r, plans[k].obs.name);
          OneDeletion(old(configMaps), old(deployments), old(services), c, d, s, name);
          left, ok, done := DeleteInstance(name, left);
          c, d, s := c + (if done >= 1 then {name} else {}), d + (if done >= 2 then {name} else {}), s + (if done >= 3 then {name} else {});
          if !ok {
            DisabledMonotone(env, r, plans, k + 1);
            return;
          }
        }
      }
      assert plans[..|plans|] == plans;
    }

    /** The writing half of applyDesired. */
    method PutDesired(env: Renderer, r: Resource, plan: Output, calls: nat, ghost removed: set<string>) returns (left: nat, ok: bool)
      modifies this`configMaps, this`deployments, this`services
      ensures ok ==> configMaps == PutConfigMaps(old(World()), env, r, plan)
      ensures ok ==> deployments == PutDeployments(old(World()), env, r, plan)
      ensures ok ==> services == PutServices(old(World()), env, r, plan)
      ensures !ok ==> CutConfigMaps(configMaps, old(World()), env, r, plan, removed)
      ensures !ok ==> CutDeployments(deployments, old(World()), env, r, plan, removed)
      ensures !ok ==> CutServices(services, old(World()), env, r, plan, removed)
    {
      ghost var w := World();
      ghost var c, d, s, j;
      left, ok, c, d, s := PutInstances(env, r, plan, calls);
      CutPrefixes(w, env, r, plan, removed, c, d);
      if !ok {
        CutServicePrefix(w, env, r, plan, removed, s);
        return;
      }
      left, ok, j := PutRoles(env, r, plan, left, w.services);
      CutServiceRoles(w, env, r, plan, removed, j);
      FirstAll(w, env, r, plan);
      AllServices(w, env, r, plan);
    }

    /** applyDesired: put, then delete stale role Services and everything of disabled instances.  Whichever call fails,
        what is left is an apply that was cut off. */
    method ApplyDesired(env: Renderer, r: Resource, plan: Output, calls: nat, ghost removed: set<string>) returns (left: nat, ok: bool)
      modifies this`configMaps, this`deployments, this`services
      ensures ok ==>
              var off, w := DisabledNames(env, r, plan.instances), old(World());
              && configMaps == PutConfigMaps(w, env, r, plan) - off
              && deployments == PutDeployments(w, env, r, plan) - off
              && services == PutServices(w, env, r, plan) - (StaleRoles(env, r, PutServices(w, env, r, plan)) + off)
      ensures ok && DistinctNames(env, r, plan, {}) ==> ObjectsHold(World(), env, r, plan)
      ensures !ok ==> CutConfigMaps(configMaps, old(World()), env, r, plan, removed)
      ensures !ok ==> CutDeployments(deployments, old(World()), env, r, plan, removed)
      ensures !ok ==> CutServices(services, old(World()), env, r, plan, removed)
    {
      ghost var w := World();
      left, ok := PutDesired(env, r, plan, calls, removed);
      if !ok { return; }
      ghost var stale, c, d, s;
      left, ok, stale := DeleteServices(StaleRoles(env, r, services), left);
      if !ok {
        CutDeletions(w, env, r, plan, removed, {}, {}, stale);
        NothingDeleted(configMaps);
        NothingDeleted(deployments);
        return;
      }
      left, ok, c, d, s := DeleteDisabled(env, r, plan, left);
      TwoDeletions(PutServices(w, env, r, plan), stale, s);
      if !ok { CutDeletions(w, env, r, plan, removed, c, d, stale + s); }
      if ok && DistinctNames(env, r, plan, {}) { DesiredObjectsHold(w, World(), env, r, plan); }
    }

    /** cleanupRemovedInstanceResources: delete what has expired, keep tracking the rest. */
    method CleanupRemoved(env: Renderer, r: Resource, found: Discovery, missing: seq<Missing>, now: int, calls: nat)
      returns (left: nat, ok: bool, remaining: seq<Missing>, ghost c: set<string>, ghost d: set<string>, ghost s: set<string>)
      modifies this`configMaps, this`deployments, this`services
      ensures configMaps == old(configMaps) - c && deployments == old(deployments) - d && services == old(services) - s
      ensures c + d + s <= NamesOf(env, r, Removed(r.spec, found, missing, now))
      ensures ok ==> remaining == Remaining(r.spec, found, missing, now)
      ensures ok ==> c == d == s == NamesOf(env, r, Removed(r.spec, found, missing, now))
    {
      left, ok, remaining := calls, true, [];
      c, d, s := {}, {}, {};
      if !found.trusted {
        remaining := missing;
        return;
      }
      for k := 0 to |missing|
        invariant ok && remaining == Remaining(r.spec, found, missing[..k], now)
        invariant c == d == s == NamesOf(env, r, Removed(r.spec, found, missing[..k], now))
        invariant configMaps == old(configMaps) - c && deployments == old(deployments) - d && services == old(services) - s
      {
        RemovedNext(r.spec, found, missing, k, now);
        if missing[k].name in DiscoveredNames(found.instances) || !ReadyForDelete(r.spec, missing[k], now) {
          remaining := remaining + [missing[k]];
        } else {
          OneMore(env, r, Removed(r.spec, found, missing[..k], now), missing[k].name);
          ghost var done;
          var name := InstanceName(env, r, missing[k].name);
          OneDeletion(old(configMaps), old(deployments), old(services), c, d, s, name);
          left, ok, done := DeleteInstance(name, left);
          c, d, s := c + (if done >= 1 then {name} else {}), d + (if done >= 2 then {name} else {}), s + (if done >= 3 then {name} else {});
          if !ok {
            RemovedMonotone(env, r, found, missing, k + 1, now);
            return;
          }
        }
      }
      assert missing[..|missing|] == missing;
    }

    /** handleWriterChangeConnection: set the token of this writer change on every target; `done` is how far it got. */
    method RestartWriters(env: Renderer, r: Resource, plan: Output, calls: nat) returns (ok: bool, ghost done: set<string>)
      modifies this`deployments
      ensures done <= RestartNames(env, r, plan)
      ensures deployments == Restarted(old(deployments), done, TokenFor(env, r, plan))
      ensures ok ==> done == RestartNames(env, r, plan)
    {
      var todo, token, left := RestartNames(env, r, plan), TokenFor(env, r, plan), calls;
      ok, done := false, {};
      assert deployments == Restarted(old(deployments), {}, token);
      while todo != {}
        invariant done + todo == RestartNames(env, r, plan)
        invariant deployments == Restarted(old(deployments), done, token)
        decreases |todo|
      {
        if left == 0 { return; }
        left := left - 1;
        var n :| n in todo;
        todo := todo - {n};
        RestartNext(old(deployments), done, n, token);
        if n in deployments && Token(deployments[n]) != token {
          deployments := deployments[n := SetToken(deployments[n], token)];
        }
        done := done + {n};
      }
      assert done == RestartNames(env, r, plan);
      ok := true;
    }

    /** The objects of an apply: everything but the pods and the restarts. */
    method ApplyObjects(env: Renderer, r: Resource, p: Proposal, calls: nat, now: int) returns (left: nat, ok: bool, remaining: seq<Missing>)
      modifies this`configMaps, this`deployments, this`services
      ensures ok ==>
              var removed, w := Removed(r.spec, p.sensed.discovery, p.missing, now), old(World());
              && configMaps == ApplyConfigMaps(w, env, r, p.plan, removed)
              && deployments == PutDeployments(w, env, r, p.plan) - Gone(env, r, p.plan, removed)
              && services == ApplyServices(w, env, r, p.plan, removed)
              && remaining == Remaining(r.spec, p.sensed.discovery, p.missing, now)
      ensures !ok ==>
              var removed, w := Removed(r.spec, p.sensed.discovery, p.missing, now), old(World());
              && CutConfigMaps(configMaps, w, env, r, p.plan, removed) && CutDeployments(deployments, w, env, r, p.plan, removed)
              && CutServices(services, w, env, r, p.plan, removed)
    {
      ghost var w, removed := World(), Removed(r.spec, p.sensed.discovery, p.missing, now);
      ghost var off, gone := DisabledNames(env, r, p.plan.instances), NamesOf(env, r, removed);
      remaining := [];
      left, ok := ApplyDesired(env, r, p.plan, calls, removed);
      if !ok { return; }
      ghost var c, d, s;
      left, ok, remaining, c, d, s := CleanupRemoved(env, r, p.sensed.discovery, p.missing, now, left);
      ghost var stale := StaleRoles(env, r, PutServices(w, env, r, p.plan));
      TwoDeletions(PutConfigMaps(w, env, r, p.plan), off, c);
      TwoDeletions(PutDeployments(w, env, r, p.plan), off, d);
      TwoDeletions(PutServices(w, env, r, p.plan), stale + off, s);
      if ok {
        TwoDeletions(PutServices(w, env, r, p.plan), stale, off + gone);
        assert stale + off + gone == stale + (off + gone);
      } else {
        CutDeletions(w, env, r, p.plan, removed, off + c, off + d, stale + off + s);
      }
    }

    /** Everything an apply does; `calls` bounds how many calls the API accepts.  A failed apply leaves a cut world. */
    method ApplyAll(env: Renderer, r: Resource, p: Proposal, listing: seq<string>, calls: nat, now: int) returns (ok: bool, remaining: seq<Missing>)
      requires IsListing(listing, podStore.pods, env.clusterLabel(r.name))
      modifies this`configMaps, this`deployments, this`services, podStore
      ensures ok ==> World() == ApplyPlan(old(World()), env, r, p.plan, Removed(r.spec, p.sensed.discovery, p.missing, now))
      ensures ok && NoDup(Map(PlanName, p.plan.instances)) && DistinctNames(env, r, p.plan, Removed(r.spec, p.sensed.discovery, p.missing, now)) ==>
              Matches(World(), env, r, p.plan)
      ensures ok ==> remaining == Remaining(r.spec, p.sensed.discovery, p.missing, now)
      ensures !ok ==> CutWorld(World(), old(World()), env, r, p.plan, Removed(r.spec, p.sensed.discovery, p.missing, now))
    {
      ghost var w, removed := World(), Removed(r.spec, p.sensed.discovery, p.missing, now);
      var left;
      left, ok, remaining := ApplyObjects(env, r, p, calls, now);
      if !ok {
        UntouchedPods(w.pods, env.clusterLabel(r.name), TargetsOf(p.plan));
        return;
      }
      CutAfterObjects(w, env, r, p.plan, removed);
      ghost var trace, turn, first, second, done;
      left, ok, trace, turn, first, second := podStore.PatchMembership(env.clusterLabel(r.name), TargetsOf(p.plan), listing, left);
      CutPodsAt(podStore.pods, w.pods, env.clusterLabel(r.name), TargetsOf(p.plan), first, second);
      if !ok { return; }
      ok, done := RestartWriters(env, r, p.plan, left);
      CutAtRestart(w, env, r, p.plan, removed, done);
      if ok && NoDup(Map(PlanName, p.plan.instances)) && DistinctNames(env, r, p.plan, removed) { MatchesAfterApply(w, env, r, p.plan, removed); }
    }

    /** Apply the plan if there is a reason to; `missing` is what stays tracked. */
    method ApplyIfNeeded(env: Renderer, r: Resource, p: Proposal, listing: seq<string>, calls: nat, now: int) returns (ok: bool, missing: seq<Missing>)
      requires IsListing(listing, podStore.pods, env.clusterLabel(r.name))
      modifies this`configMaps, this`deployments, this`services, podStore
      ensures ok ==> World() == Afterwards(old(World()), env, r, p, now)
      ensures ok ==> missing == Tidied(r, p, NeedsApply(old(World()), env, r, p.plan), now)
      ensures !ok ==> Applies(old(World()), env, r, p, now)
      ensures !ok ==> CutWorld(World(), old(World()), env, r, p.plan, Removed(r.spec, p.sensed.discovery, p.missing, now))
    {
      var drift := NeedsApply(Apply.World(podStore.pods, configMaps, deployments, services), env, r, p.plan);
      if ShouldApply(r, p.plan, p.missing, p.sensed.ran || p.monitorRan, drift, now) {
        ok, missing := ApplyAll(env, r, p, listing, calls, now);
      } else {
        ok, missing := true, p.missing;
      }
    }

    /** Reconcile on the snapshot `r`.  A successful one makes exactly the reconcile step of a run.  It fails without
        committing when discovery errors, which leaves the cluster alone, or when a call to the API fails, which leaves
        what that apply had done by then. */
    method Reconcile(env: Renderer, r: Resource, mode: Mode, listing: seq<string>, calls: nat, now: int) returns (ok: bool)
      requires IsListing(listing, podStore.pods, env.clusterLabel(r.name))
      modifies this, podStore
      ensures ok ==> Decide(old(World()), env, r, mode, now).Some?
      ensures ok ==> var o := Decide(old(World()), env, r, mode, now).value;
                     World() == o.world && resource == old(resource).(status := Committed(old(resource).status, r, o, now))
      ensures ok ==> resource.status == ReconcileStep(old(resource).status, r, mode, ReadyCounts(old(podStore.pods), env.clusterLabel(r.name)),
                                                      Drifted(old(World()), env, r, mode, now), now)
      ensures !ok ==> resource == old(resource)
      ensures !ok ==> match Decide(old(World()), env, r, mode, now)
                      case None => World() == old(World())
                      case Some(o) => o.applied && CutWorld(World(), old(World()), env, r, o.proposal.plan, Removed(r.spec, o.proposal.sensed.discovery, o.proposal.missing, now))
    {
      CommittedIsStep(World(), env, resource.status, r, mode, now);
      match Propose(r, mode, ReadyCounts(podStore.pods, env.clusterLabel(r.name)), now)
      case None => return false;
      case Some(p) =>
        var missing;
        ok, missing := ApplyIfNeeded(env, r, p, listing, calls, now);
        if !ok { return; }
        resource := resource.(status := CommitReconcile(resource.status, r, p, missing, now));
    }
  }

  // ---------------------------------------------------------------- what the commit is

  ghost predicate Drifted(w: World, env: Renderer, r: Resource, mode: Mode, now: int) {
    var p := Propose(r, mode, ReadyCounts(w.pods, env.clusterLabel(r.name)), now);
    p.Some? && NeedsApply(w, env, r, p.value.plan)
  }

  lemma DesiredObjectsHold(w: World, after: World, env: Renderer, r: Resource, plan: Output)
    requires DistinctNames(env, r, plan, {})
    requires var off := DisabledNames(env, r, plan.instances);
             && after.configMaps == PutConfigMaps(w, env, r, plan) - off
             && after.deployments == PutDeployments(w, env, r, plan) - off
             && after.services == PutServices(w, env, r, plan) - (StaleRoles(env, r, PutServices(w, env, r, plan)) + off)
    ensures ObjectsHold(after, env, r, plan)
  {
    assert Gone(env, r, plan, {}) == DisabledNames(env, r, plan.instances);
    TwoDeletions(PutServices(w, env, r, plan), StaleRoles(env, r, PutServices(w, env, r, plan)), DisabledNames(env, r, plan.instances));
    ObjectsAfterApply(w, after, env, r, plan, {});
  }

  /** What a reconcile commits is the reconcile step of a run, with this world's ready pods and drift. */
  lemma CommittedIsStep(w: World, env: Renderer, stored: Status, r: Resource, mode: Mode, now: int)
    ensures ReconcileStep(stored, r, mode, ReadyCounts(w.pods, env.clusterLabel(r.name)), Drifted(w, env, r, mode, now), now) ==
            match Decide(w, env, r, mode, now)
            case None => stored
            case Some(o) => Committed(stored, r, o, now)
  {
  }

  // ---------------------------------------------------------------- cut worlds

  lemma CutPrefixes(w: World, env: Renderer, r: Resource, plan: Output, removed: set<string>, c: nat, d: nat)
    requires c <= |Active(plan.instances)| && d <= |Active(plan.instances)|
    ensures CutConfigMaps(FirstConfigMaps(w.configMaps, env, r, plan, c), w, env, r, plan, removed)
    ensures CutDeployments(FirstDeployments(w.deployments, env, r, plan, d), w, env, r, plan, removed)
  {
  }

  lemma FirstServicesAre(m: map<string, Service>, env: Renderer, r: Resource, plan: Output, k: nat)
    requires k <= |Active(plan.instances)|
    ensures FirstServices(m, env, r, plan, k) == PutAll(m, ServiceNames(env, r, plan)[..k], WantedServices(env, r, plan)[..k], CopyService, Same)
  {
    assert ServiceNames(env, r, plan)[..k] == ObjectNames(env, r, plan)[..k];
    assert WantedServices(env, r, plan)[..k] == InstanceServices(env, r, plan)[..k];
  }

  lemma CutServicePrefix(w: World, env: Renderer, r: Resource, plan: Output, removed: set<string>, k: nat)
    requires k <= |Active(plan.instances)|
    ensures CutServices(FirstServices(w.services, env, r, plan, k), w, env, r, plan, removed)
  {
    FirstServicesAre(w.services, env, r, plan, k);
  }

  lemma CutServiceRoles(w: World, env: Renderer, r: Resource, plan: Output, removed: set<string>, j: nat)
    requires j <= |ServiceNames(env, r, plan)|
    ensures CutServices(PutAll(w.services, ServiceNames(env, r, plan)[..j], WantedServices(env, r, plan)[..j], CopyService, Same), w, env, r, plan, removed)
  {
  }

  lemma RolesNext(m: map<string, Service>, env: Renderer, r: Resource, plan: Output)
    ensures var n, names, wanted := |Active(plan.instances)|, ServiceNames(env, r, plan), WantedServices(env, r, plan);
            && PutAll(m, names[..n + 1], wanted[..n + 1], CopyService, Same) ==
               Put(PutAll(m, names[..n], wanted[..n], CopyService, Same), RoleServiceName(env, r, Writer), RenderRoleService(env, r, Writer), CopyService, Same)
            && PutAll(m, names[..n + 2], wanted[..n + 2], CopyService, Same) ==
               Put(PutAll(m, names[..n + 1], wanted[..n + 1], CopyService, Same), RoleServiceName(env, r, Reader), RenderRoleService(env, r, Reader), CopyService, Same)
  {
    PutNext(m, ServiceNames(env, r, plan), WantedServices(env, r, plan), CopyService, Same, |Active(plan.instances)|);
    PutNext(m, ServiceNames(env, r, plan), WantedServices(env, r, plan), CopyService, Same, |Active(plan.instances)| + 1);
  }

  lemma AllServices(w: World, env: Renderer, r: Resource, plan: Output)
    ensures var n := |ServiceNames(env, r, plan)|;
            PutAll(w.services, ServiceNames(env, r, plan)[..n], WantedServices(env, r, plan)[..n], CopyService, Same) == PutServices(w, env, r, plan)
  {
    var n := |ServiceNames(env, r, plan)|;
    assert ServiceNames(env, r, plan)[..n] == ServiceNames(env, r, plan) && WantedServices(env, r, plan)[..n] == WantedServices(env, r, plan);
  }

  lemma CutDeletions(w: World, env: Renderer, r: Resource, plan: Output, removed: set<string>, c: set<string>, d: set<string>, s: set<string>)
    requires c + d <= Gone(env, r, plan, removed) && s <= StaleRoles(env, r, PutServices(w, env, r, plan)) + Gone(env, r, plan, removed)
    ensures CutConfigMaps(PutConfigMaps(w, env, r, plan) - c, w, env, r, plan, removed)
    ensures CutDeployments(PutDeployments(w, env, r, plan) - d, w, env, r, plan, removed)
    ensures CutServices(PutServices(w, env, r, plan) - s, w, env, r, plan, removed)
  {
  }

  lemma CutAtRestart(w: World, env: Renderer, r: Resource, plan: Output, removed: set<string>, done: set<string>)
    requires done <= RestartNames(env, r, plan)
    ensures CutDeployments(Restarted(PutDeployments(w, env, r, plan) - Gone(env, r, plan, removed), done, TokenFor(env, r, plan)), w, env, r, plan, removed)
  {
  }

  lemma CutAfterObjects(w: World, env: Renderer, r: Resource, plan: Output, removed: set<string>)
    ensures CutConfigMaps(ApplyConfigMaps(w, env, r, plan, removed), w, env, r, plan, removed)
    ensures CutDeployments(PutDeployments(w, env, r, plan) - Gone(env, r, plan, removed), w, env, r, plan, removed)
    ensures CutServices(ApplyServices(w, env, r, plan, removed), w, env, r, plan, removed)
  {
    var stale, gone := StaleRoles(env, r, PutServices(w, env, r, plan)), Gone(env, r, plan, removed);
    TwoDeletions(PutServices(w, env, r, plan), stale, gone);
    CutDeletions(w, env, r, plan, removed, gone, gone, stale + gone);
  }

  lemma CutPodsAt(pods: Pods, before: Pods, cluster: string, t: Targets, first: set<string>, second: set<string>)
    requires pods == Stage(before, t, first, second) && first <= ManagedPods(before, cluster) && second <= ManagedPods(before, cluster)
    ensures CutPods(pods, before, cluster, t)
  {
  }

  lemma UntouchedPods(pods: Pods, cluster: string, t: Targets)
    ensures CutPods(pods, pods, cluster, t)
  {
    assert pods == Stage(pods, t, {}, {});
  }

  ghost function FirstConfigMaps(m: map<string, ConfigMap>, env: Renderer, r: Resource, plan: Output, k: nat): map<string, ConfigMap>
    requires k <= |Active(plan.instances)|
  {
    PutAll(m, ObjectNames(env, r, plan)[..k], WantedConfigMaps(env, r, plan)[..k], CopyConfigMap, Same)
  }

  ghost function FirstDeployments(m: map<string, Deployment>, env: Renderer, r: Resource, plan: Output, k: nat): map<string, Deployment>
    requires k <= |Active(plan.instances)|
  {
    PutAll(m, ObjectNames(env, r, plan)[..k], WantedDeployments(env, r, plan)[..k], CopyDeployment, Accept)
  }

  ghost function FirstServices(m: map<string, Service>, env: Renderer, r: Resource, plan: Output, k: nat): map<string, Service>
    requires k <= |Active(plan.instances)|
  {
    PutAll(m, ObjectNames(env, r, plan)[..k], InstanceServices(env, r, plan)[..k], CopyService, Same)
  }

  lemma FirstNext(c: map<string, ConfigMap>, d: map<string, Deployment>, s: map<string, Service>, env: Renderer, r: Resource, plan: Output, k: nat)
    requires k < |Active(plan.instances)|
    ensures var p := Active(plan.instances)[k];
            var n := InstanceName(env, r, p.obs.name);
            && FirstConfigMaps(c, env, r, plan, k + 1) == Put(FirstConfigMaps(c, env, r, plan, k), n, RenderConfigMap(env, r, p.obs), CopyConfigMap, Same)
            && FirstDeployments(d, env, r, plan, k + 1) == Put(FirstDeployments(d, env, r, plan, k), n, RenderDeployment(env, r, p), CopyDeployment, Accept)
            && FirstServices(s, env, r, plan, k + 1) == Put(FirstServices(s, env, r, plan, k), n, RenderInstanceService(env, r, p.obs.name), CopyService, Same)
  {
    PutNext(c, ObjectNames(env, r, plan), WantedConfigMaps(env, r, plan), CopyConfigMap, Same, k);
    PutNext(d, ObjectNames(env, r, plan), WantedDeployments(env, r, plan), CopyDeployment, Accept, k);
    PutNext(s, ObjectNames(env, r, plan), InstanceServices(env, r, plan), CopyService, Same, k);
  }

  lemma FirstAll(w: World, env: Renderer, r: Resource, plan: Output)
    ensures var n := |Active(plan.instances)|;
            && FirstConfigMaps(w.configMaps, env, r, plan, n) == PutConfigMaps(w, env, r, plan)
            && FirstDeployments(w.deployments, env, r, plan, n) == PutDeployments(w, env, r, plan)
  {
    var n := |Active(plan.instances)|;
    assert ObjectNames(env, r, plan)[..n] == ObjectNames(env, r, plan) && WantedConfigMaps(env, r, plan)[..n] == WantedConfigMaps(env, r, plan);
    assert WantedDeployments(env, r, plan)[..n] == WantedDeployments(env, r, plan);
  }

  lemma PutNext<T>(m: map<string, T>, names: seq<string>, desired: seq<T>, copy: (T, T) -> T, create: T -> T, k: nat)
    requires |names| == |desired| && k < |names|
    ensures PutAll(m, names[..k + 1], desired[..k + 1], copy, create) ==
            Put(PutAll(m, names[..k], desired[..k], copy, create), names[k], desired[k], copy, create)
  {
    assert names[..k + 1][..k] == names[..k] && desired[..k + 1][..k] == desired[..k];
  }

  lemma DisabledNext(env: Renderer, r: Resource, plans: seq<InstancePlan>, k: nat)
    requires k < |plans|
    ensures DisabledNames(env, r, plans[..k + 1]) ==
            DisabledNames(env, r, plans[..k]) + if plans[k].disabled then {InstanceName(env, r, plans[k].obs.name)} else {}
  {
    TakeNext(plans, k);
  }

  lemma DisabledMonotone(env: Renderer, r: Resource, plans: seq<InstancePlan>, k: nat)
    requires k <= |plans|
    ensures DisabledNames(env, r, plans[..k]) <= DisabledNames(env, r, plans)
  {
  }

  lemma RemovedMonotone(env: Renderer, r: Resource, d: Discovery, missing: seq<Missing>, k: nat, now: int)
    requires k <= |missing|
    ensures NamesOf(env, r, Removed(r.spec, d, missing[..k], now)) <= NamesOf(env, r, Removed(r.spec, d, missing, now))
  {
    assert Removed(r.spec, d, missing[..k], now) <= Removed(r.spec, d, missing, now);
  }

  lemma OneMore(env: Renderer, r: Resource, removed: set<string>, n: string)
    ensures NamesOf(env, r, removed + {n}) == NamesOf(env, r, removed) + {InstanceName(env, r, n)}
  {
  }

  lemma RemovedNext(spec: Spec, d: Discovery, missing: seq<Missing>, k: nat, now: int)
    requires k < |missing| && d.trusted
    ensures missing[..k + 1][..k] == missing[..k]
    ensures Removed(spec, d, missing[..k + 1], now) ==
            Removed(spec, d, missing[..k], now) +
            if missing[k].name !in DiscoveredNames(d.instances) && ReadyForDelete(spec, missing[k], now) then {missing[k].name} else {}
  {
    TakeNext(missing, k);
  }

  lemma RestartNext(m: map<string, Deployment>, done: set<string>, n: string, token: string)
    requires token != ""
    ensures var now := Restarted(m, done, token);
            Restarted(m, done + {n}, token) == if n in now && Token(now[n]) != token then now[n := SetToken(now[n], token)] else now
  {
  }
}
