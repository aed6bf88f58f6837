/** Moving traffic: the two passes that relabel the managed pods.  The first only adds labels, the second
    makes them exact, so at no moment does a role lose its old pods before it has its new ones. */
module Relabel {
  import opened Text
  import opened Domain

  datatype Pod = Pod(labels: Labels, ready: bool)

  type Pods = map<string, Pod>

  const MANAGED_BY := "pgbouncer-aurora-operator"

  predicate Managed(labels: Labels, cluster: string) {
    Label(labels, ManagedBy) == MANAGED_BY && ClusterKey in labels && labels[ClusterKey] == cluster
  }

  function ManagedPods(pods: Pods, cluster: string): set<string> {
    set p | p in pods && Managed(pods[p].labels, cluster)
  }

  /** Which instances serve which role, and the role label of every active instance. */
  datatype Targets = Targets(writer: set<string>, reader: set<string>, roles: map<string, Role>)

  function RoleText(role: Role): string { if role.Writer? then "writer" else "reader" }

  const MEMBERSHIP_KEYS: set<Key> := {WriterKey, ReaderKey, RoleKey}

  /** The membership labels a pod of that instance should carry. */
  function Wanted(instance: string, t: Targets): Labels {
    (if instance in t.writer then map[WriterKey := "true"] else map[]) +
    (if instance in t.reader then map[ReaderKey := "true"] else map[]) +
    (if instance in t.roles then map[RoleKey := RoleText(t.roles[instance])] else map[])
  }

  /** patchPodMembershipAdditions. */
  function Added(labels: Labels, t: Targets): Labels {
    labels + Wanted(Label(labels, InstanceKey), t)
  }

  /** patchPodMembershipExact. */
  function Exact(labels: Labels, t: Targets): Labels {
    (labels - MEMBERSHIP_KEYS) + Wanted(Label(labels, InstanceKey), t)
  }

  predicate FlagExact(labels: Labels, key: Key, desired: bool) {
    if desired then key in labels && labels[key] == "true" else key !in labels
  }

  /** membershipLabelsExact. */
  predicate LabelsExact(labels: Labels, t: Targets) {
    var instance := Label(labels, InstanceKey);
    && FlagExact(labels, WriterKey, instance in t.writer)
    && FlagExact(labels, ReaderKey, instance in t.reader)
    && (if instance in t.roles then RoleKey in labels && labels[RoleKey] == RoleText(t.roles[instance]) else RoleKey !in labels)
  }

  lemma ExactAbsorbs(labels: Labels, t: Targets)
    ensures Exact(Added(labels, t), t) == Exact(labels, t)
    ensures Exact(Exact(labels, t), t) == Exact(labels, t)
  {
    OtherLabelsKept(labels, t);
    WantedKeys(Label(labels, InstanceKey), t);
  }

  lemma WantedKeys(instance: string, t: Targets)
    ensures Wanted(instance, t).Keys <= MEMBERSHIP_KEYS
  {
  }

  /** Both passes touch the membership keys only. */
  lemma OtherLabelsKept(labels: Labels, t: Targets)
    ensures Label(Added(labels, t), InstanceKey) == Label(Exact(labels, t), InstanceKey) == Label(labels, InstanceKey)
    ensures forall cluster :: Managed(Exact(labels, t), cluster) <==> Managed(labels, cluster)
    ensures forall cluster :: Managed(Added(labels, t), cluster) <==> Managed(labels, cluster)
  {
    WantedKeys(Label(labels, InstanceKey), t);
  }

  lemma ExactEnds(labels: Labels, t: Targets)
    ensures LabelsExact(Exact(labels, t), t)
  {
    OtherLabelsKept(labels, t);
  }

  lemma ExactRests(labels: Labels, t: Targets)
    requires LabelsExact(labels, t)
    ensures Exact(labels, t) == labels
  {
    assert Exact(labels, t).Keys == labels.Keys;
  }

  lemma ExactIsExact(labels: Labels, t: Targets)
    ensures LabelsExact(Exact(labels, t), t)
    ensures LabelsExact(labels, t) <==> Exact(labels, t) == labels
  {
    ExactEnds(labels, t);
    if LabelsExact(labels, t) { ExactRests(labels, t); }
  }

  /** The pods after the additions reached `first` and the exact pass reached `second`. */
  function Stage(pods: Pods, t: Targets, first: set<string>, second: set<string>): Pods {
    map p | p in pods ::
      if p in second then pods[p].(labels := Exact(pods[p].labels, t))
      else if p in first then pods[p].(labels := Added(pods[p].labels, t))
      else pods[p]
  }

  function Relabelled(pods: Pods, cluster: string, t: Targets): Pods {
    Stage(pods, t, ManagedPods(pods, cluster), ManagedPods(pods, cluster))
  }

  /** The pods a role Service selects. */
  function Serving(pods: Pods, cluster: string, key: Key): set<string> {
    set p | p in pods && Managed(pods[p].labels, cluster) && Label(pods[p].labels, key) == "true"
  }

  function Desired(pods: Pods, cluster: string, members: set<string>): set<string> {
    set p | p in pods && Managed(pods[p].labels, cluster) && Label(pods[p].labels, InstanceKey) in members
  }

  // ---------------------------------------------------------------- make before break

  /** Each role still has all its old pods. */
  ghost predicate Kept(before: Pods, now: Pods, cluster: string) {
    && Serving(before, cluster, WriterKey) <= Serving(now, cluster, WriterKey)
    && Serving(before, cluster, ReaderKey) <= Serving(now, cluster, ReaderKey)
  }

  /** Each role already has all its new pods. */
  ghost predicate Served(before: Pods, now: Pods, cluster: string, t: Targets) {
    && Desired(before, cluster, t.writer) <= Serving(now, cluster, WriterKey)
    && Desired(before, cluster, t.reader) <= Serving(now, cluster, ReaderKey)
  }

  /** Wherever the first pass is, no role has lost a pod. */
  lemma FirstPassKeeps(pods: Pods, cluster: string, t: Targets, first: set<string>)
    ensures Kept(pods, Stage(pods, t, first, {}), cluster)
  {
    var now := Stage(pods, t, first, {});
    forall p | p in pods
      ensures Managed(now[p].labels, cluster) <==> Managed(pods[p].labels, cluster)
      ensures Label(pods[p].labels, WriterKey) == "true" ==> Label(now[p].labels, WriterKey) == "true"
      ensures Label(pods[p].labels, ReaderKey) == "true" ==> Label(now[p].labels, ReaderKey) == "true"
    {
      OtherLabelsKept(pods[p].labels, t);
    }
  }

  /** Wherever the second pass is, every role has all the pods it should have. */
  lemma SecondPassServes(pods: Pods, cluster: string, t: Targets, second: set<string>)
    ensures Served(pods, Stage(pods, t, ManagedPods(pods, cluster), second), cluster, t)
  {
    var now := Stage(pods, t, ManagedPods(pods, cluster), second);
    forall p | p in ManagedPods(pods, cluster)
      ensures Managed(now[p].labels, cluster)
      ensures Label(pods[p].labels, InstanceKey) in t.writer ==> Label(now[p].labels, WriterKey) == "true"
      ensures Label(pods[p].labels, InstanceKey) in t.reader ==> Label(now[p].labels, ReaderKey) == "true"
    {
      OtherLabelsKept(pods[p].labels, t);
    }
  }

  /** Relabelling ends with exactly the desired pods in each role. */
  lemma EndsExact(pods: Pods, cluster: string, t: Targets)
    ensures var now := Relabelled(pods, cluster, t);
            && Serving(now, cluster, WriterKey) == Desired(pods, cluster, t.writer)
            && Serving(now, cluster, ReaderKey) == Desired(pods, cluster, t.reader)
            && ManagedPods(now, cluster) == ManagedPods(pods, cluster)
            && forall p :: p in ManagedPods(pods, cluster) ==> LabelsExact(now[p].labels, t)
  {
    var now := Relabelled(pods, cluster, t);
    forall p | p in pods
      ensures Managed(now[p].labels, cluster) <==> Managed(pods[p].labels, cluster)
      ensures p in ManagedPods(pods, cluster) ==> LabelsExact(now[p].labels, t)
      ensures Label(now[p].labels, InstanceKey) == Label(pods[p].labels, InstanceKey)
    {
      ExactIsExact(pods[p].labels, t);
      OtherLabelsKept(pods[p].labels, t);
    }
  }

  /** The states of a relabelling from `before` to `now`: up to `turn` no role has lost a pod, from there on every
      role has all its new ones. */
  ghost predicate Witnessed(trace: seq<Pods>, turn: nat, before: Pods, now: Pods, cluster: string, t: Targets) {
    && trace != [] && trace[0] == before && trace[|trace| - 1] == now && turn <= |trace|
    && (forall i :: 0 <= i < turn ==> Kept(before, trace[i], cluster))
    && (forall i :: turn <= i < |trace| ==> Served(before, trace[i], cluster, t))
  }

  lemma WitnessFirst(trace: seq<Pods>, before: Pods, now: Pods, next: Pods, cluster: string, t: Targets)
    requires Witnessed(trace, |trace|, before, now, cluster, t) && Kept(before, next, cluster)
    ensures Witnessed(trace + [next], |trace| + 1, before, next, cluster, t)
  {
  }

  lemma WitnessSecond(trace: seq<Pods>, turn: nat, before: Pods, now: Pods, next: Pods, cluster: string, t: Targets)
    requires Witnessed(trace, turn, before, now, cluster, t) && Served(before, next, cluster, t)
    ensures Witnessed(trace + [next], turn, before, next, cluster, t)
  {
  }

  /** A role with pods before and after is without one in no state of a relabelling. */
  lemma NeverEmpty(trace: seq<Pods>, turn: nat, before: Pods, now: Pods, cluster: string, t: Targets, i: nat)
    requires Witnessed(trace, turn, before, now, cluster, t) && i < |trace|
    ensures Serving(before, cluster, WriterKey) != {} && Desired(before, cluster, t.writer) != {} ==> Serving(trace[i], cluster, WriterKey) != {}
    ensures Serving(before, cluster, ReaderKey) != {} && Desired(before, cluster, t.reader) != {} ==> Serving(trace[i], cluster, ReaderKey) != {}
  {
    assert if i < turn then Kept(before, trace[i], cluster) else Served(before, trace[i], cluster, t);
  }

  // ---------------------------------------------------------------- as the operator runs it

  class PodStore {
    var pods: Pods

    constructor (initial: Pods)
      ensures pods == initial
    {
      pods := initial;
    }

    /** The first pass: add what is wanted to every listed pod. */
    method AddLabels(cluster: string, t: Targets, calls: nat, listing: seq<string>, ghost before: Pods)
      returns (left: nat, ok: bool, ghost trace: seq<Pods>, ghost first: set<string>)
      requires pods == before && IsListing(listing, before, cluster)
      modifies this
      ensures Witnessed(trace, |trace|, before, pods, cluster, t)
      ensures pods == Stage(before, t, first, {}) && first <= ManagedPods(before, cluster)
      ensures ok ==> first == ManagedPods(before, cluster)
    {
      left, trace, first := calls, [pods], {};
      assert pods == Stage(before, t, {}, {});
      for k := 0 to |listing|
        invariant first == Elements(listing[..k])
        invariant pods == Stage(before, t, first, {})
        invariant Witnessed(trace, |trace|, before, pods, cluster, t)
      {
        if left == 0 {
          ok := false;
          return;
        }
        left := left - 1;
        var p := listing[k];
        assert p in listing && p !in listing[..k];
        TakeNext(listing, k);
        StageNext(before, t, first, {}, p);
        FirstPassKeeps(before, cluster, t, first + {p});
        WitnessFirst(trace, before, pods, Stage(before, t, first + {p}, {}), cluster, t);
        pods := pods[p := pods[p].(labels := Added(pods[p].labels, t))];
        first, trace := first + {p}, trace + [pods];
      }
      assert listing[..|listing|] == listing;
      assert first == ManagedPods(before, cluster);
      ok := true;
    }

    /** The second pass: make the labels of those pods exact. */
    method FixLabels(cluster: string, t: Targets, calls: nat, live: seq<string>, ghost before: Pods, ghost past: seq<Pods>)
      returns (left: nat, ok: bool, ghost trace: seq<Pods>, ghost second: set<string>)
      requires IsListing(live, before, cluster)
      requires pods == Stage(before, t, ManagedPods(before, cluster), {}) && Witnessed(past, |past|, before, pods, cluster, t)
      modifies this
      ensures Witnessed(trace, |past|, before, pods, cluster, t)
      ensures pods == Stage(before, t, ManagedPods(before, cluster), second) && second <= ManagedPods(before, cluster)
      ensures ok ==> second == ManagedPods(before, cluster)
    {
      left, trace, second := calls, past, {};
      for k := 0 to |live|
        invariant second == Elements(live[..k])
        invariant pods == Stage(before, t, ManagedPods(before, cluster), second)
        invariant Witnessed(trace, |past|, before, pods, cluster, t)
      {
        if left == 0 {
          ok := false;
          return;
        }
        left := left - 1;
        var p := live[k];
        assert p in live;
        TakeNext(live, k);
        StageExact(before, t, ManagedPods(before, cluster), second, p);
        SecondPassServes(before, cluster, t, second + {p});
        WitnessSecond(trace, |past|, before, pods, Stage(before, t, ManagedPods(before, cluster), second + {p}), cluster, t);
        pods := pods[p := pods[p].(labels := Exact(pods[p].labels, t))];
        second, trace := second + {p}, trace + [pods];
      }
      assert live[..|live|] == live;
      assert second == ManagedPods(before, cluster);
      ok := true;
    }

    /** patchPodMembership.  `listing` is the order in which the API lists the managed pods and `calls` how many patches
        it accepts before one fails and the relabelling stops half way; `trace` is every state the pods go through and
        `turn` where the second pass begins.  `first` and `second` are the pods each pass has reached. */
    method PatchMembership(cluster: string, t: Targets, listing: seq<string>, calls: nat)
      returns (left: nat, ok: bool, ghost trace: seq<Pods>, ghost turn: nat, ghost first: set<string>, ghost second: set<string>)
      requires IsListing(listing, pods, cluster)
      modifies this
      ensures Witnessed(trace, turn, old(pods), pods, cluster, t)
      ensures pods == Stage(old(pods), t, first, second)
      ensures first <= ManagedPods(old(pods), cluster) && second <= ManagedPods(old(pods), cluster)
      ensures second != {} ==> first == ManagedPods(old(pods), cluster)
      ensures ok ==> pods == Relabelled(old(pods), cluster, t)
    {
      left, ok, trace, first := AddLabels(cluster, t, calls, listing, pods);
      turn, second := |trace|, {};
      if ok {
        left, ok, trace, second := FixLabels(cluster, t, left, listing, old(pods), trace);
      }
    }
  }

  /** Every managed pod once, in any order. */
  ghost predicate IsListing(listing: seq<string>, pods: Pods, cluster: string) {
    NoDup(listing) && forall p :: p in listing <==> p in ManagedPods(pods, cluster)
  }

  lemma StageNext(pods: Pods, t: Targets, first: set<string>, second: set<string>, p: string)
    requires p in pods && p !in first && p !in second
    ensures var now := Stage(pods, t, first, second);
            now[p := now[p].(labels := Added(now[p].labels, t))] == Stage(pods, t, first + {p}, second)
  {
  }

  lemma StageExact(pods: Pods, t: Targets, first: set<string>, second: set<string>, p: string)
    requires p in pods && p in first
    ensures var now := Stage(pods, t, first, second);
            now[p := now[p].(labels := Exact(now[p].labels, t))] == Stage(pods, t, first, second + {p})
  {
    ExactAbsorbs(pods[p].labels, t);
  }
}
