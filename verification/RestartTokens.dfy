/** Restart tokens: which writer changes share one, and a run of writer changes in which a change restarts less than it
    names because an earlier change left the same token behind. */
module RestartTokens {
  import opened Text
  import opened Domain
  import opened Planner
  import opened PlannerLaws
  import opened Commits
  import opened Objects
  import opened Apply
  import opened ApplyLaws
  import opened RetryLaws
  import opened Quiescence

  /** The digest tells different inputs apart. */
  ghost predicate TellsApart(env: Renderer) {
    forall p, a, b, t, s, p', a', b', t', s' ::
      env.token(p, a, b, t, s) == env.token(p', a', b', t', s') ==> p == p' && a == a' && b == b' && t == t' && s == s'
  }

  /** Two writer changes share a token if and only if they are the same change under the same policy: the same writers
      before and after, in any order, the same targets and the same instances. */
  lemma SharedTokenIff(env: Renderer, r: Resource, plan: Output, r': Resource, plan': Output)
    requires TellsApart(env)
    ensures TokenFor(env, r, plan) == TokenFor(env, r', plan') <==>
            && EffectivePolicy(r) == EffectivePolicy(r')
            && multiset(r.status.lastApplied.writer) == multiset(r'.status.lastApplied.writer)
            && multiset(plan.membership.writer) == multiset(plan'.membership.writer)
            && RestartTargets(r, plan) == RestartTargets(r', plan')
            && Shapes(plan.instances) == Shapes(plan'.instances)
  {
    SameSortedIff(r.status.lastApplied.writer, r'.status.lastApplied.writer);
    SameSortedIff(plan.membership.writer, plan'.membership.writer);
  }

  lemma SameSortedIff(s: seq<string>, t: seq<string>)
    ensures SortNames(s) == SortNames(t) <==> multiset(s) == multiset(t)
  {
    SortPermutes(Self, s);
    SortPermutes(Self, t);
    SortAscending(Self, s);
    SortAscending(Self, t);
    if multiset(s) == multiset(t) { AscendingUnique(SortNames(s), SortNames(t)); }
  }

  lemma NotAbove(s: seq<string>, k: nat)
    requires Ascending(Self, s) && k < |s|
    ensures !Less(s[k], s[0])
  {
    if k == 0 { LessIrreflexive(s[0]); } else { assert !Less(Self(s[k]), Self(s[0])); }
  }

  lemma SameLeast(s: seq<string>, t: seq<string>)
    requires Ascending(Self, s) && Ascending(Self, t) && multiset(s) == multiset(t) && s != []
    ensures t != [] && s[0] == t[0]
  {
    var k := SameElement(s, t, 0);
    var j := SameElement(t, s, 0);
    NotAbove(t, k);
    NotAbove(s, j);
    LessTotal(s[0], t[0]);
  }

  lemma {:induction false} AscendingUnique(s: seq<string>, t: seq<string>)
    requires Ascending(Self, s) && Ascending(Self, t) && multiset(s) == multiset(t)
    ensures s == t
    decreases |s|
  {
    if s == [] {
      assert |t| == |multiset(t)| == 0;
    } else {
      SameLeast(s, t);
      SameRest(s, t);
      AscendingUnique(s[1..], t[1..]);
      assert s == [s[0]] + s[1..] && t == [t[0]] + t[1..];
    }
  }

  // ---------------------------------------------------------------- a token that outlives its change

  datatype Change = Change(r: Resource, plan: Output, removed: set<string>)

  ghost predicate Wants(plan: Output, a: string) { exists p :: p in Active(plan.instances) && p.obs.name == a }

  ghost predicate Moves(env: Renderer, c: Change, cluster: string, a: string, before: seq<string>, after: seq<string>) {
    && c.r.name == cluster && EffectivePolicy(c.r).RestartWriters?
    && c.r.status.lastApplied.writer == before && c.plan.membership.writer == after
    && DistinctNames(env, c.r, c.plan, c.removed) && Wants(c.plan, a)
  }

  /** The writer moves from a to b, is lost, comes back to a and moves to b again, with the same instances. */
  ghost predicate Cycle(env: Renderer, cluster: string, a: string, b: string, c: seq<Change>) {
    && |c| == 4 && env.objectName(cluster, a) != env.objectName(cluster, b)
    && Moves(env, c[0], cluster, a, [a], [b]) && Moves(env, c[1], cluster, a, [b], [])
    && Moves(env, c[2], cluster, a, [], [a]) && Moves(env, c[3], cluster, a, [a], [b])
    && Shapes(c[3].plan.instances) == Shapes(c[0].plan.instances)
  }

  function Applied(w: World, env: Renderer, c: Change): World { ApplyPlan(w, env, c.r, c.plan, c.removed) }

  lemma WantedIsPut(w: World, env: Renderer, c: Change, a: string)
    requires DistinctNames(env, c.r, c.plan, c.removed) && Wants(c.plan, a)
    ensures var n := InstanceName(env, c.r, a);
            var left := PutDeployments(w, env, c.r, c.plan) - Gone(env, c.r, c.plan, c.removed);
            && n in left && (n in w.deployments && Token(w.deployments[n]) != "" ==> Token(left[n]) == Token(w.deployments[n]))
  {
    var p :| p in Active(c.plan.instances) && p.obs.name == a;
    var k := IndexOf(env, c.r, c.plan, p);
    PrefixNoDup(env, c.r, c.plan);
    PutAllAt(w.deployments, ObjectNames(env, c.r, c.plan), WantedDeployments(env, c.r, c.plan), CopyDeployment, Accept, k);
    if InstanceName(env, c.r, a) in w.deployments { CopyKeepsToken(w.deployments[InstanceName(env, c.r, a)], WantedDeployments(env, c.r, c.plan)[k]); }
  }

  lemma CopyKeepsToken(stored: Deployment, desired: Deployment)
    ensures Token(stored) != "" ==> Token(CopyDeployment(stored, desired)) == Token(stored)
  {
    var d := desired.(labels := KeepDbi(stored.labels, desired.labels), annotations := KeepDbi(stored.annotations, desired.annotations));
    TokenOfSet(d, Token(stored));
    TokenOfSet(SetToken(d, Token(stored)), "");
  }

  /** After an apply a target holds the token of the change, and any other deployment the token it held. */
  lemma TokenAfter(w: World, env: Renderer, c: Change, a: string)
    requires DistinctNames(env, c.r, c.plan, c.removed) && Wants(c.plan, a)
    ensures var n := InstanceName(env, c.r, a);
            && n in Applied(w, env, c).deployments
            && (n in RestartNames(env, c.r, c.plan) ==> Token(Applied(w, env, c).deployments[n]) == TokenFor(env, c.r, c.plan))
            && (n !in RestartNames(env, c.r, c.plan) && n in w.deployments && Token(w.deployments[n]) != "" ==>
                  Token(Applied(w, env, c).deployments[n]) == Token(w.deployments[n]))
  {
    WantedIsPut(w, env, c, a);
    var n := InstanceName(env, c.r, a);
    var left := PutDeployments(w, env, c.r, c.plan) - Gone(env, c.r, c.plan, c.removed);
    TokenOfSet(left[n], TokenFor(env, c.r, c.plan));
  }

  // ---------------------------------------------------------------- any history of changes

  function AppliedAll(w: World, env: Renderer, cs: seq<Change>): World {
    if cs == [] then w else Applied(AppliedAll(w, env, cs[..|cs| - 1]), env, cs[|cs| - 1])
  }

  predicate Names(env: Renderer, c: Change, a: string) { InstanceName(env, c.r, a) in RestartNames(env, c.r, c.plan) }

  /** The last change of a history that names the instance as a target. */
  function LastNaming(env: Renderer, cs: seq<Change>, a: string): Option<Change> {
    if cs == [] then None
    else if Names(env, cs[|cs| - 1], a) then Some(cs[|cs| - 1])
    else LastNaming(env, cs[..|cs| - 1], a)
  }

  ghost predicate WantedBy(env: Renderer, cluster: string, c: Change, a: string) {
    c.r.name == cluster && DistinctNames(env, c.r, c.plan, c.removed) && Wants(c.plan, a)
  }

  ghost predicate Holds(w: World, env: Renderer, n: string, last: Option<Change>) {
    last.Some? ==> n in w.deployments && Token(w.deployments[n]) == TokenFor(env, last.value.r, last.value.plan)
  }

  lemma HoldsAfter(w: World, env: Renderer, cluster: string, c: Change, a: string, last: Option<Change>)
    requires WantedBy(env, cluster, c, a) && Holds(w, env, env.objectName(cluster, a), last)
    ensures Holds(Applied(w, env, c), env, env.objectName(cluster, a), if Names(env, c, a) then Some(c) else last)
  {
    TokenAfter(w, env, c, a);
  }

  /** After any history of changes a deployment holds the token of the last one that named it. */
  lemma {:induction false} TokenOfHistory(w: World, env: Renderer, cluster: string, cs: seq<Change>, a: string)
    requires forall c :: c in cs ==> WantedBy(env, cluster, c, a)
    ensures Holds(AppliedAll(w, env, cs), env, env.objectName(cluster, a), LastNaming(env, cs, a))
  {
    if cs != [] {
      var init, c := cs[..|cs| - 1], cs[|cs| - 1];
      TokenOfHistory(w, env, cluster, init, a);
      assert WantedBy(env, cluster, c, a);
      HoldsAfter(AppliedAll(w, env, init), env, cluster, c, a, LastNaming(env, init, a));
    }
  }

  /** The two changes are the same one, as far as the token can tell. */
  predicate SameChange(c: Change, d: Change) {
    && EffectivePolicy(c.r) == EffectivePolicy(d.r)
    && multiset(c.r.status.lastApplied.writer) == multiset(d.r.status.lastApplied.writer)
    && multiset(c.plan.membership.writer) == multiset(d.plan.membership.writer)
    && RestartTargets(c.r, c.plan) == RestartTargets(d.r, d.plan) && Shapes(c.plan.instances) == Shapes(d.plan.instances)
  }

  lemma RestartsUnlessHeld(w: World, env: Renderer, cluster: string, c: Change, a: string, last: Change)
    requires TellsApart(env) && WantedBy(env, cluster, c, a) && Names(env, c, a) && Holds(w, env, env.objectName(cluster, a), Some(last))
    ensures var n := env.objectName(cluster, a);
            var left := PutDeployments(w, env, c.r, c.plan) - Gone(env, c.r, c.plan, c.removed);
            && n in left && n in Applied(w, env, c).deployments
            && (Applied(w, env, c).deployments[n].template != left[n].template <==> !SameChange(last, c))
  {
    var n := env.objectName(cluster, a);
    WantedIsPut(w, env, c, a);
    RestartIffTokenDiffers(PutDeployments(w, env, c.r, c.plan) - Gone(env, c.r, c.plan, c.removed),
                           RestartNames(env, c.r, c.plan), TokenFor(env, c.r, c.plan), n);
    SharedTokenIff(env, last.r, last.plan, c.r, c.plan);
  }

  /** A change restarts a target it names if and only if the last change that named it before was not the same change: for
      every history that named it, whatever the cluster was like at the start. */
  lemma RestartsIffNewChange(w: World, env: Renderer, cluster: string, cs: seq<Change>, c: Change, a: string)
    requires TellsApart(env) && (forall x :: x in cs ==> WantedBy(env, cluster, x, a)) && WantedBy(env, cluster, c, a)
    requires Names(env, c, a) && LastNaming(env, cs, a).Some?
    ensures var before, n := AppliedAll(w, env, cs), env.objectName(cluster, a);
            var left := PutDeployments(before, env, c.r, c.plan) - Gone(env, c.r, c.plan, c.removed);
            && n in left && n in Applied(before, env, c).deployments
            && (Applied(before, env, c).deployments[n].template != left[n].template <==> !SameChange(LastNaming(env, cs, a).value, c))
  {
    TokenOfHistory(w, env, cluster, cs, a);
    RestartsUnlessHeld(AppliedAll(w, env, cs), env, cluster, c, a, LastNaming(env, cs, a).value);
  }

  lemma TargetsOfMove(env: Renderer, c: Change, cluster: string, a: string, b: string)
    requires env.objectName(cluster, a) != env.objectName(cluster, b)
    ensures Moves(env, c, cluster, a, [a], [b]) ==> InstanceName(env, c.r, a) in RestartNames(env, c.r, c.plan) && RestartTargets(c.r, c.plan) == {a, b}
    ensures Moves(env, c, cluster, a, [b], []) ==> InstanceName(env, c.r, a) !in RestartNames(env, c.r, c.plan)
    ensures Moves(env, c, cluster, a, [], [a]) ==> InstanceName(env, c.r, a) !in RestartNames(env, c.r, c.plan)
  {
    if Moves(env, c, cluster, a, [a], [b]) {
      assert b in [b] && b !in [a];
      assert RestartTargets(c.r, c.plan) == {a, b};
      assert a in RestartTargets(c.r, c.plan);
    }
    if Moves(env, c, cluster, a, [b], []) { assert RestartTargets(c.r, c.plan) == {b}; }
  }

  lemma TokenOutlives(env: Renderer, cluster: string, a: string, b: string, c: seq<Change>, w: World)
    requires Cycle(env, cluster, a, b, c)
    ensures var w3 := Applied(Applied(Applied(w, env, c[0]), env, c[1]), env, c[2]);
            var n := env.objectName(cluster, a);
            n in w3.deployments && Token(w3.deployments[n]) == TokenFor(env, c[0].r, c[0].plan)
  {
    var w1 := Applied(w, env, c[0]);
    var w2 := Applied(w1, env, c[1]);
    TargetsOfMove(env, c[0], cluster, a, b);
    TargetsOfMove(env, c[1], cluster, a, b);
    TargetsOfMove(env, c[2], cluster, a, b);
    TokenAfter(w, env, c[0], a);
    TokenAfter(w1, env, c[1], a);
    TokenAfter(w2, env, c[2], a);
  }

  /** The second move from a to b has the token of the first, a still holds it, and so a is named as a target but not
      restarted, whatever the cluster was like at the start. */
  lemma SecondMoveRestartsLess(env: Renderer, cluster: string, a: string, b: string, c: seq<Change>, w: World)
    requires Cycle(env, cluster, a, b, c)
    ensures var w3 := Applied(Applied(Applied(w, env, c[0]), env, c[1]), env, c[2]);
            var n, left := InstanceName(env, c[3].r, a), PutDeployments(w3, env, c[3].r, c[3].plan) - Gone(env, c[3].r, c[3].plan, c[3].removed);
            && TokenFor(env, c[3].r, c[3].plan) == TokenFor(env, c[0].r, c[0].plan)
            && n in RestartNames(env, c[3].r, c[3].plan) && n in left
            && Applied(w3, env, c[3]).deployments[n] == left[n]
            && Applied(w3, env, c[3]).deployments[n].template == left[n].template
  {
    var w3 := Applied(Applied(Applied(w, env, c[0]), env, c[1]), env, c[2]);
    TokenOutlives(env, cluster, a, b, c, w);
    TargetsOfMove(env, c[0], cluster, a, b);
    TargetsOfMove(env, c[3], cluster, a, b);
    WantedIsPut(w3, env, c[3], a);
    RestartIffTokenDiffers(PutDeployments(w3, env, c[3].r, c[3].plan) - Gone(env, c[3].r, c[3].plan, c[3].removed),
                           RestartNames(env, c[3].r, c[3].plan), TokenFor(env, c[3].r, c[3].plan), InstanceName(env, c[3].r, a));
  }

  // ---------------------------------------------------------------- the planner makes such moves

  /** Two instances, x the reader and y the writer, both enabled and recorded with their health. */
  ghost predicate Pair(r: Resource, x: Observation, y: Observation, healthy: bool) {
    && r.status.discoveryTrusted.Trusted? && r.status.missing == [] && r.spec.overrides == []
    && (r.status.topology == [x, y] || r.status.topology == [y, x])
    && x.role == Reader && y.role == Writer && x.name != "" && y.name != "" && x.name != y.name
    && (exists p, q :: r.status.instances == [p, q] && p.obs == x && q.obs == y && q.healthy == healthy)
  }

  lemma PairAssess(r: Resource, x: Observation, y: Observation, healthy: bool)
    requires Pair(r, x, y, healthy)
    ensures Assess(Look(r), y).healthy == healthy
  {
    var p, q :| r.status.instances == [p, q] && p.obs == x && q.obs == y && q.healthy == healthy;
    assert LastStatus([p, q], y.name) == Some(q);
  }

  lemma PairPlan(r: Resource, x: Observation, y: Observation, healthy: bool)
    requires Pair(r, x, y, healthy)
    ensures Plan(Look(r)).membership.writer == if healthy then [y.name] else []
    ensures Wants(Plan(Look(r)), x.name) && Wants(Plan(Look(r)), y.name)
  {
    var input := Look(r);
    PairAssess(r, x, y, healthy);
    assert x in input.discovered && y in input.discovered;
    if healthy {
      assert HealthyMember(input, Writer, y.name);
      SoleHealthyWriter(input, y.name);
    } else {
      assert forall n :: !HealthyMember(input, Writer, n);
      forall n ensures n !in Plan(input).membership.writer { NoHealthyWriter(input, n); }
      EmptyIff(Plan(input).membership.writer);
    }
    PlannedIsWanted(input, x);
    PlannedIsWanted(input, y);
  }

  lemma PlannedIsWanted(input: Input, o: Observation)
    requires input.trusted && o in input.discovered && !Disabled(input.resource.spec, o.name)
    ensures Wants(Plan(input), o.name)
  {
    var i :| 0 <= i < |input.discovered| && input.discovered[i] == o;
    var p := Assessed(input)[i];
    DisabledUnhealthy(input, o);
    WriterOf(input);
    SortElements(PlanName, Assessed(input));
    assert p in Assessed(input);
    ActiveSpec(Plan(input).instances, p);
  }

  ghost predicate Applicable(env: Renderer, r: Resource) {
    EffectivePolicy(r).RestartWriters? && DistinctNames(env, r, Plan(Look(r)), {})
  }

  function Planned(r: Resource): Change { Change(r, Plan(Look(r)), {}) }

  lemma PlannedMove(env: Renderer, r: Resource, x: Observation, y: Observation, healthy: bool, a: string)
    requires Pair(r, x, y, healthy) && Applicable(env, r) && (a == x.name || a == y.name)
    ensures Moves(env, Planned(r), r.name, a, r.status.lastApplied.writer, if healthy then [y.name] else [])
  {
    PairPlan(r, x, y, healthy);
  }

  lemma CycleOf(env: Renderer, cluster: string, a: string, b: string, c0: Change, c1: Change, c2: Change)
    requires env.objectName(cluster, a) != env.objectName(cluster, b)
    requires Moves(env, c0, cluster, a, [a], [b]) && Moves(env, c1, cluster, a, [b], []) && Moves(env, c2, cluster, a, [], [a])
    ensures Cycle(env, cluster, a, b, [c0, c1, c2, c0])
  {
  }

  /** The planner itself makes such a cycle: y is healthy as the writer, fails, hands the role to x and takes it back. */
  lemma PlannedCycle(env: Renderer, r0: Resource, r1: Resource, r2: Resource, x: Observation, y: Observation)
    requires r0.name == r1.name == r2.name && env.objectName(r0.name, x.name) != env.objectName(r0.name, y.name)
    requires Applicable(env, r0) && Applicable(env, r1) && Applicable(env, r2)
    requires Pair(r0, x, y, true) && r0.status.lastApplied.writer == [x.name]
    requires Pair(r1, x, y, false) && r1.status.lastApplied.writer == [y.name]
    requires Pair(r2, y.(role := Reader), x.(role := Writer), true) && r2.status.lastApplied.writer == []
    ensures Cycle(env, r0.name, x.name, y.name, [Planned(r0), Planned(r1), Planned(r2), Planned(r0)])
  {
    PlannedMove(env, r0, x, y, true, x.name);
    PlannedMove(env, r1, x, y, false, x.name);
    PlannedMove(env, r2, y.(role := Reader), x.(role := Writer), true, x.name);
    CycleOf(env, r0.name, x.name, y.name, Planned(r0), Planned(r1), Planned(r2));
  }
}
