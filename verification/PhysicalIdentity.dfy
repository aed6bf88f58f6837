/** What RDS metadata can do to traffic.  It decides neither trust nor topology (Aurora.MetadataDoesNotDecide), but a
    changed DbiResourceId makes the planner forget the recorded health of an instance, and that reaches the
    membership. */
module PhysicalIdentity {
  import opened Text
  import opened Domain
  import opened Planner
  import opened PlannerLaws

  /** The resource id differs from the recorded one, so the planner starts the instance's health afresh. */
  predicate Forgets(input: Input, o: Observation) {
    var last := LastStatus(input.resource.status.instances, o.name);
    last.Some? && IdentityChanged(o.dbi, last.value.obs.dbi)
  }

  predicate Raw(input: Input, name: string) { name in input.health && input.health[name].healthy }

  /** The recorded status still decides: cached health, a failure held back by the failure threshold, or a success
      held back by the recovery threshold. */
  predicate HistoryDecides(input: Input, o: Observation) {
    var last := LastStatus(input.resource.status.instances, o.name);
    && last.Some? && !Disabled(input.resource.spec, o.name)
    && if input.cached then last.value.healthy
       else if Raw(input, o.name) then !last.value.healthy && last.value.successes + 1 < DefaultInt(input.resource.spec.recoveryThreshold, 2)
       else last.value.healthy && last.value.failures + 1 < DefaultInt(input.resource.spec.failureThreshold, 3)
  }

  /** Another resource id changes the health verdict of an instance exactly when it makes the planner forget a
      history that was deciding. */
  lemma VerdictChangesIff(input: Input, o: Observation, dbi: string)
    requires !Forgets(input, o)
    ensures Assess(input, o.(dbi := dbi)).healthy != Assess(input, o).healthy <==>
            Forgets(input, o.(dbi := dbi)) && HistoryDecides(input, o)
  {
  }

  /** The two inputs differ at most in the zones and resource ids of the discovered instances. */
  ghost predicate OnlyMetadataDiffers(a: Input, b: Input) {
    && b == a.(discovered := b.discovered) && |a.discovered| == |b.discovered|
    && forall i :: 0 <= i < |a.discovered| ==>
         b.discovered[i] == a.discovered[i].(zone := b.discovered[i].zone, dbi := b.discovered[i].dbi)
  }

  /** One of the inputs makes the planner forget a history that decides in the other. */
  ghost predicate Affected(a: Input, b: Input, i: nat)
    requires i < |a.discovered| && i < |b.discovered|
  {
    Forgets(a, a.discovered[i]) != Forgets(b, b.discovered[i]) && HistoryDecides(a, a.discovered[i])
  }

  ghost predicate SameButMetadata(a: Input, b: Input) {
    OnlyMetadataDiffers(a, b) && forall i :: 0 <= i < |a.discovered| ==> !Affected(a, b, i)
  }

  lemma SameVerdicts(a: Input, b: Input, i: nat)
    requires OnlyMetadataDiffers(a, b) && i < |a.discovered|
    ensures Assessed(a)[i].healthy == Assessed(b)[i].healthy <==> !Affected(a, b, i)
    ensures Assessed(a)[i].obs.name == Assessed(b)[i].obs.name && Assessed(a)[i].obs.role == Assessed(b)[i].obs.role
  {
  }

  lemma {:induction false} SameHealthyNames(p: seq<InstancePlan>, q: seq<InstancePlan>, role: Role)
    requires |p| == |q|
    requires forall i :: 0 <= i < |p| ==> p[i].healthy == q[i].healthy && p[i].obs.name == q[i].obs.name && p[i].obs.role == q[i].obs.role
    ensures HealthyNames(p, role) == HealthyNames(q, role)
  {
    if p != [] { SameHealthyNames(p[..|p| - 1], q[..|q| - 1], role); }
  }

  lemma SameSuppression(a: Input, b: Input)
    requires SameButMetadata(a, b)
    ensures AllReadersDisabled(a.resource.spec, a.discovered) == AllReadersDisabled(b.resource.spec, b.discovered)
  {
    var spec := a.resource.spec;
    forall i | 0 <= i < |a.discovered|
      ensures a.discovered[i].role == b.discovered[i].role && Disabled(spec, a.discovered[i].name) == Disabled(spec, b.discovered[i].name) { }
    forall o | o in a.discovered ensures exists x :: x in b.discovered && x.role == o.role && x.name == o.name {
      var i :| 0 <= i < |a.discovered| && a.discovered[i] == o;
      assert b.discovered[i] in b.discovered;
    }
    forall o | o in b.discovered ensures exists x :: x in a.discovered && x.role == o.role && x.name == o.name {
      var i :| 0 <= i < |b.discovered| && b.discovered[i] == o;
      assert a.discovered[i] in a.discovered;
    }
  }

  /** The stages after the first draft look at nothing but its membership and the suppression flag. */
  lemma StagesFollowMembership(r: Resource, p: Output, q: Output, missing: seq<Missing>)
    requires p.membership == q.membership && p.suppressed == q.suppressed
    ensures StabilizeReader(r, PreserveReaders(r, StabilizeWriter(r, p, missing), missing), missing).membership ==
            StabilizeReader(r, PreserveReaders(r, StabilizeWriter(r, q, missing), missing), missing).membership
  {
    var p1, q1 := StabilizeWriter(r, p, missing), StabilizeWriter(r, q, missing);
    assert p1.membership == q1.membership && p1.suppressed == q1.suppressed;
    var p2, q2 := PreserveReaders(r, p1, missing), PreserveReaders(r, q1, missing);
    assert p2.membership == q2.membership && p2.suppressed == q2.suppressed;
  }

  /** Metadata that makes the planner forget no deciding history moves no traffic. */
  lemma MetadataMovesNoTraffic(a: Input, b: Input)
    requires a.trusted && SameButMetadata(a, b)
    ensures Plan(a).membership == Plan(b).membership
  {
    forall i: nat | i < |a.discovered| ensures !Affected(a, b, i) && Assessed(a)[i].healthy == Assessed(b)[i].healthy {
      SameVerdicts(a, b, i);
    }
    SameHealthyNames(Assessed(a), Assessed(b), Writer);
    SameHealthyNames(Assessed(a), Assessed(b), Reader);
    SameSuppression(a, b);
    StagesFollowMembership(a.resource, FirstDraft(a), FirstDraft(b), a.missing);
  }

  /** In a discovered topology a healthy instance is in the list of its role, and an unhealthy one in neither list. */
  lemma HealthyIsMember(input: Input, i: nat)
    requires input.trusted && TrustedShape(input.discovered) && MissingApart(input) && i < |input.discovered|
    ensures var o, m := input.discovered[i], Plan(input).membership;
            (o.name in if o.role == Writer then m.writer else m.reader) <==> Assess(input, o).healthy
  {
    var o := input.discovered[i];
    StrictNamesNoDup(input.discovered);
    forall x | x in input.discovered && x.name == o.name ensures x == o { SameName(input.discovered, x, o); }
    assert !KeptWriter(input, o.name) && !KeptReader(input, o.name);
    assert HealthyMember(input, o.role, o.name) <==> Assess(input, o).healthy;
    if o.role == Writer {
      OnlyDiscoveredWriter(input, o);
    } else {
      ReaderProvenance(input, o.name);
      if o.name in Plan(input).membership.writer { WriterOrigin(input, o.name); }
    }
  }

  ghost predicate MissingApart(input: Input) {
    forall m, o :: m in input.missing && o in input.discovered ==> m.name != o.name
  }

  lemma SameName(instances: seq<Observation>, x: Observation, y: Observation)
    requires NoDup(Names(instances)) && x in instances && y in instances && x.name == y.name
    ensures x == y
  {
    var i :| 0 <= i < |instances| && instances[i] == x;
    var j :| 0 <= j < |instances| && instances[j] == y;
    assert Names(instances)[i] == Names(instances)[j];
  }

  lemma OnlyDiscoveredWriter(input: Input, o: Observation)
    requires input.trusted && TrustedShape(input.discovered) && o in input.discovered && o.role == Writer && !KeptWriter(input, o.name)
    ensures o.name in Plan(input).membership.writer <==> Assess(input, o).healthy
  {
    StrictNamesNoDup(input.discovered);
    var i :| 0 <= i < |input.discovered| && OnlyWriter(input.discovered, i);
    assert forall x :: x in input.discovered && x.role == Writer ==> IsWriter(x) && x == input.discovered[i];
    if Assess(input, o).healthy {
      assert HealthyMember(input, Writer, o.name);
      SoleHealthyWriter(input, o.name);
    } else {
      assert forall n :: !HealthyMember(input, Writer, n);
      NoHealthyWriter(input, o.name);
    }
  }

  lemma MetadataKeepsShape(a: Input, b: Input)
    requires OnlyMetadataDiffers(a, b) && TrustedShape(a.discovered) && MissingApart(a)
    ensures TrustedShape(b.discovered) && MissingApart(b)
  {
    var x, y := a.discovered, b.discovered;
    assert forall i :: 0 <= i < |x| ==> x[i].name == y[i].name && x[i].role == y[i].role && x[i] in x;
    forall i, j | 0 <= i < j < |y| ensures Less(ObsName(y[i]), ObsName(y[j])) { assert Less(ObsName(x[i]), ObsName(x[j])); }
    var i :| 0 <= i < |x| && OnlyWriter(x, i);
    forall j | 0 <= j < |y| && IsWriter(y[j]) ensures j == i { assert IsWriter(x[j]); }
    assert IsWriter(x[i]) && OnlyWriter(y, i);
  }

  /** Metadata moves traffic if and only if it makes the planner forget a deciding history: on a discovered topology the
      two memberships are equal exactly when no instance is affected. */
  lemma MetadataMovesTrafficIff(a: Input, b: Input)
    requires a.trusted && OnlyMetadataDiffers(a, b) && TrustedShape(a.discovered) && MissingApart(a)
    ensures Plan(a).membership != Plan(b).membership <==> exists i :: 0 <= i < |a.discovered| && Affected(a, b, i)
  {
    if i :| 0 <= i < |a.discovered| && Affected(a, b, i) {
      MetadataKeepsShape(a, b);
      SameVerdicts(a, b, i);
      HealthyIsMember(a, i);
      HealthyIsMember(b, i);
    } else {
      MetadataMovesNoTraffic(a, b);
    }
  }

  /** The documented promise fails, for instance: with cached health, an applied healthy writer leaves the Service when
      nothing but its resource id changed. */
  lemma MetadataCanRemove(input: Input, o: Observation, p: InstanceStatus, dbi: string)
    requires input.trusted && input.cached && input.missing == []
    requires o.role == Writer && o.name != "" && !Disabled(input.resource.spec, o.name)
    requires input.resource.status.instances == [p] && p.obs == o && p.healthy && o.dbi != "" && dbi != "" && dbi != o.dbi
    requires input.resource.status.lastApplied == Membership([o.name], [o.name])
    ensures Plan(input.(discovered := [o])).membership.writer == [o.name]
    ensures Plan(input.(discovered := [o.(dbi := dbi)])).membership == Membership([], [])
  {
    var a, b := input.(discovered := [o]), input.(discovered := [o.(dbi := dbi)]);
    assert LastStatus([p], o.name) == Some(p);
    assert Assess(a, o).healthy && !Assess(b, o.(dbi := dbi)).healthy;
    assert forall q: seq<InstancePlan> :: |q| == 1 ==> q[..0] == [];
    assert HealthyNames(Assessed(a), Writer) == [o.name];
    assert HealthyNames(Assessed(b), Writer) == [] && HealthyNames(Assessed(b), Reader) == [];
    SortOfStrict(Self, [o.name]);
    WriterOf(a);
    WriterOf(b);
    assert ActiveMissing([], RemoveAfter(input.resource.spec)) == {};
  }
}
