/** Health thresholds over whole histories: what the counters and the health flag of an instance are
    after any number of monitor rounds, as a closed form of the raw probe results. */
module Hysteresis {
  import opened Text
  import opened Domain
  import opened Planner
  import opened PlannerLaws

  /** How many of the last results equal `v`. */
  function TrailingRun(h: seq<bool>, v: bool): nat {
    if h == [] || h[|h| - 1] != v then 0 else 1 + TrailingRun(h[..|h| - 1], v)
  }

  function Failure(spec: Spec): int { DefaultInt(spec.failureThreshold, 3) }

  function Recovery(spec: Spec): int { DefaultInt(spec.recoveryThreshold, 2) }

  /** The newest result decides the health by itself: it is the very first observation, or it
      completes (or prolongs) a run as long as its threshold. */
  predicate Decisive(spec: Spec, first: bool, h: seq<bool>)
    requires h != []
  {
    || (first && |h| == 1)
    || TrailingRun(h, true) >= Recovery(spec)
    || TrailingRun(h, false) >= Failure(spec)
  }

  /** The raw result of the latest decisive observation, or the recorded health if there is none.
      `start` is the health recorded before the history, None when nothing was recorded. */
  function Verdict(spec: Spec, start: Option<bool>, h: seq<bool>): bool {
    if h == [] then start.Some? && start.value
    else if Decisive(spec, start.None?, h) then h[|h| - 1]
    else Verdict(spec, start, h[..|h| - 1])
  }

  /** Health turns true exactly when a success run reaches the recovery threshold and false exactly
      when a failure run reaches the failure threshold. */
  lemma TurnsAtThreshold(spec: Spec, start: Option<bool>, h: seq<bool>)
    requires h != [] && (start.Some? || |h| > 1)
    ensures !Verdict(spec, start, h[..|h| - 1]) ==> (Verdict(spec, start, h) <==> TrailingRun(h, true) == Recovery(spec))
    ensures Verdict(spec, start, h[..|h| - 1]) ==> (!Verdict(spec, start, h) <==> TrailingRun(h, false) == Failure(spec))
  {
    var init := h[..|h| - 1];
    if init == [] {
      assert TrailingRun(init, true) == 0 && TrailingRun(init, false) == 0;
    }
  }

  // ---------------------------------------------------------------- one round of planning

  lemma {:induction false} LastStatusUnique(statuses: seq<InstanceStatus>, p: InstanceStatus)
    requires p in statuses && p.obs.name != "" && NoDup(Map(PlanName, statuses))
    ensures LastStatus(statuses, p.obs.name) == Some(p)
  {
    LastKeyFresh(PlanName, statuses);
    var init, last := statuses[..|statuses| - 1], statuses[|statuses| - 1];
    assert forall x :: x in init ==> PlanName(x) != PlanName(last);
    if p != last {
      assert p in init;
      LastStatusUnique(init, p);
    }
  }

  lemma PlannedNames(input: Input)
    requires input.trusted
    ensures multiset(Map(PlanName, Plan(input).instances)) == multiset(Names(input.discovered))
  {
    WriterOf(input);
    SortPermutes(PlanName, Assessed(input));
    MapMultiset(PlanName, Plan(input).instances, Assessed(input));
    assert Map(PlanName, Assessed(input)) == Names(input.discovered);
  }

  /** What the next round finds recorded for an observed instance is its assessment. */
  lemma RecordedAssessment(input: Input, o: Observation)
    requires input.trusted && NoDup(Names(input.discovered)) && o in input.discovered && o.name != ""
    ensures LastStatus(Plan(input).instances, o.name) == Some(Assess(input, o))
  {
    WriterOf(input);
    PlannedNames(input);
    NoDupMultiset(Names(input.discovered));
    NoDupMultiset(Map(PlanName, Plan(input).instances));
    SortElements(PlanName, Assessed(input));
    var i :| 0 <= i < |input.discovered| && input.discovered[i] == o;
    assert Assessed(input)[i] in Assessed(input);
    LastStatusUnique(Plan(input).instances, Assess(input, o));
  }

  // ---------------------------------------------------------------- histories of rounds

  /** One round observes the instance, enabled, with the thresholds of `spec`. */
  ghost predicate Watches(spec: Spec, o: Observation, round: Input) {
    && round.trusted && NoDup(Names(round.discovered)) && o in round.discovered
    && !Disabled(round.resource.spec, o.name)
    && Failure(round.resource.spec) == Failure(spec) && Recovery(round.resource.spec) == Recovery(spec)
  }

  /** Rounds that each start from the statuses the previous one recorded and observe the same
      physical instance; its role, endpoint and zone may change from round to round. */
  ghost predicate Chained(spec: Spec, name: string, obs: seq<Observation>, rounds: seq<Input>) {
    && |obs| == |rounds|
    && (forall i :: 0 <= i < |rounds| ==> obs[i].name == name && Watches(spec, obs[i], rounds[i]))
    && (forall i :: 0 < i < |rounds| ==>
          && rounds[i].resource.status.instances == Plan(rounds[i - 1]).instances
          && !IdentityChanged(obs[i].dbi, obs[i - 1].dbi))
  }

  function RawResult(round: Input, name: string): bool {
    name in round.health && round.health[name].healthy
  }

  /** The raw results of the rounds that probed; rounds on cached health contribute nothing. */
  ghost function History(rounds: seq<Input>, name: string): seq<bool> {
    if rounds == [] then []
    else
      var rest, last := History(rounds[..|rounds| - 1], name), rounds[|rounds| - 1];
      if last.cached then rest else rest + [RawResult(last, name)]
  }

  /** What was recorded before the first round: nothing, or a health flag with both counters at zero. */
  ghost predicate StartsAt(statuses: seq<InstanceStatus>, o: Observation, start: Option<bool>) {
    match Previous(statuses, o)
    case None => start.None?
    case Some(p) => start.Some? && start.value == p.healthy && p.failures == 0 && p.successes == 0
  }

  ghost predicate Describes(spec: Spec, start: Option<bool>, h: seq<bool>, p: InstanceStatus) {
    && p.healthy == Verdict(spec, start, h)
    && p.failures == TrailingRun(h, false)
    && p.successes == TrailingRun(h, true)
  }

  ghost predicate Continues(spec: Spec, o: Observation, statuses: seq<InstanceStatus>, start: Option<bool>, h: seq<bool>) {
    || (h == [] && StartsAt(statuses, o, start))
    || (h != [] && Previous(statuses, o).Some? && Describes(spec, start, h, Previous(statuses, o).value))
  }

  lemma RunsAfter(h: seq<bool>, raw: bool)
    ensures (h + [raw])[..|h|] == h
    ensures TrailingRun(h + [raw], raw) == 1 + TrailingRun(h, raw) && TrailingRun(h + [raw], !raw) == 0
    ensures h == [] ==> TrailingRun(h, true) == 0 && TrailingRun(h, false) == 0
  {
    assert (h + [raw])[..|h|] == h;
  }

  /** One more probe result on a status the closed form describes. */
  lemma NextProbe(spec: Spec, previous: Option<InstanceStatus>, p: InstancePlan, start: Option<bool>, h: seq<bool>)
    requires h == [] ==> if previous.None? then start.None?
                         else start == Some(previous.value.healthy) && previous.value.failures == previous.value.successes == 0
    requires h != [] ==> previous.Some? && Describes(spec, start, h, previous.value)
    ensures Describes(spec, start, h + [p.healthy], Thresholds(spec, p, previous))
  {
    RunsAfter(h, p.healthy);
  }

  lemma ThresholdsOnly(spec: Spec, spec': Spec, p: InstancePlan, previous: Option<InstanceStatus>)
    requires Failure(spec) == Failure(spec') && Recovery(spec) == Recovery(spec')
    ensures Thresholds(spec, p, previous) == Thresholds(spec', p, previous)
  {
  }

  /** One more round on any recorded status the closed form describes. */
  lemma NextRound(spec: Spec, o: Observation, round: Input, start: Option<bool>, h: seq<bool>)
    requires Watches(spec, o, round)
    requires Continues(spec, o, round.resource.status.instances, start, h)
    requires round.cached ==> Previous(round.resource.status.instances, o).Some?
    ensures Describes(spec, start, if round.cached then h else h + [RawResult(round, o.name)], Assess(round, o))
  {
    var previous := Previous(round.resource.status.instances, o);
    if round.cached {
      RunsAfter(h, true);
    } else {
      var blank := InstancePlan(o, false, false, ReplicasFor(round.resource.spec, o.name), 0, 0, 0);
      var raw := if o.name in round.health then blank.(healthy := round.health[o.name].healthy, ready := round.health[o.name].ready) else blank;
      ThresholdsOnly(spec, round.resource.spec, raw, previous);
      NextProbe(spec, previous, raw, start, h);
    }
  }

  lemma Resumes(
    spec: Spec, o: Observation, statuses: seq<InstanceStatus>, recorded: InstanceStatus, start: Option<bool>, h: seq<bool>)
    requires LastStatus(statuses, o.name) == Some(recorded) && !IdentityChanged(o.dbi, recorded.obs.dbi)
    requires Describes(spec, start, h, recorded) && (start.None? ==> h != [])
    ensures Continues(spec, o, statuses, start, h) && Previous(statuses, o).Some?
  {
    if h == [] {
      assert TrailingRun(h, true) == 0 && TrailingRun(h, false) == 0;
      assert start.Some? && recorded.healthy == start.value;
    }
  }

  ghost predicate Recorded(spec: Spec, start: Option<bool>, h: seq<bool>, round: Input, o: Observation) {
    && LastStatus(Plan(round).instances, o.name) == Some(Assess(round, o))
    && Describes(spec, start, h, Assess(round, o))
  }

  ghost function Extended(h: seq<bool>, round: Input, name: string): seq<bool> {
    if round.cached then h else h + [RawResult(round, name)]
  }

  lemma LaterRound(
    spec: Spec, o0: Observation, round0: Input, o: Observation, round: Input, start: Option<bool>, h: seq<bool>)
    requires Recorded(spec, start, h, round0, o0) && (start.None? ==> h != [])
    requires Watches(spec, o, round) && o.name == o0.name != ""
    requires round.resource.status.instances == Plan(round0).instances && !IdentityChanged(o.dbi, o0.dbi)
    ensures Recorded(spec, start, Extended(h, round, o.name), round, o)
  {
    DisabledUnhealthy(round0, o0);
    Resumes(spec, o, round.resource.status.instances, Assess(round0, o0), start, h);
    NextRound(spec, o, round, start, h);
    RecordedAssessment(round, o);
  }

  lemma FirstRound(spec: Spec, o: Observation, round: Input, start: Option<bool>)
    requires Watches(spec, o, round) && o.name != ""
    requires StartsAt(round.resource.status.instances, o, start) && (round.cached ==> start.Some?)
    ensures Recorded(spec, start, Extended([], round, o.name), round, o)
  {
    NextRound(spec, o, round, start, []);
    RecordedAssessment(round, o);
  }

  lemma ChainedPrefix(spec: Spec, name: string, obs: seq<Observation>, rounds: seq<Input>)
    requires Chained(spec, name, obs, rounds) && |rounds| > 1
    ensures var k := |rounds| - 1;
            Chained(spec, name, obs[..k], rounds[..k]) && obs[k].name == obs[k - 1].name == name && Watches(spec, obs[k], rounds[k])
  {
  }

  /** After any chain of rounds the recorded counters are the trailing run lengths of the raw results
      and the recorded health is the closed form; rounds on cached health change nothing. */
  lemma {:induction false} HealthOfHistory(
    spec: Spec, name: string, obs: seq<Observation>, rounds: seq<Input>, start: Option<bool>)
    requires name != "" && rounds != [] && Chained(spec, name, obs, rounds)
    requires StartsAt(rounds[0].resource.status.instances, obs[0], start)
    requires rounds[0].cached ==> start.Some?
    ensures Recorded(spec, start, History(rounds, name), rounds[|rounds| - 1], obs[|obs| - 1])
    ensures start.None? ==> History(rounds, name) != []
    decreases |rounds|
  {
    var k := |rounds| - 1;
    if k == 0 {
      assert History(rounds[..k], name) == [];
      FirstRound(spec, obs[0], rounds[0], start);
    } else {
      ChainedPrefix(spec, name, obs, rounds);
      HealthOfHistory(spec, name, obs[..k], rounds[..k], start);
      LaterRound(spec, obs[k - 1], rounds[k - 1], obs[k], rounds[k], start, History(rounds[..k], name));
    }
  }
}
