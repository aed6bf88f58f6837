/** planner.Plan: from trusted topology, health, missing counts and the last applied membership to
    the Writer and Reader sets.  The functions say what each stage computes; class Draft runs the
    stages the way the operator does, on an output that is updated in place. */
module Planner {
  import opened Text
  import opened Domain

  datatype Input = Input(
    resource: Resource,
    trusted: bool,
    discovered: seq<Observation>,
    health: map<string, Health>,
    cached: bool,
    missing: seq<Missing>)

  datatype Note =
    | DiscoveryUntrusted | WriterPreserved | WriterAmbiguous | MissingReaderPreserved
    | FallbackSuppressed | ReaderFallback | ReaderPreserved | WriterFastPath | ZoneConflict

  datatype Output = Output(
    instances: seq<InstancePlan>,
    membership: Membership,
    frozen: bool,
    suppressed: bool,
    notes: seq<Note>)

  // ---------------------------------------------------------------- one instance

  /** The last stored status of that name; an empty name is never stored. */
  function LastStatus(statuses: seq<InstanceStatus>, name: string): Option<InstanceStatus> {
    if statuses == [] || name == "" then None
    else if statuses[|statuses| - 1].obs.name == name then Some(statuses[|statuses| - 1])
    else LastStatus(statuses[..|statuses| - 1], name)
  }

  predicate IdentityChanged(current: string, previous: string) {
    current != "" && previous != "" && current != previous
  }

  /** The status an observation continues: none when the physical instance behind the name changed. */
  function Previous(statuses: seq<InstanceStatus>, o: Observation): Option<InstanceStatus> {
    var last := LastStatus(statuses, o.name);
    if last.Some? && IdentityChanged(o.dbi, last.value.obs.dbi) then None else last
  }

  function CachedHealth(p: InstancePlan, previous: Option<InstanceStatus>): InstancePlan {
    if previous.None? then p
    else p.(healthy := previous.value.healthy, ready := previous.value.ready,
            failures := previous.value.failures, successes := previous.value.successes)
  }

  /** applyMonitorThresholds; `p.healthy` holds the raw result on entry. */
  function Thresholds(spec: Spec, p: InstancePlan, previous: Option<InstanceStatus>): InstancePlan {
    if p.healthy then
      var successes := (if previous.Some? then previous.value.successes else 0) + 1;
      var recovering := previous.Some? && !previous.value.healthy && successes < DefaultInt(spec.recoveryThreshold, 2);
      p.(successes := successes, failures := 0, healthy := !recovering)
    else
      var failures := (if previous.Some? then previous.value.failures else 0) + 1;
      var kept := previous.Some? && previous.value.healthy && failures < DefaultInt(spec.failureThreshold, 3);
      p.(failures := failures, successes := 0, healthy := kept)
  }

  function Assess(input: Input, o: Observation): InstancePlan {
    var spec := input.resource.spec;
    var previous := Previous(input.resource.status.instances, o);
    var blank := InstancePlan(o, false, false, ReplicasFor(spec, o.name), 0, 0, 0);
    if Disabled(spec, o.name) then blank.(disabled := true, replicas := 0)
    else if input.cached then CachedHealth(blank, previous)
    else if o.name in input.health then
      Thresholds(spec, blank.(healthy := input.health[o.name].healthy, ready := input.health[o.name].ready), previous)
    else Thresholds(spec, blank, previous)
  }

  function Assessed(input: Input): (r: seq<InstancePlan>)
    ensures |r| == |input.discovered|
    ensures forall i :: 0 <= i < |r| ==> r[i] == Assess(input, input.discovered[i])
  {
    Map(o => Assess(input, o), input.discovered)
  }

  /** The names of the healthy plans of a role, in order. */
  function HealthyNames(plans: seq<InstancePlan>, role: Role): seq<string> {
    if plans == [] then []
    else
      var rest, last := HealthyNames(plans[..|plans| - 1], role), plans[|plans| - 1];
      if last.healthy && last.obs.role == role then rest + [last.obs.name] else rest
  }

  lemma HealthyStep(plans: seq<InstancePlan>, i: nat, role: Role)
    requires i < |plans|
    ensures HealthyNames(plans[..i + 1], role) ==
            HealthyNames(plans[..i], role) + if plans[i].healthy && plans[i].obs.role == role then [plans[i].obs.name] else []
  {
    assert plans[..i + 1][..i] == plans[..i];
  }

  lemma DisabledUnhealthy(input: Input, o: Observation)
    ensures Assess(input, o).obs == o
    ensures Assess(input, o).disabled == Disabled(input.resource.spec, o.name)
    ensures Assess(input, o).disabled ==> !Assess(input, o).healthy
  {
  }

  predicate AllReadersDisabled(spec: Spec, discovered: seq<Observation>) {
    && (exists o :: o in discovered && o.role == Reader)
    && (forall o :: o in discovered && o.role == Reader ==> Disabled(spec, o.name))
  }

  function ReaderCount(spec: Spec, discovered: seq<Observation>, disabled: bool): nat {
    if discovered == [] then 0
    else
      var last := discovered[|discovered| - 1];
      ReaderCount(spec, discovered[..|discovered| - 1], disabled) +
      if last.role == Reader && Disabled(spec, last.name) == disabled then 1 else 0
  }

  lemma CountStep(spec: Spec, discovered: seq<Observation>, i: nat, disabled: bool)
    requires i < |discovered|
    ensures ReaderCount(spec, discovered[..i + 1], disabled) ==
            ReaderCount(spec, discovered[..i], disabled) +
            if discovered[i].role == Reader && Disabled(spec, discovered[i].name) == disabled then 1 else 0
  {
    assert discovered[..i + 1][..i] == discovered[..i];
  }

  lemma {:induction false} ReaderCountZero(spec: Spec, discovered: seq<Observation>, disabled: bool)
    ensures ReaderCount(spec, discovered, disabled) == 0 <==>
            forall o :: o in discovered && o.role == Reader ==> Disabled(spec, o.name) != disabled
  {
    if discovered != [] { ReaderCountZero(spec, discovered[..|discovered| - 1], disabled); }
  }

  lemma ReaderCounts(spec: Spec, discovered: seq<Observation>)
    ensures AllReadersDisabled(spec, discovered) <==>
            ReaderCount(spec, discovered, true) > 0 && ReaderCount(spec, discovered, false) == 0
  {
    ReaderCountZero(spec, discovered, true);
    ReaderCountZero(spec, discovered, false);
  }

  function FirstDraft(input: Input): Output {
    var plans := Assessed(input);
    Output(Sort(PlanName, plans),
           Membership(SortNames(HealthyNames(plans, Writer)), SortNames(HealthyNames(plans, Reader))),
           false, AllReadersDisabled(input.resource.spec, input.discovered), [])
  }

  // ---------------------------------------------------------------- stabilising the membership

  function ActiveMissing(missing: seq<Missing>, threshold: int): set<string> {
    set m | m in missing && m.name != "" && m.count < threshold :: m.name
  }

  function Enabled(spec: Spec, names: seq<string>): set<string> {
    set n | n in names && !Disabled(spec, n)
  }

  /** Previously applied members that are missing below the removal threshold and not disabled. */
  function StillMissing(spec: Spec, previous: seq<string>, missing: seq<Missing>): seq<string> {
    var active := Keep(previous, ActiveMissing(missing, RemoveAfter(spec)));
    Keep(active, Enabled(spec, active))
  }

  function StabilizeWriter(r: Resource, out: Output, missing: seq<Missing>): Output {
    var writer := out.membership.writer;
    if |writer| == 1 then out
    else if |writer| > 1 then
      var previous := Keep(r.status.lastApplied.writer, set n | n in writer);
      if |previous| == 1
      then out.(membership := out.membership.(writer := previous), notes := out.notes + [WriterPreserved])
      else out.(membership := out.membership.(writer := []), notes := out.notes + [WriterAmbiguous])
    else
      var previous := StillMissing(r.spec, r.status.lastApplied.writer, missing);
      if |previous| > 0
      then out.(membership := out.membership.(writer := previous), notes := out.notes + [WriterPreserved])
      else out
  }

  predicate Preservable(r: Resource, current: seq<string>, m: Missing) {
    && m.name != "" && m.count < RemoveAfter(r.spec)
    && m.name in r.status.lastApplied.reader && m.name !in current && !Disabled(r.spec, m.name)
  }

  function PreservedReaders(r: Resource, current: seq<string>, missing: seq<Missing>): seq<string> {
    if missing == [] then []
    else
      var rest, last := PreservedReaders(r, current, missing[..|missing| - 1]), missing[|missing| - 1];
      if Preservable(r, current, last) then rest + [last.name] else rest
  }

  function PreserveReaders(r: Resource, out: Output, missing: seq<Missing>): Output {
    if missing == [] || r.status.lastApplied.reader == [] then out
    else
      var added := PreservedReaders(r, out.membership.reader, missing);
      out.(membership := out.membership.(reader := SortNames(out.membership.reader + added)),
           notes := out.notes + seq(|added|, _ => MissingReaderPreserved))
  }

  predicate FallbackEnabled(spec: Spec) {
    spec.readerFallback.None? || spec.readerFallback.value
  }

  function StabilizeReader(r: Resource, out: Output, missing: seq<Missing>): Output {
    if |out.membership.reader| > 0 then out
    else if out.suppressed then out.(notes := out.notes + [FallbackSuppressed])
    else if FallbackEnabled(r.spec) && |out.membership.writer| > 0 then
      out.(membership := out.membership.(reader := out.membership.writer), notes := out.notes + [ReaderFallback])
    else
      var previous := StillMissing(r.spec, r.status.lastApplied.reader, missing);
      if |previous| > 0
      then out.(membership := out.membership.(reader := previous), notes := out.notes + [ReaderPreserved])
      else out
  }

  function FromStatus(statuses: seq<InstanceStatus>): seq<InstancePlan> {
    if statuses == [] then []
    else
      var rest, last := FromStatus(statuses[..|statuses| - 1]), statuses[|statuses| - 1];
      if last.obs.name == "" then rest else rest + [last]
  }

  function Plan(input: Input): Output {
    var r := input.resource;
    if !input.trusted then
      Output(Sort(PlanName, FromStatus(r.status.instances)), r.status.lastApplied, true, false, [DiscoveryUntrusted])
    else
      StabilizeReader(r,
        PreserveReaders(r, StabilizeWriter(r, FirstDraft(input), input.missing), input.missing),
        input.missing)
  }

  // ---------------------------------------------------------------- as the operator runs it

  class Draft {
    var instances: seq<InstancePlan>
    var writer: seq<string>
    var reader: seq<string>
    var suppressed: bool
    var notes: seq<Note>

    ghost function View(): Output
      reads this
    {
      Output(instances, Membership(writer, reader), false, suppressed, notes)
    }

    constructor ()
      ensures View() == Output([], Membership([], []), false, false, [])
    {
      instances, writer, reader, suppressed, notes := [], [], [], false, [];
    }

    method Observe(input: Input)
      requires notes == []
      modifies this
      ensures View() == FirstDraft(input)
    {
      var plans, writers, readers, allDisabled := Pass(input);
      instances := Sort(PlanName, plans);
      writer := SortNames(writers);
      reader := SortNames(readers);
      suppressed := allDisabled;
    }

    method KeepWriter(r: Resource, missing: seq<Missing>)
      modifies this`writer, this`notes
      ensures View() == StabilizeWriter(r, old(View()), missing)
    {
      if |writer| == 1 { return; }
      if |writer| > 1 {
        var previous := Keep(r.status.lastApplied.writer, set n | n in writer);
        if |previous| == 1 {
          writer, notes := previous, notes + [WriterPreserved];
          return;
        }
        writer, notes := [], notes + [WriterAmbiguous];
        return;
      }
      var previous := MissingBelowThreshold(r.spec, r.status.lastApplied.writer, missing);
      if |previous| > 0 {
        writer, notes := previous, notes + [WriterPreserved];
      }
    }

    method KeepMissingReaders(r: Resource, missing: seq<Missing>)
      modifies this`reader, this`notes
      ensures View() == PreserveReaders(r, old(View()), missing)
    {
      if missing == [] || r.status.lastApplied.reader == [] { return; }
      var current := reader;
      ghost var notes0 := notes;
      for i := 0 to |missing|
        invariant reader == current + PreservedReaders(r, current, missing[..i])
        invariant notes == notes0 + seq(|PreservedReaders(r, current, missing[..i])|, _ => MissingReaderPreserved)
      {
        assert missing[..i + 1][..i] == missing[..i];
        if Preservable(r, current, missing[i]) {
          reader, notes := reader + [missing[i].name], notes + [MissingReaderPreserved];
        }
      }
      assert missing[..|missing|] == missing;
      reader := SortNames(reader);
    }

    method FillReader(r: Resource, missing: seq<Missing>)
      modifies this`reader, this`notes
      ensures View() == StabilizeReader(r, old(View()), missing)
    {
      if |reader| > 0 { return; }
      if suppressed {
        notes := notes + [FallbackSuppressed];
        return;
      }
      if FallbackEnabled(r.spec) && |writer| > 0 {
        reader, notes := writer, notes + [ReaderFallback];
        return;
      }
      var previous := MissingBelowThreshold(r.spec, r.status.lastApplied.reader, missing);
      if |previous| > 0 {
        reader, notes := previous, notes + [ReaderPreserved];
      }
    }
  }

  /** The loop of Plan: one pass over the discovered instances. */
  method Pass(input: Input)
    returns (plans: seq<InstancePlan>, writers: seq<string>, readers: seq<string>, allDisabled: bool)
    ensures plans == Assessed(input)
    ensures writers == HealthyNames(plans, Writer) && readers == HealthyNames(plans, Reader)
    ensures allDisabled <==> AllReadersDisabled(input.resource.spec, input.discovered)
  {
    plans, writers, readers := [], [], [];
    var readerCount, disabledCount, enabledCount := 0, 0, 0;
    ghost var all := Assessed(input);
    for i := 0 to |input.discovered|
      invariant plans == all[..i]
      invariant writers == HealthyNames(plans, Writer) && readers == HealthyNames(plans, Reader)
      invariant readerCount == disabledCount + enabledCount
      invariant disabledCount == ReaderCount(input.resource.spec, input.discovered[..i], true)
      invariant enabledCount == ReaderCount(input.resource.spec, input.discovered[..i], false)
    {
      var o := input.discovered[i];
      CountStep(input.resource.spec, input.discovered, i, true);
      CountStep(input.resource.spec, input.discovered, i, false);
      HealthyStep(all, i, Writer);
      HealthyStep(all, i, Reader);
      DisabledUnhealthy(input, o);
      if o.role == Reader {
        readerCount := readerCount + 1;
        if Disabled(input.resource.spec, o.name) { disabledCount := disabledCount + 1; }
        else { enabledCount := enabledCount + 1; }
      }
      var p := Assess(input, o);
      plans := plans + [p];
      if !p.disabled && p.healthy {
        match o.role
        case Writer => writers := writers + [o.name];
        case Reader => readers := readers + [o.name];
      }
      assert plans == all[..i + 1];
    }
    assert plans == all && input.discovered[..|input.discovered|] == input.discovered;
    ReaderCounts(input.resource.spec, input.discovered);
    allDisabled := readerCount > 0 && enabledCount == 0 && disabledCount == readerCount;
  }

  /** previousMissingMembershipBeforeRemoveThreshold followed by filterEnabledInstances. */
  method MissingBelowThreshold(spec: Spec, previous: seq<string>, missing: seq<Missing>) returns (kept: seq<string>)
    ensures kept == StillMissing(spec, previous, missing)
  {
    var active: set<string> := {};
    for i := 0 to |missing|
      invariant active == ActiveMissing(missing[..i], RemoveAfter(spec))
    {
      assert missing[..i + 1] == missing[..i] + [missing[i]];
      if missing[i].name != "" && missing[i].count < RemoveAfter(spec) {
        active := active + {missing[i].name};
      }
    }
    assert missing[..|missing|] == missing;
    var known := [];
    for i := 0 to |previous|
      invariant known == Keep(previous[..i], active)
    {
      assert previous[..i + 1][..i] == previous[..i];
      if previous[i] in active { known := known + [previous[i]]; }
    }
    assert previous[..|previous|] == previous;
    kept := [];
    for i := 0 to |known|
      invariant kept == Keep(known[..i], Enabled(spec, known))
    {
      assert known[..i + 1][..i] == known[..i];
      if !Disabled(spec, known[i]) { kept := kept + [known[i]]; }
    }
    assert known[..|known|] == known;
  }

  /** planner.Plan. */
  method RunPlan(input: Input) returns (out: Output)
    ensures out == Plan(input)
  {
    if !input.trusted {
      var plans := [];
      var statuses := input.resource.status.instances;
      for i := 0 to |statuses|
        invariant plans == FromStatus(statuses[..i])
      {
        assert statuses[..i + 1][..i] == statuses[..i];
        if statuses[i].obs.name != "" { plans := plans + [statuses[i]]; }
      }
      assert statuses[..|statuses|] == statuses;
      return Output(Sort(PlanName, plans), input.resource.status.lastApplied, true, false, [DiscoveryUntrusted]);
    }
    var draft := new Draft();
    draft.Observe(input);
    draft.KeepWriter(input.resource, input.missing);
    draft.KeepMissingReaders(input.resource, input.missing);
    draft.FillReader(input.resource, input.missing);
    out := Output(draft.instances, Membership(draft.writer, draft.reader), false, draft.suppressed, draft.notes);
  }
}
