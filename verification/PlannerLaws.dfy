/** What a plan's membership means, stated without reference to the stages that compute it. */
module PlannerLaws {
  import opened Text
  import opened Domain
  import opened Planner

  // ---------------------------------------------------------------- the three origins of a member

  /** A discovered instance of that role which the health thresholds currently count as healthy. */
  ghost predicate HealthyMember(input: Input, role: Role, n: string) {
    exists o :: o in input.discovered && o.name == n && o.role == role && Assess(input, o).healthy
  }

  /** An enabled member of `applied` that is missing for fewer discoveries than the removal threshold. */
  ghost predicate KeptMissing(input: Input, applied: seq<string>, n: string) {
    && n in applied && !Disabled(input.resource.spec, n)
    && exists m :: m in input.missing && m.name == n && n != "" && m.count < RemoveAfter(input.resource.spec)
  }

  ghost predicate KeptReader(input: Input, n: string) {
    KeptMissing(input, input.resource.status.lastApplied.reader, n)
  }

  ghost predicate KeptWriter(input: Input, n: string) {
    KeptMissing(input, input.resource.status.lastApplied.writer, n)
  }

  /** No reader of its own is left and borrowing the writer is allowed. */
  ghost predicate BorrowsWriter(input: Input) {
    && (forall n :: !HealthyMember(input, Reader, n) && !KeptReader(input, n))
    && !AllReadersDisabled(input.resource.spec, input.discovered)
    && FallbackEnabled(input.resource.spec)
  }

  // ---------------------------------------------------------------- stage by stage

  lemma {:induction false} HealthyNamesElements(plans: seq<InstancePlan>, role: Role, n: string)
    ensures n in HealthyNames(plans, role) <==>
            exists p :: p in plans && p.healthy && p.obs.role == role && p.obs.name == n
  {
    if plans != [] {
      var init, last := plans[..|plans| - 1], plans[|plans| - 1];
      HealthyNamesElements(init, role, n);
      assert plans == init + [last];
    }
  }

  lemma RoleElements(input: Input, role: Role, n: string)
    ensures n in HealthyNames(Assessed(input), role) <==> HealthyMember(input, role, n)
  {
    var plans := Assessed(input);
    HealthyNamesElements(plans, role, n);
    forall i | 0 <= i < |plans| ensures plans[i] in plans && input.discovered[i] in input.discovered && plans[i].obs == input.discovered[i] {
      DisabledUnhealthy(input, input.discovered[i]);
    }
  }

  lemma DraftElements(input: Input, n: string)
    ensures n in FirstDraft(input).membership.writer <==> HealthyMember(input, Writer, n)
    ensures n in FirstDraft(input).membership.reader <==> HealthyMember(input, Reader, n)
  {
    SortElements(Self, HealthyNames(Assessed(input), Writer));
    SortElements(Self, HealthyNames(Assessed(input), Reader));
    RoleElements(input, Writer, n);
    RoleElements(input, Reader, n);
  }

  lemma StillMissingElements(input: Input, applied: seq<string>, n: string)
    ensures n in StillMissing(input.resource.spec, applied, input.missing) <==> KeptMissing(input, applied, n)
  {
  }

  lemma {:induction false} PreservedElements(r: Resource, current: seq<string>, missing: seq<Missing>, n: string)
    ensures n in PreservedReaders(r, current, missing) <==>
            exists m :: m in missing && m.name == n && Preservable(r, current, m)
  {
    if missing != [] {
      var init, last := missing[..|missing| - 1], missing[|missing| - 1];
      PreservedElements(r, current, init, n);
      assert missing == init + [last];
    }
  }

  /** After the missing readers are added back, the list holds exactly the healthy and the kept ones. */
  lemma OwnReaders(input: Input, out: Output, n: string)
    requires forall x :: x in out.membership.reader <==> HealthyMember(input, Reader, x)
    ensures n in PreserveReaders(input.resource, out, input.missing).membership.reader <==>
            HealthyMember(input, Reader, n) || KeptReader(input, n)
  {
    var r, current := input.resource, out.membership.reader;
    if input.missing != [] && r.status.lastApplied.reader != [] {
      SortElements(Self, current + PreservedReaders(r, current, input.missing));
      PreservedElements(r, current, input.missing, n);
    }
  }

  // ---------------------------------------------------------------- the reader list

  /** The reader list after the two stages that run before the fallback. */
  ghost function Settled(input: Input): Output {
    PreserveReaders(input.resource, StabilizeWriter(input.resource, FirstDraft(input), input.missing), input.missing)
  }

  lemma SettledReaders(input: Input, n: string)
    ensures n in Settled(input).membership.reader <==> HealthyMember(input, Reader, n) || KeptReader(input, n)
  {
    var out := StabilizeWriter(input.resource, FirstDraft(input), input.missing);
    forall x ensures x in out.membership.reader <==> HealthyMember(input, Reader, x) { DraftElements(input, x); }
    OwnReaders(input, out, n);
  }

  lemma SettledEmpty(input: Input)
    ensures Settled(input).membership.reader == [] <==>
            forall n :: !HealthyMember(input, Reader, n) && !KeptReader(input, n)
  {
    var reader := Settled(input).membership.reader;
    forall n ensures n in reader <==> HealthyMember(input, Reader, n) || KeptReader(input, n) { SettledReaders(input, n); }
    if reader != [] { assert reader[0] in reader; }
  }

  /** preserveMissingReaderMembership has already added every reader the last branch could add, so
      that branch never fires: no plan reports "reader membership preserved". */
  lemma LastReaderBranchIsDead(input: Input)
    requires input.trusted && Settled(input).membership.reader == []
    ensures StillMissing(input.resource.spec, input.resource.status.lastApplied.reader, input.missing) == []
  {
    var kept := StillMissing(input.resource.spec, input.resource.status.lastApplied.reader, input.missing);
    if kept != [] {
      StillMissingElements(input, input.resource.status.lastApplied.reader, kept[0]);
      SettledReaders(input, kept[0]);
    }
  }

  /** Reader provenance, both directions. */
  lemma ReaderProvenance(input: Input, n: string)
    requires input.trusted
    ensures n in Plan(input).membership.reader <==>
            || HealthyMember(input, Reader, n)
            || KeptReader(input, n)
            || (BorrowsWriter(input) && n in Plan(input).membership.writer)
  {
    SettledReaders(input, n);
    SettledEmpty(input);
    if Settled(input).membership.reader == [] { LastReaderBranchIsDead(input); }
  }

  // ---------------------------------------------------------------- the writer list

  lemma ReaderStagesKeepTheRest(r: Resource, out: Output, missing: seq<Missing>)
    ensures var next := PreserveReaders(r, out, missing);
            next.membership.writer == out.membership.writer && next.instances == out.instances && next.frozen == out.frozen
    ensures var next := StabilizeReader(r, out, missing);
            next.membership.writer == out.membership.writer && next.instances == out.instances && next.frozen == out.frozen
  {
  }

  lemma WriterOf(input: Input)
    requires input.trusted
    ensures Plan(input).membership.writer ==
            StabilizeWriter(input.resource, FirstDraft(input), input.missing).membership.writer
    ensures Plan(input).instances == FirstDraft(input).instances && !Plan(input).frozen
  {
    var r := input.resource;
    var out := StabilizeWriter(r, FirstDraft(input), input.missing);
    ReaderStagesKeepTheRest(r, out, input.missing);
    ReaderStagesKeepTheRest(r, PreserveReaders(r, out, input.missing), input.missing);
  }

  lemma {:induction false} HealthyNamesNoDup(plans: seq<InstancePlan>, role: Role)
    requires NoDup(Map(PlanName, plans))
    ensures NoDup(HealthyNames(plans, role))
  {
    if plans != [] {
      var init, last := plans[..|plans| - 1], plans[|plans| - 1];
      LastKeyFresh(PlanName, plans);
      HealthyNamesNoDup(init, role);
      HealthyNamesElements(init, role, last.obs.name);
      assert forall p :: p in init ==> PlanName(p) != PlanName(last);
    }
  }

  lemma DraftNoDup(input: Input)
    requires NoDup(Names(input.discovered))
    ensures NoDup(FirstDraft(input).membership.writer) && NoDup(FirstDraft(input).membership.reader)
  {
    var plans := Assessed(input);
    assert Map(PlanName, plans) == Names(input.discovered);
    HealthyNamesNoDup(plans, Writer);
    HealthyNamesNoDup(plans, Reader);
    SortNoDup(Self, HealthyNames(plans, Writer));
    SortNoDup(Self, HealthyNames(plans, Reader));
  }

  lemma OnlyElement<T>(s: seq<T>, x: T)
    requires NoDup(s)
    ensures s == [x] <==> forall y :: y in s <==> y == x
  {
    if forall y :: y in s <==> y == x {
      assert x in s;
      if |s| > 1 { assert s[0] in s && s[1] in s; }
    }
  }

  /** The applied writers that are healthy discovered writers. */
  ghost function AppliedAndHealthy(input: Input): (r: seq<string>)
    ensures forall n :: n in r <==> n in input.resource.status.lastApplied.writer && HealthyMember(input, Writer, n)
  {
    var applied := input.resource.status.lastApplied.writer;
    Keep(applied, set n | n in applied && HealthyMember(input, Writer, n))
  }

  lemma {:induction false} KeepSame(s: seq<string>, a: set<string>, b: set<string>)
    requires forall x :: x in s ==> (x in a <==> x in b)
    ensures Keep(s, a) == Keep(s, b)
  {
    if s != [] { KeepSame(s[..|s| - 1], a, b); }
  }

  /** Writer provenance, first case: a single healthy discovered writer is the writer, whatever was
      applied before. */
  lemma SoleHealthyWriter(input: Input, n: string)
    requires input.trusted && NoDup(Names(input.discovered))
    requires HealthyMember(input, Writer, n) && (forall x :: HealthyMember(input, Writer, x) ==> x == n)
    ensures Plan(input).membership.writer == [n]
  {
    WriterOf(input);
    DraftNoDup(input);
    var healthy := FirstDraft(input).membership.writer;
    forall x ensures x in healthy <==> x == n { DraftElements(input, x); }
    OnlyElement(healthy, n);
  }

  /** Second case: with no healthy discovered writer, exactly the kept missing ones are. */
  lemma NoHealthyWriter(input: Input, n: string)
    requires input.trusted
    requires forall x :: !HealthyMember(input, Writer, x)
    ensures n in Plan(input).membership.writer <==> KeptWriter(input, n)
  {
    WriterOf(input);
    var healthy := FirstDraft(input).membership.writer;
    if healthy != [] { DraftElements(input, healthy[0]); }
    StillMissingElements(input, input.resource.status.lastApplied.writer, n);
  }

  /** Third case: among several healthy discovered writers only a sole applied one survives. */
  lemma SeveralHealthyWriters(input: Input, a: string, b: string)
    requires input.trusted && a != b
    requires HealthyMember(input, Writer, a) && HealthyMember(input, Writer, b)
    ensures Plan(input).membership.writer == if |AppliedAndHealthy(input)| == 1 then AppliedAndHealthy(input) else []
  {
    WriterOf(input);
    var healthy, applied := FirstDraft(input).membership.writer, input.resource.status.lastApplied.writer;
    forall x ensures x in healthy <==> HealthyMember(input, Writer, x) { DraftElements(input, x); }
    assert a in healthy && b in healthy;
    KeepSame(applied, set x | x in healthy, set x | x in applied && HealthyMember(input, Writer, x));
  }

  /** Every writer is a healthy discovered writer or a kept missing one (for any input). */
  lemma WriterOrigin(input: Input, n: string)
    requires input.trusted && n in Plan(input).membership.writer
    ensures HealthyMember(input, Writer, n) || KeptWriter(input, n)
  {
    WriterOf(input);
    DraftElements(input, n);
    StillMissingElements(input, input.resource.status.lastApplied.writer, n);
  }

  /** Missing instances are not discovered, so no member has two origins. */
  lemma OriginsExclude(input: Input, n: string)
    requires forall m, o :: m in input.missing && o in input.discovered ==> m.name != o.name
    ensures !(HealthyMember(input, Writer, n) && KeptWriter(input, n))
    ensures !(HealthyMember(input, Reader, n) && KeptReader(input, n))
    ensures !(BorrowsWriter(input) && (HealthyMember(input, Reader, n) || KeptReader(input, n)))
  {
    if HealthyMember(input, Writer, n) || HealthyMember(input, Reader, n) {
      var o :| o in input.discovered && o.name == n;
      assert forall m :: m in input.missing ==> m.name != o.name;
    }
  }

  /** No disabled instance is ever a member. */
  lemma NoDisabledMember(input: Input, n: string)
    requires input.trusted
    requires n in Plan(input).membership.writer || n in Plan(input).membership.reader
    ensures !Disabled(input.resource.spec, n)
  {
    ReaderProvenance(input, n);
    if n in Plan(input).membership.writer { WriterOrigin(input, n); }
    forall o | o in input.discovered && Assess(input, o).healthy ensures !Disabled(input.resource.spec, o.name) {
      DisabledUnhealthy(input, o);
    }
  }

  // ---------------------------------------------------------------- sizes

  lemma AtMostOneWriter(input: Input)
    requires input.trusted && |input.resource.status.lastApplied.writer| <= 1
    ensures |Plan(input).membership.writer| <= 1
  {
    WriterOf(input);
  }

  lemma {:induction false} PreservedNoDup(r: Resource, current: seq<string>, missing: seq<Missing>)
    requires NoDup(Map(MissingName, missing))
    ensures NoDup(PreservedReaders(r, current, missing))
  {
    if missing != [] {
      var init, last := missing[..|missing| - 1], missing[|missing| - 1];
      LastKeyFresh(MissingName, missing);
      PreservedNoDup(r, current, init);
      PreservedElements(r, current, init, last.name);
      assert forall m :: m in init ==> MissingName(m) != MissingName(last);
    }
  }

  lemma NoDupConcat<T>(a: seq<T>, b: seq<T>)
    requires NoDup(a) && NoDup(b) && forall x :: x in a ==> x !in b
    ensures NoDup(a + b)
  {
    forall i, j | 0 <= i < j < |a + b| ensures (a + b)[i] != (a + b)[j] {
      if i < |a| <= j { assert (a + b)[j] == b[j - |a|] && (a + b)[i] in a; }
    }
  }

  lemma SettledNoDup(input: Input)
    requires NoDup(Names(input.discovered)) && NoDup(Map(MissingName, input.missing))
    ensures NoDup(Settled(input).membership.reader)
  {
    DraftNoDup(input);
    var r, current := input.resource, FirstDraft(input).membership.reader;
    var added := PreservedReaders(r, current, input.missing);
    PreservedNoDup(r, current, input.missing);
    forall x | x in current ensures x !in added { PreservedElements(r, current, input.missing, x); }
    NoDupConcat(current, added);
    SortNoDup(Self, current + added);
  }

  /** Lists stay duplicate-free when the inputs are. */
  lemma MembersNoDup(input: Input)
    requires input.trusted && NoDup(Names(input.discovered)) && NoDup(Map(MissingName, input.missing))
    requires |input.resource.status.lastApplied.writer| <= 1
    ensures NoDup(Plan(input).membership.reader)
  {
    SettledNoDup(input);
    AtMostOneWriter(input);
    WriterOf(input);
    if Settled(input).membership.reader == [] { LastReaderBranchIsDead(input); }
  }

  // ---------------------------------------------------------------- fixed point

  /** The same input after the plan was recorded as the applied membership. */
  function Recorded(input: Input): Input {
    input.(resource := input.resource.(status := input.resource.status.(lastApplied := Plan(input).membership)))
  }

  lemma AssessIgnoresApplied(input: Input, membership: Membership)
    ensures var again := input.(resource := input.resource.(status := input.resource.status.(lastApplied := membership)));
            FirstDraft(again) == FirstDraft(input)
            && (forall role, n :: HealthyMember(again, role, n) <==> HealthyMember(input, role, n))
  {
    var again := input.(resource := input.resource.(status := input.resource.status.(lastApplied := membership)));
    forall o ensures Assess(again, o) == Assess(input, o) { }
    assert Assessed(again) == Assessed(input);
  }

  lemma WriterFixedPoint(input: Input)
    requires input.trusted
    ensures Plan(Recorded(input)).membership.writer == Plan(input).membership.writer
  {
    var again := Recorded(input);
    AssessIgnoresApplied(input, Plan(input).membership);
    WriterOf(input);
    WriterOf(again);
    var healthy := FirstDraft(input).membership.writer;
    var writer := Plan(input).membership.writer;
    if |healthy| > 1 {
      KeepAll(writer, set n | n in healthy);
    } else if |healthy| == 0 {
      var active := ActiveMissing(input.missing, RemoveAfter(input.resource.spec));
      KeepAll(writer, active);
      KeepAll(writer, Enabled(input.resource.spec, writer));
    }
  }

  /** A planned writer list is a single name or consists of kept missing ones. */
  lemma WriterSingleOrKept(input: Input)
    requires input.trusted
    ensures |Plan(input).membership.writer| <= 1 || forall n :: n in Plan(input).membership.writer ==> KeptWriter(input, n)
  {
    WriterOf(input);
    forall n { StillMissingElements(input, input.resource.status.lastApplied.writer, n); }
  }

  lemma ReadersOf(input: Input)
    requires input.trusted
    ensures forall x :: x in Plan(input).membership.reader <==>
              HealthyMember(input, Reader, x) || KeptReader(input, x) || (BorrowsWriter(input) && x in Plan(input).membership.writer)
  {
    forall x { ReaderProvenance(input, x); }
  }

  /** When the recorded reader list was borrowed, either none of it or all of it counts as kept. */
  lemma BorrowedAllOrNone(input: Input, x: string, y: string)
    requires input.trusted && BorrowsWriter(input)
    requires KeptReader(Recorded(input), x) && y in Plan(input).membership.writer
    ensures KeptReader(Recorded(input), y)
  {
    ReadersOf(input);
    WriterSingleOrKept(input);
  }

  /** Plan is a fixed point: replanning after the membership was recorded gives the same sets. */
  lemma PlanIsFixedPoint(input: Input, n: string)
    requires input.trusted
    ensures Plan(Recorded(input)).membership.writer == Plan(input).membership.writer
    ensures n in Plan(Recorded(input)).membership.reader <==> n in Plan(input).membership.reader
    ensures Plan(Recorded(input)).instances == Plan(input).instances
  {
    var again, writer := Recorded(input), Plan(input).membership.writer;
    AssessIgnoresApplied(input, Plan(input).membership);
    WriterFixedPoint(input);
    WriterOf(input);
    WriterOf(again);
    ReadersOf(input);
    ReaderProvenance(again, n);
    forall x ensures KeptReader(input, x) ==> KeptReader(again, x) { }
    forall x ensures KeptReader(again, x) ==> x in Plan(input).membership.reader { }
    if !BorrowsWriter(input) {
      assert BorrowsWriter(again) ==> forall x :: !HealthyMember(again, Reader, x) && !KeptReader(again, x);
      assert !BorrowsWriter(again);
    } else {
      if x :| KeptReader(again, x) {
        forall y | y in writer ensures KeptReader(again, y) { BorrowedAllOrNone(input, x, y); }
      }
    }
  }
}
