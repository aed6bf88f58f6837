/** Zone-aware placement: how the zone of an Aurora instance is merged into the node affinity the
    user configured, and how conflicts between the two are detected. */
module Affinity {
  import opened Text

  datatype Operator = In | NotIn | Exists | DoesNotExist | Gt | Lt

  datatype Requirement = Requirement(key: string, op: Operator, values: seq<string>)

  datatype Term = Term(expressions: seq<Requirement>, fields: seq<Requirement>)

  datatype Preference = Preference(weight: int, term: Term)

  datatype NodeAffinity = NodeAffinity(required: Option<seq<Term>>, preferred: seq<Preference>)

  datatype ConflictPolicy = UnsetPolicy | Warn | Fail | Ignore

  datatype ZoneAware = ZoneAware(enabled: Option<bool>, required: bool, topologyKey: string, policy: ConflictPolicy)

  const DEFAULT_TOPOLOGY_KEY := "topology.kubernetes.io/zone"

  // ---------------------------------------------------------------- what the scheduler makes of a selector

  datatype Node = Node(labels: map<string, string>, fields: map<string, string>)

  function Digits(s: string): Option<nat> {
    if s == "" then Some(0)
    else
      var d := s[|s| - 1];
      match Digits(s[..|s| - 1])
      case Some(n) => if '0' <= d <= '9' then Some(10 * n + (d - '0') as int) else None
      case None => None
  }

  function ParseInt(s: string): Option<int> {
    var signed := s != "" && (s[0] == '-' || s[0] == '+');
    var digits := if signed then s[1..] else s;
    if digits == "" then None
    else match Digits(digits)
      case Some(n) => var value: int := n; Some(if signed && s[0] == '-' then -value else value)
      case None => None
  }

  predicate Matches(r: Requirement, values: map<string, string>) {
    match r.op
    case In => r.key in values && values[r.key] in r.values
    case NotIn => r.key !in values || values[r.key] !in r.values
    case Exists => r.key in values
    case DoesNotExist => r.key !in values
    case _ =>
      && r.key in values && |r.values| == 1
      && ParseInt(values[r.key]).Some? && ParseInt(r.values[0]).Some?
      && var (actual, bound) := (ParseInt(values[r.key]).value, ParseInt(r.values[0]).value);
         if r.op.Gt? then actual > bound else actual < bound
  }

  /** What the Kubernetes API says of the operators: NotIn and DoesNotExist are the opposites of In and Exists, an absent
      label included; Gt and Lt compare numbers strictly, so neither holds of the bound itself and one of any other. */
  lemma OperatorsOppose(key: string, values: seq<string>, labels: map<string, string>)
    ensures Matches(Requirement(key, NotIn, values), labels) <==> !Matches(Requirement(key, In, values), labels)
    ensures Matches(Requirement(key, DoesNotExist, values), labels) <==> !Matches(Requirement(key, Exists, values), labels)
    ensures Matches(Requirement(key, In, values), labels) ==> Matches(Requirement(key, Exists, values), labels)
    ensures key in labels && |values| == 1 && ParseInt(labels[key]).Some? && ParseInt(values[0]).Some? ==>
              var a, b := ParseInt(labels[key]).value, ParseInt(values[0]).value;
              && (a == b <==> !Matches(Requirement(key, Gt, values), labels) && !Matches(Requirement(key, Lt, values), labels))
              && (a > b <==> Matches(Requirement(key, Gt, values), labels))
  {
  }

  /** A sign turns the number around or leaves it alone. */
  lemma SignedNumber(digits: string)
    requires digits != "" && digits[0] != '-' && digits[0] != '+' && ParseInt(digits).Some?
    ensures ParseInt("-" + digits) == Some(-ParseInt(digits).value) && ParseInt("+" + digits) == ParseInt(digits)
  {
    assert ("-" + digits)[1..] == digits && ("+" + digits)[1..] == digits;
  }

  predicate IsEmpty(t: Term) {
    t.expressions == [] && t.fields == []
  }

  /** A term without any requirement matches no node. */
  predicate TermMatches(t: Term, n: Node) {
    && !IsEmpty(t)
    && (forall r :: r in t.expressions ==> Matches(r, n.labels))
    && (forall r :: r in t.fields ==> Matches(r, n.fields))
  }

  predicate SelectorMatches(terms: seq<Term>, n: Node) {
    exists t :: t in terms && TermMatches(t, n)
  }

  predicate Admits(affinity: Option<NodeAffinity>, n: Node) {
    affinity.Some? && affinity.value.required.Some? ==> SelectorMatches(affinity.value.required.value, n)
  }

  predicate InZone(n: Node, key: string, zone: string) {
    key in n.labels && n.labels[key] == zone
  }

  // ---------------------------------------------------------------- rendering

  predicate EnabledDefaultTrue(value: Option<bool>) {
    value.None? || value.value
  }

  /** The key a deployment is pinned by. */
  function RenderKey(spec: ZoneAware): string {
    if spec.topologyKey != "" then spec.topologyKey else DEFAULT_TOPOLOGY_KEY
  }

  /** The key conflicts are looked for on: unlike rendering, the detector takes a blank key for none. */
  function TopologyKey(spec: ZoneAware): string {
    if Trim(spec.topologyKey) != "" then spec.topologyKey else DEFAULT_TOPOLOGY_KEY
  }

  /** The setting consists of blanks. */
  predicate BlankKey(spec: ZoneAware) { spec.topologyKey != "" && Trim(spec.topologyKey) == "" }

  lemma SameKeyUnlessBlank(spec: ZoneAware)
    ensures RenderKey(spec) == TopologyKey(spec) <==> !BlankKey(spec)
  {
    assert Trim(DEFAULT_TOPOLOGY_KEY) != "" by {
      assert DEFAULT_TOPOLOGY_KEY == "topology.kubernetes.io/zone";
      assert DEFAULT_TOPOLOGY_KEY[0] == 't' && DEFAULT_TOPOLOGY_KEY[|DEFAULT_TOPOLOGY_KEY| - 1] == 'e';
    }
  }

  function MergeRequired(existing: Option<seq<Term>>, r: Requirement): seq<Term> {
    if existing.None? || existing.value == [] then [Term([r], [])]
    else Map((t: Term) => t.(expressions := t.expressions + [r]), existing.value)
  }

  function ApplyZoneAffinity(affinity: Option<NodeAffinity>, spec: ZoneAware, zone: string): Option<NodeAffinity> {
    if !EnabledDefaultTrue(spec.enabled) || zone == "" then affinity
    else
      var r := Requirement(RenderKey(spec), In, [zone]);
      var node := if affinity.None? then NodeAffinity(None, []) else affinity.value;
      if spec.required then Some(node.(required := Some(MergeRequired(node.required, r))))
      else Some(node.(preferred := node.preferred + [Preference(100, Term([r], []))]))
  }

  /** The user's selector has no term at all, or a term that can never match. */
  predicate Degenerate(affinity: Option<NodeAffinity>) {
    && affinity.Some? && affinity.value.required.Some?
    && (affinity.value.required.value == [] || exists t :: t in affinity.value.required.value && IsEmpty(t))
  }

  lemma MergedTerm(t: Term, r: Requirement, n: Node)
    ensures TermMatches(t.(expressions := t.expressions + [r]), n) <==>
            Matches(r, n.labels) && (IsEmpty(t) || TermMatches(t, n))
  {
    var merged := t.(expressions := t.expressions + [r]);
    assert r in merged.expressions;
    assert forall x :: x in merged.expressions <==> x in t.expressions || x == r;
  }

  predicate Pinned(spec: ZoneAware, zone: string) {
    EnabledDefaultTrue(spec.enabled) && spec.required && zone != ""
  }

  /** Required placement admits exactly the nodes of the zone that the user's own affinity admits,
      unless that affinity is degenerate: then it admits the whole zone.  Preferred placement, a
      disabled feature and an unknown zone leave the admitted nodes alone. */
  lemma Placement(affinity: Option<NodeAffinity>, spec: ZoneAware, zone: string, n: Node)
    ensures Admits(ApplyZoneAffinity(affinity, spec, zone), n) <==>
            if Pinned(spec, zone)
            then InZone(n, RenderKey(spec), zone) && (Admits(affinity, n) || Degenerate(affinity))
            else Admits(affinity, n)
  {
    var r := Requirement(RenderKey(spec), In, [zone]);
    assert Matches(r, n.labels) <==> InZone(n, RenderKey(spec), zone);
    if !Pinned(spec, zone) {
    } else if affinity.Some? && affinity.value.required.Some? && affinity.value.required.value != [] {
      var terms := affinity.value.required.value;
      var merged := MergeRequired(Some(terms), r);
      forall i | 0 <= i < |terms|
        ensures TermMatches(merged[i], n) <==> Matches(r, n.labels) && (IsEmpty(terms[i]) || TermMatches(terms[i], n))
      {
        MergedTerm(terms[i], r, n);
      }
      if exists t :: t in terms && (IsEmpty(t) || TermMatches(t, n)) {
        var t :| t in terms && (IsEmpty(t) || TermMatches(t, n));
        var i :| 0 <= i < |terms| && terms[i] == t;
        assert merged[i] in merged;
      }
    } else {
      var merged := Term([r], []);
      assert r in merged.expressions && merged in [merged];
      assert TermMatches(merged, n) <==> Matches(r, n.labels);
      assert SelectorMatches([merged], n) <==> TermMatches(merged, n);
    }
  }

  // ---------------------------------------------------------------- conflict detection

  /** nodeSelectorTermAllowsZone: the first expression on the key with a set operator decides. */
  predicate AllowsZone(expressions: seq<Requirement>, key: string, zone: string) {
    if expressions == [] then true
    else
      var e := expressions[0];
      if e.key != key then AllowsZone(expressions[1..], key, zone)
      else match e.op
        case In => zone in e.values
        case NotIn => zone !in e.values
        case Exists => true
        case DoesNotExist => false
        case _ => AllowsZone(expressions[1..], key, zone)
  }

  predicate Conflicts(affinity: Option<NodeAffinity>, key: string, zone: string) {
    && affinity.Some? && affinity.value.required.Some? && affinity.value.required.value != []
    && forall t :: t in affinity.value.required.value ==> !AllowsZone(t.expressions, key, zone)
  }

  lemma {:induction false} ExcludingExpression(expressions: seq<Requirement>, key: string, zone: string, n: Node)
    requires !AllowsZone(expressions, key, zone) && InZone(n, key, zone)
    ensures exists r :: r in expressions && !Matches(r, n.labels)
  {
    if Matches(expressions[0], n.labels) {
      ExcludingExpression(expressions[1..], key, zone, n);
      var r :| r in expressions[1..] && !Matches(r, n.labels);
      assert r in expressions;
    } else {
      assert expressions[0] in expressions;
    }
  }

  /** A reported conflict is real: no node of the zone is admitted, before or after the merge.  Only a blank topology
      key can raise a false alarm, see FalseAlarmIff. */
  lemma ConflictIsUnsatisfiable(affinity: Option<NodeAffinity>, spec: ZoneAware, zone: string, n: Node)
    requires EnabledDefaultTrue(spec.enabled) && zone != ""
    requires Conflicts(affinity, TopologyKey(spec), zone)
    ensures InZone(n, TopologyKey(spec), zone) ==> !Admits(affinity, n)
    ensures spec.required && !BlankKey(spec) ==> !Admits(ApplyZoneAffinity(affinity, spec, zone), n)
  {
    var key, terms := TopologyKey(spec), affinity.value.required.value;
    if InZone(n, key, zone) {
      forall t | t in terms ensures !TermMatches(t, n) && !IsEmpty(t) {
        ExcludingExpression(t.expressions, key, zone, n);
      }
    }
    if spec.required && !BlankKey(spec) {
      SameKeyUnlessBlank(spec);
      forall t | t in terms ensures !IsEmpty(t) {
        assert !AllowsZone(t.expressions, key, zone);
      }
      Placement(affinity, spec, zone, n);
    }
  }

  /** The detector reads one expression per term, so it misses a conflict spread over two. */
  lemma ConflictMissed()
    ensures exists affinity, spec: ZoneAware, zone ::
              && Pinned(spec, zone)
              && !Conflicts(affinity, TopologyKey(spec), zone)
              && forall n :: !Admits(ApplyZoneAffinity(affinity, spec, zone), n)
  {
    var key := DEFAULT_TOPOLOGY_KEY;
    var inA, notA := Requirement(key, In, ["a"]), Requirement(key, NotIn, ["a"]);
    var t := Term([inA, notA], []);
    var affinity := Some(NodeAffinity(Some([t]), []));
    var spec := ZoneAware(None, true, key, Warn);
    assert AllowsZone(t.expressions, key, "a");
    assert Trim(key) != "" by { SameKeyUnlessBlank(spec); }
    assert TopologyKey(spec) == key && RenderKey(spec) == key;
    forall n ensures !Admits(ApplyZoneAffinity(affinity, spec, "a"), n) {
      Placement(affinity, spec, "a", n);
      assert inA in t.expressions && notA in t.expressions;
      assert !IsEmpty(t);
    }
    assert t in affinity.value.required.value;
    assert !Conflicts(affinity, TopologyKey(spec), "a");
  }

  // ---------------------------------------------------------------- exactly what the detector misses

  /** The expression that settles the detector's answer for a term: the first one on the key with a set operator. */
  function Decider(expressions: seq<Requirement>, key: string): Option<Requirement> {
    if expressions == [] then None
    else if expressions[0].key == key && !expressions[0].op.Gt? && !expressions[0].op.Lt? then Some(expressions[0])
    else Decider(expressions[1..], key)
  }

  predicate Accepts(r: Requirement, key: string, zone: string) { Matches(r, map[key := zone]) }

  /** Some expression on the key rules the zone out. */
  predicate Rejects(expressions: seq<Requirement>, key: string, zone: string) {
    exists r :: r in expressions && r.key == key && !Accepts(r, key, zone)
  }

  lemma {:induction false} DeciderDecides(expressions: seq<Requirement>, key: string, zone: string)
    ensures var d := Decider(expressions, key);
            && (d.Some? ==> d.value in expressions && d.value.key == key)
            && (AllowsZone(expressions, key, zone) <==> d.None? || Accepts(d.value, key, zone))
  {
    if expressions != [] { DeciderDecides(expressions[1..], key, zone); }
  }

  /** The term rules the zone out, but not by its deciding expression: there is none, or that one accepts the zone. */
  predicate Overlooked(expressions: seq<Requirement>, key: string, zone: string) {
    var d := Decider(expressions, key);
    (d.None? || Accepts(d.value, key, zone)) && Rejects(expressions, key, zone)
  }

  lemma DetectedOrOverlooked(expressions: seq<Requirement>, key: string, zone: string)
    ensures Rejects(expressions, key, zone) <==> !AllowsZone(expressions, key, zone) || Overlooked(expressions, key, zone)
  {
    DeciderDecides(expressions, key, zone);
  }

  function Terms(affinity: Option<NodeAffinity>): seq<Term> {
    if affinity.Some? && affinity.value.required.Some? then affinity.value.required.value else []
  }

  /** Every term the user requires rules the zone out. */
  predicate ZoneRejected(affinity: Option<NodeAffinity>, key: string, zone: string) {
    Terms(affinity) != [] && forall t :: t in Terms(affinity) ==> Rejects(t.expressions, key, zone)
  }

  lemma KeyAlone(r: Requirement, key: string, zone: string, n: Node)
    requires r.key == key && InZone(n, key, zone)
    ensures Matches(r, n.labels) <==> Accepts(r, key, zone)
  {
  }

  /** What rejection means: whatever else a node of the zone is labelled with, every required term fails on it, and the
      merged selector admits no node at all. */
  lemma RejectedIsUnsatisfiable(affinity: Option<NodeAffinity>, spec: ZoneAware, zone: string, n: Node)
    requires ZoneRejected(affinity, RenderKey(spec), zone)
    ensures InZone(n, RenderKey(spec), zone) ==> !Admits(affinity, n)
    ensures Pinned(spec, zone) ==> !Admits(ApplyZoneAffinity(affinity, spec, zone), n)
  {
    var key := RenderKey(spec);
    forall t | t in Terms(affinity) ensures !IsEmpty(t) && (InZone(n, key, zone) ==> !TermMatches(t, n)) {
      var r :| r in t.expressions && r.key == key && !Accepts(r, key, zone);
      if InZone(n, key, zone) { KeyAlone(r, key, zone, n); }
    }
    Placement(affinity, spec, zone, n);
  }

  /** The detector reports a conflict if and only if every term rules the zone out and none of them is overlooked. */
  lemma ReportedIff(affinity: Option<NodeAffinity>, key: string, zone: string)
    ensures Conflicts(affinity, key, zone) <==>
            ZoneRejected(affinity, key, zone) && forall t :: t in Terms(affinity) ==> !Overlooked(t.expressions, key, zone)
  {
    forall t | t in Terms(affinity)
      ensures !AllowsZone(t.expressions, key, zone) <==> Rejects(t.expressions, key, zone) && !Overlooked(t.expressions, key, zone)
    {
      DetectedOrOverlooked(t.expressions, key, zone);
      DeciderDecides(t.expressions, key, zone);
    }
  }

  /** At most one expression on the key, and no comparison: a caller can see this before asking. */
  predicate Plain(expressions: seq<Requirement>, key: string) {
    && (forall i, j :: 0 <= i < j < |expressions| && expressions[i].key == key ==> expressions[j].key != key)
    && (forall i :: 0 <= i < |expressions| && expressions[i].key == key ==> !expressions[i].op.Gt? && !expressions[i].op.Lt?)
  }

  lemma {:induction false} PlainDecider(expressions: seq<Requirement>, key: string, r: Requirement)
    requires Plain(expressions, key) && r in expressions && r.key == key
    ensures Decider(expressions, key) == Some(r)
  {
    if expressions[0] != r {
      var k :| 0 < k < |expressions| && expressions[k] == r;
      assert expressions[k].key == key;
      assert expressions[0].key != key;
      var rest := expressions[1..];
      assert forall i :: 0 <= i < |rest| ==> rest[i] == expressions[i + 1];
      assert rest[k - 1] == r;
      PlainDecider(rest, key, r);
    }
  }

  /** On plain terms the detector is complete: it reports exactly the zones that every term rules out. */
  lemma PlainIsComplete(affinity: Option<NodeAffinity>, key: string, zone: string)
    requires forall t :: t in Terms(affinity) ==> Plain(t.expressions, key)
    ensures Conflicts(affinity, key, zone) <==> ZoneRejected(affinity, key, zone)
  {
    forall t | t in Terms(affinity) ensures !Overlooked(t.expressions, key, zone) {
      forall r | r in t.expressions && r.key == key ensures Decider(t.expressions, key) == Some(r) { PlainDecider(t.expressions, key, r); }
    }
    ReportedIff(affinity, key, zone);
  }

  // ---------------------------------------------------------------- exactly when a placement is unsatisfiable

  function Look(values: map<string, string>, key: string): Option<string> { if key in values then Some(values[key]) else None }

  /** A requirement looks at the value of its own key, or its absence, only. */
  predicate MatchesValue(r: Requirement, v: Option<string>) {
    Matches(r, if v.Some? then map[r.key := v.value] else map[])
  }

  lemma OwnKeyOnly(r: Requirement, values: map<string, string>)
    ensures Matches(r, values) <==> MatchesValue(r, Look(values, r.key))
  {
  }

  /** This value of the key, or its absence, meets every requirement on it. */
  predicate FitsAll(requirements: seq<Requirement>, key: string, v: Option<string>) {
    forall r :: r in requirements && r.key == key ==> MatchesValue(r, v)
  }

  ghost predicate Fillable(requirements: seq<Requirement>, key: string) { exists v :: FitsAll(requirements, key, v) }

  /** The requirements on every other key can be met. */
  ghost predicate OpenElsewhere(t: Term, key: string) {
    && (forall r :: r in t.expressions && r.key != key ==> Fillable(t.expressions, r.key))
    && (forall r :: r in t.fields ==> Fillable(t.fields, r.key))
  }

  /** The term leaves room for a node of the zone, looked at key by key: the zone meets the requirements on the topology
      key, and every other key has some value, or can be absent. */
  ghost predicate TermOpen(t: Term, key: string, zone: string) {
    !Rejects(t.expressions, key, zone) && OpenElsewhere(t, key)
  }

  ghost function Chosen(requirements: seq<Requirement>, key: string): Option<string>
    requires Fillable(requirements, key)
  {
    var v :| FitsAll(requirements, key, v); v
  }

  /** The requirements of a list, met key by key, are met by one labelling. */
  ghost predicate AllFillable(requirements: seq<Requirement>) { forall r :: r in requirements ==> Fillable(requirements, r.key) }

  ghost function Filled(requirements: seq<Requirement>): map<string, string>
    requires AllFillable(requirements)
  {
    map k | k in (set r | r in requirements :: r.key) && Chosen(requirements, k).Some? :: Chosen(requirements, k).value
  }

  lemma FilledMatches(requirements: seq<Requirement>, r: Requirement)
    requires AllFillable(requirements) && r in requirements
    ensures Matches(r, Filled(requirements))
  {
    OwnKeyOnly(r, Filled(requirements));
    assert r.key in (set x | x in requirements :: x.key);
    assert Look(Filled(requirements), r.key) == Chosen(requirements, r.key);
    assert FitsAll(requirements, r.key, Chosen(requirements, r.key));
  }

  /** The requirements on the topology key, and those on the others. */
  function Others(expressions: seq<Requirement>, key: string): seq<Requirement> {
    if expressions == [] then []
    else (if expressions[0].key == key then [] else [expressions[0]]) + Others(expressions[1..], key)
  }

  lemma {:induction false} OthersSpec(expressions: seq<Requirement>, key: string, r: Requirement)
    ensures r in Others(expressions, key) <==> r in expressions && r.key != key
  {
    if expressions != [] { OthersSpec(expressions[1..], key, r); }
  }

  lemma OthersFillable(expressions: seq<Requirement>, key: string)
    requires forall r :: r in expressions && r.key != key ==> Fillable(expressions, r.key)
    ensures AllFillable(Others(expressions, key))
  {
    forall r | r in Others(expressions, key) ensures Fillable(Others(expressions, key), r.key) {
      OthersSpec(expressions, key, r);
      var v :| FitsAll(expressions, r.key, v);
      forall x | x in Others(expressions, key) && x.key == r.key ensures MatchesValue(x, v) { OthersSpec(expressions, key, x); }
      assert FitsAll(Others(expressions, key), r.key, v);
    }
  }

  /** An open term matches a node of the zone, built key by key. */
  lemma OpenTermMatches(t: Term, key: string, zone: string) returns (n: Node)
    requires TermOpen(t, key, zone) && !IsEmpty(t)
    ensures InZone(n, key, zone) && TermMatches(t, n)
  {
    OthersFillable(t.expressions, key);
    assert AllFillable(t.fields);
    var labels := Filled(Others(t.expressions, key));
    n := Node(labels[key := zone], Filled(t.fields));
    forall r | r in t.expressions ensures Matches(r, n.labels) {
      if r.key == key {
        KeyAlone(r, key, zone, n);
      } else {
        OthersSpec(t.expressions, key, r);
        FilledMatches(Others(t.expressions, key), r);
        OwnKeyOnly(r, labels);
        OwnKeyOnly(r, n.labels);
      }
    }
    forall r | r in t.fields ensures Matches(r, n.fields) { FilledMatches(t.fields, r); }
  }

  lemma MatchedTermIsOpen(t: Term, key: string, zone: string, n: Node)
    requires InZone(n, key, zone) && TermMatches(t, n)
    ensures TermOpen(t, key, zone)
  {
    forall r | r in t.expressions && r.key == key ensures Accepts(r, key, zone) { KeyAlone(r, key, zone, n); }
    forall r | r in t.expressions && r.key != key ensures Fillable(t.expressions, r.key) { MatchedIsFillable(t.expressions, n.labels, r.key); }
    forall r | r in t.fields ensures Fillable(t.fields, r.key) { MatchedIsFillable(t.fields, n.fields, r.key); }
  }

  lemma MatchedIsFillable(requirements: seq<Requirement>, values: map<string, string>, key: string)
    requires forall r :: r in requirements ==> Matches(r, values)
    ensures Fillable(requirements, key)
  {
    forall r | r in requirements && r.key == key ensures MatchesValue(r, Look(values, key)) { OwnKeyOnly(r, values); }
    assert FitsAll(requirements, key, Look(values, key));
  }

  /** No node can take the pod. */
  ghost predicate Unsatisfiable(affinity: Option<NodeAffinity>, spec: ZoneAware, zone: string) {
    forall n :: !Admits(ApplyZoneAffinity(affinity, spec, zone), n)
  }

  /** Whatever the user requires, the merged selector is unsatisfiable if and only if there are terms and none of them is
      open for the zone. */
  lemma UnsatisfiableIff(affinity: Option<NodeAffinity>, spec: ZoneAware, zone: string)
    requires Pinned(spec, zone)
    ensures Unsatisfiable(affinity, spec, zone) <==>
            Terms(affinity) != [] && forall t :: t in Terms(affinity) ==> !TermOpen(t, RenderKey(spec), zone)
  {
    var key := RenderKey(spec);
    if Terms(affinity) == [] {
      var n := Node(map[key := zone], map[]);
      Placement(affinity, spec, zone, n);
      assert Admits(ApplyZoneAffinity(affinity, spec, zone), n);
    } else if t :| t in Terms(affinity) && TermOpen(t, key, zone) {
      var n := Node(map[key := zone], map[]);
      if !IsEmpty(t) { n := OpenTermMatches(t, key, zone); }
      Placement(affinity, spec, zone, n);
      assert Admits(ApplyZoneAffinity(affinity, spec, zone), n);
    } else {
      forall n ensures !Admits(ApplyZoneAffinity(affinity, spec, zone), n) { ClosedTermsAdmitNone(affinity, spec, zone, n); }
    }
  }

  lemma ClosedTermsAdmitNone(affinity: Option<NodeAffinity>, spec: ZoneAware, zone: string, n: Node)
    requires Pinned(spec, zone) && Terms(affinity) != [] && forall t :: t in Terms(affinity) ==> !TermOpen(t, RenderKey(spec), zone)
    ensures !Admits(ApplyZoneAffinity(affinity, spec, zone), n)
  {
    var key := RenderKey(spec);
    forall t | t in Terms(affinity) ensures !IsEmpty(t) && !(InZone(n, key, zone) && TermMatches(t, n)) {
      if InZone(n, key, zone) && TermMatches(t, n) { MatchedTermIsOpen(t, key, zone, n); }
    }
    Placement(affinity, spec, zone, n);
  }

  /** The detector finds nothing wrong with the term. */
  predicate Passes(t: Term, key: string, zone: string) {
    var d := Decider(t.expressions, key);
    d.None? || Accepts(d.value, key, zone)
  }

  /** An unsatisfiable placement goes unreported if and only if no term is open and the detector passes one of them: one
      that rules the zone out by another expression on the key, or that contradicts itself on another key. */
  lemma MissedIff(affinity: Option<NodeAffinity>, spec: ZoneAware, zone: string)
    requires Pinned(spec, zone)
    ensures Unsatisfiable(affinity, spec, zone) && !Conflicts(affinity, TopologyKey(spec), zone) <==>
            && (forall t :: t in Terms(affinity) ==> !TermOpen(t, RenderKey(spec), zone))
            && exists t :: t in Terms(affinity) && Passes(t, TopologyKey(spec), zone)
  {
    var key := TopologyKey(spec);
    UnsatisfiableIff(affinity, spec, zone);
    forall t | t in Terms(affinity) ensures AllowsZone(t.expressions, key, zone) <==> Passes(t, key, zone) {
      DeciderDecides(t.expressions, key, zone);
    }
  }

  /** A satisfiable placement is reported if and only if the detector rejects every term on its key and one of them is
      open on the key the deployment is pinned by: then the two keys differ. */
  lemma FalseAlarmIff(affinity: Option<NodeAffinity>, spec: ZoneAware, zone: string)
    requires Pinned(spec, zone)
    ensures !Unsatisfiable(affinity, spec, zone) && Conflicts(affinity, TopologyKey(spec), zone) <==>
            && (forall t :: t in Terms(affinity) ==> !Passes(t, TopologyKey(spec), zone))
            && exists t :: t in Terms(affinity) && TermOpen(t, RenderKey(spec), zone)
    ensures !Unsatisfiable(affinity, spec, zone) && Conflicts(affinity, TopologyKey(spec), zone) ==> BlankKey(spec)
  {
    var key := TopologyKey(spec);
    UnsatisfiableIff(affinity, spec, zone);
    forall t | t in Terms(affinity) ensures AllowsZone(t.expressions, key, zone) <==> Passes(t, key, zone) {
      DeciderDecides(t.expressions, key, zone);
    }
    if Conflicts(affinity, key, zone) {
      forall n ensures !BlankKey(spec) ==> !Admits(ApplyZoneAffinity(affinity, spec, zone), n) {
        ConflictIsUnsatisfiable(affinity, spec, zone, n);
      }
    }
  }

  /** Such a false alarm: a blank topology key, and a selector on the default key for another zone. */
  lemma FalseAlarm(spec: ZoneAware, zone: string, other: string)
    requires Pinned(spec, zone) && BlankKey(spec) && other != zone
    ensures var affinity := Some(NodeAffinity(Some([Term([Requirement(DEFAULT_TOPOLOGY_KEY, In, [other])], [])]), []));
            !Unsatisfiable(affinity, spec, zone) && Conflicts(affinity, TopologyKey(spec), zone)
  {
    SameKeyUnlessBlank(spec);
    var r := Requirement(DEFAULT_TOPOLOGY_KEY, In, [other]);
    var t := Term([r], []);
    var affinity := Some(NodeAffinity(Some([t]), []));
    assert Terms(affinity) == [t] && t in Terms(affinity);
    assert Decider([r], DEFAULT_TOPOLOGY_KEY) == Some(r);
    assert !Passes(t, DEFAULT_TOPOLOGY_KEY, zone);
    assert FitsAll(t.expressions, DEFAULT_TOPOLOGY_KEY, Some(other));
    assert TermOpen(t, RenderKey(spec), zone);
    FalseAlarmIff(affinity, spec, zone);
  }

  /** The detector is exact for terms that are plain on the key and can be met elsewhere. */
  lemma ReportedIffUnsatisfiable(affinity: Option<NodeAffinity>, spec: ZoneAware, zone: string)
    requires Pinned(spec, zone) && !BlankKey(spec)
    requires forall t :: t in Terms(affinity) ==> Plain(t.expressions, TopologyKey(spec)) && OpenElsewhere(t, TopologyKey(spec))
    ensures Conflicts(affinity, TopologyKey(spec), zone) <==> Unsatisfiable(affinity, spec, zone)
  {
    SameKeyUnlessBlank(spec);
    PlainIsComplete(affinity, TopologyKey(spec), zone);
    UnsatisfiableIff(affinity, spec, zone);
  }

  /** Nothing but a comparison on the key is overlooked as well: a zone that is no number is above no bound. */
  lemma ComparisonMissed(spec: ZoneAware, zone: string, bound: string)
    requires Pinned(spec, zone) && ParseInt(zone).None?
    ensures var affinity := Some(NodeAffinity(Some([Term([Requirement(RenderKey(spec), Gt, [bound])], [])]), []));
            Unsatisfiable(affinity, spec, zone) && !Conflicts(affinity, TopologyKey(spec), zone)
  {
    var key := RenderKey(spec);
    var r := Requirement(key, Gt, [bound]);
    var t := Term([r], []);
    var affinity := Some(NodeAffinity(Some([t]), []));
    assert Terms(affinity) == [t] && t in Terms(affinity) && r in t.expressions;
    assert Decider([r], TopologyKey(spec)) == None by { assert [r][1..] == []; }
    assert Passes(t, TopologyKey(spec), zone) && Rejects(t.expressions, key, zone);
    MissedIff(affinity, spec, zone);
  }

  /** A term that contradicts itself on another key is passed although the only other term excludes the zone: plain terms,
      satisfiable in the other zone. */
  lemma OtherKeyMissed(spec: ZoneAware, zone: string, other: string, disk: string)
    requires Pinned(spec, zone) && other != zone && disk != TopologyKey(spec) && disk != RenderKey(spec)
    ensures var elsewhere := Term([Requirement(RenderKey(spec), In, [other])], []);
            var broken := Term([Requirement(disk, Exists, []), Requirement(disk, DoesNotExist, [])], []);
            var affinity := Some(NodeAffinity(Some([elsewhere, broken]), []));
            && Plain(elsewhere.expressions, TopologyKey(spec)) && Plain(broken.expressions, TopologyKey(spec))
            && Admits(affinity, Node(map[RenderKey(spec) := other], map[]))
            && Unsatisfiable(affinity, spec, zone) && !Conflicts(affinity, TopologyKey(spec), zone)
  {
    var key := RenderKey(spec);
    var only, some, none := Requirement(key, In, [other]), Requirement(disk, Exists, []), Requirement(disk, DoesNotExist, []);
    var elsewhere, broken := Term([only], []), Term([some, none], []);
    var affinity := Some(NodeAffinity(Some([elsewhere, broken]), []));
    assert Terms(affinity) == [elsewhere, broken] && broken in Terms(affinity) && elsewhere in Terms(affinity);
    assert only in elsewhere.expressions && !Accepts(only, key, zone);
    assert Rejects(elsewhere.expressions, key, zone);
    assert some in broken.expressions && none in broken.expressions;
    forall v ensures !FitsAll(broken.expressions, disk, v) { assert MatchesValue(some, v) != MatchesValue(none, v); }
    assert !Fillable(broken.expressions, disk);
    assert Decider([none], TopologyKey(spec)) == None by { assert [none][1..] == []; }
    assert Decider([some, none], TopologyKey(spec)) == None by { assert [some, none][1..] == [none]; }
    assert Passes(broken, TopologyKey(spec), zone);
    MissedIff(affinity, spec, zone);
    assert TermMatches(elsewhere, Node(map[key := other], map[]));
  }
}
