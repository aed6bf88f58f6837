/** discovery.BuildResult: when the rows of aurora_replica_status are trusted, and what topology they
    then give. */
module Aurora {
  import opened Text
  import opened Domain

  datatype Row = Row(serverId: string, sessionId: string)

  datatype Metadata = Metadata(zone: string, dbi: string)

  const MASTER_SESSION_ID := "MASTER_SESSION_ID"

  /** Simple case folding, as far as it can reach a letter of MASTER_SESSION_ID. */
  function Fold(c: char): char {
    if 'a' <= c <= 'z' then c - 'a' + 'A'
    else if c == '\U{017F}' then 'S'
    else if c == '\U{212A}' then 'K'
    else c
  }

  function RoleOf(row: Row): Role {
    if Map(Fold, Trim(row.sessionId)) == MASTER_SESSION_ID then Writer else Reader
  }

  function RowName(row: Row): string { Trim(row.serverId) }

  function PreviousTopology(topology: seq<Observation>): map<string, Observation> {
    if topology == [] then map[]
    else
      var rest, last := PreviousTopology(topology[..|topology| - 1]), topology[|topology| - 1];
      if Trim(last.name) == "" then rest else rest[Trim(last.name) := last]
  }

  function EndpointFor(spec: Spec, name: string, previous: map<string, Observation>): string {
    if Trim(spec.domainName) != "" then Trim(name) + "." + Trim(spec.domainName)
    else if name in previous then Trim(previous[name].endpoint)
    else ""
  }

  function PortFor(spec: Spec, name: string, previous: map<string, Observation>): int {
    if spec.port > 0 then spec.port
    else if name in previous && previous[name].port > 0 then previous[name].port
    else 5432
  }

  function Prefer(current: string, name: string, previous: map<string, Observation>, field: Observation -> string): string {
    if Trim(current) != "" then Trim(current)
    else if name in previous then Trim(field(previous[name]))
    else ""
  }

  function ZoneOf(o: Observation): string { o.zone }

  function DbiOf(o: Observation): string { o.dbi }

  function Observe(r: Resource, metadata: map<string, Metadata>, row: Row): Observation {
    var name, previous := RowName(row), PreviousTopology(r.status.topology);
    var meta := if name in metadata then metadata[name] else Metadata("", "");
    Observation(name, EndpointFor(r.spec, name, previous), PortFor(r.spec, name, previous), RoleOf(row),
                Prefer(meta.zone, name, previous, ZoneOf), Prefer(meta.dbi, name, previous, DbiOf))
  }

  function Observations(r: Resource, metadata: map<string, Metadata>, rows: seq<Row>): seq<Observation> {
    Map(row => Observe(r, metadata, row), rows)
  }

  predicate Usable(r: Resource, row: Row) {
    RowName(row) != "" && EndpointFor(r.spec, RowName(row), PreviousTopology(r.status.topology)) != ""
  }

  /** The rows name distinct instances, each with a reachable endpoint, and exactly one master. */
  ghost predicate Trustworthy(r: Resource, rows: seq<Row>) {
    && rows != []
    && (forall row :: row in rows ==> Usable(r, row))
    && NoDup(Map(RowName, rows))
    && multiset(Map(RoleOf, rows))[Writer] == 1
  }

  /** What the first `i` rows contribute while nothing is wrong with them. */
  ghost predicate Collected(r: Resource, rows: seq<Row>, i: nat, seen: set<string>, writerCount: int)
    requires i <= |rows|
  {
    && seen == Elements(Map(RowName, rows)[..i])
    && NoDup(Map(RowName, rows)[..i])
    && (forall k :: 0 <= k < i ==> Usable(r, rows[k]))
    && writerCount == multiset(Map(RoleOf, rows)[..i])[Writer]
  }

  lemma Grown<T>(s: seq<T>, i: nat)
    requires i < |s|
    ensures Elements(s[..i + 1]) == Elements(s[..i]) + {s[i]}
    ensures multiset(s[..i + 1]) == multiset(s[..i]) + multiset{s[i]}
    ensures s[i] !in s[..i] && NoDup(s[..i]) ==> NoDup(s[..i + 1])
    ensures s[i] in s[..i] ==> !NoDup(s)
  {
    TakeNext(s, i);
  }

  lemma CollectNext(r: Resource, rows: seq<Row>, i: nat, seen: set<string>, writerCount: int)
    requires i < |rows| && Collected(r, rows, i, seen, writerCount)
    requires Usable(r, rows[i]) && RowName(rows[i]) !in seen
    ensures Collected(r, rows, i + 1, seen + {RowName(rows[i])},
                      if RoleOf(rows[i]) == Writer then writerCount + 1 else writerCount)
  {
    assert writerCount + (if RoleOf(rows[i]) == Writer then 1 else 0) == multiset(Map(RoleOf, rows)[..i + 1])[Writer] by {
      Grown(Map(RoleOf, rows), i);
    }
    Grown(Map(RowName, rows), i);
  }

  /** An empty id, an id seen before, or no endpoint. */
  predicate Doubtful(r: Resource, row: Row, seen: set<string>) {
    var name := RowName(row);
    name == "" || name in seen || EndpointFor(r.spec, name, PreviousTopology(r.status.topology)) == ""
  }

  lemma DoubtEndsTrust(r: Resource, rows: seq<Row>, i: nat, seen: set<string>, writerCount: int)
    requires i < |rows| && Collected(r, rows, i, seen, writerCount) && Doubtful(r, rows[i], seen)
    ensures !Trustworthy(r, rows)
  {
    Grown(Map(RowName, rows), i);
    assert rows[i] in rows;
  }

  lemma AllCollected(r: Resource, rows: seq<Row>, seen: set<string>, writerCount: int)
    requires rows != [] && Collected(r, rows, |rows|, seen, writerCount)
    ensures Trustworthy(r, rows) <==> writerCount == 1
  {
    assert Map(RowName, rows)[..|rows|] == Map(RowName, rows) && Map(RoleOf, rows)[..|rows|] == Map(RoleOf, rows);
  }

  /** The loop over the rows, with a set of seen names and a writer counter: it stops at the first doubtful one. */
  method Scan(r: Resource, rows: seq<Row>, metadata: map<string, Metadata>) returns (ok: bool, instances: seq<Observation>, writerCount: int)
    ensures !ok ==> !Trustworthy(r, rows)
    ensures ok ==> instances == Observations(r, metadata, rows) && exists seen :: Collected(r, rows, |rows|, seen, writerCount)
  {
    var seen: set<string> := {};
    instances, writerCount := [], 0;
    ghost var all := Observations(r, metadata, rows);
    for i := 0 to |rows|
      invariant Collected(r, rows, i, seen, writerCount)
      invariant instances == all[..i]
    {
      if Doubtful(r, rows[i], seen) {
        DoubtEndsTrust(r, rows, i, seen, writerCount);
        return false, [], 0;
      }
      CollectNext(r, rows, i, seen, writerCount);
      seen := seen + {RowName(rows[i])};
      if RoleOf(rows[i]) == Writer { writerCount := writerCount + 1; }
      instances := instances + [Observe(r, metadata, rows[i])];
      TakeNext(all, i);
    }
    assert instances == all;
    ok := true;
  }

  // ---------------------------------------------------------------- rows, without the functions above

  /** `c` is the capital letter or underscore `m`, or that letter in lower case; the long s folds to S as well. */
  predicate SameLetter(c: char, m: char) {
    c == m || ('A' <= m <= 'Z' && c == m - 'A' + 'a') || (m == 'S' && c == '\U{017F}')
  }

  /** The session id reads MASTER_SESSION_ID in any mixture of cases. */
  predicate ReadsMaster(session: string) {
    |session| == 17 && forall i :: 0 <= i < 17 ==> SameLetter(session[i], "MASTER_SESSION_ID"[i])
  }

  predicate MasterRow(row: Row) { ReadsMaster(Trim(row.sessionId)) }

  lemma MasterIsWriter(row: Row)
    ensures RoleOf(row) == Writer <==> MasterRow(row)
  {
    var t := Trim(row.sessionId);
    assert MASTER_SESSION_ID == "MASTER_SESSION_ID" && |MASTER_SESSION_ID| == 17;
    forall c: char, i | 0 <= i < 17 ensures Fold(c) == MASTER_SESSION_ID[i] <==> SameLetter(c, MASTER_SESSION_ID[i]) {
      FoldIsSameLetter(c, MASTER_SESSION_ID[i]);
    }
    assert MasterRow(row) ==> Map(Fold, t) == MASTER_SESSION_ID;
    assert Map(Fold, t) == MASTER_SESSION_ID ==> forall i :: 0 <= i < 17 ==> Fold(t[i]) == Map(Fold, t)[i];
  }

  lemma FoldIsSameLetter(c: char, m: char)
    requires m == '_' || ('A' <= m <= 'Z' && m != 'K')
    ensures Fold(c) == m <==> SameLetter(c, m)
  {
  }

  /** Exactly one row is the master's. */
  ghost predicate OneMaster(rows: seq<Row>) {
    exists i :: 0 <= i < |rows| && MasterRow(rows[i]) && forall j :: 0 <= j < |rows| && MasterRow(rows[j]) ==> j == i
  }

  lemma OneMasterIffCounted(rows: seq<Row>)
    ensures multiset(Map(RoleOf, rows))[Writer] == 1 <==> OneMaster(rows)
  {
    var roles := Map(RoleOf, rows);
    forall i | 0 <= i < |rows| ensures roles[i] == Writer <==> MasterRow(rows[i]) { MasterIsWriter(rows[i]); }
    if multiset(roles)[Writer] == 1 {
      CountedOnce(roles);
      var i :| 0 <= i < |roles| && roles[i] == Writer && forall j :: 0 <= j < |roles| && roles[j] == Writer ==> j == i;
      assert MasterRow(rows[i]);
    }
    if OneMaster(rows) {
      var i :| 0 <= i < |rows| && MasterRow(rows[i]) && forall j :: 0 <= j < |rows| && MasterRow(rows[j]) ==> j == i;
      OnceCounted(roles, i);
    }
  }

  lemma OnceCounted(roles: seq<Role>, i: nat)
    requires i < |roles| && roles[i] == Writer && forall j :: 0 <= j < |roles| && roles[j] == Writer ==> j == i
    ensures multiset(roles)[Writer] == 1
  {
    assert roles == roles[..i] + [roles[i]] + roles[i + 1..];
    assert Writer !in roles[..i] && Writer !in roles[i + 1..];
  }

  /** The last stored entry of that name. */
  ghost predicate LastKnown(topology: seq<Observation>, name: string, i: nat) {
    i < |topology| && Trim(topology[i].name) == name && forall j :: i < j < |topology| ==> Trim(topology[j].name) != name
  }

  lemma {:induction false} PreviousKnows(topology: seq<Observation>, name: string)
    requires name != ""
    ensures name in PreviousTopology(topology) <==> exists o :: o in topology && Trim(o.name) == name
  {
    if topology != [] {
      var init, last := topology[..|topology| - 1], topology[|topology| - 1];
      PreviousKnows(init, name);
      assert topology == init + [last];
    }
  }

  lemma {:induction false} PreviousIsLast(topology: seq<Observation>, name: string, i: nat)
    requires name != "" && LastKnown(topology, name, i)
    ensures name in PreviousTopology(topology) && PreviousTopology(topology)[name] == topology[i]
  {
    var last := |topology| - 1;
    if i < last {
      assert Trim(topology[last].name) != name;
      assert LastKnown(topology[..last], name, i);
      PreviousIsLast(topology[..last], name, i);
    }
  }

  lemma PreviousIsLastKnown(topology: seq<Observation>, name: string)
    requires name != ""
    ensures name in PreviousTopology(topology) <==> exists o :: o in topology && Trim(o.name) == name
    ensures forall i: nat :: LastKnown(topology, name, i) ==> name in PreviousTopology(topology) && PreviousTopology(topology)[name] == topology[i]
  {
    PreviousKnows(topology, name);
    forall i: nat | LastKnown(topology, name, i) { PreviousIsLast(topology, name, i); }
  }

  /** The rows are good: each names another instance, reachable under the configured domain or an endpoint known before,
      and one of them is the master. */
  ghost predicate GoodRows(r: Resource, rows: seq<Row>) {
    && (forall i :: 0 <= i < |rows| ==> Trim(rows[i].serverId) != "")
    && (forall i, j :: 0 <= i < j < |rows| ==> Trim(rows[i].serverId) != Trim(rows[j].serverId))
    && (forall i :: 0 <= i < |rows| ==> Reachable(r, Trim(rows[i].serverId)))
    && OneMaster(rows)
  }

  ghost predicate Reachable(r: Resource, name: string) {
    Trim(r.spec.domainName) != "" || exists k: nat :: LastKnown(r.status.topology, name, k) && Trim(r.status.topology[k].endpoint) != ""
  }

  lemma {:induction false} LastKnownExists(topology: seq<Observation>, name: string) returns (k: nat)
    requires exists o :: o in topology && Trim(o.name) == name
    ensures LastKnown(topology, name, k)
  {
    var last := |topology| - 1;
    if Trim(topology[last].name) == name {
      k := last;
    } else {
      var o :| o in topology && Trim(o.name) == name;
      assert o in topology[..last];
      k := LastKnownExists(topology[..last], name);
    }
  }

  lemma ReachableIff(r: Resource, name: string)
    requires name != ""
    ensures EndpointFor(r.spec, name, PreviousTopology(r.status.topology)) != "" <==> Reachable(r, name)
  {
    var topology := r.status.topology;
    PreviousIsLastKnown(topology, name);
    if name in PreviousTopology(topology) {
      var k := LastKnownExists(topology, name);
      assert forall i: nat :: LastKnown(topology, name, i) ==> i == k;
    } else {
      forall i: nat ensures !LastKnown(topology, name, i) { assert i < |topology| ==> topology[i] in topology; }
    }
  }

  lemma UsableRowsIff(r: Resource, rows: seq<Row>)
    ensures (forall row :: row in rows ==> Usable(r, row)) <==>
            forall i :: 0 <= i < |rows| ==> Trim(rows[i].serverId) != "" && Reachable(r, Trim(rows[i].serverId))
  {
    forall i | 0 <= i < |rows| ensures rows[i] in rows && (Usable(r, rows[i]) <==> Trim(rows[i].serverId) != "" && Reachable(r, Trim(rows[i].serverId))) {
      if Trim(rows[i].serverId) != "" { ReachableIff(r, Trim(rows[i].serverId)); }
    }
  }

  lemma DistinctRowsIff(rows: seq<Row>)
    ensures NoDup(Map(RowName, rows)) <==> forall i, j :: 0 <= i < j < |rows| ==> Trim(rows[i].serverId) != Trim(rows[j].serverId)
  {
    forall i | 0 <= i < |rows| ensures Map(RowName, rows)[i] == Trim(rows[i].serverId) { }
  }

  /** Rows are trusted if and only if they are good. */
  lemma TrustedIffGood(r: Resource, rows: seq<Row>)
    ensures Trustworthy(r, rows) <==> GoodRows(r, rows)
  {
    OneMasterIffCounted(rows);
    UsableRowsIff(r, rows);
    DistinctRowsIff(rows);
  }

  /** The observation says about the row's instance what the row, the settings, the metadata and the last stored entry
      of that name say, in this order of preference. */
  ghost predicate Reports(r: Resource, metadata: map<string, Metadata>, row: Row, o: Observation) {
    && o.name == Trim(row.serverId)
    && (o.role == Writer <==> MasterRow(row))
    && (Trim(r.spec.domainName) != "" ==> o.endpoint == o.name + "." + Trim(r.spec.domainName))
    && (r.spec.port > 0 ==> o.port == r.spec.port)
    && (o.name in metadata && Trim(metadata[o.name].zone) != "" ==> o.zone == Trim(metadata[o.name].zone))
    && (o.name in metadata && Trim(metadata[o.name].dbi) != "" ==> o.dbi == Trim(metadata[o.name].dbi))
    && (forall k: nat :: LastKnown(r.status.topology, o.name, k) ==> FallsBack(r.spec, metadata, o, r.status.topology[k]))
    && ((forall k: nat :: !LastKnown(r.status.topology, o.name, k)) ==> StartsBlank(r.spec, metadata, o))
  }

  predicate Told(text: map<string, Metadata>, name: string, field: Metadata -> string) { name in text && Trim(field(text[name])) != "" }

  predicate FallsBack(spec: Spec, metadata: map<string, Metadata>, o: Observation, known: Observation) {
    && (Trim(spec.domainName) == "" ==> o.endpoint == Trim(known.endpoint))
    && (spec.port <= 0 ==> o.port == if known.port > 0 then known.port else 5432)
    && (!Told(metadata, o.name, (m: Metadata) => m.zone) ==> o.zone == Trim(known.zone))
    && (!Told(metadata, o.name, (m: Metadata) => m.dbi) ==> o.dbi == Trim(known.dbi))
  }

  predicate StartsBlank(spec: Spec, metadata: map<string, Metadata>, o: Observation) {
    && (spec.port <= 0 ==> o.port == 5432)
    && (!Told(metadata, o.name, (m: Metadata) => m.zone) ==> o.zone == "")
    && (!Told(metadata, o.name, (m: Metadata) => m.dbi) ==> o.dbi == "")
  }

  lemma ObserveReports(r: Resource, metadata: map<string, Metadata>, row: Row)
    requires Trim(row.serverId) != ""
    ensures Reports(r, metadata, row, Observe(r, metadata, row))
  {
    var name, topology := Trim(row.serverId), r.status.topology;
    MasterIsWriter(row);
    TrimIdempotent(row.serverId);
    PreviousIsLastKnown(topology, name);
    if name in PreviousTopology(topology) { var k := LastKnownExists(topology, name); }
  }

  lemma OwnRow(rows: seq<Row>, i: nat, row: Row)
    requires NoDup(Map(RowName, rows)) && i < |rows| && row in rows && RowName(row) == RowName(rows[i])
    ensures row == rows[i]
  {
    var j :| 0 <= j < |rows| && rows[j] == row;
    assert Map(RowName, rows)[i] == Map(RowName, rows)[j];
  }

  /** Every trusted instance comes from a row, and says what the row of its name says. */
  lemma TrustedReports(r: Resource, rows: seq<Row>, metadata: map<string, Metadata>, o: Observation)
    requires Trustworthy(r, rows) && o in Sort(ObsName, Observations(r, metadata, rows))
    ensures exists row :: row in rows && Trim(row.serverId) == o.name
    ensures forall row :: row in rows && Trim(row.serverId) == o.name ==> Reports(r, metadata, row, o)
  {
    var found := Observations(r, metadata, rows);
    SortElements(ObsName, found);
    var i :| 0 <= i < |found| && found[i] == o;
    assert rows[i] in rows && o == Observe(r, metadata, rows[i]);
    ObserveReports(r, metadata, rows[i]);
    forall row | row in rows && Trim(row.serverId) == o.name ensures row == rows[i] { OwnRow(rows, i, row); }
  }

  /** BuildResult: it trusts exactly the good rows, and then reports each of them, sorted by name. */
  method BuildResult(r: Resource, rows: seq<Row>, metadata: map<string, Metadata>) returns (d: Discovery)
    ensures d.trusted <==> GoodRows(r, rows)
    ensures d == Built(r, rows, metadata)
    ensures forall o, row :: o in d.instances && row in rows && Trim(row.serverId) == o.name ==> Reports(r, metadata, row, o)
  {
    TrustedIffGood(r, rows);
    if |rows| == 0 { return UNTRUSTED; }
    var ok, instances, writerCount := Scan(r, rows, metadata);
    if !ok { return UNTRUSTED; }
    ghost var seen :| Collected(r, rows, |rows|, seen, writerCount);
    AllCollected(r, rows, seen, writerCount);
    if writerCount != 1 { return UNTRUSTED; }
    d := Discovery(true, Sort(ObsName, instances));
    forall o | o in d.instances { TrustedReports(r, rows, metadata, o); }
  }

  /** Rows without a master, or with two, are not trusted. */
  lemma MasterNeeded(r: Resource, rows: seq<Row>, metadata: map<string, Metadata>)
    ensures (forall row :: row in rows ==> !MasterRow(row)) ==> !Built(r, rows, metadata).trusted
    ensures (exists i, j :: 0 <= i < j < |rows| && MasterRow(rows[i]) && MasterRow(rows[j])) ==> !Built(r, rows, metadata).trusted
  {
    TrustedIffGood(r, rows);
  }

  /** BuildResult as a function, for the properties that relate several runs of it. */
  ghost function Built(r: Resource, rows: seq<Row>, metadata: map<string, Metadata>): Discovery {
    if Trustworthy(r, rows) then Discovery(true, Sort(ObsName, Observations(r, metadata, rows))) else UNTRUSTED
  }

  // ---------------------------------------------------------------- the shape of a trusted result

  lemma {:induction false} CountedOnce(roles: seq<Role>)
    requires multiset(roles)[Writer] == 1
    ensures exists i :: 0 <= i < |roles| && roles[i] == Writer && forall j :: 0 <= j < |roles| && roles[j] == Writer ==> j == i
  {
    var last := |roles| - 1;
    assert roles == roles[..last] + [roles[last]];
    if roles[last] == Writer {
      forall j | 0 <= j < last ensures roles[j] != Writer { assert roles[j] in roles[..last]; }
    } else {
      CountedOnce(roles[..last]);
      var i :| 0 <= i < last && roles[i] == Writer && forall j :: 0 <= j < last && roles[..last][j] == Writer ==> j == i;
    }
  }

  function ObsRole(o: Observation): Role { o.role }

  lemma OneObservedWriter(instances: seq<Observation>)
    requires multiset(Map(ObsRole, instances))[Writer] == 1
    ensures exists i :: 0 <= i < |instances| && OnlyWriter(instances, i)
  {
    var roles := Map(ObsRole, instances);
    CountedOnce(roles);
    var i :| 0 <= i < |roles| && roles[i] == Writer && forall j :: 0 <= j < |roles| && roles[j] == Writer ==> j == i;
    forall j | 0 <= j < |instances| && IsWriter(instances[j]) ensures j == i { assert roles[j] == Writer; }
    assert OnlyWriter(instances, i);
  }

  lemma ObservedComplete(r: Resource, rows: seq<Row>, metadata: map<string, Metadata>, o: Observation)
    requires Trustworthy(r, rows) && o in Observations(r, metadata, rows)
    ensures o.name != "" && o.endpoint != "" && o.port > 0
  {
    var i :| 0 <= i < |rows| && Observations(r, metadata, rows)[i] == o;
    assert rows[i] in rows;
  }

  /** A trusted result has exactly one writer, non-empty distinct names in ascending order, an endpoint
      and a positive port for every instance; its names are the trimmed row ids. */
  lemma TrustedShapeHolds(r: Resource, rows: seq<Row>, metadata: map<string, Metadata>)
    requires Trustworthy(r, rows)
    ensures var instances := Built(r, rows, metadata).instances;
            TrustedShape(instances) && multiset(Names(instances)) == multiset(Map(RowName, rows))
  {
    var found := Observations(r, metadata, rows);
    var instances := Sort(ObsName, found);
    SortPermutes(ObsName, found);
    assert Map(ObsName, found) == Map(RowName, rows) && Map(ObsRole, found) == Map(RoleOf, rows);
    SortStrict(ObsName, found);
    MapMultiset(ObsName, found, instances);
    MapMultiset(ObsRole, found, instances);
    OneObservedWriter(instances);
    SortElements(ObsName, found);
    forall o | o in instances ensures o.name != "" && o.endpoint != "" && o.port > 0 { ObservedComplete(r, rows, metadata, o); }
  }

  // ---------------------------------------------------------------- two runs

  /** The order of the rows is irrelevant. */
  lemma RowOrderIrrelevant(r: Resource, rows: seq<Row>, rows': seq<Row>, metadata: map<string, Metadata>)
    requires multiset(rows) == multiset(rows')
    ensures Built(r, rows, metadata) == Built(r, rows', metadata)
  {
    if Trustworthy(r, rows) { SameTrust(r, rows, rows'); }
    if Trustworthy(r, rows') { SameTrust(r, rows', rows); }
    if Trustworthy(r, rows) {
      var f := row => Observe(r, metadata, row);
      var a, b := Observations(r, metadata, rows), Observations(r, metadata, rows');
      MapMultiset(f, rows, rows');
      assert a == Map(f, rows) && b == Map(f, rows');
      assert Map(ObsName, a) == Map(RowName, rows) && Map(ObsName, b) == Map(RowName, rows');
      SortPermutes(ObsName, a);
      SortPermutes(ObsName, b);
      SortStrict(ObsName, a);
      SortStrict(ObsName, b);
      StrictUnique(ObsName, Sort(ObsName, a), Sort(ObsName, b));
    }
  }

  lemma SameTrust(r: Resource, rows: seq<Row>, rows': seq<Row>)
    requires multiset(rows) == multiset(rows') && Trustworthy(r, rows)
    ensures Trustworthy(r, rows')
  {
    assert |rows| == |multiset(rows)| == |multiset(rows')| == |rows'|;
    forall row | row in rows' ensures Usable(r, row) { assert row in multiset(rows'); }
    MapMultiset(RowName, rows, rows');
    MapMultiset(RoleOf, rows, rows');
    NoDupMultiset(Map(RowName, rows));
    NoDupMultiset(Map(RowName, rows'));
  }

  predicate SameTopology(a: Observation, b: Observation) {
    a.name == b.name && a.role == b.role && a.endpoint == b.endpoint && a.port == b.port
  }

  /** RDS metadata never decides topology: for any two metadata maps the same rows are trusted and give
      the same names, roles, endpoints and ports in the same order. */
  lemma MetadataDoesNotDecide(r: Resource, rows: seq<Row>, m: map<string, Metadata>, m': map<string, Metadata>)
    ensures var a, b := Built(r, rows, m), Built(r, rows, m');
            && a.trusted == b.trusted && |a.instances| == |b.instances|
            && forall i :: 0 <= i < |a.instances| ==> SameTopology(a.instances[i], b.instances[i])
  {
    var f, g := Observations(r, m, rows), Observations(r, m', rows);
    SameSort(f, g);
    SortPermutes(ObsName, f);
    SortPermutes(ObsName, g);
  }

  lemma {:induction false} SameInsert(x: Observation, y: Observation, s: seq<Observation>, t: seq<Observation>)
    requires SameTopology(x, y) && |s| == |t| && forall i :: 0 <= i < |s| ==> SameTopology(s[i], t[i])
    ensures var a, b := Insert(ObsName, x, s), Insert(ObsName, y, t);
            |a| == |b| && forall i :: 0 <= i < |a| ==> SameTopology(a[i], b[i])
  {
    if s != [] { SameInsert(x, y, s[..|s| - 1], t[..|t| - 1]); }
  }

  lemma {:induction false} SameSort(s: seq<Observation>, t: seq<Observation>)
    requires |s| == |t| && forall i :: 0 <= i < |s| ==> SameTopology(s[i], t[i])
    ensures var a, b := Sort(ObsName, s), Sort(ObsName, t);
            |a| == |b| && forall i :: 0 <= i < |a| ==> SameTopology(a[i], b[i])
  {
    if s != [] {
      var k := |s| - 1;
      SameSort(s[..k], t[..k]);
      SameInsert(s[k], t[k], Sort(ObsName, s[..k]), Sort(ObsName, t[..k]));
    }
  }
}
