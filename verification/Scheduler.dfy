/** The scheduler's jobs as they run: the loops of missingInstancesFor, the read-modify-write retries against the
    API server while other writers interfere, and the in-flight table that keeps jobs from overlapping. */
module Scheduler {
  import opened Text
  import opened Domain
  import opened Planner
  import opened Commits
  import opened Interleavings

  // ---------------------------------------------------------------- missing instances

  ghost predicate Eligible(current: set<string>, n: string) { n != "" && n !in current }

  ghost function EligibleNames(names: seq<string>, current: set<string>): set<string> {
    set n | n in names && Eligible(current, n)
  }

  lemma {:induction false} LastMissingSome(missing: seq<Missing>, name: string)
    ensures LastMissing(missing, name).Some? <==> name in Map(MissingName, missing)
  {
    if missing != [] {
      var init, last := missing[..|missing| - 1], missing[|missing| - 1];
      LastMissingSome(init, name);
      assert missing == init + [last];
      assert Map(MissingName, missing) == Map(MissingName, init) + [last.name];
    }
  }

  lemma SameSorted(s: seq<string>, t: seq<string>)
    requires NoDup(s) && NoDup(t) && Elements(s) == Elements(t)
    ensures SortNames(s) == SortNames(t)
  {
    NoDupMultiset(s);
    NoDupMultiset(t);
    forall x ensures multiset(s)[x] == multiset(t)[x] {
      assert x in s <==> x in Elements(s);
      assert x in t <==> x in Elements(t);
    }
    assert Map(Self, s) == s && Map(Self, t) == t;
    SortStrict(Self, s);
    SortStrict(Self, t);
    SortPermutes(Self, s);
    SortPermutes(Self, t);
    StrictUnique(Self, SortNames(s), SortNames(t));
  }

  /** The last entry of every eligible missing name. */
  method Existing(missing: seq<Missing>, current: set<string>) returns (existing: map<string, Missing>)
    ensures existing.Keys == EligibleNames(Map(MissingName, missing), current)
    ensures forall n :: n in existing ==> LastMissing(missing, n) == Some(existing[n])
  {
    existing := map[];
    for k := 0 to |missing|
      invariant existing.Keys == EligibleNames(Map(MissingName, missing[..k]), current)
      invariant forall n :: n in existing ==> LastMissing(missing[..k], n) == Some(existing[n])
    {
      var m := missing[k];
      TakeNext(missing, k);
      assert missing[..k + 1][..k] == missing[..k];
      assert Map(MissingName, missing[..k + 1]) == Map(MissingName, missing[..k]) + [m.name];
      if m.name != "" && m.name !in current { existing := existing[m.name := m]; }
    }
    assert missing[..|missing|] == missing;
  }

  lemma ListOne(names: seq<string>, n: string)
    requires NoDup(names) && n !in names
    ensures NoDup(names + [n]) && Elements(names + [n]) == Elements(names) + {n}
  {
  }

  /** The keys of a map in the order the runtime happens to visit them. */
  method Listed(candidates: set<string>) returns (names: seq<string>)
    ensures NoDup(names) && Elements(names) == candidates
  {
    var todo := candidates;
    names := [];
    while todo != {}
      invariant NoDup(names) && todo <= candidates && Elements(names) == candidates - todo
      decreases |todo|
    {
      var n :| n in todo;
      assert n !in names by { assert n !in Elements(names); }
      ListOne(names, n);
      todo, names := todo - {n}, names + [n];
    }
  }

  /** Everything tracked or known before that is not discovered now. */
  method Candidates(s: Status, current: set<string>, tracked: set<string>) returns (candidates: set<string>)
    requires tracked == EligibleNames(Map(MissingName, s.missing), current)
    ensures candidates == tracked + EligibleNames(Names(s.topology), current)
  {
    candidates := tracked;
    for k := 0 to |s.topology|
      invariant candidates == tracked + EligibleNames(Names(s.topology[..k]), current)
    {
      TakeNext(s.topology, k);
      assert Names(s.topology[..k + 1]) == Names(s.topology[..k]) + [s.topology[k].name];
      if s.topology[k].name != "" && s.topology[k].name !in current { candidates := candidates + {s.topology[k].name}; }
    }
    assert s.topology[..|s.topology|] == s.topology;
  }

  lemma BumpNext(missing: seq<Missing>, names: seq<string>, now: int, k: nat)
    requires k < |names|
    ensures BumpAll(missing, names[..k + 1], now) ==
            BumpAll(missing, names[..k], now) + [Bump(LastMissing(missing, names[k]), names[k], now)]
  {
    TakeNext(names, k);
  }

  method BumpEach(missing: seq<Missing>, existing: map<string, Missing>, names: seq<string>, now: int) returns (out: seq<Missing>)
    requires forall n :: n in names ==> LastMissing(missing, n) == if n in existing then Some(existing[n]) else None
    ensures out == BumpAll(missing, names, now)
  {
    out := [];
    for k := 0 to |names|
      invariant out == BumpAll(missing, names[..k], now)
    {
      var n := names[k];
      BumpNext(missing, names, now, k);
      var item := if n in existing then existing[n] else Missing("", 0, None, None);
      out := out + [Missing(n, item.count + 1, if item.first.None? then Some(now) else item.first, Some(now))];
    }
    assert names[..|names|] == names;
  }

  /** missingInstancesFor, for a discovery that ran: whatever order the maps are visited in. */
  method MissingInstancesFor(s: Status, d: Discovery, now: int) returns (out: seq<Missing>)
    ensures out == MissingFor(s, d, now)
  {
    if !d.trusted { return s.missing; }
    var current := DiscoveredNames(d.instances);
    var existing := Existing(s.missing, current);
    var candidates := Candidates(s, current, existing.Keys);
    var names := Listed(candidates);
    AbsentIsSorted(s, d.instances, names);
    AbsentSpec(s, d.instances);
    forall n | n in AbsentNames(s, d.instances) ensures LastMissing(s.missing, n) == if n in existing then Some(existing[n]) else None {
      LastMissingSome(s.missing, n);
    }
    out := BumpEach(s.missing, existing, SortNames(names), now);
  }

  lemma AbsentIsSorted(s: Status, instances: seq<Observation>, names: seq<string>)
    requires NoDup(names)
    requires Elements(names) == EligibleNames(Map(MissingName, s.missing), DiscoveredNames(instances))
                              + EligibleNames(Names(s.topology), DiscoveredNames(instances))
    ensures SortNames(names) == AbsentNames(s, instances)
  {
    var tracked, current := Tracked(s), DiscoveredNames(instances);
    var distinct := Distinct(Keep(tracked, set n | n in tracked && n != "" && n !in current));
    DistinctSpec(Keep(tracked, set n | n in tracked && n != "" && n !in current));
    assert forall n :: n in tracked <==> n in Map(MissingName, s.missing) || n in Names(s.topology);
    assert Elements(names) == Elements(distinct);
    SameSorted(names, distinct);
  }

  // ---------------------------------------------------------------- optimistic concurrency

  /** The object as it stands after the given writes. */
  function Latest(r: Resource, writes: seq<Resource>): Resource {
    if writes == [] then r else writes[|writes| - 1]
  }

  function LatestOf(r: Resource, rounds: seq<seq<Resource>>): Resource {
    if rounds == [] then r else Latest(LatestOf(r, rounds[..|rounds| - 1]), rounds[|rounds| - 1])
  }

  const RETRIES := 5

  /** One custom resource on the API server; an update only succeeds on the version it was read at. */
  class Store {
    var resource: Resource
    var version: nat

    constructor (r: Resource)
      ensures resource == r
    {
      resource, version := r, 0;
    }

    method Update(readAt: nat, r: Resource) returns (ok: bool)
      modifies this
      ensures ok <==> readAt == old(version)
      ensures ok ==> resource == r && version == old(version) + 1
      ensures !ok ==> resource == old(resource) && version == old(version)
    {
      ok := readAt == version;
      if ok { resource, version := r, version + 1; }
    }

    /** The writes of everybody else. */
    method Interfere(writes: seq<Resource>)
      modifies this
      ensures resource == Latest(old(resource), writes) && version == old(version) + |writes|
    {
      resource, version := if writes == [] then resource else writes[|writes| - 1], version + |writes|;
    }

    /** RetryOnConflict around a read-modify-write: others[i] are the writes that land between the read and the
        write of attempt i.  On success the change was made to the very state that preceded it, as if the read and
        the write had been one step; on failure nothing of it was written. */
    method RetryOnConflict(change: Status -> Status, others: seq<seq<Resource>>) returns (ok: bool, tries: nat)
      requires |others| == RETRIES
      modifies this
      ensures tries <= |others|
      ensures ok ==> var before := LatestOf(old(resource), others[..tries]);
                     resource == before.(status := change(before.status))
      ensures !ok ==> resource == LatestOf(old(resource), others[..tries])
      ensures ok <==> tries < RETRIES || (exists i :: 0 <= i < tries && others[i] == [])
    {
      ok, tries := false, 0;
      while tries < RETRIES
        invariant 0 <= tries <= RETRIES
        invariant resource == LatestOf(old(resource), others[..tries])
        invariant forall i :: 0 <= i < tries ==> others[i] != []
        decreases RETRIES - tries
      {
        var readAt, fresher := version, resource;
        var changed := fresher.(status := change(fresher.status));
        if changed == fresher { return true, tries; }
        Interfere(others[tries]);
        LatestNext(old(resource), others, tries);
        ok := Update(readAt, changed);
        if ok {
          return true, tries + 1;
        }
        tries := tries + 1;
      }
    }
  }

  lemma LatestNext(r: Resource, rounds: seq<seq<Resource>>, k: nat)
    requires k < |rounds|
    ensures LatestOf(r, rounds[..k + 1]) == Latest(LatestOf(r, rounds[..k]), rounds[k])
  {
    assert rounds[..k + 1][..k] == rounds[..k];
  }

  /** runDiscoveryJob: it reads a snapshot, discovers while others write, and commits.  A successful commit is exactly
      the discovery step of a run, on that snapshot and on the state just before the commit. */
  method RunDiscoveryJob(store: Store, attempt: Attempt, now: int, during: seq<Resource>, others: seq<seq<Resource>>) returns (ok: bool, tries: nat)
    requires |others| == RETRIES
    modifies store
    ensures tries <= |others|
    ensures var before := LatestOf(old(store.resource), [during] + others[..tries]);
            store.resource == if ok then before.(status := DiscoverStep(before.status, old(store.resource), attempt, now)) else before
  {
    var snapshot := store.resource;
    store.Interfere(during);
    var sensed := match attempt
      case Errored => Sensed(UNTRUSTED, true, true)
      case Answered(d) => if d.trusted then Sensed(d, true, false) else Sensed(AfterFailure(snapshot, d), true, true);
    var missing := MissingInstancesFor(snapshot.status, sensed.discovery, now);
    ok, tries := store.RetryOnConflict(s => CommitDiscovery(s, sensed, missing, now), others);
    LatestFrom(snapshot, during, others[..tries]);
  }

  /** runMonitorJob: it gives up on an untrusted cached topology; otherwise it plans from its snapshot and commits
      exactly the monitor step of a run. */
  method RunMonitorJob(store: Store, check: Option<map<string, Health>>, now: int, during: seq<Resource>, others: seq<seq<Resource>>) returns (ok: bool, tries: nat)
    requires |others| == RETRIES
    modifies store
    ensures tries <= |others|
    ensures var before := LatestOf(old(store.resource), [during] + others[..tries]);
            store.resource == if ok then before.(status := MonitorStep(before.status, old(store.resource), check, now)) else before
  {
    var snapshot := store.resource;
    var d := CachedDiscovery(snapshot.status);
    store.Interfere(during);
    if !d.trusted {
      LatestFrom(snapshot, during, others[..0]);
      return true, 0;
    }
    var plan := RunPlan(Input(snapshot, d.trusted, d.instances, if check.Some? then check.value else map[], check.None?, snapshot.status.missing));
    ok, tries := store.RetryOnConflict(s => CommitMonitor(s, d, plan, now), others);
    LatestFrom(snapshot, during, others[..tries]);
  }

  lemma {:induction false} LatestFrom(r: Resource, first: seq<Resource>, rounds: seq<seq<Resource>>)
    ensures LatestOf(r, [first] + rounds) == LatestOf(Latest(r, first), rounds)
  {
    if rounds == [] {
      assert [first] + rounds == [first];
      assert LatestOf(r, [first][..0]) == r;
    } else {
      var init := rounds[..|rounds| - 1];
      LatestFrom(r, first, init);
      assert ([first] + rounds)[..|rounds|] == [first] + init;
    }
  }

  // ---------------------------------------------------------------- jobs in flight

  datatype Kind = DiscoveryJob | MonitorJob

  datatype Job = Job(kind: Kind, namespace: string, name: string)

  function KindName(k: Kind): string { if k.DiscoveryJob? then "discovery" else "monitor" }

  /** inFlightID. */
  function JobId(j: Job): string { KindName(j.kind) + ":" + (j.namespace + "/" + j.name) }

  ghost predicate IsNamespace(s: string) { '/' !in s }

  lemma SplitsOnce(a: string, b: string, x: string, y: string, c: char)
    requires c !in a && c !in x
    requires a + ([c] + b) == x + ([c] + y)
    ensures a == x && b == y
  {
    var l, r := a + ([c] + b), x + ([c] + y);
    assert l[|a|] == c && r[|x|] == c;
    assert l[..|a|] == a && r[..|x|] == x;
    assert l[|a| + 1..] == b && r[|x| + 1..] == y;
  }

  /** Two jobs share an id only when they are the same job. */
  lemma JobIdInjective(j: Job, k: Job)
    requires IsNamespace(j.namespace) && IsNamespace(k.namespace)
    ensures JobId(j) == JobId(k) <==> j == k
  {
    if JobId(j) == JobId(k) {
      assert JobId(j) == KindName(j.kind) + ([':'] + (j.namespace + "/" + j.name));
      assert JobId(k) == KindName(k.kind) + ([':'] + (k.namespace + "/" + k.name));
      SplitsOnce(KindName(j.kind), j.namespace + "/" + j.name, KindName(k.kind), k.namespace + "/" + k.name, ':');
      assert j.namespace + "/" + j.name == j.namespace + (['/'] + j.name);
      assert k.namespace + "/" + k.name == k.namespace + (['/'] + k.name);
      SplitsOnce(j.namespace, j.name, k.namespace, k.name, '/');
      assert KindName(j.kind)[0] == KindName(k.kind)[0];
    }
  }

  /** The in-flight table; `running` is what really runs. */
  class JobTable {
    var inFlight: set<string>
    ghost var running: multiset<Job>

    /** No job runs twice at a time, and the table holds exactly the ids of the running ones. */
    ghost predicate Valid()
      reads this
    {
      && (forall j :: running[j] <= 1)
      && (forall j :: j in running ==> IsNamespace(j.namespace))
      && inFlight == set j | j in running :: JobId(j)
    }

    constructor ()
      ensures Valid() && running == multiset{}
    {
      inFlight, running := {}, multiset{};
    }

    /** enqueueJob: a job starts unless the very same one is still running. */
    method Enqueue(j: Job) returns (started: bool)
      requires Valid() && IsNamespace(j.namespace)
      modifies this
      ensures Valid()
      ensures started <==> j !in old(running)
      ensures running == if started then old(running) + multiset{j} else old(running)
    {
      forall k | k in running ensures JobId(j) == JobId(k) <==> j == k { JobIdInjective(j, k); }
      started := JobId(j) !in inFlight;
      if started { inFlight, running := inFlight + {JobId(j)}, running + multiset{j}; }
    }

    /** clearInFlight, when a job ends: it may start again, and no other job is affected. */
    method Finish(j: Job)
      requires Valid() && j in running
      modifies this
      ensures Valid() && j !in running && running == old(running) - multiset{j}
    {
      forall k | k in running ensures JobId(j) == JobId(k) <==> j == k { JobIdInjective(j, k); }
      inFlight, running := inFlight - {JobId(j)}, running - multiset{j};
    }
  }
}
