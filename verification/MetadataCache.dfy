/** RDSMetadataResolver: a cache of each cluster's instance inventory that expires after a fixed time.  Its map is
    written, read and pruned in place; `refreshed` remembers the last successful refresh of every cluster for ever,
    and every method is specified by that memory alone. */
module MetadataCache {
  import opened Text
  import opened Domain
  import opened Aurora

  // ---------------------------------------------------------------- keys and entries

  function ClusterKeyOf(cluster: string): string { "cluster:" + cluster }

  function InstanceKeyOf(cluster: string, name: string): string { "instance:" + (cluster + ":" + name) }

  /** A cluster's entry is never another cluster's, nor any instance's. */
  lemma KeysApart(a: string, b: string, name: string)
    ensures ClusterKeyOf(a) == ClusterKeyOf(b) <==> a == b
    ensures ClusterKeyOf(a) != InstanceKeyOf(b, name)
  {
    assert ClusterKeyOf(a)[8..] == a && ClusterKeyOf(b)[8..] == b;
    assert ClusterKeyOf(a)[0] == 'c' && InstanceKeyOf(b, name)[0] == 'i';
  }

  datatype Content = OfInstance(meta: Metadata) | OfCluster(cluster: map<string, Metadata>)

  datatype Entry = Entry(content: Content, expiresAt: int)

  /** One row of DescribeDBInstances; the API may leave every field out. */
  datatype DbInstance = DbInstance(id: Option<string>, zone: Option<string>, dbi: Option<string>)

  function Given(o: Option<string>): string { if o.Some? then o.value else "" }

  /** The inventory of a listing: rows without an identifier are skipped, a repeated identifier keeps its last row. */
  function Inventory(rows: seq<DbInstance>): map<string, Metadata> {
    if rows == [] then map[]
    else
      var rest, last := Inventory(rows[..|rows| - 1]), rows[|rows| - 1];
      if Given(last.id) == "" then rest else rest[last.id.value := Metadata(Given(last.zone), Given(last.dbi))]
  }

  /** An instance is in the inventory exactly when some row names it, and then with what its last row says. */
  lemma {:induction false} InventorySpec(rows: seq<DbInstance>, n: string)
    ensures n in Inventory(rows) <==> n != "" && exists i :: 0 <= i < |rows| && rows[i].id == Some(n)
    ensures forall i :: 0 <= i < |rows| && n != "" && rows[i].id == Some(n) && (forall j :: i < j < |rows| ==> rows[j].id != Some(n)) ==>
              n in Inventory(rows) && Inventory(rows)[n] == Metadata(Given(rows[i].zone), Given(rows[i].dbi))
  {
    if rows != [] {
      var init, last := rows[..|rows| - 1], rows[|rows| - 1];
      InventorySpec(init, n);
      assert forall i :: 0 <= i < |init| ==> rows[i] == init[i];
    }
  }

  // ---------------------------------------------------------------- what a caller may rely on

  datatype Refresh = Refresh(inventory: map<string, Metadata>, at: int)

  type Memory = map<string, Refresh>

  /** The inventory of the last successful refresh, as long as it is not older than the time to live. */
  function Live(memory: Memory, ttl: int, cluster: string, now: int): Option<map<string, Metadata>> {
    if cluster in memory && now <= memory[cluster].at + ttl then Some(memory[cluster].inventory) else None
  }

  predicate Covers(inventory: map<string, Metadata>, names: seq<string>) { forall n :: n in names ==> n in inventory }

  /** The names asked for; listing them once and in order, as the resolver does, changes no answer. */
  function Requested(names: seq<string>): seq<string> { Keep(names, set n | n in names && n != "") }

  /** reappearedInstanceNames. */
  function Reappeared(missing: seq<Missing>, names: seq<string>): set<string> {
    set m | m in missing && (exists n :: n in names && Trim(n) == Trim(m.name)) :: Trim(m.name)
  }

  /** A name has reappeared if and only if it is asked for and still tracked as missing, blanks around it aside. */
  lemma ReappearedIff(missing: seq<Missing>, names: seq<string>, n: string)
    ensures n in Reappeared(missing, Requested(names)) <==>
            exists i, j :: 0 <= i < |missing| && 0 <= j < |names| && names[j] != "" && Trim(names[j]) == n && Trim(missing[i].name) == n
  {
    if n in Reappeared(missing, Requested(names)) {
      var m, x :| m in missing && x in Requested(names) && Trim(x) == Trim(m.name) == n;
      var i :| 0 <= i < |missing| && missing[i] == m;
      var j :| 0 <= j < |names| && names[j] == x;
    }
    if i, j :| 0 <= i < |missing| && 0 <= j < |names| && names[j] != "" && Trim(names[j]) == n && Trim(missing[i].name) == n {
      assert names[j] in Requested(names) && missing[i] in missing;
    }
  }

  const DEFAULT_TTL := 60

  class Resolver {
    const configuredTtl: int
    const cachedOnly: bool
    var cache: map<string, Entry>
    ghost var refreshed: Memory
    ghost var clock: int

    function Ttl(): int { if configuredTtl > 0 then configuredTtl else DEFAULT_TTL }

    ghost predicate Holds(cluster: string)
      reads this
    {
      var key := ClusterKeyOf(cluster);
      && (key in cache ==> cluster in refreshed && cache[key] == Entry(OfCluster(refreshed[cluster].inventory), refreshed[cluster].at + Ttl()))
      && (key !in cache && cluster in refreshed ==> refreshed[cluster].at + Ttl() < clock)
    }

    /** Whatever the cache holds for a cluster is its last refresh, and it only lacks what has expired. */
    ghost predicate Valid()
      reads this
    {
      forall cluster :: Holds(cluster)
    }

    constructor (ttl: int, cachedOnly: bool)
      ensures Valid() && refreshed == map[] && configuredTtl == ttl && this.cachedOnly == cachedOnly
    {
      configuredTtl, this.cachedOnly := ttl, cachedOnly;
      cache, refreshed, clock := map[], map[], 0;
    }

    /** prune: it drops exactly the expired entries, in any order, and no later lookup can tell. */
    method Prune(now: int)
      requires Valid() && clock <= now
      modifies this`cache, this`clock
      ensures Valid() && clock == now
      ensures cache == map k | k in old(cache) && now <= old(cache)[k].expiresAt :: old(cache)[k]
    {
      var todo := cache.Keys;
      while todo != {}
        invariant todo <= old(cache).Keys
        invariant cache == map k | k in old(cache) && (k in todo || now <= old(cache)[k].expiresAt) :: old(cache)[k]
        decreases |todo|
      {
        var k :| k in todo;
        todo := todo - {k};
        if now > cache[k].expiresAt { cache := cache - {k}; }
      }
      clock := now;
      forall cluster ensures Holds(cluster) { assert old(Holds(cluster)); }
    }

    /** clusterSnapshot. */
    method ClusterSnapshot(cluster: string, now: int) returns (r: Option<map<string, Metadata>>)
      requires Valid() && clock <= now
      modifies this`cache, this`clock
      ensures Valid() && clock == now
      ensures r == Live(refreshed, Ttl(), cluster, now)
    {
      var key := ClusterKeyOf(cluster);
      assert Holds(cluster);
      r := None;
      if key in cache {
        if now > cache[key].expiresAt { cache := cache - {key}; } else { r := Some(cache[key].content.cluster); }
      }
      clock := now;
      forall other ensures Holds(other) {
        assert old(Holds(other));
        KeysApart(other, cluster, "");
      }
    }

    /** clusterCached: only an inventory that covers every requested name is a hit. */
    method ClusterCached(cluster: string, names: seq<string>, now: int) returns (r: Option<map<string, Metadata>>)
      requires Valid() && clock <= now
      modifies this`cache, this`clock
      ensures Valid() && clock == now
      ensures var live := Live(refreshed, Ttl(), cluster, now);
              r == if live.Some? && Covers(live.value, names) then live else None
    {
      r := ClusterSnapshot(cluster, now);
      if r.None? { return; }
      for i := 0 to |names|
        invariant Covers(r.value, names[..i])
      {
        if names[i] !in r.value {
          assert !Covers(r.value, names);
          return None;
        }
      }
      assert names[..|names|] == names;
    }

    /** store: an instance's entry disturbs no cluster. */
    method Store(cluster: string, name: string, meta: Metadata, expiresAt: int)
      requires Valid()
      modifies this`cache
      ensures Valid()
      ensures cache == old(cache)[InstanceKeyOf(cluster, name) := Entry(OfInstance(meta), expiresAt)]
    {
      cache := cache[InstanceKeyOf(cluster, name) := Entry(OfInstance(meta), expiresAt)];
      forall other ensures Holds(other) {
        assert old(Holds(other));
        KeysApart(other, cluster, name);
      }
    }

    /** storeCluster, for an inventory asked for at `at`. */
    method StoreCluster(cluster: string, inventory: map<string, Metadata>, at: int)
      requires Valid()
      modifies this`cache, this`refreshed
      ensures Valid()
      ensures refreshed == old(refreshed)[cluster := Refresh(inventory, at)]
    {
      cache := cache[ClusterKeyOf(cluster) := Entry(OfCluster(inventory), at + Ttl())];
      refreshed := refreshed[cluster := Refresh(inventory, at)];
      forall other ensures Holds(other) {
        assert old(Holds(other));
        KeysApart(other, cluster, "");
      }
    }

    /** RefreshCluster; `answer` is the listing, or None when any of its calls failed.  A failed refresh forgets
        nothing that is still live. */
    method RefreshCluster(cluster: string, now: int, answer: Option<seq<DbInstance>>) returns (r: Option<map<string, Metadata>>)
      requires Valid() && clock <= now
      modifies this
      ensures Valid() && clock >= old(clock)
      ensures Trim(cluster) == "" || answer.None? ==> r == None && refreshed == old(refreshed)
      ensures Trim(cluster) != "" && answer.Some? ==>
        && r == Some(Inventory(answer.value))
        && refreshed == old(refreshed)[Trim(cluster) := Refresh(Inventory(answer.value), now)]
    {
      var name := Trim(cluster);
      if name == "" { return None; }
      Prune(now);
      if answer.None? { return None; }
      var rows := answer.value;
      var out := map[];
      for i := 0 to |rows|
        invariant Valid() && clock == now && refreshed == old(refreshed)
        invariant out == Inventory(rows[..i])
      {
        assert rows[..i + 1][..i] == rows[..i];
        var row := rows[i];
        if Given(row.id) != "" {
          var meta := Metadata(Given(row.zone), Given(row.dbi));
          out := out[row.id.value := meta];
          Store(name, row.id.value, meta, now + Ttl());
        }
      }
      assert rows[..|rows|] == rows;
      StoreCluster(name, out, now);
      r := Some(out);
    }

    /** Resolve.  `now` is read at the start, `later` by the refresh it may need. */
    method Resolve(clusterName: string, missing: seq<Missing>, names: seq<string>, now: int, later: int, answer: Option<seq<DbInstance>>)
      returns (r: Option<map<string, Metadata>>)
      requires Valid() && clock <= now <= later
      modifies this
      ensures Valid()
      ensures Trim(clusterName) == "" ==> r == None
      ensures cachedOnly || Trim(clusterName) == "" ==> refreshed == old(refreshed)
      ensures var live := Live(old(refreshed), if configuredTtl > 0 then configuredTtl else 60, Trim(clusterName), now);
              Trim(clusterName) != "" && cachedOnly ==>
                r == Some(if live.Some? then live.value - Reappeared(missing, Requested(names)) else map[])
      ensures var live := Live(old(refreshed), if configuredTtl > 0 then configuredTtl else 60, Trim(clusterName), now);
              Trim(clusterName) != "" && !cachedOnly ==>
                if Reappeared(missing, Requested(names)) == {} && live.Some? && Covers(live.value, Requested(names))
                then r == live && refreshed == old(refreshed)
                else if answer.None? then r == None && refreshed == old(refreshed)
                else r == Some(Inventory(answer.value)) && refreshed == old(refreshed)[Trim(clusterName) := Refresh(Inventory(answer.value), later)]
    {
      var cluster := Trim(clusterName);
      TrimIdempotent(clusterName);
      if cluster == "" { return None; }
      Prune(now);
      var reappeared := Reappeared(missing, Requested(names));
      if cachedOnly {
        var cached := ClusterSnapshot(cluster, now);
        return Some(if cached.Some? then cached.value - reappeared else map[]);
      }
      if reappeared == {} {
        r := ClusterCached(cluster, Requested(names), now);
        if r.Some? { return; }
      }
      r := RefreshCluster(cluster, later, answer);
    }
  }
}
