/**
 * The connection-topology builder of `Barbery\Providers\Database`: it turns
 * the ordered Redis configuration into a map from connection names to client
 * handles, either one cluster client named `default` or one single-node client
 * per configured name. Handles record the options they were connected and
 * configured with; no socket is modelled.
 */
module Providers {
  import opened Wrappers
  import opened PhpArray
  import opened PhpValue

  const DefaultHost := "127.0.0.1"
  const DefaultPort := "6379"
  const DefaultConnection := "default"
  const ClusterKey := "cluster"
  const OptionsKey := "options"
  const ClusterConfigKey := "clusterConfig"
  const PrefixOption := "prefix"
  const FailoverOption := "failover"

  /**
   * A single-node `Redis` client: how it was connected (`pconnect` or
   * `connect`) and the key prefix and database it was set to, if any.
   */
  datatype NodeClient = NodeClient(host: Value, port: Value, timeout: Value, pconnect: bool,
                                   prefix: Option<Value>, database: Option<Value>)

  /** A `RedisCluster` client: its seed list, constructor options and the options set on it. */
  datatype ClusterClient = ClusterClient(seeds: seq<string>, readTimeout: Value, timeout: Value,
                                         persistent: Value, prefix: Option<Value>, failover: Option<Value>)

  /** The client a connection name is bound to. */
  datatype Handle = Single(node: NodeClient) | Cluster(cluster: ClusterClient)

  /**
   * What construction yields: the named clients, or the TypeError PHP raises
   * when a value that is not an array reaches an `array` parameter.
   */
  datatype Built = Clients(named: seq<(string, Handle)>) | TypeError

  /** `(array)$x`: null becomes the empty array, a scalar a one-element list. */
  function AsArray(x: Option<Value>): (r: seq<(string, Value)>)
    ensures x.Some? && x.value.Arr? ==> r == x.value.entries
    ensures !(x.Some? && x.value.Arr?) ==> |r| <= 1 && (r == [] <==> x.None? || x.value.Null?)
    ensures !(x.Some? && x.value.Arr?) && r != [] ==> r[0].1 == x.value
  {
    match x
    case None => []
    case Some(Null) => []
    case Some(Arr(entries)) => entries
    case Some(v) => [("0", v)]
  }

  /** The host of a server entry; an empty or missing one falls back to the loopback address. */
  function HostOf(server: Value): (h: Value)
    ensures !IsEmpty(Some(h))
    ensures IsEmpty(Field(server, "host")) <==> h == Str(DefaultHost) && Field(server, "host") != Some(h)
    ensures !IsEmpty(Field(server, "host")) ==> h == Field(server, "host").value
  {
    var host := Field(server, "host");
    if IsEmpty(host) then Str(DefaultHost) else host.value
  }

  /** The port of a server entry; an empty or missing one falls back to 6379. */
  function PortOf(server: Value): (p: Value)
    ensures !IsEmpty(Some(p))
    ensures IsEmpty(Field(server, "port")) <==> p == Str(DefaultPort) && Field(server, "port") != Some(p)
    ensures !IsEmpty(Field(server, "port")) ==> p == Field(server, "port").value
  {
    var port := Field(server, "port");
    if IsEmpty(port) then Str(DefaultPort) else port.value
  }

  /** The connect timeout of a server entry; an empty or missing one means 0. */
  function TimeoutOf(server: Value): (t: Value)
    ensures IsEmpty(Field(server, "timeout")) ==> t == Int(0)
    ensures !IsEmpty(Field(server, "timeout")) ==> Field(server, "timeout") == Some(t)
  {
    var timeout := Field(server, "timeout");
    if IsEmpty(timeout) then Int(0) else timeout.value
  }

  /** `"{$host}:{$port}"` for one seed node of the cluster. */
  function SeedAddress(server: Value): string
  {
    Text(HostOf(server)) + ":" + Text(PortOf(server))
  }

  /** Keys of the cluster configuration that name client options, not seed nodes. */
  predicate IsOptionKey(key: string)
  {
    key == PrefixOption || key == FailoverOption
  }

  /** Renders every entry of an array as a seed address, in order. */
  function SeedAddresses(entries: seq<(string, Value)>): seq<string>
  {
    seq(|entries|, i requires 0 <= i < |entries| => SeedAddress(entries[i].1))
  }

  /**
   * The seed list of the cluster client: one address per configuration entry,
   * in order, skipping the option keys; the same as unsetting `prefix` and
   * `failover` and rendering what remains.
   */
  function SeedList(servers: seq<(string, Value)>): (r: seq<string>)
    ensures r == SeedAddresses(Remove(Remove(servers, PrefixOption), FailoverOption))
    decreases |servers|
  {
    if servers == [] then []
    else
      var init, last := servers[..|servers| - 1], servers[|servers| - 1];
      assert servers == init + [last];
      var prev := SeedList(init);
      SeedListStep(init, last, prev);
      prev + (if IsOptionKey(last.0) then [] else [SeedAddress(last.1)])
  }

  lemma SeedListStep(init: seq<(string, Value)>, last: (string, Value), prev: seq<string>)
    requires prev == SeedAddresses(Remove(Remove(init, PrefixOption), FailoverOption))
    ensures prev + (if IsOptionKey(last.0) then [] else [SeedAddress(last.1)])
            == SeedAddresses(Remove(Remove(init + [last], PrefixOption), FailoverOption))
  {
    var kept := Remove(init, PrefixOption);
    RemoveSnoc(init, last, PrefixOption);
    if last.0 == PrefixOption {
      assert Remove(init + [last], PrefixOption) == kept;
    } else {
      assert Remove(init + [last], PrefixOption) == kept + [last];
      RemoveSnoc(kept, last, FailoverOption);
      var tail := if last.0 == FailoverOption then [] else [last];
      assert Remove(kept + [last], FailoverOption) == Remove(kept, FailoverOption) + tail;
      var filtered := Remove(kept, FailoverOption) + tail;
      assert SeedAddresses(filtered) == SeedAddresses(Remove(kept, FailoverOption)) + SeedAddresses(tail);
    }
  }

  /** One more configuration entry adds its address to the seed list, unless it is an option key. */
  lemma SeedListSnoc(servers: seq<(string, Value)>, i: nat)
    requires i < |servers|
    ensures SeedList(servers[..i + 1]) ==
      SeedList(servers[..i]) + (if IsOptionKey(servers[i].0) then [] else [SeedAddress(servers[i].1)])
  {
    assert servers[..i + 1][..i] == servers[..i];
  }

  /** One more configuration entry opens one more client, unless it is `clusterConfig`. */
  lemma SingleClientsSnoc(servers: seq<(string, Value)>, i: nat, prev: seq<(string, Handle)>, redis: NodeClient)
    requires i < |servers| && prev == SingleClients(servers[..i]) && redis == SingleHandle(servers[i].1)
    ensures SingleClients(servers[..i + 1]) ==
      if servers[i].0 == ClusterConfigKey then prev else Put(prev, servers[i].0, Single(redis))
  {
    assert servers[..i + 1][..i] == servers[..i];
  }

  /** `createAggregateClient` as a value: the one cluster client and its options. */
  function AggregateClient(servers: seq<(string, Value)>, options: seq<(string, Value)>): (r: seq<(string, Handle)>)
    ensures |r| == 1 && r[0].0 == DefaultConnection && r[0].1.Cluster?
    ensures r[0].1.cluster.seeds == SeedList(servers)
    ensures "read_timeout" !in Keys(options) ==> r[0].1.cluster.readTimeout == Int(0)
    ensures "timeout" !in Keys(options) ==> r[0].1.cluster.timeout == Int(0)
    ensures "persistent" !in Keys(options) ==> r[0].1.cluster.persistent == Bool(false)
    ensures "read_timeout" in Keys(options) ==> Lookup(options, "read_timeout") == Some(r[0].1.cluster.readTimeout)
    ensures "timeout" in Keys(options) ==> Lookup(options, "timeout") == Some(r[0].1.cluster.timeout)
    ensures "persistent" in Keys(options) ==> Lookup(options, "persistent") == Some(r[0].1.cluster.persistent)
    ensures r[0].1.cluster.prefix.Some? <==> !IsEmpty(Lookup(options, PrefixOption))
    ensures r[0].1.cluster.prefix.Some? ==> r[0].1.cluster.prefix == Lookup(options, PrefixOption)
    ensures r[0].1.cluster.failover.Some? <==> !IsEmpty(Lookup(options, FailoverOption))
    ensures r[0].1.cluster.failover.Some? ==> r[0].1.cluster.failover == Lookup(options, FailoverOption)
  {
    var connected := ClusterClient(SeedList(servers),
                          Get(options, "read_timeout", Int(0)),
                          Get(options, "timeout", Int(0)),
                          Get(options, "persistent", Bool(false)),
                          None, None);
    var prefix := Lookup(options, PrefixOption);
    var failover := Lookup(options, FailoverOption);
    var withPrefix := if IsEmpty(prefix) then connected else connected.(prefix := prefix);
    var configured := if IsEmpty(failover) then withPrefix else withPrefix.(failover := failover);
    [(DefaultConnection, Cluster(configured))]
  }

  /** One single-node client as `createSingleClients` opens and configures it. */
  function SingleHandle(server: Value): (redis: NodeClient)
    ensures redis.host == HostOf(server) && redis.port == PortOf(server) && redis.timeout == TimeoutOf(server)
    ensures redis.pconnect <==> !IsEmpty(Field(server, "persistent"))
    ensures redis.prefix.Some? <==> !IsEmpty(Field(server, "prefix"))
    ensures redis.prefix.Some? ==> redis.prefix == Field(server, "prefix")
    ensures redis.database.Some? <==> !IsEmpty(Field(server, "database"))
    ensures redis.database.Some? ==> redis.database == Field(server, "database")
  {
    var connected := NodeClient(HostOf(server), PortOf(server), TimeoutOf(server),
                         !IsEmpty(Field(server, "persistent")), None, None);
    var prefix := Field(server, "prefix");
    var database := Field(server, "database");
    var withPrefix := if IsEmpty(prefix) then connected else connected.(prefix := prefix);
    if IsEmpty(database) then withPrefix else withPrefix.(database := database)
  }

  /** Binds every entry's name to a handle connected from that entry, in order. */
  function OpenAll(entries: seq<(string, Value)>): seq<(string, Handle)>
  {
    seq(|entries|, i requires 0 <= i < |entries| => (entries[i].0, Single(SingleHandle(entries[i].1))))
  }

  /**
   * `createSingleClients` as a value: every entry except `clusterConfig`
   * assigned, in order, to a handle connected from it.
   */
  function SingleClients(servers: seq<(string, Value)>): seq<(string, Handle)>
    decreases |servers|
  {
    if servers == [] then []
    else
      var init, last := servers[..|servers| - 1], servers[|servers| - 1];
      var prev := SingleClients(init);
      if last.0 == ClusterConfigKey then prev else Put(prev, last.0, Single(SingleHandle(last.1)))
  }

  /**
   * The single-node clients: one per configured name except `clusterConfig`,
   * under distinct names, and for a PHP array the entries' own handles in
   * configuration order.
   */
  lemma {:induction false} SingleClientsShape(servers: seq<(string, Value)>)
    ensures UniqueKeys(SingleClients(servers))
    ensures forall k :: k in Keys(SingleClients(servers)) <==> k in Keys(servers) && k != ClusterConfigKey
    ensures forall i :: 0 <= i < |SingleClients(servers)| ==> SingleClients(servers)[i].1.Single?
    ensures UniqueKeys(servers) ==> SingleClients(servers) == OpenAll(Remove(servers, ClusterConfigKey))
    decreases |servers|
  {
    if servers != [] {
      var init, last := servers[..|servers| - 1], servers[|servers| - 1];
      assert servers == init + [last];
      SingleClientsShape(init);
      SingleClientsStep(init, last, SingleClients(init), SingleClients(servers));
    }
  }

  lemma SingleClientsStep(init: seq<(string, Value)>, last: (string, Value),
                          prev: seq<(string, Handle)>, r: seq<(string, Handle)>)
    requires UniqueKeys(prev)
    requires forall k :: k in Keys(prev) <==> k in Keys(init) && k != ClusterConfigKey
    requires forall i :: 0 <= i < |prev| ==> prev[i].1.Single?
    requires UniqueKeys(init) ==> prev == OpenAll(Remove(init, ClusterConfigKey))
    requires r == if last.0 == ClusterConfigKey then prev else Put(prev, last.0, Single(SingleHandle(last.1)))
    ensures UniqueKeys(r)
    ensures forall k :: k in Keys(r) <==> k in Keys(init + [last]) && k != ClusterConfigKey
    ensures forall i :: 0 <= i < |r| ==> r[i].1.Single?
    ensures UniqueKeys(init + [last]) ==> r == OpenAll(Remove(init + [last], ClusterConfigKey))
  {
    assert Keys(init + [last]) == Keys(init) + [last.0];
    if last.0 != ClusterConfigKey {
      PutStep(prev, last.0, Single(SingleHandle(last.1)));
    }
    if UniqueKeys(init + [last]) {
      UniqueKeysSnoc(init, last);
      SingleClientsStepOrder(init, last, prev, r);
    }
  }

  /** Assigning a single-node handle keeps the keys distinct and every handle single-node. */
  lemma PutStep(prev: seq<(string, Handle)>, k: string, h: Handle)
    requires UniqueKeys(prev) && h.Single?
    requires forall i :: 0 <= i < |prev| ==> prev[i].1.Single?
    ensures UniqueKeys(Put(prev, k, h))
    ensures forall j :: j in Keys(Put(prev, k, h)) <==> j in Keys(prev) || j == k
    ensures forall i :: 0 <= i < |Put(prev, k, h)| ==> Put(prev, k, h)[i].1.Single?
  {
    var r := Put(prev, k, h);
    PutKeepsUniqueKeys(prev, k, h);
    PutEntries(prev, k, h);
    forall i | 0 <= i < |r| ensures r[i].1.Single? {
      assert r[i] in r;
    }
    if k !in Keys(prev) {
      assert Keys(r) == Keys(prev) + [k];
    }
  }

  lemma SingleClientsStepOrder(init: seq<(string, Value)>, last: (string, Value),
                               prev: seq<(string, Handle)>, r: seq<(string, Handle)>)
    requires UniqueKeys(init) && last.0 !in Keys(init)
    requires forall k :: k in Keys(prev) <==> k in Keys(init) && k != ClusterConfigKey
    requires prev == OpenAll(Remove(init, ClusterConfigKey))
    requires r == if last.0 == ClusterConfigKey then prev else Put(prev, last.0, Single(SingleHandle(last.1)))
    ensures r == OpenAll(Remove(init + [last], ClusterConfigKey))
  {
    RemoveSnoc(init, last, ClusterConfigKey);
    if last.0 != ClusterConfigKey {
      var rest := Remove(init, ClusterConfigKey);
      assert Remove(init + [last], ClusterConfigKey) == rest + [last];
      assert r == prev + [(last.0, Single(SingleHandle(last.1)))];
      assert OpenAll(rest + [last]) == OpenAll(rest) + [(last.0, Single(SingleHandle(last.1)))];
    }
  }

  /** The dispatch's cluster branch: the aggregate client built from `clusterConfig`. */
  function ClusterBranch(servers: seq<(string, Value)>): (b: Built)
  {
    var config := Lookup(servers, ClusterConfigKey);
    if config.Some? && config.value.Arr? then
      var (options, seedConfig) := Pull(config.value.entries, OptionsKey);
      Clients(AggregateClient(seedConfig, AsArray(options)))
    else TypeError
  }

  /** The dispatch's single-node branch: `options` is pulled out and every other entry connected. */
  function SingleBranch(servers: seq<(string, Value)>): (b: Built)
  {
    var (options, rest) := Pull(servers, OptionsKey);
    Clients(SingleClients(rest))
  }

  /**
   * The constructor as written: `cluster` is pulled out, and then the flag is
   * looked up under the key that was just removed. So the dispatch never sees
   * the flag: every configuration goes down the single-node branch, which
   * never raises the TypeError.
   */
  function Construct(servers: seq<(string, Value)>): (b: Built)
    ensures b == SingleBranch(Remove(servers, ClusterKey))
    ensures b.Clients?
  {
    var (_, rest) := Pull(servers, ClusterKey);
    if !IsEmpty(Lookup(rest, ClusterKey)) then ClusterBranch(rest) else SingleBranch(rest)
  }

  /**
   * The constructor as evidently intended: the pulled `cluster` value selects
   * the branch. Without a truthy flag it agrees with the written constructor;
   * with one, it fails exactly when `clusterConfig` is not an array.
   */
  function IntendedConstruct(servers: seq<(string, Value)>): (b: Built)
    ensures IsEmpty(Lookup(servers, ClusterKey)) ==> b == Construct(servers)
    ensures b.TypeError? <==>
      !IsEmpty(Lookup(servers, ClusterKey)) &&
      !(Lookup(servers, ClusterConfigKey).Some? && Lookup(servers, ClusterConfigKey).value.Arr?)
  {
    var (cluster, rest) := Pull(servers, ClusterKey);
    RemoveLookup(servers, ClusterKey, ClusterConfigKey);
    if !IsEmpty(cluster) then ClusterBranch(rest) else SingleBranch(rest)
  }

  /**
   * The constructor names exactly the configured entries other than
   * `cluster`, `options` and `clusterConfig`, each bound to a single-node client.
   */
  lemma ConstructNames(servers: seq<(string, Value)>)
    ensures Construct(servers).Clients?
    ensures forall k :: k in Keys(Construct(servers).named) <==>
      k in Keys(servers) && k != ClusterKey && k != OptionsKey && k != ClusterConfigKey
    ensures forall i :: 0 <= i < |Construct(servers).named| ==> Construct(servers).named[i].1.Single?
  {
    RemoveKeys(servers, ClusterKey);
    RemoveKeys(Remove(servers, ClusterKey), OptionsKey);
    SingleClientsShape(Remove(Remove(servers, ClusterKey), OptionsKey));
  }

  /** For a PHP array, the constructor keeps configuration order and opens each entry's own handle. */
  lemma ConstructOrder(servers: seq<(string, Value)>)
    requires UniqueKeys(servers)
    ensures Construct(servers) ==
      Clients(OpenAll(Remove(Remove(Remove(servers, ClusterKey), OptionsKey), ClusterConfigKey)))
  {
    RemoveKeepsUniqueKeys(servers, ClusterKey);
    RemoveKeepsUniqueKeys(Remove(servers, ClusterKey), OptionsKey);
    SingleClientsShape(Remove(Remove(servers, ClusterKey), OptionsKey));
  }

  /**
   * A configuration that asks for a cluster: as written it yields no client at
   * all, while the intended dispatch yields the one `default` cluster client.
   */
  lemma ClusterFlagIgnored()
    ensures var servers := [(ClusterKey, Bool(true)), (ClusterConfigKey, Arr([("seed", Arr([]))]))];
      && Construct(servers) == Clients([])
      && IntendedConstruct(servers) ==
         Clients([(DefaultConnection, Cluster(ClusterClient(["127.0.0.1:6379"], Int(0), Int(0), Bool(false), None, None)))])
  {
    var seedConfig := [("seed", Arr([]))];
    var servers := [(ClusterKey, Bool(true)), (ClusterConfigKey, Arr(seedConfig))];
    var rest := [(ClusterConfigKey, Arr(seedConfig))];
    assert Remove(servers, ClusterKey) == rest;
    assert Remove(rest, OptionsKey) == rest;
    assert SingleClients(rest) == [] by {
      assert rest[..0] == [];
    }
    assert Remove(seedConfig, OptionsKey) == seedConfig;
    assert SeedList(seedConfig) == ["127.0.0.1:6379"] by {
      assert seedConfig[..0] == [];
      assert SeedAddress(Arr([])) == "127.0.0.1:6379";
    }
  }

  /**
   * The intended dispatch: a truthy `cluster` with an array under
   * `clusterConfig` yields exactly one client, the cluster client named
   * `default`, seeded from `clusterConfig` without its `options` entry.
   */
  lemma IntendedClusterDispatch(servers: seq<(string, Value)>)
    requires !IsEmpty(Lookup(servers, ClusterKey))
    requires Lookup(servers, ClusterConfigKey).Some? && Lookup(servers, ClusterConfigKey).value.Arr?
    ensures IntendedConstruct(servers).Clients?
    ensures |IntendedConstruct(servers).named| == 1
    ensures IntendedConstruct(servers).named[0].0 == DefaultConnection
    ensures IntendedConstruct(servers).named[0].1.Cluster?
    ensures IntendedConstruct(servers).named[0].1.cluster.seeds ==
      SeedList(Remove(Lookup(servers, ClusterConfigKey).value.entries, OptionsKey))
    ensures var config := Lookup(servers, ClusterConfigKey).value.entries;
      IntendedConstruct(servers).named ==
        AggregateClient(Remove(config, OptionsKey), AsArray(Lookup(config, OptionsKey)))
  {
    RemoveLookup(servers, ClusterKey, ClusterConfigKey);
  }

  /** `Barbery\Providers\Database`: the named clients built once, at construction. */
  class Database {
    var clients: seq<(string, Handle)>

    /** Pulls `cluster`, dispatches on it, and stores the clients built. */
    constructor (servers: seq<(string, Value)>)
      ensures Construct(servers) == Clients(clients)
    {
      var pulled := Pull(servers, ClusterKey);
      var rest := pulled.1;
      if !IsEmpty(Lookup(rest, ClusterKey)) {
        // Unreachable: the key tested here was removed by the pull just above.
        var config := Pull(AsArray(Lookup(rest, ClusterConfigKey)), OptionsKey);
        var built := CreateAggregateClient(config.1, AsArray(config.0));
        clients := built;
      } else {
        var options := Pull(rest, OptionsKey);
        var built := CreateSingleClients(options.1, AsArray(options.0));
        clients := built;
      }
    }

    /**
     * The constructor as evidently intended: the pulled `cluster` value
     * selects the aggregate client. A `clusterConfig` that is not an array
     * would be a PHP TypeError, which callers must not provoke.
     */
    constructor Intended(servers: seq<(string, Value)>)
      requires IntendedConstruct(servers).Clients?
      ensures IntendedConstruct(servers) == Clients(clients)
    {
      var pulled := Pull(servers, ClusterKey);
      var rest := pulled.1;
      if !IsEmpty(pulled.0) {
        var config := Lookup(rest, ClusterConfigKey);
        var seeds := Pull(config.value.entries, OptionsKey);
        var built := CreateAggregateClient(seeds.1, AsArray(seeds.0));
        clients := built;
      } else {
        var options := Pull(rest, OptionsKey);
        var built := CreateSingleClients(options.1, AsArray(options.0));
        clients := built;
      }
    }

    /**
     * Builds the one cluster client: the seed list from every entry that is
     * not an option key, then the options that are set and non-empty.
     */
    static method CreateAggregateClient(servers: seq<(string, Value)>, options: seq<(string, Value)>)
      returns (clients: seq<(string, Handle)>)
      ensures clients == AggregateClient(servers, options)
    {
      var cluster: seq<string> := [];
      var i := 0;
      while i < |servers|
        invariant 0 <= i <= |servers|
        invariant cluster == SeedList(servers[..i])
      {
        var key, server := servers[i].0, servers[i].1;
        SeedListSnoc(servers, i);
        if !IsOptionKey(key) {
          var host := HostOf(server);
          var port := PortOf(server);
          cluster := cluster + [Text(host) + ":" + Text(port)];
        }
        i := i + 1;
      }
      assert servers[..i] == servers;
      var client := ClusterClient(cluster,
                                  Get(options, "read_timeout", Int(0)),
                                  Get(options, "timeout", Int(0)),
                                  Get(options, "persistent", Bool(false)),
                                  None, None);
      // setOption for each of the two option keys, in their declared order.
      var prefix := Lookup(options, PrefixOption);
      if !IsEmpty(prefix) {
        client := client.(prefix := prefix);
      }
      var failover := Lookup(options, FailoverOption);
      if !IsEmpty(failover) {
        client := client.(failover := failover);
      }
      clients := [(DefaultConnection, Cluster(client))];
    }

    /** Connects one single-node client and applies its prefix and database. */
    static method OpenConnection(server: Value) returns (redis: NodeClient)
      ensures redis == SingleHandle(server)
    {
      var host := HostOf(server);
      var port := PortOf(server);
      var timeout := TimeoutOf(server);
      if !IsEmpty(Field(server, "persistent")) {
        redis := NodeClient(host, port, timeout, true, None, None);
      } else {
        redis := NodeClient(host, port, timeout, false, None, None);
      }
      var prefix := Field(server, "prefix");
      if !IsEmpty(prefix) {
        redis := redis.(prefix := prefix);
      }
      var database := Field(server, "database");
      if !IsEmpty(database) {
        redis := redis.(database := database);
      }
    }

    /**
     * Opens one client per entry except `clusterConfig`, in order, under the
     * entry's name. `options` is accepted and not used, as in the source.
     */
    static method CreateSingleClients(servers: seq<(string, Value)>, options: seq<(string, Value)>)
      returns (clients: seq<(string, Handle)>)
      ensures clients == SingleClients(servers)
    {
      clients := [];
      var i := 0;
      while i < |servers|
        invariant 0 <= i <= |servers|
        invariant clients == SingleClients(servers[..i])
      {
        var key, server := servers[i].0, servers[i].1;
        if key != ClusterConfigKey {
          var redis := OpenConnection(server);
          SingleClientsSnoc(servers, i, clients, redis);
          clients := Put(clients, key, Single(redis));
        } else {
          SingleClientsSnoc(servers, i, clients, SingleHandle(server));
        }
        i := i + 1;
      }
      assert servers[..i] == servers;
    }
  }
}
