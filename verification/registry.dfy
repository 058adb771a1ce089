/** `init(connections)` and the `get_client(keyspace)` it returns: one group
    client per process, thread and keyspace, built on first use and cached
    under the key str(pid) + thread name + keyspace. The process id and the
    current thread's name are parameters of each lookup. */
module Registry {
  import opened Errors
  import opened Decimal
  import opened Transports
  import opened RoundRobin

  /** The cache key of a lookup: the three texts concatenated, no separator. */
  function ClientKey(pid: nat, threadName: string, keyspace: string): (key: string)
    ensures |key| == |NatToString(pid)| + |threadName| + |keyspace|
    ensures key[..|NatToString(pid)|] == NatToString(pid)
    ensures key[|NatToString(pid)|..|key| - |keyspace|] == threadName
    ensures key[|key| - |keyspace|..] == keyspace
  {
    NatToString(pid) + threadName + keyspace
  }

  /** The message of ErrorCassandraClientNotFound. */
  function NotFoundMessage(keyspace: string): (m: string)
    ensures |m| == |keyspace| + 34 && m[24..|m| - 10] == keyspace
  {
    "No client for keyspace `" + keyspace + "' defined."
  }

  /** Two threads of one process never share a key for the same keyspace. */
  lemma KeySeparatesThreads(pid: nat, t1: string, t2: string, keyspace: string)
    requires t1 != t2
    ensures ClientKey(pid, t1, keyspace) != ClientKey(pid, t2, keyspace)
  {
  }

  /** One thread never shares a key between two keyspaces. */
  lemma KeySeparatesKeyspaces(pid: nat, threadName: string, ks1: string, ks2: string)
    requires ks1 != ks2
    ensures ClientKey(pid, threadName, ks1) != ClientKey(pid, threadName, ks2)
  {
  }

  /** Two processes never share a key for the same thread name and keyspace,
      so a forked child builds its own connections. */
  lemma KeySeparatesProcesses(pid1: nat, pid2: nat, threadName: string, keyspace: string)
    requires pid1 != pid2
    ensures ClientKey(pid1, threadName, keyspace) != ClientKey(pid2, threadName, keyspace)
  {
    NatToStringDistinct(pid1, pid2);
  }

  /** The key does not separate thread name from keyspace: a thread whose name
      is another's plus one character, looking up a keyspace one character
      shorter, gets that other thread's key. */
  lemma KeysCollide(pid: nat, threadName: string, c: char, keyspace: string)
    ensures [c] + keyspace != keyspace && threadName + [c] != threadName
    ensures ClientKey(pid, threadName, [c] + keyspace) == ClientKey(pid, threadName + [c], keyspace)
  {
  }

  class ClientRegistry {
    /** Keyspace name to its "host:port" servers, as given to init. */
    const connections: map<string, seq<string>>
    /** The cached group clients, by key. */
    var clients: map<string, RoundRobinClient>
    /** The keyspace whose servers each cached group was built from. */
    ghost var keyspaceOf: map<string, string>

    /** Every cached group was built from the servers of a configured keyspace,
        and no group is cached under two keys. */
    ghost predicate Valid()
      reads this
    {
      keyspaceOf.Keys == clients.Keys &&
      (forall k1, k2 :: k1 in clients && k2 in clients && k1 != k2 ==> clients[k1] != clients[k2]) &&
      forall key :: key in clients ==>
        keyspaceOf[key] in connections &&
        clients[key].servers == connections[keyspaceOf[key]] &&
        clients[key].Valid()
    }

    /** `init(connections)`: nothing is connected until the first lookup. */
    constructor (connections: map<string, seq<string>>)
      ensures Valid()
      ensures this.connections == connections && clients == map[]
    {
      this.connections := connections;
      clients, keyspaceOf := map[], map[];
    }

    /** `get_client(keyspace)` in process `pid` on thread `threadName`: an
        unknown keyspace raises ErrorCassandraClientNotFound; a cached key
        returns the cached group; otherwise a group is built from the
        keyspace's servers (with `opens` and `start` as in Build), cached and
        returned, and an exception while building leaves the cache as it was. */
    method GetClient(keyspace: string, pid: nat, threadName: string, opens: seq<OpenOutcome>, start: nat)
      returns (r: Result<RoundRobinClient>)
      requires Valid()
      requires keyspace in connections && ClientKey(pid, threadName, keyspace) !in clients ==>
        |opens| == |connections[keyspace]| && start <= |connections[keyspace]|
      modifies this
      ensures Valid()
      ensures r.Ok? ==> ClientKey(pid, threadName, keyspace) in clients && clients[ClientKey(pid, threadName, keyspace)] == r.value
      ensures keyspace !in connections ==>
        r == Err(ClientNotFound(NotFoundMessage(keyspace))) &&
        clients == old(clients) && keyspaceOf == old(keyspaceOf)
      ensures keyspace in connections && ClientKey(pid, threadName, keyspace) in old(clients) ==>
        var key := ClientKey(pid, threadName, keyspace);
        r == Ok(old(clients)[key]) && r.value.servers == connections[old(keyspaceOf)[key]] &&
        clients == old(clients) && keyspaceOf == old(keyspaceOf)
      ensures (keyspace in connections && ClientKey(pid, threadName, keyspace) !in old(clients) &&
               ConnectAll(connections[keyspace], opens).Err?) ==>
        r == Err(ConnectAll(connections[keyspace], opens).error) &&
        clients == old(clients) && keyspaceOf == old(keyspaceOf)
      ensures (keyspace in connections && ClientKey(pid, threadName, keyspace) !in old(clients) &&
               ConnectAll(connections[keyspace], opens).Ok?) ==>
        var key := ClientKey(pid, threadName, keyspace);
        r.Ok? && fresh(r.value) && r.value.Valid() &&
        r.value.servers == connections[keyspace] && r.value.cursor == start &&
        (forall i :: 0 <= i < |connections[keyspace]| ==>
          fresh(r.value.clients[i]) && State(r.value.clients[i]) == ConnectAll(connections[keyspace], opens).value[i]) &&
        clients == old(clients)[key := r.value] && keyspaceOf == old(keyspaceOf)[key := keyspace]
    {
      if keyspace !in connections {
        return Err(ClientNotFound(NotFoundMessage(keyspace)));
      }
      var key := ClientKey(pid, threadName, keyspace);
      if key !in clients {
        var built := Build(connections[keyspace], opens, start);
        if built.Err? {
          return Err(built.error);
        }
        assert forall k :: k in clients ==> clients[k] != built.value;
        clients := clients[key := built.value];
        keyspaceOf := keyspaceOf[key := keyspace];
      }
      return Ok(clients[key]);
    }

    /** A second lookup of the same keyspace from the same process and thread
        returns the very group the first one returned. */
    method GetClientTwice(keyspace: string, pid: nat, threadName: string, opens: seq<OpenOutcome>, start: nat)
      returns (first: Result<RoundRobinClient>, second: Result<RoundRobinClient>)
      requires Valid()
      requires keyspace in connections && ClientKey(pid, threadName, keyspace) !in clients ==>
        |opens| == |connections[keyspace]| && start <= |connections[keyspace]|
      modifies this
      ensures Valid()
      ensures first.Ok? ==> second == first
      ensures first.Err? ==> clients == old(clients)
    {
      first := GetClient(keyspace, pid, threadName, opens, start);
      second := GetClient(keyspace, pid, threadName, opens, start);
    }

    /** Lookups of one keyspace from two threads of one process return two
        distinct groups, each with its own connections. */
    method GetClientFromTwoThreads(keyspace: string, pid: nat, t1: string, t2: string, opens: seq<OpenOutcome>, start: nat)
      returns (first: Result<RoundRobinClient>, second: Result<RoundRobinClient>)
      requires Valid() && t1 != t2
      requires keyspace in connections ==>
        |opens| == |connections[keyspace]| && start <= |connections[keyspace]|
      modifies this
      ensures Valid()
      ensures first.Ok? && second.Ok? ==> first.value != second.value
    {
      first := GetClient(keyspace, pid, t1, opens, start);
      second := GetClient(keyspace, pid, t2, opens, start);
      KeySeparatesThreads(pid, t1, t2, keyspace);
    }
  }
}
