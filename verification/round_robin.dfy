/** `RoundRobinClient`: a group of node clients for one keyspace, all connected
    when the group is built, handed out in turn by a cursor that only grows,
    with every remote operation wrapped in connect / close-on-error logic. */
module RoundRobin {
  import opened Errors
  import opened Addresses
  import opened Transports

  // ---------------------------------------------------------------------
  // Rotation: which node consecutive `_get_server` calls pick

  /** The indices k consecutive `_get_server` calls pick in a group of n
      nodes when the cursor starts at `start`: each call takes cursor % n and
      then increments the cursor. */
  function Visits(start: nat, n: nat, k: nat): (v: seq<nat>)
    requires n > 0
    ensures |v| == k && forall j :: 0 <= j < k ==> v[j] < n
    decreases k
  {
    if k == 0 then [] else [start % n] + Visits(start + 1, n, k - 1)
  }

  /** [0, 1, ..., n - 1]: the positions of the node list. */
  function Indices(n: nat): (s: seq<nat>)
    ensures |s| == n && forall i :: 0 <= i < n ==> s[i] == i
  {
    if n == 0 then [] else Indices(n - 1) + [n - 1]
  }

  lemma {:induction false} VisitAt(start: nat, n: nat, k: nat, j: nat)
    requires n > 0 && j < k
    ensures Visits(start, n, k)[j] == (start + j) % n
    decreases j
  {
    if j > 0 {
      VisitAt(start + 1, n, k - 1, j - 1);
    }
  }

  lemma MulZero(k: int, n: int)
    requires n > 0 && -n < k * n < n
    ensures k == 0
  {
  }

  /** Euclidean remainder is determined by any quotient/remainder split of x. */
  lemma ModUnique(x: int, n: int, q: int, r: int)
    requires n > 0 && 0 <= r < n && x == q * n + r
    ensures x % n == r
  {
    var q' := x / n;
    assert (q - q') * n == x % n - r;
    MulZero(q - q', n);
  }

  lemma ModWrap(s: nat, n: nat, j: nat)
    requires n > 0 && j < n
    ensures (s + j) % n == if s % n + j < n then s % n + j else s % n + j - n
  {
    var q, r := s / n, s % n;
    assert s == q * n + r;
    if r + j < n {
      ModUnique(s + j, n, q, r + j);
    } else {
      ModUnique(s + j, n, q + 1, r + j - n);
    }
  }

  /** n consecutive picks visit every node exactly once, in list order,
      starting from the node at start % n and wrapping around the end. */
  lemma FullRotation(start: nat, n: nat)
    requires n > 0
    ensures Visits(start, n, n) == Indices(n)[start % n..] + Indices(n)[..start % n]
  {
    var r := start % n;
    var rotated := Indices(n)[r..] + Indices(n)[..r];
    forall j | 0 <= j < n
      ensures Visits(start, n, n)[j] == rotated[j]
    {
      VisitAt(start, n, n, j);
      ModWrap(start, n, j);
    }
  }

  /** The picks repeat every n calls: the (n+1)-th call picks the node the
      first one did, and a cursor of n (which the inclusive random start
      allows) picks as a cursor of 0 does. */
  lemma {:induction false} RotationPeriodic(start: nat, n: nat, k: nat)
    requires n > 0
    ensures Visits(start + n, n, k) == Visits(start, n, k)
    decreases k
  {
    if k > 0 {
      ModUnique(start + n, n, start / n + 1, start % n);
      RotationPeriodic(start + 1, n, k - 1);
    }
  }

  // ---------------------------------------------------------------------
  // Eager construction: `map(simple_connect, servers)`

  /** Running steps in list order and stopping at the first exception:
      all the values when no step raised, else the first step's exception. */
  function Collect<T>(steps: seq<Result<T>>): (r: Result<seq<T>>)
    ensures r.Ok? ==> |r.value| == |steps|
  {
    if steps == [] then Ok([])
    else match steps[0]
      case Err(e) => Err(e)
      case Ok(x) =>
        match Collect(steps[1..])
        case Err(e) => Err(e)
        case Ok(rest) => Ok([x] + rest)
  }

  /** Collecting succeeds exactly when every step does, and keeps their order. */
  lemma {:induction false} CollectSucceeds<T>(steps: seq<Result<T>>)
    ensures Collect(steps).Ok? <==> forall i :: 0 <= i < |steps| ==> steps[i].Ok?
    ensures Collect(steps).Ok? ==> forall i :: 0 <= i < |steps| ==> Collect(steps).value[i] == steps[i].value
  {
    if steps != [] {
      CollectSucceeds(steps[1..]);
      assert forall i :: 1 <= i < |steps| ==> steps[1..][i - 1] == steps[i];
    }
  }

  /** The exception of the first step that raises is the one collecting raises. */
  lemma {:induction false} CollectFails<T>(steps: seq<Result<T>>, k: nat)
    requires k < |steps| && steps[k].Err?
    requires forall i :: 0 <= i < k ==> steps[i].Ok?
    ensures Collect(steps) == Err(steps[k].error)
  {
    if k > 0 {
      assert forall i :: 0 <= i < k - 1 ==> steps[1..][i] == steps[i + 1];
      CollectFails(steps[1..], k - 1);
    }
  }

  /** One more step on a prefix that has not raised yet. */
  lemma CollectStep<T>(steps: seq<Result<T>>, i: nat)
    requires i < |steps| && Collect(steps[..i]).Ok?
    ensures steps[i].Ok? ==> Collect(steps[..i + 1]) == Ok(Collect(steps[..i]).value + [steps[i].value])
    ensures steps[i].Err? ==> Collect(steps) == Err(steps[i].error)
  {
    CollectSucceeds(steps[..i]);
    assert forall j :: 0 <= j < i ==> steps[..i][j] == steps[j];
    if steps[i].Err? {
      CollectFails(steps, i);
    } else {
      var longer := steps[..i + 1];
      CollectSucceeds(longer);
      assert forall j :: 0 <= j <= i ==> longer[j] == steps[j];
      assert Collect(longer).value == Collect(steps[..i]).value + [steps[i].value];
    }
  }

  /** What `simple_connect` makes of each server, in list order. */
  function Attempts(servers: seq<string>, opens: seq<OpenOutcome>): (steps: seq<Result<Node>>)
    requires |opens| == |servers|
    ensures |steps| == |servers|
    ensures forall i :: 0 <= i < |servers| ==> steps[i] == ConnectOne(servers[i], opens[i])
  {
    seq(|servers|, i requires 0 <= i < |servers| => ConnectOne(servers[i], opens[i]))
  }

  /** `map(simple_connect, servers)`: every server connected in list order,
      the first exception ending construction. */
  function ConnectAll(servers: seq<string>, opens: seq<OpenOutcome>): (r: Result<seq<Node>>)
    requires |opens| == |servers|
    ensures r.Ok? ==> |r.value| == |servers|
  {
    Collect(Attempts(servers, opens))
  }

  /** After construction, node i points at the host and port of server i,
      and it is connected exactly when its one open() returned. */
  lemma ConnectAllAddresses(servers: seq<string>, opens: seq<OpenOutcome>)
    requires |opens| == |servers|
    ensures ConnectAll(servers, opens).Ok? ==>
      forall i :: 0 <= i < |servers| ==>
        ParseAddress(servers[i]) == Ok(HostPort(ConnectAll(servers, opens).value[i].host, ConnectAll(servers, opens).value[i].port)) &&
        (ConnectAll(servers, opens).value[i].open <==> opens[i].OpenOk?)
  {
    CollectSucceeds(Attempts(servers, opens));
  }

  // ---------------------------------------------------------------------
  // The wrapped remote call

  /** The wrapper of `__getattr__` on the picked node, as a value: what the
      caller sees and whether that node's transport is open afterwards. */
  function WrappedCall<V>(wasOpen: bool, attempt: OpenOutcome, outcome: CallOutcome<V>): (res: (CallResult<V>, bool))
    ensures res.1 <==> res.0.Value?
    ensures res.0.Value? <==> (wasOpen || attempt.OpenOk?) && outcome.Returns?
    ensures res.0.Value? ==> res.0.value == outcome.value
    ensures res.0.NoneResult? <==> !wasOpen && attempt.OpenOther?
    ensures res.0.Raised? ==> res.0.error.ThriftMessage? || res.0.error.Reraised?
    ensures res.0.Raised? && res.0.error.Reraised? ==> outcome == RaisesOther(res.0.error.exc)
    ensures res.0.Raised? && !wasOpen && attempt.OpenTExc? ==>
      res.0.error == ThriftMessage(MessageOrFallback(attempt.message))
    ensures (wasOpen || attempt.OpenOk?) && outcome.RaisesTExc? ==>
      res.0 == Raised(ThriftMessage(MessageOrFallback(outcome.message)))
    ensures (wasOpen || attempt.OpenOk?) && outcome.RaisesOther? ==>
      res.0 == Raised(Reraised(outcome.exc))
  {
    match ConnectStep(wasOpen, attempt)
    case (Err(e), _) => (Raised(e), false)
    case (Ok(false), _) => (NoneResult, false)
    case (Ok(true), _) =>
      match outcome
      case Returns(v) => (Value(v), true)
      case RaisesTExc(m) => (Raised(ThriftMessage(MessageOrFallback(m))), false)
      case RaisesOther(e) => (Raised(Reraised(e)), false)
  }

  // ---------------------------------------------------------------------
  // The group

  class RoundRobinClient {
    const servers: seq<string>
    /** One node client per server, in the order of `servers`. */
    const clients: seq<Transport>
    var cursor: nat

    /** Node i was built from server i, and no two nodes share a transport. */
    ghost predicate Valid()
    {
      |clients| == |servers| &&
      (forall i :: 0 <= i < |clients| ==> ParseAddress(servers[i]) == Ok(HostPort(clients[i].host, clients[i].port))) &&
      (forall i, j :: 0 <= i < j < |clients| ==> clients[i] != clients[j])
    }

    /** Stores the node clients `Build` connected and the starting cursor. */
    constructor (servers: seq<string>, clients: seq<Transport>, start: nat)
      requires |clients| == |servers|
      requires forall i :: 0 <= i < |clients| ==> ParseAddress(servers[i]) == Ok(HostPort(clients[i].host, clients[i].port))
      requires forall i, j :: 0 <= i < j < |clients| ==> clients[i] != clients[j]
      ensures Valid()
      ensures this.servers == servers && this.clients == clients && cursor == start
    {
      this.servers, this.clients, cursor := servers, clients, start;
    }

    /** `_get_server`: no nodes is an error that leaves the cursor alone;
        otherwise the node at cursor % n, and the cursor moves on by one. */
    method GetServer() returns (r: Result<Transport>)
      modifies this
      ensures |clients| == 0 ==> r == Err(NoServersConfigured) && cursor == old(cursor)
      ensures |clients| > 0 ==> r == Ok(clients[old(cursor) % |clients|]) && cursor == old(cursor) + 1
    {
      if |clients| == 0 {
        return Err(NoServersConfigured);
      }
      var next := cursor % |clients|;
      cursor := cursor + 1;
      return Ok(clients[next]);
    }

    /** k consecutive `_get_server` calls: the nodes picked, in order, are
        those Visits names from the old cursor (so n calls visit every node
        once, FullRotation), and the cursor moves on by k. With no nodes the
        first call raises and the cursor stays. */
    method GetServers(k: nat) returns (r: Result<seq<Transport>>)
      modifies this
      ensures |clients| == 0 ==>
        r == (if k == 0 then Ok([]) else Err(NoServersConfigured)) && cursor == old(cursor)
      ensures |clients| > 0 ==>
        r.Ok? && |r.value| == k && cursor == old(cursor) + k &&
        forall j :: 0 <= j < k ==> r.value[j] == clients[Visits(old(cursor), |clients|, k)[j]]
    {
      var picks: seq<Transport> := [];
      for i := 0 to k
        invariant |picks| == i && cursor == old(cursor) + i
        invariant |clients| == 0 ==> i == 0
        invariant |clients| > 0 ==>
          forall j :: 0 <= j < i ==> picks[j] == clients[(old(cursor) + j) % |clients|]
      {
        var picked := GetServer();
        if picked.Err? {
          return Err(picked.error);
        }
        picks := picks + [picked.value];
      }
      if |clients| > 0 {
        forall j | 0 <= j < k
          ensures Visits(old(cursor), |clients|, k)[j] == (old(cursor) + j) % |clients|
        {
          VisitAt(old(cursor), |clients|, k, j);
        }
      }
      return Ok(picks);
    }

    /** `list_servers`: every node client, one per configured server, in order. */
    function ListServers(): (r: seq<Transport>)
      requires Valid()
      ensures |r| == |servers|
      ensures forall i :: 0 <= i < |r| ==> ParseAddress(servers[i]) == Ok(HostPort(r[i].host, r[i].port))
    {
      clients
    }

    /** The function `__getattr__(name)` returns, applied to `args`: pick the
        next node, connect it if needed, forward the call, and close the
        transport whenever the call raises. `attempt` is what open() does if
        it is called, `outcome` what the remote operation does if it is sent. */
    method Invoke<A, V>(name: string, args: seq<A>, attempt: OpenOutcome, outcome: CallOutcome<V>)
      returns (r: CallResult<V>)
      requires Valid()
      modifies this, clients
      ensures |clients| == 0 ==> r == Raised(NoServersConfigured) && cursor == old(cursor)
      ensures |clients| > 0 ==> cursor == old(cursor) + 1
      ensures |clients| > 0 ==>
        var c := clients[old(cursor) % |clients|];
        (r, c.isOpen) == WrappedCall(old(c.isOpen), attempt, outcome) &&
        c.openCalls == old(c.openCalls) + (if old(c.isOpen) then 0 else 1) &&
        c.remoteCalls == old(c.remoteCalls) + (if ConnectStep(old(c.isOpen), attempt).0 == Ok(true) then 1 else 0)
      ensures forall i :: 0 <= i < |clients| && i != old(cursor) % |clients| ==> unchanged(clients[i])
    {
      var picked := GetServer();
      if picked.Err? {
        return Raised(picked.error);
      }
      r := CallOn(picked.value, name, args, attempt, outcome);
    }
  }

  /** The body of the wrapper once a node is picked: connect it if needed
      (None when `_connect` returns False), then forward the call, closing
      the transport when it raises. */
  method CallOn<A, V>(client: Transport, name: string, args: seq<A>, attempt: OpenOutcome, outcome: CallOutcome<V>)
    returns (r: CallResult<V>)
    modifies client
    ensures (r, client.isOpen) == WrappedCall(old(client.isOpen), attempt, outcome)
    ensures client.openCalls == old(client.openCalls) + (if old(client.isOpen) then 0 else 1)
    ensures client.remoteCalls == old(client.remoteCalls) + (if ConnectStep(old(client.isOpen), attempt).0 == Ok(true) then 1 else 0)
  {
    var connected := Connect(client, attempt);
    if connected.Err? {
      return Raised(connected.error);
    }
    if !connected.value {
      return NoneResult;
    }
    var o := client.Call(name, args, outcome);
    match o {
      case Returns(v) =>
        r := Value(v);
      case RaisesTExc(m) =>
        client.Close();
        r := Raised(ThriftMessage(MessageOrFallback(m)));
      case RaisesOther(e) =>
        client.Close();
        r := Raised(Reraised(e));
    }
  }

  /** `steps` lists what `simple_connect` makes of each server. The
      quantifier is instantiated only where a connection attempt is named, so
      a context that only passes `steps` along never unfolds one. */
  ghost predicate Describes(servers: seq<string>, opens: seq<OpenOutcome>, steps: seq<Result<Node>>)
  {
    |opens| == |servers| && |steps| == |servers| &&
    forall i {:trigger ConnectOne(servers[i], opens[i])} ::
      0 <= i < |servers| ==> steps[i] == ConnectOne(servers[i], opens[i])
  }

  lemma AttemptsDescribe(servers: seq<string>, opens: seq<OpenOutcome>)
    requires |opens| == |servers|
    ensures Describes(servers, opens, Attempts(servers, opens))
  {
  }

  /** `simple_connect(servers[i])`, as step i describes it. */
  method ConnectAt(servers: seq<string>, opens: seq<OpenOutcome>, ghost steps: seq<Result<Node>>, i: nat)
    returns (r: Result<Transport>)
    requires Describes(servers, opens, steps) && i < |servers|
    ensures r.Err? <==> steps[i].Err?
    ensures r.Err? ==> r.error == steps[i].error
    ensures r.Ok? ==> fresh(r.value) && State(r.value) == steps[i].value
    ensures r.Ok? ==> r.value.openCalls == 1 && r.value.remoteCalls == 0
  {
    r := SimpleConnect(servers[i], opens[i]);
  }

  /** `map(simple_connect, servers)`: one fresh, distinct node client per
      server, in list order, or the first exception raised. */
  method ConnectServers(servers: seq<string>, opens: seq<OpenOutcome>, ghost steps: seq<Result<Node>>)
    returns (r: Result<seq<Transport>>)
    requires Describes(servers, opens, steps)
    ensures Collect(steps).Err? ==> r == Err(Collect(steps).error)
    ensures Collect(steps).Ok? ==>
      r.Ok? && |r.value| == |servers| &&
      (forall i :: 0 <= i < |servers| ==> State(r.value[i]) == Collect(steps).value[i]) &&
      (forall i :: 0 <= i < |servers| ==> fresh(r.value[i])) &&
      (forall i :: 0 <= i < |servers| ==> r.value[i].openCalls == 1 && r.value[i].remoteCalls == 0) &&
      (forall i, j :: 0 <= i < j < |servers| ==> r.value[i] != r.value[j])
  {
    ghost var nodes: seq<Node> := [];
    var clients: seq<Transport> := [];
    for i := 0 to |servers|
      invariant |clients| == |nodes| == i
      invariant Collect(steps[..i]) == Ok(nodes)
      invariant forall j :: 0 <= j < i ==> State(clients[j]) == nodes[j]
      invariant forall j :: 0 <= j < i ==> fresh(clients[j])
      invariant forall j :: 0 <= j < i ==> clients[j].openCalls == 1
      invariant forall j :: 0 <= j < i ==> clients[j].remoteCalls == 0
      invariant forall j, k :: 0 <= j < k < i ==> clients[j] != clients[k]
    {
      var connected := ConnectAt(servers, opens, steps, i);
      CollectStep(steps, i);
      if connected.Err? {
        return Err(connected.error);
      }
      clients := clients + [connected.value];
      nodes := nodes + [steps[i].value];
    }
    assert steps[..|servers|] == steps;
    return Ok(clients);
  }

  /** `RoundRobinClient(servers)`: connects every server in list order with
      simple_connect (any exception propagates and no group exists), then
      places the cursor at `start`, the draw of random.randint(0, len). */
  method Build(servers: seq<string>, opens: seq<OpenOutcome>, start: nat) returns (r: Result<RoundRobinClient>)
    requires |opens| == |servers|
    requires start <= |servers|
    ensures ConnectAll(servers, opens).Err? ==> r == Err(ConnectAll(servers, opens).error)
    ensures ConnectAll(servers, opens).Ok? ==>
      r.Ok? && fresh(r.value) && r.value.Valid() &&
      r.value.servers == servers && r.value.cursor == start &&
      forall i :: 0 <= i < |servers| ==>
        fresh(r.value.clients[i]) && State(r.value.clients[i]) == ConnectAll(servers, opens).value[i] &&
        r.value.clients[i].openCalls == 1 && r.value.clients[i].remoteCalls == 0
  {
    AttemptsDescribe(servers, opens);
    var connected := ConnectServers(servers, opens, Attempts(servers, opens));
    if connected.Err? {
      return Err(connected.error);
    }
    ConnectAllAddresses(servers, opens);
    var group := new RoundRobinClient(servers, connected.value, start);
    return Ok(group);
  }
}
