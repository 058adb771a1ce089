/** One node client and its transport, `_connect` (connect if not connected)
    and `simple_connect` (build a client for "host:port" and connect it once).
    The Thrift socket, buffered transport, protocol and Cassandra client that
    `_build_client` assembles are reduced to one object with an open flag. */
module Transports {
  import opened Errors
  import opened Addresses

  class Transport {
    const host: string
    const port: int
    var isOpen: bool
    /** How many times open() was called on this transport. */
    ghost var openCalls: nat
    /** How many remote operations were sent over this transport. */
    ghost var remoteCalls: nat

    constructor (host: string, port: int)
      ensures this.host == host && this.port == port
      ensures !isOpen && openCalls == 0 && remoteCalls == 0
    {
      this.host, this.port := host, port;
      isOpen, openCalls, remoteCalls := false, 0, 0;
    }

    /** open(): afterwards the transport is open if it returned; after an
        exception its state is not known (the socket may be half set up). */
    method Open(outcome: OpenOutcome)
      modifies this
      ensures outcome.OpenOk? ==> isOpen
      ensures openCalls == old(openCalls) + 1 && remoteCalls == old(remoteCalls)
    {
      if outcome.OpenOk? {
        isOpen := true;
      }
      openCalls := openCalls + 1;
    }

    method Close()
      modifies this
      ensures !isOpen
      ensures openCalls == old(openCalls) && remoteCalls == old(remoteCalls)
    {
      isOpen := false;
    }

    /** Sends the remote operation `name`; what the node does is `outcome`. */
    method Call<A, V>(name: string, args: seq<A>, outcome: CallOutcome<V>) returns (o: CallOutcome<V>)
      modifies this
      ensures o == outcome
      ensures isOpen == old(isOpen) && openCalls == old(openCalls)
      ensures remoteCalls == old(remoteCalls) + 1
    {
      o := outcome;
      remoteCalls := remoteCalls + 1;
    }
  }

  /** `_connect` as a value: what it returns (True, False or ErrorThriftMessage)
      and whether the transport is open afterwards. */
  function ConnectStep(wasOpen: bool, attempt: OpenOutcome): (res: (Result<bool>, bool))
    ensures res.1 <==> res.0 == Ok(true)
    ensures res.0 == Ok(true) <==> wasOpen || attempt.OpenOk?
    ensures res.0 == Ok(false) <==> !wasOpen && attempt.OpenOther?
    ensures res.0.Err? <==> !wasOpen && attempt.OpenTExc?
    ensures res.0.Err? ==> res.0.error == ThriftMessage(MessageOrFallback(attempt.message))
  {
    if wasOpen then (Ok(true), true)
    else match attempt
      case OpenOk => (Ok(true), true)
      case OpenTExc(m) => (Err(ThriftMessage(MessageOrFallback(m))), false)
      case OpenOther => (Ok(false), false)
  }

  /** `_connect(client)`: an open transport is left alone; otherwise it is
      opened, and closed again when opening raised. */
  method Connect(t: Transport, attempt: OpenOutcome) returns (r: Result<bool>)
    modifies t
    ensures (r, t.isOpen) == ConnectStep(old(t.isOpen), attempt)
    ensures t.openCalls == old(t.openCalls) + (if old(t.isOpen) then 0 else 1)
    ensures t.remoteCalls == old(t.remoteCalls)
  {
    if t.isOpen {
      return Ok(true);
    }
    t.Open(attempt);
    match attempt {
      case OpenOk =>
        r := Ok(true);
      case OpenTExc(m) =>
        t.Close();
        r := Err(ThriftMessage(MessageOrFallback(m)));
      case OpenOther =>
        t.Close();
        r := Ok(false);
    }
  }

  /** The state of one node client: where it points and whether it is connected. */
  datatype Node = Node(host: string, port: int, open: bool)

  function State(t: Transport): Node
    reads t
  {
    Node(t.host, t.port, t.isOpen)
  }

  /** `simple_connect(server)` as a value: the address must split into host
      and integer port; the one connection attempt may raise
      ErrorThriftMessage, while any other failure leaves a closed client. */
  function ConnectOne(server: string, attempt: OpenOutcome): (r: Result<Node>)
    ensures r.Ok? <==> ParseAddress(server).Ok? && !attempt.OpenTExc?
    ensures r.Ok? ==> ParseAddress(server) == Ok(HostPort(r.value.host, r.value.port))
    ensures r.Ok? ==> (r.value.open <==> attempt.OpenOk?)
    ensures r.Err? && ParseAddress(server).Err? ==> r.error == ParseAddress(server).error
    ensures r.Err? && ParseAddress(server).Ok? ==> r.error == ThriftMessage(MessageOrFallback(attempt.message))
  {
    match ParseAddress(server)
    case Err(e) => Err(e)
    case Ok(a) =>
      var (connected, open) := ConnectStep(false, attempt);
      if connected.Err? then Err(connected.error) else Ok(Node(a.host, a.port, open))
  }

  /** `simple_connect(server)`: a fresh client, connected once, whatever
      `_connect` returned; the exceptions of the address split, of int() and
      of `_connect` propagate. */
  method SimpleConnect(server: string, attempt: OpenOutcome) returns (r: Result<Transport>)
    ensures r.Err? <==> ConnectOne(server, attempt).Err?
    ensures r.Err? ==> r.error == ConnectOne(server, attempt).error
    ensures r.Ok? ==> fresh(r.value) && State(r.value) == ConnectOne(server, attempt).value
    ensures r.Ok? ==> r.value.openCalls == 1 && r.value.remoteCalls == 0
  {
    match ParseAddress(server) {
      case Err(e) =>
        return Err(e);
      case Ok(a) =>
        var t := new Transport(a.host, a.port);
        var connected := Connect(t, attempt);
        if connected.Err? {
          return Err(connected.error);
        }
        return Ok(t);
    }
  }
}
