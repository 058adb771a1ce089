# Lazyboy connection layer in Dafny

Lazyboy is a Python 2 client layer for Cassandra. Its connection module
(`lazyboy/connection.py`) does four things, and this project models each of
them and proves what it promises:

- **Registry** (`init` / `get_client`): a keyspace name maps to a list of
  `"host:port"` servers. Each lookup is cached under the key
  `str(pid) + thread name + keyspace`. The first lookup for a key builds a
  group client; later lookups return that same object. An unknown keyspace
  raises `ErrorCassandraClientNotFound`.
- **Node client** (`_build_client`, `_connect`, `simple_connect`): a server
  text is split on `":"` and its port is read with `int()`. The client is
  then connected once. `_connect` leaves an open transport alone. Otherwise
  it opens the transport. A Thrift exception becomes `ErrorThriftMessage`
  (with the fallback message `"Transport error, reconnect"` when the
  exception has none). Any other exception makes `_connect` return `False`.
  Every failure closes the transport.
- **Group client** (`RoundRobinClient`): every server is connected eagerly,
  in list order. The first exception aborts construction. A cursor starts at
  `random.randint(0, n)`. `_get_server` hands out node `cursor % n` and then
  increments the cursor.
- **Wrapped call** (`__getattr__`): pick the next node and connect it. When
  `_connect` returned `False`, return `None` without calling. Otherwise
  forward the call. On any exception, close the transport: a Thrift exception
  becomes `ErrorThriftMessage`, and anything else is re-raised unchanged.

Modules, in dependency order:

- `Errors`: the error surface (`Error`), `Option`/`Result`, and the outcomes
  of the collaborators (`OpenOutcome`, `CallOutcome`).
- `Decimal`: `str()` of a process id and Python 2 `int()` of a port text.
- `Addresses`: `split(":")` and the host/port it yields.
- `Transports`: the transport object (`Transport`), `_connect` and `simple_connect`.
- `RoundRobin`: the `RoundRobinClient` class, its construction, the
  rotation, and the wrapped call.
- `Registry`: the `ClientRegistry` class for `init`/`get_client`, and the
  cache key.

What the outside world does is given to the model as values. That covers
what `transport.open()` does, what the remote operation does, the draw of
`random.randint`, `os.getpid()` and the current thread's name. Each
imperative piece of the source is a class or a method with a `modifies`
clause, proved against a function that states the same behaviour as a value.
For example, `Transports.Connect` is proved against `Transports.ConnectStep`,
and `RoundRobin.CallOn` against `RoundRobin.WrappedCall`. Ghost counters on
`Transport` record how often `open()` and remote operations were invoked.
That is how "an open transport is not reopened" and "no call is made when
`_connect` returned False" are stated.

`get_client` checks the keyspace before it looks at the cache
(`lazyboy/connection.py:40-42`), so an unknown keyspace is an error even
when its key happens to be cached.

The cache key joins its three parts with no separator, so it is not
injective. `Registry.KeysCollide` proves this. For example, thread
`"Thread-1"` looking up keyspace `"1ks"` and thread `"Thread-11"` looking up
`"ks"` in the same process get the same key, so the second lookup returns
the first one's group. `Registry.ClientRegistry.GetClient` states what the
code then does: on a hit it returns the group that was built for
`keyspaceOf[key]`, which can be a different keyspace. Different threads,
different keyspaces and different processes are each separated when the
other two parts are equal. `KeySeparatesThreads`, `KeySeparatesKeyspaces`
and `KeySeparatesProcesses` prove this. Each new key gets a group of its
own, so `ClientRegistry.GetClientFromTwoThreads` proves that two threads
looking up one keyspace get two distinct groups.

## Model

| member | source | states |
|---|---|---|
| Errors.MessageOrFallback | lazyboy/connection.py:63-66 | The message of ErrorThriftMessage is never empty: it is the Thrift exception's own message when it has one, else "Transport error, reconnect". |
| Decimal.NatToString | lazyboy/connection.py:44 | str() of a process id is a non-empty run of decimal digits with no leading zero unless the number is 0. |
| Decimal.ParseIntOfString | lazyboy/connection.py:77 | int(str(n)) == n for every non-negative n. |
| Decimal.ParseIntPadded | lazyboy/connection.py:77 | int() ignores any whitespace before and after the numeral. |
| Decimal.ParseInt | lazyboy/connection.py:77 | When int() accepts a port text, the stripped text is non-empty and ends in a digit. A negative result comes only from a text whose stripped form starts with "-". |
| Decimal.ParseIntSigned | lazyboy/connection.py:77 | int() accepts one leading sign: "-" negates and "+" keeps the value. |
| Decimal.ParseIntSpaceAfterSign | lazyboy/connection.py:77 | int() skips whitespace between the sign and the digits: "-" or "+", then any whitespace, then str(n) reads as -n or n. |
| Decimal.NatToStringDistinct | lazyboy/connection.py:44 | Distinct process ids have distinct decimal texts. |
| Addresses.Split | lazyboy/connection.py:87 | split(":") always yields at least one piece, even for the empty text. |
| Addresses.ParseAddress | lazyboy/connection.py:87 | A host that reaches the client builder never holds a colon. |
| Addresses.SplitCount | lazyboy/connection.py:87 | split(":") yields one piece more than there are colons in the server text. |
| Addresses.SplitPieces | lazyboy/connection.py:87 | No piece of split(":") holds a colon. |
| Addresses.SplitJoin | lazyboy/connection.py:87 | Joining the pieces of split(":") with ":" gives the server text back. |
| Addresses.SplitOnce | lazyboy/connection.py:87 | A text with exactly one separator, between two separator-free parts, splits into exactly those two parts. |
| Addresses.ParseAddressSpec | lazyboy/connection.py:75-77 | The address is rejected with a TypeError exactly when the server text does not hold exactly one colon. Otherwise it is rejected with a ValueError exactly when int() refuses the port. On success the host is the text before the colon and the port is int() of the text after it. With exactly one colon, parsing succeeds exactly when int() accepts the text after that colon. |
| Addresses.ParseAddressRoundTrip | lazyboy/connection.py:87 | A colon-free host and str(port) joined by ":" parse back to that host and port. |
| Transports.Transport.constructor | lazyboy/connection.py:75-82 | `_build_client` yields a client for the given host and port whose transport is not open yet, with no open() and no remote call made. |
| Transports.Transport.Open | lazyboy/connection.py:60 | A successful open() leaves the transport open; every call is counted. |
| Transports.Transport.Close | lazyboy/connection.py:67 | close() leaves the transport closed. |
| Transports.Transport.Call | lazyboy/connection.py:124 | A remote operation yields what the node does, is counted, and leaves the open state as it was. |
| Transports.ConnectStep | lazyboy/connection.py:54-72 | `_connect` returns True exactly when the transport was open or open() returned. It returns False exactly when open() raised a non-Thrift exception. It raises ErrorThriftMessage with the exception's message, or the fallback, exactly when open() raised a Thrift exception. The transport ends open exactly when the result is True. |
| Transports.Connect | lazyboy/connection.py:54-72 | The new open state and the result are those of ConnectStep. open() is called only when the transport was closed, and no remote call is made. |
| Transports.ConnectOne | lazyboy/connection.py:85-89 | simple_connect succeeds exactly when the address parses and open() raised no Thrift exception. On success the node has the parsed host and port and is connected exactly when open() returned. On failure the error is the address error or the ErrorThriftMessage. |
| Transports.SimpleConnect | lazyboy/connection.py:85-89 | simple_connect fails exactly as ConnectOne says. On success it returns a fresh client whose state is ConnectOne's node, with open() called once and no remote call. |
| RoundRobin.Visits | lazyboy/connection.py:107-108 | k consecutive picks name k nodes, each a valid position in the node list. |
| RoundRobin.VisitAt | lazyboy/connection.py:107-108 | The j-th of consecutive picks from cursor `start` is node (start + j) % n. |
| RoundRobin.FullRotation | lazyboy/connection.py:102-109 | n consecutive picks visit every node exactly once, in list order, starting at start % n and wrapping around. |
| RoundRobin.RotationPeriodic | lazyboy/connection.py:100-109 | Picks repeat every n calls, so the start randint(0, n) may draw, n, picks as start 0 does. |
| RoundRobin.Collect | lazyboy/connection.py:99 | Running the connection steps in order yields one value per step when none raises. |
| RoundRobin.CollectSucceeds | lazyboy/connection.py:99 | Construction succeeds exactly when every server's simple_connect does, and keeps the nodes in list order. |
| RoundRobin.CollectFails | lazyboy/connection.py:99 | The exception of the first server that fails is the one construction raises. |
| RoundRobin.CollectStep | lazyboy/connection.py:99 | One more server extends a successful prefix by its node, or ends construction with its exception. |
| RoundRobin.ConnectAll | lazyboy/connection.py:99 | A successful construction holds one node per server. |
| RoundRobin.ConnectAllAddresses | lazyboy/connection.py:99 | After construction node i points at the host and port of server i, and it is connected exactly when its open() returned. |
| RoundRobin.WrappedCall | lazyboy/connection.py:115-136 | The caller gets the remote value exactly when the node is connected and the call returns, and the transport then stays open. The caller gets None exactly when `_connect` returned False. Otherwise an ErrorThriftMessage, with the fallback when there is no message, or the original exception is raised, and the transport is closed. Once connected, a Thrift exception from the remote call becomes ErrorThriftMessage with its message or the fallback, and any other exception from it is re-raised unchanged. |
| RoundRobin.CallOn | lazyboy/connection.py:119-134 | The result and the new open state are WrappedCall's. open() is called only for a closed transport. The remote call is made exactly when `_connect` returned True. |
| RoundRobin.ConnectAt | lazyboy/connection.py:99 | simple_connect of server i fails with step i's exception, or returns a fresh client in step i's state, opened once with no remote call. |
| RoundRobin.ConnectServers | lazyboy/connection.py:99 | Given each server's simple_connect step, map(simple_connect, servers) raises the first step's exception. Otherwise it returns fresh, pairwise distinct node clients whose states are the collected nodes, each opened once with no remote call. |
| RoundRobin.Build | lazyboy/connection.py:96-100 | Construction raises the first connection exception, or yields a fresh valid group over the given servers with the cursor at the drawn start and node i in the state ConnectAll gives it. |
| RoundRobin.RoundRobinClient.constructor | lazyboy/connection.py:96-100 | A group stores its servers and one node per server at the matching address, and the cursor starts at the drawn value. |
| RoundRobin.RoundRobinClient.GetServer | lazyboy/connection.py:102-109 | No nodes raises ErrorCassandraNoServersConfigured and leaves the cursor alone. Otherwise it returns node cursor % n and increments the cursor. |
| RoundRobin.RoundRobinClient.GetServers | lazyboy/connection.py:102-109 | k consecutive `_get_server` calls pick, in order, the nodes Visits names from the old cursor, so n calls visit every node once (FullRotation), and the cursor grows by k. With no nodes the first call raises and the cursor stays. |
| RoundRobin.RoundRobinClient.ListServers | lazyboy/connection.py:111-113 | list_servers returns one node client per configured server, in order, each at its server's address. |
| RoundRobin.RoundRobinClient.Invoke | lazyboy/connection.py:115-136 | A wrapped call with no nodes raises ErrorCassandraNoServersConfigured. Otherwise it advances the cursor by one, acts on node old cursor % n exactly as WrappedCall says, and leaves every other node untouched. |
| Registry.ClientKey | lazyboy/connection.py:44 | The cache key starts with str(pid), holds the thread name right after it, and ends with the keyspace. |
| Registry.NotFoundMessage | lazyboy/connection.py:41-42 | The message of ErrorCassandraClientNotFound names the keyspace that was looked up. |
| Registry.KeySeparatesThreads | lazyboy/connection.py:44 | Two threads of one process never share a key for one keyspace. |
| Registry.KeySeparatesKeyspaces | lazyboy/connection.py:44 | One thread never shares a key between two keyspaces. |
| Registry.KeySeparatesProcesses | lazyboy/connection.py:44 | Two processes never share a key for one thread name and keyspace. |
| Registry.KeysCollide | lazyboy/connection.py:44 | Keys of different (thread, keyspace) pairs can coincide, because the parts are joined without a separator. |
| Registry.ClientRegistry.constructor | lazyboy/connection.py:22-36 | init keeps the keyspace configuration and starts with an empty cache. |
| Registry.ClientRegistry.GetClient | lazyboy/connection.py:38-49 | An unknown keyspace raises ErrorCassandraClientNotFound with the message naming it, and the cache is unchanged. A cached key returns the cached group unchanged. A new key builds a group from the keyspace's servers and caches it under the key, or propagates the construction exception and leaves the cache as it was. Every cached group was built from a configured keyspace, no group is cached under two keys, and a successful lookup leaves its group cached under its key. |
| Registry.ClientRegistry.GetClientFromTwoThreads | lazyboy/connection.py:44-49 | Lookups of one keyspace from two different threads of one process that both succeed return two distinct group instances. |
| Registry.ClientRegistry.GetClientTwice | lazyboy/connection.py:46-49 | A second lookup from the same process and thread returns the very group the first successful lookup returned. |

## Left out

- The `client_class` parameter of `init` is not modelled: every group is a `RoundRobinClient`.
- `_build_client`'s socket, buffered transport, binary protocol and Cassandra client are reduced to one `Transport` object holding host, port and an open flag. Networking is not modelled.
- What `open()` and each remote operation do is a parameter (`OpenOutcome`, `CallOutcome`). So are `random.randint`'s draw, `os.getpid()` and the current thread's name. The per-server open outcomes of a construction are a sequence as long as the server list.
- The name and arguments of a wrapped call are passed through but do not influence the outcome. Keyword arguments are not modelled. A missing attribute on the node client is one of the "any other exception" outcomes.
- A Thrift exception whose message is `None` and one whose message is empty are both modelled as the empty message. Both get the fallback text.
- Exceptions that do not derive from `Exception` (such as `KeyboardInterrupt`) escape the `except Exception` clauses. They are not modelled.
- The `self._clients is None` test in `_get_server` cannot succeed, because the list is always built by `map`. It is not modelled.
- RoundRobin.RoundRobinClient.ListServers: returns the node list as a value. It does not model that the Python method hands out the group's own mutable list, which callers could alias and change.
- Server texts are sequences of characters with Python 2's ASCII notion of digits and whitespace. Unicode digits and Unicode whitespace, which `int()` of a `unicode` port would also accept, are not modelled.
- Concurrency is not modelled: the registry's unsynchronised dictionary and the shared cursor of a group used from several threads.
- lazyboy/base.py and lazyboy/column_crud.py, which call `get_client` and the wrapped operations, are not part of this model. lazyboy/exceptions.py is not part of this model either: its exception classes appear only as the cases of `Errors.Error`.
