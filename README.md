# txmongo connection core, modelled in Dafny

This project models the connection layer of txmongo, the Twisted MongoDB
driver. The layer has two parts, both in `txmongo/__init__.py`:

- `_Connection` is a reconnecting client factory, one per slot of the pool.
  It queues callers that wait for a usable protocol (`notifyReady`) and
  releases them when a protocol is ready (`setInstance`). It validates the
  reply to the `ismaster` handshake (`_configureCallback`), recording the
  maximum BSON size and the replica-set hosts on the way. When a connection
  fails or drops, it walks a failover cursor over the candidate nodes
  (`retryNextHost`).
- `ConnectionPool` puts a `mongodb://` scheme in front of the URI and builds
  `pool_size` slots. It hands out protocols in round robin (`getprotocol`,
  `isconnected`) and caches database handles by name (`__getitem__`).

Each object whose fields the source updates is a Dafny `class` whose methods
update those fields: `Connections.Connection` and `Pools.ConnectionPool`.
Each method's `modifies` clause names only the fields it changes. Protocol
instances, waiters (the deferreds of `notifyReady`) and database handles are
opaque natural-number identities. The calls a slot makes on a protocol
(`fail`, setting `max_bson_size`, `connectionLost`) are appended to a log,
`calls`. Waiters that fire are appended to a log, `fired`.

The pure parts are specification functions proved separately:

- `Handshake.Evaluate` is the reply validation, check by check.
- `Hosts.NormaliseHost` is host-string normalisation. It uses
  `Decimal.ParseInt`, which is Python's `int()` on a port string.
- `Failover.Advance` and `Failover.Cursor` are the failover cursor.
- `Pools.Visits` is the round-robin order.

Each method is proved against these functions, and the functions' own
properties are proved as lemmas.

Modules: `Common` (Option, Result, `TryMap`), `Decimal`, `Hosts`, `Handshake`,
`Failover`, `Connections`, `Pools`.

## Model

| member | source | states |
|---|---|---|
| Common.TryMap | txmongo/__init__.py:137-145 | mapping a list succeeds exactly when every element succeeds, and then yields one result per element, in order |
| Common.TryMapFirstFailure | txmongo/__init__.py:138-143 | when a list fails, the error reported is the one from the first element that fails |
| Common.TryMapErrorFrom | txmongo/__init__.py:138-143 | the error of a failed list is the error of one of its elements |
| Decimal.StripLeftDropsSpace | txmongo/__init__.py:143 | what `int()` skips at the front of a port string is white space |
| Decimal.StripRightDropsSpace | txmongo/__init__.py:143 | what `int()` skips at the end of a port string is white space |
| Decimal.StripKeeps | txmongo/__init__.py:143 | stripping removes only white space and invents no character |
| Decimal.ParseInt | txmongo/__init__.py:143 | an accepted port string, once stripped, ends in a digit and holds only digits after its first character; a negative value comes only from a leading minus sign |
| Decimal.ParseIntAcceptsOnlyNumerals | txmongo/__init__.py:143 | a port string that `int()` accepts contains a digit and nothing but digits, signs and white space |
| Decimal.FormatNatDigits | txmongo/__init__.py:143 | the decimal text of a natural number is a non-empty digit string whose value is that number |
| Decimal.ParseFormat | txmongo/__init__.py:143 | `int(str(n)) == n` for every integer `n` |
| Hosts.FirstIndexOf | txmongo/__init__.py:142 | the split position is the first colon of the string |
| Hosts.NormaliseHost | txmongo/__init__.py:139-143 | a string without a colon gets port 27017; a successful split gives a host with no colon that is a prefix of the string; a failure reports the string itself, which contains a colon |
| Hosts.FirstIndexAfter | txmongo/__init__.py:142 | a colon-free prefix moves the first colon by its own length |
| Hosts.SplitAtFirstColon | txmongo/__init__.py:142-143 | `host:rest` with a colon-free host splits right after `host`, even when `rest` has more colons, and the port is `int(rest)` |
| Hosts.NormaliseRender | txmongo/__init__.py:139-143 | normalising `host:port` text gives the address back (round trip) |
| Hosts.NormaliseAll | txmongo/__init__.py:137-145 | the list normalises exactly when every host string does, then gives one address per string in order; a failure reports one of the given strings, which contains a colon |
| Hosts.NormaliseHosts | txmongo/__init__.py:137-144 | the appending loop yields every host in order, or stops with the first host string whose port does not parse |
| Handshake.Inspect | txmongo/__init__.py:129-155 | a size is recorded exactly when `maxBsonObjectSize` is truthy, and it is that value; a bad port is reported exactly when the non-empty host list does not normalise, names one of its strings, and records no hosts; recorded hosts come one per host string; the reply is accepted exactly when no port is bad and the node is a primary or `slaveok` is set; the only rejection at this stage is "not master" |
| Handshake.Evaluate | txmongo/__init__.py:104-155 | a reply that fails one of the first three checks is rejected for a reason other than "not master" and records neither size nor hosts; a reply that passes them is never rejected for such a reason |
| Handshake.CheckOrder | txmongo/__init__.py:104-158 | a document count other than 1 fails first; then a false `ok` fails, with `'Unknown error'` as the default message and the reply's code; then a set-name mismatch fails, but only when the expected name is truthy; the size and the hosts are recorded after that; a reply is accepted exactly when every check passes, and is rejected as not master exactly when only the primary check fails |
| Handshake.AcceptedOnlyFromExpectedPrimary | txmongo/__init__.py:113-155 | an accepted reply has one document with a true `ok`, comes from a primary unless `slaveok` is set, and carries the configured set name when one is set |
| Handshake.NotMasterStillRecords | txmongo/__init__.py:129-152 | a reply rejected as not master has still recorded a truthy size and the normalised hosts |
| Handshake.EarlyRejectionRecordsNothing | txmongo/__init__.py:104-127 | a reply rejected by one of the first three checks records neither size nor hosts |
| Failover.Advance | txmongo/__init__.py:206-214 | one retry lands inside the candidate list, and it is delayed exactly when the incremented index runs off the end |
| Failover.Cursor | txmongo/__init__.py:206-214 | starting from -1, the cursor stays within `-1 .. count-1` |
| Failover.FirstSweepInOrder | txmongo/__init__.py:206-225 | the first `count` retries visit candidates 0, 1, ..., count-1 in order, none delayed; so the first retry targets node 0 again, the node the pool first connected to |
| Failover.RetriesRepeat | txmongo/__init__.py:206-225 | retries repeat with period `count`, and the retry that wraps to 0 is the delayed one |
| Connections.Drain | txmongo/__init__.py:233-239 | every queued waiter fires exactly once, in queue order: by callback when an instance is given, otherwise by errback with `reason` |
| Connections.Connection.AllNodes | txmongo/__init__.py:209-211 | the failover list starts with the URI's node list, and the discovered hosts join it only when they are enabled |
| Connections.Connection.constructor | txmongo/__init__.py:43-52 | a new slot has cursor -1, no discovered hosts, an empty queue, no instance, is not connected or reconnected, and keeps trying |
| Connections.Connection.NotifyReady | txmongo/__init__.py:174-189 | with an instance set, the deferred has already fired with it and nothing changes; otherwise a fresh waiter is appended at the end of the queue |
| Connections.Connection.SetInstance | txmongo/__init__.py:227-239 | a different previous instance is sent `connectionLost` first; `connected` becomes true only when an instance is given; the queue is emptied and drained in order; every waiter ever queued has fired once or is still queued |
| Connections.Connection.OnReconnect | txmongo/__init__.py:78-80 | the reconnected flag is cleared |
| Connections.Connection.FailProtocol | txmongo/__init__.py:104-152 | `proto.fail(reason)` is the only effect |
| Connections.Connection.RecordBsonSize | txmongo/__init__.py:129-132 | a truthy `maxBsonObjectSize` is set on the protocol, and nothing else happens |
| Connections.Connection.RecordHosts | txmongo/__init__.py:134-145 | a non-numeric port raises and keeps the old discovered hosts; otherwise the normalised list replaces them, in order |
| Connections.Connection.MarkReady | txmongo/__init__.py:154-158 | the slot takes `proto` as its instance, drains its queue, and clears the reconnected flag |
| Connections.Connection.RecordReply | txmongo/__init__.py:129-145 | the size and the hosts are recorded exactly as `Handshake.Inspect` prescribes, and the step raises exactly on a bad port |
| Connections.Connection.ConfigureChecked | txmongo/__init__.py:129-158 | once past the first three checks, the slot records and then accepts or fails exactly as `Handshake.Inspect` prescribes, and raises exactly on a bad port |
| Connections.Connection.ConfigureCallback | txmongo/__init__.py:99-158 | the calls on `proto`, the discovered hosts, and the instance and queue changes are exactly those that `Handshake.Evaluate` prescribes for the reply; an accepted reply ends in `setInstance(proto)` and `onReconnect` |
| Connections.Connection.Configure | txmongo/__init__.py:85-97 | with no protocol nothing changes; otherwise the reply to `ismaster` is handled as in `ConfigureCallback` |
| Connections.Connection.ConnectionReady | txmongo/__init__.py:63-76 | with `slaveok` the slot is ready as soon as the connection is; otherwise the handshake query must be sent, and nothing changes yet |
| Connections.Connection.RetryNextHost | txmongo/__init__.py:191-225 | with retrying stopped nothing happens; with no connector it raises `ValueError`; otherwise the cursor makes one `Advance` step, ends within the failover list, aims the connector at that node, and sets reconnected; the retry is delayed exactly when the cursor wrapped |
| Connections.Connection.ConnectionDropped | txmongo/__init__.py:160-172 | a failed or lost connection clears `connected` and, unless retrying was stopped, retries the next node; the instance is left as it is |
| Connections.Connection.StopTrying | txmongo/__init__.py:241-243 | retrying is stopped, and nothing else changes |
| Pools.WithScheme | txmongo/__init__.py:260-261 | the result starts with `mongodb://` and ends with the given URI, and a URI that already has the scheme is unchanged |
| Pools.NextSlot | txmongo/__init__.py:312 | the turn moves one slot on, and wraps to slot 0 after the last one |
| Pools.Visits | txmongo/__init__.py:311-312 | `k` acquisitions use `k` slots |
| Pools.VisitAt | txmongo/__init__.py:311-312 | within one round, the `j`-th acquisition uses slot `start + j`, wrapping once |
| Pools.RoundRobinUsesEachSlotOnce | txmongo/__init__.py:311-312 | `pool_size` consecutive acquisitions use every slot exactly once, and use them in order when starting from slot 0 |
| Pools.ConnectionPool.StartSlot | txmongo/__init__.py:265-271 | a new slot in the state `_Connection.__init__` leaves it in (cursor -1, no discovered hosts, empty queue and logs, no instance, neither connected nor reconnected, still trying), with its connector aimed at the first node |
| Pools.ConnectionPool.StartSlots | txmongo/__init__.py:265-271 | `pool_size` distinct new slots, each in the state `StartSlot` gives |
| Pools.ConnectionPool.constructor | txmongo/__init__.py:255-271 | the pool needs `pool_size >= 1`; it keeps the scheme-prefixed URI, starts its turn at slot 0 with an empty cache, and every slot is new, in the state `_Connection.__init__` leaves it in, and aimed at the first node |
| Pools.ConnectionPool.IsConnected | txmongo/__init__.py:305-307 | returns the `connected` flag of the slot next in turn, and does not move the turn |
| Pools.ConnectionPool.GetProtocol | txmongo/__init__.py:309-319 | the turn moves by `NextSlot`; a ready slot hands back its instance unchanged; otherwise one new waiter is appended to that slot's queue alone, with no fallback to another slot; nothing else about the slot changes |
| Pools.ConnectionPool.GetDatabase | txmongo/__init__.py:276-281 | a name seen before returns the same handle and leaves the cache as it was; a new name gets a handle distinct from every cached one, inserted under that name alone |
| Pools.ConnectionPool.Disconnect | txmongo/__init__.py:291-293 | every slot stops retrying, and nothing else about the slots changes: queued waiters are neither fired nor rejected |

## Where the model follows the code rather than the written design

- A failed or lost connection only clears `connected` (txmongo/__init__.py:160-172).
  It does not clear `instance`, so `notifyReady` and `getprotocol` still hand back
  the old protocol until a new one is set.
- `__index` starts at -1 and the pool first connects to `nodelist[0]`. So the first
  retry after a failure targets `nodelist[0]` again (`Failover.FirstSweepInOrder`).
- `notifyReady` fires with the protocol instance when one is set. Waiters that were
  queued fire with the factory itself (`df.callback(self)`) instead. `Firing.Callback`
  records that a waiter fired, and `Deferred.Succeeded` carries the instance.
- `disconnect` and `stopTrying` leave queued waiters pending. They are never rejected.

## Left out

- Twisted I/O is reduced to recorded values: the reactor, `connectTCP`,
  `connector.connect()` and `retry`, `connector.disconnect()`, transports and
  `loseConnection`. `RetryNextHost` returns an `Action` instead of calling the
  connector.
- `Connections.Connection.RetryNextHost`: the optional `connector` argument is not
  modelled. Every caller in this file passes none, and the slot's own connector is used.
- The back-off arithmetic of `retry`, `resetDelay`, `maxDelay` and the jitter live in
  Twisted's `ReconnectingClientFactory`, which is not part of this model. Only the
  choice between a delayed and an immediate retry is kept.
- The periodic re-`configure` (`task.LoopingCall`, started in `__init__`, stopped in
  `stopTrying`) is timer plumbing. `Configure` can be called at any time instead.
- `parse_uri`, `Query`/`send_QUERY`, BSON `decode()` and the `pymongo.errors` classes
  are foreign code. The parsed URI and the decoded reply are parameters; errors are
  the `Reason` datatype.
- Pools.ConnectionPool.constructor: the `parse_uri` result is a parameter. The model
  only states that the pool keeps the scheme-prefixed URI next to it.
- Connections.Connection.OnReconnect: the re-authentication of every cached
  `Database` is an asynchronous call into `txmongo.database`, which is not part of
  this model. Only the reset of the reconnected flag is modelled.
- `Database` construction is reduced to a fresh handle identity.
- Pools.ConnectionPool.Disconnect: `stopFactory`, `loseConnection` and
  `connector.disconnect()` are I/O. The returned deferred fires on the next reactor
  turn. Only `stopTrying` is modelled.
- `buildProtocol`'s deferred chaining on `connectionReady()` is collapsed.
  `ConnectionReady` is the moment that deferred fires.
- Connections.Connection.NotifyReady: the guard that recreates a `None` queue is not
  modelled, because the queue is always a list after `__init__`.
- `getprotocols`: the pool's `slots` field is that list.
- Also left out: logging, `__repr__`, `__getattr__`, the legacy `MongoConnection`
  wrapper and the `__main__` block.
- Hosts.NormaliseHosts: the entries of `hosts` are taken to be strings. A non-string
  entry would make `':' not in host` raise a `TypeError`, which is not modelled.
- Decimal.ParseInt models `int()` for ASCII text: optional white space, an optional
  sign, then decimal digits. White space includes the separators U+001C to U+001F,
  which `int()` skips in a `unicode` string. Non-ASCII digits and non-ASCII white
  space (U+0085, U+00A0, U+1680, U+2000 to U+200A, U+2028, U+2029, U+202F, U+205F,
  U+3000) are not modelled, and neither is Python 2's tolerance of white space
  between the sign and the digits.
- Pools.ConnectionPool.constructor: the default arguments of `ConnectionPool.__init__`
  (`uri='mongodb://127.0.0.1:27017'`, `pool_size=1`, txmongo/__init__.py:255) are not
  modelled, because Dafny constructors have no default arguments. A caller passes
  both explicitly.
- The truth value of Python objects is modelled per field: a number is truthy when
  non-zero, a string when non-empty, and `hosts` only counts when it is a non-empty
  list. Values of any other type in those fields are not modelled.
