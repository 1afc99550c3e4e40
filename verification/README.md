# Tunnel server connection pairing — a Dafny model

This project models the core of the abstract tunnel server of Spike, a
reverse-tunnel relay. For each tunnel the server listens on a public port.
Every public ("proxy") connection it accepts is registered, paused, and
announced to the client agent with a `request_proxy` message on the control
connection. The announcement carries the connection's id in a
`Proxy-Connection-ID` header. The agent answers by opening a "tunnel
connection" whose message carries the same id. The server looks the id up,
writes `start_proxy` to the tunnel connection, resumes the proxy connection,
splices the two sockets and replays the bytes the proxy buffered while paused.
A periodic sweep closes every registered connection that has waited more than
60 seconds. Shutdown closes every registered connection and the listener.

The server is modelled as a sequential state machine over an immutable
record (`TunnelServer.Server`). The record holds:

- the registry of pending proxy connections, as an ordered sequence;
- the set of paused proxy sockets;
- the tunnel connections handed to the pairing entry point;
- append-only logs of the messages written to the control connection, the
  writes to each tunnel connection, the `closeProxyConnection(conn, reason)`
  calls, and the splices made.

Sockets are opaque handles. A proxy connection is a record of its socket
handle, the id it reports, its waiting duration and its buffered bytes. A
fresh handle is drawn for every accepted socket. Ids are not assumed unique.

Files:

- `wrappers.dfy`: `Option`, `Result`, `Outcome`.
- `protocol.dfy`: messages (type, payload, headers), the tunnel descriptor,
  and the `request_proxy` / `start_proxy` builders.
- `registry.dfy`: the proxy-connection record, the timeout filter
  (`Survivors` / `Removed`) and the first-match lookup `Find`, with their lemmas.
- `listen_address.dfy`: `host:port` formatting, plus a splitter and integer
  parser that recover host and port from it.
- `tunnel_server.dfy`: the server state and one transition per entry point,
  plus an `Event` type, `Step` and `Replay` for runs of events.
- `tunnel_server_properties.dfy`: lemmas that relate several transitions.

Pairing does not remove an entry from the registry:
`registerTunnelConnection` (src/Server/TunnelServer/TunnelServer.php:137-161)
only reads the registry, so a paired entry stays registered. The model keeps
this behaviour. `TunnelServerProperties.PairingDoesNotConsume` shows that a
second data channel bearing the same id is paired with the same proxy
connection again. `TunnelServerProperties.PairedConnectionStillSwept` shows
that a later sweep closes a spliced connection once it reports a waiting
duration above 60. Whether that duration keeps growing after `resume()`
depends on `ProxyConnection`, which is not part of this model.

## Model

| member | source | states |
|---|---|---|
| Protocol.RequestProxy | src/Server/TunnelServer/TunnelServer.php:120-122 | the announcement is a `request_proxy` message whose payload is the tunnel's serialised form and whose only header is `Proxy-Connection-ID`, from which the connection's id reads back unchanged |
| Protocol.StartProxy | src/Server/TunnelServer/TunnelServer.php:144 | the pairing reply has type `start_proxy` and names no connection |
| Registry.Survivors | src/Server/TunnelServer/TunnelServer.php:99-104 | an entry is kept by the sweep exactly when its waiting duration is at most the limit (an entry at exactly the limit stays) |
| Registry.Removed | src/Server/TunnelServer/TunnelServer.php:99-103 | an entry is closed and dropped by the sweep exactly when its waiting duration is strictly above the limit; the removed entries keep their registry order |
| Registry.SurvivorsAppend | src/Server/TunnelServer/TunnelServer.php:99-104 | sweeping a concatenation is the concatenation of the sweeps: survivors keep their relative order |
| Registry.SurvivorsIsSubsequence | src/Server/TunnelServer/TunnelServer.php:99-104 | the surviving registry is the old one with entries dropped and none reordered |
| Registry.SweepPartitions | src/Server/TunnelServer/TunnelServer.php:99-104 | kept and removed entries together are exactly the old registry, as a multiset |
| Registry.RemovedCount | src/Server/TunnelServer/TunnelServer.php:100-102 | an expired entry is removed as many times as it occurs, a non-expired one never |
| Registry.SurvivorsDistinct | src/Server/TunnelServer/TunnelServer.php:99-104 | the sweep never makes two entries share a socket |
| Registry.Find | src/Server/TunnelServer/TunnelServer.php:168-176 | lookup returns the position of the first entry in insertion order whose id matches; it fails exactly when no entry matches and never returns a non-matching entry |
| Registry.FindAppend | src/Server/TunnelServer/TunnelServer.php:66-69 | registering a connection never changes an earlier match, and the new entry is found when no earlier entry has its id |
| ListenAddress.Format | src/Server/TunnelServer/TunnelServer.php:182-185 | the bind address starts with the host followed by a colon, the port is written in canonical decimal (no leading zero, no "-0"), and splitting at the last colon gives back the host and the tunnel port |
| TunnelServer.New | src/Server/TunnelServer/TunnelServer.php:52-58 | a new server keeps the tunnel descriptor it was given, has an empty registry and empty logs, is not yet accepting, satisfies the state invariant, and binds to the formatted host and tunnel port |
| TunnelServer.Run | src/Server/TunnelServer/TunnelServer.php:64-71 | run() turns accepting on; nothing else changes |
| TunnelServer.HandleProxyConnection | src/Server/TunnelServer/TunnelServer.php:118-130 | exactly one message is appended to the control connection: a `request_proxy` carrying the tunnel and the connection's id; the connection is paused; nothing else changes |
| TunnelServer.Accept | src/Server/TunnelServer/TunnelServer.php:66-69 | between run and close, the new connection is appended after the unchanged earlier entries, with a socket no earlier entry has; it alone is added to the paused set, earlier connections keep their paused state, and announced by exactly one `request_proxy` naming its id; otherwise nothing changes |
| TunnelServer.HandleProxyConnectionTimeout | src/Server/TunnelServer/TunnelServer.php:97-105 | the registry keeps exactly the entries waiting at most 60 seconds, in order; the close calls added are one per removed entry, in registry order, each with the timeout reason; nothing else changes |
| TunnelServer.FindProxyConnection | src/Server/TunnelServer/TunnelServer.php:168-176 | a success is the first registered entry with the requested id; the lookup fails with ProxyNotFound exactly when no entry has it |
| TunnelServer.RegisterTunnelConnection | src/Server/TunnelServer/TunnelServer.php:137-161 | the tunnel connection is always recorded and the registry is never changed; on failure nothing else changes; on success the tunnel receives `start_proxy` and then the proxy's buffered bytes, no other tunnel is written to, the proxy is resumed and the two are spliced |
| TunnelServer.Close | src/Server/TunnelServer/TunnelServer.php:85-92 | every registry entry is closed with the shutdown reason in registry order, then the registry is empty and the listener closed; nothing else changes |
| TunnelServerProperties.SweepClosesExpiredOnce | src/Server/TunnelServer/TunnelServer.php:99-104 | in a valid state the sweep closes each entry waiting more than 60 seconds exactly once with the timeout reason, closes no survivor, and drops exactly the closed entries |
| TunnelServerProperties.SurvivorsIdempotent | src/Server/TunnelServer/TunnelServer.php:99-104 | a second sweep over the survivors keeps all of them and removes none |
| TunnelServerProperties.SweepIdempotent | src/Server/TunnelServer/TunnelServer.php:97-105 | a second sweep with no time passing changes neither the registry nor the close log |
| TunnelServerProperties.AcceptThenPair | src/Server/TunnelServer/TunnelServer.php:118-154 | when no earlier registry entry has its id, a tunnel connection echoing the id announced on accept is paired with the new connection: it receives `start_proxy` then exactly that connection's buffered bytes, and the proxy is resumed and spliced |
| TunnelServerProperties.PairingDoesNotConsume | src/Server/TunnelServer/TunnelServer.php:137-161 | after a successful pairing the same id still finds the same connection, so a second tunnel connection is paired with it too |
| TunnelServerProperties.PairedConnectionStillSwept | src/Server/TunnelServer/TunnelServer.php:137-161 | a registered connection with a unique id and more than 60 seconds of waiting is paired and spliced, and the next sweep still closes it for timeout and drops it |
| TunnelServerProperties.UnansweredConnectionTimesOut | src/Server/TunnelServer/TunnelServer.php:97-105 | an accepted connection that is never paired is closed exactly once for timeout by the first sweep after its waiting duration passes 60 |
| TunnelServerProperties.SweepAfterAccept | src/Server/TunnelServer/TunnelServer.php:66-104 | a sweep right after an accept keeps the earlier survivors as before and the new entry last, unless it already waited more than 60 seconds |
| TunnelServerProperties.ClosedServerIsQuiet | src/Server/TunnelServer/TunnelServer.php:85-92 | after shutdown no connection is accepted, every pairing fails with ProxyNotFound, and a sweep closes nothing |
| TunnelServerProperties.SpliceEndsBothSides | src/Server/TunnelServer/TunnelServer.php:155-160 | after a pairing, closing the proxy socket ends the tunnel connection and closing the tunnel connection ends the proxy socket |
| TunnelServerProperties.StepPreservesValid | src/Server/TunnelServer/TunnelServer.php:64-105 | every event keeps the invariant: registry sockets distinct and already issued, paused sockets already issued, a closed server has an empty registry |
| TunnelServerProperties.ReplayPreservesValid | src/Server/TunnelServer/TunnelServer.php:64-105 | every state reached from a valid state by any run of events is valid |
| TunnelServerProperties.StepExtends | src/Server/TunnelServer/TunnelServer.php:85-161 | no event rewrites what was already written to the control connection or to any tunnel connection, already closed, recorded or spliced: each log only grows |
| TunnelServerProperties.ReplayExtends | src/Server/TunnelServer/TunnelServer.php:85-161 | the logs only grow over any run of events |

## Left out

- Sockets, the event loop and the periodic timer (src/Server/TunnelServer/TunnelServer.php:57-58) are not modelled. The sweep is an explicit event (`TimerFired`), and the listening socket is only its bind address and a closed flag.
- The byte flow of `pipe` (:152-153) is not modelled. A pairing is recorded as a `Splice`, and `EndedOnClose` gives the sockets whose `end()` the close listeners (:155-160) trigger.
- Event-dispatcher calls (:125-127, :147-149) and the getters `getDispatcher`, `getControlConnection` and `getTunnel` have no effect on state and are left out.
- `removeAllListeners()` (:128) is folded into pausing: listener wiring is not modelled.
- `ProxyConnection` is not part of this model. Its id, waiting duration and buffer are fields of an opaque record. The clock is the environment event `TimePassed`, which adds the same amount to every waiting duration.
- The concrete `closeProxyConnection` (abstract at :112) is only logged as a (connection, reason) pair. A variant that changed the registry from inside the call is not modelled.
- The wire encoding of messages is not modelled, and the tunnel's `toArray()` form is a string-to-string map.
- The `if (!$proxyConnection)` branch (:141) is left out: lookup already throws at :175, so the branch never runs.
- TunnelServer.Run: calling `run()` twice installs the accept callback twice in the source; the model's `Run` only sets a flag, so duplicate registration is not modelled.
- Registry.Find: ids are compared with exact string equality. PHP's `==` at :171 compares two numeric strings as numbers (`"10" == "1e1"`), which is not modelled.
- TunnelServer.FindProxyConnection: a message without a `Proxy-Connection-ID` header is modelled as a missing id that matches no entry. The source passes whatever `getHeader` returns to a loose `==`, and the message class is not part of this model.
- TunnelServer.Close: after `close()` the source sets the registry to `null` (:90); the model uses the empty registry, which every later operation treats the same way.
