/**
 * The tunnel server as a sequential state machine. The state holds the
 * ordered registry of pending proxy connections, the tunnel connections
 * handed to it, and append-only logs of what it wrote to the control
 * connection, what it wrote to each tunnel connection, which connections it
 * asked the concrete server variant to close (and why), and which pairs of
 * sockets it spliced together. Every operation is a pure transition.
 */
module TunnelServer {
  import opened Wrappers
  import opened Protocol
  import opened Registry
  import ListenAddress

  /** Seconds a proxy connection may wait for its data channel. */
  const WaitLimit: int := 60

  const TimeoutReason: string := "Waiting for more than 60 seconds without responding"
  const ShutdownReason: string := "The tunnel server has been closed"

  /** The lookup failure; it carries the id that was asked for. */
  datatype Error = ProxyNotFound(requested: Option<string>)

  /** One call of the variant-specific `closeProxyConnection(conn, reason)`. */
  datatype CloseCall = CloseCall(conn: ProxyConnection, reason: string)

  /** Something written to a tunnel connection: a protocol message or raw bytes. */
  datatype Write = MessageWrite(message: Message) | BytesWrite(bytes: Bytes)

  /** A proxy socket and a tunnel socket piped into each other, each side's
      close ending the other. */
  datatype Splice = Splice(proxy: Handle, tunnel: Handle)

  datatype Endpoint = ProxySide(proxy: Handle) | TunnelSide(tunnel: Handle)

  /** A freshly accepted public connection, as the proxy connection wrapping it reports it. */
  datatype Incoming = Incoming(id: string, waitingDuration: int, initBuffer: Bytes)

  datatype Server = Server(
    listenAddress: string,
    tunnel: Tunnel,
    running: bool,                        // run() has installed the accept callback
    listenerClosed: bool,                 // the listening socket has been closed
    registry: seq<ProxyConnection>,       // pending proxy connections, in accept order
    paused: set<Handle>,                  // proxy sockets currently paused
    tunnelConnections: seq<Handle>,       // every tunnel connection ever registered
    controlWrites: seq<Message>,          // written to the control connection
    tunnelWrites: map<Handle, seq<Write>>,// written to each tunnel connection
    closeLog: seq<CloseCall>,             // closeProxyConnection calls, in order
    splices: seq<Splice>,
    nextHandle: Handle)                   // identity for the next accepted socket

  /** The result of pairing: the new state survives a thrown lookup error. */
  datatype Pairing = Pairing(server: Server, outcome: Outcome<Error>)

  /** The invariant every reachable state keeps. */
  predicate Valid(s: Server)
  {
    && DistinctHandles(s.registry)
    && (forall c :: c in s.registry ==> c.handle < s.nextHandle)
    && (forall h :: h in s.paused ==> h < s.nextHandle)
    && (s.listenerClosed ==> s.registry == [])
  }

  /** New connections are registered only between run() and close(). */
  predicate Accepting(s: Server)
  {
    s.running && !s.listenerClosed
  }

  function WritesTo(s: Server, t: Handle): seq<Write>
  {
    if t in s.tunnelWrites then s.tunnelWrites[t] else []
  }

  function CloseCalls(conns: seq<ProxyConnection>, reason: string): seq<CloseCall>
  {
    seq(|conns|, i requires 0 <= i < |conns| => CloseCall(conns[i], reason))
  }

  /** The server as constructed: nothing accepted, nothing written, bound to host:port. */
  function New(host: string, tunnel: Tunnel): (s: Server)
    ensures Valid(s)
    ensures s.registry == [] && s.paused == {} && s.tunnelConnections == []
    ensures s.controlWrites == [] && s.closeLog == [] && s.splices == []
    ensures forall t :: WritesTo(s, t) == []
    ensures !s.running && !s.listenerClosed
    ensures s.tunnel == tunnel
    ensures s.listenAddress == ListenAddress.Format(host, tunnel.serverPort)
    ensures ListenAddress.Split(s.listenAddress) == Some((host, tunnel.serverPort))
  {
    Server(ListenAddress.Format(host, tunnel.serverPort), tunnel, false, false,
           [], {}, [], [], map[], [], [], 0)
  }

  function Run(s: Server): (r: Server)
    ensures r.running
    ensures r.(running := s.running) == s
  {
    s.(running := true)
  }

  /** Asks the client for a data channel and pauses the connection until one arrives. */
  function HandleProxyConnection(s: Server, c: ProxyConnection): (r: Server)
    ensures |r.controlWrites| == |s.controlWrites| + 1
    ensures r.controlWrites[..|s.controlWrites|] == s.controlWrites
    ensures var m := r.controlWrites[|s.controlWrites|];
      m.kind == RequestProxyType && m.payload == s.tunnel.fields && ProxyConnectionId(m) == Some(c.id)
    ensures c.handle in r.paused && r.paused - {c.handle} == s.paused - {c.handle}
    ensures r.(controlWrites := s.controlWrites, paused := s.paused) == s
  {
    s.(controlWrites := s.controlWrites + [RequestProxy(s.tunnel, c.id)],
       paused := s.paused + {c.handle})
  }

  /** The accept callback: wrap the socket, register it last, then handle it. */
  function Accept(s: Server, incoming: Incoming): (r: Server)
    ensures !Accepting(s) ==> r == s
    ensures Accepting(s) ==>
      |r.registry| == |s.registry| + 1 && r.registry[..|s.registry|] == s.registry
    ensures Accepting(s) ==>
      var c := r.registry[|s.registry|];
      && c.id == incoming.id && c.waitingDuration == incoming.waitingDuration && c.initBuffer == incoming.initBuffer
      && c.handle in r.paused
      && (Valid(s) ==> forall e :: e in s.registry ==> e.handle != c.handle)
    ensures Accepting(s) ==>
      |r.controlWrites| == |s.controlWrites| + 1 && r.controlWrites[..|s.controlWrites|] == s.controlWrites
    ensures Accepting(s) ==>
      var m := r.controlWrites[|s.controlWrites|];
      m.kind == RequestProxyType && m.payload == s.tunnel.fields && ProxyConnectionId(m) == Some(incoming.id)
    ensures Accepting(s) ==>
      r.paused == s.paused + {r.registry[|s.registry|].handle} && r.nextHandle == s.nextHandle + 1
    ensures r.(registry := s.registry, paused := s.paused, controlWrites := s.controlWrites,
               nextHandle := s.nextHandle) == s
  {
    if !Accepting(s) then s
    else
      var c := ProxyConnection(s.nextHandle, incoming.id, incoming.waitingDuration, incoming.initBuffer);
      HandleProxyConnection(s.(registry := s.registry + [c], nextHandle := s.nextHandle + 1), c)
  }

  /** The periodic sweep: close and drop every entry waiting longer than the limit. */
  function HandleProxyConnectionTimeout(s: Server): (r: Server)
    ensures forall c :: c in r.registry <==> c in s.registry && !Expired(c, WaitLimit)
    ensures IsSubsequence(r.registry, s.registry)
    ensures |r.closeLog| >= |s.closeLog| && r.closeLog[..|s.closeLog|] == s.closeLog
    ensures forall k :: |s.closeLog| <= k < |r.closeLog| ==>
      r.closeLog[k].reason == TimeoutReason && r.closeLog[k].conn in s.registry
      && Expired(r.closeLog[k].conn, WaitLimit)
    ensures r.closeLog[|s.closeLog|..] == CloseCalls(Removed(s.registry, WaitLimit), TimeoutReason)
    ensures r.(registry := s.registry, closeLog := s.closeLog) == s
  {
    SurvivorsIsSubsequence(s.registry, WaitLimit);
    s.(registry := Survivors(s.registry, WaitLimit),
       closeLog := s.closeLog + CloseCalls(Removed(s.registry, WaitLimit), TimeoutReason))
  }

  /** Lookup by id: the first registered connection with that id, or ProxyNotFound. */
  function FindProxyConnection(s: Server, requested: Option<string>): (r: Result<ProxyConnection, Error>)
    ensures r.Success? ==>
      requested.Some? && Find(s.registry, requested.value).Some?
      && r.value == s.registry[Find(s.registry, requested.value).value]
    ensures r.Failure? <==> forall c :: c in s.registry ==> requested != Some(c.id)
    ensures r.Failure? ==> r.error == ProxyNotFound(requested)
  {
    match requested
    case None => Failure(ProxyNotFound(requested))
    case Some(id) =>
      match Find(s.registry, id)
      case None => Failure(ProxyNotFound(requested))
      case Some(i) => Success(s.registry[i])
  }

  /**
   * The pairing entry point. The tunnel connection is recorded first; if no
   * entry carries the message's id the call throws and nothing else happens.
   * Otherwise the tunnel connection receives `start_proxy` and then the bytes
   * the proxy buffered, the proxy is resumed and the two sockets are spliced.
   * The registry is left as it was: the paired entry is not removed.
   */
  function RegisterTunnelConnection(s: Server, t: Handle, m: Message): (r: Pairing)
    ensures r.server.tunnelConnections == s.tunnelConnections + [t]
    ensures r.server.registry == s.registry
    ensures r.outcome.Fail? <==> forall c :: c in s.registry ==> ProxyConnectionId(m) != Some(c.id)
    ensures r.outcome.Fail? ==>
      && r.outcome.error == ProxyNotFound(ProxyConnectionId(m))
      && r.server == s.(tunnelConnections := s.tunnelConnections + [t])
    ensures r.outcome.Pass? ==>
      var found := FindProxyConnection(s, ProxyConnectionId(m));
      && found.Success?
      && WritesTo(r.server, t) == WritesTo(s, t) + [MessageWrite(StartProxy()), BytesWrite(found.value.initBuffer)]
      && (forall u :: u != t ==> WritesTo(r.server, u) == WritesTo(s, u))
      && found.value.handle !in r.server.paused
      && r.server.paused + {found.value.handle} == s.paused + {found.value.handle}
      && r.server.splices == s.splices + [Splice(found.value.handle, t)]
    ensures r.server.(tunnelConnections := s.tunnelConnections, tunnelWrites := s.tunnelWrites,
                      paused := s.paused, splices := s.splices) == s
  {
    var s1 := s.(tunnelConnections := s.tunnelConnections + [t]);
    match FindProxyConnection(s1, ProxyConnectionId(m))
    case Failure(e) => Pairing(s1, Fail(e))
    case Success(c) =>
      var writes := WritesTo(s1, t) + [MessageWrite(StartProxy()), BytesWrite(c.initBuffer)];
      Pairing(s1.(tunnelWrites := s1.tunnelWrites[t := writes],
                  paused := s1.paused - {c.handle},
                  splices := s1.splices + [Splice(c.handle, t)]),
              Pass)
  }

  /** Shutdown: close every pending connection in registry order, empty the
      registry, close the listener. */
  function Close(s: Server): (r: Server)
    ensures r.registry == [] && r.listenerClosed
    ensures |r.closeLog| == |s.closeLog| + |s.registry| && r.closeLog[..|s.closeLog|] == s.closeLog
    ensures forall i :: 0 <= i < |s.registry| ==>
      r.closeLog[|s.closeLog| + i] == CloseCall(s.registry[i], ShutdownReason)
    ensures r.(registry := s.registry, closeLog := s.closeLog, listenerClosed := s.listenerClosed) == s
  {
    s.(closeLog := s.closeLog + CloseCalls(s.registry, ShutdownReason),
       registry := [],
       listenerClosed := true)
  }

  /** The sockets whose `end()` runs when `closed` closes. */
  function EndedOnClose(splices: seq<Splice>, closed: Endpoint): set<Endpoint>
  {
    match closed
    case ProxySide(p) => set sp | sp in splices && sp.proxy == p :: TunnelSide(sp.tunnel)
    case TunnelSide(t) => set sp | sp in splices && sp.tunnel == t :: ProxySide(sp.proxy)
  }

  /** The passage of time as every registered connection observes it. */
  function Elapse(s: Server, dt: nat): (r: Server)
    ensures |r.registry| == |s.registry|
    ensures forall i :: 0 <= i < |r.registry| ==>
      r.registry[i] == s.registry[i].(waitingDuration := s.registry[i].waitingDuration + dt)
    ensures r.(registry := s.registry) == s
  {
    s.(registry := seq(|s.registry|, i requires 0 <= i < |s.registry| =>
                         s.registry[i].(waitingDuration := s.registry[i].waitingDuration + dt)))
  }

  /** The events that drive the server: its own entry points and the clock. */
  datatype Event =
    | Started
    | Connected(incoming: Incoming)
    | TimerFired
    | TunnelArrived(tunnelConnection: Handle, message: Message)
    | ShutDown
    | TimePassed(dt: nat)

  function Step(s: Server, e: Event): Server
  {
    match e
    case Started => Run(s)
    case Connected(incoming) => Accept(s, incoming)
    case TimerFired => HandleProxyConnectionTimeout(s)
    case TunnelArrived(t, m) => RegisterTunnelConnection(s, t, m).server
    case ShutDown => Close(s)
    case TimePassed(dt) => Elapse(s, dt)
  }

  /** The state after handling `events` in order. */
  function Replay(s: Server, events: seq<Event>): Server
    decreases |events|
  {
    if events == [] then s else Replay(Step(s, events[0]), events[1..])
  }
}
