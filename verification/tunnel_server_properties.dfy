/**
 * Properties relating several tunnel-server operations: what a sweep closes,
 * how an accepted connection is later paired, what pairing leaves behind,
 * what shutdown leaves possible, and the invariants and append-only logs
 * every sequence of events keeps.
 */
module TunnelServerProperties {
  import opened Wrappers
  import opened Protocol
  import opened Registry
  import opened TunnelServer

  /** The close calls a transition added to the log. */
  function NewCloseCalls(before: Server, after: Server): seq<CloseCall>
    requires |before.closeLog| <= |after.closeLog|
  {
    after.closeLog[|before.closeLog|..]
  }

  /** Each connection is closed as often as it occurs in the list handed to `CloseCalls`. */
  lemma {:induction false} CloseCallsCount(conns: seq<ProxyConnection>, reason: string, c: ProxyConnection)
    ensures multiset(CloseCalls(conns, reason))[CloseCall(c, reason)] == multiset(conns)[c]
    decreases |conns|
  {
    if conns != [] {
      var tail := conns[1..];
      assert CloseCalls(conns, reason) == [CloseCall(conns[0], reason)] + CloseCalls(tail, reason);
      assert conns == [conns[0]] + tail;
      CloseCallsCount(tail, reason, c);
    }
  }

  /** A sweep closes every entry waiting longer than the limit exactly once, with
      the timeout reason, and closes no entry that survives. */
  lemma SweepClosesExpiredOnce(s: Server, c: ProxyConnection)
    requires Valid(s)
    requires c in s.registry
    ensures var r := HandleProxyConnectionTimeout(s);
      multiset(NewCloseCalls(s, r))[CloseCall(c, TimeoutReason)] == if Expired(c, WaitLimit) then 1 else 0
    ensures var r := HandleProxyConnectionTimeout(s);
      Expired(c, WaitLimit) <==> c !in r.registry
  {
    var r := HandleProxyConnectionTimeout(s);
    var removed := Removed(s.registry, WaitLimit);
    assert NewCloseCalls(s, r) == CloseCalls(removed, TimeoutReason);
    CloseCallsCount(removed, TimeoutReason, c);
    RemovedCount(s.registry, WaitLimit, c);
    DistinctOccursOnce(s.registry, c);
  }

  /** Sweeping again without time passing closes nothing more. */
  lemma {:induction false} SurvivorsIdempotent(reg: seq<ProxyConnection>, limit: int)
    ensures Survivors(Survivors(reg, limit), limit) == Survivors(reg, limit)
    ensures Removed(Survivors(reg, limit), limit) == []
    decreases |reg|
  {
    if reg != [] {
      SurvivorsIdempotent(reg[1..], limit);
      if !Expired(reg[0], limit) {
        var r := Survivors(reg, limit);
        assert r[0] == reg[0] && r[1..] == Survivors(reg[1..], limit);
      }
    }
  }

  lemma SweepIdempotent(s: Server)
    ensures var once := HandleProxyConnectionTimeout(s);
      var twice := HandleProxyConnectionTimeout(once);
      twice.registry == once.registry && twice.closeLog == once.closeLog
  {
    SurvivorsIdempotent(s.registry, WaitLimit);
  }

  /** The request written on accept names the new connection, so a data channel
      that echoes its id is paired with that connection (when no earlier entry
      shares the id): `start_proxy`, then the buffered bytes, then a splice. */
  lemma AcceptThenPair(s: Server, incoming: Incoming, t: Handle, m: Message)
    requires Valid(s) && Accepting(s)
    requires forall c :: c in s.registry ==> c.id != incoming.id
    requires ProxyConnectionId(m) == ProxyConnectionId(Accept(s, incoming).controlWrites[|s.controlWrites|])
    ensures var a := Accept(s, incoming);
      var c := a.registry[|s.registry|];
      var p := RegisterTunnelConnection(a, t, m);
      && p.outcome.Pass?
      && WritesTo(p.server, t) == WritesTo(s, t) + [MessageWrite(StartProxy()), BytesWrite(incoming.initBuffer)]
      && c.handle !in p.server.paused
      && Splice(c.handle, t) in p.server.splices
  {
  }

  /** Pairing does not consume the registry entry: another data channel bearing
      the same id is paired with the same proxy connection again. */
  lemma PairingDoesNotConsume(s: Server, t: Handle, m: Message, t2: Handle, m2: Message)
    requires RegisterTunnelConnection(s, t, m).outcome.Pass?
    requires ProxyConnectionId(m2) == ProxyConnectionId(m)
    ensures var p := RegisterTunnelConnection(s, t, m);
      var q := RegisterTunnelConnection(p.server, t2, m2);
      && q.outcome.Pass?
      && FindProxyConnection(p.server, ProxyConnectionId(m2)) == FindProxyConnection(s, ProxyConnectionId(m))
  {
  }

  /** Because the paired entry stays registered, a later sweep still closes it,
      spliced or not, once it reports a waiting duration above the limit. */
  lemma PairedConnectionStillSwept(s: Server, c: ProxyConnection, t: Handle, m: Message)
    requires Valid(s)
    requires c in s.registry && Expired(c, WaitLimit)
    requires ProxyConnectionId(m) == Some(c.id)
    requires forall e :: e in s.registry && e.id == c.id ==> e == c
    ensures var p := RegisterTunnelConnection(s, t, m);
      var w := HandleProxyConnectionTimeout(p.server);
      && p.outcome.Pass?
      && Splice(c.handle, t) in p.server.splices
      && CloseCall(c, TimeoutReason) in NewCloseCalls(p.server, w)
      && c !in w.registry
  {
    var p := RegisterTunnelConnection(s, t, m);
    var found := FindProxyConnection(s, ProxyConnectionId(m));
    assert found.Success?;
    assert found.value in s.registry;
    SweepClosesExpiredOnce(p.server, c);
  }

  /** A connection that is never paired is closed for timeout by the first sweep
      after its waiting duration passes the limit. */
  lemma UnansweredConnectionTimesOut(s: Server, incoming: Incoming, dt: nat)
    requires Valid(s) && Accepting(s)
    requires incoming.waitingDuration + dt > WaitLimit
    ensures var a := Accept(s, incoming);
      var e := Elapse(a, dt);
      var w := HandleProxyConnectionTimeout(e);
      var c := e.registry[|s.registry|];
      && c.handle == a.registry[|s.registry|].handle
      && c !in w.registry
      && multiset(NewCloseCalls(e, w))[CloseCall(c, TimeoutReason)] == 1
  {
    var a := Accept(s, incoming);
    var e := Elapse(a, dt);
    ElapsePreservesValid(a, dt);
    AcceptPreservesValid(s, incoming);
    SweepClosesExpiredOnce(e, e.registry[|s.registry|]);
  }

  /** A sweep right after an accept treats the earlier entries exactly as it
      would have without the accept, and keeps the new entry last unless it
      has already waited more than the limit. */
  lemma SweepAfterAccept(s: Server, incoming: Incoming)
    requires Accepting(s)
    ensures var a := Accept(s, incoming);
      var c := a.registry[|s.registry|];
      var w := HandleProxyConnectionTimeout(a);
      w.registry == Survivors(s.registry, WaitLimit) + (if Expired(c, WaitLimit) then [] else [c])
  {
    var a := Accept(s, incoming);
    var c := a.registry[|s.registry|];
    assert a.registry == s.registry + [c];
    SurvivorsAppend(s.registry, [c], WaitLimit);
  }

  /** After shutdown nothing is accepted, every lookup fails, and a sweep closes nothing. */
  lemma ClosedServerIsQuiet(s: Server, incoming: Incoming, t: Handle, m: Message)
    ensures var c := Close(s);
      && Accept(c, incoming) == c
      && RegisterTunnelConnection(c, t, m).outcome == Fail(ProxyNotFound(ProxyConnectionId(m)))
      && HandleProxyConnectionTimeout(c).closeLog == c.closeLog
  {
  }

  /** Close propagation is symmetric: a spliced pair ends each other. */
  lemma SpliceEndsBothSides(s: Server, t: Handle, m: Message)
    requires RegisterTunnelConnection(s, t, m).outcome.Pass?
    ensures var p := RegisterTunnelConnection(s, t, m).server;
      var h := FindProxyConnection(s, ProxyConnectionId(m)).value.handle;
      && TunnelSide(t) in EndedOnClose(p.splices, ProxySide(h))
      && ProxySide(h) in EndedOnClose(p.splices, TunnelSide(t))
  {
  }

  lemma AcceptPreservesValid(s: Server, incoming: Incoming)
    requires Valid(s)
    ensures Valid(Accept(s, incoming))
  {
  }

  lemma SweepPreservesValid(s: Server)
    requires Valid(s)
    ensures Valid(HandleProxyConnectionTimeout(s))
  {
    SurvivorsDistinct(s.registry, WaitLimit);
  }

  lemma ElapsePreservesValid(s: Server, dt: nat)
    requires Valid(s)
    ensures Valid(Elapse(s, dt))
  {
  }

  /** Every event keeps the invariant. */
  lemma StepPreservesValid(s: Server, e: Event)
    requires Valid(s)
    ensures Valid(Step(s, e))
  {
    match e
    case Started =>
    case Connected(incoming) => AcceptPreservesValid(s, incoming);
    case TimerFired => SweepPreservesValid(s);
    case TunnelArrived(t, m) =>
    case ShutDown =>
    case TimePassed(dt) => ElapsePreservesValid(s, dt);
  }

  /** Every state reached from a valid one is valid; `New` builds a valid server. */
  lemma {:induction false} ReplayPreservesValid(s: Server, events: seq<Event>)
    requires Valid(s)
    ensures Valid(Replay(s, events))
    decreases |events|
  {
    if events != [] {
      StepPreservesValid(s, events[0]);
      ReplayPreservesValid(Step(s, events[0]), events[1..]);
    }
  }

  /** The output logs only grow: no event rewrites what was already written or closed. */
  ghost predicate Extends(before: Server, after: Server)
  {
    && before.controlWrites <= after.controlWrites
    && before.closeLog <= after.closeLog
    && before.tunnelConnections <= after.tunnelConnections
    && before.splices <= after.splices
    && (forall t :: WritesTo(before, t) <= WritesTo(after, t))
  }

  lemma StepExtends(s: Server, e: Event)
    ensures Extends(s, Step(s, e))
  {
  }

  lemma {:induction false} ReplayExtends(s: Server, events: seq<Event>)
    ensures Extends(s, Replay(s, events))
    decreases |events|
  {
    if events != [] {
      var s1 := Step(s, events[0]);
      StepExtends(s, events[0]);
      ReplayExtends(s1, events[1..]);
      var r := Replay(s1, events[1..]);
      forall t
        ensures WritesTo(s, t) <= WritesTo(r, t)
      {
        assert WritesTo(s, t) <= WritesTo(s1, t);
      }
    }
  }
}
