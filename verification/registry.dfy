/**
 * The registry of pending proxy connections: an ordered sequence of opaque
 * connection records, with the timeout filter and the first-match search the
 * tunnel server runs over it.
 */
module Registry {
  import opened Wrappers

  newtype byte = x: int | 0 <= x < 256

  type Bytes = seq<byte>

  /** Identity of a socket object; two accepted sockets never share one. */
  type Handle = nat

  /**
   * A proxy connection as the server observes it: the socket it wraps, the id
   * it reports, how long it has been waiting for a data channel, and the bytes
   * it buffered while paused. Nothing here says ids are unique.
   */
  datatype ProxyConnection = ProxyConnection(handle: Handle, id: string, waitingDuration: int, initBuffer: Bytes)

  /** An entry waiting strictly longer than `limit` has expired; one waiting
      exactly `limit` has not. */
  predicate Expired(c: ProxyConnection, limit: int)
  {
    c.waitingDuration > limit
  }

  /** No socket appears twice in the registry. */
  predicate DistinctHandles(reg: seq<ProxyConnection>)
  {
    forall i, j :: 0 <= i < j < |reg| ==> reg[i].handle != reg[j].handle
  }

  /** `a` is `b` with some entries dropped and the rest in their original order. */
  predicate IsSubsequence(a: seq<ProxyConnection>, b: seq<ProxyConnection>)
    decreases |b|
  {
    if b == [] then a == []
    else (a != [] && a[0] == b[0] && IsSubsequence(a[1..], b[1..])) || IsSubsequence(a, b[1..])
  }

  /** The entries a timeout sweep keeps. */
  function Survivors(reg: seq<ProxyConnection>, limit: int): (r: seq<ProxyConnection>)
    ensures |r| <= |reg|
    ensures forall c :: c in r <==> c in reg && !Expired(c, limit)
    decreases |reg|
  {
    if reg == [] then []
    else if Expired(reg[0], limit) then Survivors(reg[1..], limit)
    else [reg[0]] + Survivors(reg[1..], limit)
  }

  /** The entries a timeout sweep closes and drops, in registry order. */
  function Removed(reg: seq<ProxyConnection>, limit: int): (r: seq<ProxyConnection>)
    ensures |r| <= |reg|
    ensures forall c :: c in r <==> c in reg && Expired(c, limit)
    ensures IsSubsequence(r, reg)
    decreases |reg|
  {
    if reg == [] then []
    else if Expired(reg[0], limit) then [reg[0]] + Removed(reg[1..], limit)
    else Removed(reg[1..], limit)
  }

  /** The position of the first entry, in insertion order, whose id is `id`. */
  function Find(reg: seq<ProxyConnection>, id: string): (r: Option<nat>)
    ensures r.Some? ==> r.value < |reg| && reg[r.value].id == id
    ensures r.Some? ==> forall j :: 0 <= j < r.value ==> reg[j].id != id
    ensures r.None? <==> forall j :: 0 <= j < |reg| ==> reg[j].id != id
    decreases |reg|
  {
    if reg == [] then None
    else if reg[0].id == id then Some(0)
    else match Find(reg[1..], id)
      case None => None
      case Some(i) => Some(i + 1)
  }

  /** Sweeping a concatenation sweeps each part: survivors keep their relative order. */
  lemma {:induction false} SurvivorsAppend(a: seq<ProxyConnection>, b: seq<ProxyConnection>, limit: int)
    ensures Survivors(a + b, limit) == Survivors(a, limit) + Survivors(b, limit)
    decreases |a|
  {
    if a == [] {
      assert a + b == b;
    } else {
      assert (a + b)[0] == a[0];
      assert (a + b)[1..] == a[1..] + b;
      SurvivorsAppend(a[1..], b, limit);
    }
  }

  /** The survivors are the registry with entries dropped, never reordered. */
  lemma {:induction false} SurvivorsIsSubsequence(reg: seq<ProxyConnection>, limit: int)
    ensures IsSubsequence(Survivors(reg, limit), reg)
    decreases |reg|
  {
    if reg != [] {
      SurvivorsIsSubsequence(reg[1..], limit);
      if !Expired(reg[0], limit) {
        var r := Survivors(reg, limit);
        assert r[0] == reg[0] && r[1..] == Survivors(reg[1..], limit);
      }
    }
  }

  /** A sweep partitions the registry: every entry is either kept or removed. */
  lemma {:induction false} SweepPartitions(reg: seq<ProxyConnection>, limit: int)
    ensures multiset(Survivors(reg, limit)) + multiset(Removed(reg, limit)) == multiset(reg)
    decreases |reg|
  {
    if reg != [] {
      SweepPartitions(reg[1..], limit);
      assert reg == [reg[0]] + reg[1..];
    }
  }

  /** A removed entry is removed as often as it occurs; a surviving one never. */
  lemma {:induction false} RemovedCount(reg: seq<ProxyConnection>, limit: int, c: ProxyConnection)
    ensures multiset(Removed(reg, limit))[c] == if Expired(c, limit) then multiset(reg)[c] else 0
    decreases |reg|
  {
    if reg != [] {
      RemovedCount(reg[1..], limit, c);
      assert reg == [reg[0]] + reg[1..];
    }
  }

  /** With distinct handles, no record occurs more than once. */
  lemma {:induction false} DistinctOccursOnce(reg: seq<ProxyConnection>, c: ProxyConnection)
    requires DistinctHandles(reg)
    ensures multiset(reg)[c] == if c in reg then 1 else 0
    decreases |reg|
  {
    if reg != [] {
      assert reg == [reg[0]] + reg[1..];
      assert DistinctHandles(reg[1..]) by {
        forall i, j | 0 <= i < j < |reg[1..]|
          ensures reg[1..][i].handle != reg[1..][j].handle
        {
          assert reg[1..][i] == reg[i + 1] && reg[1..][j] == reg[j + 1];
        }
      }
      DistinctOccursOnce(reg[1..], c);
      if c == reg[0] {
        assert c !in reg[1..] by {
          forall k | 0 <= k < |reg[1..]|
            ensures reg[1..][k] != c
          {
            assert reg[1..][k] == reg[k + 1];
          }
        }
      }
    }
  }

  /** A sweep never makes two entries share a socket. */
  lemma {:induction false} SurvivorsDistinct(reg: seq<ProxyConnection>, limit: int)
    requires DistinctHandles(reg)
    ensures DistinctHandles(Survivors(reg, limit))
    decreases |reg|
  {
    if reg != [] {
      var tail := reg[1..];
      assert DistinctHandles(tail) by {
        forall i, j | 0 <= i < j < |tail|
          ensures tail[i].handle != tail[j].handle
        {
          assert tail[i] == reg[i + 1] && tail[j] == reg[j + 1];
        }
      }
      SurvivorsDistinct(tail, limit);
      if !Expired(reg[0], limit) {
        var rest := Survivors(tail, limit);
        var r := [reg[0]] + rest;
        forall i, j | 0 <= i < j < |r|
          ensures r[i].handle != r[j].handle
        {
          if i == 0 {
            assert r[j] == rest[j - 1];
            assert rest[j - 1] in tail;
            var k :| 0 <= k < |tail| && tail[k] == rest[j - 1];
            assert tail[k] == reg[k + 1];
          } else {
            assert r[i] == rest[i - 1] && r[j] == rest[j - 1];
          }
        }
      }
    }
  }

  /** Appending an entry never changes an earlier match, and an appended entry
      with the id is found when nothing before it matches. */
  lemma {:induction false} FindAppend(reg: seq<ProxyConnection>, c: ProxyConnection, id: string)
    ensures Find(reg + [c], id) ==
      if Find(reg, id).Some? then Find(reg, id)
      else if c.id == id then Some(|reg|)
      else None
  {
    var r := Find(reg + [c], id);
    var ext := reg + [c];
    assert forall j :: 0 <= j < |reg| ==> ext[j] == reg[j];
    assert ext[|reg|] == c;
    match Find(reg, id)
    case Some(i) =>
      assert ext[i].id == id;
    case None =>
  }
}
