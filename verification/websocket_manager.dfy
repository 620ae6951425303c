/** The live-feed connection registry (Backend/app/websocket_manager.py):
    the list of accepted sockets, changed in place by `connect`,
    `disconnect` and `broadcast`. Sockets are compared by identity, so a
    socket is modelled by a number that names it. Whether a send succeeds is
    an input: `sendOk[i]` is the fate of the send to the i-th socket of the
    snapshot. */
module WebSocketRegistry {

  type SocketId = nat

  /** The position of the first occurrence of `x`. */
  function IndexOf(s: seq<SocketId>, x: SocketId): (i: nat)
    requires x in s
    ensures i < |s| && s[i] == x && x !in s[..i]
  {
    if s[0] == x then 0
    else
      var j := IndexOf(s[1..], x);
      assert s[1..][..j] == s[1..j + 1];
      j + 1
  }

  /** `list.remove(x)`: drops the first occurrence of `x`; Python raises when
      there is none, which `disconnect` turns into doing nothing. */
  function RemoveFirst(s: seq<SocketId>, x: SocketId): (r: seq<SocketId>)
    ensures |r| == if x in s then |s| - 1 else |s|
    ensures forall y :: y in r ==> y in s
    decreases |s|
  {
    if |s| == 0 then []
    else if s[0] == x then s[1..]
    else [s[0]] + RemoveFirst(s[1..], x)
  }

  /** Removing leaves every other entry in order: the list minus its first
      `x`, or the list itself when `x` is absent. */
  lemma {:induction false} RemoveFirstSpec(s: seq<SocketId>, x: SocketId)
    ensures x !in s ==> RemoveFirst(s, x) == s
    ensures x in s ==> RemoveFirst(s, x) == s[..IndexOf(s, x)] + s[IndexOf(s, x) + 1..]
    decreases |s|
  {
    if |s| > 0 && s[0] != x {
      RemoveFirstSpec(s[1..], x);
      if x in s {
        assert x in s[1..];
        var j := IndexOf(s[1..], x);
        assert IndexOf(s, x) == j + 1;
        assert s[..j + 1] == [s[0]] + s[1..][..j];
        assert s[j + 2..] == s[1..][j + 1..];
      } else {
        assert s == [s[0]] + s[1..];
      }
    }
  }

  /** A socket not in front of the split point is removed from the part
      after it. */
  lemma {:induction false} RemoveFirstAfter(a: seq<SocketId>, b: seq<SocketId>, x: SocketId)
    requires x !in a
    ensures RemoveFirst(a + b, x) == a + RemoveFirst(b, x)
    decreases |a|
  {
    if |a| > 0 {
      assert (a + b)[1..] == a[1..] + b;
      RemoveFirstAfter(a[1..], b, x);
      assert a == [a[0]] + a[1..];
    } else {
      assert a + b == b;
    }
  }

  /** The registry after a broadcast over the snapshot `snapshot`: each
      socket whose send failed is disconnected, in snapshot order. */
  function AfterBroadcast(conns: seq<SocketId>, snapshot: seq<SocketId>, sendOk: seq<bool>)
    : (r: seq<SocketId>)
    requires |sendOk| == |snapshot|
    ensures |r| <= |conns|
    ensures forall y :: y in r ==> y in conns
    decreases |snapshot|
  {
    if |snapshot| == 0 then conns
    else
      var n := |snapshot| - 1;
      var before := AfterBroadcast(conns, snapshot[..n], sendOk[..n]);
      if sendOk[n] then before else RemoveFirst(before, snapshot[n])
  }

  /** The sockets whose send succeeded, in their original order. */
  function Survivors(snapshot: seq<SocketId>, sendOk: seq<bool>): (r: seq<SocketId>)
    requires |sendOk| == |snapshot|
    ensures forall x :: x in r ==> x in snapshot
    decreases |snapshot|
  {
    if |snapshot| == 0 then []
    else
      var n := |snapshot| - 1;
      Survivors(snapshot[..n], sendOk[..n]) + (if sendOk[n] then [snapshot[n]] else [])
  }

  predicate Distinct(s: seq<SocketId>)
  {
    forall i, j :: 0 <= i < j < |s| ==> s[i] != s[j]
  }

  /** Halfway through a broadcast over a list of distinct sockets, the
      registry holds the survivors so far followed by the sockets not yet
      tried. */
  lemma {:induction false} BroadcastPrefix(conns: seq<SocketId>, sendOk: seq<bool>, k: nat)
    requires |sendOk| == |conns| && Distinct(conns) && k <= |conns|
    ensures AfterBroadcast(conns, conns[..k], sendOk[..k]) == Survivors(conns[..k], sendOk[..k]) + conns[k..]
    decreases k
  {
    if k == 0 {
      assert conns[..0] == [];
    } else {
      var n := k - 1;
      assert conns[..k][..n] == conns[..n];
      assert sendOk[..k][..n] == sendOk[..n];
      BroadcastPrefix(conns, sendOk, n);
      var done := Survivors(conns[..n], sendOk[..n]);
      assert conns[n..] == [conns[n]] + conns[k..];
      if !sendOk[n] {
        assert conns[n] !in done by {
          forall x | x in conns[..n] ensures x != conns[n] { }
        }
        RemoveFirstAfter(done, conns[n..], conns[n]);
      } else {
        assert done + conns[n..] == (done + [conns[n]]) + conns[k..];
      }
    }
  }

  /** With distinct sockets, a broadcast leaves exactly the sockets whose
      send succeeded, in their original relative order. */
  lemma BroadcastKeepsSurvivors(conns: seq<SocketId>, sendOk: seq<bool>)
    requires |sendOk| == |conns| && Distinct(conns)
    ensures AfterBroadcast(conns, conns, sendOk) == Survivors(conns, sendOk)
  {
    BroadcastPrefix(conns, sendOk, |conns|);
    assert conns[..|conns|] == conns && sendOk[..|sendOk|] == sendOk;
    assert conns[|conns|..] == [];
  }

  /** When the same socket is registered twice, removal by first occurrence
      can reorder what remains: `[1, 2, 1]` with only the last send failing
      ends as `[2, 1]`, not `[1, 2]`. */
  lemma DuplicateEntryReorders()
    ensures AfterBroadcast([1, 2, 1], [1, 2, 1], [true, true, false]) == [2, 1]
    ensures Survivors([1, 2, 1], [true, true, false]) == [1, 2]
  {
    var c: seq<SocketId> := [1, 2, 1];
    var ok := [true, true, false];
    var c1: seq<SocketId>, c2: seq<SocketId> := [1], [1, 2];
    assert c[..2] == c2 && ok[..2] == [true, true];
    assert c2[..1] == c1 && [true, true][..1] == [true];
    assert c1[..0] == [] && [true][..0] == [];
    assert AfterBroadcast(c, c1, [true]) == c;
    assert AfterBroadcast(c, c2, [true, true]) == c;
    assert Survivors(c1, [true]) == [1];
    assert Survivors(c2, [true, true]) == [1, 2];
    assert RemoveFirst(c, 1) == [2, 1];
  }

  /** `WebSocketManager`: the accepted sockets, oldest first. */
  class WebSocketManager {
    var connections: seq<SocketId>

    constructor ()
      ensures connections == []
    {
      connections := [];
    }

    /** `connect`: the handshake is accepted, then the socket is appended.
        If accepting raises, the exception propagates and nothing is added. */
    method Connect(ws: SocketId, acceptOk: bool)
      modifies this
      ensures acceptOk ==> connections == old(connections) + [ws]
      ensures !acceptOk ==> connections == old(connections)
    {
      if acceptOk {
        connections := connections + [ws];
      }
    }

    /** `disconnect`: removes the first occurrence; an absent socket is
        silently ignored. */
    method Disconnect(ws: SocketId)
      modifies this
      ensures connections == RemoveFirst(old(connections), ws)
      ensures ws !in old(connections) ==> connections == old(connections)
      ensures ws in old(connections) ==>
        |connections| == |old(connections)| - 1
        && connections == old(connections)[..IndexOf(old(connections), ws)]
                          + old(connections)[IndexOf(old(connections), ws) + 1..]
    {
      RemoveFirstSpec(connections, ws);
      connections := RemoveFirst(connections, ws);
    }

    /** `broadcast`: sends to every socket of a snapshot taken at the start,
        each exactly once and in order, and disconnects those whose send
        raised. `attempted` lists the socket of each `await send_json` in the
        order they happen; it equals the snapshot, which is the point: every
        socket of the snapshot is tried once, even one removed meanwhile. */
    method Broadcast(sendOk: seq<bool>) returns (attempted: seq<SocketId>)
      requires |sendOk| == |connections|
      modifies this
      ensures attempted == old(connections)
      ensures connections == AfterBroadcast(old(connections), old(connections), sendOk)
      ensures Distinct(old(connections)) ==> connections == Survivors(old(connections), sendOk)
    {
      var snapshot := connections;
      attempted := [];
      for i := 0 to |snapshot|
        invariant attempted == snapshot[..i]
        invariant connections == AfterBroadcast(snapshot, snapshot[..i], sendOk[..i])
      {
        assert snapshot[..i + 1][..i] == snapshot[..i] && sendOk[..i + 1][..i] == sendOk[..i];
        attempted := attempted + [snapshot[i]];
        if !sendOk[i] {
          Disconnect(snapshot[i]);
        }
      }
      assert snapshot[..|snapshot|] == snapshot && sendOk[..|sendOk|] == sendOk;
      if Distinct(snapshot) {
        BroadcastKeepsSurvivors(snapshot, sendOk);
      }
    }
  }
}
