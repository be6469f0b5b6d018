/**
 * The API's registry of progress sockets: for each job id, the list of
 * sockets watching that job, with add, remove and broadcast. A socket whose
 * send fails with a disconnect is dropped after the broadcast.
 */
module Managers {
  import opened Wrappers
  import opened Collections
  import opened Domain

  /** A socket, by identity. */
  type Socket = nat

  /** What happened on one socket during a broadcast. */
  datatype SocketEvent =
    | Sent(socket: Socket, payload: Payload)
    | SendFailed(socket: Socket)
    | Closed(socket: Socket)

  /** The Python exception `list.remove` or the dictionary lookup would raise. */
  datatype Fault = KeyError | ValueError

  /** The sockets of `l` whose send raises a disconnect, in list order. */
  function Dead(l: seq<Socket>, gone: set<Socket>): seq<Socket>
  {
    Filter(l, (s: Socket) => s in gone)
  }

  /** The sockets of `l` that take the message, in list order. */
  function Survivors(l: seq<Socket>, gone: set<Socket>): seq<Socket>
  {
    Filter(l, (s: Socket) => s !in gone)
  }

  /**
   * The socket events of one broadcast over `l`: each socket in turn is sent
   * the payload; a gone socket fails, and when `closing` every other socket
   * is closed right after its send.
   */
  function SendTrace(l: seq<Socket>, gone: set<Socket>, payload: Payload, closing: bool): seq<SocketEvent>
  {
    if l == [] then []
    else SocketEvents(l[0], gone, payload, closing) + SendTrace(l[1..], gone, payload, closing)
  }

  /** The events of one socket in a broadcast. */
  function SocketEvents(ws: Socket, gone: set<Socket>, payload: Payload, closing: bool): seq<SocketEvent>
  {
    if ws in gone then [SendFailed(ws)]
    else if closing then [Sent(ws, payload), Closed(ws)]
    else [Sent(ws, payload)]
  }

  /** The sockets a trace tried to send to, in order. */
  function Attempted(t: seq<SocketEvent>): seq<Socket>
  {
    if t == [] then []
    else (if t[0].Closed? then [] else [t[0].socket]) + Attempted(t[1..])
  }

  /** The sockets a trace closed, in order. */
  function ClosedIn(t: seq<SocketEvent>): seq<Socket>
  {
    if t == [] then []
    else (if t[0].Closed? then [t[0].socket] else []) + ClosedIn(t[1..])
  }

  lemma {:induction false} AttemptedAppend(a: seq<SocketEvent>, b: seq<SocketEvent>)
    ensures Attempted(a + b) == Attempted(a) + Attempted(b)
  {
    if a != [] {
      assert (a + b)[0] == a[0] && (a + b)[1..] == a[1..] + b;
      AttemptedAppend(a[1..], b);
    } else {
      assert a + b == b;
    }
  }

  lemma {:induction false} ClosedInAppend(a: seq<SocketEvent>, b: seq<SocketEvent>)
    ensures ClosedIn(a + b) == ClosedIn(a) + ClosedIn(b)
  {
    if a != [] {
      assert (a + b)[0] == a[0] && (a + b)[1..] == a[1..] + b;
      ClosedInAppend(a[1..], b);
    } else {
      assert a + b == b;
    }
  }

  lemma {:induction false} SendTraceAppend(a: seq<Socket>, b: seq<Socket>, gone: set<Socket>, payload: Payload, closing: bool)
    ensures SendTrace(a + b, gone, payload, closing) == SendTrace(a, gone, payload, closing) + SendTrace(b, gone, payload, closing)
  {
    if a != [] {
      assert (a + b)[0] == a[0] && (a + b)[1..] == a[1..] + b;
      SendTraceAppend(a[1..], b, gone, payload, closing);
    } else {
      assert a + b == b;
    }
  }

  /** One more socket of a broadcast: its events and, if it is gone, one more dead entry. */
  lemma BroadcastStep(l: seq<Socket>, i: nat, gone: set<Socket>, payload: Payload, closing: bool)
    requires i < |l|
    ensures Dead(l[..i + 1], gone) == Dead(l[..i], gone) + (if l[i] in gone then [l[i]] else [])
    ensures SendTrace(l[..i + 1], gone, payload, closing) == SendTrace(l[..i], gone, payload, closing) + SocketEvents(l[i], gone, payload, closing)
  {
    assert l[..i + 1] == l[..i] + [l[i]];
    FilterAppend(l[..i], [l[i]], (s: Socket) => s in gone);
    SendTraceAppend(l[..i], [l[i]], gone, payload, closing);
    assert [l[i]][1..] == [];
    assert SendTrace([l[i]], gone, payload, closing) == SocketEvents(l[i], gone, payload, closing) + [];
  }

  /** A broadcast tries every socket of the list, in list order. */
  lemma {:induction false} BroadcastTriesEverySocket(l: seq<Socket>, gone: set<Socket>, payload: Payload, closing: bool)
    ensures Attempted(SendTrace(l, gone, payload, closing)) == l
  {
    if l != [] {
      BroadcastTriesEverySocket(l[1..], gone, payload, closing);
      AttemptedAppend(SocketEvents(l[0], gone, payload, closing), SendTrace(l[1..], gone, payload, closing));
    }
  }

  /** A completion broadcast closes exactly the sockets that took the message; any other closes none. */
  lemma {:induction false} BroadcastClosesSurvivors(l: seq<Socket>, gone: set<Socket>, payload: Payload, closing: bool)
    ensures ClosedIn(SendTrace(l, gone, payload, closing)) == if closing then Survivors(l, gone) else []
  {
    if l != [] {
      BroadcastClosesSurvivors(l[1..], gone, payload, closing);
      ClosedInAppend(SocketEvents(l[0], gone, payload, closing), SendTrace(l[1..], gone, payload, closing));
    }
  }

  /** Only sockets that are not gone receive the payload. */
  lemma {:induction false} BroadcastSendsOnlyToLive(l: seq<Socket>, gone: set<Socket>, payload: Payload, closing: bool)
    ensures forall i :: 0 <= i < |SendTrace(l, gone, payload, closing)| && SendTrace(l, gone, payload, closing)[i].Sent? ==>
      SendTrace(l, gone, payload, closing)[i].socket !in gone && SendTrace(l, gone, payload, closing)[i].payload == payload
  {
    if l != [] {
      BroadcastSendsOnlyToLive(l[1..], gone, payload, closing);
    }
  }

  lemma {:induction false} DeadIsSubMultiset(l: seq<Socket>, gone: set<Socket>)
    ensures multiset(Dead(l, gone)) <= multiset(l)
  {
    if l != [] {
      DeadIsSubMultiset(l[1..], gone);
      assert l == [l[0]] + l[1..];
    }
  }

  /**
   * Removing the first occurrence of each dead socket, one after the other,
   * leaves exactly the surviving sockets in their original order.
   */
  lemma {:induction false} RemovingDeadLeavesSurvivors(l: seq<Socket>, gone: set<Socket>)
    ensures multiset(Dead(l, gone)) <= multiset(l)
    ensures RemoveEach(l, Dead(l, gone)) == Survivors(l, gone)
  {
    DeadIsSubMultiset(l, gone);
    if l != [] {
      var x, rest := l[0], l[1..];
      assert l == [x] + rest;
      RemovingDeadLeavesSurvivors(rest, gone);
      if x in gone {
        var d := Dead(l, gone);
        assert d == [x] + Dead(rest, gone);
        assert d[1..] == Dead(rest, gone);
        assert RemoveFirst(l, x) == rest;
      } else {
        assert Dead(l, gone) == Dead(rest, gone);
        assert x !in Dead(rest, gone);
        RemoveEachKeepsHead(x, rest, Dead(rest, gone));
      }
    }
  }

  /**
   * The registry and the socket log after `send_message(jobId, kind, payload)`:
   * nothing happens for an unknown job id; otherwise the job's sockets are
   * tried in order and the ones that failed are dropped.
   */
  function Send(conns: map<string, seq<Socket>>, log: seq<SocketEvent>, jobId: string, kind: string,
                payload: Payload, gone: set<Socket>): (map<string, seq<Socket>>, seq<SocketEvent>)
  {
    if jobId in conns then
      (conns[jobId := Survivors(conns[jobId], gone)], log + SendTrace(conns[jobId], gone, payload, kind == "completion"))
    else (conns, log)
  }

  class EventManager {
    /** For each job id, the sockets watching it, in connection order. */
    var connections: map<string, seq<Socket>>
    /** Every socket event so far, oldest first. */
    var log: seq<SocketEvent>

    constructor ()
      ensures connections == map[] && log == []
    {
      connections := map[];
      log := [];
    }

    /** Registers `ws` for `jobId`; a socket may be registered twice. */
    method AddConnection(jobId: string, ws: Socket)
      modifies this
      ensures connections == old(connections)[jobId := old(if jobId in connections then connections[jobId] else []) + [ws]]
      ensures log == old(log)
    {
      if jobId !in connections {
        connections := connections[jobId := []];
      }
      connections := connections[jobId := connections[jobId] + [ws]];
    }

    /**
     * Drops one registration of `ws` for `jobId`. An unknown job id or a
     * socket that is not registered raises, and nothing changes. The job id's
     * entry stays even when its list becomes empty.
     */
    method Disconnect(jobId: string, ws: Socket) returns (fault: Option<Fault>)
      modifies this
      ensures jobId !in old(connections) ==> fault == Some(KeyError)
      ensures jobId in old(connections) && ws !in old(connections[jobId]) ==> fault == Some(ValueError)
      ensures fault.Some? ==> connections == old(connections)
      ensures fault.None? <==> jobId in old(connections) && ws in old(connections[jobId])
      ensures fault.None? ==> connections == old(connections)[jobId := RemoveFirst(old(connections[jobId]), ws)]
      ensures log == old(log)
    {
      if jobId !in connections {
        return Some(KeyError);
      }
      if ws !in connections[jobId] {
        return Some(ValueError);
      }
      connections := connections[jobId := RemoveFirst(connections[jobId], ws)];
      fault := None;
    }

    /**
     * Sends `payload` to every socket of `jobId`, closing each one after the
     * send when `kind` is "completion"; the sockets in `gone` fail with a
     * disconnect and are removed afterwards, one `remove` per failure.
     */
    method SendMessage(jobId: string, kind: string, payload: Payload, gone: set<Socket>)
      modifies this
      ensures jobId !in old(connections) ==> connections == old(connections) && log == old(log)
      ensures jobId in old(connections) ==>
        connections == old(connections)[jobId := Survivors(old(connections[jobId]), gone)]
        && log == old(log) + SendTrace(old(connections[jobId]), gone, payload, kind == "completion")
      ensures (connections, log) == Send(old(connections), old(log), jobId, kind, payload, gone)
    {
      if jobId in connections {
        var sockets := connections[jobId];
        var dead := Broadcast(sockets, payload, kind == "completion", gone);
        RemovingDeadLeavesSurvivors(sockets, gone);
        RemoveDead(jobId, dead, Survivors(sockets, gone));
      }
    }

    /** One socket of a broadcast: send, and close it after a completion message; a send to a gone socket fails. */
    method SendOne(ws: Socket, payload: Payload, closing: bool, gone: set<Socket>) returns (failed: bool)
      modifies this`log
      ensures failed <==> ws in gone
      ensures log == old(log) + SocketEvents(ws, gone, payload, closing)
    {
      if ws in gone {
        log := log + [SendFailed(ws)];
        failed := true;
      } else {
        log := log + [Sent(ws, payload)];
        if closing {
          log := log + [Closed(ws)];
        }
        failed := false;
      }
    }

    /** The sending loop: tries each socket in order and collects the ones that failed. */
    method Broadcast(sockets: seq<Socket>, payload: Payload, closing: bool, gone: set<Socket>) returns (dead: seq<Socket>)
      modifies this`log
      ensures dead == Dead(sockets, gone)
      ensures log == old(log) + SendTrace(sockets, gone, payload, closing)
    {
      dead := [];
      var i := 0;
      while i < |sockets|
        invariant 0 <= i <= |sockets|
        invariant dead == Dead(sockets[..i], gone)
        invariant log == old(log) + SendTrace(sockets[..i], gone, payload, closing)
      {
        var ws := sockets[i];
        BroadcastStep(sockets, i, gone, payload, closing);
        var failed := SendOne(ws, payload, closing, gone);
        if failed {
          dead := dead + [ws];
        }
        i := i + 1;
      }
      assert sockets[..|sockets|] == sockets;
    }

    /** The clean-up loop: one `remove` per dead entry. */
    method RemoveDead(jobId: string, dead: seq<Socket>, ghost survivors: seq<Socket>)
      requires jobId in connections
      requires multiset(dead) <= multiset(connections[jobId])
      requires RemoveEach(connections[jobId], dead) == survivors
      modifies this`connections
      ensures connections == old(connections)[jobId := survivors]
    {
      var list := connections[jobId];
      var j := 0;
      while j < |dead|
        invariant 0 <= j <= |dead|
        invariant connections == old(connections)
        invariant multiset(dead[j..]) <= multiset(list)
        invariant RemoveEach(list, dead[j..]) == survivors
      {
        assert dead[j..][0] == dead[j] && dead[j..][1..] == dead[j + 1..];
        RemoveEachStep(list, dead[j..]);
        list := RemoveFirst(list, dead[j]);
        j := j + 1;
      }
      assert dead[j..] == [] && RemoveEach(list, []) == list;
      connections := connections[jobId := list];
    }
  }
}
