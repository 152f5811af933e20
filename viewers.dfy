/** The registry of live viewers: for each batch, the websockets watching it. A
    handler that changes a batch broadcasts to that batch's viewers, and a viewer
    whose send fails is dropped. Sending itself is I/O; which sends fail is an
    input. */
module Viewers {
  import opened Common

  /** One open websocket. */
  datatype Socket = Socket(id: int)

  /** The viewers of a batch; none when the batch has no entry. */
  function Watching(m: map<int, set<Socket>>, batchId: int): set<Socket> {
    if batchId in m then m[batchId] else {}
  }

  /** No batch is kept with an empty set of viewers. */
  ghost predicate NoEmptyEntries(m: map<int, set<Socket>>) {
    forall b :: b in m ==> m[b] != {}
  }

  /** connect: `setdefault(batch_id, set()).add(websocket)`. */
  function Connected(m: map<int, set<Socket>>, batchId: int, ws: Socket): map<int, set<Socket>> {
    m[batchId := Watching(m, batchId) + {ws}]
  }

  /** The entry of a batch left with the viewers s: dropped when s is empty. */
  function Reduced(m: map<int, set<Socket>>, batchId: int, s: set<Socket>): map<int, set<Socket>> {
    if s == {} then m - {batchId} else m[batchId := s]
  }

  /** disconnect: discard the socket, and pop the batch once its set is empty. */
  function Disconnected(m: map<int, set<Socket>>, batchId: int, ws: Socket): map<int, set<Socket>> {
    if batchId in m then Reduced(m, batchId, m[batchId] - {ws}) else m
  }

  /** The registry after a broadcast in which the sends to `failing` raised. */
  function AfterBroadcast(m: map<int, set<Socket>>, batchId: int, failing: set<Socket>): map<int, set<Socket>> {
    if batchId in m then Reduced(m, batchId, m[batchId] - failing) else m
  }

  /** Connecting and disconnecting keep the registry free of empty entries, change
      only the given batch's viewers, and do to them what their names say. */
  lemma ConnectDisconnectFacts(m: map<int, set<Socket>>, batchId: int, ws: Socket)
    requires NoEmptyEntries(m)
    ensures NoEmptyEntries(Connected(m, batchId, ws)) && NoEmptyEntries(Disconnected(m, batchId, ws))
    ensures Watching(Connected(m, batchId, ws), batchId) == Watching(m, batchId) + {ws}
    ensures Watching(Disconnected(m, batchId, ws), batchId) == Watching(m, batchId) - {ws}
    ensures forall b :: b != batchId ==>
              Watching(Connected(m, batchId, ws), b) == Watching(m, b) && Watching(Disconnected(m, batchId, ws), b) == Watching(m, b)
  {
  }

  /** A viewer that connects and then disconnects leaves the registry as it was. */
  lemma ConnectThenDisconnect(m: map<int, set<Socket>>, batchId: int, ws: Socket)
    requires NoEmptyEntries(m) && ws !in Watching(m, batchId)
    ensures Disconnected(Connected(m, batchId, ws), batchId, ws) == m
  {
    var c := Connected(m, batchId, ws);
    assert c[batchId] - {ws} == Watching(m, batchId);
    if batchId in m {
      assert m[batchId] != {};
    } else {
      assert Watching(m, batchId) == {};
    }
  }

  /** Disconnecting twice is disconnecting once. */
  lemma DisconnectIdempotent(m: map<int, set<Socket>>, batchId: int, ws: Socket)
    ensures Disconnected(Disconnected(m, batchId, ws), batchId, ws) == Disconnected(m, batchId, ws)
  {
    if batchId in m && m[batchId] - {ws} != {} {
      assert (m[batchId] - {ws}) - {ws} == m[batchId] - {ws};
    }
  }

  /** A broadcast reaches the viewers whose send succeeds, drops exactly the
      viewers whose send fails, and leaves every other batch alone. */
  lemma BroadcastFacts(m: map<int, set<Socket>>, batchId: int, failing: set<Socket>)
    requires NoEmptyEntries(m)
    ensures NoEmptyEntries(AfterBroadcast(m, batchId, failing))
    ensures Watching(AfterBroadcast(m, batchId, failing), batchId) == Watching(m, batchId) - failing
    ensures forall b :: b != batchId ==> Watching(AfterBroadcast(m, batchId, failing), b) == Watching(m, b)
    ensures failing * Watching(m, batchId) == {} ==> AfterBroadcast(m, batchId, failing) == m
  {
    if batchId in m && failing * m[batchId] == {} {
      forall x | x in m[batchId]
        ensures x !in failing
      {
        assert x !in failing * m[batchId];
      }
      assert m[batchId] - failing == m[batchId];
      assert m[batchId := m[batchId]] == m;
    }
  }

  /** The registry kept by the server. */
  class Registry {
    var connections: map<int, set<Socket>>

    ghost predicate Valid()
      reads this
    {
      NoEmptyEntries(connections)
    }

    constructor ()
      ensures connections == map[] && Valid()
    {
      connections := map[];
    }

    /** connect, after the websocket was accepted. */
    method Connect(batchId: int, ws: Socket)
      modifies this
      requires Valid()
      ensures Valid()
      ensures connections == Connected(old(connections), batchId, ws)
    {
      var current := if batchId in connections then connections[batchId] else {};
      connections := connections[batchId := current + {ws}];
    }

    /** disconnect. */
    method Disconnect(batchId: int, ws: Socket)
      modifies this
      requires Valid()
      ensures Valid()
      ensures connections == Disconnected(old(connections), batchId, ws)
    {
      if batchId in connections {
        var rest := connections[batchId] - {ws};
        connections := connections[batchId := rest];
        if rest == {} {
          connections := connections - {batchId};
        }
      }
    }

    /** broadcast: send to a snapshot of the batch's viewers, disconnecting each one
        whose send raises. Returns the viewers the payload reached. */
    method Broadcast(batchId: int, failing: set<Socket>) returns (reached: set<Socket>)
      modifies this
      requires Valid()
      ensures Valid()
      ensures reached == Watching(old(connections), batchId) - failing
      ensures connections == AfterBroadcast(old(connections), batchId, failing)
    {
      ghost var before := connections;
      var sockets := if batchId in connections then connections[batchId] else {};
      var pending := sockets;
      reached := {};
      assert sockets - pending == {} && failing * {} == {};
      if batchId in before {
        assert before[batchId] - {} == before[batchId];
        assert before[batchId := before[batchId]] == before;
      }
      while pending != {}
        invariant Valid()
        invariant pending <= sockets
        invariant reached == (sockets - pending) - failing
        invariant connections == AfterBroadcast(before, batchId, failing * (sockets - pending))
        decreases pending
      {
        NonEmptyHasElement(pending);
        var ws :| ws in pending;
        ghost var done := sockets - pending;
        if ws in failing {
          DisconnectStep(before, batchId, failing * done, ws);
          Disconnect(batchId, ws);
          assert failing * (done + {ws}) == failing * done + {ws};
        } else {
          reached := reached + {ws};
          assert failing * (done + {ws}) == failing * done;
        }
        pending := pending - {ws};
        assert sockets - pending == done + {ws};
      }
      assert sockets - pending == sockets;
      if batchId in before {
        assert before[batchId] - failing * sockets == before[batchId] - failing;
      }
    }
  }

  /** Dropping one more failed viewer is one more disconnect. */
  lemma DisconnectStep(m: map<int, set<Socket>>, batchId: int, dropped: set<Socket>, ws: Socket)
    ensures Disconnected(AfterBroadcast(m, batchId, dropped), batchId, ws) == AfterBroadcast(m, batchId, dropped + {ws})
  {
    if batchId in m {
      assert (m[batchId] - dropped) - {ws} == m[batchId] - (dropped + {ws});
    }
  }
}
