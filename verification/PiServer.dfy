/**
 `PiServer` and `ServerSnapshotPublisher` (packages/server/src/server.ts and snapshots.ts) with their
 fields. Each method is one stretch of code between two awaits, proved equal to the step of
 `ServerProtocol` it stands for. Connection objects are rows of a table keyed by their id.
 */
module PiServer {
  import opened Prelude
  import opened ServerProtocol

  /** The first loop of `closeServerState`. */
  method MarkClosing(rows: map<ConnectionId, Connection>, connections: set<ConnectionId>)
    returns (closing: map<ConnectionId, Connection>)
    requires connections <= rows.Keys
    ensures closing == CloseAll(rows, connections)
  {
    closing := rows;
    assert CloseAll(rows, {}) == rows;
    var remaining := connections;
    ghost var marked: set<ConnectionId> := {};
    while remaining != {}
      invariant marked + remaining == connections && closing == CloseAll(rows, marked)
      decreases |remaining|
    {
      var id :| id in remaining;
      MarkOneMore(rows, marked, id);
      closing := closing[id := closing[id].(stage := Closing)];
      marked, remaining := marked + {id}, remaining - {id};
    }
    assert marked == connections;
  }

  lemma MarkOneMore(rows: map<ConnectionId, Connection>, marked: set<ConnectionId>, id: ConnectionId)
    requires id in rows
    ensures CloseAll(rows, marked + {id}) == CloseAll(rows, marked)[id := CloseAll(rows, marked)[id].(stage := Closing)]
  {
  }

  class PiServer {
    var rows: map<ConnectionId, Connection>
    var connections: set<ConnectionId>
    var closing: bool
    var revision: nat
    var broadcast: Option<Broadcast>

    ghost function Now(): State
      reads this
    {
      State(rows, connections, closing, revision, broadcast)
    }

    ghost predicate Valid()
      reads this
    {
      Inv(Now())
    }

    /** So the invariant survives every method. */
    twostate lemma StaysValid(event: Event)
      requires old(Valid()) && Now() == Step(old(Now()), event)
      ensures Valid()
    {
      StepKeepsInv(old(Now()), event);
    }

    constructor ()
      ensures Valid() && Now() == INITIAL
    {
      rows, connections, closing, revision, broadcast := map[], {}, false, 0, None;
    }

    method Accept(id: ConnectionId)
      requires id !in rows
      modifies this
      ensures Now() == Step(old(Now()), Event.Accept(id))
    {
      if closing {
        return;
      }
      rows := rows[id := ACCEPTED];
      connections := connections + {id};
    }

    /** `sendMessage` up to the send; `sent` says that there was one. */
    method SendMessage(id: ConnectionId, frame: Frame) returns (sent: bool)
      requires id in rows
      modifies this`rows
      ensures rows == old(rows)[id := Send(old(rows)[id], frame)]
      ensures sent <==> !old(rows)[id].disconnected && !old(rows)[id].gone
    {
      var c := rows[id];
      if c.disconnected || c.gone {
        assert rows == rows[id := c];
        return false;
      }
      rows := rows[id := c.(frames := c.frames + [frame])];
      return true;
    }

    method FailProtocol(id: ConnectionId)
      requires id in rows
      modifies this`rows
      ensures rows == old(rows)[id := ServerProtocol.FailProtocol(old(rows)[id])]
    {
      var c := rows[id];
      if c.disconnected || c.stage.Closing? || c.stage.Closed? {
        assert rows == rows[id := c];
        return;
      }
      rows := rows[id := c.(stage := Closing, frames := c.frames + [ErrorFrame])];
    }

    /** `receive` and `dispatchMessage` for one message of a chunk. */
    method DispatchMessage(id: ConnectionId, message: Message)
      requires id in rows
      modifies this`rows
      ensures Now() == Step(old(Now()), Receive(id, message))
    {
      var c := rows[id];
      if Terminal(c) {
        assert rows == rows[id := c];
        return;
      }
      if message.Malformed? {
        FailProtocol(id);
        return;
      }
      if c.stage.AwaitingHello? {
        if !message.Hello? {
          FailProtocol(id);
          return;
        }
        rows := rows[id := c.(stage := Handshaking, handshake := if message.supported then Fetching(revision) else Dropped)];
        if !message.supported {
          FailProtocol(id);
        }
        return;
      }
      if message.Hello? {
        FailProtocol(id);
        return;
      }
      if c.stage.Ready? {
        rows := rows[id := c.(running := c.running + 1)];
        return;
      }
      rows := rows[id := c.(deferred := c.deferred + 1)];
    }

    /** `finishHandshake` once its snapshot is there. */
    method HandshakeSnapshot(id: ConnectionId, ok: bool)
      requires id in rows && rows[id].handshake.Fetching?
      modifies this`rows
      ensures Now() == Step(old(Now()), SnapshotFetched(id, ok))
    {
      var c := rows[id];
      rows := rows[id := c.(handshake := Dropped)];
      if !ok {
        FailProtocol(id);
        return;
      }
      if closing || c.disconnected || !c.stage.Handshaking? || c.gone {
        return;
      }
      rows := rows[id := c.(handshake := Sending(c.handshake.revision))];
      var _ := SendMessage(id, HelloFrame(c.handshake.revision));
    }

    /** `finishHandshake` once the hello has been sent, or not. */
    method HandshakeSent(id: ConnectionId, sent: bool) returns (catchUp: bool)
      requires id in rows && rows[id].handshake.Sending?
      modifies this`rows
      ensures Now() == Step(old(Now()), HelloSettled(id, sent))
      ensures catchUp ==> rows[id].stage.Ready? && rows[id].catchUp == Some(revision)
    {
      var c := rows[id];
      if !sent {
        rows := rows[id := c.(handshake := Dropped)];
        return false;
      }
      var ready := !c.disconnected && c.stage.Handshaking?;
      catchUp := ready && c.handshake.revision != revision;
      rows := rows[id := c.(handshake := Delivered(c.handshake.revision), frames := c.frames + [HelloCompleted],
                            stage := if ready then Ready else c.stage,
                            catchUp := if !ready then c.catchUp else if catchUp then Some(revision) else None)];
    }

    method HandshakeCaughtUp(id: ConnectionId, ok: bool)
      requires id in rows && rows[id].catchUp.Some?
      modifies this`rows
      ensures Now() == Step(old(Now()), CatchUpFetched(id, ok))
    {
      var c := rows[id];
      rows := rows[id := c.(catchUp := None)];
      if ok {
        var _ := SendMessage(id, EventFrame(c.catchUp));
      } else {
        FailProtocol(id);
      }
    }

    /** The end of `handleRequest`. */
    method Respond(id: ConnectionId)
      requires id in rows && rows[id].running > 0
      modifies this`rows
      ensures Now() == Step(old(Now()), RequestDone(id))
    {
      rows := rows[id := rows[id].(running := rows[id].running - 1)];
      var _ := SendMessage(id, ResponseFrame);
    }

    method Disconnect(id: ConnectionId)
      requires id in rows && Valid()
      modifies this
      ensures Now() == Step(old(Now()), Event.Disconnect(id))
    {
      var c := rows[id];
      if c.disconnected {
        assert rows == rows[id := c] && connections == connections - {id};
        return;
      }
      rows := rows[id := c.(disconnected := true, stage := Closed, attached := false)];
      connections := connections - {id};
    }

    method CloseServerState()
      requires closing && connections <= rows.Keys
      modifies this`rows
      ensures Now() == Step(old(Now()), Event.CloseServerState)
    {
      rows := MarkClosing(rows, connections);
    }

    /** `performBroadcast` up to its first await. */
    method PerformBroadcast() returns (readyConnections: set<ConnectionId>)
      requires broadcast.None?
      modifies this`revision, this`broadcast
      ensures Now() == Step(old(Now()), Event.PerformBroadcast)
      ensures revision != old(revision) ==> readyConnections != {} && broadcast == Some(Broadcast(revision, readyConnections))
      ensures forall id :: id in readyConnections ==> id in rows && rows[id].stage.Ready?
    {
      readyConnections := ReadyConnections(State(rows, connections, closing, revision, broadcast));
      if readyConnections == {} || closing {
        return;
      }
      revision := revision + 1;
      broadcast := Some(Broadcast(revision, readyConnections));
    }

    /** One round of the loop that sends the broadcast. */
    method BroadcastTo(id: ConnectionId)
      requires broadcast.Some? && id in broadcast.value.remaining && id in rows
      modifies this
      ensures Now() == Step(old(Now()), BroadcastSend(id))
    {
      var current := broadcast.value;
      var _ := SendMessage(id, EventFrame(Some(current.revision)));
      var remaining := current.remaining - {id};
      broadcast := if remaining == {} then None else Some(current.(remaining := remaining));
    }
  }
}
