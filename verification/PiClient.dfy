/**
 `Connection` and the request table of `PiClient` (packages/client/src/connection.ts and client.ts)
 with their fields. Each method runs up to the first user code it calls, and is proved equal to the
 step of `ClientProtocol` it stands for; the calls that wait for user code are kept in `stack`.
 */
module PiClient {
  import opened Prelude
  import opened ClientProtocol

  class PiClient {
    var lifecycle: Lifecycle
    var sequence: nat
    var requestSequence: nat
    var pendingRequests: set<RequestId>
    var disposed: bool
    var stack: seq<Frame>
    var requests: map<RequestId, Request>
    ghost var notes: seq<Note>
    ghost var promises: map<ConnectionId, seq<Outcome>>
    ghost var factories: set<ConnectionId>
    ghost var transports: set<ConnectionId>
    ghost var closed: set<ConnectionId>

    ghost function Now(): State
      reads this
    {
      State(lifecycle, sequence, stack, notes, promises, factories, transports, closed, requests, pendingRequests,
            requestSequence, disposed)
    }

    ghost predicate Valid()
      reads this
    {
      Inv(Now())
    }

    /** So the invariant survives every method. */
    twostate lemma StaysValid(event: Event)
      requires old(Valid()) && Now() == Step(old(Now()), event)
      ensures Valid()
    {
      StepKeepsInv(old(Now()), event);
    }

    constructor ()
      ensures Valid() && Now() == INITIAL
    {
      lifecycle, sequence, requestSequence, pendingRequests, disposed := Disconnected, 0, 0, {}, false;
      stack, requests, notes, promises := [], map[], [], map[];
      factories, transports, closed := {}, {}, {};
    }

    // ---------- the request table ----------

    method Settle(request: RequestId, outcome: Outcome)
      modifies this`requests
      ensures requests == SettleRequest(old(requests), request, outcome)
    {
      if request in requests {
        requests := requests[request := requests[request].(outcomes := requests[request].outcomes + [outcome])];
      }
    }

    method RejectPendingRequests()
      modifies this`requests, this`pendingRequests
      ensures requests == RejectAll(old(requests), old(pendingRequests)) && pendingRequests == {}
    {
      var remaining := pendingRequests;
      pendingRequests := {};
      ghost var rejected: set<RequestId> := {};
      while remaining != {}
        invariant pendingRequests == {} && rejected + remaining == old(pendingRequests) && rejected !! remaining
        invariant requests == RejectAll(old(requests), rejected)
        decreases |remaining|
      {
        var request :| request in remaining;
        Settle(request, Rejected);
        rejected, remaining := rejected + {request}, remaining - {request};
      }
      assert rejected == old(pendingRequests);
    }

    /** Adds a request, and takes it back when it cannot be encoded. */
    method AddRequest(encodable: bool)
      requires Valid() && !disposed && lifecycle.Connected?
      modifies this`requestSequence, this`requests, this`pendingRequests
      ensures Now() == IssueRequestStep(old(Now()), encodable, false)
    {
      requestSequence := requestSequence + 1;
      requests := requests[requestSequence := Request(lifecycle.id, [])];
      pendingRequests := pendingRequests + {requestSequence};
      if !encodable {
        pendingRequests := pendingRequests - {requestSequence};
        Settle(requestSequence, Rejected);
        ghost var none: seq<Outcome> := [];
        assert none + [Rejected] == [Rejected];
        assert requestSequence !in old(requests) && pendingRequests == old(pendingRequests);
      }
    }

    /** Sends a request, or rejects it when it cannot be encoded. */
    method IssueRequest(encodable: bool, sendThrows: bool) returns (request: Option<RequestId>)
      requires Valid()
      modifies this
      ensures Now() == Step(old(Now()), Event.IssueRequest(encodable, sendThrows))
      ensures request.Some? <==> !old(disposed) && old(lifecycle).Connected?
      ensures request.Some? ==> request.value == requestSequence && request.value in requests
    {
      if disposed || !lifecycle.Connected? {
        return None;
      }
      AddRequest(encodable);
      if encodable && sendThrows {
        FailAndClose();
      }
      return Some(requestSequence);
    }

    method HandleResponse(request: RequestId, ok: bool, matching: bool)
      modifies this
      ensures Now() == ResponseStep(old(Now()), request, ok, matching)
    {
      if request !in pendingRequests {
        FailAndClose();
        return;
      }
      pendingRequests := pendingRequests - {request};
      Settle(request, if ok && matching then Resolved else Rejected);
      if ok && !matching {
        FailAndClose();
      }
    }

    // ---------- the connection ----------

    method Connect() returns (accepted: bool)
      modifies this
      ensures Now() == Step(old(Now()), Event.Connect)
      ensures accepted <==> !old(disposed) && old(lifecycle).Disconnected?
      ensures accepted ==> lifecycle == Connecting(old(sequence) + 1, false)
    {
      if disposed || !lifecycle.Disconnected? {
        return false;
      }
      sequence := sequence + 1;
      lifecycle := Connecting(sequence, false);
      promises := promises[sequence := []];
      notes := notes + [NoteConnecting(sequence)];
      return true;
    }

    /** `fail`: settles the handshake and all requests, and tells the listeners. */
    method Fail()
      modifies this
      ensures Now() == ClientProtocol.Fail(old(Now()))
    {
      var failing := lifecycle;
      if failing.Disconnected? {
        return;
      }
      lifecycle := Disconnected;
      if HandshakePending(failing) {
        promises := ClientProtocol.Settle(promises, failing.id, Rejected);
      }
      notes := notes + [NoteDisconnected(failing.id)];
      RejectPendingRequests();
    }

    /** `failAndClose` up to the listeners; Return closes the transport. */
    method FailAndClose()
      modifies this
      ensures Now() == ClientProtocol.FailAndClose(old(Now()))
    {
      var failing := lifecycle;
      Fail();
      if HasTransport(failing) {
        stack := stack + [Closing(failing.id)];
      }
    }

    method TransportOpened(id: ConnectionId)
      requires AwaitsFactory(Now(), id)
      modifies this
      ensures Now() == Step(old(Now()), Event.TransportOpened(id))
    {
      factories, transports := factories + {id}, transports + {id};
      if !lifecycle.Connecting? || lifecycle.id != id {
        closed := closed + {id};
        return;
      }
      lifecycle := Connecting(id, true);
    }

    method FactoryFailed(id: ConnectionId)
      requires AwaitsFactory(Now(), id)
      modifies this
      ensures Now() == Step(old(Now()), Event.FactoryFailed(id))
    {
      factories := factories + {id};
      if IsCurrent(lifecycle, id) {
        Fail();
      }
    }

    /** `handleData` up to its loop. */
    method HandleData(id: ConnectionId, decoded: Option<seq<Message>>)
      modifies this
      ensures Now() == Step(old(Now()), Data(id, decoded))
    {
      if lifecycle.Disconnected? || lifecycle.id != id {
        return;
      }
      if lifecycle.Connecting? && !lifecycle.transport {
        FailAndClose();
        return;
      }
      if decoded.None? {
        FailAndClose();
        return;
      }
      stack := stack + [Delivering(id, decoded.value)];
    }

    method HandleMessage(message: Message)
      modifies this
      ensures Now() == MessageStep(old(Now()), message)
    {
      if lifecycle.Connecting? {
        if !message.Hello? || !lifecycle.transport {
          FailAndClose();
          return;
        }
        stack := stack + [Welcoming(lifecycle.id, false)];
        lifecycle := Connected(lifecycle.id, Greeting);
        return;
      }
      if !lifecycle.Connected? {
        return;
      }
      match message {
        case Response(request, ok, matching) => HandleResponse(request, ok, matching);
        case ServerEvent =>
        case _ => FailAndClose();
      }
    }

    /** User code returns: the loop of `handleData`, or `handleMessage` in the middle of the hello, goes on. */
    method Return(threw: bool)
      requires stack != []
      modifies this
      ensures Now() == Step(old(Now()), Advance(threw))
    {
      var top := stack[|stack| - 1];
      stack := stack[..|stack| - 1];
      match top {
        case Delivering(id, messages) =>
          if messages != [] && !lifecycle.Disconnected? {
            stack := stack + [Delivering(id, messages[1..])];
            HandleMessage(messages[0]);
          }
        case Welcoming(id, announced) =>
          if !StillWelcoming(lifecycle, id) {
            return;
          }
          if announced {
            lifecycle := Connected(id, Established);
            promises := ClientProtocol.Settle(promises, id, Resolved);
          } else if threw {
            FailAndClose();
          } else {
            notes := notes + [NoteConnected(id)];
            lifecycle := Connected(id, Announcing);
            stack := stack + [Welcoming(id, true)];
          }
        case Closing(id) => closed := closed + {id};
      }
    }

    method HandleClose(id: ConnectionId)
      modifies this
      ensures Now() == Step(old(Now()), TransportClosed(id))
    {
      if id in transports {
        closed := closed + {id};
      }
      if IsCurrent(lifecycle, id) {
        Fail();
      }
    }

    method HandleError(id: ConnectionId)
      modifies this
      ensures Now() == Step(old(Now()), TransportErrored(id))
    {
      if IsCurrent(lifecycle, id) {
        FailAndClose();
      }
    }

    /** The promise of a send on the transport of connection `id` is rejected. */
    method SendFailed(id: ConnectionId)
      requires stack == []
      modifies this
      ensures Now() == Step(old(Now()), Event.SendFailed(id))
    {
      if IsCurrent(lifecycle, id) && HasTransport(lifecycle) {
        FailAndClose();
      }
    }

    method Dispose()
      modifies this
      ensures Now() == Step(old(Now()), Event.Dispose)
    {
      if disposed {
        return;
      }
      disposed := true;
      RejectPendingRequests();
      FailAndClose();
    }
  }
}
