/**
 `LiveSessionManager` of packages/server/src/sessions.ts with its fields. Each method is one stretch
 of an asynchronous method between two awaits, proved equal to the step of `SessionProtocol` it
 stands for. LiveSession and connection objects are rows of tables keyed by their identity.
 */
module LiveSessions {
  import opened Prelude
  import opened SessionProtocol
  import SessionSafety

  /** What `acquire` does next. */
  datatype Acquisition =
    | Locked                    // throws session_locked
    | AwaitDisposal(ref: Ref)   // awaits the disposal, then asks again
    | Existing(ref: Ref)
    | AwaitOpening(ref: Ref)
    | Opening(ref: Ref)         // has asked the service

  datatype Attachment = Attached(live: LiveSession) | Refused

  /** The loop of `disconnect` over the sessions that the table holds under the connection's ids. */
  method LeaveSessions(live: map<SessionId, Ref>, sessions: map<Ref, LiveSession>, connection: ConnectionId,
                       ids: set<SessionId>) returns (after: map<Ref, LiveSession>)
    ensures after == LeaveAll(live, sessions, connection, ids)
  {
    after := sessions;
    var left: set<SessionId>, remaining := {}, ids;
    while remaining != {}
      invariant left + remaining == ids
      invariant after == LeaveAll(live, sessions, connection, left)
      decreases |remaining|
    {
      var id :| id in remaining;
      if id in live && live[id] in after {
        var session := after[live[id]];
        after := after[live[id] := session.(connections := session.connections - {connection})];
      }
      LeaveOneMore(live, sessions, connection, left, id);
      left, remaining := left + {id}, remaining - {id};
    }
    assert left == ids;
  }

  lemma LeaveOneMore(live: map<SessionId, Ref>, sessions: map<Ref, LiveSession>, connection: ConnectionId,
                     left: set<SessionId>, id: SessionId)
    ensures var before, after := LeaveAll(live, sessions, connection, left), LeaveAll(live, sessions, connection, left + {id});
            if id in live && live[id] in before then
              var ref := live[id];
              after == before[ref := before[ref].(connections := before[ref].connections - {connection})]
            else after == before
  {
    var before, after := LeaveAll(live, sessions, connection, left), LeaveAll(live, sessions, connection, left + {id});
    forall ref | ref in sessions
      ensures after[ref] == if id in live && live[id] == ref
                            then before[ref].(connections := before[ref].connections - {connection})
                            else before[ref]
    {
      var members := sessions[ref].connections;
      assert members - {connection} - {connection} == members - {connection};
      if id in live && live[id] == ref {
        assert id in left + {id};
      }
    }
  }

  class LiveSessionManager {
    var liveSessions: map<SessionId, Ref>
    var openingSessions: map<SessionId, Ref>
    var sessions: map<Ref, LiveSession>
    var connections: map<ConnectionId, Connection>
    var closing: bool
    var stage: CloseStage
    ghost var runtimes: seq<Runtime>
    ghost var running: map<OperationId, Ref>
    var acquisitions: nat

    ghost function Now(): State
      reads this
    {
      State(liveSessions, openingSessions, sessions, connections, closing, stage, runtimes, running)
    }

    ghost predicate Valid()
      reads this
    {
      Inv(Now()) && acquisitions == |runtimes|
    }

    /** The method takes the step, and goes on counting acquisitions. */
    twostate predicate Stepped(event: Event)
      reads this
    {
      Now() == Step(old(Now()), event) && acquisitions == |runtimes|
    }

    /** So the invariant survives every method. */
    twostate lemma StaysValid(event: Event)
      requires old(Valid()) && Stepped(event)
      ensures Valid()
    {
      SessionSafety.StepKeepsInv(old(Now()), event);
    }

    constructor ()
      ensures Valid() && Now() == INITIAL
    {
      liveSessions, openingSessions, sessions, connections := map[], map[], map[], map[];
      closing, stage, runtimes, running, acquisitions := false, Serving, [], map[], 0;
    }

    /** The synchronous part of `acquire`. */
    method Acquire(id: SessionId) returns (next: Acquisition)
      requires Valid()
      modifies this
      ensures Stepped(Event.Acquire(id))
      ensures next.Opening? <==> id !in old(liveSessions) && id !in old(openingSessions)
      ensures next.Opening? ==> InPhase(Now(), next.ref, Acquiring) && openingSessions[id] == next.ref
      ensures next.AwaitOpening? ==> id !in liveSessions && openingSessions[id] == next.ref
      ensures id in liveSessions <==> next.Locked? || next.AwaitDisposal? || next.Existing?
      ensures next.Existing? ==> InPhase(Now(), next.ref, Live) && !sessions[next.ref].terminal
      ensures next.AwaitDisposal? ==> InPhase(Now(), next.ref, Disposing)
    {
      if id in liveSessions {
        var ref := liveSessions[id];
        var existing := sessions[ref];
        if existing.terminal {
          return Locked;
        }
        if existing.disposing {
          return AwaitDisposal(ref);
        }
        return Existing(ref);
      }
      if id in openingSessions {
        return AwaitOpening(openingSessions[id]);
      }
      var pending := acquisitions;
      runtimes := runtimes + [Runtime(id, Acquiring, 0)];
      acquisitions := acquisitions + 1;
      openingSessions := openingSessions[id := pending];
      return Opening(pending);
    }

    /** `create` after the service answered: keeps the runtime, or disposes it when closing. */
    method RuntimeAcquired(ref: Ref) returns (dispose: bool)
      requires Valid() && InPhase(Now(), ref, Acquiring)
      modifies this
      ensures Stepped(Event.RuntimeAcquired(ref))
      ensures dispose <==> closing
    {
      dispose := closing;
      runtimes := SetPhase(Now(), ref, if closing then Rejecting else Checking, closing).runtimes;
    }

    /** `create` after the snapshot was read. */
    method SnapshotRead(ref: Ref, id: SessionId, good: bool, erroredEarly: bool) returns (dispose: bool)
      requires Valid() && InPhase(Now(), ref, Checking) && runtimes[ref].id == id
      modifies this
      ensures Stepped(Event.SnapshotRead(ref, good, erroredEarly))
      ensures dispose <==> !good
    {
      if !good {
        runtimes := SetPhase(Now(), ref, Rejecting, true).runtimes;
        return true;
      }
      var live := LiveSession(id, {}, 0, false, erroredEarly, false);
      runtimes := SetPhase(Now(), ref, Live, false).runtimes;
      liveSessions := liveSessions[id := ref];
      live := live.(ready := true);
      sessions := sessions[ref := live];
      return false;
    }

    /** The `finally` of `acquire`, once its pending promise has settled. */
    method OpeningSettled(ref: Ref, id: SessionId)
      requires Valid() && ref < |runtimes| && runtimes[ref].id == id && !runtimes[ref].phase.Unsettled()
      modifies this
      ensures Stepped(Event.OpeningSettled(ref))
    {
      if id in openingSessions && openingSessions[id] == ref {
        openingSessions := openingSessions - {id};
      }
    }

    method Attach(connection: ConnectionId, ref: Ref) returns (attachment: Attachment)
      requires Valid() && connection in connections && ref in sessions
      modifies this
      ensures Stepped(Event.Attach(connection, ref))
      ensures attachment.Refused? <==> old(connections[connection].disconnected || !connections[connection].accepting)
      ensures attachment.Attached? ==>
                && connection in sessions[ref].connections
                && sessions[ref].id in connections[connection].sessionIds
    {
      var c, live := connections[connection], sessions[ref];
      if c.disconnected || !c.accepting {
        return Refused;
      }
      connections := connections[connection := c.(sessionIds := c.sessionIds + {live.id})];
      sessions := sessions[ref := live.(connections := live.connections + {connection})];
      return Attached(sessions[ref]);
    }

    /** The synchronous part of the detach command. */
    method Detach(connection: ConnectionId, id: SessionId)
      requires Valid() && connection in connections
      modifies this
      ensures Stepped(Event.Detach(connection, id))
    {
      var c := connections[connection];
      if id in c.sessionIds {
        connections := connections[connection := c.(sessionIds := c.sessionIds - {id})];
        if id in liveSessions {
          var ref := liveSessions[id];
          var live := sessions[ref];
          sessions := sessions[ref := live.(connections := live.connections - {connection})];
        }
      }
    }

    /** The synchronous part of a disconnect: the connection leaves every session it was attached to. */
    method Disconnect(connection: ConnectionId)
      requires Valid() && connection in connections && !connections[connection].disconnected
      modifies this
      ensures Stepped(Event.Disconnect(connection))
    {
      var ids := connections[connection].sessionIds;
      connections := connections[connection := Connection({}, true, false)];
      sessions := LeaveSessions(liveSessions, sessions, connection, ids);
    }

    /** `requireAttached` and the start of `runOperation`. */
    method StartOperation(connection: ConnectionId, id: SessionId, ghost operation: OperationId)
      returns (started: Option<Ref>)
      requires Valid() && connection in connections && operation !in running
      modifies this
      ensures Stepped(Event.StartOperation(connection, id, operation))
      ensures started.Some? ==> InPhase(Now(), started.value, Live) && sessions[started.value].operationCount > 0
      ensures started.None? ==> Now() == old(Now())
    {
      if id !in connections[connection].sessionIds || id !in liveSessions {
        return None;
      }
      LiveIsSession(id);
      var ref := liveSessions[id];
      var live := sessions[ref];
      if live.terminal || live.disposing {
        return None;
      }
      CountOperation(ref, operation);
      return Some(ref);
    }

    method CountOperation(ref: Ref, ghost operation: OperationId)
      requires ref in sessions
      modifies this`sessions, this`running
      ensures sessions == old(sessions[ref := sessions[ref].(operationCount := sessions[ref].operationCount + 1)])
      ensures running == old(running)[operation := ref]
    {
      sessions := sessions[ref := sessions[ref].(operationCount := sessions[ref].operationCount + 1)];
      running := running[operation := ref];
    }

    lemma LiveIsSession(id: SessionId)
      requires Valid() && id in liveSessions
      ensures liveSessions[id] in sessions && InPhase(Now(), liveSessions[id], Live) == !sessions[liveSessions[id]].disposing
    {
      assert Holds(runtimes[liveSessions[id]], id);
    }

    /** The `finally` of `runOperation`. */
    method FinishOperation(ref: Ref, ghost operation: OperationId)
      requires Valid() && operation in running && running[operation] == ref
      modifies this
      ensures Stepped(Event.FinishOperation(operation))
      ensures operation !in running
    {
      SessionSafety.RunningIsCounted(sessions, running, operation);
      ghost var before := Now();
      var live := sessions[ref];
      sessions := sessions[ref := live.(operationCount := live.operationCount - 1)];
      running := running - {operation};
      assert Now() == FinishOperationStep(before, operation);
    }

    method Terminate(ref: Ref)
      requires Valid() && ref in sessions
      modifies this
      ensures Stepped(Event.Terminate(ref))
    {
      sessions := sessions[ref := sessions[ref].(terminal := true)];
    }

    /** Calls dispose when nothing holds the session any more. */
    method MaybeDispose(ref: Ref, idle: bool) returns (disposeCalled: bool)
      requires Valid() && ref in sessions
      modifies this
      ensures Stepped(Event.MaybeDispose(ref, idle))
      ensures disposeCalled ==> InPhase(old(Now()), ref, Live)
      ensures disposeCalled ==> OperationsOn(running, ref) == {} && sessions[ref].connections == {}
    {
      var live := sessions[ref];
      if closing || !live.ready || live.disposing || live.connections != {} || live.operationCount > 0
         || (!live.terminal && !idle)
      {
        return false;
      }
      runtimes := SetPhase(Now(), ref, Disposing, true).runtimes;
      sessions := sessions[ref := live.(disposing := true)];
      return true;
    }

    /** The `finally` around the dispose of `maybeDispose`. */
    method DisposeSettled(ref: Ref)
      requires Valid() && InPhase(Now(), ref, Disposing)
      modifies this
      ensures Stepped(Event.DisposeSettled(ref))
    {
      IsSession(ref);
      runtimes := SetPhase(Now(), ref, Gone, false).runtimes;
      Forget(ref, sessions[ref].id);
    }

    lemma IsSession(ref: Ref)
      requires Valid() && InPhase(Now(), ref, Disposing)
      ensures ref in sessions && sessions[ref].id == runtimes[ref].id
    {
      assert Follows(sessions[ref], runtimes[ref], stage.Cleared?);
    }

    /** Takes the session out of the table if the table still holds it. */
    method Forget(ref: Ref, id: SessionId)
      modifies this`liveSessions
      ensures liveSessions == old(if id in liveSessions && liveSessions[id] == ref then liveSessions - {id} else liveSessions)
    {
      if id in liveSessions && liveSessions[id] == ref {
        liveSessions := liveSessions - {id};
      }
    }

    /** `close` up to its first await. */
    method Close()
      requires Valid() && closing && stage.Serving?
      modifies this
      ensures Stepped(CloseSessions)
    {
      stage := Draining(openingSessions.Values, acquisitions);
    }

    /** `close` after the openings have settled: takes the table and disposes what is left in it. */
    method CloseAll() returns (disposed: set<Ref>)
      requires Valid() && stage.Draining?
      requires forall ref :: ref in stage.awaited && ref < |runtimes| ==> !runtimes[ref].phase.Unsettled()
      modifies this
      ensures Stepped(OpeningsDrained)
      ensures forall ref :: ref in disposed <==> TakenByClose(old(Now()), ref)
    {
      ghost var next := OpeningsDrainedStep(Now());
      LiveAreSessions();
      disposed := Undisposed(liveSessions.Values, sessions);
      liveSessions := map[];
      stage := Cleared(stage.mark);
      runtimes := next.runtimes;
    }

    lemma LiveAreSessions()
      requires Valid()
      ensures liveSessions.Values <= sessions.Keys
    {
      forall ref | ref in liveSessions.Values ensures ref in sessions {
        var id :| id in liveSessions && liveSessions[id] == ref;
        assert Holds(runtimes[liveSessions[id]], id);
      }
    }
  }

  /** The loop of `close` over the sessions it has taken from the table. */
  method Undisposed(taken: set<Ref>, sessions: map<Ref, LiveSession>) returns (disposed: set<Ref>)
    requires taken <= sessions.Keys
    ensures forall ref :: ref in disposed <==> ref in taken && !sessions[ref].disposing
  {
    disposed := {};
    var remaining := taken;
    while remaining != {}
      invariant remaining <= taken
      invariant forall ref :: ref in disposed <==> ref in taken - remaining && !sessions[ref].disposing
      decreases |remaining|
    {
      var ref :| ref in remaining;
      remaining := remaining - {ref};
      if !sessions[ref].disposing {
        disposed := disposed + {ref};
      }
    }
  }
}
