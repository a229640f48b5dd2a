/**
 Every step of the session protocol keeps its invariant, and what follows for every run: one runtime
 per session id, no operation on a runtime being disposed, dispose at most once, no leaked
 membership, and a complete shutdown.
 */
module SessionSafety {
  import opened Prelude
  import opened SessionProtocol

  /** The sessions differ at most in their members and flags. */
  ghost predicate SameRows(before: map<Ref, LiveSession>, after: map<Ref, LiveSession>) {
    after.Keys == before.Keys && forall ref :: ref in before ==> SameRow(before[ref], after[ref])
  }

  predicate SameRow(before: LiveSession, after: LiveSession) {
    after.id == before.id && after.disposing == before.disposing && after.operationCount == before.operationCount
  }

  lemma CountsUnchanged(before: map<Ref, LiveSession>, after: map<Ref, LiveSession>, running: map<OperationId, Ref>)
    requires OperationsCounted(before, running) && SameRows(before, after)
    ensures OperationsCounted(after, running)
  {
    forall ref | ref in after ensures after[ref].operationCount == |OperationsOn(running, ref)| {
      assert SameRow(before[ref], after[ref]);
    }
  }

  /** One session changes, but not its members. */
  lemma RowListed(live: Table, sessions: map<Ref, LiveSession>, ref: Ref, row: LiveSession, connections: map<ConnectionId, Connection>)
    requires MembersListed(live, sessions, connections) && ref in sessions && row.connections == sessions[ref].connections
    ensures MembersListed(live, sessions[ref := row], connections)
  {
  }

  lemma RowCounted(sessions: map<Ref, LiveSession>, ref: Ref, row: LiveSession, running: map<OperationId, Ref>)
    requires OperationsCounted(sessions, running) && ref in sessions && row.operationCount == sessions[ref].operationCount
    ensures OperationsCounted(sessions[ref := row], running)
  {
  }

  lemma RowSame(sessions: map<Ref, LiveSession>, ref: Ref, row: LiveSession)
    requires ref in sessions && SameRow(sessions[ref], row)
    ensures SameRows(sessions, sessions[ref := row])
  {
  }

  lemma RowsUnchanged(before: map<Ref, LiveSession>, after: map<Ref, LiveSession>, runtimes: seq<Runtime>, cleared: bool)
    requires SessionsFollow(before, runtimes, cleared) && SameRows(before, after)
    ensures SessionsFollow(after, runtimes, cleared)
  {
    forall ref | ref in after ensures ref < |runtimes| && Follows(after[ref], runtimes[ref], cleared) {
      assert SameRow(before[ref], after[ref]) && Follows(before[ref], runtimes[ref], cleared);
    }
  }

  /** A step that only changes members and flags keeps the invariant if the members are listed. */
  lemma MembersKeep(s: State, t: State)
    requires Inv(s) && t == s.(connections := t.connections, sessions := t.sessions)
    requires SameRows(s.sessions, t.sessions) && MembersListed(t.live, t.sessions, t.connections)
    ensures Inv(t)
  {
    RowsUnchanged(s.sessions, t.sessions, s.runtimes, s.stage.Cleared?);
    CountsUnchanged(s.sessions, t.sessions, s.running);
  }

  // ---------- opening ----------

  lemma OneMoreOpening(live: Table, opening: Table, runtimes: seq<Runtime>, closing: bool, stage: CloseStage, id: SessionId)
    requires TableInv(live, opening, runtimes, closing, stage) && id !in live && id !in opening
    ensures var more := runtimes + [Runtime(id, Acquiring, 0)];
            TablesAgree(live, opening[id := |runtimes|], more) && DisposedOnce(more)
  {
  }

  lemma OneMoreTabled(live: Table, opening: Table, runtimes: seq<Runtime>, closing: bool, stage: CloseStage, id: SessionId)
    requires TableInv(live, opening, runtimes, closing, stage) && id !in live && id !in opening
    ensures var more := runtimes + [Runtime(id, Acquiring, 0)];
            && RuntimesTabled(live, opening[id := |runtimes|], more, stage.Cleared?)
            && CloseProgress(live, more, closing, stage)
  {
  }

  lemma AcquireKeeps(s: State, id: SessionId)
    requires Inv(s)
    ensures Inv(AcquireStep(s, id))
  {
    if id !in s.live && id !in s.opening {
      OneMoreOpening(s.live, s.opening, s.runtimes, s.closing, s.stage, id);
      OneMoreTabled(s.live, s.opening, s.runtimes, s.closing, s.stage, id);
    }
  }

  /** The moves of a runtime that no session holds yet, or that `close` has taken. */
  ghost predicate Moves(s: State, from: Phase, to: Phase, disposeCall: bool) {
    match from
    case Acquiring =>
      (to.Failed? && !disposeCall) || (to.Rejecting? && disposeCall) || (to.Checking? && !disposeCall && !s.closing)
    case Checking => to.Rejecting? && disposeCall
    case Rejecting => to.Gone? && !disposeCall
    case ClosingDown => to.Gone? && !disposeCall
    case _ => false
  }

  lemma MoveKeepsTables(s: State, ref: Ref, to: Phase, disposeCall: bool)
    requires Inv(s) && ref < |s.runtimes| && Moves(s, s.runtimes[ref].phase, to, disposeCall)
    ensures var t := SetPhase(s, ref, to, disposeCall); TablesAgree(t.live, t.opening, t.runtimes) && DisposedOnce(t.runtimes)
  {
  }

  lemma MoveKeepsTabled(s: State, ref: Ref, to: Phase, disposeCall: bool)
    requires Inv(s) && ref < |s.runtimes| && Moves(s, s.runtimes[ref].phase, to, disposeCall)
    ensures var t := SetPhase(s, ref, to, disposeCall);
            RuntimesTabled(t.live, t.opening, t.runtimes, t.stage.Cleared?) && CloseProgress(t.live, t.runtimes, t.closing, t.stage)
  {
  }

  lemma MoveKeeps(s: State, ref: Ref, to: Phase, disposeCall: bool)
    requires Inv(s) && ref < |s.runtimes| && Moves(s, s.runtimes[ref].phase, to, disposeCall)
    ensures Inv(SetPhase(s, ref, to, disposeCall))
  {
    MoveKeepsTables(s, ref, to, disposeCall);
    MoveKeepsTabled(s, ref, to, disposeCall);
  }

  lemma GoodSnapshotTabled(s: State, ref: Ref, erroredEarly: bool)
    requires Inv(s) && InPhase(s, ref, Checking)
    ensures var t := SnapshotReadStep(s, ref, true, erroredEarly);
            TablesAgree(t.live, t.opening, t.runtimes) && RuntimesTabled(t.live, t.opening, t.runtimes, t.stage.Cleared?)
  {
  }

  lemma GoodSnapshotKeepsClose(s: State, ref: Ref, erroredEarly: bool)
    requires Inv(s) && InPhase(s, ref, Checking)
    ensures var t := SnapshotReadStep(s, ref, true, erroredEarly);
            DisposedOnce(t.runtimes) && CloseProgress(t.live, t.runtimes, t.closing, t.stage)
  {
  }

  lemma GoodSnapshotKeepsSessions(s: State, ref: Ref, erroredEarly: bool)
    requires Inv(s) && InPhase(s, ref, Checking)
    ensures var t := SnapshotReadStep(s, ref, true, erroredEarly);
            SessionsFollow(t.sessions, t.runtimes, t.stage.Cleared?) && MembersListed(t.live, t.sessions, t.connections)
  {
    assert ref !in s.sessions;
  }

  lemma NewSessionCounted(sessions: map<Ref, LiveSession>, running: map<OperationId, Ref>, ref: Ref, row: LiveSession)
    requires OperationsCounted(sessions, running) && ref !in sessions && row.operationCount == 0
    ensures OperationsCounted(sessions[ref := row], running)
  {
    assert OperationsOn(running, ref) == {};
  }

  lemma GoodSnapshotKeeps(s: State, ref: Ref, erroredEarly: bool)
    requires Inv(s) && InPhase(s, ref, Checking)
    ensures Inv(SnapshotReadStep(s, ref, true, erroredEarly))
  {
    GoodSnapshotTabled(s, ref, erroredEarly);
    GoodSnapshotKeepsClose(s, ref, erroredEarly);
    GoodSnapshotKeepsSessions(s, ref, erroredEarly);
    assert ref !in s.sessions;
    NewSessionCounted(s.sessions, s.running, ref, LiveSession(s.runtimes[ref].id, {}, 0, true, erroredEarly, false));
  }

  lemma OpeningSettledKeeps(s: State, ref: Ref)
    requires Inv(s)
    ensures Inv(OpeningSettledStep(s, ref))
  {
  }

  // ---------- membership ----------

  /** Steps on the connections alone: a new one, or one that is no longer served. */
  lemma ConnectionsKeep(s: State, t: State)
    requires Inv(s) && t == s.(connections := t.connections)
    requires forall c :: c in s.connections ==>
               && c in t.connections && t.connections[c].sessionIds == s.connections[c].sessionIds
               && t.connections[c].disconnected == s.connections[c].disconnected
    requires forall c :: c in t.connections && c !in s.connections ==> t.connections[c].sessionIds == {}
    ensures Inv(t)
  {
  }

  lemma AttachListsMember(s: State, connection: ConnectionId, ref: Ref)
    requires Inv(s)
    ensures var t := AttachStep(s, connection, ref); MembersListed(t.live, t.sessions, t.connections)
  {
  }

  lemma AttachKeeps(s: State, connection: ConnectionId, ref: Ref)
    requires Inv(s)
    ensures Inv(AttachStep(s, connection, ref))
  {
    AttachListsMember(s, connection, ref);
    AttachSameRows(s, connection, ref);
    MembersKeep(s, AttachStep(s, connection, ref));
  }

  lemma AttachSameRows(s: State, connection: ConnectionId, ref: Ref)
    ensures SameRows(s.sessions, AttachStep(s, connection, ref).sessions)
  {
  }

  lemma DetachUnlistsMember(s: State, connection: ConnectionId, id: SessionId)
    requires Inv(s)
    ensures var t := DetachStep(s, connection, id); MembersListed(t.live, t.sessions, t.connections)
  {
  }

  lemma DetachKeeps(s: State, connection: ConnectionId, id: SessionId)
    requires Inv(s)
    ensures Inv(DetachStep(s, connection, id))
  {
    DetachUnlistsMember(s, connection, id);
    LeaveSameRows(s, connection, id);
    MembersKeep(s, DetachStep(s, connection, id));
  }

  lemma LeaveSameRows(s: State, connection: ConnectionId, id: SessionId)
    ensures SameRows(s.sessions, s.sessions) && SameRows(s.sessions, Leave(s, connection, id))
  {
  }

  lemma DisconnectUnlistsMember(s: State, connection: ConnectionId)
    requires Inv(s)
    ensures var t := DisconnectStep(s, connection); MembersListed(t.live, t.sessions, t.connections)
  {
  }

  lemma DisconnectKeeps(s: State, connection: ConnectionId)
    requires Inv(s)
    ensures Inv(DisconnectStep(s, connection))
  {
    DisconnectUnlistsMember(s, connection);
    DisconnectSameRows(s, connection);
    MembersKeep(s, DisconnectStep(s, connection));
  }

  lemma DisconnectSameRows(s: State, connection: ConnectionId)
    ensures SameRows(s.sessions, DisconnectStep(s, connection).sessions)
  {
  }

  // ---------- operations ----------

  /** A step that changes the count of one session and the operations on it. */
  lemma OperationsKeep(s: State, ref: Ref, count: nat, running: map<OperationId, Ref>)
    requires Inv(s) && ref in s.sessions && (count > 0 ==> !s.sessions[ref].disposing)
    requires OperationsCounted(s.sessions[ref := s.sessions[ref].(operationCount := count)], running)
    ensures Inv(s.(sessions := s.sessions[ref := s.sessions[ref].(operationCount := count)], running := running))
  {
    CountedFollow(s.sessions, ref, count, s.runtimes, s.stage.Cleared?);
    RowListed(s.live, s.sessions, ref, s.sessions[ref].(operationCount := count), s.connections);
  }

  lemma CountedFollow(sessions: map<Ref, LiveSession>, ref: Ref, count: nat, runtimes: seq<Runtime>, cleared: bool)
    requires SessionsFollow(sessions, runtimes, cleared) && ref in sessions && (count > 0 ==> !sessions[ref].disposing)
    ensures SessionsFollow(sessions[ref := sessions[ref].(operationCount := count)], runtimes, cleared)
  {
    assert Follows(sessions[ref], runtimes[ref], cleared);
  }

  lemma StartOperationKeeps(s: State, connection: ConnectionId, id: SessionId, operation: OperationId)
    requires Inv(s)
    ensures Inv(StartOperationStep(s, connection, id, operation))
  {
    if id in s.live && s.live[id] in s.sessions && operation !in s.running && !s.sessions[s.live[id]].disposing {
      var ref := s.live[id];
      OperationStarted(s.sessions, s.running, ref, operation);
      OperationsKeep(s, ref, s.sessions[ref].operationCount + 1, s.running[operation := ref]);
    }
  }

  lemma OperationStarted(sessions: map<Ref, LiveSession>, running: map<OperationId, Ref>, ref: Ref, operation: OperationId)
    requires OperationsCounted(sessions, running) && ref in sessions && operation !in running
    ensures OperationsCounted(
              sessions[ref := sessions[ref].(operationCount := sessions[ref].operationCount + 1)],
              running[operation := ref])
  {
    var now := running[operation := ref];
    assert OperationsOn(now, ref) == OperationsOn(running, ref) + {operation};
    forall other | other in sessions && other != ref ensures OperationsOn(now, other) == OperationsOn(running, other) {
    }
  }

  lemma FinishOperationKeeps(s: State, operation: OperationId)
    requires Inv(s)
    ensures Inv(FinishOperationStep(s, operation))
  {
    if operation in s.running {
      var ref := s.running[operation];
      OperationFinished(s.sessions, s.running, operation);
      assert Follows(s.sessions[ref], s.runtimes[ref], s.stage.Cleared?);
      OperationsKeep(s, ref, s.sessions[ref].operationCount - 1, s.running - {operation});
    }
  }

  lemma RunningIsCounted(sessions: map<Ref, LiveSession>, running: map<OperationId, Ref>, operation: OperationId)
    requires OperationsCounted(sessions, running) && operation in running
    ensures running[operation] in sessions && sessions[running[operation]].operationCount > 0
  {
    assert operation in OperationsOn(running, running[operation]);
  }

  lemma OperationFinished(sessions: map<Ref, LiveSession>, running: map<OperationId, Ref>, operation: OperationId)
    requires OperationsCounted(sessions, running) && operation in running
    ensures var ref := running[operation];
            && sessions[ref].operationCount > 0
            && OperationsCounted(
                 sessions[ref := sessions[ref].(operationCount := sessions[ref].operationCount - 1)],
                 running - {operation})
  {
    var ref := running[operation];
    var now := running - {operation};
    assert operation in OperationsOn(running, ref);
    assert OperationsOn(now, ref) == OperationsOn(running, ref) - {operation};
    forall other | other in sessions && other != ref ensures OperationsOn(now, other) == OperationsOn(running, other) {
    }
  }

  lemma TerminateKeeps(s: State, ref: Ref)
    requires Inv(s)
    ensures Inv(TerminateStep(s, ref))
  {
    if ref in s.sessions {
      var row := s.sessions[ref].(terminal := true);
      RowListed(s.live, s.sessions, ref, row, s.connections);
      RowSame(s.sessions, ref, row);
      MembersKeep(s, TerminateStep(s, ref));
    }
  }

  // ---------- disposal ----------

  lemma MaybeDisposeLeavesTable(s: State, ref: Ref, idle: bool)
    requires Inv(s)
    ensures var t := MaybeDisposeStep(s, ref, idle); TablesAgree(t.live, t.opening, t.runtimes) && DisposedOnce(t.runtimes)
  {
    if ref in s.sessions {
      assert Follows(s.sessions[ref], s.runtimes[ref], s.stage.Cleared?);
    }
  }

  lemma MaybeDisposeKeepsTabled(s: State, ref: Ref, idle: bool)
    requires Inv(s)
    ensures var t := MaybeDisposeStep(s, ref, idle); RuntimesTabled(t.live, t.opening, t.runtimes, t.stage.Cleared?)
  {
    if ref in s.sessions {
      assert Follows(s.sessions[ref], s.runtimes[ref], s.stage.Cleared?);
    }
  }

  lemma MaybeDisposeKeepsClose(s: State, ref: Ref, idle: bool)
    requires Inv(s)
    ensures var t := MaybeDisposeStep(s, ref, idle); CloseProgress(t.live, t.runtimes, t.closing, t.stage)
  {
    if ref in s.sessions {
      assert Follows(s.sessions[ref], s.runtimes[ref], s.stage.Cleared?);
    }
  }

  lemma MaybeDisposeKeepsSessions(s: State, ref: Ref, idle: bool)
    requires Inv(s)
    ensures var t := MaybeDisposeStep(s, ref, idle); SessionsFollow(t.sessions, t.runtimes, t.stage.Cleared?)
  {
    if ref in s.sessions {
      assert Follows(s.sessions[ref], s.runtimes[ref], s.stage.Cleared?);
    }
  }

  lemma MaybeDisposeKeeps(s: State, ref: Ref, idle: bool)
    requires Inv(s)
    ensures Inv(MaybeDisposeStep(s, ref, idle))
  {
    MaybeDisposeLeavesTable(s, ref, idle);
    MaybeDisposeKeepsTabled(s, ref, idle);
    MaybeDisposeKeepsClose(s, ref, idle);
    MaybeDisposeKeepsSessions(s, ref, idle);
    if ref in s.sessions {
      var row := s.sessions[ref].(disposing := true);
      RowListed(s.live, s.sessions, ref, row, s.connections);
      RowCounted(s.sessions, ref, row, s.running);
    }
  }

  lemma SettledLeavesTable(s: State, ref: Ref)
    requires Inv(s)
    ensures var t := DisposeSettledStep(s, ref); TablesAgree(t.live, t.opening, t.runtimes)
  {
  }

  lemma SettledDisposedOnce(s: State, ref: Ref)
    requires Inv(s)
    ensures DisposedOnce(DisposeSettledStep(s, ref).runtimes)
  {
  }

  lemma SettledKeepsTabled(s: State, ref: Ref)
    requires Inv(s)
    ensures var t := DisposeSettledStep(s, ref); RuntimesTabled(t.live, t.opening, t.runtimes, t.stage.Cleared?)
  {
    if InPhase(s, ref, Disposing) {
      var t := DisposeSettledStep(s, ref);
      forall r | 0 <= r < |t.runtimes| ensures Tabled(t.live, t.opening, r, t.runtimes[r], t.stage.Cleared?) {
        SettledKeepsOneTabled(s, ref, r);
      }
    }
  }

  lemma SettledKeepsOneTabled(s: State, ref: Ref, r: Ref)
    requires InPhase(s, ref, Disposing) && r < |s.runtimes| && Tabled(s.live, s.opening, r, s.runtimes[r], s.stage.Cleared?)
    ensures var t := DisposeSettledStep(s, ref); Tabled(t.live, t.opening, r, t.runtimes[r], t.stage.Cleared?)
  {
  }

  lemma SettledKeepsClose(s: State, ref: Ref)
    requires Inv(s)
    ensures var t := DisposeSettledStep(s, ref); CloseProgress(t.live, t.runtimes, t.closing, t.stage)
  {
  }

  lemma DisposeSettledKeeps(s: State, ref: Ref)
    requires Inv(s)
    ensures Inv(DisposeSettledStep(s, ref))
  {
    SettledLeavesTable(s, ref);
    SettledDisposedOnce(s, ref);
    SettledKeepsTabled(s, ref);
    SettledKeepsClose(s, ref);
  }

  lemma DrainedTablesAgree(s: State)
    requires Inv(s)
    ensures var t := OpeningsDrainedStep(s);
            TablesAgree(t.live, t.opening, t.runtimes) && DisposedOnce(t.runtimes)
  {
  }

  lemma DrainedRuntimesTabled(s: State)
    requires Inv(s)
    ensures var t := OpeningsDrainedStep(s); RuntimesTabled(t.live, t.opening, t.runtimes, t.stage.Cleared?)
  {
  }

  lemma DrainedClosed(s: State)
    requires Inv(s)
    ensures var t := OpeningsDrainedStep(s); CloseProgress(t.live, t.runtimes, t.closing, t.stage)
  {
  }

  lemma OpeningsDrainedKeeps(s: State)
    requires Inv(s)
    ensures Inv(OpeningsDrainedStep(s))
  {
    DrainedTablesAgree(s);
    DrainedRuntimesTabled(s);
    DrainedClosed(s);
  }

  lemma CloseFlagsKeep(s: State)
    requires Inv(s)
    ensures Inv(s.(closing := true))
    ensures s.closing && s.stage.Serving? ==> Inv(s.(stage := Draining(s.opening.Values, |s.runtimes|)))
  {
  }

  predicate IsRuntimeEvent(event: Event) {
    event.Acquire? || event.RuntimeAcquired? || event.AcquireFailed? || event.SnapshotRead?
    || event.RejectedDisposed? || event.OpeningSettled? || event.CloseDisposeSettled?
  }

  predicate IsConnectionEvent(event: Event) {
    event.Connect? || event.StopAccepting? || event.Attach? || event.Detach? || event.Disconnect?
  }

  lemma RuntimeStepKeeps(s: State, event: Event)
    requires Inv(s) && IsRuntimeEvent(event)
    ensures Inv(Step(s, event))
  {
    match event
    case Acquire(id) => AcquireKeeps(s, id);
    case RuntimeAcquired(ref) =>
      if InPhase(s, ref, Acquiring) { MoveKeeps(s, ref, if s.closing then Rejecting else Checking, s.closing); }
    case AcquireFailed(ref) => if InPhase(s, ref, Acquiring) { MoveKeeps(s, ref, Failed, false); }
    case SnapshotRead(ref, good, erroredEarly) =>
      if InPhase(s, ref, Checking) {
        if good {
          GoodSnapshotKeeps(s, ref, erroredEarly);
        } else {
          MoveKeeps(s, ref, Rejecting, true);
        }
      }
    case RejectedDisposed(ref) => if InPhase(s, ref, Rejecting) { MoveKeeps(s, ref, Gone, false); }
    case OpeningSettled(ref) => OpeningSettledKeeps(s, ref);
    case CloseDisposeSettled(ref) => if InPhase(s, ref, ClosingDown) { MoveKeeps(s, ref, Gone, false); }
  }

  lemma ConnectKeeps(s: State, connection: ConnectionId)
    requires Inv(s)
    ensures Inv(Step(s, Connect(connection)))
  {
    if connection !in s.connections {
      ConnectionsKeep(s, s.(connections := s.connections[connection := Connection({}, false, true)]));
    }
  }

  lemma StopAcceptingKeeps(s: State, connection: ConnectionId)
    requires Inv(s)
    ensures Inv(Step(s, StopAccepting(connection)))
  {
    if connection in s.connections {
      ConnectionsKeep(s, s.(connections := s.connections[connection := s.connections[connection].(accepting := false)]));
    }
  }

  lemma ConnectionStepKeeps(s: State, event: Event)
    requires Inv(s) && IsConnectionEvent(event)
    ensures Inv(Step(s, event))
  {
    if event.Attach? {
      AttachKeeps(s, event.connection, event.ref);
    } else if event.Detach? {
      DetachKeeps(s, event.connection, event.id);
    } else if event.Disconnect? {
      DisconnectKeeps(s, event.connection);
    } else if event.Connect? {
      ConnectKeeps(s, event.connection);
    } else {
      StopAcceptingKeeps(s, event.connection);
    }
  }

  /** Every step keeps the invariant. */
  lemma StepKeepsInv(s: State, event: Event)
    requires Inv(s)
    ensures Inv(Step(s, event))
  {
    if IsRuntimeEvent(event) {
      RuntimeStepKeeps(s, event);
    } else if IsConnectionEvent(event) {
      ConnectionStepKeeps(s, event);
    } else {
      match event
      case StartOperation(connection, id, operation) => StartOperationKeeps(s, connection, id, operation);
      case FinishOperation(operation) => FinishOperationKeeps(s, operation);
      case Terminate(ref) => TerminateKeeps(s, ref);
      case MaybeDispose(ref, idle) => MaybeDisposeKeeps(s, ref, idle);
      case DisposeSettled(ref) => DisposeSettledKeeps(s, ref);
      case BeginClosing => CloseFlagsKeep(s);
      case CloseSessions => CloseFlagsKeep(s);
      case OpeningsDrained => OpeningsDrainedKeeps(s);
    }
  }

  lemma {:induction false} RunKeepsInv(s: State, events: seq<Event>)
    requires Inv(s)
    ensures Inv(Run(s, events))
    decreases |events|
  {
    if events != [] {
      StepKeepsInv(s, events[0]);
      RunKeepsInv(Step(s, events[0]), events[1..]);
    }
  }

  // ---------- what holds in every run ----------

  /** Until `close` takes the table, at most one runtime per session id is between the start of its
      acquisition and the end of its dispose, whatever the interleaving. */
  lemma MutualExclusion(events: seq<Event>, first: Ref, second: Ref)
    ensures var s := Run(INITIAL, events);
            !s.stage.Cleared? && first < |s.runtimes| && second < |s.runtimes|
            && s.runtimes[first].id == s.runtimes[second].id
            && s.runtimes[first].phase.InUse() && s.runtimes[second].phase.InUse()
            ==> first == second
  {
    RunKeepsInv(INITIAL, events);
    var s := Run(INITIAL, events);
    if first < |s.runtimes| && !s.stage.Cleared? {
      assert Tabled(s.live, s.opening, first, s.runtimes[first], false);
      assert second < |s.runtimes| ==> Tabled(s.live, s.opening, second, s.runtimes[second], false);
    }
  }

  /** At most one runtime of the id is in use. */
  ghost predicate OneInUse(s: State, id: SessionId) {
    forall first, second :: 0 <= first < |s.runtimes| && 0 <= second < |s.runtimes| && Uses(s, first, id) && Uses(s, second, id)
                            ==> first == second
  }

  predicate Uses(s: State, ref: Ref, id: SessionId)
    requires ref < |s.runtimes|
  {
    s.runtimes[ref].id == id && s.runtimes[ref].phase.InUse()
  }

  /** A runtime of the id is in use that `acquire` does not find: close has emptied the table, and the
      openings do not name it. */
  ghost predicate Overlooked(s: State, id: SessionId) {
    s.stage.Cleared? && id !in s.opening && exists ref :: 0 <= ref < |s.runtimes| && Uses(s, ref, id)
  }

  /** An acquisition brings in a second runtime exactly if one of the id is overlooked. */
  lemma AcquireBreaksExclusionIff(s: State, id: SessionId)
    requires Inv(s) && OneInUse(s, id)
    ensures !OneInUse(AcquireStep(s, id), id) <==> Overlooked(s, id)
  {
    var t := AcquireStep(s, id);
    if id !in s.live && id !in s.opening {
      assert forall r :: 0 <= r < |s.runtimes| ==> t.runtimes[r] == s.runtimes[r];
      assert Uses(t, |s.runtimes|, id);
      if ref :| 0 <= ref < |s.runtimes| && Uses(s, ref, id) {
        assert Tabled(s.live, s.opening, ref, s.runtimes[ref], s.stage.Cleared?);
        assert Uses(t, ref, id) && s.stage.Cleared?;
      } else {
        forall r | 0 <= r < |s.runtimes| ensures !Uses(t, r, id) {
          assert !Uses(s, r, id);
        }
      }
    }
  }

  /** A session opened once, as the first of all. */
  function Opening(id: SessionId): seq<Event> {
    [Acquire(id), RuntimeAcquired(0), SnapshotRead(0, true, false), OpeningSettled(0)]
  }

  /** The server closes, and the id is asked for again before the old runtime is disposed. */
  function ClosingAndReopening(id: SessionId): seq<Event> {
    [BeginClosing, CloseSessions, OpeningsDrained, Acquire(id)]
  }

  function OneLive(id: SessionId): State {
    INITIAL.(live := map[id := 0], sessions := map[0 := LiveSession(id, {}, 0, true, false, false)],
             runtimes := [Runtime(id, Live, 0)])
  }

  lemma RunFour(s: State, a: Event, b: Event, c: Event, d: Event)
    ensures Run(s, [a, b, c, d]) == Step(Step(Step(Step(s, a), b), c), d)
  {
    assert [a, b, c, d][1..] == [b, c, d] && [b, c, d][1..] == [c, d] && [c, d][1..] == [d] && [d][1..] == [];
    assert Run(s, [a, b, c, d]) == Run(Step(s, a), [b, c, d]) == Run(Step(Step(s, a), b), [c, d]);
    assert Run(Step(Step(s, a), b), [c, d]) == Run(Step(Step(Step(s, a), b), c), [d]);
  }

  lemma OpeningLeadsToOneLive(id: SessionId)
    ensures Run(INITIAL, Opening(id)) == OneLive(id)
  {
    RunFour(INITIAL, Acquire(id), RuntimeAcquired(0), SnapshotRead(0, true, false), OpeningSettled(0));
    var s := Step(Step(Step(INITIAL, Acquire(id)), RuntimeAcquired(0)), SnapshotRead(0, true, false));
    assert s.opening - {id} == map[];
  }

  lemma {:induction false} RunInTwoParts(s: State, first: seq<Event>, second: seq<Event>)
    ensures Run(s, first + second) == Run(Run(s, first), second)
    decreases |first|
  {
    if first == [] {
      assert first + second == second;
    } else {
      assert (first + second)[1..] == first[1..] + second;
      RunInTwoParts(Step(s, first[0]), first[1..], second);
    }
  }

  /** After `close` has taken the table the same id can be opened again while the old runtime is
      still being disposed: the bound in `MutualExclusion` is not an artefact. */
  lemma ExclusionEndsWithClose(id: SessionId)
    ensures var s := Run(INITIAL, Opening(id) + ClosingAndReopening(id));
            && s.stage.Cleared? && |s.runtimes| == 2
            && s.runtimes[0] == Runtime(id, ClosingDown, 1) && s.runtimes[1] == Runtime(id, Acquiring, 0)
  {
    RunInTwoParts(INITIAL, Opening(id), ClosingAndReopening(id));
    OpeningLeadsToOneLive(id);
    var s := OneLive(id);
    RunFour(s, BeginClosing, CloseSessions, OpeningsDrained, Acquire(id));
    assert s.live[id] == 0;
    var t := Step(Step(s, BeginClosing), CloseSessions);
    assert TakenByClose(t, 0);
    assert Step(t, OpeningsDrained).runtimes == [Runtime(id, ClosingDown, 1)];
  }

  /** A connection listed by a session in the table knows that it is attached; so a disconnected
      connection is listed by none, even if an attach resumes after the disconnect. */
  lemma NoLeakedMembership(events: seq<Event>, id: SessionId, connection: ConnectionId)
    ensures var s := Run(INITIAL, events);
            id in s.live && s.live[id] in s.sessions && connection in s.sessions[s.live[id]].connections ==>
              && connection in s.connections
              && id in s.connections[connection].sessionIds
              && !s.connections[connection].disconnected
  {
    RunKeepsInv(INITIAL, events);
  }

  /** A session that is being disposed, or has been, has no operation running. */
  lemma NoOperationOnDisposed(events: seq<Event>, ref: Ref)
    ensures var s := Run(INITIAL, events);
            ref in s.sessions && s.sessions[ref].disposing ==> OperationsOn(s.running, ref) == {}
  {
    RunKeepsInv(INITIAL, events);
  }

  /** Disposal is for ever, so no operation can start on the session in any continuation. */
  lemma {:induction false} NoOperationAfterDisposal(s: State, events: seq<Event>, ref: Ref)
    requires Inv(s) && ref in s.sessions && s.sessions[ref].disposing
    ensures var t := Run(s, events);
            ref in t.sessions && t.sessions[ref].disposing && OperationsOn(t.running, ref) == {}
    decreases |events|
  {
    if events != [] {
      StepKeepsInv(s, events[0]);
      DisposingStays(s, events[0], ref);
      NoOperationAfterDisposal(Step(s, events[0]), events[1..], ref);
    }
  }

  lemma DisposingStays(s: State, event: Event, ref: Ref)
    requires Inv(s) && ref in s.sessions && s.sessions[ref].disposing
    ensures ref in Step(s, event).sessions && Step(s, event).sessions[ref].disposing
  {
    if IsRuntimeEvent(event) {
      RuntimeStepLeaves(s, event, ref);
    } else if IsConnectionEvent(event) {
      ConnectionStepLeaves(s, event, ref);
    } else {
      OtherStepLeaves(s, event, ref);
    }
  }

  lemma OtherStepLeaves(s: State, event: Event, ref: Ref)
    requires Inv(s) && ref in s.sessions && s.sessions[ref].disposing && !IsRuntimeEvent(event) && !IsConnectionEvent(event)
    ensures ref in Step(s, event).sessions && Step(s, event).sessions[ref].disposing
  {
  }

  lemma RuntimeStepLeaves(s: State, event: Event, ref: Ref)
    requires SessionsFollow(s.sessions, s.runtimes, s.stage.Cleared?) && ref in s.sessions && IsRuntimeEvent(event)
    ensures ref in Step(s, event).sessions && Step(s, event).sessions[ref] == s.sessions[ref]
  {
    assert Follows(s.sessions[ref], s.runtimes[ref], s.stage.Cleared?);
    if event.SnapshotRead? {
      assert InPhase(s, event.ref, Checking) ==> event.ref != ref;
    } else {
      assert Step(s, event).sessions == s.sessions;
    }
  }

  lemma ConnectionStepLeaves(s: State, event: Event, ref: Ref)
    requires ref in s.sessions && IsConnectionEvent(event)
    ensures ref in Step(s, event).sessions && Step(s, event).sessions[ref].disposing == s.sessions[ref].disposing
  {
  }

  /** Dispose is called at most once on every runtime, counting `create`, `maybeDispose` and `close`. */
  lemma DisposeAtMostOnce(events: seq<Event>, ref: Ref)
    ensures var s := Run(INITIAL, events);
            ref < |s.runtimes| ==> s.runtimes[ref].disposeCalls <= 1
  {
    RunKeepsInv(INITIAL, events);
    var s := Run(INITIAL, events);
    assert ref < |s.runtimes| ==> CallsFitPhase(s.runtimes[ref]);
  }

  /** When `close` has taken the table, every runtime whose acquisition had begun before it has had
      dispose called exactly once, unless the service never produced it. */
  lemma CloseIsComplete(events: seq<Event>, ref: Ref)
    ensures var s := Run(INITIAL, events);
            s.stage.Cleared? && ref < s.stage.mark ==>
              ref < |s.runtimes| && (s.runtimes[ref].phase.Failed? || s.runtimes[ref].disposeCalls == 1)
  {
    RunKeepsInv(INITIAL, events);
    var s := Run(INITIAL, events);
    if s.stage.Cleared? && ref < s.stage.mark {
      assert CallsFitPhase(s.runtimes[ref]);
    }
  }
}
