/**
 The live session manager of packages/server/src/sessions.ts as a state machine. One step is one
 stretch of code between two awaits; every interleaving of the asynchronous commands is a sequence
 of steps. Service calls, snapshots, phases and runtime events are arbitrary step outcomes.

 A runtime is named by the number of the acquisition that produces it, and so is its LiveSession.
 */
module SessionProtocol {
  import opened Prelude

  type SessionId = nat
  type Ref = nat
  type ConnectionId = nat
  type OperationId = nat

  datatype Phase =
    | Acquiring    // the service has been asked for the runtime
    | Checking     // the runtime is there, its snapshot is being read
    | Rejecting    // `create` disposes the runtime it cannot use
    | Live         // a LiveSession holds the runtime
    | Disposing    // `maybeDispose` has called dispose
    | ClosingDown  // `close` has called dispose
    | Gone         // dispose has settled
    | Failed       // the service produced no runtime
  {
    /** The promise in `openingSessions` is still pending. */
    predicate Unsettled() {
      Acquiring? || Checking? || Rejecting?
    }

    /** Between the start of the acquisition and the end of dispose. */
    predicate InUse() {
      !Gone? && !Failed?
    }
  }

  datatype Runtime = Runtime(id: SessionId, phase: Phase, disposeCalls: nat)

  datatype LiveSession = LiveSession(
    id: SessionId,
    connections: set<ConnectionId>,
    operationCount: nat,
    ready: bool,
    terminal: bool,
    disposing: bool)

  datatype Connection = Connection(sessionIds: set<SessionId>, disconnected: bool, accepting: bool)

  datatype CloseStage =
    | Serving
    | Draining(awaited: set<Ref>, mark: nat)  // close() awaits the openings it found
    | Cleared(mark: nat)                      // close() has taken the table and called dispose

  datatype State = State(
    live: map<SessionId, Ref>,
    opening: map<SessionId, Ref>,
    sessions: map<Ref, LiveSession>,
    connections: map<ConnectionId, Connection>,
    closing: bool,
    stage: CloseStage,
    runtimes: seq<Runtime>,
    running: map<OperationId, Ref>)

  const INITIAL := State(map[], map[], map[], map[], false, Serving, [], map[])

  datatype Event =
    | Connect(connection: ConnectionId)
    | StopAccepting(connection: ConnectionId)
    | Acquire(id: SessionId)
    | RuntimeAcquired(ref: Ref)
    | AcquireFailed(ref: Ref)
    | SnapshotRead(ref: Ref, good: bool, erroredEarly: bool)
    | RejectedDisposed(ref: Ref)
    | OpeningSettled(ref: Ref)
    | Attach(connection: ConnectionId, ref: Ref)
    | Detach(connection: ConnectionId, id: SessionId)
    | Disconnect(connection: ConnectionId)
    | StartOperation(connection: ConnectionId, id: SessionId, operation: OperationId)
    | FinishOperation(operation: OperationId)
    | Terminate(ref: Ref)
    | MaybeDispose(ref: Ref, idle: bool)
    | DisposeSettled(ref: Ref)
    | BeginClosing
    | CloseSessions
    | OpeningsDrained
    | CloseDisposeSettled(ref: Ref)

  // ---------- the steps ----------

  function SetPhase(s: State, ref: Ref, phase: Phase, disposeCall: bool): State
    requires ref < |s.runtimes|
  {
    var r := s.runtimes[ref];
    s.(runtimes := s.runtimes[ref := r.(phase := phase,
                                        disposeCalls := r.disposeCalls + if disposeCall then 1 else 0)])
  }

  predicate InPhase(s: State, ref: Ref, phase: Phase) {
    ref < |s.runtimes| && s.runtimes[ref].phase == phase
  }

  /** `acquire`: the table, then the openings, then the service. */
  function AcquireStep(s: State, id: SessionId): State {
    if id in s.live || id in s.opening then s
    else s.(opening := s.opening[id := |s.runtimes|],
            runtimes := s.runtimes + [Runtime(id, Acquiring, 0)])
  }

  function RuntimeAcquiredStep(s: State, ref: Ref): State {
    if !InPhase(s, ref, Acquiring) then s
    else if s.closing then SetPhase(s, ref, Rejecting, true)
    else SetPhase(s, ref, Checking, false)
  }

  function SnapshotReadStep(s: State, ref: Ref, good: bool, erroredEarly: bool): State {
    if !InPhase(s, ref, Checking) then s
    else if !good then SetPhase(s, ref, Rejecting, true)
    else
      var id := s.runtimes[ref].id;
      SetPhase(s, ref, Live, false).(
      sessions := s.sessions[ref := LiveSession(id, {}, 0, true, erroredEarly, false)],
      live := s.live[id := ref])
  }

  function OpeningSettledStep(s: State, ref: Ref): State {
    if ref >= |s.runtimes| || s.runtimes[ref].phase.Unsettled() then s
    else
      var id := s.runtimes[ref].id;
      if id in s.opening && s.opening[id] == ref then s.(opening := s.opening - {id}) else s
  }

  function AttachStep(s: State, connection: ConnectionId, ref: Ref): State {
    if connection !in s.connections || ref !in s.sessions then s
    else
      var c, live := s.connections[connection], s.sessions[ref];
      if c.disconnected || !c.accepting then s
      else s.(connections := s.connections[connection := c.(sessionIds := c.sessionIds + {live.id})],
              sessions := s.sessions[ref := live.(connections := live.connections + {connection})])
  }

  /** Takes the connection out of the session the table holds under the id, if there is one. */
  function Leave(s: State, connection: ConnectionId, id: SessionId): map<Ref, LiveSession> {
    if id in s.live && s.live[id] in s.sessions then
      var live := s.sessions[s.live[id]];
      s.sessions[s.live[id] := live.(connections := live.connections - {connection})]
    else s.sessions
  }

  function DetachStep(s: State, connection: ConnectionId, id: SessionId): State {
    if connection !in s.connections || id !in s.connections[connection].sessionIds then s
    else
      var c := s.connections[connection];
      s.(connections := s.connections[connection := c.(sessionIds := c.sessionIds - {id})],
         sessions := Leave(s, connection, id))
  }

  /** Takes the connection out of every session the table holds under one of its ids. */
  function LeaveAll(live: map<SessionId, Ref>, sessions: map<Ref, LiveSession>, connection: ConnectionId,
                    ids: set<SessionId>): map<Ref, LiveSession>
  {
    map ref | ref in sessions ::
      if exists id :: id in ids && id in live && live[id] == ref
      then sessions[ref].(connections := sessions[ref].connections - {connection})
      else sessions[ref]
  }

  function DisconnectStep(s: State, connection: ConnectionId): State {
    if connection !in s.connections || s.connections[connection].disconnected then s
    else
      var c := s.connections[connection];
      s.(connections := s.connections[connection := Connection({}, true, false)],
         sessions := LeaveAll(s.live, s.sessions, connection, c.sessionIds))
  }

  /** `requireAttached` and the start of `runOperation`, with nothing in between. */
  function StartOperationStep(s: State, connection: ConnectionId, id: SessionId, operation: OperationId): State {
    if connection !in s.connections || id !in s.connections[connection].sessionIds
       || id !in s.live || s.live[id] !in s.sessions || operation in s.running then s
    else
      var ref := s.live[id];
      var live := s.sessions[ref];
      if live.terminal || live.disposing then s
      else s.(sessions := s.sessions[ref := live.(operationCount := live.operationCount + 1)],
              running := s.running[operation := ref])
  }

  function FinishOperationStep(s: State, operation: OperationId): State {
    if operation !in s.running || s.running[operation] !in s.sessions
       || s.sessions[s.running[operation]].operationCount == 0 then s
    else
      var ref := s.running[operation];
      var live := s.sessions[ref];
      s.(sessions := s.sessions[ref := live.(operationCount := live.operationCount - 1)],
         running := s.running - {operation})
  }

  function TerminateStep(s: State, ref: Ref): State {
    if ref !in s.sessions then s
    else s.(sessions := s.sessions[ref := s.sessions[ref].(terminal := true)])
  }

  function MaybeDisposeStep(s: State, ref: Ref, idle: bool): State {
    if ref !in s.sessions || ref >= |s.runtimes| then s
    else
      var live := s.sessions[ref];
      if s.closing || !live.ready || live.disposing || live.connections != {} || live.operationCount > 0
         || (!live.terminal && !idle) then s
      else SetPhase(s, ref, Disposing, true).(sessions := s.sessions[ref := live.(disposing := true)])
  }

  function DisposeSettledStep(s: State, ref: Ref): State {
    if !InPhase(s, ref, Disposing) then s
    else
      var id := s.runtimes[ref].id;
      SetPhase(s, ref, Gone, false).(
      live := if id in s.live && s.live[id] == ref then s.live - {id} else s.live)
  }

  /** The sessions in the table on which `close` calls dispose itself. */
  predicate TakenByClose(s: State, ref: Ref) {
    ref in s.live.Values && ref in s.sessions && !s.sessions[ref].disposing
  }

  function OpeningsDrainedStep(s: State): State {
    if !s.stage.Draining? || exists ref :: ref in s.stage.awaited && ref < |s.runtimes| && s.runtimes[ref].phase.Unsettled()
    then s
    else
      s.(live := map[],
         stage := Cleared(s.stage.mark),
         runtimes := seq(|s.runtimes|, ref requires 0 <= ref < |s.runtimes| =>
                                         var r := s.runtimes[ref];
                                         if TakenByClose(s, ref)
                                         then r.(phase := ClosingDown, disposeCalls := r.disposeCalls + 1)
                                         else r))
  }

  function Step(s: State, event: Event): State {
    match event
    case Connect(connection) =>
      if connection in s.connections then s
      else s.(connections := s.connections[connection := Connection({}, false, true)])
    case StopAccepting(connection) =>
      if connection !in s.connections then s
      else s.(connections := s.connections[connection := s.connections[connection].(accepting := false)])
    case Acquire(id) => AcquireStep(s, id)
    case RuntimeAcquired(ref) => RuntimeAcquiredStep(s, ref)
    case AcquireFailed(ref) => if InPhase(s, ref, Acquiring) then SetPhase(s, ref, Failed, false) else s
    case SnapshotRead(ref, good, erroredEarly) => SnapshotReadStep(s, ref, good, erroredEarly)
    case RejectedDisposed(ref) => if InPhase(s, ref, Rejecting) then SetPhase(s, ref, Gone, false) else s
    case OpeningSettled(ref) => OpeningSettledStep(s, ref)
    case Attach(connection, ref) => AttachStep(s, connection, ref)
    case Detach(connection, id) => DetachStep(s, connection, id)
    case Disconnect(connection) => DisconnectStep(s, connection)
    case StartOperation(connection, id, operation) => StartOperationStep(s, connection, id, operation)
    case FinishOperation(operation) => FinishOperationStep(s, operation)
    case Terminate(ref) => TerminateStep(s, ref)
    case MaybeDispose(ref, idle) => MaybeDisposeStep(s, ref, idle)
    case DisposeSettled(ref) => DisposeSettledStep(s, ref)
    case BeginClosing => s.(closing := true)
    case CloseSessions =>
      if s.closing && s.stage.Serving? then s.(stage := Draining(s.opening.Values, |s.runtimes|)) else s
    case OpeningsDrained => OpeningsDrainedStep(s)
    case CloseDisposeSettled(ref) => if InPhase(s, ref, ClosingDown) then SetPhase(s, ref, Gone, false) else s
  }

  function Run(s: State, events: seq<Event>): State
    decreases |events|
  {
    if events == [] then s else Run(Step(s, events[0]), events[1..])
  }

  // ---------- what every step keeps ----------

  type Table = map<SessionId, Ref>

  /** The two tables name runtimes of their key; where both have an entry it is the same runtime. */
  ghost predicate TablesAgree(live: Table, opening: Table, runtimes: seq<Runtime>) {
    && (forall id :: id in opening ==> opening[id] < |runtimes| && runtimes[opening[id]].id == id)
    && (forall id :: id in live ==> live[id] < |runtimes| && Holds(runtimes[live[id]], id))
    && (forall id :: id in live && id in opening ==> live[id] == opening[id])
  }

  predicate Holds(r: Runtime, id: SessionId) {
    r.id == id && (r.phase.Live? || r.phase.Disposing?)
  }

  /** Every runtime being opened is in the openings; every held one is in the table until close. */
  ghost predicate RuntimesTabled(live: Table, opening: Table, runtimes: seq<Runtime>, cleared: bool) {
    forall ref :: 0 <= ref < |runtimes| ==> Tabled(live, opening, ref, runtimes[ref], cleared)
  }

  predicate Tabled(live: Table, opening: Table, ref: Ref, r: Runtime, cleared: bool) {
    && (r.phase.Unsettled() ==> r.id in opening && opening[r.id] == ref)
    && (r.phase.Live? || (r.phase.Disposing? && !cleared) ==> r.id in live && live[r.id] == ref)
    && (r.phase.ClosingDown? ==> cleared)
  }

  ghost predicate DisposedOnce(runtimes: seq<Runtime>) {
    forall ref :: 0 <= ref < |runtimes| ==> CallsFitPhase(runtimes[ref])
  }

  predicate CallsFitPhase(r: Runtime) {
    r.disposeCalls == if r.phase.Acquiring? || r.phase.Checking? || r.phase.Live? || r.phase.Failed? then 0 else 1
  }

  ghost predicate CloseProgress(live: Table, runtimes: seq<Runtime>, closing: bool, stage: CloseStage) {
    match stage
    case Serving => true
    case Draining(awaited, mark) =>
      && closing && mark <= |runtimes|
      && (forall ref :: 0 <= ref < mark && runtimes[ref].phase.Unsettled() ==> ref in awaited)
      && (forall ref :: mark <= ref < |runtimes| ==> !runtimes[ref].phase.Checking? && !runtimes[ref].phase.Live?)
    case Cleared(mark) =>
      && closing && mark <= |runtimes| && live == map[]
      && (forall ref :: 0 <= ref < mark ==> !runtimes[ref].phase.Unsettled())
      && (forall ref :: 0 <= ref < |runtimes| ==> !runtimes[ref].phase.Checking? && !runtimes[ref].phase.Live?)
  }

  ghost predicate SessionsFollow(sessions: map<Ref, LiveSession>, runtimes: seq<Runtime>, cleared: bool) {
    && (forall ref :: ref in sessions ==> ref < |runtimes| && Follows(sessions[ref], runtimes[ref], cleared))
    && (forall ref :: 0 <= ref < |runtimes| && (runtimes[ref].phase.Live? || runtimes[ref].phase.Disposing?) ==>
          ref in sessions)
  }

  predicate Follows(live: LiveSession, r: Runtime, cleared: bool) {
    && live.id == r.id
    && !r.phase.Unsettled() && !r.phase.Failed?
    && (r.phase.Live? ==> !live.disposing)
    && (r.phase.Disposing? ==> live.disposing)
    && (live.disposing ==> live.operationCount == 0)
    && (!live.disposing && !cleared ==> r.phase.Live?)
  }

  ghost predicate MembersListed(live: Table, sessions: map<Ref, LiveSession>,
                                connections: map<ConnectionId, Connection>) {
    && (forall id :: id in live && live[id] in sessions ==> Listed(sessions[live[id]].connections, id, connections))
    && (forall c :: c in connections && connections[c].disconnected ==> connections[c].sessionIds == {})
  }

  ghost predicate Listed(members: set<ConnectionId>, id: SessionId, connections: map<ConnectionId, Connection>) {
    forall c :: c in members ==> c in connections && id in connections[c].sessionIds
  }

  /** The operations running on a session. */
  function OperationsOn(running: map<OperationId, Ref>, ref: Ref): set<OperationId> {
    set operation | operation in running && running[operation] == ref
  }

  ghost predicate OperationsCounted(sessions: map<Ref, LiveSession>, running: map<OperationId, Ref>) {
    && (forall operation :: operation in running ==> running[operation] in sessions)
    && (forall ref :: ref in sessions ==> sessions[ref].operationCount == |OperationsOn(running, ref)|)
  }

  ghost predicate TableInv(live: Table, opening: Table, runtimes: seq<Runtime>, closing: bool, stage: CloseStage) {
    && TablesAgree(live, opening, runtimes)
    && RuntimesTabled(live, opening, runtimes, stage.Cleared?)
    && DisposedOnce(runtimes)
    && CloseProgress(live, runtimes, closing, stage)
  }

  ghost predicate Inv(s: State) {
    && TableInv(s.live, s.opening, s.runtimes, s.closing, s.stage)
    && SessionsFollow(s.sessions, s.runtimes, s.stage.Cleared?)
    && MembersListed(s.live, s.sessions, s.connections)
    && OperationsCounted(s.sessions, s.running)
  }
}
