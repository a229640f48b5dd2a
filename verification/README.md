# Verified models of the agent runtime

Dafny models of the stateful parts of an agent runtime: the agent loop and its Agent, the session
server, the client, the frame codec, the publication of model catalogs, search in wrapped text and the
layout of formulas. Each part is proved over every input, every run or every interleaving that its code
allows. `dafny verify dfyconfig.toml` checks everything.

## How it is organised

| part | files | what it is about |
|---|---|---|
| Frames | `FrameFormat`, `FrameCodec` | an incremental decoder over byte arrays refines a one-pass parser, for every chunking |
| Agent loop | `AgentTypes`, `AgentGrammar`, `ToolBatch`, `ToolBatchLaws`, `AgentRun`, `AgentRunLaws`, `AgentLoop` | the event grammar, tool batches, whole runs, and the loop, the Agent and its queues as classes |
| Sessions | `SessionProtocol`, `SessionSafety`, `LiveSessions` | shared runtimes that are opened, used, terminated, disposed and closed by interleaved commands |
| Server | `ServerProtocol`, `PiServer` | the stages of a connection, hello before everything, and snapshot revisions |
| Client | `ClientProtocol`, `ClientSafety`, `ListenerOrder`, `PiClient`, `SessionLeases`, `LeaseTable` | connection lifecycle with re-entrant callbacks, what each listener hears, request settlement, lease counting |
| Catalogs | `Publication`, `PublicationSafety`, `ModelCatalog`, `ModelsImpl` | generation-checked publication and the overlay of dynamic models |
| Search | `WrappedSearch` | text normalised across line breaks, and the screen segments of a match |
| Formulas | `LatexLayout`, `LatexRender`, `LatexPlain`, `LatexText`, `LatexNormal`, `LatexGrammar`, `LatexFormula`, `LatexRuns`, `LatexParser` | a recursive descent parser with a node table, two-dimensional layout, when it ends and what it leaves in the output |

Two forms recur. Code that awaits is a state machine: one step is one stretch of code between two
awaits, the environment (services, transports, timers, tools, hooks, user code) decides which step comes
next, and theorems are about every sequence of steps. Beside each machine stands a class with the
code's fields, whose methods are proved equal to the steps. Code that only computes in loops is a
method with loop invariants, proved equal to a function, and the function has laws. Rows of tables stand
for the objects that the code keeps by reference or in closures.

## Findings

Where a property does not hold of the code without a condition, a run or an input shows it, and the exact
condition is proved for all runs or inputs.

- `streamAssistantResponse` keeps the loop context equal to the messages completed by its events exactly
  if the stream has at most one start event (`AgentRunLaws.StreamAgreesIffOneStart`).
- An abort while a tool runs ends a sequential batch after that tool; a parallel batch has prepared all calls by
  then and answers them all. For one moment of abort the sequential results are a prefix of the parallel ones, and
  the same exactly if the tool that runs then is the last (`ToolBatchLaws.ParallelAgreesWithSequential`).
- The loop over the messages of a chunk in `connection.ts:156-159` asks whether the client is
  disconnected, not whether the connection is still its own. A listener that disconnects and connects
  again while the chunk is handled loses the new connection to the next message of the old one
  (`ClientSafety.StaleMessageIsHarmlessIffDisconnected`, `ClientSafety.ReconnectInListenerFails`).
- `#notifyConnectionStateListeners` calls the listeners in a loop that a listener can re-enter. A listener hears the
  changes in their order exactly if no listener before it causes one while it is told
  (`ListenerOrder.ListenerHearsOrderIff`, `ListenerOrder.ReconnectIsHeardFirst`).
- Removing a session, or a disconnect, leaves the lease counts right, then and in every continuation without another
  one, exactly if no acquisition and no detach is under way (`SessionLeases.InvalidationKeepsCountsIffCalm`).
  Otherwise an exclusive lease can be granted beside another one.
- A refresh that can still publish may be one of a replaced provider, and then writes the store and updates the
  replaced object. `setProvider` aborts the running refresh before it stores the provider, so an abort listener can
  start a refresh in between (`PublicationSafety.ReplacedProviderUpdated`). `refresh` looks up all providers before it
  begins the first, so an abort listener can replace one that has yet to begin
  (`PublicationSafety.LateRefreshUpdatesReplaced`). In every run all current refreshes are of the registered provider
  exactly if each time a provider is stored it is the same one or no refresh is current, and each refresh that begins
  with the newest generation is of the registered provider (`PublicationSafety.AlwaysRegisteredIffHarmless`).
- Mutual exclusion of runtimes ends with `close()`: the table is emptied before dispose settles, so the id can be
  opened again (`SessionSafety.ExclusionEndsWithClose`). An acquisition adds a second runtime exactly if the table has
  been emptied, nobody is opening the id and a runtime of it is still in use
  (`SessionSafety.AcquireBreaksExclusionIff`).
- A broadcast raises the revision before its service call. When it fails, a ready connection that it has not reached
  stays behind until the next broadcast (`ServerProtocol.FailedBroadcastLeavesGap`), and ready connections are behind
  for no other reason: in every run one is behind exactly if such a broadcast was the last to start
  (`ServerProtocol.BehindIffMissed`).
- A formula may contain the private characters that delimit markers. `\frac{<U+F0000>0<U+F0001>}{2}` in display mode
  names its own fraction, and rendering does not end (`LatexRuns.WrittenMarkerDiverges`). It ends exactly if the
  fractions that the text reaches form no cycle (`LatexFormula.DivergesIffEndless`, `LatexFormula.EndlessIffCycle`), and
  always if no code point of the source is U+F0000 (`LatexFormula.CleanSourceEnds`).
- A marker in the name or the limits of an operator is padded but never rendered, so it reaches the output, as in
  `\sum_\sum_i` (`LatexRuns.NestedLimitLeavesMarker`) and `\operatorname*{\frac12}_i`
  (`LatexRuns.OperatorNameLeavesMarker`). The output is free of the parser's markers exactly if every
  operator and matrix that the text reaches is and no marker on the way is broken, as `\not` breaks the one of
  `\not\sum_i` (`LatexFormula.ShownPlainIff`); matrices always are free of them (`LatexFormula.MatricesArePlain`).

## Model

| member | source | states |
|---|---|---|
| `FrameFormat.DeclaredLengthInvertsHeader` | packages/protocol/src/framing.ts:30-36 | the four big-endian header bytes of a 32-bit length declare that length |
| `FrameFormat.HeaderInvertsDeclaredLength` | packages/protocol/src/framing.ts:45 | four bytes are the header of the length they declare |
| `FrameFormat.ParseConserves` | packages/protocol/src/framing.ts:73-144 | re-encoding the parsed frames and appending the rest gives back the input |
| `FrameFormat.RestIsUnparsed` | packages/protocol/src/framing.ts:80-141 | what is left over holds no complete frame |
| `FrameFormat.ParseInTwoSteps` | packages/protocol/src/framing.ts:73-144 | parsing a concatenation is parsing the first part and going on with its rest |
| `FrameFormat.RefusedLengthExceedsLimit` | packages/protocol/src/framing.ts:88-93 | the length reported with a refusal is declared by a complete header and exceeds the limit |
| `FrameFormat.ParseInvertsEncodeAll` | packages/protocol/src/framing.ts:27-39 | parsing the encodings of payloads within the limit returns exactly those payloads and no rest |
| `FrameFormat.EncodeAllIsInjective` | packages/protocol/src/framing.ts:27-39 | different payload sequences have different encodings |
| `FrameFormat.FeedIsOnePass` | packages/protocol/src/framing.ts:73-144 | for every chunking the frames are those of one pass over the whole input |
| `FrameFormat.FailingPushIsFirst` | packages/protocol/src/framing.ts:88-93 | feeding fails on exactly the chunk that completes the first oversized header |
| `FrameFormat.FailureIsPrompt` | packages/protocol/src/framing.ts:88-93 | before the failing chunk no oversized header was complete |
| `FrameFormat.FramingRoundTrip` | packages/protocol/src/framing.ts:28-53 | encodings of payloads within the limit, cut anywhere, come back as the payloads and end at a frame boundary |
| `FrameCodec.EncodeFrame` | packages/protocol/src/framing.ts:28-39 | the fresh array holds the header of the payload's length followed by the payload; a payload over 32 bits of length is refused |
| `FrameCodec.AssertCompleteFrame` | packages/protocol/src/framing.ts:42-53 | accepts exactly the bytes that are one frame within the limit; says for each check when it is the one that fails, and the length over the limit |
| `FrameCodec.FrameWithinByLength` | packages/protocol/src/framing.ts:44-52 | bytes are one complete frame within the limit exactly if their declared length is allowed and is their number |
| `FrameCodec.FrameDecoder.constructor` | packages/protocol/src/framing.ts:69-71 | a new decoder is open, with nothing pending |
| `FrameCodec.FrameDecoder.Push` | packages/protocol/src/framing.ts:73-144 | returns the frames a one-pass parse of the pending bytes and the chunk gives and keeps exactly the unparsed rest, or fails with the declared length and nothing kept; a returned array is never the chunk and is out of reach of every later call |
| `FrameCodec.FrameDecoder.End` | packages/protocol/src/framing.ts:146-153 | succeeds on an open decoder exactly at a frame boundary |
| `FrameCodec.FrameDecoder.Fail` | packages/protocol/src/framing.ts:155-164 | a failed decoder keeps no bytes |
| `FrameCodec.FrameDecoder.WriteBlock` | packages/protocol/src/framing.ts:115-122 | a chunk slice extends the collected payload bytes and touches no other block |
| `FrameCodec.FrameDecoder.TakePayload` | packages/protocol/src/framing.ts:124-141 | the finished payload is the concatenation of its blocks |
| `FrameCodec.FrameDecoder.ReservedBytesAreBounded` | packages/protocol/src/framing.ts:107-123 | the blocks reserve at most 65535 bytes more than the payload bytes received |
| `FrameCodec.FrameDecoder.AllBlocksAreFull` | packages/protocol/src/framing.ts:108-114 | a finished payload has only full blocks |
| `FrameCodec.DecodeChunks` | packages/protocol/src/framing.ts:58-144 | a decoder fed chunk by chunk returns what the one-pass specification feeds, for any chunks |
| `FrameCodec.JoinBlocks` | packages/protocol/src/framing.ts:128-134 | the joined payload is all blocks in order |
| `AgentGrammar.NestingCounts` | packages/agent/src/agent-loop.ts:95-275 | in a well-nested trace the open turns, messages and tool executions are the starts without an end |
| `AgentGrammar.EndsOnce` | packages/agent/src/agent-loop.ts:155-275 | a well-nested trace that has ended has exactly one agent_end, as its last event |
| `AgentGrammar.MessagesDoNotOverlap` | packages/agent/src/agent-loop.ts:304-388 | between a message_start and the next one there is its message_end |
| `AgentGrammar.TranscriptIsCompleted` | packages/agent/src/agent.ts:569-617 | the Agent's transcript is the one it started from plus the messages of all message_end events |
| `AgentGrammar.StateReflectsPosition` | packages/agent/src/agent.ts:569-617 | a streaming message is set exactly while a message is open, and pending tool calls are in progress |
| `AgentGrammar.PendingIsInProgress` | packages/agent/src/agent.ts:569-617 | if no call starts while one of the same id is in progress, the pending tool calls are exactly those in progress |
| `AgentGrammar.QuietBetweenTurns` | packages/agent/src/agent.ts:569-617 | between turns nothing streams and no tool call is pending |
| `ToolBatchLaws.SequentialOutcomes` | packages/agent/src/agent-loop.ts:442-496 | the sequential batch has the outcomes of the calls up to the first abort, in order |
| `ToolBatchLaws.ParallelOutcomes` | packages/agent/src/agent-loop.ts:498-563 | for every interleaving the parallel batch has the outcomes of the calls up to the first abort, in source order |
| `ToolBatchLaws.ParallelAgreesWithSequential` | packages/agent/src/agent-loop.ts:442-563 | for one moment of abort in both batches and every interleaving, the sequential results are a prefix of the parallel ones, and the same exactly if the abort does not come while a tool runs that has another call after it |
| `ToolBatchLaws.UnabortedBatchesAgree` | packages/agent/src/agent-loop.ts:442-563 | without an abort both batches answer every call, with the same result messages and the same terminate flag |
| `ToolBatchLaws.ResultsAnswerPrefix` | packages/agent/src/agent-loop.ts:442-563 | under every pattern of aborts the results of both kinds of batch answer a non-empty prefix of the calls in order, and all of them without an abort |
| `ToolBatchLaws.SequentialNests` | packages/agent/src/agent-loop.ts:442-496 | a sequential batch opens and closes each tool execution inside its turn |
| `ToolBatchLaws.ParallelNests` | packages/agent/src/agent-loop.ts:498-563 | however the tools interleave, each start gets its end inside the turn with its updates in between |
| `ToolBatchLaws.SequentialCompletes` | packages/agent/src/agent-loop.ts:442-496 | the messages completed by a sequential batch are its results |
| `ToolBatchLaws.ParallelCompletes` | packages/agent/src/agent-loop.ts:498-563 | the messages completed by a parallel batch are its results in the order of the calls |
| `ToolBatchLaws.SameToolsRun` | packages/agent/src/agent-loop.ts:609-677 | both kinds of batch execute exactly the answered calls that pass the preflight, once each and in order |
| `ToolBatchLaws.CanComplete` | packages/agent/src/agent-loop.ts:549-551 | from every point there is a schedule under which all tools finish |
| `AgentRunLaws.StreamedContextGrows` | packages/agent/src/agent-loop.ts:304-388 | with at most one start event the context grows by exactly the completed messages |
| `AgentRunLaws.StreamAgreesIffOneStart` | packages/agent/src/agent-loop.ts:304-388 | context and completed messages agree after a stream exactly if it has at most one start event |
| `AgentRunLaws.StreamNests` | packages/agent/src/agent-loop.ts:304-388 | every stream emits one well-nested message |
| `AgentRunLaws.TruncatedRefusesAll` | packages/agent/src/agent-loop.ts:390-418 | all calls of a truncated response get error results, nest, and none is executed |
| `AgentRunLaws.TurnBatchNests` | packages/agent/src/agent-loop.ts:420-440 | whatever kind of batch a turn runs, it nests and completes its results |
| `AgentRunLaws.DrainConserves` | packages/agent/src/agent.ts:150-163 | a drain delivers from the front, at most one message in one-at-a-time mode, and loses nothing |
| `AgentRunLaws.OpsConserve` | packages/agent/src/agent.ts:134-168 | enqueues and mode switches keep enqueued equal to delivered plus queued |
| `AgentRunLaws.TurnBodyKeeps` | packages/agent/src/agent-loop.ts:174-224 | at every turn_end the copies of the history agree, the events nest and all polled messages are accounted for |
| `AgentRunLaws.TurnStepKeeps` | packages/agent/src/agent-loop.ts:174-272 | so do they after the hooks and polls that follow a turn |
| `AgentRunLaws.RunsNest` | packages/agent/src/agent-loop.ts:95-275 | every run nests; a finished one is agent_start, one or more bracketed turns and exactly one agent_end at the end |
| `AgentRunLaws.HistoriesAgreeThroughout` | packages/agent/src/agent-loop.ts:155-275 | between turns, at each turn_end and at the end, completed messages, new messages, Agent transcript and (unless replaced) loop context agree |
| `AgentRunLaws.QueuesAreConserved` | packages/agent/src/agent-loop.ts:167-272 | each queue's enqueued messages, also those enqueued in a turn that fails or stops, are the delivered ones followed by the queued ones; what each queue delivers is what is polled from it, in order; all polled messages are injected once, in the order of the polls, and no exit discards one |
| `AgentRunLaws.NoToolOnBadStop` | packages/agent/src/agent-loop.ts:196-217 | no tool is executed on a length, error or aborted stop |
| `AgentRunLaws.BadStopEndsRun` | packages/agent/src/agent-loop.ts:196-200 | an error or aborted stop ends the run at once, takes nothing from either queue and keeps what was enqueued during the turn |
| `AgentLoop.PendingMessageQueue.Enqueue` | packages/agent/src/agent.ts:142-144 | appends to the queue |
| `AgentLoop.PendingMessageQueue.Drain` | packages/agent/src/agent.ts:150-163 | returns and removes all messages or the first, by mode |
| `AgentLoop.Agent.ProcessEvent` | packages/agent/src/agent.ts:569-609 | the new state is the fold of the events since the start of the run |
| `AgentLoop.Agent.BeginRun` | packages/agent/src/agent.ts:522-524 | starts with no streaming message and no error |
| `AgentLoop.Agent.FinishRun` | packages/agent/src/agent.ts:554-560 | clears what the run owns and keeps the transcript |
| `AgentLoop.Loop.StreamAssistantResponse` | packages/agent/src/agent-loop.ts:304-388 | context and events are those of the stream specification |
| `AgentLoop.Loop.FailToolCalls` | packages/agent/src/agent-loop.ts:390-418 | refuses all calls, with their events and result messages |
| `AgentLoop.Loop.ExecuteCall` | packages/agent/src/agent-loop.ts:609-800 | one call with its preflight, updates, end and result message |
| `AgentLoop.Loop.ExecuteToolCallsSequential` | packages/agent/src/agent-loop.ts:442-496 | the loop equals the sequential batch: events, messages, terminate flag and executed tools |
| `AgentLoop.Loop.PrepareCalls` | packages/agent/src/agent-loop.ts:508-547 | announces calls and settles the ones that fail their preflight before any tool runs |
| `AgentLoop.Loop.RunConcurrently` | packages/agent/src/agent-loop.ts:531-551 | tools progress in any schedule; events and outcomes are those of the interleaving |
| `AgentLoop.Loop.ExecuteToolCallsParallel` | packages/agent/src/agent-loop.ts:498-563 | equals the parallel batch under the schedule |
| `AgentLoop.Loop.ExecuteToolCalls` | packages/agent/src/agent-loop.ts:420-440 | chooses the batch of the turn and says whether there are more tool calls to come |
| `AgentLoop.Loop.RunTurn` | packages/agent/src/agent-loop.ts:174-224 | one turn up to its turn_end: context, new messages, events and executed tools |
| `AgentLoop.Loop.TurnAndPoll` | packages/agent/src/agent-loop.ts:174-260 | the body of the inner loop: a turn, the hooks, and the steering poll |
| `AgentLoop.Loop.FollowUpOrFinish` | packages/agent/src/agent-loop.ts:262-275 | the follow-up poll that continues the run or ends it |
| `AgentLoop.Loop.RunLoop` | packages/agent/src/agent-loop.ts:155-275 | the two nested loops equal the run specification, for any number of turns |
| `AgentLoop.RunAgent` | packages/agent/src/agent.ts:440-560 | a whole run: the transcript grows by exactly the new messages and the queues are those of the specification |
| `AgentLoop.Continue` | packages/agent/src/agent.ts:392-419 | continues from queued steering messages, else follow-up messages, else refuses; nothing queued is lost |
| `SessionSafety.AcquireKeeps` | packages/server/src/sessions.ts:186-207 | acquiring reuses what the tables hold and otherwise opens one runtime |
| `SessionSafety.MoveKeeps` | packages/server/src/sessions.ts:209-245 | each outcome of an opening keeps tables and dispose counts right |
| `SessionSafety.AttachKeeps` | packages/server/src/sessions.ts:300-307 | attaching lists the member on both sides or refuses |
| `SessionSafety.DisconnectKeeps` | packages/server/src/sessions.ts:122-132 | disconnecting takes the connection out of every session it is listed in |
| `SessionSafety.MaybeDisposeKeeps` | packages/server/src/sessions.ts:324-345 | dispose begins only without members and operations, and once |
| `SessionSafety.OpeningsDrainedKeeps` | packages/server/src/sessions.ts:152-169 | close takes every live runtime that is not being disposed already |
| `SessionSafety.StepKeepsInv` | packages/server/src/sessions.ts:53-345 | every step of every command keeps the invariant |
| `SessionSafety.RunKeepsInv` | packages/server/src/sessions.ts:53-345 | so does every interleaving |
| `SessionSafety.MutualExclusion` | packages/server/src/sessions.ts:186-246 | until close begins, each session id has at most one runtime between the start of its acquisition and the end of its dispose |
| `SessionSafety.ExclusionEndsWithClose` | packages/server/src/sessions.ts:152-169 | after close has emptied the table a second runtime can be opened: a concrete run |
| `SessionSafety.AcquireBreaksExclusionIff` | packages/server/src/sessions.ts:152-207 | an acquisition adds a second runtime in use exactly if close has emptied the table, no opening of the id is under way and a runtime of it is still in use |
| `SessionSafety.NoLeakedMembership` | packages/server/src/sessions.ts:75-132 | in every reachable state a member of a live session has that session among its ids, so a disconnected connection is in none |
| `SessionSafety.NoOperationOnDisposed` | packages/server/src/sessions.ts:171-184 | once disposal of a runtime starts no operation on it is running |
| `SessionSafety.NoOperationAfterDisposal` | packages/server/src/sessions.ts:309-318 | nor can one start |
| `SessionSafety.DisposingStays` | packages/server/src/sessions.ts:336-342 | a runtime being disposed stays so, in every continuation |
| `SessionSafety.DisposeAtMostOnce` | packages/server/src/sessions.ts:152-169 | dispose is called at most once per runtime, counting close |
| `SessionSafety.CloseIsComplete` | packages/server/src/sessions.ts:152-169 | when close has cleared the table every runtime acquired before it has had dispose called or never existed |
| `LiveSessions.LiveSessionManager.Acquire` | packages/server/src/sessions.ts:186-199 | the answer fits the tables, and at most one opening is added |
| `LiveSessions.LiveSessionManager.RuntimeAcquired` | packages/server/src/sessions.ts:209-214 | a runtime that arrives while closing is disposed |
| `LiveSessions.LiveSessionManager.SnapshotRead` | packages/server/src/sessions.ts:216-245 | a good snapshot makes a live session, any other disposes the runtime |
| `LiveSessions.LiveSessionManager.OpeningSettled` | packages/server/src/sessions.ts:201-205 | the opening is removed if it is still the one in the table |
| `LiveSessions.LiveSessionManager.Attach` | packages/server/src/sessions.ts:300-307 | adds the member on both sides unless the connection is gone |
| `LiveSessions.LiveSessionManager.Detach` | packages/server/src/sessions.ts:75-88 | removes the member on both sides |
| `LiveSessions.LiveSessionManager.Disconnect` | packages/server/src/sessions.ts:122-127 | leaves all sessions in a loop over the connection's ids |
| `LiveSessions.LeaveSessions` | packages/server/src/sessions.ts:123-127 | the loop removes the connection from exactly the sessions held under its ids |
| `LiveSessions.LiveSessionManager.StartOperation` | packages/server/src/sessions.ts:171-176 | counts an operation of an attached connection on a live session |
| `LiveSessions.LiveSessionManager.FinishOperation` | packages/server/src/sessions.ts:180-183 | counts it down again |
| `LiveSessions.LiveSessionManager.Terminate` | packages/server/src/sessions.ts:265-269 | marks the session terminal |
| `LiveSessions.LiveSessionManager.MaybeDispose` | packages/server/src/sessions.ts:324-336 | calls dispose exactly under its guard, on a live runtime |
| `LiveSessions.LiveSessionManager.DisposeSettled` | packages/server/src/sessions.ts:336-342 | removes the session from the table if it still holds it |
| `LiveSessions.LiveSessionManager.CloseAll` | packages/server/src/sessions.ts:152-169 | takes the table and disposes what nobody disposes yet |
| `ServerProtocol.OnConnectionKeeps` | packages/server/src/server.ts:112-341 | every step of one connection keeps frames and handshake in accord |
| `ServerProtocol.StepKeepsInv` | packages/server/src/server.ts:112-341 | every step of the server keeps the invariant of all connections |
| `ServerProtocol.StageMovesForward` | packages/server/src/server.ts:185-341 | in every run the stage of a connection only moves forward and sent frames stay sent |
| `ServerProtocol.HelloBeforeEverything` | packages/server/src/server.ts:221-269 | each connection is sent at most one hello, and responses and events only after its send completed |
| `ServerProtocol.ReadyConnectionsAreUpToDate` | packages/server/src/snapshots.ts:34-61 | in every run, when nothing is on its way, a ready connection has been sent the newest revision exactly if no broadcast has failed to reach it since the last one started, even if the revision changed during the handshake |
| `ServerProtocol.UnfailedBroadcastsReachAll` | packages/server/src/snapshots.ts:34-61 | in every run without a failed broadcast, when nothing is on its way, every ready connection has been sent the newest revision |
| `ServerProtocol.FailedBroadcastLeavesGap` | packages/server/src/snapshots.ts:54-57 | a broadcast that fails in its service call leaves a ready connection behind: a concrete run |
| `ServerProtocol.PerformBroadcastInforms` | packages/server/src/snapshots.ts:50-61 | a broadcast that starts puts every ready connection on the way to the newest revision, also those that were behind |
| `ServerProtocol.FailureLeavesBehindIff` | packages/server/src/snapshots.ts:34-61 | a broadcast that fails leaves behind exactly the connections that were behind and the ready, writable ones it has not reached |
| `ServerProtocol.StepKeepsRevisions` | packages/server/src/server.ts:221-249 | no snapshot sent to a connection, or awaited by it, is newer than the current revision, nor as new as a broadcast that has yet to reach it |
| `ServerProtocol.BehindIffMissed` | packages/server/src/snapshots.ts:34-61 | in every run a ready connection is behind exactly if a broadcast failed to reach it and none has started since |
| `ServerProtocol.AfterHelloInforms` | packages/server/src/server.ts:238-249 | a connection that becomes ready has the newest revision or fetches it |
| `PiServer.PiServer.DispatchMessage` | packages/server/src/server.ts:185-219 | each message is refused, starts the handshake, runs or waits, by stage |
| `PiServer.PiServer.HandshakeSnapshot` | packages/server/src/server.ts:230-237 | the hello is sent only on a connection still handshaking |
| `PiServer.PiServer.HandshakeSent` | packages/server/src/server.ts:238-243 | the connection becomes ready when the send completed, and fetches a newer snapshot if there is one |
| `PiServer.PiServer.HandshakeCaughtUp` | packages/server/src/server.ts:243-248 | sends the newer snapshot |
| `PiServer.PiServer.SendMessage` | packages/server/src/server.ts:293-313 | sends unless disconnected or closed |
| `PiServer.PiServer.FailProtocol` | packages/server/src/server.ts:315-328 | moves a connection that is not terminal to closing with one error frame |
| `PiServer.PiServer.Disconnect` | packages/server/src/server.ts:282-291 | closes the connection and removes it from the set |
| `PiServer.PiServer.CloseServerState` | packages/server/src/server.ts:330-335 | marks exactly the connections in the set |
| `PiServer.MarkClosing` | packages/server/src/server.ts:331-335 | the loop marks exactly the connections in the set |
| `PiServer.PiServer.PerformBroadcast` | packages/server/src/snapshots.ts:50-55 | raises the revision exactly if a connection is ready and the server is not closing |
| `PiServer.PiServer.BroadcastTo` | packages/server/src/snapshots.ts:60 | one round of the send loop |
| `ClientProtocol.StepKeepsInv` | packages/client/src/connection.ts:66-235 | every call, callback and return from user code keeps the invariant |
| `ClientProtocol.RunKeepsInv` | packages/client/src/connection.ts:66-235 | so does every order of them |
| `ClientSafety.NotificationsInOrder` | packages/client/src/connection.ts:66-231 | at every moment the calls of `onStateChange` so far are connecting, optionally connected, then disconnected, connection after connection |
| `ClientSafety.NotesAreDistinct` | packages/client/src/connection.ts:66-231 | no change is reported twice |
| `ListenerOrder.ListenerHearsOrderIff` | packages/client/src/client.ts:414-422 | in every run, whatever the listeners do, a listener hears the changes in the order of the calls of `onStateChange` exactly if no listener before it causes one while it is told |
| `ListenerOrder.OrderOfReactions` | packages/client/src/client.ts:414-422 | the same for every tree of nested notifications |
| `ListenerOrder.AllHeardOnce` | packages/client/src/client.ts:414-422 | every listener hears every change as often as it happens, however the notifications nest |
| `ListenerOrder.ReconnectIsHeardFirst` | packages/client/src/client.ts:414-422 | behind a listener that reconnects, the next one hears connecting before the disconnected that caused it: a concrete run |
| `ClientSafety.ConnectSettlesOnce` | packages/client/src/connection.ts:66-90 | each connect promise settles at most once, and exactly when its handshake is over |
| `ClientSafety.RequestsSettleOnce` | packages/client/src/client.ts:189-207 | each request settles exactly once, by the end of its connection at the latest |
| `ClientSafety.RunKeepsSettled` | packages/client/src/client.ts:294-340 | a settled request never changes again |
| `ClientSafety.OverStaysOver` | packages/client/src/connection.ts:233-235 | a connection that is over never becomes current again |
| `ClientSafety.StaleCallbacksChangeNothing` | packages/client/src/connection.ts:80-139 | callbacks of a connection that is over change nothing, whatever has happened since, and a late transport is closed |
| `ClientSafety.NoTransportLeaks` | packages/client/src/connection.ts:119-223 | every transport is closed, in use, or about to be closed by the call that tells the listeners; when no call is running it is closed or in use |
| `ClientSafety.StaleMessageIsHarmlessIffDisconnected` | packages/client/src/connection.ts:142-160 | the rest of an old chunk is harmless exactly if no new connection has been started; otherwise it ends that connection |
| `ClientSafety.ReconnectInListenerFails` | packages/client/src/connection.ts:156-159 | from the start of a client, a listener that disconnects and connects again during the hello loses its new connection to an event in the same chunk: a concrete run |
| `PiClient.PiClient.Connect` | packages/client/src/connection.ts:66-90 | starts a new connection from the disconnected state only |
| `PiClient.PiClient.Fail` | packages/client/src/connection.ts:225-231 | settles the handshake and all requests and notifies once |
| `PiClient.PiClient.FailAndClose` | packages/client/src/connection.ts:218-223 | also closes the transport, once the listeners have returned |
| `PiClient.PiClient.TransportOpened` | packages/client/src/connection.ts:119-133 | takes the transport of the connecting connection and closes any other |
| `PiClient.PiClient.HandleData` | packages/client/src/connection.ts:142-155 | ignores old connections and fails early or malformed data |
| `PiClient.PiClient.HandleMessage` | packages/client/src/connection.ts:162-204 | hello first and once, everything else to the client |
| `PiClient.PiClient.Return` | packages/client/src/connection.ts:156-196 | what the interrupted loop or welcome does when user code returns |
| `PiClient.PiClient.HandleClose` | packages/client/src/connection.ts:206-216 | the close of the current transport fails the connection |
| `PiClient.PiClient.SendFailed` | packages/client/src/connection.ts:111-116 | a rejected send fails only the connection of its transport |
| `PiClient.PiClient.IssueRequest` | packages/client/src/client.ts:189-207 | adds a pending request, or rejects it when it cannot be encoded |
| `PiClient.PiClient.HandleResponse` | packages/client/src/client.ts:294-319 | settles the request it answers, or fails the connection |
| `PiClient.PiClient.RejectPendingRequests` | packages/client/src/client.ts:336-340 | the loop rejects exactly the pending requests |
| `PiClient.PiClient.Dispose` | packages/client/src/client.ts:342-353 | rejects everything and disconnects |
| `SessionLeases.LeasesAreCounted` | packages/client/src/client.ts:381-407 | with invalidation only while nothing is under way, the count is the number of outstanding tokens and an exclusive token is alone |
| `SessionLeases.LeasesAreCountedWithoutInvalidation` | packages/client/src/client.ts:381-400 | the same in every run without disconnect and session removal |
| `SessionLeases.OnlyTheLastDetaches` | packages/client/src/client.ts:237-252 | a lease asks for a detach only as the sole reservation, with no other detach under way |
| `SessionLeases.InvalidationKeepsCountsIffCalm` | packages/client/src/client.ts:402-412 | after an invalidation the count is that of the outstanding tokens and an exclusive token is alone, then and in every continuation without another invalidation, exactly if no acquisition and no detach was under way |
| `SessionLeases.ReservedIsUncounted` | packages/client/src/client.ts:402-407 | an acquisition under way at an invalidation leaves the counts wrong in some continuation |
| `SessionLeases.DetachGivesBackTwice` | packages/client/src/client.ts:242-249 | so does a detach under way |
| `SessionLeases.ExclusiveBesideUncounted` | packages/client/src/client.ts:151-177 | an acquisition that outlives an invalidation is not counted: a concrete run |
| `SessionLeases.TwoExclusiveLeases` | packages/client/src/client.ts:242-249 | a detach that succeeds after an invalidation lets in a second exclusive lease: a concrete run |
| `LeaseTable.LeaseTable.ReserveSessionLease` | packages/client/src/client.ts:381-393 | reserves exactly when the leases there are allow it |
| `LeaseTable.LeaseTable.ReleaseSessionLease` | packages/client/src/client.ts:395-400 | counts down and gives up exclusivity of this token only |
| `LeaseTable.LeaseTable.CreateSessionLease` | packages/client/src/client.ts:209-211 | the lease remembers the generation |
| `LeaseTable.LeaseTable.Release` | packages/client/src/client.ts:231-252 | invalid, kept, released or detaching, by generation, attachment and count |
| `LeaseTable.LeaseTable.DetachSettled` | packages/client/src/client.ts:242-266 | gives back, keeps, or relinquishes with a cleanup to do |
| `LeaseTable.LeaseTable.InvalidateSessionLeases` | packages/client/src/client.ts:402-407 | forgets the counts of one session and starts a generation |
| `LeaseTable.LeaseTable.InvalidateAllSessionLeases` | packages/client/src/client.ts:409-412 | does so for every session that has a count |
| `Publication.StepKeepsInv` | packages/ai/src/models.ts:320-365 | every step of refresh, publication and provider change keeps the queue, the brackets and the order |
| `Publication.HeadMoves` | packages/ai/src/models.ts:344-364 | only the head of the chain moves, and all before it have settled |
| `PublicationSafety.MutationsNeverOverlap` | packages/ai/src/models.ts:338-365 | store mutations never overlap and no update falls inside one |
| `PublicationSafety.EffectsInGenerationOrder` | packages/ai/src/models.ts:338-365 | mutations and updates happen in non-decreasing generation order |
| `PublicationSafety.SupersededStaysSilent` | packages/ai/src/models.ts:320-329 | a superseded generation never starts a mutation or an update again, in any continuation |
| `PublicationSafety.UpdatesAreGuarded` | packages/ai/src/models.ts:354-356 | memory changes only while the refresh is current and unaborted, after its own mutation reached the store |
| `PublicationSafety.StoreChangesAreMutations` | packages/ai/src/models.ts:348-352 | the store changes only at the end of the open mutation, to what it persists |
| `PublicationSafety.PublishedMeansUpdated` | packages/ai/src/models.ts:344-357 | each publication mutates and then updates at most once, and returns true exactly if both went through |
| `PublicationSafety.ChainNeverStalls` | packages/ai/src/models.ts:344-362 | while a publication is unsettled one can resume or waits for the store |
| `PublicationSafety.StepKeepsRegistrationIff` | packages/ai/src/models.ts:269-399 | every step keeps all current refreshes with the registered provider exactly if it neither stores another provider while a refresh is current nor begins a refresh of another provider with the newest generation |
| `PublicationSafety.AlwaysRegisteredIffHarmless` | packages/ai/src/models.ts:269-399 | so throughout a run every current refresh is of the registered provider exactly if every step of the run is of that kind |
| `PublicationSafety.TwoHalvesAreHarmless` | packages/ai/src/models.ts:320-329 | a provider change in two halves is of that kind whatever happens in between, if no refresh begins there with the newest generation |
| `PublicationSafety.UpdatesReachTheRegisteredProvider` | packages/ai/src/models.ts:269-399 | in every run of such steps only the registered provider is ever updated |
| `PublicationSafety.HarmfulStepUpdatesReplaced` | packages/ai/src/models.ts:269-399 | after every step of the other kind some continuation updates a provider that is not registered, with any catalog |
| `PublicationSafety.ReplacedProviderUpdated` | packages/ai/src/models.ts:269-272 | a listener that refreshes when it is told of the abort has the replaced provider updated: a concrete run |
| `PublicationSafety.LateRefreshUpdatesReplaced` | packages/ai/src/models.ts:392-399 | a refresh that begins after its provider was replaced is current, writes the store and updates the replaced provider: a concrete run |
| `ModelsImpl.ModelsImpl.SupersedeProviderRefresh` | packages/ai/src/models.ts:320-329 | raises the generation and aborts the registered refresh |
| `ModelsImpl.ModelsImpl.OpenRefresh` | packages/ai/src/models.ts:331-336 | registers the refresh |
| `ModelsImpl.ModelsImpl.SetProvider` | packages/ai/src/models.ts:269-272 | supersedes and replaces |
| `ModelsImpl.ModelsImpl.DeleteProvider` | packages/ai/src/models.ts:274-277 | supersedes and removes |
| `ModelsImpl.ModelsImpl.ClearProviders` | packages/ai/src/models.ts:279-284 | supersedes every id with a provider or a refresh and no other |
| `ModelsImpl.ModelsImpl.EndRefresh` | packages/ai/src/models.ts:431-435 | drops the controller if it is still this one |
| `ModelsImpl.ModelsImpl.PublishProviderModels` | packages/ai/src/models.ts:338-363 | queues the publication behind the tail of the chain |
| `ModelsImpl.ModelsImpl.ResumePublication` | packages/ai/src/models.ts:344-352 | calls the store exactly if the refresh is current |
| `ModelsImpl.ModelsImpl.MutationSettled` | packages/ai/src/models.ts:348-357 | checks again and updates |
| `ModelsImpl.ModelsImpl.UpdateProvider` | packages/ai/src/models.ts:354-356 | the second check and the update |
| `ModelsImpl.ModelsImpl.TailSettled` | packages/ai/src/models.ts:359-363 | drops the tail from the chains if it is still the last |
| `ModelCatalog.CurrentModels` | packages/ai/src/models.ts:766-774 | the overlay loop equals the merge of baseline and dynamic models |
| `ModelCatalog.DynamicModelsWin` | packages/ai/src/models.ts:766-774 | an id resolves to the last dynamic model with it, else to the first baseline model |
| `ModelCatalog.NewIdsFollow` | packages/ai/src/models.ts:766-774 | baseline ids keep their places and new ids follow in order of first appearance |
| `ModelCatalog.IdsStayDistinct` | packages/ai/src/models.ts:766-774 | no duplicate ids come in |
| `ModelCatalog.FindIndex` | packages/ai/src/models.ts:769 | the index of the first model with the id, or -1 |
| `WrappedSearch.BuildSearchCorpus` | packages/tui/src/alt-screen-search.ts:32-61 | the corpus is all words of all lines joined by single spaces, with one source entry per character |
| `WrappedSearch.AppendLine` | packages/tui/src/alt-screen-search.ts:42-57 | the words of one line join the corpus |
| `WrappedSearch.AppendMappedText` | packages/tui/src/alt-screen-search.ts:23-30 | text and source grow together |
| `WrappedSearch.CorpusInOrder` | packages/tui/src/alt-screen-search.ts:39-58 | source entries are in reading order |
| `WrappedSearch.SegmentsOf` | packages/tui/src/alt-screen-search.ts:82-92 | segments are ordered with gaps between them and cover exactly the cells of the matched characters |
| `WrappedSearch.FindMatches` | packages/tui/src/alt-screen-search.ts:71-97 | one such match for each range that has a placed character, in order |
| `WrappedSearch.PhraseIsInCorpus` | packages/tui/src/alt-screen-search.ts:32-61 | a phrase of consecutive words is one piece of the corpus wherever the lines break |
| `LatexLayout.JoinLayouts` | packages/tui/src/latex.ts:684-707 | the loops compute the joined layout |
| `LatexLayout.JoinedIsValid` | packages/tui/src/latex.ts:684-707 | it has max-baseline plus max-below plus one rows and no line wider than its width |
| `LatexLayout.PartsArePlaced` | packages/tui/src/latex.ts:691-701 | every character of every part stands in the row that the common baseline gives, at the sum of the earlier widths; only blanks at the end of a row are cut off |
| `LatexLayout.EveryRowHasAPlace` | packages/tui/src/latex.ts:688-694 | no row of a part is lost |
| `LatexLayout.MaximaReached` | packages/tui/src/latex.ts:688-689 | both maxima belong to some part |
| `LatexRender.RenderLayout` | packages/tui/src/latex.ts:709-795 | on every table and text on which recursion ends, the loops equal the recursive specification and give a valid layout |
| `LatexRender.LineLayouts` | packages/tui/src/latex.ts:716-783 | the loop over the markers of a line gives its parts in order |
| `LatexRender.LayoutOfNode` | packages/tui/src/latex.ts:734-774 | fractions, operators and matrices are laid out as specified |
| `LatexRender.BarIsAtTheBaseline` | packages/tui/src/latex.ts:734-747 | the bar of a fraction lies in the common baseline row |
| `LatexRender.EndsIffNoCycle` | packages/tui/src/latex.ts:716-747 | some depth of recursion is enough exactly if no chain of fractions that the text reaches names itself |
| `LatexRender.PointingBackEnds` | packages/tui/src/latex.ts:734-736 | fractions that name only earlier nodes are rendered within the depth of the table |
| `LatexPlain.RendersPlainIff` | packages/tui/src/latex.ts:709-795 | the lines hold no marker exactly if every operator and matrix that the text reaches, through fractions of any depth, holds none, and no marker on the way is broken |
| `LatexText.IndexOf` | packages/tui/src/latex.ts:1231 | the first occurrence from a position on, if there is one |
| `LatexText.NormalizedIsTight` | packages/tui/src/latex.ts:632-643 | normal text neither starts nor ends with white space |
| `LatexText.NormalizeOfSolid` | packages/tui/src/latex.ts:632-643 | text without white space and marks is normal already |
| `LatexNormal.NormalizeKeepsVisible` | packages/tui/src/latex.ts:632-643 | normalising keeps all characters and markers but white space and the marks of named operators, in order |
| `LatexNormal.NormalizeHasNoRuns` | packages/tui/src/latex.ts:632-643 | it leaves no two spaces or tabs in a row |
| `LatexText.RowsInherit` | packages/tui/src/latex.ts:1221-1223 | no row holds a row break, or the start of a marker that the body does not hold; a body without breaks is its only row |
| `LatexText.CellsInherit` | packages/tui/src/latex.ts:1300 | no cell holds a separator, or anything of rows and markers that the row does not hold; a row without separators is its only cell |
| `LatexGrammar.GridLinesAlign` | packages/tui/src/latex.ts:1302-1311 | all rows of a matrix are equally wide |
| `LatexFormula.IndentationIsBlank` | packages/tui/src/latex.ts:1372-1374 | the indentation that is cut off every line is white space |
| `LatexFormula.OutdentingKeepsContent` | packages/tui/src/latex.ts:1372-1378 | every line shows, column by column, what it showed behind the common indentation, up to blanks at its end |
| `LatexFormula.DivergesIffEndless` | packages/tui/src/latex.ts:709-747 | rendering a formula fails to end exactly if it has layout nodes and no depth of recursion is enough |
| `LatexFormula.EndlessIffCycle` | packages/tui/src/latex.ts:709-747 | no depth is enough exactly if a chain of fractions that the text reaches names itself |
| `LatexFormula.CleanSourceEnds` | packages/tui/src/latex.ts:1003-1014 | every source without U+F0000 is rendered, in both modes and for all symbol tables |
| `LatexFormula.FinishedPlain` | packages/tui/src/latex.ts:1372-1379 | removing the indentation and joining the lines neither adds nor removes a marker |
| `LatexFormula.ShownPlainIff` | packages/tui/src/latex.ts:709-795 | the output of a formula is free of the parser's markers exactly if its text is, through every operator, matrix and fraction it reaches, with no broken marker |
| `LatexFormula.MatricesArePlain` | packages/tui/src/latex.ts:1225-1341 | the matrices of every formula are free of the parser's markers |
| `LatexRuns.WrittenMarkerDiverges` | packages/tui/src/latex.ts:1003-1017 | a fraction whose numerator writes out the marker 0 is never rendered, with all symbol tables that know `frac` |
| `LatexRuns.NestedLimitLeavesMarker` | packages/tui/src/latex.ts:748-766 | a sum as the limit of a sum leaves a marker in the output |
| `LatexRuns.OperatorNameLeavesMarker` | packages/tui/src/latex.ts:748-766 | a fraction in the name of an operator with limits leaves a marker in the output |
| `LatexRuns.OrdinaryGroup` | packages/tui/src/latex.ts:1146-1172 | a group of ordinary characters, of any length, means those characters |
| `LatexParser.LatexParser.ParseSequence` | packages/tui/src/latex.ts:819-905 | the loop equals the recursive grammar: text, position, flag and node table; it terminates on every source |
| `LatexParser.LatexParser.ParseCommand` | packages/tui/src/latex.ts:914-1086 | so does each command |
| `LatexParser.LatexParser.ParseFraction` | packages/tui/src/latex.ts:1003-1017 | in display mode pushes the fraction of both arguments and returns its marker, else writes it inline |
| `LatexParser.LatexParser.ParseOperator` | packages/tui/src/latex.ts:1088-1144 | reads the limits in any order and pushes the operator or writes it inline |
| `LatexParser.LatexParser.ParseRequiredArgument` | packages/tui/src/latex.ts:1146-1172 | reads a group, a command or a character, and restores the stacking of fractions |
| `LatexParser.LatexParser.ParseOptionalArgument` | packages/tui/src/latex.ts:1174-1189 | renders the bracketed part in a nested parser, or reads nothing |
| `LatexParser.LatexParser.ReadRawGroup` | packages/tui/src/latex.ts:1191-1219 | the source up to the matching brace; gives up if there is none |
| `LatexParser.LatexParser.ParseEnvironment` | packages/tui/src/latex.ts:1225-1296 | finds the end of the environment and renders its body by its kind |
| `LatexParser.LatexParser.RenderAligned` | packages/tui/src/latex.ts:1258-1269 | pairs of cells are joined and rendered row by row |
| `LatexParser.LatexParser.RenderCases` | packages/tui/src/latex.ts:1270-1290 | one line with its brace for each row, value and condition |
| `LatexParser.LatexParser.RenderMatrix` | packages/tui/src/latex.ts:1298-1341 | one row is written inline; several become a node of padded and delimited lines, with its baseline, and its marker |
| `LatexParser.LatexParser.RenderNested` | packages/tui/src/latex.ts:1343-1350 | a nested parser shares the table and passes on its failure |
| `LatexParser.NodeTable.Push` | packages/tui/src/latex.ts:1012-1014 | appends the node and returns the marker with its index |
| `LatexParser.NodeTable.EndWithStop` | packages/tui/src/latex.ts:886-895 | puts the full stop at the end of the last line of the matrix and changes nothing else |
| `LatexParser.RenderLatex` | packages/tui/src/latex.ts:1362-1380 | parser, layout and removal of the indentation together give what the specification shows, or report that the formula is not supported or that layout does not end |

## Left out

- Live session, connection, publication, lease token and runtime objects are rows of tables keyed by their
  identity, so aliasing between objects is not modelled.
- Concurrency is interleaving at awaits; what the JavaScript runtime does between two awaits is one step,
  except where user code can call back (`ClientProtocol` keeps those calls on a stack).
- Throwing hooks, listeners and event sinks, `handleRunFailure`, and clearing or resetting the queues.
- Timestamps, usage numbers, texts and arguments of messages, and provider requests of the agent loop.
- AgentRun.TurnStep: hooks do not change `newMessages` or the queues in place, and a replacement context does
  not alias the loop's own arrays.
- AgentGrammar.StateReflectsPosition: says of pending tool calls only that they are in progress, because two calls of a
  batch may share an id and the Agent keeps a set of ids; `AgentGrammar.PendingIsInProgress` has both directions where
  none starts while one of the same id is in progress.
- AgentLoop.Loop.RunLoop: a script of turns is finite; a run that uses it up is reported as not done.
- Non-integer `maxFrameLength` values and arguments that are not byte arrays.
- SessionSafety.CloseIsComplete: one call of `close` is modelled; the server guards it with its own promise.
- ServerProtocol.HelloBeforeEverything: order of requests across the handshake, which the server does not keep.
- ClientProtocol.RunKeepsInv: promises of requests are settled in the step that handles the response, before the
  listeners that the client state notifies.
- SessionLeases.LeasesAreCounted: reconciliation of failed cleanups is only its flag.
- PublicationSafety.PublishedMeansUpdated: an update callback that throws.
- Credentials, authentication and streaming of `models.ts`, and the phases of a refresh beyond its publications.
- The regular expression engine and the normalisation of the query in the search; Unicode segmentation and
  display widths are inputs.
- The contents of the LaTeX symbol tables and the classes of letters and digits, which are parameters; the tables are
  assumed not to contain the private character that starts a marker, as those of the code do not.
- LatexFormula.CleanSourceEnds: the parser indexes UTF-16 units, the model code points. A source with the two halves of
  U+F0000 apart, as on both sides of a dropped `&`, holds no U+F0000 and can still come to start a marker.
- LatexParser.RenderLatex: characters are code points of width one, a marker that the parser makes is one piece, and
  layout that does not end is reported instead of entered.
- ListenerOrder.ListenerHearsOrderIff: the set of listeners does not change while they are told.
- CBOR, schema validation, sockets, timers, processes, the file system, the command line and the terminal.
