/**
 A whole run of packages/agent/src/agent-loop.ts as a function of what the environment does in each
 turn: the provider's stream, the tool scripts, the hooks after the turn, and what happens to the
 Agent's queues before each poll.
 */
module AgentRun {
  import opened Prelude
  import opened AgentTypes
  import opened ToolBatch

  // ---------- queues ----------

  datatype QueueMode = All | OneAtATime

  /** `PendingMessageQueue`; `enqueued` and `delivered` record its history. */
  datatype Queue = Queue(items: seq<Message>, mode: QueueMode, enqueued: seq<Message>, delivered: seq<Message>)

  datatype QueueOp =
    | Steer(message: Message)
    | FollowUp(message: Message)
    | SetSteeringMode(mode: QueueMode)
    | SetFollowUpMode(mode: QueueMode)

  function Enqueue(queue: Queue, message: Message): Queue {
    queue.(items := queue.items + [message], enqueued := queue.enqueued + [message])
  }

  /** What `drain` returns. */
  function Drained(queue: Queue): seq<Message> {
    if queue.mode.All? then queue.items else if queue.items == [] then [] else [queue.items[0]]
  }

  function AfterDrain(queue: Queue): Queue {
    queue.(items := queue.items[|Drained(queue)|..], delivered := queue.delivered + Drained(queue))
  }

  datatype Queues = Queues(steering: Queue, followUp: Queue)

  datatype Source = SteeringQueue | FollowUpQueue

  /** What one poll of a queue returned. */
  datatype Poll = Poll(source: Source, messages: seq<Message>)

  /** The messages of all polls, and of those of one queue, in order. */
  function AllPolled(polls: seq<Poll>): seq<Message> {
    if polls == [] then [] else AllPolled(polls[..|polls| - 1]) + polls[|polls| - 1].messages
  }

  function PolledFrom(polls: seq<Poll>, source: Source): seq<Message> {
    if polls == [] then []
    else
      var last := polls[|polls| - 1];
      PolledFrom(polls[..|polls| - 1], source) + if last.source == source then last.messages else []
  }

  function ApplyOp(queues: Queues, op: QueueOp): Queues {
    match op
    case Steer(message) => queues.(steering := Enqueue(queues.steering, message))
    case FollowUp(message) => queues.(followUp := Enqueue(queues.followUp, message))
    case SetSteeringMode(mode) => queues.(steering := queues.steering.(mode := mode))
    case SetFollowUpMode(mode) => queues.(followUp := queues.followUp.(mode := mode))
  }

  function ApplyOps(queues: Queues, ops: seq<QueueOp>): Queues
    decreases |ops|
  {
    if ops == [] then queues else ApplyOps(ApplyOp(queues, ops[0]), ops[1..])
  }

  // ---------- the provider stream ----------

  /** `Delta` stands for all content events, `Finish` for done and error. */
  datatype StreamEvent = Start(partial: AssistantMessage) | Delta(partial: AssistantMessage) | Finish

  datatype Stream = Stream(events: seq<StreamEvent>, final: AssistantMessage)

  /** `streamAssistantResponse`: what becomes of the context, and the events. The last message of the
      context is the partial one once a start event has been seen. */
  function Streamed(context: seq<Message>, started: bool, stream: Stream): (seq<Message>, Trace)
    requires started ==> context != []
    decreases |stream.events|
  {
    var final := FromAssistant(stream.final);
    if stream.events == [] || stream.events[0].Finish? then
      if started then (context[|context| - 1 := final], [MessageEnd(final)])
      else (context + [final], Pair(final))
    else
      var rest := stream.(events := stream.events[1..]);
      match stream.events[0]
      case Start(partial) =>
        var (after, events) := Streamed(context + [FromAssistant(partial)], true, rest);
        (after, [MessageStart(FromAssistant(partial))] + events)
      case Delta(partial) =>
        if started then
          var (after, events) := Streamed(context[|context| - 1 := FromAssistant(partial)], true, rest);
          (after, [MessageUpdate(FromAssistant(partial))] + events)
        else Streamed(context, false, rest)
  }

  /** The start events that the loop sees. */
  function Starts(events: seq<StreamEvent>): nat {
    if events == [] || events[0].Finish? then 0 else (if events[0].Start? then 1 else 0) + Starts(events[1..])
  }

  // ---------- calls of a truncated message ----------

  function Refused(call: ToolCall): Finalized {
    Finalized(call, ErrorOutput(NotExecutedWhenTruncated(call.name)), true)
  }

  /** `failToolCallsFromTruncatedMessage`. */
  function Truncated(calls: seq<ToolCall>): Batch {
    if calls == [] then Batch([], [], [])
    else
      var later := Truncated(calls[1..]);
      Batch([ToolStart(calls[0]), EndEvent(Refused(calls[0]))] + Pair(ResultMessage(Refused(calls[0]))) + later.events,
            [Refused(calls[0])] + later.finalized,
            [])
  }

  // ---------- turns ----------

  /** What the environment does in one turn. `sequential` says that the configuration or a called
      tool asks for sequential execution. `beforeSteering` is what other code does to the queues until
      the steering poll, or until the turn ends the run; `beforeFollowUp` what it does from there on to
      the follow-up poll. */
  datatype Turn = Turn(
    stream: Stream,
    sequential: bool,
    scripts: seq<CallScript>,
    schedule: seq<nat>,
    replacement: Option<seq<Message>>,
    stop: bool,
    beforeSteering: seq<QueueOp>,
    beforeFollowUp: seq<QueueOp>)

  /** The script says something about every call, and the tools it runs come to an end. */
  ghost predicate Fits(turn: Turn) {
    var calls := ToolCalls(turn.stream.final.content);
    |calls| == |turn.scripts| && (!turn.sequential ==> Completes(calls, turn.scripts, turn.schedule))
  }

  ghost predicate AllFit(turns: seq<Turn>) {
    forall i :: 0 <= i < |turns| ==> Fits(turns[i])
  }

  ghost function TurnBatch(turn: Turn): Batch
    requires Fits(turn)
  {
    var calls := ToolCalls(turn.stream.final.content);
    if calls == [] then Batch([], [], [])
    else if turn.stream.final.stopReason.Length? then Truncated(calls)
    else if turn.sequential then Sequential(calls, turn.scripts)
    else Parallel(calls, turn.scripts, turn.schedule)
  }

  ghost predicate HasMoreToolCalls(turn: Turn)
    requires Fits(turn)
  {
    ToolCalls(turn.stream.final.content) != []
    && (turn.stream.final.stopReason.Length? || !ShouldTerminate(TurnBatch(turn).finalized))
  }

  /** What one turn added to the conversation. */
  datatype TurnLog = TurnLog(injected: seq<Message>, response: AssistantMessage, results: seq<Message>)

  function Added(log: TurnLog): seq<Message> {
    log.injected + [FromAssistant(log.response)] + log.results
  }

  /** The loop between two turns. `polls` records what was taken from the queues, `base` and
      `baseAt` the context last handed in and how many new messages there were then. */
  datatype LoopState = LoopState(
    context: seq<Message>,
    newMessages: seq<Message>,
    pending: seq<Message>,
    first: bool,
    done: bool,
    queues: Queues,
    trace: Trace,
    executed: seq<ToolCall>,
    log: seq<TurnLog>,
    polls: seq<Poll>,
    base: seq<Message>,
    baseAt: nat)

  /** The run ends with the messages it added. */
  function Finished(st: LoopState): LoopState {
    st.(done := true, pending := [], trace := st.trace + [AgentEnd(st.newMessages)])
  }

  /** A turn up to its turn_end event. */
  ghost function TurnBody(st: LoopState, turn: Turn): LoopState
    requires Fits(turn)
  {
    var response := turn.stream.final;
    var (streamed, streamEvents) := Streamed(st.context + st.pending, false, turn.stream);
    var failed := response.stopReason.Errored? || response.stopReason.Aborted?;
    var batch := if failed then Batch([], [], []) else TurnBatch(turn);
    var results := ResultMessages(batch.finalized);
    st.(context := streamed + results,
    newMessages := st.newMessages + Added(TurnLog(st.pending, response, results)),
    pending := [],
    first := false,
    trace := st.trace + (if st.first then [] else [TurnStart]) + Pairs(st.pending) + streamEvents
    + batch.events + [TurnEnd(response, results)],
    executed := st.executed + batch.executed,
    log := st.log + [TurnLog(st.pending, response, results)])
  }

  /** A poll of one of the queues. */
  function PollSteering(st: LoopState, ops: seq<QueueOp>): LoopState {
    var queues := ApplyOps(st.queues, ops);
    st.(queues := queues.(steering := AfterDrain(queues.steering)),
    pending := Drained(queues.steering),
    polls := st.polls + [Poll(SteeringQueue, Drained(queues.steering))])
  }

  function PollFollowUp(st: LoopState, ops: seq<QueueOp>): LoopState {
    var queues := ApplyOps(st.queues, ops);
    st.(queues := queues.(followUp := AfterDrain(queues.followUp)),
    pending := Drained(queues.followUp),
    polls := st.polls + [Poll(FollowUpQueue, Drained(queues.followUp))])
  }

  function Replaced(st: LoopState, replacement: Option<seq<Message>>): LoopState {
    if replacement.None? then st
    else st.(context := replacement.value, base := replacement.value, baseAt := |st.newMessages|)
  }

  /** Other code changes the queues. */
  function OpsApplied(st: LoopState, ops: seq<QueueOp>): LoopState {
    st.(queues := ApplyOps(st.queues, ops))
  }

  /** What follows a turn: the hooks, then the polls that decide whether there is another turn. */
  ghost function AfterTurn(st: LoopState, turn: Turn): LoopState
    requires Fits(turn)
  {
    var prepared := Replaced(st, turn.replacement);
    if turn.stop then Finished(OpsApplied(prepared, turn.beforeSteering))
    else
      var steered := PollSteering(prepared, turn.beforeSteering);
      if HasMoreToolCalls(turn) || steered.pending != [] then steered
      else
        var followed := PollFollowUp(steered, turn.beforeFollowUp);
        if followed.pending != [] then followed else Finished(followed)
  }

  ghost function TurnStep(st: LoopState, turn: Turn): LoopState
    requires Fits(turn)
  {
    var body := TurnBody(st, turn);
    if turn.stream.final.stopReason.Errored? || turn.stream.final.stopReason.Aborted?
    then Finished(OpsApplied(body, turn.beforeSteering))
    else AfterTurn(body, turn)
  }

  /** The run over the given turns; it is still going if they are used up before it is done. */
  ghost function RunTurns(st: LoopState, turns: seq<Turn>): LoopState
    requires AllFit(turns)
    decreases |turns|
  {
    if st.done || turns == [] then st else RunTurns(TurnStep(st, turns[0]), turns[1..])
  }

  // ---------- the beginning of a run ----------

  /** `runAgentLoop` and `runAgentLoopContinue` (without prompts) up to the first turn. */
  function Opened(transcript: seq<Message>, prompts: seq<Message>, queues: Queues): LoopState {
    LoopState(transcript + prompts, prompts, [], true, false, queues,
              [AgentStart, TurnStart] + Pairs(prompts), [], [], [], transcript, 0)
  }

  /** The first poll, which a run that continues with queued steering messages skips. */
  function Begun(transcript: seq<Message>, prompts: seq<Message>, queues: Queues, skipPoll: bool,
                 ops: seq<QueueOp>): LoopState
  {
    var begin := Opened(transcript, prompts, queues);
    if skipPoll then OpsApplied(begin, ops) else PollSteering(begin, ops)
  }
}
