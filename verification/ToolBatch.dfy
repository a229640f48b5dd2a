/**
 The tool batches of packages/agent/src/agent-loop.ts as functions of what the environment does: the
 hooks, the tools and the abort flag are recorded per call in a `CallScript`, and the order in which
 concurrent tools make progress in a schedule.
 */
module ToolBatch {
  import opened Prelude
  import opened AgentTypes
  import opened AgentGrammar

  datatype BeforeHook = NoHook | Allows | Blocks(reason: string, terminate: bool) | HookThrows(error: string)

  datatype Execution = Returns(output: ToolOutput) | Throws(error: string)

  datatype AfterHook =
    | NoAfterHook
    | KeepsResult
    | Overrides(content: Option<Text>, details: Option<Text>, usage: Option<string>,
                terminate: Option<bool>, isError: Option<bool>)
    | AfterThrows(error: string)

  /** Everything the environment decides about one tool call. The three flags are the values of
      `signal.aborted` where the loop looks at it. */
  datatype CallScript = CallScript(
    known: bool,
    invalid: Option<string>,
    before: BeforeHook,
    abortedAfterBefore: bool,
    abortedBeforeStart: bool,
    updates: seq<ToolOutput>,
    execution: Execution,
    after: AfterHook,
    abortedAfterCall: bool)

  predicate NeverAborted(script: CallScript) {
    !script.abortedAfterBefore && !script.abortedBeforeStart && !script.abortedAfterCall
  }

  datatype Finalized = Finalized(call: ToolCall, output: ToolOutput, isError: bool)

  function ErrorOutput(message: Text): ToolOutput {
    ToolOutput(Some(message), NoDetails, None, [], None)
  }

  /** `prepareToolCall`: None lets the tool run, Some is the immediate error result. */
  function Preflight(call: ToolCall, script: CallScript): Option<ToolOutput> {
    if !script.known then Some(ErrorOutput(ToolNotFound(call.name)))
    else if script.invalid.Some? then Some(ErrorOutput(Given(script.invalid.value)))
    else
      match script.before
      case HookThrows(error) => Some(ErrorOutput(Given(error)))
      case NoHook => if script.abortedBeforeStart then Some(ErrorOutput(OperationAborted)) else None
      case Allows =>
        if script.abortedAfterBefore || script.abortedBeforeStart then Some(ErrorOutput(OperationAborted)) else None
      case Blocks(reason, terminate) =>
        if script.abortedAfterBefore then Some(ErrorOutput(OperationAborted))
        else
          var output := ErrorOutput(if |reason| == 0 then ExecutionBlocked else Given(reason));
          Some(if terminate then output.(terminate := Some(true)) else output)
  }

  /** `executePreparedToolCall`, then `finalizeExecutedToolCall`. */
  function RunTool(call: ToolCall, script: CallScript): Finalized {
    var executed := match script.execution
      case Returns(output) => Finalized(call, output, false)
      case Throws(error) => Finalized(call, ErrorOutput(Given(error)), true);
    match script.after
    case NoAfterHook => executed
    case KeepsResult => executed
    case AfterThrows(error) => Finalized(call, ErrorOutput(Given(error)), true)
    case Overrides(content, details, usage, terminate, isError) =>
      var output := executed.output;
      Finalized(call,
                output.(content := if content.Some? then content else output.content,
                        details := details.GetOr(output.details),
                        usage := if usage.Some? then usage else output.usage,
                        terminate := if terminate.Some? then terminate else output.terminate),
                isError.GetOr(executed.isError))
  }

  /** The outcome of a call, whichever way the batch runs. */
  function Outcome(call: ToolCall, script: CallScript): Finalized {
    var immediate := Preflight(call, script);
    if immediate.Some? then Finalized(call, immediate.value, true) else RunTool(call, script)
  }

  function ResultMessage(finalized: Finalized): Message {
    FromTool(ToolResult(finalized.call.id, finalized.call.name, finalized.output.content.GetOr(NoContent),
                        finalized.output.details, finalized.output.usage,
                        finalized.output.addedToolNames, finalized.isError))
  }

  function ResultMessages(finalized: seq<Finalized>): (messages: seq<Message>)
    ensures |messages| == |finalized|
  {
    if finalized == [] then [] else [ResultMessage(finalized[0])] + ResultMessages(finalized[1..])
  }

  predicate ShouldTerminate(finalized: seq<Finalized>) {
    |finalized| > 0 && forall i :: 0 <= i < |finalized| ==> finalized[i].output.terminate == Some(true)
  }

  /** `executed` lists the calls whose tool was run. */
  datatype Batch = Batch(events: Trace, finalized: seq<Finalized>, executed: seq<ToolCall>)

  function Updates(call: ToolCall, updates: seq<ToolOutput>): Trace {
    if updates == [] then [] else [ToolUpdate(call, updates[0])] + Updates(call, updates[1..])
  }

  function EndEvent(finalized: Finalized): AgentEvent {
    ToolEnd(finalized.call, finalized.output, finalized.isError)
  }

  // ---------- sequential ----------

  /** The events of one call of a sequential batch. */
  function CallEvents(call: ToolCall, script: CallScript): Trace {
    [ToolStart(call)]
    + (if Preflight(call, script).None? then Updates(call, script.updates) else [])
    + [EndEvent(Outcome(call, script))]
    + Pair(ResultMessage(Outcome(call, script)))
  }

  function Runs(call: ToolCall, script: CallScript): seq<ToolCall> {
    if Preflight(call, script).None? then [call] else []
  }

  function Sequential(calls: seq<ToolCall>, scripts: seq<CallScript>): Batch
    requires |calls| == |scripts|
  {
    if calls == [] then Batch([], [], [])
    else
      var outcome := Outcome(calls[0], scripts[0]);
      var later := if scripts[0].abortedAfterCall then Batch([], [], []) else Sequential(calls[1..], scripts[1..]);
      Batch(CallEvents(calls[0], scripts[0]) + later.events,
            [outcome] + later.finalized,
            Runs(calls[0], scripts[0]) + later.executed)
  }

  // ---------- parallel ----------

  /** A call that is finalized, or a prepared one with the updates it will still report. */
  datatype Entry = Settled(finalized: Finalized) | Running(call: ToolCall, script: CallScript, pending: seq<ToolOutput>)

  datatype Preparation = Preparation(events: Trace, entries: seq<Entry>)

  function PrepareEvents(call: ToolCall, script: CallScript): Trace {
    [ToolStart(call)] + if Preflight(call, script).Some? then [EndEvent(Outcome(call, script))] else []
  }

  function EntryFor(call: ToolCall, script: CallScript): Entry {
    if Preflight(call, script).Some? then Settled(Outcome(call, script)) else Running(call, script, script.updates)
  }

  /** The first loop of the parallel batch: prepares in order, runs nothing. */
  function Prepare(calls: seq<ToolCall>, scripts: seq<CallScript>): Preparation
    requires |calls| == |scripts|
  {
    if calls == [] then Preparation([], [])
    else
      var later := if scripts[0].abortedAfterCall then Preparation([], []) else Prepare(calls[1..], scripts[1..]);
      Preparation(PrepareEvents(calls[0], scripts[0]) + later.events, [EntryFor(calls[0], scripts[0])] + later.entries)
  }

  /** One task makes a step: it reports an update, or is finalized. */
  function Progress(entry: Entry): (Trace, Entry) {
    match entry
    case Settled(_) => ([], entry)
    case Running(call, script, pending) =>
      if pending != [] then ([ToolUpdate(call, pending[0])], Running(call, script, pending[1..]))
      else ([EndEvent(RunTool(call, script))], Settled(RunTool(call, script)))
  }

  /** The tasks interleave as the schedule says; a number that names no task is a step in which
      none makes progress. */
  function Interleave(entries: seq<Entry>, schedule: seq<nat>): (Trace, seq<Entry>)
    decreases |schedule|
  {
    if schedule == [] then ([], entries)
    else if schedule[0] >= |entries| then Interleave(entries, schedule[1..])
    else
      var (events, entry) := Progress(entries[schedule[0]]);
      var (later, final) := Interleave(entries[schedule[0] := entry], schedule[1..]);
      (events + later, final)
  }

  ghost predicate AllSettled(entries: seq<Entry>) {
    forall i :: 0 <= i < |entries| ==> entries[i].Settled?
  }

  function FinalizedOf(entries: seq<Entry>): seq<Finalized>
    requires AllSettled(entries)
  {
    if entries == [] then [] else [entries[0].finalized] + FinalizedOf(entries[1..])
  }

  function ExecutedIn(entries: seq<Entry>): seq<ToolCall> {
    if entries == [] then []
    else (if entries[0].Running? then [entries[0].call] else []) + ExecutedIn(entries[1..])
  }

  /** The schedule gets every task to its end; `Promise.all` waits for that. */
  ghost predicate Completes(calls: seq<ToolCall>, scripts: seq<CallScript>, schedule: seq<nat>) {
    |calls| == |scripts| && AllSettled(Interleave(Prepare(calls, scripts).entries, schedule).1)
  }

  ghost function Parallel(calls: seq<ToolCall>, scripts: seq<CallScript>, schedule: seq<nat>): Batch
    requires Completes(calls, scripts, schedule)
  {
    var preparation := Prepare(calls, scripts);
    var (events, entries) := Interleave(preparation.entries, schedule);
    var finalized := FinalizedOf(entries);
    Batch(preparation.events + events + Pairs(ResultMessages(finalized)), finalized, ExecutedIn(preparation.entries))
  }
}
