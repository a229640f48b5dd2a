/**
 packages/agent/src/agent-loop.ts and agent.ts in their own form: the Agent folds events into its
 state, the loop pushes into the context and the new messages and drains the Agent's queues. Every
 method is proved equal to the functions of `ToolBatch` and `AgentRun`.
 */
module AgentLoop {
  import opened Prelude
  import opened AgentTypes
  import opened AgentGrammar
  import opened ToolBatch
  import opened ToolBatchLaws
  import opened AgentRun
  import opened AgentRunLaws

  class PendingMessageQueue {
    var messages: seq<Message>
    var mode: QueueMode
    ghost var enqueued: seq<Message>
    ghost var delivered: seq<Message>

    ghost function View(): Queue
      reads this
    {
      Queue(messages, mode, enqueued, delivered)
    }

    constructor (mode: QueueMode)
      ensures View() == Queue([], mode, [], [])
    {
      messages, this.mode, enqueued, delivered := [], mode, [], [];
    }

    method Enqueue(message: Message)
      modifies this
      ensures View() == AgentRun.Enqueue(old(View()), message)
    {
      messages := messages + [message];
      enqueued := enqueued + [message];
    }

    method SetMode(mode: QueueMode)
      modifies this
      ensures View() == old(View()).(mode := mode)
    {
      this.mode := mode;
    }

    method Drain() returns (drained: seq<Message>)
      modifies this
      ensures drained == Drained(old(View())) && View() == AfterDrain(old(View()))
    {
      if mode.All? {
        drained := messages;
        messages := [];
        delivered := delivered + drained;
        assert old(messages)[|drained|..] == [];
        return;
      }
      if messages == [] {
        assert delivered + [] == delivered;
        return [];
      }
      drained := [messages[0]];
      messages := messages[1..];
      delivered := delivered + drained;
    }
  }

  class Agent {
    const steeringQueue: PendingMessageQueue
    const followUpQueue: PendingMessageQueue
    var messages: seq<Message>
    var streamingMessage: Option<Message>
    var pendingToolCalls: set<CallId>
    var errorMessage: Option<string>
    /** The events of the current run, and the state it started from. */
    ghost var trace: Trace
    ghost var start: AgentState

    ghost function State(): AgentState
      reads this
    {
      AgentState(messages, streamingMessage, pendingToolCalls, errorMessage)
    }

    ghost function QueuesView(): Queues
      reads this, steeringQueue, followUpQueue
    {
      Queues(steeringQueue.View(), followUpQueue.View())
    }

    ghost predicate Valid()
      reads this
    {
      steeringQueue != followUpQueue && State() == Fold(start, trace)
    }

    constructor (transcript: seq<Message>, steeringMode: QueueMode, followUpMode: QueueMode)
      ensures Valid() && fresh(steeringQueue) && fresh(followUpQueue)
      ensures messages == transcript && trace == [] && BothConserve(QueuesView())
    {
      steeringQueue := new PendingMessageQueue(steeringMode);
      followUpQueue := new PendingMessageQueue(followUpMode);
      messages, streamingMessage, pendingToolCalls, errorMessage := transcript, None, {}, None;
      start, trace := AgentState(transcript, None, {}, None), [];
    }

    /** Reduces the state for one event of the loop. */
    method ProcessEvent(event: AgentEvent)
      requires Valid()
      modifies this
      ensures Valid() && start == old(start)
      ensures trace == old(trace) + [event]
      ensures State() == Reduce(old(State()), event)
    {
      match event {
        case MessageStart(message) => streamingMessage := Some(message);
        case MessageUpdate(message) => streamingMessage := Some(message);
        case MessageEnd(message) =>
          streamingMessage := None;
          messages := messages + [message];
        case ToolStart(call) => pendingToolCalls := pendingToolCalls + {call.id};
        case ToolEnd(call, _, _) => pendingToolCalls := pendingToolCalls - {call.id};
        case TurnEnd(response, _) =>
          if response.errorMessage.Some? && |response.errorMessage.value| > 0 {
            errorMessage := response.errorMessage;
          }
        case AgentEnd(_) => streamingMessage := None;
        case _ =>
      }
      FoldInTwoParts(start, trace, [event]);
      FoldOne(Fold(start, trace), event);
      trace := trace + [event];
    }

    /** `runWithLifecycle` before the executor runs. */
    method BeginRun()
      modifies this
      ensures State() == old(State()).(streamingMessage := None, errorMessage := None)
      ensures trace == [] && start == State()
    {
      streamingMessage, errorMessage := None, None;
      start, trace := State(), [];
    }

    /** `finishRun`. */
    method FinishRun()
      modifies this
      ensures State() == old(State()).(streamingMessage := None, pendingToolCalls := {})
      ensures trace == [] && start == State()
    {
      streamingMessage, pendingToolCalls := None, {};
      start, trace := State(), [];
    }

    /** Other code using the Agent while the loop awaits something. */
    method Apply(ops: seq<QueueOp>)
      requires steeringQueue != followUpQueue
      modifies steeringQueue, followUpQueue
      ensures QueuesView() == ApplyOps(old(QueuesView()), ops)
    {
      ghost var before := QueuesView();
      for i := 0 to |ops|
        invariant ApplyOps(before, ops) == ApplyOps(QueuesView(), ops[i..])
      {
        assert ops[i..][1..] == ops[i + 1..];
        match ops[i] {
          case Steer(message) => steeringQueue.Enqueue(message);
          case FollowUp(message) => followUpQueue.Enqueue(message);
          case SetSteeringMode(mode) => steeringQueue.SetMode(mode);
          case SetFollowUpMode(mode) => followUpQueue.SetMode(mode);
        }
      }
    }
  }

  lemma FoldOne(state: AgentState, event: AgentEvent)
    ensures Fold(state, [event]) == Reduce(state, event)
  {
    assert [event][1..] == [];
  }

  class Loop {
    const agent: Agent
    var context: seq<Message>
    var newMessages: seq<Message>
    ghost var executed: seq<ToolCall>

    constructor (agent: Agent, context: seq<Message>, newMessages: seq<Message>)
      ensures this.agent == agent && this.context == context && this.newMessages == newMessages && executed == []
    {
      this.agent, this.context, this.newMessages, executed := agent, context, newMessages, [];
    }

    /** Emits the two events of a message that is not streamed. */
    method EmitMessage(message: Message)
      requires agent.Valid()
      modifies agent
      ensures agent.Valid() && agent.start == old(agent.start)
      ensures agent.trace == old(agent.trace) + Pair(message)
    {
      agent.ProcessEvent(MessageStart(message));
      agent.ProcessEvent(MessageEnd(message));
      Associates(old(agent.trace), [MessageStart(message)], [MessageEnd(message)]);
    }

    method EmitMessages(messages: seq<Message>)
      requires agent.Valid()
      modifies agent
      ensures agent.Valid() && agent.start == old(agent.start)
      ensures agent.trace == old(agent.trace) + Pairs(messages)
    {
      ghost var before := agent.trace;
      assert messages[0..] == messages;
      for i := 0 to |messages|
        invariant agent.Valid() && agent.start == old(agent.start)
        invariant before + Pairs(messages) == agent.trace + Pairs(messages[i..])
      {
        ghost var soFar := agent.trace;
        EmitMessage(messages[i]);
        assert messages[i..][1..] == messages[i + 1..];
        Associates(soFar, Pair(messages[i]), Pairs(messages[i + 1..]));
      }
      assert agent.trace + [] == agent.trace;
    }

    /** `streamAssistantResponse`, with the partial message kept as the last of the context. */
    method StreamAssistantResponse(stream: Stream) returns (message: AssistantMessage)
      requires agent.Valid()
      modifies this`context, agent
      ensures agent.Valid() && agent.start == old(agent.start)
      ensures message == stream.final
      ensures context == Streamed(old(context), false, stream).0
      ensures agent.trace == old(agent.trace) + Streamed(old(context), false, stream).1
    {
      ghost var before, target := agent.trace, Streamed(context, false, stream);
      var addedPartial := false;
      var i := 0;
      assert stream.events[0..] == stream.events;
      while i < |stream.events| && !stream.events[i].Finish?
        invariant 0 <= i <= |stream.events|
        invariant agent.Valid() && agent.start == old(agent.start)
        invariant addedPartial ==> context != []
        invariant target.0 == Streamed(context, addedPartial, stream.(events := stream.events[i..])).0
        invariant before + target.1 == agent.trace + Streamed(context, addedPartial, stream.(events := stream.events[i..])).1
        decreases |stream.events| - i
      {
        ghost var soFar := agent.trace;
        assert stream.events[i..][1..] == stream.events[i + 1..];
        match stream.events[i] {
          case Start(partial) =>
            context := context + [FromAssistant(partial)];
            addedPartial := true;
            agent.ProcessEvent(MessageStart(FromAssistant(partial)));
            Associates(soFar, [MessageStart(FromAssistant(partial))],
                       Streamed(context, true, stream.(events := stream.events[i + 1..])).1);
          case Delta(partial) =>
            if addedPartial {
              context := context[|context| - 1 := FromAssistant(partial)];
              agent.ProcessEvent(MessageUpdate(FromAssistant(partial)));
              Associates(soFar, [MessageUpdate(FromAssistant(partial))],
                         Streamed(context, true, stream.(events := stream.events[i + 1..])).1);
            }
        }
        i := i + 1;
      }
      var final := FromAssistant(stream.final);
      if addedPartial {
        context := context[|context| - 1 := final];
        agent.ProcessEvent(MessageEnd(final));
      } else {
        context := context + [final];
        EmitMessage(final);
      }
      return stream.final;
    }

    /** `failToolCallsFromTruncatedMessage`. */
    method FailToolCalls(calls: seq<ToolCall>) returns (messages: seq<Message>)
      requires agent.Valid()
      modifies agent
      ensures agent.Valid() && agent.start == old(agent.start)
      ensures agent.trace == old(agent.trace) + Truncated(calls).events
      ensures messages == ResultMessages(Truncated(calls).finalized)
    {
      ghost var before := agent.trace;
      messages := [];
      assert calls[0..] == calls;
      for i := 0 to |calls|
        invariant agent.Valid() && agent.start == old(agent.start)
        invariant before + Truncated(calls).events == agent.trace + Truncated(calls[i..]).events
        invariant ResultMessages(Truncated(calls).finalized) == messages + ResultMessages(Truncated(calls[i..]).finalized)
      {
        ghost var soFar, rest := agent.trace, Truncated(calls[i + 1..]);
        assert calls[i..][1..] == calls[i + 1..];
        var finalized := Refused(calls[i]);
        agent.ProcessEvent(ToolStart(calls[i]));
        agent.ProcessEvent(EndEvent(finalized));
        EmitMessage(ResultMessage(finalized));
        CallAppended(soFar, [ToolStart(calls[i]), EndEvent(finalized)], Pair(ResultMessage(finalized)), rest.events);
        assert ([finalized] + rest.finalized)[1..] == rest.finalized;
        Associates(messages, [ResultMessage(finalized)], ResultMessages(rest.finalized));
        messages := messages + [ResultMessage(finalized)];
      }
      assert agent.trace + [] == agent.trace && messages + [] == messages;
    }

    method ReportUpdates(call: ToolCall, updates: seq<ToolOutput>)
      requires agent.Valid()
      modifies agent
      ensures agent.Valid() && agent.start == old(agent.start)
      ensures agent.trace == old(agent.trace) + Updates(call, updates)
    {
      ghost var before := agent.trace;
      assert updates[0..] == updates;
      for i := 0 to |updates|
        invariant agent.Valid() && agent.start == old(agent.start)
        invariant before + Updates(call, updates) == agent.trace + Updates(call, updates[i..])
      {
        ghost var soFar := agent.trace;
        assert updates[i..][1..] == updates[i + 1..];
        agent.ProcessEvent(ToolUpdate(call, updates[i]));
        Associates(soFar, [ToolUpdate(call, updates[i])], Updates(call, updates[i + 1..]));
      }
      assert agent.trace + [] == agent.trace;
    }

    /** One call of a sequential batch. */
    method ExecuteCall(call: ToolCall, script: CallScript) returns (finalized: Finalized)
      requires agent.Valid()
      modifies agent, this`executed
      ensures agent.Valid() && agent.start == old(agent.start)
      ensures agent.trace == old(agent.trace) + CallEvents(call, script)
      ensures finalized == Outcome(call, script)
      ensures executed == old(executed) + Runs(call, script)
    {
      ghost var before := agent.trace;
      agent.ProcessEvent(ToolStart(call));
      var preparation := Preflight(call, script);
      ghost var updates: Trace := [];
      if preparation.Some? {
        finalized := Finalized(call, preparation.value, true);
        assert executed + [] == executed;
      } else {
        executed := executed + [call];
        ReportUpdates(call, script.updates);
        updates := Updates(call, script.updates);
        finalized := RunTool(call, script);
      }
      assert agent.trace == before + [ToolStart(call)] + updates;
      agent.ProcessEvent(EndEvent(finalized));
      EmitMessage(ResultMessage(finalized));
      CallEventsAppended(before, [ToolStart(call)], updates, [EndEvent(finalized)], Pair(ResultMessage(finalized)));
    }

    method ExecuteToolCallsSequential(calls: seq<ToolCall>, scripts: seq<CallScript>)
      returns (messages: seq<Message>, terminate: bool)
      requires agent.Valid() && |calls| == |scripts|
      modifies agent, this`executed
      ensures agent.Valid() && agent.start == old(agent.start)
      ensures var batch := Sequential(calls, scripts);
              && agent.trace == old(agent.trace) + batch.events
              && messages == ResultMessages(batch.finalized)
              && terminate == ShouldTerminate(batch.finalized)
              && executed == old(executed) + batch.executed
    {
      ghost var before, ran, batch := agent.trace, executed, Sequential(calls, scripts);
      var finalizedCalls: seq<Finalized> := [];
      messages := [];
      ghost var rest := batch;
      var i := 0;
      assert calls[0..] == calls && scripts[0..] == scripts;
      while i < |calls|
        invariant 0 <= i <= |calls|
        invariant agent.Valid() && agent.start == old(agent.start)
        invariant rest == Sequential(calls[i..], scripts[i..])
        invariant before + batch.events == agent.trace + rest.events
        invariant batch.finalized == finalizedCalls + rest.finalized
        invariant ran + batch.executed == executed + rest.executed
        invariant messages == ResultMessages(finalizedCalls)
        decreases |calls| - i
      {
        ghost var soFar, ranSoFar := agent.trace, executed;
        assert calls[i..][1..] == calls[i + 1..] && scripts[i..][1..] == scripts[i + 1..];
        ghost var later := if scripts[i].abortedAfterCall then Batch([], [], []) else Sequential(calls[i + 1..], scripts[i + 1..]);
        var finalized := ExecuteCall(calls[i], scripts[i]);
        Associates(soFar, CallEvents(calls[i], scripts[i]), later.events);
        Associates(finalizedCalls, [finalized], later.finalized);
        Associates(ranSoFar, Runs(calls[i], scripts[i]), later.executed);
        ResultMessagesAppend(finalizedCalls, finalized);
        finalizedCalls := finalizedCalls + [finalized];
        messages := messages + [ResultMessage(finalized)];
        rest := later;
        i := i + 1;
        if scripts[i - 1].abortedAfterCall {
          break;
        }
      }
      assert rest == Batch([], [], []);
      assert agent.trace + [] == agent.trace && finalizedCalls + [] == finalizedCalls && executed + [] == executed;
      terminate := ShouldTerminate(finalizedCalls);
    }

    /** The first loop of `executeToolCallsParallel`: nothing is executed yet. */
    method PrepareCalls(calls: seq<ToolCall>, scripts: seq<CallScript>) returns (entries: seq<Entry>)
      requires agent.Valid() && |calls| == |scripts|
      modifies agent
      ensures agent.Valid() && agent.start == old(agent.start)
      ensures agent.trace == old(agent.trace) + Prepare(calls, scripts).events
      ensures entries == Prepare(calls, scripts).entries
    {
      ghost var before, preparation := agent.trace, Prepare(calls, scripts);
      ghost var rest := preparation;
      entries := [];
      var i := 0;
      assert calls[0..] == calls && scripts[0..] == scripts;
      while i < |calls|
        invariant 0 <= i <= |calls|
        invariant agent.Valid() && agent.start == old(agent.start)
        invariant rest == Prepare(calls[i..], scripts[i..])
        invariant before + preparation.events == agent.trace + rest.events
        invariant preparation.entries == entries + rest.entries
        decreases |calls| - i
      {
        ghost var soFar := agent.trace;
        assert calls[i..][1..] == calls[i + 1..] && scripts[i..][1..] == scripts[i + 1..];
        ghost var later := if scripts[i].abortedAfterCall then Preparation([], []) else Prepare(calls[i + 1..], scripts[i + 1..]);
        agent.ProcessEvent(ToolStart(calls[i]));
        var immediate := Preflight(calls[i], scripts[i]);
        var entry;
        if immediate.Some? {
          var finalized := Finalized(calls[i], immediate.value, true);
          agent.ProcessEvent(EndEvent(finalized));
          entry := Settled(finalized);
        } else {
          entry := Running(calls[i], scripts[i], scripts[i].updates);
        }
        assert agent.trace == soFar + PrepareEvents(calls[i], scripts[i]);
        Associates(soFar, PrepareEvents(calls[i], scripts[i]), later.events);
        Associates(entries, [entry], later.entries);
        entries := entries + [entry];
        rest := later;
        i := i + 1;
        if scripts[i - 1].abortedAfterCall {
          break;
        }
      }
      assert agent.trace + [] == agent.trace && entries + [] == entries;
    }

    /** The prepared tools make progress in the order of the schedule until all are finalized. */
    method RunConcurrently(entries: seq<Entry>, schedule: seq<nat>) returns (final: seq<Entry>)
      requires agent.Valid()
      modifies agent, this`executed
      ensures agent.Valid() && agent.start == old(agent.start)
      ensures agent.trace == old(agent.trace) + Interleave(entries, schedule).0
      ensures final == Interleave(entries, schedule).1
      ensures executed == old(executed) + ExecutedIn(entries)
    {
      ghost var before := agent.trace;
      executed := executed + ExecutedIn(entries);
      final := entries;
      assert schedule[0..] == schedule;
      for i := 0 to |schedule|
        invariant agent.Valid() && agent.start == old(agent.start)
        invariant executed == old(executed) + ExecutedIn(entries)
        invariant before + Interleave(entries, schedule).0 == agent.trace + Interleave(final, schedule[i..]).0
        invariant Interleave(entries, schedule).1 == Interleave(final, schedule[i..]).1
      {
        assert schedule[i..][1..] == schedule[i + 1..];
        var at := schedule[i];
        if at < |final| {
          ghost var soFar, task := agent.trace, final[at];
          match final[at] {
            case Settled(_) =>
              assert agent.trace + [] == agent.trace && final[at := final[at]] == final;
            case Running(call, script, pending) =>
              if pending != [] {
                agent.ProcessEvent(ToolUpdate(call, pending[0]));
                final := final[at := Running(call, script, pending[1..])];
              } else {
                var finalized := RunTool(call, script);
                agent.ProcessEvent(EndEvent(finalized));
                final := final[at := Settled(finalized)];
              }
          }
          assert agent.trace == soFar + Progress(task).0;
          Associates(soFar, Progress(task).0, Interleave(final, schedule[i + 1..]).0);
        }
      }
      assert schedule[|schedule|..] == [] && agent.trace + [] == agent.trace;
    }

    method ExecuteToolCallsParallel(calls: seq<ToolCall>, scripts: seq<CallScript>, schedule: seq<nat>)
      returns (messages: seq<Message>, terminate: bool)
      requires agent.Valid() && Completes(calls, scripts, schedule)
      modifies agent, this`executed
      ensures agent.Valid() && agent.start == old(agent.start)
      ensures var batch := Parallel(calls, scripts, schedule);
              && agent.trace == old(agent.trace) + batch.events
              && messages == ResultMessages(batch.finalized)
              && terminate == ShouldTerminate(batch.finalized)
              && executed == old(executed) + batch.executed
    {
      ghost var before := agent.trace;
      var entries := PrepareCalls(calls, scripts);
      var ordered := RunConcurrently(entries, schedule);
      var finalizedCalls := FinalizedOf(ordered);
      messages := CreateMessages(finalizedCalls);
      EmitMessages(messages);
      ParallelAppended(before, Prepare(calls, scripts).events, Interleave(entries, schedule).0, Pairs(messages));
      terminate := ShouldTerminate(finalizedCalls);
    }

    /** The batch of a turn: refused, sequential or parallel. */
    method ExecuteToolCalls(calls: seq<ToolCall>, turn: Turn) returns (messages: seq<Message>, terminate: bool)
      requires agent.Valid() && Fits(turn) && calls == ToolCalls(turn.stream.final.content) && calls != []
      modifies agent, this`executed
      ensures agent.Valid() && agent.start == old(agent.start)
      ensures var batch := TurnBatch(turn);
              && agent.trace == old(agent.trace) + batch.events
              && messages == ResultMessages(batch.finalized)
              && executed == old(executed) + batch.executed
      ensures !terminate <==> HasMoreToolCalls(turn)
    {
      if turn.stream.final.stopReason.Length? {
        messages := FailToolCalls(calls);
        terminate := false;
        TruncatedRefusesAll(0, calls);
        assert executed + [] == executed;
      } else if turn.sequential {
        messages, terminate := ExecuteToolCallsSequential(calls, turn.scripts);
      } else {
        messages, terminate := ExecuteToolCallsParallel(calls, turn.scripts, turn.schedule);
      }
    }

    /** The state of the loop, given what only the caller knows of it. */
    ghost function View(pending: seq<Message>, first: bool, history: LoopState): LoopState
      reads this, agent, agent.steeringQueue, agent.followUpQueue
    {
      history.(context := context, newMessages := newMessages, pending := pending, first := first, done := false,
               queues := agent.QueuesView(), trace := agent.trace, executed := executed)
    }

    /** One turn up to its turn_end. */
    method RunTurn(turn: Turn, pending: seq<Message>, first: bool, ghost history: LoopState)
      returns (failed: bool, hasMoreToolCalls: bool)
      requires agent.Valid() && Fits(turn)
      modifies this, agent
      ensures agent.Valid() && agent.start == old(agent.start)
      ensures View([], false, TurnBody(old(View(pending, first, history)), turn))
              == TurnBody(old(View(pending, first, history)), turn)
      ensures failed <==> turn.stream.final.stopReason.Errored? || turn.stream.final.stopReason.Aborted?
      ensures !failed ==> (hasMoreToolCalls <==> HasMoreToolCalls(turn))
    {
      ghost var before := agent.trace;
      if !first {
        agent.ProcessEvent(TurnStart);
      } else {
        assert agent.trace + [] == agent.trace;
      }
      EmitMessages(pending);
      context := context + pending;
      newMessages := newMessages + pending;
      ghost var withPending := context;
      var message := StreamAssistantResponse(turn.stream);
      newMessages := newMessages + [FromAssistant(message)];
      if message.stopReason.Errored? || message.stopReason.Aborted? {
        agent.ProcessEvent(TurnEnd(message, []));
        BodyAppended(before, if first then [] else [TurnStart], Pairs(pending),
                     Streamed(withPending, false, turn.stream).1, [TurnEnd(message, [])]);
        AddedAppended(old(newMessages), TurnLog(pending, message, []));
        assert executed + [] == executed && context + [] == context;
        return true, false;
      }
      var toolCalls := ToolCalls(message.content);
      var toolResults: seq<Message> := [];
      hasMoreToolCalls := false;
      if toolCalls != [] {
        var terminate;
        toolResults, terminate := ExecuteToolCalls(toolCalls, turn);
        hasMoreToolCalls := !terminate;
      } else {
        assert agent.trace + [] == agent.trace && executed + [] == executed;
      }
      context := context + toolResults;
      newMessages := newMessages + toolResults;
      agent.ProcessEvent(TurnEnd(message, toolResults));
      AddedAppended(old(newMessages), TurnLog(pending, message, toolResults));
      return false, hasMoreToolCalls;
    }

    /** A poll of the steering queue, after what other code did to the queues. */
    method GetSteeringMessages(ops: seq<QueueOp>) returns (polled: seq<Message>)
      requires agent.steeringQueue != agent.followUpQueue
      modifies agent.steeringQueue, agent.followUpQueue
      ensures var queues := ApplyOps(old(agent.QueuesView()), ops);
              && polled == Drained(queues.steering)
              && agent.QueuesView() == queues.(steering := AfterDrain(queues.steering))
    {
      agent.Apply(ops);
      polled := agent.steeringQueue.Drain();
    }

    method GetFollowUpMessages(ops: seq<QueueOp>) returns (polled: seq<Message>)
      requires agent.steeringQueue != agent.followUpQueue
      modifies agent.steeringQueue, agent.followUpQueue
      ensures var queues := ApplyOps(old(agent.QueuesView()), ops);
              && polled == Drained(queues.followUp)
              && agent.QueuesView() == queues.(followUp := AfterDrain(queues.followUp))
    {
      agent.Apply(ops);
      polled := agent.followUpQueue.Drain();
    }

    /** What a turn without further tool calls and steering messages leads to. */
    ghost function AfterFollowUpPoll(st: LoopState, turn: Turn): LoopState {
      var followed := PollFollowUp(st, turn.beforeFollowUp);
      if followed.pending != [] then followed else Finished(followed)
    }

    /** The body of the inner loop: a turn, the hooks after it, and the steering poll. */
    method TurnAndPoll(turn: Turn, pending: seq<Message>, first: bool, ghost history: LoopState,
                       ghost remaining: seq<Turn>)
      returns (ended: bool, hasMoreToolCalls: bool, polled: seq<Message>, ghost st: LoopState)
      requires agent.Valid() && AllFit(remaining) && remaining != [] && turn == remaining[0]
      requires history == View(pending, first, history)
      modifies this, agent, agent.steeringQueue, agent.followUpQueue
      ensures agent.Valid() && agent.start == old(agent.start)
      ensures st == View(polled, false, st).(done := ended)
      ensures ended ==> st == RunTurns(history, remaining)
      ensures !ended && (hasMoreToolCalls || |polled| > 0) ==> RunTurns(st, remaining[1..]) == RunTurns(history, remaining)
      ensures !ended && !hasMoreToolCalls && |polled| == 0 ==>
                RunTurns(AfterFollowUpPoll(st, turn), remaining[1..]) == RunTurns(history, remaining)
    {
      var failed;
      failed, hasMoreToolCalls := RunTurn(turn, pending, first, history);
      st := TurnBody(history, turn);
      if failed {
        agent.Apply(turn.beforeSteering);
        agent.ProcessEvent(AgentEnd(newMessages));
        return true, false, [], Finished(OpsApplied(st, turn.beforeSteering));
      }
      if turn.replacement.Some? {
        context := turn.replacement.value;
      }
      st := Replaced(st, turn.replacement);
      if turn.stop {
        agent.Apply(turn.beforeSteering);
        agent.ProcessEvent(AgentEnd(newMessages));
        return true, false, [], Finished(OpsApplied(st, turn.beforeSteering));
      }
      polled := GetSteeringMessages(turn.beforeSteering);
      return false, hasMoreToolCalls, polled, PollSteering(st, turn.beforeSteering);
    }

    /** The poll for follow-up messages, at which the run goes on or comes to its end. */
    method FollowUpOrFinish(turn: Turn, first: bool, ghost history: LoopState, ghost rest: seq<Turn>)
      returns (followUpMessages: seq<Message>, ghost st: LoopState)
      requires agent.Valid() && AllFit(rest)
      requires history == View([], first, history)
      modifies agent, agent.steeringQueue, agent.followUpQueue
      ensures agent.Valid() && agent.start == old(agent.start)
      ensures st == View(followUpMessages, first, st).(done := |followUpMessages| == 0)
      ensures RunTurns(st, rest) == RunTurns(AfterFollowUpPoll(history, turn), rest)
    {
      followUpMessages := GetFollowUpMessages(turn.beforeFollowUp);
      st := PollFollowUp(history, turn.beforeFollowUp);
      if |followUpMessages| == 0 {
        agent.ProcessEvent(AgentEnd(newMessages));
        st := Finished(st);
      }
    }

    /** `runLoop`. The run is not done when the turns of the script are used up first. `st` carries
        the history that the code does not keep. */
    method RunLoop(turns: seq<Turn>, skipInitialPoll: bool, initialOps: seq<QueueOp>, ghost begin: LoopState)
      returns (done: bool, ghost st: LoopState)
      requires agent.Valid() && AllFit(turns)
      requires begin == View([], true, begin)
      modifies this, agent, agent.steeringQueue, agent.followUpQueue
      ensures agent.Valid() && agent.start == old(agent.start)
      ensures st == RunTurns(
                      if skipInitialPoll then begin.(queues := ApplyOps(begin.queues, initialOps))
                      else PollSteering(begin, initialOps), turns)
      ensures done == st.done
      ensures st == View(st.pending, st.first, st).(done := done)
    {
      var firstTurn := true;
      var pendingMessages: seq<Message> := [];
      if skipInitialPoll {
        agent.Apply(initialOps);
        st := begin.(queues := ApplyOps(begin.queues, initialOps));
      } else {
        pendingMessages := GetSteeringMessages(initialOps);
        st := PollSteering(begin, initialOps);
      }
      ghost var target := RunTurns(st, turns);
      var rest := turns;
      while true
        invariant agent.Valid() && agent.start == old(agent.start) && AllFit(rest)
        invariant st == View(pendingMessages, firstTurn, st)
        invariant target == RunTurns(st, rest)
        decreases |rest|
      {
        if rest == [] {
          return false, st;
        }
        var hasMoreToolCalls := true;
        var turn := rest[0];
        ghost var atLeast := |rest|;
        while hasMoreToolCalls || |pendingMessages| > 0
          invariant agent.Valid() && agent.start == old(agent.start) && AllFit(rest)
          invariant |rest| < atLeast || (hasMoreToolCalls && |rest| == atLeast)
          invariant st == View(pendingMessages, firstTurn, st)
          invariant target == if hasMoreToolCalls || |pendingMessages| > 0 then RunTurns(st, rest)
                              else RunTurns(AfterFollowUpPoll(st, turn), rest)
          decreases |rest|
        {
          if rest == [] {
            return false, st;
          }
          turn := rest[0];
          ghost var remaining := rest;
          rest := rest[1..];
          var ended;
          ended, hasMoreToolCalls, pendingMessages, st :=
            TurnAndPoll(turn, pendingMessages, firstTurn, st, remaining);
          firstTurn := false;
          if ended {
            return true, st;
          }
        }
        pendingMessages, st := FollowUpOrFinish(turn, firstTurn, st, rest);
        if |pendingMessages| == 0 {
          return true, st;
        }
      }
    }
  }

  /** A run of the Agent on prompts, or a continuation when there are none, as `runWithLifecycle` and
      `runAgentLoop` do it: the returned state is the one of `AgentRun`, and the Agent's transcript is
      the old one plus the new messages. */
  method RunAgent(agent: Agent, prompts: seq<Message>, turns: seq<Turn>, skipInitialPoll: bool, initialOps: seq<QueueOp>)
    returns (done: bool, newMessages: seq<Message>, ghost st: LoopState)
    requires agent.steeringQueue != agent.followUpQueue && AllProper(turns) && BothConserve(agent.QueuesView())
    modifies agent, agent.steeringQueue, agent.followUpQueue
    ensures st == Reached(old(agent.messages), prompts, old(agent.QueuesView()), skipInitialPoll, initialOps, turns)
    ensures done == st.done && newMessages == st.newMessages
    ensures agent.messages == old(agent.messages) + newMessages
    ensures agent.QueuesView() == st.queues
    ensures done ==> agent.streamingMessage.None? && agent.pendingToolCalls == {}
  {
    agent.BeginRun();
    ghost var queues := agent.QueuesView();
    ghost var transcript := agent.messages;
    var loop := new Loop(agent, agent.messages + prompts, prompts);
    agent.ProcessEvent(AgentStart);
    agent.ProcessEvent(TurnStart);
    loop.EmitMessages(prompts);
    assert agent.trace == [AgentStart, TurnStart] + Pairs(prompts);
    ghost var begin := Opened(transcript, prompts, queues);
    done, st := loop.RunLoop(turns, skipInitialPoll, initialOps, begin);
    newMessages := loop.newMessages;
    HistoriesAgreeThroughout(transcript, prompts, queues, skipInitialPoll, initialOps, turns, agent.start);
    if done {
      agent.FinishRun();
    }
  }

  datatype Continuation = NoMessages | LastIsAssistant | Continued(done: bool, newMessages: seq<Message>)

  /** `continue`. After an assistant message only queued messages can start a run: steering messages,
      with the run's first poll skipped, or else follow-up messages. */
  method Continue(agent: Agent, turns: seq<Turn>, initialOps: seq<QueueOp>)
    returns (outcome: Continuation, ghost st: LoopState)
    requires agent.steeringQueue != agent.followUpQueue && AllProper(turns) && BothConserve(agent.QueuesView())
    modifies agent, agent.steeringQueue, agent.followUpQueue
    ensures outcome.NoMessages? <==> old(agent.messages) == []
    ensures outcome.LastIsAssistant? <==>
            && EndsWithAssistant(old(agent.messages))
            && old(agent.QueuesView()).steering.items == [] && old(agent.QueuesView()).followUp.items == []
    ensures !outcome.Continued? ==> agent.State() == old(agent.State())
                                    && agent.QueuesView().steering.items == old(agent.QueuesView()).steering.items
                                    && agent.QueuesView().followUp.items == old(agent.QueuesView()).followUp.items
    ensures outcome.Continued? ==>
              && outcome.done == st.done && outcome.newMessages == st.newMessages
              && agent.QueuesView() == st.queues && BothConserve(st.queues)
              && agent.messages == old(agent.messages) + st.newMessages
              && st.newMessages == Resumed(old(agent.messages), old(agent.QueuesView())).0 + AllAdded(st.log)
              && AllPolled(st.polls) == AllInjected(st.log) + st.pending
              && Delivered(st.queues, Resumed(old(agent.messages), old(agent.QueuesView())).1, st.polls)
  {
    st := Opened(agent.messages, [], agent.QueuesView());
    var transcript := agent.messages;
    ghost var queues := agent.QueuesView();
    DrainConserves(queues.steering);
    DrainConserves(queues.followUp);
    if transcript == [] {
      return NoMessages, st;
    }
    var prompts: seq<Message>, skipInitialPoll := [], false;
    if transcript[|transcript| - 1].FromAssistant? {
      prompts := agent.steeringQueue.Drain();
      if |prompts| > 0 {
        skipInitialPoll := true;
      } else {
        DrainedEmpty(queues.steering);
        prompts := agent.followUpQueue.Drain();
        if |prompts| == 0 {
          return LastIsAssistant, st;
        }
      }
    }
    ghost var resumed := agent.QueuesView();
    var done, newMessages;
    done, newMessages, st := RunAgent(agent, prompts, turns, skipInitialPoll, initialOps);
    QueuesAreConserved(transcript, prompts, resumed, skipInitialPoll, initialOps, turns);
    return Continued(done, newMessages), st;
  }

  predicate EndsWithAssistant(messages: seq<Message>) {
    messages != [] && messages[|messages| - 1].FromAssistant?
  }

  /** The prompts that `continue` takes from the queues, and the queues it leaves. */
  function Resumed(transcript: seq<Message>, queues: Queues): (seq<Message>, Queues) {
    if !EndsWithAssistant(transcript) then ([], queues)
    else if queues.steering.items != [] then
      (Drained(queues.steering), queues.(steering := AfterDrain(queues.steering)))
    else (Drained(queues.followUp), queues.(followUp := AfterDrain(queues.followUp)))
  }

  lemma DrainedEmpty(queue: Queue)
    requires queue.items == []
    ensures AfterDrain(queue) == queue
  {
    assert queue.delivered + [] == queue.delivered;
  }

  lemma BodyAppended(before: Trace, a: Trace, b: Trace, c: Trace, e: Trace)
    ensures before + a + b + c + [] + e == before + a + b + c + e
  {
  }

  lemma AddedAppended(before: seq<Message>, log: TurnLog)
    ensures before + log.injected + [FromAssistant(log.response)] + log.results == before + Added(log)
    ensures before + log.injected + [FromAssistant(log.response)] + [] == before + log.injected + [FromAssistant(log.response)]
  {
  }

  /** The result messages of a batch, in the order of its calls. */
  method CreateMessages(finalizedCalls: seq<Finalized>) returns (messages: seq<Message>)
    ensures messages == ResultMessages(finalizedCalls)
  {
    messages := [];
    for i := 0 to |finalizedCalls|
      invariant messages == ResultMessages(finalizedCalls[..i])
    {
      TakeOneMore(finalizedCalls, i);
      ResultMessagesAppend(finalizedCalls[..i], finalizedCalls[i]);
      messages := messages + [ResultMessage(finalizedCalls[i])];
    }
    assert finalizedCalls[..|finalizedCalls|] == finalizedCalls;
  }

  lemma ResultMessagesAppend(finalized: seq<Finalized>, last: Finalized)
    ensures ResultMessages(finalized + [last]) == ResultMessages(finalized) + [ResultMessage(last)]
  {
    ResultMessagesAt(finalized);
    ResultMessagesAt(finalized + [last]);
  }

  lemma CallAppended(before: Trace, first: Trace, second: Trace, rest: Trace)
    requires |first| == 2
    ensures before + [first[0]] + [first[1]] + second + rest == before + (first + second + rest)
  {
  }

  lemma CallEventsAppended(before: Trace, a: Trace, b: Trace, c: Trace, d: Trace)
    ensures before + a + b + c + d == before + (a + b + c + d)
  {
  }

  lemma ParallelAppended(before: Trace, a: Trace, b: Trace, c: Trace)
    ensures before + a + b + c == before + (a + b + c)
  {
  }
}
