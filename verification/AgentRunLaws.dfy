/**
 What every run of the agent loop guarantees: its events nest, the three copies of the history agree
 at every turn_end and at agent_end, nothing taken from a queue is lost, and no tool runs on a
 truncated, failed or aborted response.
 */
module AgentRunLaws {
  import opened Prelude
  import opened AgentTypes
  import opened AgentGrammar
  import opened ToolBatch
  import opened ToolBatchLaws
  import opened AgentRun

  // ---------- the provider stream ----------

  /** Streaming replaces the partial message by the final one, so with at most one start event the
      context grows by exactly the final message; with more, a partial message stays for each. */
  lemma {:induction false} StreamedContextGrows(context: seq<Message>, started: bool, stream: Stream)
    requires started ==> context != []
    ensures var (after, events) := Streamed(context, started, stream);
            var before := if started then context[..|context| - 1] else context;
            var starts := Starts(stream.events) + if started then 1 else 0;
            && |after| == |before| + (if starts == 0 then 1 else starts)
            && after[|after| - 1] == FromAssistant(stream.final)
            && before <= after
            && Completed(events) == [FromAssistant(stream.final)]
    decreases |stream.events|
  {
    var final := FromAssistant(stream.final);
    if stream.events == [] || stream.events[0].Finish? {
      PairCompletes(final);
      CompletedFirst(MessageEnd(final), []);
    } else {
      var rest := stream.(events := stream.events[1..]);
      match stream.events[0]
      case Start(partial) =>
        var grown := context + [FromAssistant(partial)];
        StreamedContextGrows(grown, true, rest);
        assert grown[..|grown| - 1] == context;
        CompletedFirst(MessageStart(FromAssistant(partial)), Streamed(grown, true, rest).1);
        KeepsBefore(context, started, Streamed(grown, true, rest).0);
      case Delta(partial) =>
        if started {
          var replaced := context[|context| - 1 := FromAssistant(partial)];
          StreamedContextGrows(replaced, true, rest);
          assert replaced[..|replaced| - 1] == context[..|context| - 1];
          CompletedFirst(MessageUpdate(FromAssistant(partial)), Streamed(replaced, true, rest).1);
        } else {
          StreamedContextGrows(context, false, rest);
        }
    }
  }

  lemma CompletedFirst(event: AgentEvent, later: Trace)
    ensures Completed([event] + later) == (if event.MessageEnd? then [event.message] else []) + Completed(later)
    ensures [event] + [] == [event] && Completed([]) == []
  {
    assert ([event] + later)[1..] == later;
  }

  lemma KeepsBefore(context: seq<Message>, started: bool, after: seq<Message>)
    requires context <= after && (started ==> context != [])
    ensures (if started then context[..|context| - 1] else context) <= after
  {
  }

  /** The context agrees with the completed messages exactly when the stream has at most one start
      event before it finishes. */
  lemma StreamAgreesIffOneStart(context: seq<Message>, stream: Stream)
    ensures Streamed(context, false, stream).0 == context + [FromAssistant(stream.final)]
            <==> Starts(stream.events) <= 1
  {
    StreamedContextGrows(context, false, stream);
    var after := Streamed(context, false, stream).0;
    if Starts(stream.events) <= 1 {
      assert |after| == |context| + 1;
      assert after == after[..|context|] + [after[|context|]];
    }
  }

  lemma {:induction false} StreamNests(turns: nat, context: seq<Message>, started: bool, stream: Stream)
    requires started ==> context != []
    ensures var starts := Starts(stream.events) + if started then 1 else 0;
            Walk(InTurn(turns, started, multiset{}), Streamed(context, started, stream).1)
            == if starts <= 1 then InTurn(turns, false, multiset{}) else Broken
    decreases |stream.events|
  {
    var at := InTurn(turns, started, multiset{});
    var final := FromAssistant(stream.final);
    if stream.events == [] || stream.events[0].Finish? {
      WalkPair(turns, multiset{}, final);
      WalkOne(at, MessageEnd(final));
    } else {
      var rest := stream.(events := stream.events[1..]);
      match stream.events[0]
      case Start(partial) =>
        var (after, events) := Streamed(context + [FromAssistant(partial)], true, rest);
        assert ([MessageStart(FromAssistant(partial))] + events)[1..] == events;
        StreamNests(turns, context + [FromAssistant(partial)], true, rest);
        if started {
          BrokenStays(events);
        }
      case Delta(partial) =>
        if started {
          var replaced := context[|context| - 1 := FromAssistant(partial)];
          var (after, events) := Streamed(replaced, true, rest);
          assert ([MessageUpdate(FromAssistant(partial))] + events)[1..] == events;
          StreamNests(turns, replaced, true, rest);
        } else {
          StreamNests(turns, context, false, rest);
        }
    }
  }

  // ---------- batches ----------

  lemma WalkRefused(turns: nat, call: ToolCall)
    ensures Walk(InTurn(turns, false, multiset{}),
                 [ToolStart(call), EndEvent(Refused(call))] + Pair(ResultMessage(Refused(call))))
            == InTurn(turns, false, multiset{})
    ensures Completed([ToolStart(call), EndEvent(Refused(call))] + Pair(ResultMessage(Refused(call))))
            == [ResultMessage(Refused(call))]
  {
    var opening := [ToolStart(call), EndEvent(Refused(call))];
    var pair := Pair(ResultMessage(Refused(call)));
    WalkInTwoParts(InTurn(turns, false, multiset{}), opening, pair);
    WalkImmediate(turns, multiset{}, call, EndEvent(Refused(call)));
    WalkPair(turns, multiset{}, ResultMessage(Refused(call)));
    CompletedInTwoParts(opening, pair);
    NoneCompleted(opening);
    PairCompletes(ResultMessage(Refused(call)));
  }

  lemma WalkImmediate(turns: nat, open: multiset<CallId>, call: ToolCall, end: AgentEvent)
    requires end.ToolEnd? && end.call == call
    ensures Walk(InTurn(turns, false, open), [ToolStart(call), end]) == InTurn(turns, false, open)
  {
    var at := InTurn(turns, false, open);
    assert [ToolStart(call), end] == [ToolStart(call)] + [end];
    WalkInTwoParts(at, [ToolStart(call)], [end]);
    WalkOne(at, ToolStart(call));
    WalkOne(at.(tools := open + multiset{call.id}), end);
    Readded(open, call.id);
  }

  /** Every call of a truncated message is answered by an error, and none is executed. */
  lemma {:induction false} TruncatedRefusesAll(turns: nat, calls: seq<ToolCall>)
    ensures var batch := Truncated(calls);
            && Walk(InTurn(turns, false, multiset{}), batch.events) == InTurn(turns, false, multiset{})
            && Completed(batch.events) == ResultMessages(batch.finalized)
            && batch.executed == []
            && |batch.finalized| == |calls|
            && (forall i :: 0 <= i < |calls| ==> batch.finalized[i] == Refused(calls[i]))
    decreases |calls|
  {
    if calls != [] {
      var later := Truncated(calls[1..]);
      var opening := [ToolStart(calls[0]), EndEvent(Refused(calls[0]))] + Pair(ResultMessage(Refused(calls[0])));
      TruncatedRefusesAll(turns, calls[1..]);
      WalkRefused(turns, calls[0]);
      WalkInTwoParts(InTurn(turns, false, multiset{}), opening, later.events);
      CompletedInTwoParts(opening, later.events);
      assert ([Refused(calls[0])] + later.finalized)[1..] == later.finalized;
    }
  }

  /** Whatever kind of batch a turn runs, it nests and completes its results. */
  lemma TurnBatchNests(turns: nat, turn: Turn)
    requires Fits(turn)
    ensures var batch := TurnBatch(turn);
            && Walk(InTurn(turns, false, multiset{}), batch.events) == InTurn(turns, false, multiset{})
            && Completed(batch.events) == ResultMessages(batch.finalized)
  {
    var calls := ToolCalls(turn.stream.final.content);
    if calls != [] {
      if turn.stream.final.stopReason.Length? {
        TruncatedRefusesAll(turns, calls);
      } else if turn.sequential {
        SequentialNests(turns, calls, turn.scripts);
        SequentialCompletes(calls, turn.scripts);
      } else {
        ParallelNests(turns, calls, turn.scripts, turn.schedule);
        ParallelCompletes(calls, turn.scripts, turn.schedule);
      }
    }
  }

  // ---------- queues ----------

  /** What was ever enqueued is what was delivered, followed by what is still queued. */
  predicate Conserves(queue: Queue) {
    queue.enqueued == queue.delivered + queue.items
  }

  predicate BothConserve(queues: Queues) {
    Conserves(queues.steering) && Conserves(queues.followUp)
  }

  lemma EnqueueConserves(queue: Queue, message: Message)
    requires Conserves(queue)
    ensures Conserves(Enqueue(queue, message))
  {
    Associates(queue.delivered, queue.items, [message]);
  }

  /** A drain delivers from the front; in one-at-a-time mode at most one message. */
  lemma DrainConserves(queue: Queue)
    requires Conserves(queue)
    ensures Conserves(AfterDrain(queue))
    ensures queue.items == Drained(queue) + AfterDrain(queue).items
    ensures queue.items != [] ==> Drained(queue) != []
    ensures queue.mode.OneAtATime? ==> |Drained(queue)| <= 1
  {
    var drained := Drained(queue);
    assert queue.items == drained + queue.items[|drained|..];
    Associates(queue.delivered, drained, queue.items[|drained|..]);
  }

  lemma {:induction false} OpsConserve(queues: Queues, ops: seq<QueueOp>)
    requires BothConserve(queues)
    ensures BothConserve(ApplyOps(queues, ops))
    ensures ApplyOps(queues, ops).steering.delivered == queues.steering.delivered
    ensures ApplyOps(queues, ops).followUp.delivered == queues.followUp.delivered
    decreases |ops|
  {
    if ops != [] {
      match ops[0] {
        case Steer(message) => EnqueueConserves(queues.steering, message);
        case FollowUp(message) => EnqueueConserves(queues.followUp, message);
        case _ =>
      }
      OpsConserve(ApplyOp(queues, ops[0]), ops[1..]);
    }
  }

  // ---------- what every turn keeps ----------

  /** The stream keeps its contract of at most one start event. */
  ghost predicate Proper(turn: Turn) {
    Fits(turn) && Starts(turn.stream.events) <= 1
  }

  ghost predicate AllProper(turns: seq<Turn>) {
    AllFit(turns) && forall i :: 0 <= i < |turns| ==> Starts(turns[i].stream.events) <= 1
  }

  /** The events nest, and the position is the one between turns that the state claims. */
  predicate Placed(trace: Trace, first: bool, done: bool, turns: nat) {
    && (first <==> turns == 0)
    && (done ==> !first)
    && Walk(Unstarted, trace) ==
       if done then Ended(turns) else if first then InTurn(0, false, multiset{}) else Between(turns)
  }

  /** Loop context and new messages agree with the messages completed by the events. */
  predicate HistoriesAgree(context: seq<Message>, base: seq<Message>, baseAt: nat, newMessages: seq<Message>,
                           trace: Trace)
  {
    && Completed(trace) == newMessages
    && baseAt <= |newMessages|
    && context == base + newMessages[baseAt..]
  }

  function AllAdded(log: seq<TurnLog>): seq<Message> {
    if log == [] then [] else AllAdded(log[..|log| - 1]) + Added(log[|log| - 1])
  }

  function AllInjected(log: seq<TurnLog>): seq<Message> {
    if log == [] then [] else AllInjected(log[..|log| - 1]) + log[|log| - 1].injected
  }

  lemma OneMoreLogged(log: seq<TurnLog>, entry: TurnLog)
    ensures AllAdded(log + [entry]) == AllAdded(log) + Added(entry)
    ensures AllInjected(log + [entry]) == AllInjected(log) + entry.injected
  {
    assert (log + [entry])[..|log|] == log;
  }

  /** Every polled message has been injected, once and in order, or is about to be. */
  predicate PollsAccounted(polls: seq<Poll>, log: seq<TurnLog>, pending: seq<Message>) {
    AllPolled(polls) == AllInjected(log) + pending
  }

  /** What each queue has delivered since is what was polled from it, in order. */
  predicate Delivered(queues: Queues, before: Queues, polls: seq<Poll>) {
    && BothConserve(queues)
    && queues.steering.delivered == before.steering.delivered + PolledFrom(polls, SteeringQueue)
    && queues.followUp.delivered == before.followUp.delivered + PolledFrom(polls, FollowUpQueue)
  }

  predicate LoopInv(st: LoopState, prompts: seq<Message>, before: Queues) {
    && Placed(st.trace, st.first, st.done, |st.log|)
    && HistoriesAgree(st.context, st.base, st.baseAt, st.newMessages, st.trace)
    && st.newMessages == prompts + AllAdded(st.log)
    && PollsAccounted(st.polls, st.log, st.pending)
    && Delivered(st.queues, before, st.polls)
    && (st.done ==> st.pending == [] && st.trace != [] && st.trace[|st.trace| - 1] == AgentEnd(st.newMessages))
  }

  /** The messages and events of one turn, without the turn_start. */
  lemma TurnEventsComplete(at: nat, context: seq<Message>, pending: seq<Message>, turn: Turn, batch: Batch)
    requires Proper(turn)
    requires Completed(batch.events) == ResultMessages(batch.finalized)
    requires Walk(InTurn(at, false, multiset{}), batch.events) == InTurn(at, false, multiset{})
    ensures var streamEvents := Streamed(context + pending, false, turn.stream).1;
            var results := ResultMessages(batch.finalized);
            var events := Pairs(pending) + streamEvents + batch.events + [TurnEnd(turn.stream.final, results)];
            && Walk(InTurn(at, false, multiset{}), events) == Between(at + 1)
            && Completed(events) == Added(TurnLog(pending, turn.stream.final, results))
  {
    var inside := InTurn(at, false, multiset{});
    var streamEvents := Streamed(context + pending, false, turn.stream).1;
    var results := ResultMessages(batch.finalized);
    var end := [TurnEnd(turn.stream.final, results)];
    WalkInTwoParts(inside, Pairs(pending) + streamEvents + batch.events, end);
    WalkInTwoParts(inside, Pairs(pending) + streamEvents, batch.events);
    WalkInTwoParts(inside, Pairs(pending), streamEvents);
    WalkPairs(at, multiset{}, pending);
    StreamNests(at, context + pending, false, turn.stream);
    WalkOne(inside, end[0]);
    CompletedInTwoParts(Pairs(pending) + streamEvents + batch.events, end);
    CompletedInTwoParts(Pairs(pending) + streamEvents, batch.events);
    CompletedInTwoParts(Pairs(pending), streamEvents);
    PairsComplete(pending);
    StreamedContextGrows(context + pending, false, turn.stream);
    NoneCompleted(end);
    var completed := pending + [FromAssistant(turn.stream.final)] + results;
    assert completed + [] == completed;
  }

  /** The events of a turn after its turn_start. */
  function BodyBatchEvents(st: LoopState, turn: Turn, batch: Batch): Trace {
    Pairs(st.pending) + Streamed(st.context + st.pending, false, turn.stream).1
    + batch.events + [TurnEnd(turn.stream.final, ResultMessages(batch.finalized))]
  }

  /** The batch a turn runs: none when the response failed or was aborted. */
  ghost function BodyBatch(turn: Turn): Batch
    requires Fits(turn)
  {
    if turn.stream.final.stopReason.Errored? || turn.stream.final.stopReason.Aborted? then Batch([], [], [])
    else TurnBatch(turn)
  }

  lemma BodyBatchNests(turns: nat, turn: Turn)
    requires Fits(turn)
    ensures var batch := BodyBatch(turn);
            && Walk(InTurn(turns, false, multiset{}), batch.events) == InTurn(turns, false, multiset{})
            && Completed(batch.events) == ResultMessages(batch.finalized)
  {
    TurnBatchNests(turns, turn);
  }

  /** Events that take an open turn to its end, after the turn_start that every turn but the first has. */
  lemma TurnAppended(trace: Trace, first: bool, turns: nat, events: Trace)
    requires Placed(trace, first, false, turns)
    requires Walk(InTurn(turns, false, multiset{}), events) == Between(turns + 1)
    ensures var opening := if first then [] else [TurnStart];
            && Placed(trace + opening + events, false, false, turns + 1)
            && Completed(trace + opening + events) == Completed(trace) + Completed(events)
  {
    var opening := if first then [] else [TurnStart];
    WalkInTwoParts(Unstarted, trace + opening, events);
    WalkInTwoParts(Unstarted, trace, opening);
    CompletedInTwoParts(trace + opening, events);
    CompletedInTwoParts(trace, opening);
    NoneCompleted(opening);
    if !first {
      WalkOne(Between(turns), TurnStart);
    }
    assert Completed(trace) + [] == Completed(trace);
  }

  /** A turn is bracketed by its turn_start and turn_end, and completes what it adds. */
  lemma TurnBodyTrace(st: LoopState, turn: Turn)
    requires Proper(turn) && !st.done && Placed(st.trace, st.first, false, |st.log|)
    ensures var body := TurnBody(st, turn);
            && Placed(body.trace, false, false, |body.log|)
            && Completed(body.trace) ==
               Completed(st.trace) + Added(TurnLog(st.pending, turn.stream.final, ResultMessages(BodyBatch(turn).finalized)))
  {
    var batch := BodyBatch(turn);
    var events := BodyBatchEvents(st, turn, batch);
    BodyBatchNests(|st.log|, turn);
    TurnEventsComplete(|st.log|, st.context, st.pending, turn, batch);
    TurnAppended(st.trace, st.first, |st.log|, events);
    TurnTraceSplits(st.trace + if st.first then [] else [TurnStart], Pairs(st.pending),
                    Streamed(st.context + st.pending, false, turn.stream).1, batch.events,
                    [TurnEnd(turn.stream.final, ResultMessages(batch.finalized))]);
  }

  lemma TurnTraceSplits(before: Trace, a: Trace, b: Trace, c: Trace, d: Trace)
    ensures before + a + b + c + d == before + (a + b + c + d)
  {
  }

  lemma TurnBodyContext(st: LoopState, turn: Turn)
    requires Proper(turn)
    requires HistoriesAgree(st.context, st.base, st.baseAt, st.newMessages, st.trace)
    ensures var body := TurnBody(st, turn);
            && body.context == st.context + Added(TurnLog(st.pending, turn.stream.final, ResultMessages(BodyBatch(turn).finalized)))
            && body.context == body.base + body.newMessages[body.baseAt..]
  {
    var body := TurnBody(st, turn);
    var added := Added(TurnLog(st.pending, turn.stream.final, ResultMessages(BodyBatch(turn).finalized)));
    StreamAgreesIffOneStart(st.context + st.pending, turn.stream);
    assert body.context == st.context + added;
    assert body.newMessages[body.baseAt..] == st.newMessages[st.baseAt..] + added;
  }

  /** At every turn_end the invariant holds. */
  lemma TurnBodyKeeps(st: LoopState, turn: Turn, prompts: seq<Message>, before: Queues)
    requires Proper(turn) && !st.done && LoopInv(st, prompts, before)
    ensures LoopInv(TurnBody(st, turn), prompts, before)
  {
    var entry := TurnLog(st.pending, turn.stream.final, ResultMessages(BodyBatch(turn).finalized));
    TurnBodyTrace(st, turn);
    TurnBodyContext(st, turn);
    OneMoreLogged(st.log, entry);
    Associates(prompts, AllAdded(st.log), Added(entry));
    assert AllInjected(st.log) + st.pending + [] == AllInjected(st.log) + st.pending;
  }

  lemma FinishedKeeps(st: LoopState, prompts: seq<Message>, before: Queues)
    requires LoopInv(st, prompts, before) && !st.done && !st.first && st.pending == []
    ensures LoopInv(Finished(st), prompts, before)
  {
    var end := [AgentEnd(st.newMessages)];
    WalkInTwoParts(Unstarted, st.trace, end);
    WalkOne(Walk(Unstarted, st.trace), end[0]);
    CompletedInTwoParts(st.trace, end);
    NoneCompleted(end);
    assert Completed(st.trace) + [] == Completed(st.trace);
  }

  lemma OneMorePoll(polls: seq<Poll>, poll: Poll)
    ensures AllPolled(polls + [poll]) == AllPolled(polls) + poll.messages
    ensures forall source: Source ::
              PolledFrom(polls + [poll], source) == PolledFrom(polls, source) + if poll.source == source then poll.messages else []
  {
    assert (polls + [poll])[..|polls|] == polls;
  }

  lemma OpsDeliver(queues: Queues, ops: seq<QueueOp>, before: Queues, polls: seq<Poll>)
    requires Delivered(queues, before, polls)
    ensures Delivered(ApplyOps(queues, ops), before, polls)
  {
    OpsConserve(queues, ops);
  }

  lemma PollDelivers(queues: Queues, before: Queues, polls: seq<Poll>)
    requires Delivered(queues, before, polls)
    ensures var steering, followUp := queues.steering, queues.followUp;
            && Delivered(queues.(steering := AfterDrain(steering)), before, polls + [Poll(SteeringQueue, Drained(steering))])
            && Delivered(queues.(followUp := AfterDrain(followUp)), before, polls + [Poll(FollowUpQueue, Drained(followUp))])
  {
    var steering, followUp := queues.steering, queues.followUp;
    DrainConserves(steering);
    DrainConserves(followUp);
    OneMorePoll(polls, Poll(SteeringQueue, Drained(steering)));
    OneMorePoll(polls, Poll(FollowUpQueue, Drained(followUp)));
    Associates(before.steering.delivered, PolledFrom(polls, SteeringQueue), Drained(steering));
    Associates(before.followUp.delivered, PolledFrom(polls, FollowUpQueue), Drained(followUp));
    assert followUp.delivered + [] == followUp.delivered && steering.delivered + [] == steering.delivered;
  }

  lemma PollSteeringKeeps(st: LoopState, ops: seq<QueueOp>, prompts: seq<Message>, before: Queues)
    requires LoopInv(st, prompts, before) && st.pending == [] && !st.done
    ensures LoopInv(PollSteering(st, ops), prompts, before)
  {
    var queues := ApplyOps(st.queues, ops);
    OpsDeliver(st.queues, ops, before, st.polls);
    PollDelivers(queues, before, st.polls);
    OneMorePoll(st.polls, Poll(SteeringQueue, Drained(queues.steering)));
    assert AllInjected(st.log) + [] == AllInjected(st.log);
  }

  lemma PollFollowUpKeeps(st: LoopState, ops: seq<QueueOp>, prompts: seq<Message>, before: Queues)
    requires LoopInv(st, prompts, before) && st.pending == [] && !st.done
    ensures LoopInv(PollFollowUp(st, ops), prompts, before)
  {
    var queues := ApplyOps(st.queues, ops);
    OpsDeliver(st.queues, ops, before, st.polls);
    PollDelivers(queues, before, st.polls);
    OneMorePoll(st.polls, Poll(FollowUpQueue, Drained(queues.followUp)));
    assert AllInjected(st.log) + [] == AllInjected(st.log);
  }

  lemma OpsAppliedKeeps(st: LoopState, ops: seq<QueueOp>, prompts: seq<Message>, before: Queues)
    requires LoopInv(st, prompts, before)
    ensures LoopInv(OpsApplied(st, ops), prompts, before)
  {
    OpsDeliver(st.queues, ops, before, st.polls);
  }

  lemma AfterTurnKeeps(st: LoopState, turn: Turn, prompts: seq<Message>, before: Queues)
    requires Proper(turn) && LoopInv(st, prompts, before) && !st.done && !st.first && st.pending == []
    ensures LoopInv(AfterTurn(st, turn), prompts, before)
  {
    var prepared := Replaced(st, turn.replacement);
    assert LoopInv(prepared, prompts, before) by {
      assert st.newMessages[|st.newMessages|..] == [];
    }
    if turn.stop {
      OpsAppliedKeeps(prepared, turn.beforeSteering, prompts, before);
      FinishedKeeps(OpsApplied(prepared, turn.beforeSteering), prompts, before);
    } else {
      PollSteeringKeeps(prepared, turn.beforeSteering, prompts, before);
      var steered := PollSteering(prepared, turn.beforeSteering);
      if !HasMoreToolCalls(turn) && steered.pending == [] {
        PollFollowUpKeeps(steered, turn.beforeFollowUp, prompts, before);
        var followed := PollFollowUp(steered, turn.beforeFollowUp);
        if followed.pending == [] {
          FinishedKeeps(followed, prompts, before);
        }
      }
    }
  }

  lemma TurnStepKeeps(st: LoopState, turn: Turn, prompts: seq<Message>, before: Queues)
    requires Proper(turn) && LoopInv(st, prompts, before) && !st.done
    ensures LoopInv(TurnStep(st, turn), prompts, before)
  {
    TurnBodyKeeps(st, turn, prompts, before);
    var body := TurnBody(st, turn);
    if turn.stream.final.stopReason.Errored? || turn.stream.final.stopReason.Aborted? {
      OpsAppliedKeeps(body, turn.beforeSteering, prompts, before);
      FinishedKeeps(OpsApplied(body, turn.beforeSteering), prompts, before);
    } else {
      AfterTurnKeeps(body, turn, prompts, before);
    }
  }

  lemma {:induction false} RunTurnsKeeps(st: LoopState, turns: seq<Turn>, prompts: seq<Message>, before: Queues)
    requires AllProper(turns) && LoopInv(st, prompts, before)
    ensures LoopInv(RunTurns(st, turns), prompts, before)
    decreases |turns|
  {
    if !st.done && turns != [] {
      TurnStepKeeps(st, turns[0], prompts, before);
      RunTurnsKeeps(TurnStep(st, turns[0]), turns[1..], prompts, before);
    }
  }

  lemma OpeningTrace(prompts: seq<Message>)
    ensures var trace := [AgentStart, TurnStart] + Pairs(prompts);
            Walk(Unstarted, trace) == InTurn(0, false, multiset{}) && Completed(trace) == prompts
  {
    var opening := [AgentStart, TurnStart];
    WalkInTwoParts(Unstarted, opening, Pairs(prompts));
    assert opening == [AgentStart] + [TurnStart];
    WalkInTwoParts(Unstarted, [AgentStart], [TurnStart]);
    WalkOne(Unstarted, AgentStart);
    WalkOne(Between(0), TurnStart);
    WalkPairs(0, multiset{}, prompts);
    CompletedInTwoParts(opening, Pairs(prompts));
    NoneCompleted(opening);
    PairsComplete(prompts);
    assert [] + prompts == prompts;
  }

  lemma OpenedHolds(transcript: seq<Message>, prompts: seq<Message>, queues: Queues, ops: seq<QueueOp>)
    requires BothConserve(queues)
    ensures LoopInv(Opened(transcript, prompts, queues), prompts, queues)
    ensures LoopInv(Opened(transcript, prompts, queues).(queues := ApplyOps(queues, ops)), prompts, queues)
  {
    OpeningTrace(prompts);
    OpsConserve(queues, ops);
    assert prompts[0..] == prompts && prompts + [] == prompts;
  }

  lemma BegunHolds(transcript: seq<Message>, prompts: seq<Message>, queues: Queues, skipPoll: bool, ops: seq<QueueOp>)
    requires BothConserve(queues)
    ensures LoopInv(Begun(transcript, prompts, queues, skipPoll, ops), prompts, queues)
  {
    OpenedHolds(transcript, prompts, queues, ops);
    if !skipPoll {
      PollSteeringKeeps(Opened(transcript, prompts, queues), ops, prompts, queues);
    }
  }

  // ---------- what holds in every run ----------

  /** The state of a run after some turns. */
  ghost function Reached(transcript: seq<Message>, prompts: seq<Message>, queues: Queues, skipPoll: bool,
                         ops: seq<QueueOp>, turns: seq<Turn>): LoopState
    requires AllFit(turns)
  {
    RunTurns(Begun(transcript, prompts, queues, skipPoll, ops), turns)
  }

  /** Every event sequence nests; a finished run consists of agent_start, one or more bracketed turns
      and exactly one agent_end, which comes last. */
  lemma RunsNest(transcript: seq<Message>, prompts: seq<Message>, queues: Queues, skipPoll: bool,
                 ops: seq<QueueOp>, turns: seq<Turn>)
    requires AllProper(turns) && BothConserve(queues)
    ensures var st := Reached(transcript, prompts, queues, skipPoll, ops, turns);
            && Walk(Unstarted, st.trace) != Broken
            && (st.done ==>
                  && Walk(Unstarted, st.trace) == Ended(|st.log|) && |st.log| > 0
                  && Count(st.trace, AgentEnds) == 1
                  && Count(st.trace, TurnStarts) == Count(st.trace, TurnEnds)
                  && st.trace[|st.trace| - 1] == AgentEnd(st.newMessages))
  {
    BegunHolds(transcript, prompts, queues, skipPoll, ops);
    RunTurnsKeeps(Begun(transcript, prompts, queues, skipPoll, ops), turns, prompts, queues);
    var st := Reached(transcript, prompts, queues, skipPoll, ops, turns);
    if st.done {
      EndsOnce(Unstarted, st.trace);
      NestingCounts(Unstarted, st.trace, 0);
    }
  }

  /** The three copies of the history agree: what the events completed is what the run reports as
      new, the Agent's transcript is the starting one plus that, and so is the loop context unless
      a hook replaced it. */
  ghost predicate CopiesAgree(st: LoopState, transcript: seq<Message>, agent: AgentState) {
    && Completed(st.trace) == st.newMessages
    && Fold(agent, st.trace).messages == transcript + st.newMessages
    && (st.base == transcript && st.baseAt == 0 ==> st.context == transcript + st.newMessages)
  }

  /** A context that no hook replaced starts from the transcript. */
  lemma {:induction false} BaseStays(st: LoopState, turns: seq<Turn>)
    requires AllFit(turns) && forall i :: 0 <= i < |turns| ==> turns[i].replacement.None?
    ensures RunTurns(st, turns).base == st.base && RunTurns(st, turns).baseAt == st.baseAt
    decreases |turns|
  {
    if !st.done && turns != [] {
      BaseStays(TurnStep(st, turns[0]), turns[1..]);
    }
  }

  lemma InvMakesCopiesAgree(st: LoopState, transcript: seq<Message>, prompts: seq<Message>, before: Queues, agent: AgentState)
    requires LoopInv(st, prompts, before) && agent.messages == transcript
    ensures CopiesAgree(st, transcript, agent)
  {
    TranscriptIsCompleted(agent, st.trace);
    assert st.newMessages[0..] == st.newMessages;
  }

  /** The copies agree between all turns, at the end of the run, and at the turn_end of any turn. */
  lemma HistoriesAgreeThroughout(transcript: seq<Message>, prompts: seq<Message>, queues: Queues, skipPoll: bool,
                                 ops: seq<QueueOp>, turns: seq<Turn>, agent: AgentState)
    requires AllProper(turns) && BothConserve(queues) && agent.messages == transcript
    ensures var st := Reached(transcript, prompts, queues, skipPoll, ops, turns);
            && CopiesAgree(st, transcript, agent)
            && ((forall i :: 0 <= i < |turns| ==> turns[i].replacement.None?) ==> st.context == transcript + st.newMessages)
            && (forall turn: Turn :: Proper(turn) && !st.done ==> CopiesAgree(TurnBody(st, turn), transcript, agent))
  {
    BegunHolds(transcript, prompts, queues, skipPoll, ops);
    RunTurnsKeeps(Begun(transcript, prompts, queues, skipPoll, ops), turns, prompts, queues);
    var st := Reached(transcript, prompts, queues, skipPoll, ops, turns);
    InvMakesCopiesAgree(st, transcript, prompts, queues, agent);
    if forall i :: 0 <= i < |turns| ==> turns[i].replacement.None? {
      BaseStays(Begun(transcript, prompts, queues, skipPoll, ops), turns);
    }
    forall turn: Turn | Proper(turn) && !st.done ensures CopiesAgree(TurnBody(st, turn), transcript, agent) {
      TurnBodyKeeps(st, turn, prompts, queues);
      InvMakesCopiesAgree(TurnBody(st, turn), transcript, prompts, queues, agent);
    }
  }

  /** Nothing queued is lost or doubled. Each queue's enqueued messages are the delivered ones followed
      by those still queued; what it delivered in the run is what was polled from it, in order; all that
      was polled was injected in the order of the polls, each once; and a finished run has none left in
      hand. */
  lemma QueuesAreConserved(transcript: seq<Message>, prompts: seq<Message>, queues: Queues, skipPoll: bool,
                           ops: seq<QueueOp>, turns: seq<Turn>)
    requires AllProper(turns) && BothConserve(queues)
    ensures var st := Reached(transcript, prompts, queues, skipPoll, ops, turns);
            && BothConserve(st.queues)
            && st.queues.steering.delivered == queues.steering.delivered + PolledFrom(st.polls, SteeringQueue)
            && st.queues.followUp.delivered == queues.followUp.delivered + PolledFrom(st.polls, FollowUpQueue)
            && AllPolled(st.polls) == AllInjected(st.log) + st.pending
            && st.newMessages == prompts + AllAdded(st.log)
            && (st.done ==> st.pending == [] && AllPolled(st.polls) == AllInjected(st.log))
  {
    BegunHolds(transcript, prompts, queues, skipPoll, ops);
    RunTurnsKeeps(Begun(transcript, prompts, queues, skipPoll, ops), turns, prompts, queues);
    var st := Reached(transcript, prompts, queues, skipPoll, ops, turns);
    assert st.done ==> AllInjected(st.log) + [] == AllInjected(st.log);
  }

  /** No tool runs on a response that was truncated, failed or aborted. */
  lemma NoToolOnBadStop(st: LoopState, turn: Turn)
    requires Fits(turn)
    requires var reason := turn.stream.final.stopReason; reason.Length? || reason.Errored? || reason.Aborted?
    ensures TurnStep(st, turn).executed == st.executed
  {
    TruncatedRefusesAll(0, ToolCalls(turn.stream.final.content));
    assert st.executed + [] == st.executed;
  }

  /** A failed or aborted response ends the run at once and takes nothing from either queue; what other
      code enqueued during the turn stays there. */
  lemma BadStopEndsRun(st: LoopState, turn: Turn)
    requires Fits(turn) && BothConserve(st.queues)
    requires turn.stream.final.stopReason.Errored? || turn.stream.final.stopReason.Aborted?
    ensures var next := TurnStep(st, turn);
            && next.done && next.polls == st.polls && next.queues == ApplyOps(st.queues, turn.beforeSteering)
            && next.queues.steering.delivered == st.queues.steering.delivered
            && next.queues.followUp.delivered == st.queues.followUp.delivered
            && next.newMessages == st.newMessages + st.pending + [FromAssistant(turn.stream.final)]
  {
    OpsConserve(st.queues, turn.beforeSteering);
    assert Added(TurnLog(st.pending, turn.stream.final, [])) == st.pending + [FromAssistant(turn.stream.final)];
    Associates(st.newMessages, st.pending, [FromAssistant(turn.stream.final)]);
  }
}
