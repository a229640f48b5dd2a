/**
 What an event trace of the agent loop means: the nesting grammar of events, the messages completed
 in it, and the state the Agent folds it into (packages/agent/src/agent.ts, processEvents).
 */
module AgentGrammar {
  import opened Prelude
  import opened AgentTypes

  // ---------- nesting ----------

  /** Where a run stands: `turns` counts the finished turns, `open` says that a message is open, and
      `tools` holds the ids of the tool executions in progress. */
  datatype Position =
    | Unstarted
    | Between(turns: nat)
    | InTurn(turns: nat, open: bool, tools: multiset<CallId>)
    | Ended(turns: nat)
    | Broken

  function Advance(at: Position, event: AgentEvent): Position {
    match at
    case Unstarted => if event.AgentStart? then Between(0) else Broken
    case Between(turns) =>
      if event.TurnStart? then InTurn(turns, false, multiset{})
      else if event.AgentEnd? && turns > 0 then Ended(turns)
      else Broken
    case InTurn(turns, open, tools) =>
      if open then
        match event
        case MessageUpdate(_) => at
        case MessageEnd(_) => at.(open := false)
        case _ => Broken
      else
        (match event
         case MessageStart(_) => at.(open := true)
         case ToolStart(call) => at.(tools := tools + multiset{call.id})
         case ToolUpdate(call, _) => if call.id in tools then at else Broken
         case ToolEnd(call, _, _) => if call.id in tools then at.(tools := tools - multiset{call.id}) else Broken
         case TurnEnd(_, _) => if tools == multiset{} then Between(turns + 1) else Broken
         case _ => Broken)
    case Ended(_) => Broken
    case Broken => Broken
  }

  function Walk(at: Position, trace: Trace): Position
    decreases |trace|
  {
    if trace == [] then at else Walk(Advance(at, trace[0]), trace[1..])
  }

  lemma {:induction false} WalkInTwoParts(at: Position, first: Trace, second: Trace)
    ensures Walk(at, first + second) == Walk(Walk(at, first), second)
    decreases |first|
  {
    if first == [] {
      assert first + second == second;
    } else {
      assert (first + second)[1..] == first[1..] + second;
      WalkInTwoParts(Advance(at, first[0]), first[1..], second);
    }
  }

  lemma {:induction false} BrokenStays(trace: Trace)
    ensures Walk(Broken, trace) == Broken
    decreases |trace|
  {
    if trace != [] {
      BrokenStays(trace[1..]);
    }
  }

  // ---------- what the grammar means ----------

  datatype Kind =
    | TurnStarts | TurnEnds | MessageStarts | MessageEnds | AgentEnds
    | ToolStarts(id: CallId) | ToolEnds(id: CallId)

  predicate Is(event: AgentEvent, kind: Kind) {
    match kind
    case TurnStarts => event.TurnStart?
    case TurnEnds => event.TurnEnd?
    case MessageStarts => event.MessageStart?
    case MessageEnds => event.MessageEnd?
    case AgentEnds => event.AgentEnd?
    case ToolStarts(id) => event.ToolStart? && event.call.id == id
    case ToolEnds(id) => event.ToolEnd? && event.call.id == id
  }

  function Count(trace: Trace, kind: Kind): nat
    decreases |trace|
  {
    if trace == [] then 0 else One(trace[0], kind) + Count(trace[1..], kind)
  }

  function OpenTurns(at: Position): nat { if at.InTurn? then 1 else 0 }

  function OpenMessages(at: Position): nat { if at.InTurn? && at.open then 1 else 0 }

  function OpenTools(at: Position, id: CallId): nat { if at.InTurn? then at.tools[id] else 0 }

  /** At every point of a well-nested trace the open turns, messages and tool executions are the
      starts that have no end yet; at most one turn and one message are ever open. */
  lemma {:induction false} NestingCounts(at: Position, trace: Trace, id: CallId)
    requires Walk(at, trace) != Broken
    ensures var to := Walk(at, trace);
            && OpenTurns(at) + Count(trace, TurnStarts) == OpenTurns(to) + Count(trace, TurnEnds)
            && OpenMessages(at) + Count(trace, MessageStarts) == OpenMessages(to) + Count(trace, MessageEnds)
            && OpenTools(at, id) + Count(trace, ToolStarts(id)) == OpenTools(to, id) + Count(trace, ToolEnds(id))
    decreases |trace|
  {
    if trace != [] {
      var next := Advance(at, trace[0]);
      if next == Broken {
        BrokenStays(trace[1..]);
      }
      StepCounts(at, trace[0], id);
      NestingCounts(next, trace[1..], id);
    }
  }

  function One(event: AgentEvent, kind: Kind): nat {
    if Is(event, kind) then 1 else 0
  }

  lemma StepCounts(at: Position, event: AgentEvent, id: CallId)
    requires Advance(at, event) != Broken
    ensures var next := Advance(at, event);
            && OpenTurns(at) + One(event, TurnStarts) == OpenTurns(next) + One(event, TurnEnds)
            && OpenMessages(at) + One(event, MessageStarts) == OpenMessages(next) + One(event, MessageEnds)
            && OpenTools(at, id) + One(event, ToolStarts(id)) == OpenTools(next, id) + One(event, ToolEnds(id))
  {
  }

  /** A trace that walks to an end has exactly one agent_end, and it is the last event. */
  lemma {:induction false} EndsOnce(at: Position, trace: Trace)
    requires Walk(at, trace).Ended? && !at.Ended?
    ensures trace != [] && trace[|trace| - 1].AgentEnd? && Count(trace, AgentEnds) == 1
    decreases |trace|
  {
    var next := Advance(at, trace[0]);
    if next.Ended? {
      if trace[1..] != [] {
        BrokenStays(trace[1..][1..]);
      }
    } else {
      if next == Broken {
        BrokenStays(trace[1..]);
      }
      EndsOnce(next, trace[1..]);
      assert trace[1..][|trace[1..]| - 1] == trace[|trace| - 1];
    }
  }

  /** Every prefix of a well-nested trace is well nested. */
  lemma PrefixNests(at: Position, trace: Trace, count: nat)
    requires Walk(at, trace) != Broken && count <= |trace|
    ensures Walk(at, trace[..count]) != Broken
  {
    assert trace == trace[..count] + trace[count..];
    WalkInTwoParts(at, trace[..count], trace[count..]);
    BrokenStays(trace[count..]);
  }

  /** A message starts where none is open. */
  lemma StartOpens(trace: Trace, start: nat)
    requires Walk(Unstarted, trace) != Broken && start < |trace| && trace[start].MessageStart?
    ensures var before, after := Walk(Unstarted, trace[..start]), Walk(Unstarted, trace[..start + 1]);
            before.InTurn? && !before.open && after == before.(open := true)
  {
    PrefixNests(Unstarted, trace, start + 1);
    assert trace[..start + 1] == trace[..start] + [trace[start]];
    WalkInTwoParts(Unstarted, trace[..start], [trace[start]]);
    WalkOne(Walk(Unstarted, trace[..start]), trace[start]);
  }

  /** Between the start of a message and the start of the next one lies the end of the first. */
  lemma MessagesDoNotOverlap(trace: Trace, first: nat, second: nat)
    requires Walk(Unstarted, trace) != Broken
    requires first < second < |trace| && trace[first].MessageStart? && trace[second].MessageStart?
    ensures exists end :: first < end < second && trace[end].MessageEnd?
  {
    var before, between := trace[..first + 1], trace[first + 1..second];
    StartOpens(trace, first);
    StartOpens(trace, second);
    assert trace[..second] == before + between;
    WalkInTwoParts(Unstarted, before, between);
    var at := Walk(Unstarted, before);
    var end := StaysOpen(at, between);
    assert trace[first + 1 + end] == between[end];
  }

  lemma WalkOne(at: Position, event: AgentEvent)
    ensures Walk(at, [event]) == Advance(at, event)
  {
    assert [event][1..] == [];
  }

  lemma {:induction false} StaysOpen(at: Position, trace: Trace) returns (end: nat)
    requires at.InTurn? && at.open && Walk(at, trace) != Broken
    requires !(Walk(at, trace).InTurn? && Walk(at, trace).open)
    ensures end < |trace| && trace[end].MessageEnd?
    decreases |trace|
  {
    if trace[0].MessageEnd? {
      end := 0;
    } else {
      if Advance(at, trace[0]) == Broken {
        BrokenStays(trace[1..]);
      }
      var later := StaysOpen(Advance(at, trace[0]), trace[1..]);
      end := later + 1;
    }
  }

  // ---------- what a trace leaves behind ----------

  /** The completed messages, in order. */
  function Completed(trace: Trace): seq<Message>
    decreases |trace|
  {
    if trace == [] then []
    else (if trace[0].MessageEnd? then [trace[0].message] else []) + Completed(trace[1..])
  }

  lemma {:induction false} CompletedInTwoParts(first: Trace, second: Trace)
    ensures Completed(first + second) == Completed(first) + Completed(second)
    decreases |first|
  {
    if first == [] {
      assert first + second == second;
    } else {
      CompletedInTwoParts(first[1..], second);
      assert (first + second)[0] == first[0] && (first + second)[1..] == first[1..] + second;
      Associates(if first[0].MessageEnd? then [first[0].message] else [], Completed(first[1..]), Completed(second));
    }
  }

  datatype AgentState = AgentState(
    messages: seq<Message>,
    streamingMessage: Option<Message>,
    pendingToolCalls: set<CallId>,
    errorMessage: Option<string>)

  /** `processEvents` before the listeners are awaited. */
  function Reduce(state: AgentState, event: AgentEvent): AgentState {
    match event
    case MessageStart(message) => state.(streamingMessage := Some(message))
    case MessageUpdate(message) => state.(streamingMessage := Some(message))
    case MessageEnd(message) => state.(streamingMessage := None, messages := state.messages + [message])
    case ToolStart(call) => state.(pendingToolCalls := state.pendingToolCalls + {call.id})
    case ToolEnd(call, _, _) => state.(pendingToolCalls := state.pendingToolCalls - {call.id})
    case TurnEnd(response, _) =>
      if response.errorMessage.Some? && |response.errorMessage.value| > 0
      then state.(errorMessage := response.errorMessage) else state
    case AgentEnd(_) => state.(streamingMessage := None)
    case _ => state
  }

  function Fold(state: AgentState, trace: Trace): AgentState
    decreases |trace|
  {
    if trace == [] then state else Fold(Reduce(state, trace[0]), trace[1..])
  }

  lemma {:induction false} FoldInTwoParts(state: AgentState, first: Trace, second: Trace)
    ensures Fold(state, first + second) == Fold(Fold(state, first), second)
    decreases |first|
  {
    if first == [] {
      assert first + second == second;
    } else {
      assert (first + second)[1..] == first[1..] + second;
      FoldInTwoParts(Reduce(state, first[0]), first[1..], second);
    }
  }

  /** The transcript grows by exactly the completed messages. */
  lemma {:induction false} TranscriptIsCompleted(state: AgentState, trace: Trace)
    ensures Fold(state, trace).messages == state.messages + Completed(trace)
    decreases |trace|
  {
    if trace == [] {
      assert state.messages + [] == state.messages;
    } else {
      var next := Reduce(state, trace[0]);
      TranscriptIsCompleted(next, trace[1..]);
      Associates(state.messages, if trace[0].MessageEnd? then [trace[0].message] else [], Completed(trace[1..]));
    }
  }

  /** What the observable state says about a position: a message is shown as streaming exactly when
      one is open, and every call shown as pending is in progress. */
  predicate Reflects(state: AgentState, at: Position) {
    && (state.streamingMessage.Some? <==> at.InTurn? && at.open)
    && (forall id :: id in state.pendingToolCalls ==> at.InTurn? && id in at.tools)
  }

  lemma {:induction false} StateReflectsPosition(state: AgentState, at: Position, trace: Trace)
    requires Reflects(state, at) && Walk(at, trace) != Broken
    ensures Reflects(Fold(state, trace), Walk(at, trace))
    decreases |trace|
  {
    if trace != [] {
      var next := Advance(at, trace[0]);
      if next == Broken {
        BrokenStays(trace[1..]);
      }
      assert Reflects(Reduce(state, trace[0]), next);
      StateReflectsPosition(Reduce(state, trace[0]), next, trace[1..]);
    }
  }

  /** No call starts while one of the same id is in progress. */
  predicate NeverTwice(at: Position, trace: Trace)
    decreases |trace|
  {
    trace != [] ==>
      && (at.InTurn? && trace[0].ToolStart? ==> trace[0].call.id !in at.tools)
      && NeverTwice(Advance(at, trace[0]), trace[1..])
  }

  /** The pending calls are exactly those in progress, each of which is so once. */
  ghost predicate ReflectsTools(state: AgentState, at: Position) {
    forall id :: if id in state.pendingToolCalls then at.InTurn? && at.tools[id] == 1 else !at.InTurn? || at.tools[id] == 0
  }

  /** Then the calls shown as pending are exactly those in progress. */
  lemma {:induction false} PendingIsInProgress(state: AgentState, at: Position, trace: Trace)
    requires ReflectsTools(state, at) && NeverTwice(at, trace) && Walk(at, trace) != Broken
    ensures ReflectsTools(Fold(state, trace), Walk(at, trace))
    decreases |trace|
  {
    if trace != [] {
      var next := Advance(at, trace[0]);
      if next == Broken {
        BrokenStays(trace[1..]);
      }
      ToolsStep(state, at, trace[0]);
      PendingIsInProgress(Reduce(state, trace[0]), next, trace[1..]);
    }
  }

  lemma ToolsStep(state: AgentState, at: Position, event: AgentEvent)
    requires ReflectsTools(state, at) && Advance(at, event) != Broken
    requires at.InTurn? && event.ToolStart? ==> event.call.id !in at.tools
    ensures ReflectsTools(Reduce(state, event), Advance(at, event))
  {
  }

  /** Between turns, and when the run has ended, nothing is shown as streaming or pending. */
  lemma QuietBetweenTurns(start: AgentState, trace: Trace)
    requires start.streamingMessage.None? && start.pendingToolCalls == {}
    requires Walk(Unstarted, trace).Between? || Walk(Unstarted, trace).Ended?
    ensures var state := Fold(start, trace);
            state.streamingMessage.None? && state.pendingToolCalls == {}
  {
    StateReflectsPosition(start, Unstarted, trace);
  }
}
