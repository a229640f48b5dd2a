/** What both kinds of tool batch guarantee, for every schedule and every abort point. */
module ToolBatchLaws {
  import opened Prelude
  import opened AgentTypes
  import opened AgentGrammar
  import opened ToolBatch

  // ---------- which calls are answered ----------

  /** The number of calls up to the first after which the loop saw the abort. */
  function Answered(scripts: seq<CallScript>): (count: nat)
    ensures count <= |scripts|
    ensures scripts != [] ==> count > 0
    ensures (forall i :: 0 <= i < |scripts| ==> !scripts[i].abortedAfterCall) ==> count == |scripts|
    ensures count < |scripts| ==> scripts[count - 1].abortedAfterCall
  {
    if scripts == [] then 0 else 1 + if scripts[0].abortedAfterCall then 0 else Answered(scripts[1..])
  }

  function Outcomes(calls: seq<ToolCall>, scripts: seq<CallScript>): seq<Finalized>
    requires |calls| == |scripts|
  {
    OutcomesTo(calls, scripts, Answered(scripts))
  }

  /** The outcomes of the first `n` calls. */
  function OutcomesTo(calls: seq<ToolCall>, scripts: seq<CallScript>, n: nat): (outcomes: seq<Finalized>)
    requires n <= |calls| == |scripts|
    ensures |outcomes| == n && forall i :: 0 <= i < n ==> outcomes[i] == Outcome(calls[i], scripts[i])
  {
    if n == 0 then [] else OutcomesTo(calls, scripts, n - 1) + [Outcome(calls[n - 1], scripts[n - 1])]
  }

  lemma OutcomesStep(calls: seq<ToolCall>, scripts: seq<CallScript>)
    requires |calls| == |scripts| > 0
    ensures Outcomes(calls, scripts) ==
            [Outcome(calls[0], scripts[0])]
            + if scripts[0].abortedAfterCall then [] else Outcomes(calls[1..], scripts[1..])
  {
  }

  lemma {:induction false} SequentialOutcomes(calls: seq<ToolCall>, scripts: seq<CallScript>)
    requires |calls| == |scripts|
    ensures Sequential(calls, scripts).finalized == Outcomes(calls, scripts)
    decreases |calls|
  {
    if calls != [] {
      OutcomesStep(calls, scripts);
      SequentialOutcomes(calls[1..], scripts[1..]);
    }
  }

  /** What a task will be finalized to, however far it has come. */
  function Target(entry: Entry): Finalized {
    match entry
    case Settled(finalized) => finalized
    case Running(call, script, _) => RunTool(call, script)
  }

  lemma {:induction false} PreparedTargets(calls: seq<ToolCall>, scripts: seq<CallScript>)
    requires |calls| == |scripts|
    ensures var entries := Prepare(calls, scripts).entries;
            && |entries| == Answered(scripts)
            && forall i :: 0 <= i < |entries| ==> Target(entries[i]) == Outcome(calls[i], scripts[i])
    decreases |calls|
  {
    if calls != [] {
      PreparedTargets(calls[1..], scripts[1..]);
      var entries := Prepare(calls, scripts).entries;
      forall i | 1 <= i < |entries| ensures Target(entries[i]) == Outcome(calls[i], scripts[i]) {
        var later := Prepare(calls[1..], scripts[1..]).entries;
        assert entries[i] == later[i - 1];
      }
    }
  }

  /** No schedule changes what a task is finalized to, or its place. */
  lemma {:induction false} TargetsKept(entries: seq<Entry>, schedule: seq<nat>)
    ensures var final := Interleave(entries, schedule).1;
            |final| == |entries| && forall i :: 0 <= i < |entries| ==> Target(final[i]) == Target(entries[i])
    decreases |schedule|
  {
    if schedule != [] {
      if schedule[0] >= |entries| {
        TargetsKept(entries, schedule[1..]);
      } else {
        TargetsKept(entries[schedule[0] := Progress(entries[schedule[0]]).1], schedule[1..]);
      }
    }
  }

  lemma {:induction false} FinalizedAreTargets(entries: seq<Entry>)
    requires AllSettled(entries)
    ensures |FinalizedOf(entries)| == |entries|
    ensures forall i :: 0 <= i < |entries| ==> FinalizedOf(entries)[i] == Target(entries[i])
  {
    if entries != [] {
      FinalizedAreTargets(entries[1..]);
    }
  }

  lemma ParallelOutcomes(calls: seq<ToolCall>, scripts: seq<CallScript>, schedule: seq<nat>)
    requires Completes(calls, scripts, schedule)
    ensures Parallel(calls, scripts, schedule).finalized == Outcomes(calls, scripts)
  {
    var entries := Prepare(calls, scripts).entries;
    PreparedTargets(calls, scripts);
    TargetsKept(entries, schedule);
    FinalizedAreTargets(Interleave(entries, schedule).1);
  }

  lemma {:induction false} ResultMessagesAt(finalized: seq<Finalized>)
    ensures forall i :: 0 <= i < |finalized| ==> ResultMessages(finalized)[i] == ResultMessage(finalized[i])
  {
    if finalized != [] {
      ResultMessagesAt(finalized[1..]);
    }
  }

  /** The message is the result of this call. */
  predicate Answers(message: Message, call: ToolCall, script: CallScript) {
    message == ResultMessage(Outcome(call, script)) && message.result.toolCallId == call.id
  }

  /** The results answer a non-empty prefix of the calls, in their order; without an abort all of them. */
  predicate AnswersPrefix(finalized: seq<Finalized>, calls: seq<ToolCall>, scripts: seq<CallScript>)
    requires |calls| == |scripts|
  {
    && 0 < |finalized| <= |calls|
    && (forall i :: 0 <= i < |finalized| ==> Answers(ResultMessages(finalized)[i], calls[i], scripts[i]))
    && ((forall i :: 0 <= i < |calls| ==> !scripts[i].abortedAfterCall) ==> |finalized| == |calls|)
  }

  lemma OutcomesAnswerPrefix(calls: seq<ToolCall>, scripts: seq<CallScript>)
    requires |calls| == |scripts| > 0
    ensures AnswersPrefix(Outcomes(calls, scripts), calls, scripts)
  {
    ResultMessagesAt(Outcomes(calls, scripts));
  }

  /** Under any abort both kinds of batch answer a prefix of the calls. */
  lemma ResultsAnswerPrefix(calls: seq<ToolCall>, scripts: seq<CallScript>, schedule: seq<nat>)
    requires |calls| == |scripts| > 0
    ensures AnswersPrefix(Sequential(calls, scripts).finalized, calls, scripts)
    ensures Completes(calls, scripts, schedule) ==> AnswersPrefix(Parallel(calls, scripts, schedule).finalized, calls, scripts)
  {
    SequentialOutcomes(calls, scripts);
    OutcomesAnswerPrefix(calls, scripts);
    if Completes(calls, scripts, schedule) {
      ParallelOutcomes(calls, scripts, schedule);
    }
  }

  // ---------- one abort in both kinds of batch ----------

  /** When the signal aborts: while a call is prepared (before the hook's check, before the last check, or
      after it), while one runs, or not at all. */
  datatype Moment = Never | InPreparation(call: nat, point: nat) | InExecution(call: nat)

  function Unaborted(script: CallScript): CallScript {
    script.(abortedAfterBefore := false, abortedBeforeStart := false, abortedAfterCall := false)
  }

  /** What the sequential loop sees at its `i`-th call. Each tool runs before the next call is prepared. */
  function SeenInSequence(script: CallScript, i: nat, moment: Moment): CallScript {
    match moment
    case Never => Unaborted(script)
    case InPreparation(call, point) => SeenInPreparation(script, i, call, point)
    case InExecution(call) =>
      if i < call then Unaborted(script)
      else if i == call then Unaborted(script).(abortedAfterCall := true)
      else SeenInPreparation(script, i, call, 0)
  }

  /** What the parallel loop sees. All calls are prepared before a tool runs. */
  function SeenInParallel(script: CallScript, i: nat, moment: Moment): CallScript {
    match moment
    case InPreparation(call, point) => SeenInPreparation(script, i, call, point)
    case _ => Unaborted(script)
  }

  function SeenInPreparation(script: CallScript, i: nat, call: nat, point: nat): CallScript {
    if i < call then Unaborted(script)
    else script.(abortedAfterBefore := i > call || point == 0, abortedBeforeStart := i > call || point <= 1, abortedAfterCall := true)
  }

  function SequentialScripts(scripts: seq<CallScript>, moment: Moment, n: nat): (seen: seq<CallScript>)
    requires n <= |scripts|
    ensures |seen| == n && forall i :: 0 <= i < n ==> seen[i] == SeenInSequence(scripts[i], i, moment)
  {
    if n == 0 then [] else SequentialScripts(scripts, moment, n - 1) + [SeenInSequence(scripts[n - 1], n - 1, moment)]
  }

  function ParallelScripts(scripts: seq<CallScript>, moment: Moment, n: nat): (seen: seq<CallScript>)
    requires n <= |scripts|
    ensures |seen| == n && forall i :: 0 <= i < n ==> seen[i] == SeenInParallel(scripts[i], i, moment)
  {
    if n == 0 then [] else ParallelScripts(scripts, moment, n - 1) + [SeenInParallel(scripts[n - 1], n - 1, moment)]
  }

  /** The first call after which an abort is seen is the last that is answered. */
  lemma {:induction false} AnsweredIs(scripts: seq<CallScript>, last: nat)
    requires forall i :: 0 <= i < |scripts| && i < last ==> !scripts[i].abortedAfterCall
    requires last < |scripts| ==> scripts[last].abortedAfterCall
    ensures Answered(scripts) == if last < |scripts| then last + 1 else |scripts|
    decreases |scripts|
  {
    if scripts != [] && last > 0 {
      AnsweredIs(scripts[1..], last - 1);
    }
  }

  function LastInSequence(moment: Moment, count: nat): nat {
    if moment.Never? then count else moment.call
  }

  function LastInParallel(moment: Moment, count: nat): nat {
    if moment.InPreparation? then moment.call else count
  }

  lemma AnsweredInBoth(scripts: seq<CallScript>, moment: Moment)
    ensures var q, p := LastInSequence(moment, |scripts|), LastInParallel(moment, |scripts|);
            && Answered(SequentialScripts(scripts, moment, |scripts|)) == (if q < |scripts| then q + 1 else |scripts|)
            && Answered(ParallelScripts(scripts, moment, |scripts|)) == (if p < |scripts| then p + 1 else |scripts|)
  {
    AnsweredIs(SequentialScripts(scripts, moment, |scripts|), LastInSequence(moment, |scripts|));
    AnsweredIs(ParallelScripts(scripts, moment, |scripts|), LastInParallel(moment, |scripts|));
  }

  /** An answered call has the same outcome in both. */
  lemma SameOutcome(call: ToolCall, script: CallScript, i: nat, moment: Moment)
    requires moment.InExecution? ==> i <= moment.call
    ensures Outcome(call, SeenInSequence(script, i, moment)) == Outcome(call, SeenInParallel(script, i, moment))
  {
    assert Preflight(call, SeenInSequence(script, i, moment)) == Preflight(call, SeenInParallel(script, i, moment));
  }

  predicate CutsShort(moment: Moment, count: nat) {
    moment.InExecution? && moment.call + 1 < count
  }

  lemma OutcomesInBoth(calls: seq<ToolCall>, scripts: seq<CallScript>, moment: Moment)
    requires |calls| == |scripts|
    ensures var sequential := Outcomes(calls, SequentialScripts(scripts, moment, |scripts|));
            var parallel := Outcomes(calls, ParallelScripts(scripts, moment, |scripts|));
            && |sequential| <= |parallel| && sequential == parallel[..|sequential|]
            && (|sequential| == |parallel| <==> !CutsShort(moment, |calls|))
  {
    var p, q := ParallelScripts(scripts, moment, |scripts|), SequentialScripts(scripts, moment, |scripts|);
    AnsweredInBoth(scripts, moment);
    forall i | 0 <= i < Answered(q) ensures Outcomes(calls, q)[i] == Outcomes(calls, p)[i] {
      SameOutcome(calls[i], scripts[i], i, moment);
    }
  }

  /** For every interleaving, and wherever one abort falls, the results of the sequential batch are a
      prefix of those of the parallel one. They are all of them exactly if the abort does not come while
      a tool runs that has another call after it. */
  lemma ParallelAgreesWithSequential(calls: seq<ToolCall>, scripts: seq<CallScript>, moment: Moment, schedule: seq<nat>)
    requires |calls| == |scripts| && Completes(calls, ParallelScripts(scripts, moment, |scripts|), schedule)
    ensures var parallel := Parallel(calls, ParallelScripts(scripts, moment, |scripts|), schedule).finalized;
            var sequential := Sequential(calls, SequentialScripts(scripts, moment, |scripts|)).finalized;
            && |sequential| <= |parallel| && sequential == parallel[..|sequential|]
            && (sequential == parallel <==> !CutsShort(moment, |calls|))
  {
    ParallelOutcomes(calls, ParallelScripts(scripts, moment, |scripts|), schedule);
    SequentialOutcomes(calls, SequentialScripts(scripts, moment, |scripts|));
    OutcomesInBoth(calls, scripts, moment);
  }

  /** So without an abort they agree on the result messages and on ending the turn, and answer all calls. */
  lemma UnabortedBatchesAgree(calls: seq<ToolCall>, sequentialScripts: seq<CallScript>, parallelScripts: seq<CallScript>, schedule: seq<nat>)
    requires |calls| == |sequentialScripts| == |parallelScripts| && Completes(calls, parallelScripts, schedule)
    requires forall i :: 0 <= i < |calls| ==> NeverAborted(sequentialScripts[i]) && NeverAborted(parallelScripts[i])
    requires forall i :: 0 <= i < |calls| ==> Unaborted(sequentialScripts[i]) == Unaborted(parallelScripts[i])
    ensures var parallel, sequential := Parallel(calls, parallelScripts, schedule), Sequential(calls, sequentialScripts);
            && parallel.finalized == sequential.finalized && |parallel.finalized| == |calls|
            && ResultMessages(parallel.finalized) == ResultMessages(sequential.finalized)
            && ShouldTerminate(parallel.finalized) == ShouldTerminate(sequential.finalized)
  {
    assert sequentialScripts == parallelScripts;
    ParallelOutcomes(calls, parallelScripts, schedule);
    SequentialOutcomes(calls, sequentialScripts);
  }

  // ---------- nesting ----------

  lemma {:induction false} WalkPairs(turns: nat, tools: multiset<CallId>, messages: seq<Message>)
    ensures Walk(InTurn(turns, false, tools), Pairs(messages)) == InTurn(turns, false, tools)
    decreases |messages|
  {
    if messages != [] {
      var at := InTurn(turns, false, tools);
      WalkInTwoParts(at, Pair(messages[0]), Pairs(messages[1..]));
      WalkPair(turns, tools, messages[0]);
      WalkPairs(turns, tools, messages[1..]);
    }
  }

  lemma WalkPair(turns: nat, tools: multiset<CallId>, message: Message)
    ensures Walk(InTurn(turns, false, tools), Pair(message)) == InTurn(turns, false, tools)
  {
    var at := InTurn(turns, false, tools);
    assert Pair(message) == [MessageStart(message)] + [MessageEnd(message)];
    WalkInTwoParts(at, [MessageStart(message)], [MessageEnd(message)]);
    WalkOne(at, MessageStart(message));
    WalkOne(at.(open := true), MessageEnd(message));
  }

  lemma {:induction false} WalkUpdates(turns: nat, tools: multiset<CallId>, call: ToolCall, updates: seq<ToolOutput>)
    requires call.id in tools
    ensures Walk(InTurn(turns, false, tools), Updates(call, updates)) == InTurn(turns, false, tools)
    decreases |updates|
  {
    if updates != [] {
      WalkUpdates(turns, tools, call, updates[1..]);
    }
  }

  lemma WalkCall(turns: nat, call: ToolCall, script: CallScript)
    ensures Walk(InTurn(turns, false, multiset{}), CallEvents(call, script)) == InTurn(turns, false, multiset{})
  {
    var rest, during := InTurn(turns, false, multiset{}), InTurn(turns, false, multiset{call.id});
    var updates := if Preflight(call, script).None? then Updates(call, script.updates) else [];
    var outcome := Outcome(call, script);
    var first, second := [ToolStart(call)] + updates, [ToolStart(call)] + updates + [EndEvent(outcome)];
    WalkInTwoParts(rest, second, Pair(ResultMessage(outcome)));
    WalkInTwoParts(rest, first, [EndEvent(outcome)]);
    WalkInTwoParts(rest, [ToolStart(call)], updates);
    WalkOne(rest, ToolStart(call));
    WalkUpdates(turns, multiset{call.id}, call, script.updates);
    WalkOne(during, EndEvent(outcome));
    WalkPair(turns, multiset{}, ResultMessage(outcome));
    assert Walk(rest, [ToolStart(call)]) == during;
    assert Walk(during, updates) == during;
    assert multiset{call.id} - multiset{call.id} == multiset{};
  }

  lemma {:induction false} SequentialNests(turns: nat, calls: seq<ToolCall>, scripts: seq<CallScript>)
    requires |calls| == |scripts|
    ensures Walk(InTurn(turns, false, multiset{}), Sequential(calls, scripts).events) == InTurn(turns, false, multiset{})
    decreases |calls|
  {
    if calls != [] {
      var later := if scripts[0].abortedAfterCall then Batch([], [], []) else Sequential(calls[1..], scripts[1..]);
      WalkInTwoParts(InTurn(turns, false, multiset{}), CallEvents(calls[0], scripts[0]), later.events);
      WalkCall(turns, calls[0], scripts[0]);
      SequentialNests(turns, calls[1..], scripts[1..]);
    }
  }

  /** The ids of the tasks in progress. */
  function OpenIds(entries: seq<Entry>): multiset<CallId> {
    if entries == [] then multiset{}
    else OpenId(entries[0]) + OpenIds(entries[1..])
  }

  function OpenId(entry: Entry): multiset<CallId> {
    if entry.Running? then multiset{entry.call.id} else multiset{}
  }

  lemma {:induction false} OpenIdsUpdate(entries: seq<Entry>, at: nat, entry: Entry)
    requires at < |entries|
    ensures OpenId(entries[at]) <= OpenIds(entries)
    ensures OpenIds(entries[at := entry]) == OpenIds(entries) - OpenId(entries[at]) + OpenId(entry)
    decreases |entries|
  {
    var updated := entries[at := entry];
    if at == 0 {
      assert updated[1..] == entries[1..];
    } else {
      assert updated[1..] == entries[1..][at - 1 := entry];
      OpenIdsUpdate(entries[1..], at - 1, entry);
      Shifted(OpenId(entries[0]), OpenIds(entries[1..]), OpenId(entries[at]), OpenId(entry));
    }
  }

  lemma Shifted(a: multiset<CallId>, b: multiset<CallId>, less: multiset<CallId>, more: multiset<CallId>)
    requires less <= b
    ensures less <= a + b && a + (b - less + more) == a + b - less + more
  {
  }

  lemma {:induction false} OpenIdsSettled(entries: seq<Entry>)
    requires AllSettled(entries)
    ensures OpenIds(entries) == multiset{}
  {
    if entries != [] {
      OpenIdsSettled(entries[1..]);
    }
  }

  lemma OpenIdsFirst(entry: Entry, entries: seq<Entry>)
    ensures OpenIds([entry] + entries) == OpenId(entry) + OpenIds(entries)
  {
    assert ([entry] + entries)[1..] == entries;
  }

  lemma {:induction false} PrepareNests(turns: nat, open: multiset<CallId>, calls: seq<ToolCall>, scripts: seq<CallScript>)
    requires |calls| == |scripts|
    ensures var preparation := Prepare(calls, scripts);
            Walk(InTurn(turns, false, open), preparation.events) == InTurn(turns, false, open + OpenIds(preparation.entries))
    decreases |calls|
  {
    if calls != [] {
      var entry := EntryFor(calls[0], scripts[0]);
      var later := if scripts[0].abortedAfterCall then Preparation([], []) else Prepare(calls[1..], scripts[1..]);
      WalkInTwoParts(InTurn(turns, false, open), PrepareEvents(calls[0], scripts[0]), later.events);
      WalkPrepared(turns, open, calls[0], scripts[0]);
      PrepareNests(turns, open + OpenId(entry), calls[1..], scripts[1..]);
      OpenIdsFirst(entry, later.entries);
      assert open + OpenId(entry) + OpenIds(later.entries) == open + (OpenId(entry) + OpenIds(later.entries));
    }
  }

  lemma WalkPrepared(turns: nat, open: multiset<CallId>, call: ToolCall, script: CallScript)
    ensures Walk(InTurn(turns, false, open), PrepareEvents(call, script))
            == InTurn(turns, false, open + OpenId(EntryFor(call, script)))
  {
    var at := InTurn(turns, false, open);
    var ends := if Preflight(call, script).Some? then [EndEvent(Outcome(call, script))] else [];
    WalkInTwoParts(at, [ToolStart(call)], ends);
    WalkOne(at, ToolStart(call));
    if ends != [] {
      WalkOne(at.(tools := open + multiset{call.id}), ends[0]);
      Readded(open, call.id);
    }
  }

  lemma Readded(open: multiset<CallId>, id: CallId)
    ensures open + multiset{id} - multiset{id} == open == open + multiset{}
    ensures id in open ==> open - multiset{id} + multiset{id} == open
    ensures open - multiset{id} + multiset{} == open - multiset{id}
  {
  }

  lemma ProgressNests(turns: nat, entries: seq<Entry>, at: nat)
    requires at < |entries|
    ensures var (events, entry) := Progress(entries[at]);
            Walk(InTurn(turns, false, OpenIds(entries)), events) ==
            InTurn(turns, false, OpenIds(entries[at := entry]))
  {
    var (events, entry) := Progress(entries[at]);
    if entries[at].Settled? {
      assert entries[at := entry] == entries;
    } else {
      var open := OpenIds(entries);
      OpenIdsUpdate(entries, at, entry);
      Readded(open, entries[at].call.id);
      RunningNests(turns, open, entries[at]);
    }
  }

  lemma RunningNests(turns: nat, open: multiset<CallId>, entry: Entry)
    requires entry.Running? && entry.call.id in open
    ensures var (events, next) := Progress(entry);
            Walk(InTurn(turns, false, open), events) ==
            InTurn(turns, false, open - multiset{entry.call.id} + OpenId(next))
  {
    var event := Progress(entry).0[0];
    assert Progress(entry).0 == [event];
    WalkOne(InTurn(turns, false, open), event);
    Readded(open, entry.call.id);
  }

  lemma {:induction false} InterleaveNests(turns: nat, entries: seq<Entry>, schedule: seq<nat>)
    ensures var (events, final) := Interleave(entries, schedule);
            Walk(InTurn(turns, false, OpenIds(entries)), events) == InTurn(turns, false, OpenIds(final))
    decreases |schedule|
  {
    if schedule != [] {
      if schedule[0] >= |entries| {
        InterleaveNests(turns, entries, schedule[1..]);
      } else {
        var (events, entry) := Progress(entries[schedule[0]]);
        var next := entries[schedule[0] := entry];
        WalkInTwoParts(InTurn(turns, false, OpenIds(entries)), events, Interleave(next, schedule[1..]).0);
        ProgressNests(turns, entries, schedule[0]);
        InterleaveNests(turns, next, schedule[1..]);
      }
    }
  }

  /** However the tools interleave, every start gets its end inside the turn, and updates lie
      between. */
  lemma ParallelNests(turns: nat, calls: seq<ToolCall>, scripts: seq<CallScript>, schedule: seq<nat>)
    requires Completes(calls, scripts, schedule)
    ensures Walk(InTurn(turns, false, multiset{}), Parallel(calls, scripts, schedule).events)
            == InTurn(turns, false, multiset{})
  {
    var preparation := Prepare(calls, scripts);
    var (events, entries) := Interleave(preparation.entries, schedule);
    var results := Pairs(ResultMessages(FinalizedOf(entries)));
    var at := InTurn(turns, false, multiset{});
    WalkInTwoParts(at, preparation.events + events, results);
    WalkInTwoParts(at, preparation.events, events);
    PrepareNests(turns, multiset{}, calls, scripts);
    assert multiset{} + OpenIds(preparation.entries) == OpenIds(preparation.entries);
    InterleaveNests(turns, preparation.entries, schedule);
    OpenIdsSettled(entries);
    WalkPairs(turns, multiset{}, ResultMessages(FinalizedOf(entries)));
  }

  // ---------- the messages a batch completes ----------

  predicate NoMessages(trace: Trace) {
    forall i :: 0 <= i < |trace| ==> !trace[i].MessageEnd?
  }

  lemma {:induction false} NoneCompleted(trace: Trace)
    requires NoMessages(trace)
    ensures Completed(trace) == []
    decreases |trace|
  {
    if trace != [] {
      NoneCompleted(trace[1..]);
    }
  }

  lemma PairCompletes(message: Message)
    ensures Completed(Pair(message)) == [message]
  {
    assert Pair(message)[1..] == [MessageEnd(message)];
    assert Completed([MessageEnd(message)]) == [message] + Completed([]);
  }

  lemma {:induction false} PairsComplete(messages: seq<Message>)
    ensures Completed(Pairs(messages)) == messages
    decreases |messages|
  {
    if messages != [] {
      CompletedInTwoParts(Pair(messages[0]), Pairs(messages[1..]));
      PairCompletes(messages[0]);
      PairsComplete(messages[1..]);
    }
  }

  lemma {:induction false} UpdatesAreNoMessages(call: ToolCall, updates: seq<ToolOutput>)
    ensures NoMessages(Updates(call, updates))
  {
    if updates != [] {
      UpdatesAreNoMessages(call, updates[1..]);
    }
  }

  lemma CallCompletes(call: ToolCall, script: CallScript)
    ensures Completed(CallEvents(call, script)) == [ResultMessage(Outcome(call, script))]
  {
    var updates := if Preflight(call, script).None? then Updates(call, script.updates) else [];
    var before := [ToolStart(call)] + updates + [EndEvent(Outcome(call, script))];
    UpdatesAreNoMessages(call, script.updates);
    NoneCompleted(before);
    CompletedInTwoParts(before, Pair(ResultMessage(Outcome(call, script))));
    PairCompletes(ResultMessage(Outcome(call, script)));
  }

  lemma {:induction false} SequentialCompletes(calls: seq<ToolCall>, scripts: seq<CallScript>)
    requires |calls| == |scripts|
    ensures Completed(Sequential(calls, scripts).events) == ResultMessages(Sequential(calls, scripts).finalized)
    decreases |calls|
  {
    if calls != [] {
      var later := if scripts[0].abortedAfterCall then Batch([], [], []) else Sequential(calls[1..], scripts[1..]);
      CompletedInTwoParts(CallEvents(calls[0], scripts[0]), later.events);
      CallCompletes(calls[0], scripts[0]);
      SequentialCompletes(calls[1..], scripts[1..]);
      var outcome := Outcome(calls[0], scripts[0]);
      assert ([outcome] + later.finalized)[1..] == later.finalized;
    }
  }

  lemma {:induction false} PrepareHasNoMessages(calls: seq<ToolCall>, scripts: seq<CallScript>)
    requires |calls| == |scripts|
    ensures NoMessages(Prepare(calls, scripts).events)
    decreases |calls|
  {
    if calls != [] {
      PrepareHasNoMessages(calls[1..], scripts[1..]);
    }
  }

  lemma {:induction false} InterleaveHasNoMessages(entries: seq<Entry>, schedule: seq<nat>)
    ensures NoMessages(Interleave(entries, schedule).0)
    decreases |schedule|
  {
    if schedule != [] {
      if schedule[0] >= |entries| {
        InterleaveHasNoMessages(entries, schedule[1..]);
      } else {
        InterleaveHasNoMessages(entries[schedule[0] := Progress(entries[schedule[0]]).1], schedule[1..]);
      }
    }
  }

  /** The parallel batch completes its result messages in the order of the calls, whatever the order
      in which the tools ended. */
  lemma ParallelCompletes(calls: seq<ToolCall>, scripts: seq<CallScript>, schedule: seq<nat>)
    requires Completes(calls, scripts, schedule)
    ensures Completed(Parallel(calls, scripts, schedule).events)
            == ResultMessages(Parallel(calls, scripts, schedule).finalized)
  {
    var preparation := Prepare(calls, scripts);
    var (events, entries) := Interleave(preparation.entries, schedule);
    var before := preparation.events + events;
    PrepareHasNoMessages(calls, scripts);
    InterleaveHasNoMessages(preparation.entries, schedule);
    NoneCompleted(before);
    CompletedInTwoParts(before, Pairs(ResultMessages(FinalizedOf(entries))));
    PairsComplete(ResultMessages(FinalizedOf(entries)));
  }

  // ---------- which tools run ----------

  /** Those of the first `n` calls that pass the preflight. */
  function Passing(calls: seq<ToolCall>, scripts: seq<CallScript>, n: nat): seq<ToolCall>
    requires n <= |calls| == |scripts|
  {
    if n == 0 then []
    else Passing(calls, scripts, n - 1) + if Preflight(calls[n - 1], scripts[n - 1]).None? then [calls[n - 1]] else []
  }

  lemma {:induction false} PassingFromFirst(calls: seq<ToolCall>, scripts: seq<CallScript>, n: nat)
    requires 0 < n <= |calls| == |scripts|
    ensures Passing(calls, scripts, n) == Runs(calls[0], scripts[0]) + Passing(calls[1..], scripts[1..], n - 1)
    decreases n
  {
    if n > 1 {
      PassingFromFirst(calls, scripts, n - 1);
    }
  }

  /** Both kinds of batch execute exactly the answered calls that pass the preflight, once each and in
      the order of the calls. */
  lemma {:induction false} SameToolsRun(calls: seq<ToolCall>, scripts: seq<CallScript>)
    requires |calls| == |scripts|
    ensures Sequential(calls, scripts).executed == Passing(calls, scripts, Answered(scripts))
    ensures ExecutedIn(Prepare(calls, scripts).entries) == Passing(calls, scripts, Answered(scripts))
    decreases |calls|
  {
    if calls != [] {
      SameToolsRun(calls[1..], scripts[1..]);
      PassingFromFirst(calls, scripts, Answered(scripts));
      var later := if scripts[0].abortedAfterCall then Preparation([], []) else Prepare(calls[1..], scripts[1..]);
      var entries := Prepare(calls, scripts).entries;
      assert entries[1..] == later.entries;
    }
  }

  // ---------- every batch can end ----------

  /** The work a task still has to do. */
  function Work(entry: Entry): nat {
    if entry.Settled? then 0 else 1 + |entry.pending|
  }

  function TotalWork(entries: seq<Entry>): nat {
    if entries == [] then 0 else Work(entries[0]) + TotalWork(entries[1..])
  }

  lemma {:induction false} WorkUpdate(entries: seq<Entry>, at: nat, entry: Entry)
    requires at < |entries|
    ensures TotalWork(entries[at := entry]) == TotalWork(entries) - Work(entries[at]) + Work(entry)
    decreases |entries|
  {
    var updated := entries[at := entry];
    if at == 0 {
      assert updated[1..] == entries[1..];
    } else {
      assert updated[1..] == entries[1..][at - 1 := entry];
      WorkUpdate(entries[1..], at - 1, entry);
    }
  }

  /** From every point there is a schedule that gets all tasks to their end. */
  lemma {:induction false} CanComplete(entries: seq<Entry>) returns (schedule: seq<nat>)
    ensures AllSettled(Interleave(entries, schedule).1)
    decreases TotalWork(entries)
  {
    if AllSettled(entries) {
      schedule := [];
    } else {
      var at: nat :| at < |entries| && !entries[at].Settled?;
      var entry := Progress(entries[at]).1;
      WorkUpdate(entries, at, entry);
      var rest := CanComplete(entries[at := entry]);
      schedule := [at] + rest;
      assert schedule[1..] == rest;
    }
  }
}
