/** What holds in every run of the client machine. */
module ClientSafety {
  import opened Prelude
  import opened ClientProtocol

  // ---------- notifications and connect promises ----------

  lemma {:induction false} NeverConfusedBefore(notes: seq<Note>, n: nat, k: nat)
    requires k <= n <= |notes| && HearTo(notes, n) != Confused
    ensures HearTo(notes, k) != Confused
    decreases n
  {
    if k < n {
      NeverConfusedBefore(notes, n - 1, k);
    }
  }

  /** At every moment the calls of onStateChange so far are connecting, perhaps connected, disconnected,
      connection after connection. What a single listener hears of them is the matter of ListenerOrder. */
  lemma NotificationsInOrder(events: seq<Event>, k: nat)
    requires k <= |Run(INITIAL, events).notes|
    ensures HearTo(Run(INITIAL, events).notes, k) != Confused
  {
    RunKeepsInv(INITIAL, events);
    NeverConfusedBefore(Run(INITIAL, events).notes, |Run(INITIAL, events).notes|, k);
  }

  /** Where a note stands in the order of all notes. */
  function Place(note: Note): nat {
    match note
    case NoteConnecting(id) => 3 * id
    case NoteConnected(id) => 3 * id + 1
    case NoteDisconnected(id) => 3 * id + 2
  }

  function Reached(watch: Watch): nat {
    match watch
    case Quiet(last) => 3 * last + 2
    case Ringing(id) => 3 * id
    case Up(id) => 3 * id + 1
    case Confused => 0
  }

  lemma {:induction false} PlacesGrow(notes: seq<Note>, n: nat)
    requires n <= |notes| && HearTo(notes, n) != Confused
    ensures forall i :: 0 <= i < n ==> Place(notes[i]) <= Reached(HearTo(notes, n))
    decreases n
  {
    if n > 0 {
      PlacesGrow(notes, n - 1);
      assert Reached(HearTo(notes, n - 1)) < Place(notes[n - 1]) == Reached(HearTo(notes, n));
    }
  }

  /** No notification comes twice. */
  lemma NotesAreDistinct(events: seq<Event>, i: nat, j: nat)
    requires i < j < |Run(INITIAL, events).notes|
    ensures Run(INITIAL, events).notes[i] != Run(INITIAL, events).notes[j]
  {
    var notes := Run(INITIAL, events).notes;
    NotificationsInOrder(events, j);
    NotificationsInOrder(events, j + 1);
    PlacesGrow(notes, j);
    assert Reached(HearTo(notes, j)) < Place(notes[j]);
  }

  /** A connect promise settles at most once: it has settled unless its handshake is under way, and it
      is resolved when the connection is established. Once no call is running, a connected client has
      its promise resolved. */
  lemma ConnectSettlesOnce(events: seq<Event>, id: ConnectionId)
    requires 0 < id <= Run(INITIAL, events).sequence
    ensures var s := Run(INITIAL, events);
            && id in s.promises && |s.promises[id]| <= 1
            && (s.promises[id] == [] <==> HandshakePending(s.lifecycle) && s.lifecycle.id == id)
            && (s.stack == [] && s.lifecycle.Connected? && s.lifecycle.id == id ==> s.promises[id] == [Resolved])
  {
    RunKeepsInv(INITIAL, events);
  }

  // ---------- requests ----------

  /** Every request settles exactly once, no later than the end of the connection it was sent on. */
  lemma RequestsSettleOnce(events: seq<Event>, request: RequestId)
    requires 0 < request <= Run(INITIAL, events).requestSequence
    ensures var s := Run(INITIAL, events);
            && request in s.requests && |s.requests[request].outcomes| <= 1
            && (s.requests[request].outcomes == [] ==>
                  request in s.pending && s.lifecycle.Connected? && s.lifecycle.id == s.requests[request].connection)
  {
    RunKeepsInv(INITIAL, events);
  }

  /** The settled requests of `before` are the same in `after`. */
  ghost predicate SettledStay(before: map<RequestId, Request>, after: map<RequestId, Request>) {
    forall request :: request in before && before[request].outcomes != [] ==>
                        request in after && after[request] == before[request]
  }

  ghost predicate PendingAreOpen(requests: map<RequestId, Request>, pending: set<RequestId>) {
    forall request :: request in pending ==> request in requests && requests[request].outcomes == []
  }

  lemma FailKeepsSettled(s: State)
    requires PendingAreOpen(s.requests, s.pending)
    ensures SettledStay(s.requests, FailAndClose(s).requests)
  {
  }

  lemma SettledOn(first: map<RequestId, Request>, second: map<RequestId, Request>, third: map<RequestId, Request>)
    requires SettledStay(first, second) && SettledStay(second, third)
    ensures SettledStay(first, third)
  {
  }

  lemma ResponseKeepsSettled(s: State, request: RequestId, ok: bool, matching: bool)
    requires PendingAreOpen(s.requests, s.pending)
    ensures SettledStay(s.requests, ResponseStep(s, request, ok, matching).requests)
  {
    FailKeepsSettled(s);
    if request in s.pending {
      var taken := s.(pending := s.pending - {request}, requests := SettleRequest(s.requests, request, Rejected));
      assert PendingAreOpen(taken.requests, taken.pending);
      FailKeepsSettled(taken);
      SettledOn(s.requests, taken.requests, FailAndClose(taken).requests);
    }
  }

  lemma AdvanceKeepsSettled(s: State, threw: bool)
    requires PendingAreOpen(s.requests, s.pending)
    ensures SettledStay(s.requests, AdvanceStep(s, threw).requests)
  {
    if s.stack != [] {
      var top, below := s.stack[|s.stack| - 1], s.stack[..|s.stack| - 1];
      match top {
        case Delivering(id, messages) =>
          if messages != [] {
            MessageKeepsSettled(s.(stack := below + [Delivering(id, messages[1..])]), messages[0]);
          }
        case _ => FailKeepsSettled(s.(stack := below));
      }
    }
  }

  lemma MessageKeepsSettled(s: State, message: Message)
    requires PendingAreOpen(s.requests, s.pending)
    ensures SettledStay(s.requests, MessageStep(s, message).requests)
  {
    FailKeepsSettled(s);
    if message.Response? {
      ResponseKeepsSettled(s, message.request, message.ok, message.matching);
    }
  }

  lemma IssueKeepsSettled(s: State, encodable: bool, sendThrows: bool)
    requires PendingAreOpen(s.requests, s.pending) && s.requestSequence + 1 !in s.requests
    ensures SettledStay(s.requests, IssueRequestStep(s, encodable, sendThrows).requests)
  {
    if !s.disposed && s.lifecycle.Connected? && encodable {
      var issued := IssueRequestStep(s, true, false);
      assert PendingAreOpen(issued.requests, issued.pending);
      FailKeepsSettled(issued);
      SettledOn(s.requests, issued.requests, FailAndClose(issued).requests);
    }
  }

  lemma StepKeepsSettled(s: State, event: Event)
    requires Inv(s)
    ensures SettledStay(s.requests, Step(s, event).requests)
  {
    assert PendingAreOpen(s.requests, s.pending);
    FailKeepsSettled(s);
    if event.Advance? {
      AdvanceKeepsSettled(s, event.threw);
    } else if event.IssueRequest? {
      IssueKeepsSettled(s, event.encodable, event.sendThrows);
    } else if event.Dispose? {
      FailKeepsSettled(s.(disposed := true, requests := RejectAll(s.requests, s.pending), pending := {}));
    }
  }

  lemma {:induction false} RunKeepsSettled(s: State, events: seq<Event>)
    requires Inv(s)
    ensures SettledStay(s.requests, Run(s, events).requests)
    decreases |events|
  {
    if events != [] {
      StepKeepsInv(s, events[0]);
      StepKeepsSettled(s, events[0]);
      RunKeepsSettled(Step(s, events[0]), events[1..]);
    }
  }

  // ---------- stale callbacks ----------

  /** A callback of a transport, or a continuation of its promises. */
  predicate CallbackOf(event: Event, id: ConnectionId) {
    match event
    case FactoryFailed(from) => from == id
    case HelloSendFailed(from) => from == id
    case Data(from, _) => from == id
    case TransportClosed(from) => from == id
    case TransportErrored(from) => from == id
    case SendFailed(from) => from == id
    case TransportOpened(from) => from == id
    case _ => false
  }

  /** Everything a user of the client can see. */
  ghost predicate LooksTheSame(s: State, t: State) {
    && t.lifecycle == s.lifecycle && t.sequence == s.sequence && t.notes == s.notes && t.promises == s.promises
    && t.requests == s.requests && t.pending == s.pending && t.stack == s.stack
  }

  lemma {:induction false} OverStaysOver(s: State, events: seq<Event>, id: ConnectionId)
    requires Inv(s) && id <= s.sequence && !IsCurrent(s.lifecycle, id)
    ensures var t := Run(s, events); Inv(t) && id <= t.sequence && !IsCurrent(t.lifecycle, id)
    decreases |events|
  {
    if events != [] {
      StepKeepsInv(s, events[0]);
      OneStepOver(s, events[0], id);
      OverStaysOver(Step(s, events[0]), events[1..], id);
    }
  }

  lemma OneStepOver(s: State, event: Event, id: ConnectionId)
    requires Inv(s) && id <= s.sequence && !IsCurrent(s.lifecycle, id)
    ensures id <= Step(s, event).sequence && !IsCurrent(Step(s, event).lifecycle, id)
  {
    if event.Advance? {
      AdvanceStepOver(s, event.threw, id);
    }
  }

  lemma AdvanceStepOver(s: State, threw: bool, id: ConnectionId)
    requires id <= s.sequence && !IsCurrent(s.lifecycle, id)
    ensures id <= AdvanceStep(s, threw).sequence && !IsCurrent(AdvanceStep(s, threw).lifecycle, id)
  {
    if s.stack != [] {
      var top, below := s.stack[|s.stack| - 1], s.stack[..|s.stack| - 1];
      if top.Delivering? && top.messages != [] {
        MessageStepOver(s.(stack := below + [Delivering(top.id, top.messages[1..])]), top.messages[0], id);
      }
    }
  }

  lemma MessageStepOver(s: State, message: Message, id: ConnectionId)
    requires id <= s.sequence && !IsCurrent(s.lifecycle, id)
    ensures id <= MessageStep(s, message).sequence && !IsCurrent(MessageStep(s, message).lifecycle, id)
  {
  }

  /** After a connection is over, no callback of its transport changes anything, whatever has happened
      since; a transport that arrives late is closed. */
  lemma StaleCallbacksChangeNothing(s: State, events: seq<Event>, id: ConnectionId, callback: Event)
    requires Inv(s) && id <= s.sequence && !IsCurrent(s.lifecycle, id) && CallbackOf(callback, id)
    ensures var t := Run(s, events);
            && LooksTheSame(t, Step(t, callback))
            && (id in Step(t, callback).transports && id !in t.transports ==> id in Step(t, callback).closed)
  {
    OverStaysOver(s, events, id);
  }

  /** No transport is left open: it is closed, or it is the one in use, or listeners are being told that
      its connection is over and the call that tells them will close it. */
  lemma NoTransportLeaks(events: seq<Event>, id: ConnectionId)
    ensures var s := Run(INITIAL, events);
            id in s.transports && id !in s.closed ==>
              (IsCurrent(s.lifecycle, id) && HasTransport(s.lifecycle)) || BeingClosed(s.stack, id)
    ensures var s := Run(INITIAL, events);
            id in s.transports && id !in s.closed && s.stack == [] ==> IsCurrent(s.lifecycle, id)
  {
    RunKeepsInv(INITIAL, events);
  }

  // ---------- messages left over in a chunk ----------

  /** The loop over a chunk of an old connection is about to handle a message. */
  predicate HandlesStaleMessage(s: State) {
    s.stack != [] && var top := s.stack[|s.stack| - 1];
    top.Delivering? && top.messages != [] && !IsCurrent(s.lifecycle, top.id)
  }

  /** The loop only asks whether the client is disconnected, not whether the connection is still its
      own. So the rest of a chunk is harmless exactly if no new connection has been started; otherwise
      its next message ends that connection. */
  lemma StaleMessageIsHarmlessIffDisconnected(events: seq<Event>)
    requires HandlesStaleMessage(Run(INITIAL, events))
    ensures var s := Run(INITIAL, events);
            var t := Step(s, Advance(false));
            && (t.lifecycle == s.lifecycle && t.notes == s.notes && t.promises == s.promises <==> s.lifecycle.Disconnected?)
            && (!s.lifecycle.Disconnected? ==>
                  && t.lifecycle.Disconnected?
                  && s.lifecycle.id in t.promises && t.promises[s.lifecycle.id] == [Rejected]
                  && t.notes == s.notes + [NoteDisconnected(s.lifecycle.id)])
  {
    RunKeepsInv(INITIAL, events);
    var s := Run(INITIAL, events);
    assert FrameFits(s.stack[|s.stack| - 1], s.lifecycle);
    assert !s.lifecycle.Disconnected? ==> |s.notes + [NoteDisconnected(s.lifecycle.id)]| > |s.notes|;
  }

  /** The client while its listeners are told of the hello, with an event left in the chunk. */
  const GREETED := State(Connected(1, Greeting), 1, [Delivering(1, [ServerEvent]), Welcoming(1, false)], [NoteConnecting(1)],
                         map[1 := []], {1}, {1}, {}, map[], {}, 0, false)

  const WAITING := State(Connecting(1, true), 1, [], [NoteConnecting(1)], map[1 := []], {1}, {1}, {}, map[], {}, 0, false)

  lemma WaitingIsReached()
    ensures Step(Step(INITIAL, Connect), TransportOpened(1)) == WAITING
  {
    assert Step(INITIAL, Connect) ==
           State(Connecting(1, false), 1, [], [NoteConnecting(1)], map[1 := []], {}, {}, {}, map[], {}, 0, false);
  }

  lemma GreetedIsReached()
    ensures Step(Step(WAITING, Data(1, Some([Hello, ServerEvent]))), Advance(false)) == GREETED
  {
    var messages := [Hello, ServerEvent];
    var delivering := WAITING.(stack := [Delivering(1, messages)]);
    assert Step(WAITING, Data(1, Some(messages))) == delivering by {
      assert [] + [Delivering(1, messages)] == [Delivering(1, messages)];
    }
    assert messages[1..] == [ServerEvent] && delivering.stack[..0] == [];
    assert [] + [Delivering(1, [ServerEvent])] == [Delivering(1, [ServerEvent])];
    assert Step(delivering, Advance(false)) == MessageStep(WAITING.(stack := [Delivering(1, [ServerEvent])]), Hello);
    assert [Delivering(1, [ServerEvent])] + [Welcoming(1, false)] == GREETED.stack;
  }

  /** The listener of the hello disconnects and connects again: the old chunk is still being handled. */
  const AGAIN := State(Connecting(2, false), 2, [Delivering(1, [ServerEvent]), Welcoming(1, false)],
                       [NoteConnecting(1), NoteDisconnected(1), NoteConnecting(2)], map[1 := [Rejected], 2 := []],
                       {1}, {1}, {1}, map[], {}, 0, false)

  lemma AgainIsReached()
    ensures Step(Step(Step(GREETED, Disconnect), Advance(false)), Connect) == AGAIN
  {
    var none: seq<Outcome> := [];
    assert none + [Rejected] == [Rejected];
    var failed := GREETED.(lifecycle := Disconnected, stack := GREETED.stack + [Closing(1)],
                           notes := [NoteConnecting(1), NoteDisconnected(1)], promises := map[1 := [Rejected]]);
    assert [NoteConnecting(1)] + [NoteDisconnected(1)] == failed.notes;
    assert Step(GREETED, Disconnect) == failed;
    assert failed.stack[..2] == GREETED.stack;
    assert Step(failed, Advance(false)) == failed.(stack := GREETED.stack, closed := {1});
    assert failed.notes + [NoteConnecting(2)] == AGAIN.notes;
  }

  /** The hello and an event come in one chunk. A listener that disconnects and connects again while the
      hello is handled loses its new connection to that event. */
  lemma ReconnectInListenerFails()
    ensures var waiting := Step(Step(INITIAL, Connect), TransportOpened(1));
            var greeted := Step(Step(waiting, Data(1, Some([Hello, ServerEvent]))), Advance(false));
            var again := Step(Step(Step(greeted, Disconnect), Advance(false)), Connect);
            && again.lifecycle == Connecting(2, false) && 2 in again.promises && again.promises[2] == []
            && var after := Step(Step(again, Advance(false)), Advance(false));
            after.lifecycle == Disconnected && 2 in after.promises && after.promises[2] == [Rejected]
  {
    WaitingIsReached();
    GreetedIsReached();
    AgainIsReached();
    EventEndsNewConnection();
  }

  lemma EventEndsNewConnection()
    ensures var after := Step(Step(AGAIN, Advance(false)), Advance(false));
            after.lifecycle == Disconnected && 2 in after.promises && after.promises[2] == [Rejected]
  {
    var none: seq<Outcome> := [];
    assert none + [Rejected] == [Rejected];
    assert AGAIN.stack[..1] == [Delivering(1, [ServerEvent])];
    assert Step(AGAIN, Advance(false)) == AGAIN.(stack := [Delivering(1, [ServerEvent])]);
  }
}
