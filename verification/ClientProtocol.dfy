/**
 The connection lifecycle and the request table of a client (packages/client/src/connection.ts and
 client.ts) as a state machine. Callbacks and listeners run user code that may call back into the
 client, so `stack` holds the calls that are waiting for such code to return; transport callbacks may
 come at any time, continuations of promises only when no call is running. The transport of a
 connection is named by the connection's id.
 */
module ClientProtocol {
  import opened Prelude

  type ConnectionId = nat
  type RequestId = nat

  datatype Welcome =
    | Greeting      // onHandshake is running
    | Announcing    // onStateChange(connected) is running
    | Established   // the connect promise is resolved

  datatype Lifecycle =
    | Disconnected
    | Connecting(id: ConnectionId, transport: bool)
    | Connected(id: ConnectionId, welcome: Welcome)

  /** `matching` says that the result is of the command that was requested. */
  datatype Message = Hello | HelloError | Response(request: RequestId, ok: bool, matching: bool) | ServerEvent

  /** A call that waits for user code. */
  datatype Frame =
    | Delivering(id: ConnectionId, messages: seq<Message>)  // the loop of handleData
    | Welcoming(id: ConnectionId, announced: bool)          // handleMessage of the hello
    | Closing(id: ConnectionId)                             // failAndClose, which closes the transport

  datatype Note = NoteConnecting(id: ConnectionId) | NoteConnected(id: ConnectionId) | NoteDisconnected(id: ConnectionId)

  datatype Outcome = Resolved | Rejected

  /** All settlements of the request's promise are recorded. */
  datatype Request = Request(connection: ConnectionId, outcomes: seq<Outcome>)

  datatype State = State(
    lifecycle: Lifecycle,
    sequence: nat,
    stack: seq<Frame>,
    notes: seq<Note>,
    promises: map<ConnectionId, seq<Outcome>>,
    factories: set<ConnectionId>,
    transports: set<ConnectionId>,
    closed: set<ConnectionId>,
    requests: map<RequestId, Request>,
    pending: set<RequestId>,
    requestSequence: nat,
    disposed: bool)

  const INITIAL := State(Disconnected, 0, [], [], map[], {}, {}, {}, map[], {}, 0, false)

  datatype Event =
    | Connect
    | Disconnect
    | TransportOpened(id: ConnectionId)
    | FactoryFailed(id: ConnectionId)
    | HelloSendFailed(id: ConnectionId)
    | Data(id: ConnectionId, decoded: Option<seq<Message>>)
    | TransportClosed(id: ConnectionId)
    | TransportErrored(id: ConnectionId)
    | SendFailed(id: ConnectionId)
    | Advance(threw: bool)
    | IssueRequest(encodable: bool, sendThrows: bool)
    | Dispose

  // ---------- the steps ----------

  predicate IsCurrent(lifecycle: Lifecycle, id: ConnectionId) {
    !lifecycle.Disconnected? && lifecycle.id == id
  }

  predicate HasTransport(lifecycle: Lifecycle) {
    lifecycle.Connected? || (lifecycle.Connecting? && lifecycle.transport)
  }

  predicate HandshakePending(lifecycle: Lifecycle) {
    lifecycle.Connecting? || (lifecycle.Connected? && !lifecycle.welcome.Established?)
  }

  function Settle(promises: map<ConnectionId, seq<Outcome>>, id: ConnectionId, outcome: Outcome): map<ConnectionId, seq<Outcome>> {
    if id in promises then promises[id := promises[id] + [outcome]] else promises
  }

  function SettleRequest(requests: map<RequestId, Request>, request: RequestId, outcome: Outcome): map<RequestId, Request> {
    if request in requests
    then requests[request := requests[request].(outcomes := requests[request].outcomes + [outcome])]
    else requests
  }

  /** `rejectPendingRequests`. */
  function RejectAll(requests: map<RequestId, Request>, pending: set<RequestId>): map<RequestId, Request> {
    map request | request in requests ::
      if request in pending then requests[request].(outcomes := requests[request].outcomes + [Rejected])
      else requests[request]
  }

  /** `fail`, with what the client does when it is told. */
  function Fail(s: State): State {
    if s.lifecycle.Disconnected? then s
    else s.(lifecycle := Disconnected,
            promises := if HandshakePending(s.lifecycle) then Settle(s.promises, s.lifecycle.id, Rejected) else s.promises,
            notes := s.notes + [NoteDisconnected(s.lifecycle.id)],
            requests := RejectAll(s.requests, s.pending),
            pending := {})
  }

  /** The transport is closed when the listeners return, see AdvanceStep. */
  function FailAndClose(s: State): State {
    if HasTransport(s.lifecycle) then Fail(s).(stack := s.stack + [Closing(s.lifecycle.id)]) else Fail(s)
  }

  function ConnectStep(s: State): State {
    if s.disposed || !s.lifecycle.Disconnected? then s
    else
      var id := s.sequence + 1;
      s.(sequence := id, lifecycle := Connecting(id, false), promises := s.promises[id := []],
         notes := s.notes + [NoteConnecting(id)])
  }

  /** A promise of the transport factory for this connection is still open. */
  predicate AwaitsFactory(s: State, id: ConnectionId) {
    id in s.promises && id !in s.factories && s.stack == []
  }

  function TransportOpenedStep(s: State, id: ConnectionId): State {
    if !AwaitsFactory(s, id) then s
    else
      var settled := s.(factories := s.factories + {id}, transports := s.transports + {id});
      if s.lifecycle.Connecting? && s.lifecycle.id == id then settled.(lifecycle := Connecting(id, true))
      else settled.(closed := s.closed + {id})
  }

  function FactoryFailedStep(s: State, id: ConnectionId): State {
    if !AwaitsFactory(s, id) then s
    else
      var settled := s.(factories := s.factories + {id});
      if IsCurrent(s.lifecycle, id) then Fail(settled) else settled
  }

  function DataStep(s: State, id: ConnectionId, decoded: Option<seq<Message>>): State {
    if !IsCurrent(s.lifecycle, id) then s
    else if !HasTransport(s.lifecycle) || decoded.None? then FailAndClose(s)
    else s.(stack := s.stack + [Delivering(id, decoded.value)])
  }

  function TransportClosedStep(s: State, id: ConnectionId): State {
    var gone := if id in s.transports then s.(closed := s.closed + {id}) else s;
    if IsCurrent(s.lifecycle, id) then Fail(gone) else gone
  }

  /** The client's part of a response: settles the request it answers. */
  function ResponseStep(s: State, request: RequestId, ok: bool, matching: bool): State {
    if request !in s.pending then FailAndClose(s)
    else
      var taken := s.(pending := s.pending - {request});
      if !ok then taken.(requests := SettleRequest(s.requests, request, Rejected))
      else if !matching then FailAndClose(taken.(requests := SettleRequest(s.requests, request, Rejected)))
      else taken.(requests := SettleRequest(s.requests, request, Resolved))
  }

  /** `handleMessage` up to the first user code. */
  function MessageStep(s: State, message: Message): State {
    match s.lifecycle
    case Disconnected => s
    case Connecting(id, transport) =>
      if !message.Hello? || !transport then FailAndClose(s)
      else s.(lifecycle := Connected(id, Greeting), stack := s.stack + [Welcoming(id, false)])
    case Connected(_, _) =>
      match message {
        case Response(request, ok, matching) => ResponseStep(s, request, ok, matching)
        case ServerEvent => s
        case _ => FailAndClose(s)
      }
  }

  /** The lifecycle is still the object that handleMessage put there when the hello came. */
  predicate StillWelcoming(lifecycle: Lifecycle, id: ConnectionId) {
    lifecycle.Connected? && lifecycle.id == id && !lifecycle.welcome.Established?
  }

  /** User code returns to, or `threw` into, the call on top of the stack. */
  function AdvanceStep(s: State, threw: bool): State {
    if s.stack == [] then s
    else
      var top, below := s.stack[|s.stack| - 1], s.stack[..|s.stack| - 1];
      match top
      case Delivering(id, messages) =>
        if messages == [] || s.lifecycle.Disconnected? then s.(stack := below)
        else MessageStep(s.(stack := below + [Delivering(id, messages[1..])]), messages[0])
      case Welcoming(id, announced) =>
        var returned := s.(stack := below);
        if !StillWelcoming(s.lifecycle, id) then returned
        else if announced then
          returned.(lifecycle := Connected(id, Established), promises := Settle(s.promises, id, Resolved))
        else if threw then FailAndClose(returned)
        else s.(lifecycle := Connected(id, Announcing), notes := s.notes + [NoteConnected(id)],
                stack := below + [Welcoming(id, true)])
      case Closing(id) => s.(stack := below, closed := s.closed + {id})
  }

  function IssueRequestStep(s: State, encodable: bool, sendThrows: bool): State {
    if s.disposed || !s.lifecycle.Connected? then s
    else
      var request := s.requestSequence + 1;
      var issued := s.(requestSequence := request,
                       requests := s.requests[request := Request(s.lifecycle.id, if encodable then [] else [Rejected])],
                       pending := if encodable then s.pending + {request} else s.pending);
      if encodable && sendThrows then FailAndClose(issued) else issued
  }

  function DisposeStep(s: State): State {
    if s.disposed then s
    else FailAndClose(s.(disposed := true, requests := RejectAll(s.requests, s.pending), pending := {}))
  }

  function Step(s: State, event: Event): State {
    match event
    case Connect => ConnectStep(s)
    case Disconnect => FailAndClose(s)
    case TransportOpened(id) => TransportOpenedStep(s, id)
    case FactoryFailed(id) => FactoryFailedStep(s, id)
    case HelloSendFailed(id) => if s.stack == [] && IsCurrent(s.lifecycle, id) then FailAndClose(s) else s
    case Data(id, decoded) => DataStep(s, id, decoded)
    case TransportClosed(id) => TransportClosedStep(s, id)
    case TransportErrored(id) => if IsCurrent(s.lifecycle, id) then FailAndClose(s) else s
    case SendFailed(id) =>
      if s.stack == [] && IsCurrent(s.lifecycle, id) && HasTransport(s.lifecycle) then FailAndClose(s) else s
    case Advance(threw) => AdvanceStep(s, threw)
    case IssueRequest(encodable, sendThrows) => IssueRequestStep(s, encodable, sendThrows)
    case Dispose => DisposeStep(s)
  }

  function Run(s: State, events: seq<Event>): State
    decreases |events|
  {
    if events == [] then s else Run(Step(s, events[0]), events[1..])
  }

  // ---------- what every step keeps ----------

  /** The calls of onStateChange in their order: connection after connection, each announced as connecting,
      perhaps connected, and disconnected before the next. */
  datatype Watch = Quiet(last: nat) | Ringing(id: ConnectionId) | Up(id: ConnectionId) | Confused

  function Hear(watch: Watch, note: Note): Watch {
    match note
    case NoteConnecting(id) => if watch.Quiet? && id == watch.last + 1 then Ringing(id) else Confused
    case NoteConnected(id) => if watch == Ringing(id) then Up(id) else Confused
    case NoteDisconnected(id) => if watch == Ringing(id) || watch == Up(id) then Quiet(id) else Confused
  }

  /** What the first `n` calls amount to. */
  function HearTo(notes: seq<Note>, n: nat): Watch
    requires n <= |notes|
  {
    if n == 0 then Quiet(0) else Hear(HearTo(notes, n - 1), notes[n - 1])
  }

  function HearAll(notes: seq<Note>): Watch {
    HearTo(notes, |notes|)
  }

  function Heard(lifecycle: Lifecycle, sequence: nat): Watch {
    match lifecycle
    case Disconnected => Quiet(sequence)
    case Connecting(id, _) => Ringing(id)
    case Connected(id, welcome) => if welcome.Greeting? then Ringing(id) else Up(id)
  }

  ghost predicate NotesInv(notes: seq<Note>, lifecycle: Lifecycle, sequence: nat) {
    && HearAll(notes) == Heard(lifecycle, sequence)
    && (!lifecycle.Disconnected? ==> lifecycle.id == sequence > 0)
  }

  /** Every connect promise but that of a pending handshake has settled exactly once. */
  ghost predicate PromisesInv(promises: map<ConnectionId, seq<Outcome>>, lifecycle: Lifecycle, sequence: nat) {
    && (forall id :: id in promises <==> 0 < id <= sequence)
    && (forall id :: id in promises ==>
          |promises[id]| == if HandshakePending(lifecycle) && lifecycle.id == id then 0 else 1)
    && (lifecycle.Connected? && lifecycle.welcome.Established? && lifecycle.id in promises ==>
          promises[lifecycle.id] == [Resolved])
  }

  /** Calls waiting on the stack are of the current connection, or a new one has no transport yet. */
  predicate FrameFits(frame: Frame, lifecycle: Lifecycle) {
    if IsCurrent(lifecycle, frame.id) then
      && HasTransport(lifecycle) && !frame.Closing?
      && (frame.Welcoming? ==>
            lifecycle.Connected? && lifecycle.welcome == if frame.announced then Announcing else Greeting)
    else lifecycle.Disconnected? || (lifecycle.Connecting? && !lifecycle.transport && frame.id < lifecycle.id)
  }

  ghost predicate StackInv(stack: seq<Frame>, lifecycle: Lifecycle, sequence: nat) {
    && (forall i :: 0 <= i < |stack| ==> stack[i].id <= sequence && FrameFits(stack[i], lifecycle))
    && (forall i, j :: 0 <= i < j < |stack| && stack[i].Welcoming? && stack[j].Welcoming? ==> stack[i].id != stack[j].id)
    && (lifecycle.Connected? && !lifecycle.welcome.Established? ==> exists i :: 0 <= i < |stack| && Welcomes(stack[i], lifecycle.id))
  }

  predicate Welcomes(frame: Frame, id: ConnectionId) {
    frame.Welcoming? && frame.id == id
  }

  /** A call that closes the transport waits for the listeners. */
  predicate BeingClosed(stack: seq<Frame>, id: ConnectionId) {
    exists i :: 0 <= i < |stack| && stack[i] == Closing(id)
  }

  /** An open transport is the one of the current connection, or a call is about to close it. */
  ghost predicate TransportsInv(transports: set<ConnectionId>, closed: set<ConnectionId>, factories: set<ConnectionId>,
                                lifecycle: Lifecycle, stack: seq<Frame>)
  {
    && transports <= factories
    && (forall id :: id in transports && id !in closed ==>
                       (IsCurrent(lifecycle, id) && HasTransport(lifecycle)) || BeingClosed(stack, id))
    && (HasTransport(lifecycle) ==> lifecycle.id in transports)
  }

  ghost predicate StillClosing(before: seq<Frame>, after: seq<Frame>) {
    forall id :: BeingClosed(before, id) ==> BeingClosed(after, id)
  }

  lemma PushedStillClosing(stack: seq<Frame>, frame: Frame)
    ensures StillClosing(stack, stack + [frame])
    ensures frame.Closing? ==> BeingClosed(stack + [frame], frame.id)
  {
    var after := stack + [frame];
    assert after[|stack|] == frame;
    forall id | BeingClosed(stack, id) ensures BeingClosed(after, id) {
      var i :| 0 <= i < |stack| && stack[i] == Closing(id);
      assert after[i] == Closing(id);
    }
  }

  lemma PoppedStillClosing(below: seq<Frame>, top: Frame)
    ensures forall id :: BeingClosed(below + [top], id) ==> BeingClosed(below, id) || top == Closing(id)
  {
    var stack := below + [top];
    forall id | BeingClosed(stack, id) ensures BeingClosed(below, id) || top == Closing(id) {
      var i :| 0 <= i < |stack| && stack[i] == Closing(id);
      if i < |below| {
        assert below[i] == Closing(id);
      }
    }
  }

  lemma ReplacedStillClosing(below: seq<Frame>, top: Frame, other: Frame)
    requires !top.Closing?
    ensures StillClosing(below + [top], below) && StillClosing(below + [top], below + [other])
  {
    PoppedStillClosing(below, top);
    PushedStillClosing(below, other);
  }

  /** A pending request is unsettled and of the current connection; any other has settled once. */
  ghost predicate RequestsInv(requests: map<RequestId, Request>, pending: set<RequestId>, requestSequence: nat,
                              lifecycle: Lifecycle)
  {
    && (forall request :: request in requests <==> 0 < request <= requestSequence)
    && (forall request :: request in pending ==>
          request in requests && lifecycle.Connected? && requests[request].connection == lifecycle.id)
    && (forall request :: request in requests ==> |requests[request].outcomes| == if request in pending then 0 else 1)
  }

  ghost predicate Inv(s: State) {
    && NotesInv(s.notes, s.lifecycle, s.sequence)
    && PromisesInv(s.promises, s.lifecycle, s.sequence)
    && StackInv(s.stack, s.lifecycle, s.sequence)
    && TransportsInv(s.transports, s.closed, s.factories, s.lifecycle, s.stack)
    && RequestsInv(s.requests, s.pending, s.requestSequence, s.lifecycle)
  }

  lemma {:induction false} HearAsBefore(notes: seq<Note>, note: Note, n: nat)
    requires n <= |notes|
    ensures HearTo(notes + [note], n) == HearTo(notes, n)
    decreases n
  {
    if n > 0 {
      HearAsBefore(notes, note, n - 1);
    }
  }

  lemma HearOne(notes: seq<Note>, note: Note)
    ensures HearAll(notes + [note]) == Hear(HearAll(notes), note)
  {
    HearAsBefore(notes, note, |notes|);
  }

  lemma FailKeepsRequests(requests: map<RequestId, Request>, pending: set<RequestId>, requestSequence: nat, lifecycle: Lifecycle,
                          after: Lifecycle)
    requires RequestsInv(requests, pending, requestSequence, lifecycle)
    ensures RequestsInv(RejectAll(requests, pending), {}, requestSequence, after)
  {
  }

  /** `fail` on a state whose transport, if it has one, is closed with it. */
  lemma FailKeeps(s: State, closed: set<ConnectionId>)
    requires Inv(s) && s.closed <= closed
    requires HasTransport(s.lifecycle) ==> s.lifecycle.id in closed
    ensures Inv(Fail(s).(closed := closed))
  {
    if !s.lifecycle.Disconnected? {
      HearOne(s.notes, NoteDisconnected(s.lifecycle.id));
      FailKeepsRequests(s.requests, s.pending, s.requestSequence, s.lifecycle, Disconnected);
    }
  }

  lemma FailAndCloseKeeps(s: State)
    requires Inv(s)
    ensures Inv(FailAndClose(s))
  {
    if HasTransport(s.lifecycle) {
      FailWithTransportKeeps(s, s.stack);
    } else {
      FailKeeps(s, s.closed);
    }
  }

  /** The call that fails the connection is the one that closes its transport. */
  lemma FailWithTransportKeeps(s: State, stack: seq<Frame>)
    requires Inv(s) && HasTransport(s.lifecycle) && StackInv(stack, Disconnected, s.sequence) && StillClosing(s.stack, stack)
    ensures Inv(FailAndClose(s.(stack := stack)))
  {
    var closing := Closing(s.lifecycle.id);
    HearOne(s.notes, NoteDisconnected(s.lifecycle.id));
    FailKeepsRequests(s.requests, s.pending, s.requestSequence, s.lifecycle, Disconnected);
    PushedStillClosing(stack, closing);
    ClosingFits(stack, closing, s.sequence);
  }

  lemma ClosingFits(stack: seq<Frame>, closing: Frame, sequence: nat)
    requires StackInv(stack, Disconnected, sequence) && closing.Closing? && closing.id <= sequence
    ensures StackInv(stack + [closing], Disconnected, sequence)
  {
  }

  lemma ConnectKeeps(s: State)
    requires Inv(s)
    ensures Inv(ConnectStep(s))
  {
    if !s.disposed && s.lifecycle.Disconnected? {
      HearOne(s.notes, NoteConnecting(s.sequence + 1));
      ConnectPromises(s.promises, s.sequence);
      ConnectStack(s.stack, s.sequence);
    }
  }

  lemma ConnectPromises(promises: map<ConnectionId, seq<Outcome>>, sequence: nat)
    requires PromisesInv(promises, Disconnected, sequence)
    ensures PromisesInv(promises[sequence + 1 := []], Connecting(sequence + 1, false), sequence + 1)
  {
  }

  lemma ConnectStack(stack: seq<Frame>, sequence: nat)
    requires StackInv(stack, Disconnected, sequence)
    ensures StackInv(stack, Connecting(sequence + 1, false), sequence + 1)
  {
  }

  lemma TransportOpenedKeeps(s: State, id: ConnectionId)
    requires Inv(s)
    ensures Inv(TransportOpenedStep(s, id))
  {
  }

  lemma FactoryFailedKeeps(s: State, id: ConnectionId)
    requires Inv(s)
    ensures Inv(FactoryFailedStep(s, id))
  {
    if AwaitsFactory(s, id) {
      assert !HasTransport(s.lifecycle) || s.lifecycle.id != id;
      if IsCurrent(s.lifecycle, id) {
        FailKeeps(s.(factories := s.factories + {id}), s.closed);
      }
    }
  }

  lemma PushKeeps(stack: seq<Frame>, lifecycle: Lifecycle, sequence: nat, id: ConnectionId, messages: seq<Message>)
    requires StackInv(stack, lifecycle, sequence) && IsCurrent(lifecycle, id) && HasTransport(lifecycle) && id <= sequence
    ensures StackInv(stack + [Delivering(id, messages)], lifecycle, sequence)
  {
    if StillWelcoming(lifecycle, id) {
      var i :| 0 <= i < |stack| && Welcomes(stack[i], id);
      assert Welcomes((stack + [Delivering(id, messages)])[i], id);
    }
  }

  lemma DataKeeps(s: State, id: ConnectionId, decoded: Option<seq<Message>>)
    requires Inv(s)
    ensures Inv(DataStep(s, id, decoded))
  {
    if IsCurrent(s.lifecycle, id) {
      if !HasTransport(s.lifecycle) || decoded.None? {
        FailAndCloseKeeps(s);
      } else {
        PushKeeps(s.stack, s.lifecycle, s.sequence, id, decoded.value);
        PushedStillClosing(s.stack, Delivering(id, decoded.value));
      }
    }
  }

  lemma TransportClosedKeeps(s: State, id: ConnectionId)
    requires Inv(s)
    ensures Inv(TransportClosedStep(s, id))
  {
    if IsCurrent(s.lifecycle, id) {
      FailKeeps(s, if id in s.transports then s.closed + {id} else s.closed);
    }
  }

  lemma ResponseKeeps(s: State, request: RequestId, ok: bool, matching: bool)
    requires Inv(s) && s.lifecycle.Connected?
    ensures Inv(ResponseStep(s, request, ok, matching))
  {
    if request !in s.pending {
      FailAndCloseKeeps(s);
    } else if ok && !matching {
      FailAndCloseKeeps(s.(pending := s.pending - {request}, requests := SettleRequest(s.requests, request, Rejected)));
    }
  }

  /** The loop of handleData moves on to its next message. */
  lemma NextKeeps(below: seq<Frame>, id: ConnectionId, messages: seq<Message>, rest: seq<Message>, lifecycle: Lifecycle, sequence: nat)
    requires StackInv(below + [Delivering(id, messages)], lifecycle, sequence)
    ensures StackInv(below + [Delivering(id, rest)], lifecycle, sequence)
    ensures StackInv(below, lifecycle, sequence)
  {
    var stack, after := below + [Delivering(id, messages)], below + [Delivering(id, rest)];
    assert forall i :: 0 <= i < |below| ==> below[i] == stack[i] == after[i];
    assert stack[|below|].id == after[|below|].id;
    if lifecycle.Connected? && !lifecycle.welcome.Established? {
      var i :| 0 <= i < |stack| && Welcomes(stack[i], lifecycle.id);
      assert Welcomes(below[i], lifecycle.id) && Welcomes(after[i], lifecycle.id);
    }
  }

  lemma HelloKeeps(stack: seq<Frame>, id: ConnectionId, sequence: nat)
    requires StackInv(stack, Connecting(id, true), sequence) && id <= sequence
    ensures StackInv(stack + [Welcoming(id, false)], Connected(id, Greeting), sequence)
  {
    var after := stack + [Welcoming(id, false)];
    assert Welcomes(after[|stack|], id);
  }

  lemma MessageKeeps(s: State, message: Message)
    requires Inv(s)
    ensures Inv(MessageStep(s, message))
  {
    match s.lifecycle {
      case Disconnected =>
      case Connecting(id, transport) =>
        if !message.Hello? || !transport {
          FailAndCloseKeeps(s);
        } else {
          HelloKeeps(s.stack, id, s.sequence);
          PushedStillClosing(s.stack, Welcoming(id, false));
        }
      case Connected(_, _) =>
        match message {
          case Response(request, ok, matching) => ResponseKeeps(s, request, ok, matching);
          case ServerEvent =>
          case _ => FailAndCloseKeeps(s);
        }
    }
  }

  /** The call that welcomed the connection returns or goes on to its second callback. */
  lemma WelcomeKeeps(below: seq<Frame>, id: ConnectionId, announced: bool, lifecycle: Lifecycle, sequence: nat)
    requires StackInv(below + [Welcoming(id, announced)], lifecycle, sequence)
    ensures !StillWelcoming(lifecycle, id) ==> StackInv(below, lifecycle, sequence)
    ensures StillWelcoming(lifecycle, id) ==>
              && StackInv(below, Connected(id, Established), sequence)
              && StackInv(below, Disconnected, sequence)
              && StackInv(below + [Welcoming(id, true)], Connected(id, Announcing), sequence)
  {
    var stack := below + [Welcoming(id, announced)];
    assert stack[|below|] == Welcoming(id, announced);
    assert forall i :: 0 <= i < |below| ==> below[i] == stack[i];
    if StillWelcoming(lifecycle, id) {
      var after := below + [Welcoming(id, true)];
      assert Welcomes(after[|below|], id);
    }
  }

  lemma WelcomeMoves(s: State, stack: seq<Frame>, welcome: Welcome)
    requires Inv(s) && HandshakePending(s.lifecycle) && s.lifecycle.Connected?
    requires StackInv(stack, Connected(s.lifecycle.id, welcome), s.sequence) && StillClosing(s.stack, stack)
    requires if s.lifecycle.welcome.Greeting? then welcome.Announcing? else welcome.Established?
    ensures Inv(s.(lifecycle := Connected(s.lifecycle.id, welcome), stack := stack,
                   notes := if welcome.Announcing? then s.notes + [NoteConnected(s.lifecycle.id)] else s.notes,
                   promises := if welcome.Established? then Settle(s.promises, s.lifecycle.id, Resolved) else s.promises))
  {
    HearOne(s.notes, NoteConnected(s.lifecycle.id));
  }

  lemma WelcomingAdvances(s: State, threw: bool)
    requires Inv(s) && s.stack != [] && s.stack[|s.stack| - 1].Welcoming?
    ensures Inv(AdvanceStep(s, threw))
  {
    var top, below := s.stack[|s.stack| - 1], s.stack[..|s.stack| - 1];
    assert s.stack == below + [top];
    assert FrameFits(s.stack[|s.stack| - 1], s.lifecycle);
    WelcomeKeeps(below, top.id, top.announced, s.lifecycle, s.sequence);
    ReplacedStillClosing(below, top, Welcoming(top.id, true));
    if StillWelcoming(s.lifecycle, top.id) {
      if top.announced {
        WelcomeMoves(s, below, Established);
      } else if threw {
        FailWithTransportKeeps(s, below);
      } else {
        WelcomeMoves(s, below + [Welcoming(top.id, true)], Announcing);
      }
    }
  }

  lemma AdvanceKeeps(s: State, threw: bool)
    requires Inv(s)
    ensures Inv(AdvanceStep(s, threw))
  {
    if s.stack != [] {
      var top, below := s.stack[|s.stack| - 1], s.stack[..|s.stack| - 1];
      assert s.stack == below + [top];
      match top {
        case Delivering(id, messages) =>
          var rest := if messages == [] then [] else messages[1..];
          NextKeeps(below, id, messages, rest, s.lifecycle, s.sequence);
          ReplacedStillClosing(below, top, Delivering(id, rest));
          if messages != [] {
            MessageKeeps(s.(stack := below + [Delivering(id, rest)]), messages[0]);
          }
        case Welcoming(_, _) => WelcomingAdvances(s, threw);
        case Closing(_) =>
          PoppedStillClosing(below, top);
          ClosedKeeps(below, top, s.lifecycle, s.sequence);
      }
    }
  }

  lemma ClosedKeeps(below: seq<Frame>, closing: Frame, lifecycle: Lifecycle, sequence: nat)
    requires StackInv(below + [closing], lifecycle, sequence) && closing.Closing?
    ensures StackInv(below, lifecycle, sequence)
  {
    var stack := below + [closing];
    assert stack[|below|] == closing;
    assert forall i :: 0 <= i < |below| ==> below[i] == stack[i];
  }

  lemma IssueRequestKeeps(s: State, encodable: bool, sendThrows: bool)
    requires Inv(s)
    ensures Inv(IssueRequestStep(s, encodable, sendThrows))
  {
    if !s.disposed && s.lifecycle.Connected? {
      var issued := IssueRequestStep(s, encodable, false);
      assert RequestsInv(issued.requests, issued.pending, issued.requestSequence, s.lifecycle);
      if encodable && sendThrows {
        FailAndCloseKeeps(issued);
      }
    }
  }

  lemma DisposeKeeps(s: State)
    requires Inv(s)
    ensures Inv(DisposeStep(s))
  {
    if !s.disposed {
      FailKeepsRequests(s.requests, s.pending, s.requestSequence, s.lifecycle, s.lifecycle);
      FailAndCloseKeeps(s.(disposed := true, requests := RejectAll(s.requests, s.pending), pending := {}));
    }
  }

  lemma StepKeepsInv(s: State, event: Event)
    requires Inv(s)
    ensures Inv(Step(s, event))
  {
    FailAndCloseKeeps(s);
    match event {
      case Connect => ConnectKeeps(s);
      case TransportOpened(id) => TransportOpenedKeeps(s, id);
      case FactoryFailed(id) => FactoryFailedKeeps(s, id);
      case Data(id, decoded) => DataKeeps(s, id, decoded);
      case TransportClosed(id) => TransportClosedKeeps(s, id);
      case Advance(threw) => AdvanceKeeps(s, threw);
      case IssueRequest(encodable, sendThrows) => IssueRequestKeeps(s, encodable, sendThrows);
      case Dispose => DisposeKeeps(s);
      case _ =>
    }
  }

  lemma {:induction false} RunKeepsInv(s: State, events: seq<Event>)
    requires Inv(s)
    ensures Inv(Run(s, events))
    decreases |events|
  {
    if events != [] {
      StepKeepsInv(s, events[0]);
      RunKeepsInv(Step(s, events[0]), events[1..]);
    }
  }
}
