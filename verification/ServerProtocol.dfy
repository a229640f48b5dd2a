/**
 The connections of a server from accept to close, and the publication of server snapshots
 (packages/server/src/server.ts and snapshots.ts), as a state machine. A step is one stretch of code
 between two awaits; data, timeouts, transport events, commands and closing come in any order.
 */
module ServerProtocol {
  import opened Prelude

  type ConnectionId = nat

  datatype Stage = AwaitingHello | Handshaking | Ready | Closing | Closed

  /** How far finishHandshake has come; `revision` is that of the snapshot it asked for. */
  datatype Handshake =
    | NotAsked
    | Fetching(revision: nat)
    | Sending(revision: nat)
    | Delivered(revision: nat)
    | Dropped

  /** What a connection is sent, with the moment the send of the hello completes. */
  datatype Frame =
    | HelloFrame(revision: nat)
    | HelloCompleted
    | ErrorFrame
    | ResponseFrame
    | EventFrame(snapshot: Option<nat>)  // Some for a server snapshot

  /** `gone` is the transport's own closed flag; `attached` says that a session lists the connection;
      `deferred` and `running` count requests before and in handleRequest; `catchUp` is the snapshot
      that finishHandshake fetches after a change during the handshake. */
  datatype Connection = Connection(
    stage: Stage,
    disconnected: bool,
    gone: bool,
    handshake: Handshake,
    catchUp: Option<nat>,
    deferred: nat,
    running: nat,
    attached: bool,
    frames: seq<Frame>)

  const ACCEPTED := Connection(AwaitingHello, false, false, NotAsked, None, 0, 0, false, [])

  datatype Broadcast = Broadcast(revision: nat, remaining: set<ConnectionId>)

  /** `table` is the server's set of connections. */
  datatype State = State(
    connections: map<ConnectionId, Connection>,
    table: set<ConnectionId>,
    closing: bool,
    revision: nat,
    broadcast: Option<Broadcast>)

  const INITIAL := State(map[], {}, false, 0, None)

  datatype Message = Hello(supported: bool) | Request | Malformed

  datatype Event =
    | Accept(connection: ConnectionId)
    | Receive(connection: ConnectionId, message: Message)
    | SnapshotFetched(connection: ConnectionId, ok: bool)
    | HelloSettled(connection: ConnectionId, ok: bool)
    | CatchUpFetched(connection: ConnectionId, ok: bool)
    | RunDeferred(connection: ConnectionId)
    | Attach(connection: ConnectionId)
    | RequestDone(connection: ConnectionId)
    | SessionEvent(connection: ConnectionId)
    | HandshakeTimeout(connection: ConnectionId)
    | TransportGone(connection: ConnectionId)
    | Disconnect(connection: ConnectionId)
    | PerformBroadcast
    | BroadcastSend(connection: ConnectionId)
    | BroadcastFailed
    | BeginClosing
    | CloseServerState

  // ---------- steps of one connection ----------

  predicate Terminal(c: Connection) {
    c.disconnected || c.stage.Closing? || c.stage.Closed?
  }

  /** `sendMessage` up to the send. */
  function Send(c: Connection, frame: Frame): Connection {
    if c.disconnected || c.gone then c else c.(frames := c.frames + [frame])
  }

  function FailProtocol(c: Connection): Connection {
    if Terminal(c) then c else c.(stage := Closing, frames := c.frames + [ErrorFrame])
  }

  /** `receive` and `dispatchMessage`; a hello starts finishHandshake. */
  function Received(c: Connection, message: Message, revision: nat): Connection {
    if Terminal(c) then c
    else if message.Malformed? then FailProtocol(c)
    else if c.stage.AwaitingHello? then
      if !message.Hello? then FailProtocol(c)
      else if !message.supported then FailProtocol(c.(stage := Handshaking, handshake := Dropped))
      else c.(stage := Handshaking, handshake := Fetching(revision))
    else if message.Hello? then FailProtocol(c)
    else if c.stage.Ready? then c.(running := c.running + 1)
    else c.(deferred := c.deferred + 1)
  }

  function AfterFetch(c: Connection, ok: bool, closing: bool): Connection {
    if !c.handshake.Fetching? then c
    else if !ok then FailProtocol(c.(handshake := Dropped))
    else if closing || c.disconnected || !c.stage.Handshaking? || c.gone then c.(handshake := Dropped)
    else c.(handshake := Sending(c.handshake.revision), frames := c.frames + [HelloFrame(c.handshake.revision)])
  }

  function AfterHello(c: Connection, ok: bool, revision: nat): Connection {
    if !c.handshake.Sending? then c
    else if !ok then c.(handshake := Dropped)
    else
      var delivered := c.(handshake := Delivered(c.handshake.revision), frames := c.frames + [HelloCompleted]);
      if c.disconnected || !c.stage.Handshaking? then delivered
      else delivered.(stage := Ready, catchUp := if c.handshake.revision != revision then Some(revision) else None)
  }

  function AfterCatchUp(c: Connection, ok: bool): Connection {
    if c.catchUp.None? then c
    else if ok then Send(c.(catchUp := None), EventFrame(c.catchUp))
    else FailProtocol(c.(catchUp := None))
  }

  /** The handshake promise has settled, so a request that waited for it runs or is forgotten. */
  function AfterHandshake(c: Connection): Connection {
    if c.deferred == 0 || c.handshake.Fetching? || c.handshake.Sending? || c.catchUp.Some? then c
    else c.(deferred := c.deferred - 1,
            running := if c.stage.Ready? && !c.disconnected then c.running + 1 else c.running)
  }

  function Attached(c: Connection): Connection {
    if c.running > 0 && !c.disconnected && c.stage.Ready? && !c.gone then c.(attached := true) else c
  }

  function Disconnected(c: Connection): Connection {
    if c.disconnected then c else c.(disconnected := true, stage := Closed, attached := false)
  }

  /** The step that an event takes on its connection. */
  function OnConnection(c: Connection, event: Event, closing: bool, revision: nat): Connection {
    match event
    case Receive(_, message) => Received(c, message, revision)
    case SnapshotFetched(_, ok) => AfterFetch(c, ok, closing)
    case HelloSettled(_, ok) => AfterHello(c, ok, revision)
    case CatchUpFetched(_, ok) => AfterCatchUp(c, ok)
    case RunDeferred(_) => AfterHandshake(c)
    case Attach(_) => Attached(c)
    case RequestDone(_) => if c.running > 0 then Send(c.(running := c.running - 1), ResponseFrame) else c
    case SessionEvent(_) => if c.attached then Send(c, EventFrame(None)) else c
    case HandshakeTimeout(_) => if c.stage.Ready? then c else FailProtocol(c)
    case TransportGone(_) => c.(gone := true)
    case Disconnect(_) => Disconnected(c)
    case _ => c
  }

  // ---------- steps of the server ----------

  function ReadyConnections(s: State): set<ConnectionId> {
    set id | id in s.table && id in s.connections && s.connections[id].stage.Ready? && !s.connections[id].disconnected
  }

  /** `performBroadcast` up to its first await. */
  function PerformBroadcastStep(s: State): State {
    if s.broadcast.Some? || s.closing || ReadyConnections(s) == {} then s
    else s.(revision := s.revision + 1, broadcast := Some(Broadcast(s.revision + 1, ReadyConnections(s))))
  }

  function BroadcastSendStep(s: State, id: ConnectionId): State {
    if s.broadcast.None? || id !in s.broadcast.value.remaining || id !in s.connections then s
    else
      var current := s.broadcast.value;
      var remaining := current.remaining - {id};
      s.(connections := s.connections[id := Send(s.connections[id], EventFrame(Some(current.revision)))],
         broadcast := if remaining == {} then None else Some(current.(remaining := remaining)))
  }

  function CloseAll(connections: map<ConnectionId, Connection>, table: set<ConnectionId>): map<ConnectionId, Connection> {
    map id | id in connections ::
      if id in table then connections[id].(stage := Closing) else connections[id]
  }

  function ConnectionStep(s: State, id: ConnectionId, event: Event): State {
    if id !in s.connections then s
    else s.(connections := s.connections[id := OnConnection(s.connections[id], event, s.closing, s.revision)],
            table := if event.Disconnect? then s.table - {id} else s.table)
  }

  function Step(s: State, event: Event): State {
    match event
    case Accept(id) =>
      if s.closing || id in s.connections then s
      else s.(connections := s.connections[id := ACCEPTED], table := s.table + {id})
    case PerformBroadcast => PerformBroadcastStep(s)
    case BroadcastSend(id) => BroadcastSendStep(s, id)
    case BroadcastFailed => s.(broadcast := None)
    case BeginClosing => s.(closing := true)
    case CloseServerState => if s.closing then s.(connections := CloseAll(s.connections, s.table)) else s
    case _ => ConnectionStep(s, event.connection, event)
  }

  function Run(s: State, events: seq<Event>): State
    decreases |events|
  {
    if events == [] then s else Run(Step(s, events[0]), events[1..])
  }

  // ---------- what every step keeps ----------

  /** What a client sees: perhaps a hello, and nothing else but an error before its send completed. */
  datatype Talk = Silent | Greeted | Open | Garbled

  function Listen(talk: Talk, frame: Frame): Talk {
    match frame
    case HelloFrame(_) => if talk.Silent? then Greeted else Garbled
    case HelloCompleted => if talk.Greeted? then Open else Garbled
    case ErrorFrame => talk
    case ResponseFrame => if talk.Open? then Open else Garbled
    case EventFrame(_) => if talk.Open? then Open else Garbled
  }

  /** What the first `n` frames amount to. */
  function ListenTo(frames: seq<Frame>, n: nat): Talk
    requires n <= |frames|
  {
    if n == 0 then Silent else Listen(ListenTo(frames, n - 1), frames[n - 1])
  }

  function ListenAll(frames: seq<Frame>): Talk {
    ListenTo(frames, |frames|)
  }

  predicate TalkFits(handshake: Handshake, talk: Talk) {
    match handshake
    case NotAsked => talk == Silent
    case Fetching(_) => talk == Silent
    case Sending(_) => talk == Greeted
    case Delivered(_) => talk == Open
    case Dropped => talk != Garbled
  }

  /** Only a connection whose hello was delivered can be sent more. */
  predicate FlagsFit(c: Connection) {
    && (c.disconnected <==> c.stage.Closed?)
    && (c.stage.AwaitingHello? ==> c.handshake.NotAsked?)
    && (c.stage.Handshaking? ==> !c.handshake.NotAsked?)
    && (c.stage.Ready? || c.running > 0 || c.attached || c.catchUp.Some? ==> c.handshake.Delivered?)
  }

  predicate ConnectionInv(c: Connection) {
    FlagsFit(c) && TalkFits(c.handshake, ListenAll(c.frames))
  }

  ghost predicate Inv(s: State) {
    && (forall id :: id in s.connections ==> ConnectionInv(s.connections[id]) && (id in s.table <==> !s.connections[id].disconnected))
    && (forall id :: id in s.table ==> id in s.connections)
    && (s.broadcast.Some? ==>
          && s.broadcast.value.revision == s.revision
          && forall id :: id in s.broadcast.value.remaining ==> id in s.connections && s.connections[id].handshake.Delivered?)
  }

  lemma {:induction false} ListenAsBefore(frames: seq<Frame>, frame: Frame, n: nat)
    requires n <= |frames|
    ensures ListenTo(frames + [frame], n) == ListenTo(frames, n)
    decreases n
  {
    if n > 0 {
      ListenAsBefore(frames, frame, n - 1);
    }
  }

  lemma ListenOne(frames: seq<Frame>, frame: Frame)
    ensures ListenAll(frames + [frame]) == Listen(ListenAll(frames), frame)
    ensures Extends(frames, frames + [frame])
  {
    ListenAsBefore(frames, frame, |frames|);
  }

  function Rank(stage: Stage): nat {
    match stage
    case AwaitingHello => 0
    case Handshaking => 1
    case Ready => 2
    case Closing => 3
    case Closed => 4
  }

  predicate Extends(before: seq<Frame>, after: seq<Frame>) {
    |before| <= |after| && before == after[..|before|]
  }

  /** How a connection may change: forward, with its frames kept. */
  predicate MovesOn(before: Connection, after: Connection) {
    && Rank(before.stage) <= Rank(after.stage)
    && Extends(before.frames, after.frames)
    && (before.handshake.Delivered? ==> after.handshake == before.handshake)
    && (before.disconnected ==> after.disconnected)
  }

  lemma SendKeeps(c: Connection, frame: Frame)
    requires ConnectionInv(c) && c.handshake.Delivered? && (frame.ResponseFrame? || frame.EventFrame?)
    ensures ConnectionInv(Send(c, frame)) && MovesOn(c, Send(c, frame)) && (Send(c, frame).disconnected <==> c.disconnected)
  {
    ListenOne(c.frames, frame);
  }

  lemma FailProtocolKeeps(c: Connection)
    requires ConnectionInv(c)
    ensures ConnectionInv(FailProtocol(c)) && MovesOn(c, FailProtocol(c)) && (FailProtocol(c).disconnected <==> c.disconnected)
  {
    ListenOne(c.frames, ErrorFrame);
  }

  lemma ReceivedKeeps(c: Connection, message: Message, revision: nat)
    requires ConnectionInv(c)
    ensures var after := Received(c, message, revision);
            ConnectionInv(after) && MovesOn(c, after) && (after.disconnected <==> c.disconnected)
  {
    FailProtocolKeeps(c);
    if c.stage.AwaitingHello? {
      FailProtocolKeeps(c.(stage := Handshaking, handshake := Dropped));
    }
  }

  lemma AfterFetchKeeps(c: Connection, ok: bool, closing: bool)
    requires ConnectionInv(c)
    ensures var after := AfterFetch(c, ok, closing);
            ConnectionInv(after) && MovesOn(c, after) && (after.disconnected <==> c.disconnected)
  {
    if c.handshake.Fetching? {
      FailProtocolKeeps(c.(handshake := Dropped));
      ListenOne(c.frames, HelloFrame(c.handshake.revision));
    }
  }

  lemma AfterHelloKeeps(c: Connection, ok: bool, revision: nat)
    requires ConnectionInv(c)
    ensures var after := AfterHello(c, ok, revision);
            ConnectionInv(after) && MovesOn(c, after) && (after.disconnected <==> c.disconnected)
  {
    ListenOne(c.frames, HelloCompleted);
  }

  lemma AfterCatchUpKeeps(c: Connection, ok: bool)
    requires ConnectionInv(c)
    ensures var after := AfterCatchUp(c, ok);
            ConnectionInv(after) && MovesOn(c, after) && (after.disconnected <==> c.disconnected)
  {
    if c.catchUp.Some? {
      SendKeeps(c.(catchUp := None), EventFrame(c.catchUp));
      FailProtocolKeeps(c.(catchUp := None));
    }
  }

  lemma OnConnectionKeeps(c: Connection, event: Event, closing: bool, revision: nat)
    requires ConnectionInv(c)
    ensures var after := OnConnection(c, event, closing, revision);
            && ConnectionInv(after) && MovesOn(c, after)
            && (after.disconnected <==> c.disconnected || event.Disconnect?)
  {
    match event {
      case Receive(_, message) => ReceivedKeeps(c, message, revision);
      case SnapshotFetched(_, ok) => AfterFetchKeeps(c, ok, closing);
      case HelloSettled(_, ok) => AfterHelloKeeps(c, ok, revision);
      case CatchUpFetched(_, ok) => AfterCatchUpKeeps(c, ok);
      case RequestDone(_) =>
        if c.running > 0 {
          SendKeeps(c.(running := c.running - 1), ResponseFrame);
        }
      case SessionEvent(_) =>
        if c.attached {
          SendKeeps(c, EventFrame(None));
        }
      case HandshakeTimeout(_) => FailProtocolKeeps(c);
      case _ =>
    }
  }

  /** Changing one connection keeps the invariant of the server. */
  lemma PutKeeps(s: State, id: ConnectionId, c: Connection, leaves: bool)
    requires Inv(s) && id in s.connections && ConnectionInv(c) && MovesOn(s.connections[id], c)
    requires c.disconnected <==> s.connections[id].disconnected || leaves
    ensures Inv(s.(connections := s.connections[id := c], table := if leaves then s.table - {id} else s.table))
  {
  }

  lemma StepKeepsInv(s: State, event: Event)
    requires Inv(s)
    ensures Inv(Step(s, event))
  {
    match event {
      case Accept(_) =>
      case PerformBroadcast =>
      case BroadcastSend(id) =>
        if s.broadcast.Some? && id in s.broadcast.value.remaining {
          var frame := EventFrame(Some(s.broadcast.value.revision));
          SendKeeps(s.connections[id], frame);
          PutKeeps(s, id, Send(s.connections[id], frame), false);
        }
      case BroadcastFailed =>
      case BeginClosing =>
      case CloseServerState =>
      case _ => ConnectionStepKeepsInv(s, event.connection, event);
    }
  }

  lemma ConnectionStepKeepsInv(s: State, id: ConnectionId, event: Event)
    requires Inv(s)
    ensures Inv(ConnectionStep(s, id, event))
  {
    if id in s.connections {
      OnConnectionKeeps(s.connections[id], event, s.closing, s.revision);
      PutKeeps(s, id, OnConnection(s.connections[id], event, s.closing, s.revision), event.Disconnect?);
    }
  }

  lemma {:induction false} RunKeepsInv(s: State, events: seq<Event>)
    requires Inv(s)
    ensures Inv(Run(s, events))
    decreases |events|
  {
    if events != [] {
      StepKeepsInv(s, events[0]);
      RunKeepsInv(Step(s, events[0]), events[1..]);
    }
  }

  // ---------- stages, and the order of frames ----------

  lemma CloseMovesOn(s: State, id: ConnectionId)
    requires Inv(s) && id in s.connections
    ensures MovesOn(s.connections[id], CloseAll(s.connections, s.table)[id])
  {
  }

  lemma BroadcastMovesOn(s: State, to: ConnectionId, id: ConnectionId)
    requires Inv(s) && id in s.connections
    ensures id in BroadcastSendStep(s, to).connections
    ensures MovesOn(s.connections[id], BroadcastSendStep(s, to).connections[id])
  {
    if s.broadcast.Some? && to in s.broadcast.value.remaining {
      SendKeeps(s.connections[to], EventFrame(Some(s.broadcast.value.revision)));
    }
  }

  lemma StepMovesOn(s: State, event: Event, id: ConnectionId)
    requires Inv(s) && id in s.connections
    ensures id in Step(s, event).connections && MovesOn(s.connections[id], Step(s, event).connections[id])
  {
    match event {
      case Accept(_) =>
      case PerformBroadcast =>
      case BroadcastSend(to) => BroadcastMovesOn(s, to, id);
      case BroadcastFailed =>
      case BeginClosing =>
      case CloseServerState => CloseMovesOn(s, id);
      case _ => ConnectionStepMovesOn(s, event.connection, event, id);
    }
  }

  lemma ConnectionStepMovesOn(s: State, on: ConnectionId, event: Event, id: ConnectionId)
    requires Inv(s) && id in s.connections
    ensures id in ConnectionStep(s, on, event).connections
    ensures MovesOn(s.connections[id], ConnectionStep(s, on, event).connections[id])
  {
    OnConnectionKeeps(s.connections[id], event, s.closing, s.revision);
  }

  /** The stage of a connection only moves forward, and nothing sent is taken back. */
  lemma {:induction false} StageMovesForward(s: State, events: seq<Event>, id: ConnectionId)
    requires Inv(s) && id in s.connections
    ensures var t := Run(s, events);
            && id in t.connections
            && Rank(s.connections[id].stage) <= Rank(t.connections[id].stage)
            && Extends(s.connections[id].frames, t.connections[id].frames)
    decreases |events|
  {
    if events != [] {
      StepKeepsInv(s, events[0]);
      StepMovesOn(s, events[0], id);
      StageMovesForward(Step(s, events[0]), events[1..], id);
    }
  }

  lemma {:induction false} NeverGarbledBefore(frames: seq<Frame>, n: nat, k: nat)
    requires n <= |frames| && ListenTo(frames, n) != Garbled && k < n
    ensures ListenTo(frames, k) != Garbled && Listen(ListenTo(frames, k), frames[k]) != Garbled
    decreases n
  {
    if k < n - 1 {
      NeverGarbledBefore(frames, n - 1, k);
    }
  }

  /** Greeted and open talks have heard a hello, open ones also its completion. */
  lemma {:induction false} HeardSomewhere(frames: seq<Frame>, n: nat) returns (hello: nat, completed: nat)
    requires n <= |frames| && (ListenTo(frames, n) == Greeted || ListenTo(frames, n) == Open)
    ensures hello < n && frames[hello].HelloFrame?
    ensures ListenTo(frames, n) == Open ==> hello < completed < n && frames[completed].HelloCompleted?
    decreases n
  {
    if ListenTo(frames, n - 1) == Greeted || ListenTo(frames, n - 1) == Open {
      hello, completed := HeardSomewhere(frames, n - 1);
      if frames[n - 1].HelloCompleted? {
        completed := n - 1;
      }
    } else {
      hello, completed := n - 1, 0;
    }
  }

  /** Hello comes before everything: each connection is sent at most one hello, and each response and
      event only after the send of the hello completed. */
  lemma HelloBeforeEverything(events: seq<Event>, id: ConnectionId, k: nat)
    requires id in Run(INITIAL, events).connections && k < |Run(INITIAL, events).connections[id].frames|
    ensures var frames := Run(INITIAL, events).connections[id].frames;
            && (frames[k].HelloFrame? ==> forall i :: 0 <= i < k ==> !frames[i].HelloFrame?)
            && (frames[k].ResponseFrame? || frames[k].EventFrame? ==>
                  exists i, j :: 0 <= i < j < k && frames[i].HelloFrame? && frames[j].HelloCompleted?)
  {
    RunKeepsInv(INITIAL, events);
    var frames := Run(INITIAL, events).connections[id].frames;
    assert ConnectionInv(Run(INITIAL, events).connections[id]);
    NeverGarbledBefore(frames, |frames|, k);
    if frames[k].ResponseFrame? || frames[k].EventFrame? {
      var i, j := HeardSomewhere(frames, k);
      assert frames[i].HelloFrame? && frames[j].HelloCompleted?;
    }
    if frames[k].HelloFrame? {
      forall i | 0 <= i < k ensures !frames[i].HelloFrame? {
        SilentHasNoHello(frames, k, i);
      }
    }
  }

  lemma {:induction false} SilentHasNoHello(frames: seq<Frame>, n: nat, i: nat)
    requires n <= |frames| && ListenTo(frames, n) == Silent && i < n
    ensures !frames[i].HelloFrame?
    decreases n
  {
    if i < n - 1 {
      SilentHasNoHello(frames, n - 1, i);
    }
  }

  // ---------- snapshots ----------

  /** A hello or a snapshot event of the revision was sent. */
  predicate Mentions(frames: seq<Frame>, revision: nat) {
    exists i :: 0 <= i < |frames| && Carries(frames[i], revision)
  }

  predicate Carries(frame: Frame, revision: nat) {
    frame == HelloFrame(revision) || frame == EventFrame(Some(revision))
  }

  /** A ready connection that can be written to has the newest snapshot, or it is on its way. */
  predicate Informed(c: Connection, id: ConnectionId, revision: nat, broadcast: Option<Broadcast>) {
    c.stage.Ready? && !c.gone ==>
      || Mentions(c.frames, revision)
      || c.catchUp == Some(revision)
      || (broadcast.Some? && id in broadcast.value.remaining && broadcast.value.revision == revision)
  }

  /** The hello that was or will be sent carries the revision the handshake remembers. */
  predicate HelloCarries(c: Connection) {
    (c.handshake.Sending? || c.handshake.Delivered?) ==> Mentions(c.frames, c.handshake.revision)
  }

  ghost predicate HelloInv(s: State) {
    forall id :: id in s.connections ==> HelloCarries(s.connections[id])
  }

  /** A ready connection that can be written to, but lacks the newest snapshot, with none on its way. */
  predicate Behind(s: State, id: ConnectionId) {
    id in s.connections && !Informed(s.connections[id], id, s.revision, s.broadcast)
  }

  lemma MentionsMore(frames: seq<Frame>, frame: Frame, revision: nat)
    ensures Mentions(frames + [frame], revision) <==> Mentions(frames, revision) || Carries(frame, revision)
  {
    var after := frames + [frame];
    if Mentions(frames, revision) {
      var i :| 0 <= i < |frames| && Carries(frames[i], revision);
      assert Carries(after[i], revision);
    }
    if Carries(frame, revision) {
      assert Carries(after[|frames|], revision);
    }
  }

  lemma SendInforms(c: Connection, frame: Frame, id: ConnectionId, revision: nat, broadcast: Option<Broadcast>)
    requires HelloCarries(c) && Informed(c, id, revision, broadcast)
    ensures HelloCarries(Send(c, frame)) && Informed(Send(c, frame), id, revision, broadcast)
  {
    MentionsMore(c.frames, frame, revision);
    if c.handshake.Sending? || c.handshake.Delivered? {
      MentionsMore(c.frames, frame, c.handshake.revision);
    }
  }

  /** A connection that is about to fail need not be informed. */
  lemma FailInforms(c: Connection, id: ConnectionId, revision: nat, broadcast: Option<Broadcast>)
    requires HelloCarries(c) && (Terminal(c) ==> Informed(c, id, revision, broadcast))
    ensures HelloCarries(FailProtocol(c)) && Informed(FailProtocol(c), id, revision, broadcast)
  {
    if c.handshake.Sending? || c.handshake.Delivered? {
      MentionsMore(c.frames, ErrorFrame, c.handshake.revision);
    }
  }

  lemma AfterFetchInforms(c: Connection, ok: bool, id: ConnectionId, closing: bool, revision: nat, broadcast: Option<Broadcast>)
    requires ConnectionInv(c) && HelloCarries(c) && Informed(c, id, revision, broadcast)
    ensures var after := AfterFetch(c, ok, closing); HelloCarries(after) && Informed(after, id, revision, broadcast)
  {
    if c.handshake.Fetching? {
      if ok {
        MentionsMore(c.frames, HelloFrame(c.handshake.revision), c.handshake.revision);
      } else {
        FailInforms(c.(handshake := Dropped), id, revision, broadcast);
      }
    }
  }

  lemma AfterHelloInforms(c: Connection, ok: bool, id: ConnectionId, revision: nat, broadcast: Option<Broadcast>)
    requires ConnectionInv(c) && HelloCarries(c) && Informed(c, id, revision, broadcast)
    ensures var after := AfterHello(c, ok, revision); HelloCarries(after) && Informed(after, id, revision, broadcast)
  {
    if c.handshake.Sending? {
      MentionsMore(c.frames, HelloCompleted, c.handshake.revision);
      MentionsMore(c.frames, HelloCompleted, revision);
    }
  }

  lemma AfterCatchUpInforms(c: Connection, ok: bool, id: ConnectionId, revision: nat, broadcast: Option<Broadcast>)
    requires ConnectionInv(c) && HelloCarries(c) && Informed(c, id, revision, broadcast)
    ensures var after := AfterCatchUp(c, ok); HelloCarries(after) && Informed(after, id, revision, broadcast)
  {
    if c.catchUp.Some? {
      if ok {
        MentionsMore(c.frames, EventFrame(c.catchUp), revision);
        MentionsMore(c.frames, EventFrame(c.catchUp), c.handshake.revision);
      } else {
        FailInforms(c.(catchUp := None), id, revision, broadcast);
      }
    }
  }

  lemma OnConnectionInforms(c: Connection, event: Event, id: ConnectionId, closing: bool, revision: nat, broadcast: Option<Broadcast>)
    requires ConnectionInv(c) && HelloCarries(c) && Informed(c, id, revision, broadcast)
    ensures var after := OnConnection(c, event, closing, revision);
            HelloCarries(after) && Informed(after, id, revision, broadcast)
  {
    match event {
      case Receive(_, message) =>
        FailInforms(c, id, revision, broadcast);
        if c.stage.AwaitingHello? {
          FailInforms(c.(stage := Handshaking, handshake := Dropped), id, revision, broadcast);
        }
      case SnapshotFetched(_, ok) => AfterFetchInforms(c, ok, id, closing, revision, broadcast);
      case HelloSettled(_, ok) => AfterHelloInforms(c, ok, id, revision, broadcast);
      case CatchUpFetched(_, ok) => AfterCatchUpInforms(c, ok, id, revision, broadcast);
      case RequestDone(_) =>
        if c.running > 0 {
          SendInforms(c.(running := c.running - 1), ResponseFrame, id, revision, broadcast);
        }
      case SessionEvent(_) => SendInforms(c, EventFrame(None), id, revision, broadcast);
      case HandshakeTimeout(_) => FailInforms(c, id, revision, broadcast);
      case _ =>
    }
  }

  /** With the connection among those a broadcast has to reach, it is informed in any case. */
  lemma OnConnectionKeepsHello(c: Connection, event: Event, closing: bool, revision: nat)
    requires ConnectionInv(c) && HelloCarries(c)
    ensures HelloCarries(OnConnection(c, event, closing, revision))
  {
    OnConnectionInforms(c, event, 0, closing, revision, Some(Broadcast(revision, {0})));
  }

  lemma SendKeepsHello(c: Connection, frame: Frame)
    requires HelloCarries(c)
    ensures HelloCarries(Send(c, frame))
  {
    if c.handshake.Sending? || c.handshake.Delivered? {
      MentionsMore(c.frames, frame, c.handshake.revision);
    }
  }

  lemma StepKeepsHello(s: State, event: Event)
    requires Inv(s) && HelloInv(s)
    ensures HelloInv(Step(s, event))
  {
    match event {
      case Accept(_) =>
      case PerformBroadcast =>
      case BroadcastSend(id) =>
        if s.broadcast.Some? && id in s.connections {
          SendKeepsHello(s.connections[id], EventFrame(Some(s.broadcast.value.revision)));
        }
      case BroadcastFailed =>
      case BeginClosing =>
      case CloseServerState =>
      case _ => ConnectionStepKeepsHello(s, event.connection, event);
    }
  }

  lemma ConnectionStepKeepsHello(s: State, id: ConnectionId, event: Event)
    requires Inv(s) && HelloInv(s)
    ensures HelloInv(ConnectionStep(s, id, event))
  {
    if id in s.connections {
      OnConnectionKeepsHello(s.connections[id], event, s.closing, s.revision);
    }
  }

  /** The event starts a broadcast, with a new revision. */
  predicate Publishes(s: State, event: Event) {
    event.PerformBroadcast? && s.broadcast.None? && !s.closing && ReadyConnections(s) != {}
  }

  // ---------- no snapshot is ahead of its broadcast ----------

  predicate Within(frame: Frame, bound: int) {
    match frame
    case HelloFrame(revision) => revision <= bound
    case EventFrame(Some(revision)) => revision <= bound
    case _ => true
  }

  predicate FramesWithin(frames: seq<Frame>, bound: int) {
    forall i :: 0 <= i < |frames| ==> Within(frames[i], bound)
  }

  /** No snapshot that was sent to the connection, or that it waits for, is newer than the bound. */
  predicate UpTo(c: Connection, bound: int) {
    && FramesWithin(c.frames, bound)
    && (c.catchUp.Some? ==> c.catchUp.value <= bound)
    && (c.handshake.Fetching? || c.handshake.Sending? || c.handshake.Delivered? ==> c.handshake.revision <= bound)
  }

  /** The newest revision a connection can know of: not that of a broadcast that has yet to reach it. */
  function Newest(s: State, id: ConnectionId): int {
    if s.broadcast.Some? && id in s.broadcast.value.remaining then s.revision - 1 else s.revision
  }

  ghost predicate RevisionInv(s: State) {
    forall id :: id in s.connections ==> UpTo(s.connections[id], Newest(s, id))
  }

  lemma OnConnectionStaysUpTo(c: Connection, event: Event, closing: bool, revision: nat, bound: int)
    requires ConnectionInv(c) && UpTo(c, bound) && (bound == revision || c.handshake.Delivered?)
    ensures UpTo(OnConnection(c, event, closing, revision), bound)
  {
  }

  lemma ConnectionStepKeepsRevisions(s: State, id: ConnectionId, event: Event)
    requires Inv(s) && RevisionInv(s)
    ensures RevisionInv(ConnectionStep(s, id, event))
  {
    if id in s.connections {
      OnConnectionStaysUpTo(s.connections[id], event, s.closing, s.revision, Newest(s, id));
    }
  }

  lemma StepKeepsRevisions(s: State, event: Event)
    requires Inv(s) && RevisionInv(s)
    ensures RevisionInv(Step(s, event))
  {
    match event {
      case Accept(_) =>
      case PerformBroadcast => PerformKeepsRevisions(s);
      case BroadcastSend(_) =>
      case BroadcastFailed =>
      case BeginClosing =>
      case CloseServerState =>
      case _ => ConnectionStepKeepsRevisions(s, event.connection, event);
    }
  }

  lemma PerformKeepsRevisions(s: State)
    requires Inv(s) && RevisionInv(s)
    ensures RevisionInv(PerformBroadcastStep(s))
  {
  }

  // ---------- who is behind ----------

  /** A broadcast ends before it has reached the connection. */
  predicate Loses(s: State, event: Event, id: ConnectionId) {
    && event.BroadcastFailed? && s.broadcast.Some? && id in s.broadcast.value.remaining && id in s.connections
    && s.connections[id].stage.Ready? && !s.connections[id].gone
  }

  /** A new revision goes to every ready connection, also to those that were behind. */
  lemma PerformBroadcastInforms(s: State, event: Event, id: ConnectionId)
    requires Inv(s) && Publishes(s, event)
    ensures !Behind(Step(s, event), id)
  {
    if id in s.connections && s.connections[id].stage.Ready? {
      assert ConnectionInv(s.connections[id]) && id in ReadyConnections(s);
    }
  }

  /** A broadcast that fails leaves behind exactly the connections it has not reached. */
  lemma FailureLeavesBehindIff(s: State, id: ConnectionId)
    requires Inv(s) && RevisionInv(s)
    ensures Behind(Step(s, BroadcastFailed), id) <==> Behind(s, id) || Loses(s, BroadcastFailed, id)
  {
    if Loses(s, BroadcastFailed, id) {
      OlderDoNotMention(s.connections[id].frames, s.revision);
    }
  }

  lemma OlderDoNotMention(frames: seq<Frame>, revision: nat)
    requires FramesWithin(frames, revision - 1)
    ensures !Mentions(frames, revision)
  {
    forall i | 0 <= i < |frames| ensures !Carries(frames[i], revision) {
      assert Within(frames[i], revision - 1);
    }
  }

  lemma BroadcastSendTracks(s: State, to: ConnectionId, id: ConnectionId)
    requires Inv(s) && HelloInv(s)
    ensures Behind(BroadcastSendStep(s, to), id) <==> Behind(s, id)
  {
    if s.broadcast.Some? && to in s.broadcast.value.remaining && id == to {
      MentionsMore(s.connections[id].frames, EventFrame(Some(s.revision)), s.revision);
      assert ConnectionInv(s.connections[id]);
    }
  }

  /** A connection that is ready gets the newest snapshot from nothing but a broadcast. */
  lemma OnConnectionStaysBehind(c: Connection, event: Event, id: ConnectionId, closing: bool, revision: nat, broadcast: Option<Broadcast>)
    requires ConnectionInv(c) && !Informed(c, id, revision, broadcast)
    ensures var after := OnConnection(c, event, closing, revision);
            after.stage.Ready? && !after.gone ==> !Informed(after, id, revision, broadcast)
  {
    MentionsMore(c.frames, ErrorFrame, revision);
    MentionsMore(c.frames, ResponseFrame, revision);
    MentionsMore(c.frames, EventFrame(None), revision);
    MentionsMore(c.frames, EventFrame(c.catchUp), revision);
  }

  /** Whether a connection misses the newest revision, as the broadcasts alone tell. */
  function Missed(s: State, event: Event, id: ConnectionId, before: bool): bool {
    if Publishes(s, event) then false else before || Loses(s, event, id)
  }

  function MissedIn(s: State, events: seq<Event>, id: ConnectionId, before: bool): bool
    decreases |events|
  {
    if events == [] then before else MissedIn(Step(s, events[0]), events[1..], id, Missed(s, events[0], id, before))
  }

  predicate Tracks(s: State, id: ConnectionId, missed: bool) {
    && (missed ==> id in s.connections && Rank(s.connections[id].stage) >= 2)
    && (id in s.connections && s.connections[id].stage.Ready? && !s.connections[id].gone ==> (missed <==> Behind(s, id)))
  }

  lemma OnConnectionTracks(s: State, event: Event, id: ConnectionId, missed: bool)
    requires Inv(s) && HelloInv(s) && Tracks(s, id, missed) && id in s.connections
    ensures var after := OnConnection(s.connections[id], event, s.closing, s.revision);
            && (missed ==> Rank(after.stage) >= 2)
            && (after.stage.Ready? && !after.gone ==> (missed <==> !Informed(after, id, s.revision, s.broadcast)))
  {
    var c := s.connections[id];
    OnConnectionKeeps(c, event, s.closing, s.revision);
    if Behind(s, id) {
      OnConnectionStaysBehind(c, event, id, s.closing, s.revision, s.broadcast);
    } else {
      OnConnectionInforms(c, event, id, s.closing, s.revision, s.broadcast);
      ReadyAndGone(c, event, s.closing, s.revision);
    }
  }

  /** A connection that was ready, or whose transport is gone, does not become ready and writable. */
  lemma ReadyAndGone(c: Connection, event: Event, closing: bool, revision: nat)
    requires ConnectionInv(c)
    ensures var after := OnConnection(c, event, closing, revision);
            (c.gone ==> after.gone) && (Rank(c.stage) > 2 ==> !after.stage.Ready?)
  {
    OnConnectionKeeps(c, event, closing, revision);
  }

  lemma StepTracks(s: State, event: Event, id: ConnectionId, missed: bool)
    requires Inv(s) && HelloInv(s) && RevisionInv(s) && Tracks(s, id, missed)
    ensures Tracks(Step(s, event), id, Missed(s, event, id, missed))
  {
    match event {
      case Accept(_) =>
      case PerformBroadcast =>
        if Publishes(s, event) {
          PerformBroadcastInforms(s, event, id);
        }
      case BroadcastSend(to) => BroadcastSendTracks(s, to, id);
      case BroadcastFailed => FailureLeavesBehindIff(s, id);
      case BeginClosing =>
      case CloseServerState =>
      case _ => ConnectionStepTracks(s, event.connection, event, id, missed);
    }
  }

  lemma ConnectionStepTracks(s: State, on: ConnectionId, event: Event, id: ConnectionId, missed: bool)
    requires Inv(s) && HelloInv(s) && Tracks(s, id, missed)
    ensures Tracks(ConnectionStep(s, on, event), id, missed)
  {
    if on == id && id in s.connections {
      OnConnectionTracks(s, event, id, missed);
    }
  }

  lemma {:induction false} RunTracks(s: State, events: seq<Event>, id: ConnectionId, missed: bool)
    requires Inv(s) && HelloInv(s) && RevisionInv(s) && Tracks(s, id, missed)
    ensures Tracks(Run(s, events), id, MissedIn(s, events, id, missed))
    decreases |events|
  {
    if events != [] {
      StepKeepsInv(s, events[0]);
      StepKeepsHello(s, events[0]);
      StepKeepsRevisions(s, events[0]);
      StepTracks(s, events[0], id, missed);
      RunTracks(Step(s, events[0]), events[1..], id, Missed(s, events[0], id, missed));
    }
  }

  /** A ready connection that can be written to stays behind from a broadcast that failed to reach it
      until the next broadcast, and for no other reason: in every run. */
  lemma BehindIffMissed(events: seq<Event>, id: ConnectionId)
    ensures var s := Run(INITIAL, events);
            id in s.connections && s.connections[id].stage.Ready? && !s.connections[id].gone ==>
              (Behind(s, id) <==> MissedIn(INITIAL, events, id, false))
  {
    RunTracks(INITIAL, events, id, false);
  }

  /** No revision is missed, not even one published during the handshake: when nothing is on its way, a
      ready connection that can be written to has been sent the current one, exactly if no broadcast
      since the newest revision failed before it reached the connection. */
  lemma ReadyConnectionsAreUpToDate(events: seq<Event>, id: ConnectionId)
    ensures var s := Run(INITIAL, events);
            id in s.connections && s.broadcast.None? && s.connections[id].catchUp.None?
            && s.connections[id].stage.Ready? && !s.connections[id].gone ==>
              (Mentions(s.connections[id].frames, s.revision) <==> !MissedIn(INITIAL, events, id, false))
  {
    BehindIffMissed(events, id);
  }

  lemma {:induction false} NothingMissed(s: State, events: seq<Event>, id: ConnectionId)
    requires forall i :: 0 <= i < |events| ==> !events[i].BroadcastFailed?
    ensures !MissedIn(s, events, id, false)
    decreases |events|
  {
    if events != [] {
      NothingMissed(Step(s, events[0]), events[1..], id);
    }
  }

  /** So without failures nobody misses anything. */
  lemma UnfailedBroadcastsReachAll(events: seq<Event>, id: ConnectionId)
    requires forall i :: 0 <= i < |events| ==> !events[i].BroadcastFailed?
    ensures var s := Run(INITIAL, events);
            id in s.connections && s.broadcast.None? && s.connections[id].catchUp.None?
            && s.connections[id].stage.Ready? && !s.connections[id].gone ==>
              Mentions(s.connections[id].frames, s.revision)
  {
    NothingMissed(INITIAL, events, id);
    ReadyConnectionsAreUpToDate(events, id);
  }

  /** A connection whose hello has been delivered. */
  function OneReady(id: ConnectionId): State {
    var connection := ACCEPTED.(stage := Ready, handshake := Delivered(0), frames := [HelloFrame(0), HelloCompleted]);
    State(map[id := connection], {id}, false, 0, None)
  }

  function Greeting(id: ConnectionId): State {
    Step(Step(Step(INITIAL, Accept(id)), Receive(id, Hello(true))), SnapshotFetched(id, true))
  }

  lemma GreetingIs(id: ConnectionId)
    ensures Greeting(id) == State(map[id := ACCEPTED.(stage := Handshaking, handshake := Sending(0), frames := [HelloFrame(0)])],
                                  {id}, false, 0, None)
  {
    var accepted := Step(INITIAL, Accept(id));
    assert accepted == State(map[id := ACCEPTED], {id}, false, 0, None);
    var asked := Step(accepted, Receive(id, Hello(true)));
    assert asked == State(map[id := ACCEPTED.(stage := Handshaking, handshake := Fetching(0))], {id}, false, 0, None);
    assert ACCEPTED.frames + [HelloFrame(0)] == [HelloFrame(0)];
    MapOne(id, asked.connections[id], OnConnection(asked.connections[id], SnapshotFetched(id, true), false, 0));
  }

  lemma MapOne(id: ConnectionId, before: Connection, after: Connection)
    ensures map[id := before][id := after] == map[id := after]
  {
  }

  lemma GreetedIsReady(id: ConnectionId)
    ensures Step(Greeting(id), HelloSettled(id, true)) == OneReady(id)
  {
    GreetingIs(id);
    assert [HelloFrame(0)] + [HelloCompleted] == [HelloFrame(0), HelloCompleted];
    var greeted := Greeting(id).connections[id];
    MapOne(id, greeted, OnConnection(greeted, HelloSettled(id, true), false, 0));
  }

  /** A broadcast whose service call fails has raised the revision already: a ready connection that was
      up to date then stays behind. */
  lemma FailedBroadcastLeavesGap(id: ConnectionId)
    ensures var ready := Step(Greeting(id), HelloSettled(id, true));
            && ready.revision == 0 && id in ready.connections && Mentions(ready.connections[id].frames, 0)
            && var failed := Step(Step(ready, PerformBroadcast), BroadcastFailed);
            && failed.revision == 1 && failed.broadcast == None && id in failed.connections
            && failed.connections[id].stage.Ready? && failed.connections[id].catchUp == None && !failed.connections[id].gone
            && !Mentions(failed.connections[id].frames, 1)
  {
    GreetedIsReady(id);
    assert Carries(OneReady(id).connections[id].frames[0], 0);
    assert id in ReadyConnections(OneReady(id));
  }
}
