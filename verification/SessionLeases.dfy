/**
 The leases a client holds on one session id (packages/client/src/client.ts): reservations are counted,
 an exclusive one excludes all others, and only the last one out detaches. A step is one stretch of
 code between two awaits. Tokens are named by the order of their reservation.
 */
module SessionLeases {
  import opened Prelude

  type TokenId = nat

  datatype Mode = Shared | Exclusive

  datatype Stage =
    | Reserved                                        // acquireSession or createSession is under way
    | Active(generation: nat)
    | Detaching(generation: nat, relinquish: bool)    // waits for the server to detach
    | Released
    | Invalidated
    | Failed

  datatype Token = Token(mode: Mode, stage: Stage)

  datatype State = State(
    count: nat,
    exclusive: Option<TokenId>,
    generation: nat,
    cleanupRequired: bool,
    tokens: seq<Token>)

  const INITIAL := State(0, None, 0, false, [])

  datatype Event =
    | Reserve(mode: Mode)
    | AcquireFailed(token: TokenId)
    | CreateLease(token: TokenId)
    | Release(token: TokenId, relinquish: bool, attached: bool)
    | DetachSettled(token: TokenId, ok: bool)
    | Reconciled
    | SessionRemoved
    | Disconnected

  // ---------- the steps ----------

  function SetStage(tokens: seq<Token>, token: TokenId, stage: Stage): seq<Token>
    requires token < |tokens|
  {
    tokens[token := tokens[token].(stage := stage)]
  }

  predicate MayReserve(s: State, mode: Mode) {
    if mode.Exclusive? then s.count == 0 else s.exclusive.None?
  }

  function ReserveStep(s: State, mode: Mode): State {
    if !MayReserve(s, mode) then s
    else s.(count := s.count + 1,
            exclusive := if mode.Exclusive? then Some(|s.tokens|) else s.exclusive,
            tokens := s.tokens + [Token(mode, Reserved)])
  }

  /** `releaseSessionLease`, with what becomes of the token. */
  function GiveBack(s: State, token: TokenId, stage: Stage): State
    requires token < |s.tokens|
  {
    s.(count := if s.count <= 1 then 0 else s.count - 1,
       exclusive := if s.exclusive == Some(token) then None else s.exclusive,
       tokens := SetStage(s.tokens, token, stage))
  }

  predicate InStage(s: State, token: TokenId, stage: Stage) {
    token < |s.tokens| && s.tokens[token].stage == stage
  }

  /** `release` up to the detach request, if it makes one. `attached` stands for the checks on the
      connection and the session, which throw when they fail. */
  function ReleaseStep(s: State, token: TokenId, relinquish: bool, attached: bool): State {
    if token >= |s.tokens| || !s.tokens[token].stage.Active? then s
    else if s.tokens[token].stage.generation != s.generation then s.(tokens := SetStage(s.tokens, token, Invalidated))
    else if !attached then s
    else if s.count <= 1 then s.(tokens := SetStage(s.tokens, token, Detaching(s.generation, relinquish)))
    else GiveBack(s, token, Released)
  }

  function DetachSettledStep(s: State, token: TokenId, ok: bool): State {
    if token >= |s.tokens| || !s.tokens[token].stage.Detaching? then s
    else
      var stage := s.tokens[token].stage;
      if ok then GiveBack(s, token, Released)
      else if stage.generation != s.generation then s.(tokens := SetStage(s.tokens, token, Invalidated))
      else if stage.relinquish then GiveBack(s, token, Released).(cleanupRequired := true)
      else s.(tokens := SetStage(s.tokens, token, Active(stage.generation)))
  }

  /** `invalidateSessionLeases`. */
  function Invalidate(s: State): State {
    s.(count := 0, exclusive := None, cleanupRequired := false, generation := s.generation + 1)
  }

  function Step(s: State, event: Event): State {
    match event
    case Reserve(mode) => ReserveStep(s, mode)
    case AcquireFailed(token) => if InStage(s, token, Reserved) then GiveBack(s, token, Failed) else s
    case CreateLease(token) =>
      if InStage(s, token, Reserved) then s.(tokens := SetStage(s.tokens, token, Active(s.generation))) else s
    case Release(token, relinquish, attached) => ReleaseStep(s, token, relinquish, attached)
    case DetachSettled(token, ok) => DetachSettledStep(s, token, ok)
    case Reconciled => s.(cleanupRequired := false)
    case SessionRemoved => Invalidate(s)
    case Disconnected => if s.count == 0 then s.(cleanupRequired := false) else Invalidate(s)
  }

  function Run(s: State, events: seq<Event>): State
    decreases |events|
  {
    if events == [] then s else Run(Step(s, events[0]), events[1..])
  }

  // ---------- the counts ----------

  predicate IsOutstanding(token: Token, generation: nat) {
    match token.stage
    case Reserved => true
    case Active(of) => of == generation
    case Detaching(of, _) => of == generation
    case _ => false
  }

  /** The tokens that are reserved and not given back. */
  function Outstanding(tokens: seq<Token>, generation: nat): set<TokenId> {
    set token | 0 <= token < |tokens| && IsOutstanding(tokens[token], generation)
  }

  ghost predicate Inv(s: State) {
    && s.count == |Outstanding(s.tokens, s.generation)|
    && ExclusiveAlone(s.tokens, s.generation, s.exclusive)
    && DetachingAlone(s.tokens, s.generation)
    && (forall t :: 0 <= t < |s.tokens| && s.tokens[t].stage.Active? ==> s.tokens[t].stage.generation <= s.generation)
  }

  ghost predicate ExclusiveAlone(tokens: seq<Token>, generation: nat, exclusive: Option<TokenId>) {
    && (exclusive.Some? ==> exclusive.value in Outstanding(tokens, generation) && tokens[exclusive.value].mode.Exclusive?)
    && (forall t :: t in Outstanding(tokens, generation) && tokens[t].mode.Exclusive? ==>
          exclusive == Some(t) && Outstanding(tokens, generation) == {t})
  }

  /** No detach of an old generation is under way, and never two. */
  ghost predicate DetachingAlone(tokens: seq<Token>, generation: nat) {
    && (forall t :: 0 <= t < |tokens| && tokens[t].stage.Detaching? ==> tokens[t].stage.generation == generation)
    && (forall t, u | 0 <= t < |tokens| && 0 <= u < |tokens| :: tokens[t].stage.Detaching? && tokens[u].stage.Detaching? ==> t == u)
  }

  lemma StageSet(tokens: seq<Token>, generation: nat, token: TokenId, stage: Stage)
    requires token < |tokens|
    ensures var after := SetStage(tokens, token, stage);
            Outstanding(after, generation) ==
            if IsOutstanding(after[token], generation) then Outstanding(tokens, generation) + {token}
            else Outstanding(tokens, generation) - {token}
  {
  }

  lemma OnlyMember(outstanding: set<TokenId>, token: TokenId)
    requires token in outstanding && |outstanding| <= 1
    ensures outstanding == {token}
  {
    assert |outstanding - {token}| == 0;
    assert outstanding == (outstanding - {token}) + {token};
  }

  lemma ReserveKeeps(s: State, mode: Mode)
    requires Inv(s)
    ensures Inv(ReserveStep(s, mode))
  {
    if MayReserve(s, mode) {
      var t := ReserveStep(s, mode);
      assert forall i :: 0 <= i < |s.tokens| ==> t.tokens[i] == s.tokens[i];
      assert Outstanding(t.tokens, t.generation) == Outstanding(s.tokens, s.generation) + {|s.tokens|};
    }
  }

  lemma GiveBackKeeps(s: State, token: TokenId, stage: Stage)
    requires Inv(s) && token in Outstanding(s.tokens, s.generation)
    requires stage.Released? || stage.Failed?
    ensures Inv(GiveBack(s, token, stage))
  {
    StageSet(s.tokens, s.generation, token, stage);
    var after := GiveBack(s, token, stage).tokens;
    assert forall i :: 0 <= i < |after| && i != token ==> after[i] == s.tokens[i];
  }

  lemma DetachingIsOutstanding(tokens: seq<Token>, generation: nat)
    requires DetachingAlone(tokens, generation)
    ensures forall t :: 0 <= t < |tokens| && tokens[t].stage.Detaching? ==> t in Outstanding(tokens, generation)
  {
  }

  lemma StageMoveKeeps(s: State, token: TokenId, stage: Stage)
    requires Inv(s) && token in Outstanding(s.tokens, s.generation)
    requires stage == Active(s.generation) || (stage.Detaching? && stage.generation == s.generation && s.count <= 1)
    ensures Inv(s.(tokens := SetStage(s.tokens, token, stage)))
  {
    StageSet(s.tokens, s.generation, token, stage);
    var after := SetStage(s.tokens, token, stage);
    assert Outstanding(after, s.generation) == Outstanding(s.tokens, s.generation);
    assert forall i :: 0 <= i < |after| && i != token ==> after[i] == s.tokens[i];
    if stage.Detaching? {
      OnlyMember(Outstanding(s.tokens, s.generation), token);
      DetachingIsOutstanding(s.tokens, s.generation);
    }
  }

  lemma InvalidatedKeeps(s: State, token: TokenId)
    requires Inv(s) && token < |s.tokens| && !IsOutstanding(s.tokens[token], s.generation)
    ensures Inv(s.(tokens := SetStage(s.tokens, token, Invalidated)))
  {
    StageSet(s.tokens, s.generation, token, Invalidated);
    var after := SetStage(s.tokens, token, Invalidated);
    assert Outstanding(after, s.generation) == Outstanding(s.tokens, s.generation);
    assert forall i :: 0 <= i < |after| && i != token ==> after[i] == s.tokens[i];
  }

  /** No acquisition and no detach is under way. */
  predicate Calm(s: State) {
    forall t :: 0 <= t < |s.tokens| ==> !s.tokens[t].stage.Reserved? && !s.tokens[t].stage.Detaching?
  }

  lemma CalmInvalidationKeeps(s: State)
    requires Inv(s) && Calm(s)
    ensures Inv(Invalidate(s))
  {
    var t := Invalidate(s);
    assert Outstanding(t.tokens, t.generation) == {};
  }

  lemma StepKeepsInv(s: State, event: Event)
    requires Inv(s)
    requires event.SessionRemoved? || (event.Disconnected? && s.count > 0) ==> Calm(s)
    ensures Inv(Step(s, event))
  {
    match event {
      case Reserve(mode) => ReserveKeeps(s, mode);
      case AcquireFailed(token) =>
        if InStage(s, token, Reserved) {
          GiveBackKeeps(s, token, Failed);
        }
      case CreateLease(token) =>
        if InStage(s, token, Reserved) {
          StageMoveKeeps(s, token, Active(s.generation));
        }
      case Release(token, relinquish, attached) => ReleaseKeeps(s, token, relinquish, attached);
      case DetachSettled(token, ok) =>
        if token < |s.tokens| && s.tokens[token].stage.Detaching? {
          var back := GiveBack(s, token, Released);
          GiveBackKeeps(s, token, Released);
          assert Inv(back.(cleanupRequired := true));
          StageMoveKeeps(s, token, Active(s.generation));
        }
      case Reconciled =>
      case SessionRemoved => CalmInvalidationKeeps(s);
      case Disconnected =>
        if s.count > 0 {
          CalmInvalidationKeeps(s);
        }
    }
  }

  lemma ReleaseKeeps(s: State, token: TokenId, relinquish: bool, attached: bool)
    requires Inv(s)
    ensures Inv(ReleaseStep(s, token, relinquish, attached))
  {
    if token < |s.tokens| && s.tokens[token].stage.Active? {
      if s.tokens[token].stage.generation != s.generation {
        InvalidatedKeeps(s, token);
      } else if attached && s.count <= 1 {
        StageMoveKeeps(s, token, Detaching(s.generation, relinquish));
      } else if attached {
        GiveBackKeeps(s, token, Released);
      }
    }
  }

  /** Sessions are only removed, and the client disconnected, while nothing is under way. */
  ghost predicate InvalidatedCalmly(s: State, events: seq<Event>)
    decreases |events|
  {
    events != [] ==>
      && (events[0].SessionRemoved? || (events[0].Disconnected? && s.count > 0) ==> Calm(s))
      && InvalidatedCalmly(Step(s, events[0]), events[1..])
  }

  lemma {:induction false} RunKeepsInv(s: State, events: seq<Event>)
    requires Inv(s) && InvalidatedCalmly(s, events)
    ensures Inv(Run(s, events))
    decreases |events|
  {
    if events != [] {
      StepKeepsInv(s, events[0]);
      RunKeepsInv(Step(s, events[0]), events[1..]);
    }
  }

  predicate NoInvalidation(events: seq<Event>) {
    forall i :: 0 <= i < |events| ==> !events[i].SessionRemoved? && !events[i].Disconnected?
  }

  lemma {:induction false} WithoutInvalidationAllCalm(s: State, events: seq<Event>)
    requires NoInvalidation(events)
    ensures InvalidatedCalmly(s, events)
    decreases |events|
  {
    if events != [] {
      WithoutInvalidationAllCalm(Step(s, events[0]), events[1..]);
    }
  }

  // ---------- what holds in every run ----------

  /** The count is the number of reservations not given back; an exclusive one is alone. */
  lemma LeasesAreCounted(events: seq<Event>)
    requires InvalidatedCalmly(INITIAL, events)
    ensures var s := Run(INITIAL, events);
            && s.count == |Outstanding(s.tokens, s.generation)|
            && (forall t :: t in Outstanding(s.tokens, s.generation) && s.tokens[t].mode.Exclusive? ==>
                  Outstanding(s.tokens, s.generation) == {t})
  {
    assert Outstanding(INITIAL.tokens, 0) == {};
    RunKeepsInv(INITIAL, events);
  }

  lemma LeasesAreCountedWithoutInvalidation(events: seq<Event>)
    requires NoInvalidation(events)
    ensures var s := Run(INITIAL, events);
            && s.count == |Outstanding(s.tokens, s.generation)|
            && (forall t :: t in Outstanding(s.tokens, s.generation) && s.tokens[t].mode.Exclusive? ==>
                  Outstanding(s.tokens, s.generation) == {t})
  {
    WithoutInvalidationAllCalm(INITIAL, events);
    LeasesAreCounted(events);
  }

  /** A lease asks the server to detach only while it is the sole reservation, so no other detach of
      the session is under way. */
  lemma OnlyTheLastDetaches(events: seq<Event>, token: TokenId, relinquish: bool, attached: bool)
    requires InvalidatedCalmly(INITIAL, events)
    ensures var s := Run(INITIAL, events);
            var t := ReleaseStep(s, token, relinquish, attached);
            t != s && token < |t.tokens| && t.tokens[token].stage.Detaching? ==>
              && Outstanding(s.tokens, s.generation) == {token}
              && (forall u :: 0 <= u < |s.tokens| ==> !s.tokens[u].stage.Detaching?)
  {
    assert Outstanding(INITIAL.tokens, 0) == {};
    RunKeepsInv(INITIAL, events);
    var s := Run(INITIAL, events);
    if token < |s.tokens| && s.tokens[token].stage == Active(s.generation) && s.count <= 1 {
      OnlyMember(Outstanding(s.tokens, s.generation), token);
      DetachingIsOutstanding(s.tokens, s.generation);
    }
  }

  // ---------- invalidation while something is under way ----------

  /** The count is that of the outstanding tokens, and an exclusive one is alone and is the recorded one. */
  ghost predicate CountsRight(s: State) {
    s.count == |Outstanding(s.tokens, s.generation)| && ExclusiveAlone(s.tokens, s.generation, s.exclusive)
  }

  ghost predicate CountsStayRight(s: State) {
    forall events: seq<Event> :: NoInvalidation(events) ==> CountsRight(Run(s, events))
  }

  /** Removing the session, or a disconnect, leaves the counts right, now and in every continuation
      without another invalidation, exactly if no acquisition and no detach is under way. */
  lemma InvalidationKeepsCountsIffCalm(s: State)
    requires Inv(s)
    ensures CountsStayRight(Invalidate(s)) <==> Calm(s)
  {
    if Calm(s) {
      CalmInvalidationKeeps(s);
      forall events: seq<Event> | NoInvalidation(events) ensures CountsRight(Run(Invalidate(s), events)) {
        WithoutInvalidationAllCalm(Invalidate(s), events);
        RunKeepsInv(Invalidate(s), events);
      }
    } else {
      var i :| 0 <= i < |s.tokens| && (s.tokens[i].stage.Reserved? || s.tokens[i].stage.Detaching?);
      if r :| 0 <= r < |s.tokens| && s.tokens[r].stage.Reserved? {
        ReservedIsUncounted(s, r);
      } else {
        DetachGivesBackTwice(s, i);
      }
    }
  }

  /** An acquisition under way is forgotten at once. */
  lemma ReservedIsUncounted(s: State, token: TokenId)
    requires token < |s.tokens| && s.tokens[token].stage.Reserved?
    ensures !CountsStayRight(Invalidate(s))
  {
    var t := Invalidate(s);
    assert token in Outstanding(t.tokens, t.generation);
    assert Run(t, []) == t && NoInvalidation([]);
  }

  /** A detach under way gives back the next reservation. */
  lemma DetachGivesBackTwice(s: State, token: TokenId)
    requires Inv(s) && token < |s.tokens| && s.tokens[token].stage.Detaching?
    requires forall i :: 0 <= i < |s.tokens| ==> !s.tokens[i].stage.Reserved?
    ensures !CountsStayRight(Invalidate(s))
  {
    var t := Invalidate(s);
    var reserved := Step(t, Reserve(Exclusive));
    var robbed := Step(reserved, DetachSettled(token, true));
    assert reserved.tokens[token] == s.tokens[token];
    assert |s.tokens| in Outstanding(robbed.tokens, robbed.generation) && robbed.count == 0;
    var events := [Reserve(Exclusive), DetachSettled(token, true)];
    assert NoInvalidation(events);
    assert events[1..] == [DetachSettled(token, true)] && events[1..][1..] == [];
    assert Run(t, events) == Run(reserved, events[1..]) == Run(robbed, []) == robbed;
  }

  /** An acquisition that outlives an invalidation becomes a lease nobody counts: an exclusive lease is
      then granted beside it. */
  lemma ExclusiveBesideUncounted()
    ensures var reserved := Step(INITIAL, Reserve(Shared));
            var forgotten := Step(Step(reserved, SessionRemoved), CreateLease(0));
            var s := Step(Step(forgotten, Reserve(Exclusive)), CreateLease(1));
            s.tokens == [Token(Shared, Active(1)), Token(Exclusive, Active(1))] && s.count == 1
  {
  }

  /** A detach that succeeds after an invalidation gives back a reservation that is not its own, so a
      second exclusive lease is granted. */
  lemma TwoExclusiveLeases()
    ensures var active := Step(Step(INITIAL, Reserve(Exclusive)), CreateLease(0));
            var detaching := Step(Step(active, Release(0, false, true)), SessionRemoved);
            var again := Step(Step(detaching, Reserve(Exclusive)), CreateLease(1));
            var robbed := Step(again, DetachSettled(0, true));
            var s := Step(Step(robbed, Reserve(Exclusive)), CreateLease(2));
            again.count == 1 && robbed.count == 0
            && |s.tokens| == 3 && s.tokens[1] == Token(Exclusive, Active(1)) && s.tokens[2] == Token(Exclusive, Active(1))
  {
  }
}
