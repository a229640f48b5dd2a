/**
 The lease bookkeeping of `PiClient` (packages/client/src/client.ts) with its maps. Each method is
 proved equal to the step of `SessionLeases` it stands for on its session id, and to leave all other
 ids alone. Lease tokens, which the code keeps in closures, are rows.
 */
module LeaseTable {
  import opened Prelude
  import opened SessionLeases

  type SessionId = nat

  function Get<T>(table: map<SessionId, T>, id: SessionId): Option<T> {
    if id in table then Some(table[id]) else None
  }

  /** The maps that an invalidation changes. */
  datatype Tables = Tables(
    counts: map<SessionId, nat>,
    exclusives: map<SessionId, TokenId>,
    cleanups: set<SessionId>,
    generations: map<SessionId, nat>)

  /** The entries of one id have been invalidated, or are as they were. */
  predicate EntryInvalidated(was: Tables, now: Tables, id: SessionId, ids: set<SessionId>) {
    if id in ids then
      && id !in now.counts && id !in now.exclusives && id !in now.cleanups
      && Get(now.generations, id) == Some(Get(was.generations, id).GetOr(0) + 1)
    else
      && Get(now.counts, id) == Get(was.counts, id) && Get(now.exclusives, id) == Get(was.exclusives, id)
      && (id in now.cleanups <==> id in was.cleanups) && Get(now.generations, id) == Get(was.generations, id)
  }

  ghost predicate TablesInvalidated(was: Tables, now: Tables, ids: set<SessionId>) {
    forall id: SessionId :: EntryInvalidated(was, now, id, ids)
  }

  lemma OneMoreInvalidated(was: Tables, before: Tables, now: Tables, left: set<SessionId>, id: SessionId)
    requires TablesInvalidated(was, before, left) && TablesInvalidated(before, now, {id}) && id !in left
    ensures TablesInvalidated(was, now, left + {id})
  {
    forall other: SessionId ensures EntryInvalidated(was, now, other, left + {id}) {
      assert EntryInvalidated(was, before, other, left) && EntryInvalidated(before, now, other, {id});
    }
  }

  class LeaseTable {
    var sessionLeaseCounts: map<SessionId, nat>
    var exclusiveSessionLeases: map<SessionId, TokenId>
    var sessionLeaseGenerations: map<SessionId, nat>
    var sessionCleanupRequired: set<SessionId>
    var tokens: map<SessionId, seq<Token>>

    ghost function View(id: SessionId): State
      reads this
    {
      State(Get(sessionLeaseCounts, id).GetOr(0), Get(exclusiveSessionLeases, id), Get(sessionLeaseGenerations, id).GetOr(0),
            id in sessionCleanupRequired, Get(tokens, id).GetOr([]))
    }

    /** Counts of zero are not kept. */
    ghost predicate Positive()
      reads this
    {
      forall id :: id in sessionLeaseCounts ==> sessionLeaseCounts[id] > 0
    }

    /** The method takes one step on the id and none on any other. */
    twostate predicate Steps(id: SessionId, event: Event)
      reads this
    {
      View(id) == Step(old(View(id)), event) && OthersStay(id)
    }

    twostate predicate OthersStay(id: SessionId)
      reads this
    {
      forall other: SessionId :: other != id ==> View(other) == old(View(other))
    }

    constructor ()
      ensures Positive() && forall id: SessionId :: View(id) == INITIAL
    {
      sessionLeaseCounts, exclusiveSessionLeases, sessionLeaseGenerations := map[], map[], map[];
      sessionCleanupRequired, tokens := {}, map[];
    }

    /** Reserves a lease, or throws because of the leases there are. */
    method ReserveSessionLease(id: SessionId, mode: Mode) returns (token: Option<TokenId>)
      requires Positive()
      modifies this
      ensures Positive() && Steps(id, Reserve(mode))
      ensures token.Some? <==> MayReserve(old(View(id)), mode)
      ensures token.Some? ==> InStage(View(id), token.value, Reserved)
    {
      var count := Get(sessionLeaseCounts, id).GetOr(0);
      if mode.Exclusive? && count > 0 {
        return None;
      }
      if mode.Shared? && id in exclusiveSessionLeases {
        return None;
      }
      var reserved := |Get(tokens, id).GetOr([])|;
      tokens := tokens[id := Get(tokens, id).GetOr([]) + [Token(mode, Reserved)]];
      sessionLeaseCounts := sessionLeaseCounts[id := count + 1];
      if mode.Exclusive? {
        exclusiveSessionLeases := exclusiveSessionLeases[id := reserved];
      }
      return Some(reserved);
    }

    /** Counts a lease down, and does not keep a zero. */
    method CountDown(id: SessionId)
      requires Positive()
      modifies this`sessionLeaseCounts
      ensures Positive()
      ensures var count := old(Get(sessionLeaseCounts, id).GetOr(0));
              Get(sessionLeaseCounts, id).GetOr(0) == if count <= 1 then 0 else count - 1
      ensures forall other: SessionId :: other != id ==> Get(sessionLeaseCounts, other) == old(Get(sessionLeaseCounts, other))
    {
      var count := Get(sessionLeaseCounts, id).GetOr(0);
      if count <= 1 {
        sessionLeaseCounts := sessionLeaseCounts - {id};
      } else {
        sessionLeaseCounts := sessionLeaseCounts[id := count - 1];
      }
    }

    /** `releaseSessionLease`; `stage` is what becomes of the token. */
    method ReleaseSessionLease(id: SessionId, token: TokenId, stage: Stage)
      requires Positive() && token < |View(id).tokens|
      modifies this
      ensures Positive() && View(id) == GiveBack(old(View(id)), token, stage) && OthersStay(id)
    {
      CountDown(id);
      if Get(exclusiveSessionLeases, id) == Some(token) {
        exclusiveSessionLeases := exclusiveSessionLeases - {id};
      }
      tokens := tokens[id := SetStage(tokens[id], token, stage)];
    }

    method AcquireFailed(id: SessionId, token: TokenId)
      requires Positive() && InStage(View(id), token, Reserved)
      modifies this
      ensures Positive() && Steps(id, Event.AcquireFailed(token))
    {
      ReleaseSessionLease(id, token, Failed);
    }

    method CreateSessionLease(id: SessionId, token: TokenId)
      requires Positive() && InStage(View(id), token, Reserved)
      modifies this
      ensures Positive() && Steps(id, CreateLease(token))
    {
      var generation := Get(sessionLeaseGenerations, id).GetOr(0);
      sessionLeaseGenerations := sessionLeaseGenerations[id := generation];
      tokens := tokens[id := SetStage(tokens[id], token, Active(generation))];
    }

    /** `release` of an active lease; `detach` says that the server is asked to detach. */
    method Release(id: SessionId, token: TokenId, relinquish: bool, attached: bool) returns (detach: bool)
      requires Positive() && token < |View(id).tokens| && View(id).tokens[token].stage.Active?
      modifies this
      ensures Positive() && Steps(id, Event.Release(token, relinquish, attached))
      ensures detach <==> View(id).tokens[token].stage.Detaching?
    {
      var generation := Get(sessionLeaseGenerations, id).GetOr(0);
      if tokens[id][token].stage.generation != generation {
        tokens := tokens[id := SetStage(tokens[id], token, Invalidated)];
        return false;
      }
      if !attached {
        return false;
      }
      if Get(sessionLeaseCounts, id).GetOr(0) <= 1 {
        tokens := tokens[id := SetStage(tokens[id], token, Detaching(generation, relinquish))];
        return true;
      }
      ReleaseSessionLease(id, token, Released);
      return false;
    }

    method DetachSettled(id: SessionId, token: TokenId, ok: bool)
      requires Positive() && token < |View(id).tokens| && View(id).tokens[token].stage.Detaching?
      modifies this
      ensures Positive() && Steps(id, Event.DetachSettled(token, ok))
    {
      var stage := tokens[id][token].stage;
      if ok {
        ReleaseSessionLease(id, token, Released);
        return;
      }
      if stage.generation != Get(sessionLeaseGenerations, id).GetOr(0) {
        tokens := tokens[id := SetStage(tokens[id], token, Invalidated)];
        return;
      }
      if stage.relinquish {
        ReleaseSessionLease(id, token, Released);
        sessionCleanupRequired := sessionCleanupRequired + {id};
      } else {
        tokens := tokens[id := SetStage(tokens[id], token, Active(stage.generation))];
      }
    }

    ghost function Maps(): Tables
      reads this
    {
      Tables(sessionLeaseCounts, exclusiveSessionLeases, sessionCleanupRequired, sessionLeaseGenerations)
    }

    /** `invalidateSessionLeases` on its four maps. */
    method Invalidate(id: SessionId)
      modifies this`sessionLeaseCounts, this`exclusiveSessionLeases, this`sessionCleanupRequired, this`sessionLeaseGenerations
      ensures TablesInvalidated(old(Maps()), Maps(), {id})
      ensures sessionLeaseCounts == old(sessionLeaseCounts) - {id}
      ensures exclusiveSessionLeases == old(exclusiveSessionLeases) - {id}
      ensures sessionCleanupRequired == old(sessionCleanupRequired) - {id}
      ensures sessionLeaseGenerations == old(sessionLeaseGenerations[id := Get(sessionLeaseGenerations, id).GetOr(0) + 1])
    {
      sessionLeaseCounts := sessionLeaseCounts - {id};
      exclusiveSessionLeases := exclusiveSessionLeases - {id};
      sessionCleanupRequired := sessionCleanupRequired - {id};
      sessionLeaseGenerations := sessionLeaseGenerations[id := Get(sessionLeaseGenerations, id).GetOr(0) + 1];
    }

    method InvalidateSessionLeases(id: SessionId)
      requires Positive()
      modifies this
      ensures Positive() && Steps(id, SessionRemoved)
      ensures sessionLeaseCounts == old(sessionLeaseCounts) - {id} && tokens == old(tokens)
      ensures exclusiveSessionLeases == old(exclusiveSessionLeases) - {id}
      ensures sessionCleanupRequired == old(sessionCleanupRequired) - {id}
      ensures sessionLeaseGenerations == old(sessionLeaseGenerations[id := Get(sessionLeaseGenerations, id).GetOr(0) + 1])
    {
      Invalidate(id);
      AllInvalidated({id});
    }

    twostate predicate InvalidatedIn(ids: set<SessionId>)
      reads this
    {
      forall id: SessionId :: View(id) == if id in ids then SessionLeases.Invalidate(old(View(id))) else old(View(id))
    }

    twostate lemma AllInvalidated(ids: set<SessionId>)
      requires TablesInvalidated(old(Maps()), Maps(), ids) && unchanged(`tokens) && old(Positive())
      ensures Positive() && InvalidatedIn(ids)
    {
      forall id: SessionId ensures View(id) == if id in ids then SessionLeases.Invalidate(old(View(id))) else old(View(id)) {
        assert EntryInvalidated(old(Maps()), Maps(), id, ids);
      }
      forall id | id in sessionLeaseCounts ensures sessionLeaseCounts[id] > 0 {
        assert EntryInvalidated(old(Maps()), Maps(), id, ids);
      }
    }

    /** The loop of `invalidateAllSessionLeases`. */
    method InvalidateEach(ids: set<SessionId>)
      requires Positive()
      modifies this`sessionLeaseCounts, this`exclusiveSessionLeases, this`sessionCleanupRequired, this`sessionLeaseGenerations
      ensures Positive() && InvalidatedIn(ids)
    {
      var remaining := ids;
      ghost var left: set<SessionId> := {};
      while remaining != {}
        invariant left + remaining == ids && left !! remaining
        invariant TablesInvalidated(old(Maps()), Maps(), left)
        decreases |remaining|
      {
        var id :| id in remaining;
        ghost var before := Maps();
        Invalidate(id);
        OneMoreInvalidated(old(Maps()), before, Maps(), left, id);
        left, remaining := left + {id}, remaining - {id};
      }
      assert left == ids;
      AllInvalidated(ids);
    }

    /** What a disconnect does to the leases of all sessions. */
    method InvalidateAllSessionLeases()
      requires Positive()
      modifies this
      ensures Positive() && forall id: SessionId :: View(id) == Step(old(View(id)), Disconnected)
    {
      var ids := sessionLeaseCounts.Keys;
      InvalidateEach(ids);
      label invalidated:
      ForgetCleanups();
      forall id: SessionId ensures View(id) == Step(old(View(id)), Disconnected) {
        assert View(id) == old@invalidated(View(id)).(cleanupRequired := false);
      }
    }

    method ForgetCleanups()
      modifies this`sessionCleanupRequired
      ensures forall id: SessionId :: View(id) == old(View(id)).(cleanupRequired := false)
    {
      sessionCleanupRequired := {};
    }
  }
}
