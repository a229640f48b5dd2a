/**
 `ModelsImpl` of packages/ai/src/models.ts with its maps. Each method is one stretch of code between
 two awaits, proved equal to the step of `Publication` it stands for on its provider id, and to leave
 all other ids alone. Refreshes and publications, which the code keeps in closures, are rows.
 */
module ModelsImpl {
  import opened Prelude
  import opened Publication

  type ProviderId = nat

  function Get<T>(table: map<ProviderId, T>, id: ProviderId): Option<T> {
    if id in table then Some(table[id]) else None
  }

  function Rows<T>(table: map<ProviderId, seq<T>>, id: ProviderId): seq<T> {
    Get(table, id).GetOr([])
  }

  /** The maps that a superseding changes. */
  datatype RefreshTables = RefreshTables(
    generations: map<ProviderId, nat>,
    controllers: map<ProviderId, RefreshId>,
    rows: map<ProviderId, seq<Refresh>>)

  /** The entries of one id have been superseded, or are as they were. */
  predicate EntrySuperseded(was: RefreshTables, now: RefreshTables, id: ProviderId, ids: set<ProviderId>) {
    if id in ids then
      && Get(now.generations, id).GetOr(0) == Get(was.generations, id).GetOr(0) + 1
      && Get(now.controllers, id) == None
      && Rows(now.rows, id) == Aborted(Rows(was.rows, id), Get(was.controllers, id))
    else
      && Get(now.generations, id).GetOr(0) == Get(was.generations, id).GetOr(0)
      && Get(now.controllers, id) == Get(was.controllers, id)
      && Rows(now.rows, id) == Rows(was.rows, id)
  }

  ghost predicate TablesSuperseded(was: RefreshTables, now: RefreshTables, ids: set<ProviderId>) {
    forall id: ProviderId :: EntrySuperseded(was, now, id, ids)
  }

  lemma OneMoreSuperseded(was: RefreshTables, before: RefreshTables, now: RefreshTables, left: set<ProviderId>, id: ProviderId)
    requires TablesSuperseded(was, before, left) && TablesSuperseded(before, now, {id}) && id !in left
    ensures TablesSuperseded(was, now, left + {id})
  {
    forall other: ProviderId ensures EntrySuperseded(was, now, other, left + {id}) {
      assert EntrySuperseded(was, before, other, left) && EntrySuperseded(before, now, other, {id});
    }
  }

  class ModelsImpl {
    var providers: map<ProviderId, Target>
    var refreshGenerations: map<ProviderId, nat>
    var refreshControllers: map<ProviderId, RefreshId>
    var publicationChains: map<ProviderId, PublicationId>
    var modelsStore: map<ProviderId, Catalog>
    var refreshes: map<ProviderId, seq<Refresh>>
    var publications: map<ProviderId, seq<Publication>>
    var catalogs: map<ProviderId, map<Target, Catalog>>
    ghost var logs: map<ProviderId, seq<Effect>>

    ghost function View(id: ProviderId): State
      reads this
    {
      State(Get(refreshGenerations, id).GetOr(0), Get(refreshControllers, id), Get(providers, id), Rows(refreshes, id),
            Rows(publications, id), Get(publicationChains, id), Get(modelsStore, id), Get(catalogs, id).GetOr(map[]),
            Rows(logs, id))
    }

    ghost predicate Valid(id: ProviderId)
      reads this
    {
      Inv(View(id))
    }

    /** The method takes one step on the id and none on any other. */
    twostate predicate Steps(id: ProviderId, event: Event)
      reads this
    {
      View(id) == Step(old(View(id)), event) && forall other: ProviderId :: other != id ==> View(other) == old(View(other))
    }

    /** So the invariant of every id survives every method. */
    twostate lemma StaysValid(id: ProviderId, event: Event, other: ProviderId)
      requires Steps(id, event) && old(Valid(other))
      ensures Valid(other)
    {
      if other == id {
        StepKeepsInv(old(View(id)), event);
      }
    }

    constructor ()
      ensures forall id: ProviderId :: Valid(id) && View(id) == State(0, None, None, [], [], None, None, map[], [])
    {
      providers, refreshGenerations, refreshControllers, publicationChains := map[], map[], map[], map[];
      modelsStore, refreshes, publications, catalogs, logs := map[], map[], map[], map[], map[];
    }

    ghost function Tables(): RefreshTables
      reads this
    {
      RefreshTables(refreshGenerations, refreshControllers, refreshes)
    }

    /** `supersedeProviderRefresh` on its three maps. */
    method Supersede(id: ProviderId) returns (generation: nat)
      modifies this`refreshGenerations, this`refreshControllers, this`refreshes
      ensures generation == old(Get(refreshGenerations, id).GetOr(0)) + 1 == Get(refreshGenerations, id).GetOr(0)
      ensures TablesSuperseded(old(Tables()), Tables(), {id})
    {
      generation := Get(refreshGenerations, id).GetOr(0) + 1;
      refreshGenerations := refreshGenerations[id := generation];
      if id in refreshControllers {
        var previous := refreshControllers[id];
        refreshControllers := refreshControllers - {id};
        refreshes := refreshes[id := Aborted(Rows(refreshes, id), Some(previous))];
      }
    }

    method SupersedeProviderRefresh(id: ProviderId) returns (generation: nat)
      modifies this`refreshGenerations, this`refreshControllers, this`refreshes
      ensures Steps(id, Event.Supersede) && generation == View(id).generation
    {
      generation := Supersede(id);
      AllSuperseded({id});
    }

    /** `beginProviderRefresh` once it has superseded. */
    method OpenRefresh(id: ProviderId, generation: nat, target: Target) returns (refresh: RefreshId)
      requires generation <= View(id).generation
      modifies this
      ensures Steps(id, Event.OpenRefresh(generation, target))
      ensures View(id).controller == Some(refresh) && View(id).refreshes[refresh].generation == generation
    {
      refresh := |Rows(refreshes, id)|;
      refreshes := refreshes[id := Rows(refreshes, id) + [Refresh(generation, target, false)]];
      refreshControllers := refreshControllers[id := refresh];
    }

    method SetProvider(id: ProviderId, provider: Target)
      modifies this
      ensures Steps(id, ReplaceProvider(Some(provider)))
    {
      var _ := SupersedeProviderRefresh(id);
      providers := providers[id := provider];
    }

    method DeleteProvider(id: ProviderId)
      modifies this
      ensures Steps(id, ReplaceProvider(None))
    {
      var _ := SupersedeProviderRefresh(id);
      providers := providers - {id};
    }

    twostate predicate SupersededIn(ids: set<ProviderId>)
      reads this
    {
      forall id: ProviderId :: View(id) == if id in ids then SupersedeStep(old(View(id))) else old(View(id))
    }

    twostate lemma AllSuperseded(ids: set<ProviderId>)
      requires TablesSuperseded(old(Tables()), Tables(), ids)
      requires unchanged(`providers) && unchanged(`publicationChains) && unchanged(`modelsStore)
      requires unchanged(`publications) && unchanged(`catalogs) && unchanged(`logs)
      ensures SupersededIn(ids)
    {
      forall id: ProviderId ensures View(id) == if id in ids then SupersedeStep(old(View(id))) else old(View(id)) {
        assert EntrySuperseded(old(Tables()), Tables(), id, ids);
      }
    }

    method SupersedeAll(ids: set<ProviderId>)
      modifies this`refreshGenerations, this`refreshControllers, this`refreshes
      ensures SupersededIn(ids)
    {
      var remaining := ids;
      ghost var left: set<ProviderId> := {};
      while remaining != {}
        invariant left + remaining == ids && left !! remaining
        invariant TablesSuperseded(old(Tables()), Tables(), left)
        decreases |remaining|
      {
        var id :| id in remaining;
        ghost var before := Tables();
        var _ := Supersede(id);
        OneMoreSuperseded(old(Tables()), before, Tables(), left, id);
        left, remaining := left + {id}, remaining - {id};
      }
      assert left == ids;
      AllSuperseded(ids);
    }

    /** Supersedes every id that has a provider or a refresh, and forgets all providers. */
    method ClearProviders()
      modifies this
      ensures providers == map[]
      ensures forall id: ProviderId :: View(id) == if id in old(providers) || id in old(refreshControllers)
                                                   then Step(old(View(id)), ReplaceProvider(None)) else old(View(id))
    {
      var ids := providers.Keys + refreshControllers.Keys;
      SupersedeAll(ids);
      label superseded:
      ForgetProviders();
      forall id: ProviderId
        ensures View(id) == if id in ids then Step(old(View(id)), ReplaceProvider(None)) else old(View(id))
      {
        assert View(id) == old@superseded(View(id)).(provider := None);
      }
    }

    method ForgetProviders()
      modifies this`providers
      ensures providers == map[]
      ensures forall id: ProviderId :: View(id) == old(View(id)).(provider := None)
    {
      providers := map[];
    }

    /** The signal of a refresh aborts. */
    method AbortRefresh(id: ProviderId, refresh: RefreshId)
      requires refresh < |View(id).refreshes|
      modifies this
      ensures Steps(id, Abort(refresh))
    {
      refreshes := refreshes[id := Aborted(Rows(refreshes, id), Some(refresh))];
    }

    /** The `finally` of a refresh. */
    method EndRefresh(id: ProviderId, refresh: RefreshId)
      modifies this
      ensures Steps(id, Event.EndRefresh(refresh))
    {
      if Get(refreshControllers, id) == Some(refresh) {
        refreshControllers := refreshControllers - {id};
      }
    }

    /** The synchronous part of `publishProviderModels`. */
    method PublishProviderModels(id: ProviderId, refresh: RefreshId, persist: Persist, update: Option<Catalog>)
      returns (tail: PublicationId)
      requires refresh < |View(id).refreshes|
      modifies this
      ensures Steps(id, Publish(refresh, persist, update))
      ensures View(id).chain == Some(tail) && View(id).publications[tail].previous == old(View(id)).chain
    {
      var previous := Get(publicationChains, id);
      tail := |Rows(publications, id)|;
      publications := publications[id := Rows(publications, id) + [Publication(refresh, persist, update, previous, Queued)]];
      publicationChains := publicationChains[id := tail];
    }

    /** From the settling of the previous publication to the store mutation, or to the end. `store`
        names the call that is made to the models store. */
    method ResumePublication(id: ProviderId, p: PublicationId) returns (store: Persist)
      requires CanResume(View(id).publications, p) && Known(View(id), p)
      modifies this
      ensures Steps(id, Resume(p))
      ensures store == StoreCall(old(View(id)), p)
      ensures modelsStore == old(modelsStore)
    {
      var publication := publications[id][p];
      var refresh := refreshes[id][publication.refresh];
      if refresh.aborted || Get(refreshGenerations, id).GetOr(0) != refresh.generation {
        publications := publications[id := SetPhase(publications[id], p, Refused)];
        return Keep;
      }
      match publication.persist {
        case Keep => var _ := UpdateProvider(id, p);
        case _ =>
          publications := publications[id := SetPhase(publications[id], p, Mutating)];
          logs := logs[id := Rows(logs, id) + [Started(refresh.generation, p)]];
      }
      return publication.persist;
    }

    /** The second check and the update. */
    method UpdateProvider(id: ProviderId, p: PublicationId) returns (published: bool)
      requires Known(View(id), p)
      modifies this
      ensures View(id) == Conclude(old(View(id)), p)
      ensures published <==> MayUpdate(old(View(id)), p)
      ensures forall other: ProviderId :: other != id ==> View(other) == old(View(other))
      ensures modelsStore == old(modelsStore)
    {
      var publication := publications[id][p];
      var refresh := refreshes[id][publication.refresh];
      if refresh.aborted || Get(refreshGenerations, id).GetOr(0) != refresh.generation {
        publications := publications[id := SetPhase(publications[id], p, Refused)];
        return false;
      }
      publications := publications[id := SetPhase(publications[id], p, Published)];
      if publication.update.Some? {
        catalogs := catalogs[id := Get(catalogs, id).GetOr(map[])[refresh.target := publication.update.value]];
        logs := logs[id := Rows(logs, id) + [Updated(refresh.generation, p)]];
      }
      return true;
    }

    method MutateStore(id: ProviderId, persist: Persist)
      modifies this`modelsStore
      ensures View(id) == old(View(id)).(store := Persisted(old(View(id)).store, persist))
      ensures forall other: ProviderId :: other != id ==> View(other) == old(View(other))
    {
      match persist {
        case Write(entry) => modelsStore := modelsStore[id := entry];
        case Delete => modelsStore := modelsStore - {id};
        case Keep =>
      }
    }

    /** The store as the mutation leaves it, and the end of the mutation. */
    method EndMutation(id: ProviderId, p: PublicationId, applied: bool)
      requires Known(View(id), p)
      modifies this`modelsStore, this`logs
      ensures var was := old(View(id));
              View(id) == was.(store := if applied then Persisted(was.store, was.publications[p].persist) else was.store,
                               log := was.log + [Ended(was.refreshes[was.publications[p].refresh].generation, p)])
      ensures forall other: ProviderId :: other != id ==> View(other) == old(View(other))
    {
      var publication := publications[id][p];
      if applied {
        MutateStore(id, publication.persist);
      }
      logs := logs[id := Rows(logs, id) + [Ended(refreshes[id][publication.refresh].generation, p)]];
    }

    /** The models store has answered; `ok` says that it did not throw. */
    method MutationSettled(id: ProviderId, p: PublicationId, ok: bool, applied: bool) returns (published: bool)
      requires Known(View(id), p) && View(id).publications[p].phase.Mutating?
      modifies this
      ensures Steps(id, StoreSettled(p, ok, applied))
      ensures published <==> ok && MayUpdate(old(View(id)), p)
      ensures published ==> Get(modelsStore, id) == Persisted(old(View(id)).store, old(View(id)).publications[p].persist)
    {
      EndMutation(id, p, ok || applied);
      if ok {
        published := UpdateProvider(id, p);
      } else {
        publications := publications[id := SetPhase(publications[id], p, Failed)];
        return false;
      }
    }

    /** The tail's own continuation, which drops it from the chains when it is still the last. */
    method TailSettled(id: ProviderId, p: PublicationId)
      requires p < |View(id).publications| && View(id).publications[p].phase.Settled()
      modifies this
      ensures Steps(id, Event.TailSettled(p))
    {
      if Get(publicationChains, id) == Some(p) {
        publicationChains := publicationChains - {id};
      }
    }
  }
}
