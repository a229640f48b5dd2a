/**
 Generation-checked publication of model catalogs (packages/ai/src/models.ts) for one provider id, as
 a state machine. A step is one stretch of code between two awaits; what other code does, when store
 mutations settle and when signals abort is arbitrary. Provider objects are named by numbers.
 */
module Publication {
  import opened Prelude

  type Target = nat
  type RefreshId = nat
  type PublicationId = nat

  datatype Model = Model(id: nat, details: string)

  type Catalog = seq<Model>

  /** One provider's refresh; `aborted` is the combined signal of its controller and its caller. */
  datatype Refresh = Refresh(generation: nat, target: Target, aborted: bool)

  datatype Persist = Keep | Delete | Write(entry: Catalog)

  datatype Phase =
    | Queued      // awaits the publication before it
    | Mutating    // awaits the store
    | Refused     // returned false
    | Published   // returned true
    | Failed      // the store threw
  {
    predicate Settled() {
      Refused? || Published? || Failed?
    }
  }

  datatype Publication = Publication(
    refresh: RefreshId,
    persist: Persist,
    update: Option<Catalog>,
    previous: Option<PublicationId>,
    phase: Phase)

  /** What is observable, with the generation of the refresh behind it. */
  datatype Effect =
    | Started(generation: nat, publication: PublicationId)
    | Ended(generation: nat, publication: PublicationId)
    | Updated(generation: nat, publication: PublicationId)

  datatype State = State(
    generation: nat,
    controller: Option<RefreshId>,
    provider: Option<Target>,
    refreshes: seq<Refresh>,
    publications: seq<Publication>,
    chain: Option<PublicationId>,
    store: Option<Catalog>,
    catalogs: map<Target, Catalog>,
    log: seq<Effect>)

  datatype Event =
    | Supersede                                             // without what its caller does next
    | ReplaceProvider(provider: Option<Target>)             // setProvider and deleteProvider
    | PutProvider(provider: Option<Target>)                 // their second half, see StepKeepsRegistrationIff
    | OpenRefresh(generation: nat, target: Target)
    | Abort(refresh: RefreshId)
    | EndRefresh(refresh: RefreshId)
    | Publish(refresh: RefreshId, persist: Persist, update: Option<Catalog>)
    | Resume(publication: PublicationId)
    | StoreSettled(publication: PublicationId, ok: bool, applied: bool)
    | TailSettled(publication: PublicationId)

  // ---------- the steps ----------

  function Aborted(refreshes: seq<Refresh>, refresh: Option<RefreshId>): seq<Refresh> {
    if refresh.None? || refresh.value >= |refreshes| then refreshes
    else refreshes[refresh.value := refreshes[refresh.value].(aborted := true)]
  }

  /** `supersedeProviderRefresh`. */
  function SupersedeStep(s: State): State {
    s.(generation := s.generation + 1, controller := None, refreshes := Aborted(s.refreshes, s.controller))
  }

  /** `beginProviderRefresh` after it superseded; abort listeners may have run in between, and the object
      to refresh was looked up before that. */
  function OpenRefreshStep(s: State, generation: nat, target: Target): State {
    if generation > s.generation then s
    else s.(refreshes := s.refreshes + [Refresh(generation, target, false)], controller := Some(|s.refreshes|))
  }

  function PublishStep(s: State, refresh: RefreshId, persist: Persist, update: Option<Catalog>): State {
    if refresh >= |s.refreshes| then s
    else s.(publications := s.publications + [Publication(refresh, persist, update, s.chain, Queued)],
            chain := Some(|s.publications|))
  }

  /** The check before the store mutation and before the update. */
  predicate Current(refresh: Refresh, generation: nat) {
    !refresh.aborted && refresh.generation == generation
  }

  predicate CanResume(publications: seq<Publication>, p: PublicationId) {
    && p < |publications| && publications[p].phase.Queued?
    && (publications[p].previous.Some? ==>
          publications[p].previous.value < |publications| && publications[publications[p].previous.value].phase.Settled())
  }

  function SetPhase(publications: seq<Publication>, p: PublicationId, phase: Phase): seq<Publication>
    requires p < |publications|
  {
    publications[p := publications[p].(phase := phase)]
  }

  /** The rest of a publication after its store mutation: the second check, then the update. */
  function Conclude(s: State, p: PublicationId): State
    requires p < |s.publications| && s.publications[p].refresh < |s.refreshes|
  {
    var publication := s.publications[p];
    var refresh := s.refreshes[publication.refresh];
    if !Current(refresh, s.generation) then s.(publications := SetPhase(s.publications, p, Refused))
    else
      var published := s.(publications := SetPhase(s.publications, p, Published));
      if publication.update.None? then published
      else published.(catalogs := s.catalogs[refresh.target := publication.update.value],
                      log := s.log + [Updated(refresh.generation, p)])
  }

  function ResumeStep(s: State, p: PublicationId): State {
    if !CanResume(s.publications, p) || s.publications[p].refresh >= |s.refreshes| then s
    else
      var publication := s.publications[p];
      var refresh := s.refreshes[publication.refresh];
      if !Current(refresh, s.generation) then s.(publications := SetPhase(s.publications, p, Refused))
      else if publication.persist.Keep? then Conclude(s, p)
      else s.(publications := SetPhase(s.publications, p, Mutating),
              log := s.log + [Started(refresh.generation, p)])
  }

  /** What a resumed publication asks of the store; nothing when it is refused. */
  function StoreCall(s: State, p: PublicationId): Persist {
    if CanResume(s.publications, p) && Known(s, p) && Current(s.refreshes[s.publications[p].refresh], s.generation)
    then s.publications[p].persist
    else Keep
  }

  /** The second check of a publication lets it update. */
  predicate MayUpdate(s: State, p: PublicationId) {
    Known(s, p) && Current(s.refreshes[s.publications[p].refresh], s.generation)
  }

  predicate Known(s: State, p: PublicationId) {
    p < |s.publications| && s.publications[p].refresh < |s.refreshes|
  }

  function Persisted(store: Option<Catalog>, persist: Persist): Option<Catalog> {
    match persist
    case Keep => store
    case Delete => None
    case Write(entry) => Some(entry)
  }

  /** A store mutation settles; one that throws may have been applied or not. */
  function StoreSettledStep(s: State, p: PublicationId, ok: bool, applied: bool): State {
    if p >= |s.publications| || !s.publications[p].phase.Mutating? || s.publications[p].refresh >= |s.refreshes| then s
    else
      var publication := s.publications[p];
      var ended := s.(store := if ok || applied then Persisted(s.store, publication.persist) else s.store,
                      log := s.log + [Ended(s.refreshes[publication.refresh].generation, p)]);
      if ok then Conclude(ended, p) else ended.(publications := SetPhase(s.publications, p, Failed))
  }

  function Step(s: State, event: Event): State {
    match event
    case Supersede => SupersedeStep(s)
    case ReplaceProvider(provider) => SupersedeStep(s).(provider := provider)
    case PutProvider(provider) => s.(provider := provider)
    case OpenRefresh(generation, target) => OpenRefreshStep(s, generation, target)
    case Abort(refresh) => s.(refreshes := Aborted(s.refreshes, Some(refresh)))
    case EndRefresh(refresh) => if s.controller == Some(refresh) then s.(controller := None) else s
    case Publish(refresh, persist, update) => PublishStep(s, refresh, persist, update)
    case Resume(p) => ResumeStep(s, p)
    case StoreSettled(p, ok, applied) => StoreSettledStep(s, p, ok, applied)
    case TailSettled(p) =>
      if s.chain == Some(p) && p < |s.publications| && s.publications[p].phase.Settled() then s.(chain := None) else s
  }

  function Run(s: State, events: seq<Event>): State
    decreases |events|
  {
    if events == [] then s else Run(Step(s, events[0]), events[1..])
  }

  // ---------- what every step keeps ----------

  /** The chain is a queue: a publication leaves it only after all earlier ones have settled. */
  ghost predicate ChainInv(publications: seq<Publication>, chain: Option<PublicationId>) {
    && (chain.Some? ==> chain.value == |publications| - 1)
    && (chain.None? ==> AllSettled(publications, |publications|))
    && (forall p :: 0 <= p < |publications| ==> Linked(publications, p))
    && (forall p :: 0 <= p < |publications| && !publications[p].phase.Queued? ==> AllSettled(publications, p))
  }

  ghost predicate AllSettled(publications: seq<Publication>, before: int) {
    forall q :: 0 <= q < before && q < |publications| ==> publications[q].phase.Settled()
  }

  ghost predicate Linked(publications: seq<Publication>, p: nat)
    requires p < |publications|
  {
    if publications[p].previous.Some? then publications[p].previous.value == p - 1 else AllSettled(publications, p)
  }

  ghost predicate Owned(publications: seq<Publication>, refreshes: seq<Refresh>, generation: nat) {
    && (forall p :: 0 <= p < |publications| ==> publications[p].refresh < |refreshes|)
    && (forall r :: 0 <= r < |refreshes| ==> refreshes[r].generation <= generation)
  }

  /** Store mutations are bracketed one by one, and updates lie outside them. */
  datatype Bracket = Free | Busy(publication: PublicationId) | Overlap

  function BracketAt(log: seq<Effect>, n: nat): Bracket
    requires n <= |log|
  {
    if n == 0 then Free else AdvanceBracket(BracketAt(log, n - 1), log[n - 1])
  }

  function Bracketed(log: seq<Effect>): Bracket {
    BracketAt(log, |log|)
  }

  function AdvanceBracket(before: Bracket, effect: Effect): Bracket {
    match effect
    case Started(_, p) => if before.Free? then Busy(p) else Overlap
    case Ended(_, p) => if before == Busy(p) then Free else Overlap
    case Updated(_, _) => if before.Free? then Free else Overlap
  }

  /** The log is bracketed, and open exactly while a publication mutates the store. */
  ghost predicate BracketInv(log: seq<Effect>, publications: seq<Publication>) {
    match Bracketed(log)
    case Overlap => false
    case Free => forall p :: 0 <= p < |publications| ==> !publications[p].phase.Mutating?
    case Busy(open) => open < |publications| && publications[open].phase.Mutating?
  }

  /** Effects happen in the order of their generations, none ahead of the current one. */
  ghost predicate InGenerationOrder(log: seq<Effect>) {
    forall i, j :: 0 <= i < j < |log| ==> log[i].generation <= log[j].generation
  }

  ghost predicate OrderInv(log: seq<Effect>, publications: seq<Publication>, refreshes: seq<Refresh>, generation: nat) {
    && InGenerationOrder(log)
    && (forall i :: 0 <= i < |log| ==> log[i].generation <= generation)
    && (forall p :: 0 <= p < |publications| && publications[p].phase.Mutating? && publications[p].refresh < |refreshes| ==>
          forall i :: 0 <= i < |log| ==> log[i].generation <= refreshes[publications[p].refresh].generation)
  }

  ghost predicate Inv(s: State) {
    && ChainInv(s.publications, s.chain)
    && Owned(s.publications, s.refreshes, s.generation)
    && BracketInv(s.log, s.publications)
    && OrderInv(s.log, s.publications, s.refreshes, s.generation)
  }

  ghost predicate SameGenerations(before: seq<Refresh>, after: seq<Refresh>) {
    |after| >= |before| && forall r :: 0 <= r < |before| ==> after[r].generation == before[r].generation
  }

  lemma SignalsKeep(s: State, t: State)
    requires Inv(s) && t.publications == s.publications && t.chain == s.chain && t.log == s.log
    requires SameGenerations(s.refreshes, t.refreshes) && t.generation >= s.generation
    requires forall r :: |s.refreshes| <= r < |t.refreshes| ==> t.refreshes[r].generation <= t.generation
    ensures Inv(t)
  {
  }

  lemma PublishKeepsChain(publications: seq<Publication>, chain: Option<PublicationId>, added: Publication)
    requires ChainInv(publications, chain) && added.phase.Queued? && added.previous == chain
    ensures ChainInv(publications + [added], Some(|publications|))
  {
    var after := publications + [added];
    assert forall q :: 0 <= q < |publications| ==> after[q] == publications[q];
    forall p | 0 <= p < |after| ensures Linked(after, p) {
      if p < |publications| {
        assert Linked(publications, p);
      }
    }
    forall p | 0 <= p < |after| && !after[p].phase.Queued? ensures AllSettled(after, p) {
      assert AllSettled(publications, p);
    }
  }

  lemma PublishKeeps(s: State, refresh: RefreshId, persist: Persist, update: Option<Catalog>)
    requires Inv(s)
    ensures Inv(PublishStep(s, refresh, persist, update))
  {
    if refresh < |s.refreshes| {
      PublishKeepsChain(s.publications, s.chain, Publication(refresh, persist, update, s.chain, Queued));
    }
  }

  /** Only the head of the queue moves, and all before it have settled. */
  lemma HeadMoves(publications: seq<Publication>, chain: Option<PublicationId>, p: PublicationId, phase: Phase)
    requires ChainInv(publications, chain) && p < |publications| && !publications[p].phase.Settled() && !phase.Queued?
    requires publications[p].phase.Mutating? || CanResume(publications, p)
    ensures ChainInv(SetPhase(publications, p, phase), chain)
    ensures AllSettled(publications, p)
    ensures forall q :: p < q < |publications| ==> publications[q].phase.Queued?
  {
    var after := SetPhase(publications, p, phase);
    assert Linked(publications, p);
    if publications[p].phase.Queued? && publications[p].previous.Some? {
      assert publications[p - 1].phase.Settled();
      assert AllSettled(publications, p - 1);
    }
    forall q | 0 <= q < |publications| ensures Linked(after, q) && (!after[q].phase.Queued? ==> AllSettled(after, q)) {
      assert Linked(publications, q);
    }
  }

  lemma {:induction false} BracketAsBefore(log: seq<Effect>, effect: Effect, n: nat)
    requires n <= |log|
    ensures BracketAt(log + [effect], n) == BracketAt(log, n)
    decreases n
  {
    if n > 0 {
      BracketAsBefore(log, effect, n - 1);
    }
  }

  lemma LogOne(log: seq<Effect>, effect: Effect)
    ensures Bracketed(log + [effect]) == AdvanceBracket(Bracketed(log), effect)
  {
    BracketAsBefore(log, effect, |log|);
  }

  lemma NothingMutates(s: State, p: PublicationId)
    requires Inv(s) && p < |s.publications| && s.publications[p].phase.Queued? && CanResume(s.publications, p)
    ensures Bracketed(s.log).Free?
  {
    HeadMoves(s.publications, s.chain, p, Refused);
  }

  lemma ResumeKeeps(s: State, p: PublicationId)
    requires Inv(s)
    ensures Inv(ResumeStep(s, p))
  {
    if CanResume(s.publications, p) {
      var refresh := s.refreshes[s.publications[p].refresh];
      HeadMoves(s.publications, s.chain, p, Refused);
      HeadMoves(s.publications, s.chain, p, Mutating);
      HeadMoves(s.publications, s.chain, p, Published);
      NothingMutates(s, p);
      LogOne(s.log, Started(refresh.generation, p));
      LogOne(s.log, Updated(refresh.generation, p));
    }
  }

  lemma StoreSettledKeeps(s: State, p: PublicationId, ok: bool, applied: bool)
    requires Inv(s)
    ensures Inv(StoreSettledStep(s, p, ok, applied))
  {
    if p < |s.publications| && s.publications[p].phase.Mutating? {
      var generation := s.refreshes[s.publications[p].refresh].generation;
      var ended := s.log + [Ended(generation, p)];
      HeadMoves(s.publications, s.chain, p, Refused);
      HeadMoves(s.publications, s.chain, p, Published);
      HeadMoves(s.publications, s.chain, p, Failed);
      assert Bracketed(s.log) == Busy(p);
      LogOne(s.log, Ended(generation, p));
      LogOne(ended, Updated(generation, p));
    }
  }

  lemma StepKeepsInv(s: State, event: Event)
    requires Inv(s)
    ensures Inv(Step(s, event))
  {
    match event {
      case Supersede => SignalsKeep(s, Step(s, event));
      case ReplaceProvider(_) => SignalsKeep(s, Step(s, event));
      case PutProvider(_) => SignalsKeep(s, Step(s, event));
      case OpenRefresh(_, _) => SignalsKeep(s, Step(s, event));
      case Abort(_) => SignalsKeep(s, Step(s, event));
      case EndRefresh(_) => SignalsKeep(s, Step(s, event));
      case Publish(refresh, persist, update) => PublishKeeps(s, refresh, persist, update);
      case Resume(p) => ResumeKeeps(s, p);
      case StoreSettled(p, ok, applied) => StoreSettledKeeps(s, p, ok, applied);
      case TailSettled(p) =>
    }
  }

  lemma {:induction false} RunKeepsInv(s: State, events: seq<Event>)
    requires Inv(s)
    ensures Inv(Run(s, events))
    decreases |events|
  {
    if events != [] {
      StepKeepsInv(s, events[0]);
      RunKeepsInv(Step(s, events[0]), events[1..]);
    }
  }
}
