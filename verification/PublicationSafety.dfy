/** What holds in every run of the publication machine. */
module PublicationSafety {
  import opened Prelude
  import opened Publication

  function Initial(store: Option<Catalog>, catalogs: map<Target, Catalog>): State {
    State(0, None, None, [], [], None, store, catalogs, [])
  }

  /** Store mutations never overlap, and no update falls inside one. */
  lemma MutationsNeverOverlap(store: Option<Catalog>, catalogs: map<Target, Catalog>, events: seq<Event>)
    ensures var s := Run(Initial(store, catalogs), events);
            && Bracketed(s.log) != Overlap
            && (forall p, q | 0 <= p < |s.publications| && 0 <= q < |s.publications| ::
                  (s.publications[p].phase.Mutating? && s.publications[q].phase.Mutating?) ==> p == q)
  {
    RunKeepsInv(Initial(store, catalogs), events);
    var s := Run(Initial(store, catalogs), events);
    forall p, q | 0 <= p < |s.publications| && 0 <= q < |s.publications|
                  && s.publications[p].phase.Mutating? && s.publications[q].phase.Mutating? ensures p == q
    {
      assert AllSettled(s.publications, p) && AllSettled(s.publications, q);
    }
  }

  /** Store mutations start and end, and updates happen, in the order of their generations. */
  lemma EffectsInGenerationOrder(store: Option<Catalog>, catalogs: map<Target, Catalog>, events: seq<Event>)
    ensures var s := Run(Initial(store, catalogs), events);
            InGenerationOrder(s.log) && forall i :: 0 <= i < |s.log| ==> s.log[i].generation <= s.generation
  {
    RunKeepsInv(Initial(store, catalogs), events);
  }

  /** From `mark` on every effect is of a newer generation, except the end of a mutation that was
      already under way. */
  ghost predicate Silent(log: seq<Effect>, mark: nat, generation: nat, open: Bracket) {
    forall i :: mark <= i < |log| ==>
                  log[i].generation > generation || (log[i].Ended? && open == Busy(log[i].publication))
  }

  ghost predicate OnlyNewerMutates(publications: seq<Publication>, refreshes: seq<Refresh>, generation: nat, open: Bracket) {
    forall p :: 0 <= p < |publications| && publications[p].phase.Mutating? && publications[p].refresh < |refreshes| ==>
                  refreshes[publications[p].refresh].generation > generation || open == Busy(p)
  }

  lemma SignalsStaySilent(before: seq<Refresh>, after: seq<Refresh>, publications: seq<Publication>, current: nat,
                          generation: nat, open: Bracket)
    requires Owned(publications, before, current) && SameGenerations(before, after)
    requires OnlyNewerMutates(publications, before, generation, open)
    ensures OnlyNewerMutates(publications, after, generation, open)
  {
  }

  lemma SilentOneMore(log: seq<Effect>, effect: Effect, mark: nat, generation: nat, open: Bracket)
    requires Silent(log, mark, generation, open)
    requires effect.generation > generation || (effect.Ended? && open == Busy(effect.publication))
    ensures Silent(log + [effect], mark, generation, open)
  {
  }

  lemma PhaseStaysNewer(publications: seq<Publication>, refreshes: seq<Refresh>, p: PublicationId, phase: Phase,
                        generation: nat, open: Bracket)
    requires OnlyNewerMutates(publications, refreshes, generation, open) && p < |publications|
    requires phase.Mutating? && publications[p].refresh < |refreshes| ==>
               refreshes[publications[p].refresh].generation > generation
    ensures OnlyNewerMutates(SetPhase(publications, p, phase), refreshes, generation, open)
  {
  }

  /** The log goes on, still silent about the generation and older ones. */
  ghost predicate SilentOn(before: seq<Effect>, t: State, mark: nat, generation: nat, open: Bracket) {
    && |before| <= |t.log| && before == t.log[..|before|]
    && Silent(t.log, mark, generation, open) && OnlyNewerMutates(t.publications, t.refreshes, generation, open)
  }

  lemma ConcludeStaysSilent(s: State, p: PublicationId, mark: nat, generation: nat, open: Bracket)
    requires Known(s, p) && generation < s.generation
    requires Silent(s.log, mark, generation, open) && OnlyNewerMutates(s.publications, s.refreshes, generation, open)
    ensures SilentOn(s.log, Conclude(s, p), mark, generation, open)
  {
    var refresh := s.refreshes[s.publications[p].refresh];
    PhaseStaysNewer(s.publications, s.refreshes, p, Refused, generation, open);
    PhaseStaysNewer(s.publications, s.refreshes, p, Published, generation, open);
    if Current(refresh, s.generation) {
      SilentOneMore(s.log, Updated(refresh.generation, p), mark, generation, open);
    }
  }

  lemma ResumeStaysSilent(s: State, p: PublicationId, mark: nat, generation: nat, open: Bracket)
    requires Inv(s) && generation < s.generation
    requires Silent(s.log, mark, generation, open) && OnlyNewerMutates(s.publications, s.refreshes, generation, open)
    ensures SilentOn(s.log, ResumeStep(s, p), mark, generation, open)
  {
    if CanResume(s.publications, p) {
      var refresh := s.refreshes[s.publications[p].refresh];
      PhaseStaysNewer(s.publications, s.refreshes, p, Refused, generation, open);
      if Current(refresh, s.generation) {
        ConcludeStaysSilent(s, p, mark, generation, open);
        PhaseStaysNewer(s.publications, s.refreshes, p, Mutating, generation, open);
        SilentOneMore(s.log, Started(refresh.generation, p), mark, generation, open);
      }
    }
  }

  lemma SettleStaysSilent(s: State, p: PublicationId, ok: bool, applied: bool, mark: nat, generation: nat, open: Bracket)
    requires Inv(s) && generation < s.generation
    requires Silent(s.log, mark, generation, open) && OnlyNewerMutates(s.publications, s.refreshes, generation, open)
    ensures SilentOn(s.log, StoreSettledStep(s, p, ok, applied), mark, generation, open)
  {
    if p < |s.publications| && s.publications[p].phase.Mutating? {
      var refresh := s.refreshes[s.publications[p].refresh];
      var ended := s.(store := if ok || applied then Persisted(s.store, s.publications[p].persist) else s.store,
                      log := s.log + [Ended(refresh.generation, p)]);
      SilentOneMore(s.log, Ended(refresh.generation, p), mark, generation, open);
      PhaseStaysNewer(s.publications, s.refreshes, p, Failed, generation, open);
      ConcludeStaysSilent(ended, p, mark, generation, open);
      ExtendsOn(s.log, ended.log, Conclude(ended, p).log);
    }
  }

  lemma ExtendsOn(first: seq<Effect>, second: seq<Effect>, third: seq<Effect>)
    requires |first| <= |second| <= |third| && first == second[..|first|] && second == third[..|second|]
    ensures first == third[..|first|]
  {
  }

  lemma PublishStaysSilent(s: State, refresh: RefreshId, persist: Persist, update: Option<Catalog>, mark: nat, generation: nat, open: Bracket)
    requires Silent(s.log, mark, generation, open) && OnlyNewerMutates(s.publications, s.refreshes, generation, open)
    ensures SilentOn(s.log, PublishStep(s, refresh, persist, update), mark, generation, open)
  {
  }

  lemma StepStaysSilent(s: State, event: Event, mark: nat, generation: nat, open: Bracket)
    requires Inv(s) && generation < s.generation && mark <= |s.log|
    requires Silent(s.log, mark, generation, open) && OnlyNewerMutates(s.publications, s.refreshes, generation, open)
    ensures generation < Step(s, event).generation && SilentOn(s.log, Step(s, event), mark, generation, open)
  {
    if event.Resume? {
      ResumeStaysSilent(s, event.publication, mark, generation, open);
    } else if event.StoreSettled? {
      SettleStaysSilent(s, event.publication, event.ok, event.applied, mark, generation, open);
    } else if event.Publish? {
      PublishStaysSilent(s, event.refresh, event.persist, event.update, mark, generation, open);
    } else {
      SignalsStaySilent(s.refreshes, Step(s, event).refreshes, s.publications, s.generation, generation, open);
      assert s.log == s.log[..|s.log|];
    }
  }

  lemma {:induction false} RunStaysSilent(s: State, events: seq<Event>, mark: nat, generation: nat, open: Bracket)
    requires Inv(s) && generation < s.generation && mark <= |s.log|
    requires Silent(s.log, mark, generation, open) && OnlyNewerMutates(s.publications, s.refreshes, generation, open)
    ensures var t := Run(s, events);
            Silent(t.log, mark, generation, open) && |s.log| <= |t.log| && s.log == t.log[..|s.log|]
    decreases |events|
  {
    if events != [] {
      StepKeepsInv(s, events[0]);
      StepStaysSilent(s, events[0], mark, generation, open);
      RunStaysSilent(Step(s, events[0]), events[1..], mark, generation, open);
      ExtendsOn(s.log, Step(s, events[0]).log, Run(s, events).log);
    }
  }

  /** Once a generation is superseded, nothing it published reaches the store or memory any more, in
      any continuation, but for the end of the one mutation that may be under way. */
  lemma SupersededStaysSilent(s: State, events: seq<Event>, generation: nat)
    requires Inv(s) && generation < s.generation
    ensures var t := Run(s, events);
            && |s.log| <= |t.log| && s.log == t.log[..|s.log|]
            && Silent(t.log, |s.log|, generation, Bracketed(s.log))
  {
    forall p | 0 <= p < |s.publications| && s.publications[p].phase.Mutating? ensures Bracketed(s.log) == Busy(p) {
      var open := Bracketed(s.log).publication;
      assert AllSettled(s.publications, open) && AllSettled(s.publications, p);
    }
    RunStaysSilent(s, events, |s.log|, generation, Bracketed(s.log));
  }

  /** A catalog in memory changes only while the refresh behind the change is current and its signal
      has not aborted, and only after what it persists is in the store. */
  lemma UpdatesAreGuarded(s: State, event: Event)
    requires Inv(s) && Step(s, event).catalogs != s.catalogs
    ensures event.Resume? || (event.StoreSettled? && event.ok)
    ensures event.publication < |s.publications|
    ensures var publication := s.publications[event.publication];
            var refresh := s.refreshes[publication.refresh];
            && refresh.generation == s.generation && !refresh.aborted
            && publication.update.Some?
            && Step(s, event).catalogs == s.catalogs[refresh.target := publication.update.value]
            && (publication.persist.Write? ==> Step(s, event).store == Some(publication.persist.entry))
            && (publication.persist.Delete? ==> Step(s, event).store == None)
  {
  }

  /** The store changes only at the end of a mutation, and to what that publication persists. */
  lemma StoreChangesAreMutations(s: State, event: Event)
    requires Inv(s) && Step(s, event).store != s.store
    ensures event.StoreSettled? && Bracketed(s.log) == Busy(event.publication)
    ensures event.publication < |s.publications|
    ensures Step(s, event).store == Persisted(s.store, s.publications[event.publication].persist)
  {
    var open := Bracketed(s.log).publication;
    assert AllSettled(s.publications, open) && AllSettled(s.publications, event.publication);
  }

  // ---------- each publication acts once ----------

  /** The effects of one publication. */
  function EffectsOf(log: seq<Effect>, p: PublicationId): seq<Effect> {
    EffectsAmong(log, |log|, p)
  }

  function EffectsAmong(log: seq<Effect>, n: nat, p: PublicationId): seq<Effect>
    requires n <= |log|
  {
    if n == 0 then [] else EffectsAmong(log, n - 1, p) + if log[n - 1].publication == p then [log[n - 1]] else []
  }

  /** What a publication has done, given its phase. */
  predicate DidItsPart(effects: seq<Effect>, generation: nat, p: PublicationId, publication: Publication) {
    var mutation := [Started(generation, p), Ended(generation, p)];
    match publication.phase
    case Queued => effects == []
    case Mutating => effects == [Started(generation, p)]
    case Failed => effects == mutation
    case Refused => effects == [] || effects == mutation
    case Published =>
      effects == (if publication.persist.Keep? then [] else mutation)
                 + (if publication.update.Some? then [Updated(generation, p)] else [])
  }

  ghost predicate EachDidItsPart(log: seq<Effect>, publications: seq<Publication>, refreshes: seq<Refresh>) {
    && (forall p | 0 <= p < |publications| ::
          && publications[p].refresh < |refreshes|
          && (publications[p].phase.Mutating? ==> !publications[p].persist.Keep?)
          && DidItsPart(EffectsOf(log, p), refreshes[publications[p].refresh].generation, p, publications[p]))
    && (forall p: nat :: p >= |publications| ==> EffectsOf(log, p) == [])
  }

  lemma {:induction false} EffectsAsBefore(log: seq<Effect>, effect: Effect, n: nat, p: PublicationId)
    requires n <= |log|
    ensures EffectsAmong(log + [effect], n, p) == EffectsAmong(log, n, p)
    decreases n
  {
    if n > 0 {
      EffectsAsBefore(log, effect, n - 1, p);
    }
  }

  lemma EffectsOfOneMore(log: seq<Effect>, effect: Effect, p: PublicationId)
    ensures EffectsOf(log + [effect], p) == EffectsOf(log, p) + if effect.publication == p then [effect] else []
  {
    EffectsAsBefore(log, effect, |log|, p);
  }

  lemma OthersUntouched(log: seq<Effect>, publications: seq<Publication>, refreshes: seq<Refresh>, p: PublicationId,
                        phase: Phase, after: seq<Effect>)
    requires EachDidItsPart(log, publications, refreshes) && p < |publications|
    requires forall q: nat :: q != p ==> EffectsOf(after, q) == EffectsOf(log, q)
    requires phase.Mutating? ==> !publications[p].persist.Keep?
    requires DidItsPart(EffectsOf(after, p), refreshes[publications[p].refresh].generation, p,
                        publications[p].(phase := phase))
    ensures EachDidItsPart(after, SetPhase(publications, p, phase), refreshes)
  {
  }

  lemma ConcludeKeepsPart(log: seq<Effect>, s: State, p: PublicationId)
    requires EachDidItsPart(log, s.publications, s.refreshes) && p < |s.publications|
    requires forall q: nat :: q != p ==> EffectsOf(s.log, q) == EffectsOf(log, q)
    requires var generation := s.refreshes[s.publications[p].refresh].generation;
             EffectsOf(s.log, p) == if s.publications[p].persist.Keep? then [] else [Started(generation, p), Ended(generation, p)]
    ensures EachDidItsPart(Conclude(s, p).log, Conclude(s, p).publications, s.refreshes)
  {
    var publication := s.publications[p];
    var refresh := s.refreshes[publication.refresh];
    if !Current(refresh, s.generation) {
      OthersUntouched(log, s.publications, s.refreshes, p, Refused, s.log);
    } else if publication.update.None? {
      OthersUntouched(log, s.publications, s.refreshes, p, Published, s.log);
    } else {
      var updated := Updated(refresh.generation, p);
      forall q: nat ensures EffectsOf(s.log + [updated], q) == EffectsOf(s.log, q) + if q == p then [updated] else [] {
        EffectsOfOneMore(s.log, updated, q);
      }
      OthersUntouched(log, s.publications, s.refreshes, p, Published, s.log + [updated]);
    }
  }

  lemma ResumeKeepsPart(s: State, p: PublicationId)
    requires Inv(s) && EachDidItsPart(s.log, s.publications, s.refreshes)
    ensures EachDidItsPart(ResumeStep(s, p).log, ResumeStep(s, p).publications, ResumeStep(s, p).refreshes)
  {
    if CanResume(s.publications, p) {
      var publication := s.publications[p];
      var refresh := s.refreshes[publication.refresh];
      var started := Started(refresh.generation, p);
      if !Current(refresh, s.generation) {
        OthersUntouched(s.log, s.publications, s.refreshes, p, Refused, s.log);
      } else if publication.persist.Keep? {
        ConcludeKeepsPart(s.log, s, p);
      } else {
        forall q: nat ensures EffectsOf(s.log + [started], q) == EffectsOf(s.log, q) + if q == p then [started] else [] {
          EffectsOfOneMore(s.log, started, q);
        }
        OthersUntouched(s.log, s.publications, s.refreshes, p, Mutating, s.log + [started]);
      }
    }
  }

  lemma SettleKeepsPart(s: State, p: PublicationId, ok: bool, applied: bool)
    requires Inv(s) && EachDidItsPart(s.log, s.publications, s.refreshes)
    ensures var t := StoreSettledStep(s, p, ok, applied); EachDidItsPart(t.log, t.publications, t.refreshes)
  {
    if p < |s.publications| && s.publications[p].phase.Mutating? {
      var publication := s.publications[p];
      var ended := Ended(s.refreshes[publication.refresh].generation, p);
      forall q: nat ensures EffectsOf(s.log + [ended], q) == EffectsOf(s.log, q) + if q == p then [ended] else [] {
        EffectsOfOneMore(s.log, ended, q);
      }
      if ok {
        ConcludeKeepsPart(s.log, s.(store := if ok || applied then Persisted(s.store, publication.persist) else s.store,
                                    log := s.log + [ended]), p);
      } else {
        OthersUntouched(s.log, s.publications, s.refreshes, p, Failed, s.log + [ended]);
      }
    }
  }

  lemma SignalsKeepPart(log: seq<Effect>, publications: seq<Publication>, refreshes: seq<Refresh>, after: seq<Refresh>)
    requires EachDidItsPart(log, publications, refreshes) && SameGenerations(refreshes, after)
    ensures EachDidItsPart(log, publications, after)
  {
  }

  lemma StepKeepsPart(s: State, event: Event)
    requires Inv(s) && EachDidItsPart(s.log, s.publications, s.refreshes)
    ensures var t := Step(s, event); EachDidItsPart(t.log, t.publications, t.refreshes)
  {
    match event {
      case Resume(p) => ResumeKeepsPart(s, p);
      case StoreSettled(p, ok, applied) => SettleKeepsPart(s, p, ok, applied);
      case Publish(_, _, _) =>
      case _ => SignalsKeepPart(s.log, s.publications, s.refreshes, Step(s, event).refreshes);
    }
  }

  lemma {:induction false} RunKeepsPart(s: State, events: seq<Event>)
    requires Inv(s) && EachDidItsPart(s.log, s.publications, s.refreshes)
    ensures var t := Run(s, events); EachDidItsPart(t.log, t.publications, t.refreshes)
    decreases |events|
  {
    if events != [] {
      StepKeepsInv(s, events[0]);
      StepKeepsPart(s, events[0]);
      RunKeepsPart(Step(s, events[0]), events[1..]);
    }
  }

  /** Every publication mutates the store at most once and then updates at most once; `publish` returns
      true exactly if its mutation ended well and its update, if it has one, ran. */
  lemma PublishedMeansUpdated(store: Option<Catalog>, catalogs: map<Target, Catalog>, events: seq<Event>)
    ensures var s := Run(Initial(store, catalogs), events);
            EachDidItsPart(s.log, s.publications, s.refreshes)
  {
    RunKeepsPart(Initial(store, catalogs), events);
  }

  // ---------- nothing gets stuck ----------

  /** While a publication is unsettled, one can resume or waits for the store only. */
  lemma ChainNeverStalls(s: State, p: PublicationId)
    requires Inv(s) && p < |s.publications| && !s.publications[p].phase.Settled()
    ensures exists q :: 0 <= q <= p && (s.publications[q].phase.Mutating? || CanResume(s.publications, q))
    decreases p
  {
    assert Linked(s.publications, p);
    if s.publications[p].phase.Mutating? {
      assert s.publications[p].phase.Mutating?;
    } else if s.publications[p].previous.Some? && !s.publications[p - 1].phase.Settled() {
      ChainNeverStalls(s, p - 1);
    } else {
      assert CanResume(s.publications, p);
    }
  }

  // ---------- the provider object behind a refresh ----------

  /** A refresh that can still publish. */
  predicate Live(s: State, r: nat) {
    r < |s.refreshes| && Current(s.refreshes[r], s.generation)
  }

  /** The object of every such refresh is the registered one. */
  ghost predicate CurrentIsRegistered(s: State) {
    forall r :: 0 <= r < |s.refreshes| && Live(s, r) ==> s.provider == Some(s.refreshes[r].target)
  }

  ghost predicate NoneLive(s: State) {
    forall r :: 0 <= r < |s.refreshes| ==> !Live(s, r)
  }

  /** The second half of setProvider or deleteProvider changes nothing or finds no live refresh, and a
      refresh that begins with the newest generation is one of the registered object. */
  ghost predicate Harmless(s: State, event: Event) {
    match event
    case PutProvider(provider) => provider == s.provider || NoneLive(s)
    case OpenRefresh(generation, target) => generation == s.generation ==> s.provider == Some(target)
    case _ => true
  }

  lemma PutKeepsRegistrationIff(s: State, provider: Option<Target>)
    requires CurrentIsRegistered(s)
    ensures CurrentIsRegistered(Step(s, PutProvider(provider))) <==> provider == s.provider || NoneLive(s)
  {
    var t := Step(s, PutProvider(provider));
    forall r | 0 <= r < |s.refreshes| ensures Live(t, r) <==> Live(s, r) {
    }
    if !NoneLive(s) {
      var r :| 0 <= r < |s.refreshes| && Live(s, r);
      assert Live(t, r);
    }
  }

  lemma OpenKeepsRegistrationIff(s: State, generation: nat, target: Target)
    requires CurrentIsRegistered(s)
    ensures CurrentIsRegistered(Step(s, OpenRefresh(generation, target))) <==>
            (generation == s.generation ==> s.provider == Some(target))
  {
    var t := Step(s, OpenRefresh(generation, target));
    forall r | 0 <= r < |s.refreshes| ensures Live(t, r) <==> Live(s, r) {
    }
    if generation == s.generation {
      assert Live(t, |s.refreshes|) && t.refreshes[|s.refreshes|].target == target;
    }
  }

  lemma OtherStepsKeepRegistration(s: State, event: Event)
    requires Inv(s) && CurrentIsRegistered(s) && !event.PutProvider? && !event.OpenRefresh?
    ensures CurrentIsRegistered(Step(s, event))
  {
    var t := Step(s, event);
    forall r | 0 <= r < |t.refreshes| && Live(t, r) ensures t.provider == Some(t.refreshes[r].target) {
      assert Live(s, r);
    }
  }

  /** Whatever happens, the live refreshes stay those of the registered object exactly if it is harmless. */
  lemma StepKeepsRegistrationIff(s: State, event: Event)
    requires Inv(s) && CurrentIsRegistered(s)
    ensures CurrentIsRegistered(Step(s, event)) <==> Harmless(s, event)
  {
    match event {
      case PutProvider(provider) => PutKeepsRegistrationIff(s, provider);
      case OpenRefresh(generation, target) => OpenKeepsRegistrationIff(s, generation, target);
      case _ => OtherStepsKeepRegistration(s, event);
    }
  }

  ghost predicate AlwaysRegistered(s: State, events: seq<Event>)
    decreases |events|
  {
    CurrentIsRegistered(s) && (events != [] ==> AlwaysRegistered(Step(s, events[0]), events[1..]))
  }

  ghost predicate AllHarmless(s: State, events: seq<Event>)
    decreases |events|
  {
    events != [] ==> Harmless(s, events[0]) && AllHarmless(Step(s, events[0]), events[1..])
  }

  /** So throughout a run every live refresh is of the registered object exactly if each step is harmless
      where it happens. */
  lemma {:induction false} AlwaysRegisteredIffHarmless(s: State, events: seq<Event>)
    requires Inv(s) && CurrentIsRegistered(s)
    ensures AlwaysRegistered(s, events) <==> AllHarmless(s, events)
    decreases |events|
  {
    if events != [] {
      StepKeepsInv(s, events[0]);
      StepKeepsRegistrationIff(s, events[0]);
      if Harmless(s, events[0]) {
        AlwaysRegisteredIffHarmless(Step(s, events[0]), events[1..]);
      }
    }
  }

  /** No refresh begins with the newest generation. */
  predicate NoneBegins(s: State, events: seq<Event>)
    decreases |events|
  {
    events != [] ==>
      (events[0].OpenRefresh? ==> events[0].generation != s.generation) && NoneBegins(Step(s, events[0]), events[1..])
  }

  lemma StepStaysNoneLive(s: State, event: Event)
    requires Inv(s) && NoneLive(s) && (event.OpenRefresh? ==> event.generation != s.generation)
    ensures NoneLive(Step(s, event))
  {
    var t := Step(s, event);
    forall r | 0 <= r < |t.refreshes| ensures !Live(t, r) {
      if r < |s.refreshes| {
        assert !Live(s, r);
      }
    }
  }

  lemma {:induction false} RunStaysNoneLive(s: State, events: seq<Event>)
    requires Inv(s) && NoneLive(s) && NoneBegins(s, events)
    ensures NoneLive(Run(s, events))
    decreases |events|
  {
    if events != [] {
      StepKeepsInv(s, events[0]);
      StepStaysNoneLive(s, events[0]);
      RunStaysNoneLive(Step(s, events[0]), events[1..]);
    }
  }

  /** A provider change in two halves is harmless, whatever else the listeners do in between, if no
      refresh of the id begins there that stays the newest. */
  lemma TwoHalvesAreHarmless(s: State, between: seq<Event>, provider: Option<Target>)
    requires Inv(s) && NoneBegins(Step(s, Supersede), between)
    ensures Harmless(Run(Step(s, Supersede), between), PutProvider(provider))
    ensures CurrentIsRegistered(Step(Run(Step(s, Supersede), between), PutProvider(provider)))
  {
    var t := Step(s, Supersede);
    StepKeepsInv(s, Supersede);
    assert NoneLive(t);
    RunStaysNoneLive(t, between);
    PutKeepsRegistrationIff(Run(t, between), provider);
  }

  lemma {:induction false} RegistrationHolds(s: State, events: seq<Event>)
    requires AlwaysRegistered(s, events)
    ensures CurrentIsRegistered(Run(s, events))
    decreases |events|
  {
    if events != [] {
      RegistrationHolds(Step(s, events[0]), events[1..]);
    }
  }

  /** Where all steps are harmless, only the registered object is ever updated. */
  lemma UpdatesReachTheRegisteredProvider(store: Option<Catalog>, catalogs: map<Target, Catalog>, events: seq<Event>, last: Event)
    requires AllHarmless(Initial(store, catalogs), events)
    ensures var s := Run(Initial(store, catalogs), events);
            Step(s, last).catalogs != s.catalogs ==>
              s.provider.Some? && s.provider.value in Step(s, last).catalogs
              && Step(s, last).catalogs == s.catalogs[s.provider.value := Step(s, last).catalogs[s.provider.value]]
  {
    var s := Run(Initial(store, catalogs), events);
    RunKeepsInv(Initial(store, catalogs), events);
    AlwaysRegisteredIffHarmless(Initial(store, catalogs), events);
    RegistrationHolds(Initial(store, catalogs), events);
    if Step(s, last).catalogs != s.catalogs {
      UpdatesAreGuarded(s, last);
      assert Live(s, s.publications[last.publication].refresh);
    }
  }

  // ---------- harmful steps ----------

  /** The steps that a queue of publications still needs. */
  function StepsLeft(publications: seq<Publication>, n: nat): nat
    requires n <= |publications|
  {
    if n == 0 then 0
    else StepsLeft(publications, n - 1)
         + if publications[n - 1].phase.Queued? then 2 else if publications[n - 1].phase.Mutating? then 1 else 0
  }

  lemma {:induction false} PhaseLeaves(publications: seq<Publication>, n: nat, p: PublicationId, phase: Phase)
    requires n <= |publications| && p < |publications| && !phase.Queued?
    requires publications[p].phase.Queued? || (publications[p].phase.Mutating? && phase.Settled())
    ensures StepsLeft(SetPhase(publications, p, phase), n) <= StepsLeft(publications, n)
    ensures p < n ==> StepsLeft(SetPhase(publications, p, phase), n) < StepsLeft(publications, n)
    decreases n
  {
    if n > 0 {
      PhaseLeaves(publications, n - 1, p, phase);
    }
  }

  predicate SameRefreshes(s: State, t: State) {
    t.generation == s.generation && t.refreshes == s.refreshes && t.provider == s.provider && |t.publications| == |s.publications|
  }

  lemma ResumeLeaves(s: State, p: PublicationId)
    requires Inv(s) && CanResume(s.publications, p)
    ensures SameRefreshes(s, ResumeStep(s, p))
    ensures StepsLeft(ResumeStep(s, p).publications, |s.publications|) < StepsLeft(s.publications, |s.publications|)
  {
    PhaseLeaves(s.publications, |s.publications|, p, Refused);
    PhaseLeaves(s.publications, |s.publications|, p, Published);
    PhaseLeaves(s.publications, |s.publications|, p, Mutating);
  }

  lemma SettleLeaves(s: State, p: PublicationId)
    requires Inv(s) && p < |s.publications| && s.publications[p].phase.Mutating?
    ensures SameRefreshes(s, StoreSettledStep(s, p, true, true))
    ensures StepsLeft(StoreSettledStep(s, p, true, true).publications, |s.publications|) < StepsLeft(s.publications, |s.publications|)
  {
    PhaseLeaves(s.publications, |s.publications|, p, Refused);
    PhaseLeaves(s.publications, |s.publications|, p, Published);
  }

  lemma SettleOne(s: State) returns (event: Event)
    requires Inv(s) && !AllSettled(s.publications, |s.publications|)
    ensures SameRefreshes(s, Step(s, event))
    ensures StepsLeft(Step(s, event).publications, |s.publications|) < StepsLeft(s.publications, |s.publications|)
  {
    var p :| 0 <= p < |s.publications| && !s.publications[p].phase.Settled();
    ChainNeverStalls(s, p);
    var q :| 0 <= q <= p && (s.publications[q].phase.Mutating? || CanResume(s.publications, q));
    if s.publications[q].phase.Mutating? {
      event := StoreSettled(q, true, true);
      SettleLeaves(s, q);
    } else {
      event := Resume(q);
      ResumeLeaves(s, q);
    }
  }

  /** The queue can always be emptied. */
  lemma {:induction false} Drain(s: State) returns (events: seq<Event>)
    requires Inv(s)
    ensures var t := Run(s, events); SameRefreshes(s, t) && Inv(t) && AllSettled(t.publications, |t.publications|)
    decreases StepsLeft(s.publications, |s.publications|)
  {
    if AllSettled(s.publications, |s.publications|) {
      events := [];
    } else {
      var event := SettleOne(s);
      StepKeepsInv(s, event);
      var rest := Drain(Step(s, event));
      events := [event] + rest;
      assert events[1..] == rest;
    }
  }

  /** A live refresh with an empty queue can update the catalog of its object at once. */
  lemma LiveCanUpdate(s: State, r: RefreshId, catalog: Catalog)
    requires Inv(s) && AllSettled(s.publications, |s.publications|) && r < |s.refreshes| && Live(s, r)
    ensures var published := Step(s, Publish(r, Keep, Some(catalog)));
            var updated := Step(published, Resume(|s.publications|));
            updated.catalogs == s.catalogs[s.refreshes[r].target := catalog] && updated.provider == s.provider
  {
    var published := Step(s, Publish(r, Keep, Some(catalog)));
    assert CanResume(published.publications, |s.publications|);
  }

  lemma RunTwo(s: State, first: Event, second: Event)
    ensures Run(s, [first, second]) == Step(Step(s, first), second)
  {
    assert [first, second][1..] == [second] && [second][1..] == [];
    assert Run(Step(s, first), [second]) == Run(Step(Step(s, first), second), []);
  }

  /** A live refresh can always be led to update the catalog of its object, while the provider stays. */
  lemma LiveUpdates(s: State, r: RefreshId, catalog: Catalog) returns (events: seq<Event>)
    requires Inv(s) && r < |s.refreshes| && Live(s, r)
    ensures var t := Run(s, events);
            && t.provider == s.provider && s.refreshes[r].target in t.catalogs
            && t.catalogs[s.refreshes[r].target] == catalog
  {
    var drained := Drain(s);
    var t := Run(s, drained);
    assert Live(t, r);
    LiveCanUpdate(t, r, catalog);
    var last := [Publish(r, Keep, Some(catalog)), Resume(|t.publications|)];
    events := drained + last;
    RunInTwoParts(s, drained, last);
    RunTwo(t, Publish(r, Keep, Some(catalog)), Resume(|t.publications|));
  }

  /** After any step that is not harmless, some run updates an object that is not registered. */
  lemma HarmfulStepUpdatesReplaced(s: State, event: Event, catalog: Catalog) returns (target: Target, events: seq<Event>)
    requires Inv(s) && CurrentIsRegistered(s) && !Harmless(s, event)
    ensures var t := Run(Step(s, event), events);
            && t.provider == Step(s, event).provider != Some(target)
            && target in t.catalogs && t.catalogs[target] == catalog
    ensures event.PutProvider? ==> s.provider == Some(target)
    ensures event.OpenRefresh? ==> event.target == target
  {
    var after := Step(s, event);
    StepKeepsInv(s, event);
    StepKeepsRegistrationIff(s, event);
    var r :| 0 <= r < |after.refreshes| && Live(after, r) && after.provider != Some(after.refreshes[r].target);
    target := after.refreshes[r].target;
    if r < |s.refreshes| {
      assert Live(s, r);
    }
    events := LiveUpdates(after, r, catalog);
  }

  /** Object 1 is being refreshed when setProvider of object 2 aborts that; the listener refreshes again. */
  function RefreshedAgain(): State {
    var refreshing := Step(Step(Step(Initial(None, map[]), ReplaceProvider(Some(1))), Supersede), OpenRefresh(2, 1));
    Step(Step(Step(refreshing, Supersede), Supersede), OpenRefresh(4, 1))
  }

  lemma RefreshedAgainIs()
    ensures RefreshedAgain() ==
            State(4, Some(1), Some(1), [Refresh(2, 1, true), Refresh(4, 1, false)], [], None, None, map[], [])
  {
    assert Step(Step(Step(Initial(None, map[]), ReplaceProvider(Some(1))), Supersede), OpenRefresh(2, 1)) ==
           State(2, Some(0), Some(1), [Refresh(2, 1, false)], [], None, None, map[], []);
    assert Step(State(2, Some(0), Some(1), [Refresh(2, 1, false)], [], None, None, map[], []), Supersede) ==
           State(3, None, Some(1), [Refresh(2, 1, true)], [], None, None, map[], []);
  }

  /** setProvider supersedes first and stores the provider second. A listener of the abort signal that
      refreshes in between begins a refresh of the old object, which then stays current. */
  lemma ReplacedProviderUpdated(catalog: Catalog)
    ensures var replaced := Step(RefreshedAgain(), PutProvider(Some(2)));               // setProvider goes on
            var published := Step(Step(replaced, Publish(1, Write(catalog), Some(catalog))), Resume(0));
            var s := Step(published, StoreSettled(0, true, true));
            && s.provider == Some(2) && |s.refreshes| == 2
            && s.refreshes[1].target == 1
            && s.store == Some(catalog) && s.catalogs == map[1 := catalog]
  {
    RefreshedAgainIs();
    var queued := Publication(1, Write(catalog), Some(catalog), None, Queued);
    var started := RefreshedAgain().(provider := Some(2), publications := [queued], chain := Some(0));
    assert Step(Step(RefreshedAgain(), PutProvider(Some(2))), Publish(1, Write(catalog), Some(catalog))) == started;
    assert Step(started, Resume(0)) == started.(publications := [queued.(phase := Mutating)], log := [Started(4, 0)]);
  }

  /** Object 1 has been replaced by object 2 after `refresh` looked it up, in a listener that the refresh of
      another provider told of its abort: `refresh` goes on with object 1. */
  function BegunLate(): State {
    var replaced := Step(Step(Initial(None, map[]), ReplaceProvider(Some(1))), ReplaceProvider(Some(2)));
    Step(Step(replaced, Supersede), OpenRefresh(3, 1))
  }

  /** Both provider changes were harmless, but the refresh that begins late is current. It writes the store
      and updates the replaced object. */
  lemma LateRefreshUpdatesReplaced(catalog: Catalog)
    ensures BegunLate().provider == Some(2) && |BegunLate().refreshes| == 1 && Live(BegunLate(), 0)
    ensures var published := Step(Step(BegunLate(), Publish(0, Write(catalog), Some(catalog))), Resume(0));
            var s := Step(published, StoreSettled(0, true, true));
            s.provider == Some(2) && s.store == Some(catalog) && s.catalogs == map[1 := catalog]
  {
    assert BegunLate() == State(3, Some(0), Some(2), [Refresh(3, 1, false)], [], None, None, map[], []);
    var queued := Publication(0, Write(catalog), Some(catalog), None, Queued);
    var started := BegunLate().(publications := [queued], chain := Some(0));
    assert Step(BegunLate(), Publish(0, Write(catalog), Some(catalog))) == started;
    assert Step(started, Resume(0)) == started.(publications := [queued.(phase := Mutating)], log := [Started(3, 0)]);
  }

  lemma {:induction false} RunInTwoParts(s: State, first: seq<Event>, second: seq<Event>)
    ensures Run(s, first + second) == Run(Run(s, first), second)
    decreases |first|
  {
    if first == [] {
      assert first + second == second;
    } else {
      assert (first + second)[1..] == first[1..] + second;
      RunInTwoParts(Step(s, first[0]), first[1..], second);
    }
  }
}
