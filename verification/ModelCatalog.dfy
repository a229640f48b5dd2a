/**
 The models a provider offers (`currentModels` in packages/ai/src/models.ts): its baseline list, with
 the dynamic models laid over it by id.
 */
module ModelCatalog {
  import opened Prelude
  import opened Publication

  /** The index of the first model with the id, or the length of the list. */
  function IndexOf(models: Catalog, id: nat): (index: nat)
    ensures index <= |models|
    ensures index < |models| ==> models[index].id == id
    ensures forall i :: 0 <= i < index ==> models[i].id != id
  {
    if models == [] || models[0].id == id then 0 else 1 + IndexOf(models[1..], id)
  }

  /** `find` by id, as `getModel` does it. */
  function Lookup(models: Catalog, id: nat): Option<Model> {
    if IndexOf(models, id) < |models| then Some(models[IndexOf(models, id)]) else None
  }

  /** The last model with the id. */
  function LookupLast(models: Catalog, id: nat): Option<Model> {
    if models == [] then None
    else if models[|models| - 1].id == id then Some(models[|models| - 1])
    else LookupLast(models[..|models| - 1], id)
  }

  function Ids(models: Catalog): (ids: seq<nat>)
    ensures |ids| == |models|
  {
    seq(|models|, i requires 0 <= i < |models| => models[i].id)
  }

  function Upsert(models: Catalog, model: Model): Catalog {
    var index := IndexOf(models, model.id);
    if index < |models| then models[index := model] else models + [model]
  }

  function Merged(baseline: Catalog, dynamic: Catalog): Catalog {
    if dynamic == [] then baseline
    else Upsert(Merged(baseline, dynamic[..|dynamic| - 1]), dynamic[|dynamic| - 1])
  }

  /** The ids of the dynamic models that the baseline lacks, in the order of their first appearance. */
  function NewIds(known: seq<nat>, dynamic: Catalog): seq<nat> {
    if dynamic == [] then []
    else
      var earlier, id := NewIds(known, dynamic[..|dynamic| - 1]), dynamic[|dynamic| - 1].id;
      if id in known || id in earlier then earlier else earlier + [id]
  }

  method CurrentModels(baselineModels: Catalog, dynamicModels: Catalog) returns (merged: Catalog)
    ensures merged == Merged(baselineModels, dynamicModels)
  {
    merged := baselineModels;
    for i := 0 to |dynamicModels|
      invariant merged == Merged(baselineModels, dynamicModels[..i])
    {
      assert dynamicModels[..i + 1][..i] == dynamicModels[..i];
      var index := FindIndex(merged, dynamicModels[i].id);
      if index >= 0 {
        merged := merged[index := dynamicModels[i]];
      } else {
        merged := merged + [dynamicModels[i]];
      }
    }
    assert dynamicModels[..|dynamicModels|] == dynamicModels;
  }

  method FindIndex(models: Catalog, id: nat) returns (index: int)
    ensures index == if IndexOf(models, id) < |models| then IndexOf(models, id) else -1
  {
    index := 0;
    while index < |models|
      invariant 0 <= index <= |models|
      invariant forall i :: 0 <= i < index ==> models[i].id != id
    {
      if models[index].id == id {
        return;
      }
      index := index + 1;
    }
    index := -1;
  }

  lemma IndexIsUnique(models: Catalog, id: nat, index: nat)
    requires index < |models| && models[index].id == id
    requires forall i :: 0 <= i < index ==> models[i].id != id
    ensures IndexOf(models, id) == index
  {
  }

  lemma LookupAfterUpsert(models: Catalog, model: Model, id: nat)
    ensures Lookup(Upsert(models, model), id) == if id == model.id then Some(model) else Lookup(models, id)
  {
    var after, index := Upsert(models, model), IndexOf(models, id);
    if id == model.id || index < |models| {
      IndexIsUnique(after, id, index);
    } else {
      assert forall i :: 0 <= i < |after| ==> after[i].id != id;
    }
  }

  /** An id resolves to the last dynamic model that has it, else to the first baseline model. */
  lemma {:induction false} DynamicModelsWin(baseline: Catalog, dynamic: Catalog, id: nat)
    ensures Lookup(Merged(baseline, dynamic), id) ==
            if LookupLast(dynamic, id).Some? then LookupLast(dynamic, id) else Lookup(baseline, id)
  {
    if dynamic != [] {
      var earlier := dynamic[..|dynamic| - 1];
      DynamicModelsWin(baseline, earlier, id);
      LookupAfterUpsert(Merged(baseline, earlier), dynamic[|dynamic| - 1], id);
    }
  }

  lemma IdsAfterUpsert(models: Catalog, model: Model)
    ensures Ids(Upsert(models, model)) == if model.id in Ids(models) then Ids(models) else Ids(models) + [model.id]
  {
    var index := IndexOf(models, model.id);
    if index < |models| {
      assert Ids(models)[index] == model.id;
    }
  }

  /** Baseline models keep their places; new ids follow in the order of their first appearance. */
  lemma {:induction false} NewIdsFollow(baseline: Catalog, dynamic: Catalog)
    ensures Ids(Merged(baseline, dynamic)) == Ids(baseline) + NewIds(Ids(baseline), dynamic)
  {
    if dynamic != [] {
      var earlier := dynamic[..|dynamic| - 1];
      NewIdsFollow(baseline, earlier);
      IdsAfterUpsert(Merged(baseline, earlier), dynamic[|dynamic| - 1]);
    }
  }

  predicate Distinct(ids: seq<nat>) {
    forall i, j :: 0 <= i < j < |ids| ==> ids[i] != ids[j]
  }

  /** Without duplicates in the baseline there are none in the result, whatever was fetched. */
  lemma {:induction false} IdsStayDistinct(baseline: Catalog, dynamic: Catalog)
    requires Distinct(Ids(baseline))
    ensures Distinct(Ids(Merged(baseline, dynamic)))
  {
    if dynamic != [] {
      var earlier := dynamic[..|dynamic| - 1];
      IdsStayDistinct(baseline, earlier);
      IdsAfterUpsert(Merged(baseline, earlier), dynamic[|dynamic| - 1]);
    }
  }
}
