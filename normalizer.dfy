/** The normalizer `parse_openrouter_models`: it reshapes the decoded models
    document (provider id -> provider object) into provider id -> provider
    record, each carrying its models as model id -> model record, with fixed
    defaults for missing fields. Reading and decoding the file are not part of
    this model: the input is the decoded value. */
module Normalizer {
  import opened Dicts
  import opened JsonValues

  /** The flattened record built for one model. Each field holds whatever
      JSON value the document has there, or the field's default. */
  datatype ModelRecord = ModelRecord(
    id: Json,
    name: Json,
    family: Json,
    contextLimit: Json,
    outputLimit: Json,
    knowledgeCutoff: Json,
    releaseDate: Json,
    reasoning: Json,
    toolCall: Json,
    temperature: Json,
    costInput: Json,
    costOutput: Json)

  /** The record built for one provider. */
  datatype ProviderRecord = ProviderRecord(
    id: string,
    name: Json,
    api: Json,
    doc: Json,
    modelCount: nat,
    models: Dict<ModelRecord>)

  // ---------------------------------------------------------------------------
  // What the source needs of its input in order not to raise

  /** A model entry can be normalized: if it is an object, its `limit` and
      `cost` members are absent or objects (otherwise `.get` is called on a
      non-dict and raises). */
  predicate ModelReadable(info: Json)
  {
    info.JObject? ==> ObjectOrAbsent(info.members, "limit") && ObjectOrAbsent(info.members, "cost")
  }

  predicate AllModelsReadable(entries: Dict<Json>)
  {
    forall i :: 0 <= i < |entries| ==> ModelReadable(entries[i].1)
  }

  /** `provider_info.get('models', {})`. */
  function ModelEntries(info: Dict<Json>): Dict<Json>
    requires ObjectOrAbsent(info, "models")
  {
    match Get(info, "models")
    case None => []
    case Some(v) => v.members
  }

  /** A provider entry can be normalized: if it is an object, its `models`
      member is absent or an object whose entries can be normalized. */
  predicate ProviderReadable(info: Json)
  {
    info.JObject? ==>
      && ObjectOrAbsent(info.members, "models")
      && DistinctKeys(ModelEntries(info.members))
      && AllModelsReadable(ModelEntries(info.members))
  }

  predicate AllProvidersReadable(entries: Dict<Json>)
  {
    forall i :: 0 <= i < |entries| ==> ProviderReadable(entries[i].1)
  }

  /** The decoded document the normalizer accepts: an object (a dict, so with
      distinct keys) whose provider entries can be normalized. */
  predicate Parsable(data: Json)
  {
    && data.JObject?
    && DistinctKeys(data.members)
    && AllProvidersReadable(data.members)
  }

  // ---------------------------------------------------------------------------
  // Specification

  /** The record for model `modelId` described by the object `info`. */
  function NormalizeModel(modelId: string, info: Dict<Json>): ModelRecord
    requires ModelReadable(JObject(info))
  {
    ModelRecord(
      id := GetOr(info, "id", JString(modelId)),
      name := GetOr(info, "name", JString(modelId)),
      family := GetOr(info, "family", JString("")),
      contextLimit := NestedGetOr(info, "limit", "context", JInt(0)),
      outputLimit := NestedGetOr(info, "limit", "output", JInt(0)),
      knowledgeCutoff := GetOr(info, "knowledge", JString("")),
      releaseDate := GetOr(info, "release_date", JString("")),
      reasoning := GetOr(info, "reasoning", JBool(false)),
      toolCall := GetOr(info, "tool_call", JBool(false)),
      temperature := GetOr(info, "temperature", JBool(false)),
      costInput := NestedGetOr(info, "cost", "input", JInt(0)),
      costOutput := NestedGetOr(info, "cost", "output", JInt(0)))
  }

  /** The models of a provider: one record per object-valued entry, in
      document order; other entries are dropped. */
  function NormalizeModels(entries: Dict<Json>): Dict<ModelRecord>
    requires AllModelsReadable(entries)
  {
    if entries == [] then []
    else
      var last := |entries| - 1;
      assert AllModelsReadable(entries[..last]) by {
        forall i | 0 <= i < last ensures ModelReadable(entries[..last][i].1) {
          assert entries[..last][i] == entries[i];
        }
      }
      var front := NormalizeModels(entries[..last]);
      var (modelId, info) := entries[last];
      if info.JObject? then front + [(modelId, NormalizeModel(modelId, info.members))] else front
  }

  /** The record for provider `providerId` described by the object `info`. */
  function NormalizeProvider(providerId: string, info: Dict<Json>): ProviderRecord
    requires ProviderReadable(JObject(info))
  {
    var models := NormalizeModels(ModelEntries(info));
    ProviderRecord(
      id := providerId,
      name := GetOr(info, "name", JString(providerId)),
      api := GetOr(info, "api", JString("")),
      doc := GetOr(info, "doc", JString("")),
      modelCount := |models|,
      models := models)
  }

  /** A provider entry survives normalization: it is an object with at least
      one object-valued model entry. */
  predicate Kept(entry: (string, Json))
  {
    && entry.1.JObject?
    && ObjectOrAbsent(entry.1.members, "models")
    && exists i :: 0 <= i < |ModelEntries(entry.1.members)| && ModelEntries(entry.1.members)[i].1.JObject?
  }

  /** The normalized document: one record per kept provider entry, in
      document order. */
  function NormalizeProviders(entries: Dict<Json>): Dict<ProviderRecord>
    requires AllProvidersReadable(entries)
  {
    if entries == [] then []
    else
      var last := |entries| - 1;
      assert AllProvidersReadable(entries[..last]) by {
        forall i | 0 <= i < last ensures ProviderReadable(entries[..last][i].1) {
          assert entries[..last][i] == entries[i];
        }
      }
      var front := NormalizeProviders(entries[..last]);
      var (providerId, info) := entries[last];
      if info.JObject? && NormalizeProvider(providerId, info.members).modelCount > 0 then
        front + [(providerId, NormalizeProvider(providerId, info.members))]
      else front
  }

  /** What every record of the normalized document satisfies: its `id` is its
      key, and `model_count` is the number of its models, at least one. */
  predicate WellFormedProviders(providers: Dict<ProviderRecord>)
  {
    forall i :: 0 <= i < |providers| ==>
      && providers[i].1.id == providers[i].0
      && providers[i].1.modelCount == |providers[i].1.models|
      && providers[i].1.modelCount >= 1
  }

  /** `entries` has an object-valued entry under key `k`. */
  predicate ObjectEntry(entries: Dict<Json>, k: string)
  {
    exists i :: 0 <= i < |entries| && entries[i].0 == k && entries[i].1.JObject?
  }

  /** `entries` has a kept provider entry under key `k`. */
  predicate KeptEntry(entries: Dict<Json>, k: string)
  {
    exists i :: 0 <= i < |entries| && entries[i].0 == k && Kept(entries[i])
  }

  // ---------------------------------------------------------------------------
  // Properties of the specification

  /** The normalized models keep exactly the keys of the object-valued entries. */
  lemma {:induction false} NormalizeModelsKeys(entries: Dict<Json>)
    requires AllModelsReadable(entries)
    ensures forall k :: k in Keys(NormalizeModels(entries)) <==> ObjectEntry(entries, k)
  {
    if entries != [] {
      var last := |entries| - 1;
      var front := entries[..last];
      assert AllModelsReadable(front) by {
        forall i | 0 <= i < last ensures ModelReadable(front[i].1) {
          assert front[i] == entries[i];
        }
      }
      NormalizeModelsKeys(front);
      var (modelId, info) := entries[last];
      if info.JObject? {
        var rec := NormalizeModel(modelId, info.members);
        assert NormalizeModels(entries) == NormalizeModels(front) + [(modelId, rec)];
        KeysAppend(NormalizeModels(front), [(modelId, rec)]);
        assert Keys(NormalizeModels(entries)) == Keys(NormalizeModels(front)) + [modelId];
      } else {
        assert NormalizeModels(entries) == NormalizeModels(front);
      }
      forall k ensures k in Keys(NormalizeModels(entries)) <==> ObjectEntry(entries, k) {
        ObjectEntrySnoc(entries, k);
      }
    }
  }

  lemma ObjectEntrySnoc(entries: Dict<Json>, k: string)
    requires entries != []
    ensures ObjectEntry(entries, k) <==>
      ObjectEntry(entries[..|entries| - 1], k) || (entries[|entries| - 1].0 == k && entries[|entries| - 1].1.JObject?)
  {
    var front := entries[..|entries| - 1];
    if ObjectEntry(front, k) {
      var i :| 0 <= i < |front| && front[i].0 == k && front[i].1.JObject?;
      assert entries[i] == front[i];
    }
    if ObjectEntry(entries, k) {
      var i :| 0 <= i < |entries| && entries[i].0 == k && entries[i].1.JObject?;
      if i < |front| {
        assert front[i] == entries[i];
      }
    }
  }

  /** With distinct keys, the normalized models have distinct keys and each
      object-valued entry is normalized under its own key. */
  lemma {:induction false} NormalizeModelsValues(entries: Dict<Json>)
    requires AllModelsReadable(entries) && DistinctKeys(entries)
    ensures DistinctKeys(NormalizeModels(entries))
    ensures forall i :: 0 <= i < |entries| ==>
      Get(NormalizeModels(entries), entries[i].0) ==
        if entries[i].1.JObject? then Some(NormalizeModel(entries[i].0, entries[i].1.members)) else None
  {
    if entries != [] {
      var last := |entries| - 1;
      var front := entries[..last];
      assert AllModelsReadable(front) by {
        forall i | 0 <= i < last ensures ModelReadable(front[i].1) {
          assert front[i] == entries[i];
        }
      }
      NormalizeModelsValues(front);
      NormalizeModelsKeys(front);
      var models := NormalizeModels(front);
      var (modelId, info) := entries[last];
      assert !ObjectEntry(front, modelId);
      assert modelId !in Keys(models);
      forall i | 0 <= i < |entries|
        ensures Get(NormalizeModels(entries), entries[i].0) ==
          if entries[i].1.JObject? then Some(NormalizeModel(entries[i].0, entries[i].1.members)) else None
      {
        if info.JObject? {
          GetSnoc(models, modelId, NormalizeModel(modelId, info.members), entries[i].0);
        }
        if i < last {
          assert front[i] == entries[i];
          assert entries[i].0 != modelId;
        }
      }
    }
  }

  /** A provider has at least one normalized model exactly when it has an
      object-valued model entry. */
  lemma NormalizeProviderKept(providerId: string, info: Json)
    requires info.JObject? && ProviderReadable(info)
    ensures NormalizeProvider(providerId, info.members).modelCount > 0 <==> Kept((providerId, info))
  {
    var entries := ModelEntries(info.members);
    var models := NormalizeModels(entries);
    NormalizeModelsKeys(entries);
    if |models| > 0 {
      assert models[0].0 == Keys(models)[0];
      assert models[0].0 in Keys(models);
      var i :| 0 <= i < |entries| && entries[i].0 == models[0].0 && entries[i].1.JObject?;
    }
    if Kept((providerId, info)) {
      var i :| 0 <= i < |entries| && entries[i].1.JObject?;
      assert ObjectEntry(entries, entries[i].0);
      assert entries[i].0 in Keys(models);
    }
  }

  /** The normalized document keeps exactly the keys of the kept provider entries. */
  lemma {:induction false} NormalizeProvidersKeys(entries: Dict<Json>)
    requires AllProvidersReadable(entries)
    ensures forall k :: k in Keys(NormalizeProviders(entries)) <==> KeptEntry(entries, k)
  {
    if entries != [] {
      var last := |entries| - 1;
      var front := entries[..last];
      assert AllProvidersReadable(front) by {
        forall i | 0 <= i < last ensures ProviderReadable(front[i].1) {
          assert front[i] == entries[i];
        }
      }
      NormalizeProvidersKeys(front);
      var (providerId, info) := entries[last];
      if info.JObject? {
        NormalizeProviderKept(providerId, info);
        KeysAppend(NormalizeProviders(front), [(providerId, NormalizeProvider(providerId, info.members))]);
      }
      assert Kept(entries[last]) ==> Keys(NormalizeProviders(entries)) == Keys(NormalizeProviders(front)) + [providerId];
      assert !Kept(entries[last]) ==> NormalizeProviders(entries) == NormalizeProviders(front);
      forall k ensures k in Keys(NormalizeProviders(entries)) <==> KeptEntry(entries, k) {
        KeptEntrySnoc(entries, k);
      }
    }
  }

  lemma KeptEntrySnoc(entries: Dict<Json>, k: string)
    requires entries != []
    ensures KeptEntry(entries, k) <==>
      KeptEntry(entries[..|entries| - 1], k) || (entries[|entries| - 1].0 == k && Kept(entries[|entries| - 1]))
  {
    var front := entries[..|entries| - 1];
    if KeptEntry(front, k) {
      var i :| 0 <= i < |front| && front[i].0 == k && Kept(front[i]);
      assert entries[i] == front[i];
    }
    if KeptEntry(entries, k) {
      var i :| 0 <= i < |entries| && entries[i].0 == k && Kept(entries[i]);
      if i < |front| {
        assert front[i] == entries[i];
      }
    }
  }

  /** With distinct keys, the normalized document has distinct keys, each kept
      provider entry is normalized under its own key, and every other entry
      is absent. */
  lemma {:induction false} NormalizeProvidersValues(entries: Dict<Json>)
    requires AllProvidersReadable(entries) && DistinctKeys(entries)
    ensures DistinctKeys(NormalizeProviders(entries))
    ensures forall i :: 0 <= i < |entries| ==>
      Get(NormalizeProviders(entries), entries[i].0) ==
        if Kept(entries[i]) then Some(NormalizeProvider(entries[i].0, entries[i].1.members)) else None
  {
    if entries != [] {
      var last := |entries| - 1;
      var front := entries[..last];
      assert AllProvidersReadable(front) by {
        forall i | 0 <= i < last ensures ProviderReadable(front[i].1) {
          assert front[i] == entries[i];
        }
      }
      NormalizeProvidersValues(front);
      NormalizeProvidersKeys(front);
      var providers := NormalizeProviders(front);
      var (providerId, info) := entries[last];
      assert !KeptEntry(front, providerId);
      assert providerId !in Keys(providers);
      if info.JObject? {
        NormalizeProviderKept(providerId, info);
      }
      forall i | 0 <= i < |entries|
        ensures Get(NormalizeProviders(entries), entries[i].0) ==
          if Kept(entries[i]) then Some(NormalizeProvider(entries[i].0, entries[i].1.members)) else None
      {
        if Kept(entries[last]) {
          GetSnoc(providers, providerId, NormalizeProvider(providerId, info.members), entries[i].0);
        }
        if i < last {
          assert front[i] == entries[i];
          assert entries[i].0 != providerId;
        }
      }
    }
  }

  /** Every record of the normalized document is well formed. */
  lemma {:induction false} NormalizeProvidersWellFormed(entries: Dict<Json>)
    requires AllProvidersReadable(entries)
    ensures WellFormedProviders(NormalizeProviders(entries))
  {
    if entries != [] {
      var last := |entries| - 1;
      var front := entries[..last];
      assert AllProvidersReadable(front) by {
        forall i | 0 <= i < last ensures ProviderReadable(front[i].1) {
          assert front[i] == entries[i];
        }
      }
      NormalizeProvidersWellFormed(front);
    }
  }

  /** The defaults the normalizer fills in for a model's missing fields. */
  lemma ModelDefaults(modelId: string, info: Dict<Json>)
    requires ModelReadable(JObject(info))
    ensures var m := NormalizeModel(modelId, info);
      && ("id" !in Keys(info) ==> m.id == JString(modelId))
      && ("name" !in Keys(info) ==> m.name == JString(modelId))
      && ("family" !in Keys(info) ==> m.family == JString(""))
      && ("knowledge" !in Keys(info) ==> m.knowledgeCutoff == JString(""))
      && ("release_date" !in Keys(info) ==> m.releaseDate == JString(""))
      && ("reasoning" !in Keys(info) ==> m.reasoning == JBool(false))
      && ("tool_call" !in Keys(info) ==> m.toolCall == JBool(false))
      && ("temperature" !in Keys(info) ==> m.temperature == JBool(false))
      && ("limit" !in Keys(info) ==> m.contextLimit == JInt(0) && m.outputLimit == JInt(0))
      && ("cost" !in Keys(info) ==> m.costInput == JInt(0) && m.costOutput == JInt(0))
      && (forall limit :: Get(info, "limit") == Some(JObject(limit)) ==>
            && ("context" !in Keys(limit) ==> m.contextLimit == JInt(0))
            && ("output" !in Keys(limit) ==> m.outputLimit == JInt(0)))
      && (forall cost :: Get(info, "cost") == Some(JObject(cost)) ==>
            && ("input" !in Keys(cost) ==> m.costInput == JInt(0))
            && ("output" !in Keys(cost) ==> m.costOutput == JInt(0)))
  {
  }

  /** The defaults the normalizer fills in for a provider's missing fields. */
  lemma ProviderDefaults(providerId: string, info: Dict<Json>)
    requires ProviderReadable(JObject(info))
    ensures var p := NormalizeProvider(providerId, info);
      && p.id == providerId
      && ("name" !in Keys(info) ==> p.name == JString(providerId))
      && ("api" !in Keys(info) ==> p.api == JString(""))
      && ("doc" !in Keys(info) ==> p.doc == JString(""))
      && ("models" !in Keys(info) ==> p.models == [] && p.modelCount == 0)
  {
  }

  // ---------------------------------------------------------------------------
  // The normalizer, as the source builds it

  /** One step of the model loop: entry `i` extends the normalized prefix by
      its record when it is an object, and its key is not yet present. */
  lemma CollectModelsStep(entries: Dict<Json>, i: nat)
    requires DistinctKeys(entries) && AllModelsReadable(entries) && i < |entries|
    ensures AllModelsReadable(entries[..i]) && AllModelsReadable(entries[..i + 1])
    ensures entries[i].0 !in Keys(NormalizeModels(entries[..i]))
    ensures NormalizeModels(entries[..i + 1]) ==
      if entries[i].1.JObject?
      then NormalizeModels(entries[..i]) + [(entries[i].0, NormalizeModel(entries[i].0, entries[i].1.members))]
      else NormalizeModels(entries[..i])
  {
    assert entries[..i + 1][..i] == entries[..i];
    forall j | 0 <= j < i ensures entries[..i][j].0 != entries[i].0 {
      assert entries[..i][j] == entries[j];
    }
    NormalizeModelsKeys(entries[..i]);
  }

  /** The inner loop: `models[model_id] = {...}` for every object-valued entry. */
  method CollectModels(entries: Dict<Json>) returns (models: Dict<ModelRecord>)
    requires DistinctKeys(entries) && AllModelsReadable(entries)
    ensures models == NormalizeModels(entries)
    ensures DistinctKeys(models)
    ensures forall k :: k in Keys(models) <==> ObjectEntry(entries, k)
  {
    models := [];
    for i := 0 to |entries|
      invariant AllModelsReadable(entries[..i])
      invariant models == NormalizeModels(entries[..i])
    {
      CollectModelsStep(entries, i);
      var (modelId, info) := entries[i];
      if info.JObject? {
        models := Put(models, modelId, NormalizeModel(modelId, info.members));
      }
    }
    assert entries[..|entries|] == entries;
    NormalizeModelsKeys(entries);
    NormalizeModelsValues(entries);
  }

  /** One step of the provider loop: entry `i` extends the normalized prefix
      by its record when it is kept, and its key is not yet present. */
  lemma ParseProvidersStep(entries: Dict<Json>, i: nat)
    requires DistinctKeys(entries) && AllProvidersReadable(entries) && i < |entries|
    ensures AllProvidersReadable(entries[..i]) && AllProvidersReadable(entries[..i + 1])
    ensures entries[i].0 !in Keys(NormalizeProviders(entries[..i]))
    ensures NormalizeProviders(entries[..i + 1]) ==
      if entries[i].1.JObject? && NormalizeProvider(entries[i].0, entries[i].1.members).modelCount > 0
      then NormalizeProviders(entries[..i]) + [(entries[i].0, NormalizeProvider(entries[i].0, entries[i].1.members))]
      else NormalizeProviders(entries[..i])
  {
    assert entries[..i + 1][..i] == entries[..i];
    forall j | 0 <= j < i ensures entries[..i][j].0 != entries[i].0 {
      assert entries[..i][j] == entries[j];
    }
    NormalizeProvidersKeys(entries[..i]);
  }

  /** `parse_openrouter_models` after decoding: the normalized document. */
  method ParseOpenRouterModels(data: Json) returns (providers: Dict<ProviderRecord>)
    requires Parsable(data)
    ensures providers == NormalizeProviders(data.members)
    ensures DistinctKeys(providers) && WellFormedProviders(providers)
    ensures forall k :: k in Keys(providers) <==> KeptEntry(data.members, k)
  {
    var entries := data.members;
    providers := [];
    for i := 0 to |entries|
      invariant AllProvidersReadable(entries[..i])
      invariant providers == NormalizeProviders(entries[..i])
    {
      ParseProvidersStep(entries, i);
      var (providerId, info) := entries[i];
      if info.JObject? {
        var name := GetOr(info.members, "name", JString(providerId));
        var api := GetOr(info.members, "api", JString(""));
        var doc := GetOr(info.members, "doc", JString(""));
        var models := CollectModels(ModelEntries(info.members));
        if |models| > 0 {
          providers := Put(providers, providerId, ProviderRecord(providerId, name, api, doc, |models|, models));
        }
      }
    }
    assert entries[..|entries|] == entries;
    NormalizeProvidersKeys(entries);
    NormalizeProvidersValues(entries);
    NormalizeProvidersWellFormed(entries);
  }
}
