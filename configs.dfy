/** The config generator `generate_provider_configs`: one flattened record
    per key provider whose id is in a fixed table, naming the provider's
    model with the largest context window. */
module ConfigGenerator {
  import opened Dicts
  import opened JsonValues
  import opened Normalizer

  /** Provider id -> (name in the benchmark, default model). */
  const ProviderMapping: map<string, (string, string)> := map[
    "openai" := ("OPENAI", "gpt-5.1"),
    "anthropic" := ("ANTHROPIC", "claude-sonnet-4"),
    "google" := ("GOOGLE", "gemini-2.5-pro"),
    "deepseek" := ("DEEPSEEK", "deepseek-chat"),
    "groq" := ("GROQ", "llama2-70b-4096"),
    "meta" := ("META", "llama-4-scout"),
    "xai" := ("XAI", "grok-4"),
    "moonshotai" := ("MOONSHOT", "kimi-k2-thinking"),
    "qwen" := ("QWEN", "qwen3-235b-a22b-instruct"),
    "ollama" := ("OLLAMA", "llama2"),
    "lm-studio" := ("LM_STUDIO", "llama-2-7b-chat")
  ]

  /** The flattened record emitted for one provider. */
  datatype ProviderConfig = ProviderConfig(
    mafiaProvider: string,
    originalId: string,
    name: Json,
    api: Json,
    defaultModel: string,
    bestModel: Json,
    bestModelContext: Json,
    totalModels: nat)

  // ---------------------------------------------------------------------------
  // max(models, key=context_limit)

  /** Values Python can order against each other: ints and bools (`False`
      and `True` compare as 0 and 1). */
  predicate Comparable(j: Json)
  {
    j.JInt? || j.JBool?
  }

  /** The number a comparable value stands for in a comparison. */
  function NumericValue(j: Json): int
  {
    match j
    case JInt(n) => n
    case JBool(b) => if b then 1 else 0
    case _ => 0
  }

  /** The key `max` compares a model by. */
  function Context(entry: (string, ModelRecord)): int
  {
    NumericValue(entry.1.contextLimit)
  }

  /** `max` can run without raising: a single model is never compared, and
      two or more need comparable context limits. */
  predicate ContextsComparable(models: Dict<ModelRecord>)
  {
    |models| <= 1 || forall i :: 0 <= i < |models| ==> Comparable(models[i].1.contextLimit)
  }

  /** `k` is the first model, in iteration order, with the largest context. */
  predicate IsFirstMax(models: Dict<ModelRecord>, k: nat)
  {
    && k < |models|
    && (forall j :: 0 <= j < |models| ==> Context(models[j]) <= Context(models[k]))
    && (forall j :: 0 <= j < k ==> Context(models[j]) < Context(models[k]))
  }

  /** `max(provider['models'].values(), key=lambda x: x['context_limit'])`,
      as the position of the model it returns: Python keeps the first
      maximal element and replaces it only by a strictly larger one. */
  function BestModelIndex(models: Dict<ModelRecord>): (k: nat)
    requires |models| >= 1 && ContextsComparable(models)
    ensures IsFirstMax(models, k)
  {
    if |models| == 1 then 0
    else
      var last := |models| - 1;
      var front := models[..last];
      assert ContextsComparable(front) by {
        if |front| > 1 {
          forall i | 0 <= i < |front| ensures Comparable(front[i].1.contextLimit) {
            assert front[i] == models[i];
          }
        }
      }
      var k := BestModelIndex(front);
      assert forall j :: 0 <= j < last ==> front[j] == models[j];
      if Context(models[last]) > Context(models[k]) then last else k
  }

  /** Two first maxima are the same position. */
  lemma FirstMaxUnique(models: Dict<ModelRecord>, k1: nat, k2: nat)
    requires IsFirstMax(models, k1) && IsFirstMax(models, k2)
    ensures k1 == k2
  {
    assert Context(models[k1]) == Context(models[k2]);
  }

  // ---------------------------------------------------------------------------
  // Specification

  /** What the generator needs of its input in order not to raise: every
      provider it looks at has a model, and `max` can compare them. */
  predicate ConfigsDefined(providers: Dict<ProviderRecord>)
  {
    forall i :: 0 <= i < |providers| && providers[i].0 in ProviderMapping ==>
      |providers[i].1.models| >= 1 && ContextsComparable(providers[i].1.models)
  }

  /** The record emitted for provider `providerId`. */
  function MakeConfig(providerId: string, provider: ProviderRecord): ProviderConfig
    requires providerId in ProviderMapping
    requires |provider.models| >= 1 && ContextsComparable(provider.models)
  {
    var best := provider.models[BestModelIndex(provider.models)].1;
    ProviderConfig(
      mafiaProvider := ProviderMapping[providerId].0,
      originalId := providerId,
      name := provider.name,
      api := provider.api,
      defaultModel := ProviderMapping[providerId].1,
      bestModel := best.name,
      bestModelContext := best.contextLimit,
      totalModels := provider.modelCount)
  }

  /** The configs for `providers`, in iteration order. */
  function ProviderConfigs(providers: Dict<ProviderRecord>): seq<ProviderConfig>
    requires ConfigsDefined(providers)
  {
    if providers == [] then []
    else
      var last := |providers| - 1;
      var front := providers[..last];
      assert ConfigsDefined(front) by {
        forall i | 0 <= i < |front| && front[i].0 in ProviderMapping
          ensures |front[i].1.models| >= 1 && ContextsComparable(front[i].1.models)
        {
          assert front[i] == providers[i];
        }
      }
      var (providerId, provider) := providers[last];
      ProviderConfigs(front) + if providerId in ProviderMapping then [MakeConfig(providerId, provider)] else []
  }

  /** The ids, in order, that have an entry in the table. */
  function MappedIds(ids: seq<string>): seq<string>
  {
    if ids == [] then []
    else (if ids[0] in ProviderMapping then [ids[0]] else []) + MappedIds(ids[1..])
  }

  /** The `original_id` of each config, in order. */
  function OriginalIds(configs: seq<ProviderConfig>): (ids: seq<string>)
    ensures |ids| == |configs| && forall n :: 0 <= n < |configs| ==> ids[n] == configs[n].originalId
  {
    seq(|configs|, n requires 0 <= n < |configs| => configs[n].originalId)
  }

  /** How many configs carry `original_id == id`. */
  function CountFor(configs: seq<ProviderConfig>, id: string): nat
  {
    if configs == [] then 0
    else CountFor(configs[..|configs| - 1], id) + if configs[|configs| - 1].originalId == id then 1 else 0
  }

  /** Config `c` is the one for provider `p` under id `c.originalId`: the
      table's two names, the provider's own fields, and its first model with
      the largest context. */
  predicate Describes(c: ProviderConfig, p: ProviderRecord)
  {
    && c.originalId in ProviderMapping
    && c.mafiaProvider == ProviderMapping[c.originalId].0
    && c.defaultModel == ProviderMapping[c.originalId].1
    && c.name == p.name
    && c.api == p.api
    && c.totalModels == p.modelCount
    && exists k :: 0 <= k < |p.models| && IsFirstMax(p.models, k)
         && c.bestModel == p.models[k].1.name
         && c.bestModelContext == p.models[k].1.contextLimit
  }

  // ---------------------------------------------------------------------------
  // Properties of the specification

  lemma MappedIdsAppend(a: seq<string>, b: seq<string>)
    ensures MappedIds(a + b) == MappedIds(a) + MappedIds(b)
  {
    if a == [] {
      assert a + b == b;
    } else {
      assert (a + b)[0] == a[0];
      assert (a + b)[1..] == a[1..] + b;
      MappedIdsAppend(a[1..], b);
    }
  }

  /** The configs follow the providers' iteration order, one for each id that
      is in the table and none for the others. */
  lemma {:induction false} ConfigsFollowProviders(providers: Dict<ProviderRecord>)
    requires ConfigsDefined(providers)
    ensures OriginalIds(ProviderConfigs(providers)) == MappedIds(Keys(providers))
  {
    if providers != [] {
      var last := |providers| - 1;
      var front := providers[..last];
      assert ConfigsDefined(front) by {
        forall i | 0 <= i < |front| && front[i].0 in ProviderMapping
          ensures |front[i].1.models| >= 1 && ContextsComparable(front[i].1.models)
        {
          assert front[i] == providers[i];
        }
      }
      ConfigsFollowProviders(front);
      assert Keys(providers) == Keys(front) + [providers[last].0];
      MappedIdsAppend(Keys(front), [providers[last].0]);
      var (providerId, provider) := providers[last];
      assert MappedIds([providerId]) == if providerId in ProviderMapping then [providerId] else [];
      assert OriginalIds(ProviderConfigs(providers)) ==
        OriginalIds(ProviderConfigs(front)) + if providerId in ProviderMapping then [providerId] else [];
    }
  }

  /** With distinct ids, exactly one config carries each id that is in both
      the providers and the table, and none carries any other id. */
  lemma {:induction false} ExactlyOneConfig(providers: Dict<ProviderRecord>, id: string)
    requires ConfigsDefined(providers) && DistinctKeys(providers)
    ensures CountFor(ProviderConfigs(providers), id) ==
      if id in Keys(providers) && id in ProviderMapping then 1 else 0
  {
    if providers != [] {
      var last := |providers| - 1;
      var front := providers[..last];
      assert ConfigsDefined(front) by {
        forall i | 0 <= i < |front| && front[i].0 in ProviderMapping
          ensures |front[i].1.models| >= 1 && ContextsComparable(front[i].1.models)
        {
          assert front[i] == providers[i];
        }
      }
      ExactlyOneConfig(front, id);
      var (providerId, provider) := providers[last];
      var configs := ProviderConfigs(providers);
      assert Keys(providers) == Keys(front) + [providerId];
      assert providerId !in Keys(front) by {
        forall j | 0 <= j < |front| ensures Keys(front)[j] != providerId {
          assert front[j] == providers[j];
        }
      }
      if providerId in ProviderMapping {
        assert configs[..|configs| - 1] == ProviderConfigs(front);
        assert configs[|configs| - 1].originalId == providerId;
      } else {
        assert configs == ProviderConfigs(front);
      }
    }
  }

  /** Every config describes the provider stored under its `original_id`. */
  lemma {:induction false} ConfigsDescribeProviders(providers: Dict<ProviderRecord>, n: nat)
    requires ConfigsDefined(providers)
    requires n < |ProviderConfigs(providers)|
    ensures exists i :: (0 <= i < |providers|
      && providers[i].0 == ProviderConfigs(providers)[n].originalId
      && Describes(ProviderConfigs(providers)[n], providers[i].1))
  {
    var last := |providers| - 1;
    var front := providers[..last];
    assert ConfigsDefined(front) by {
      forall i | 0 <= i < |front| && front[i].0 in ProviderMapping
        ensures |front[i].1.models| >= 1 && ContextsComparable(front[i].1.models)
      {
        assert front[i] == providers[i];
      }
    }
    var c := ProviderConfigs(providers)[n];
    if n < |ProviderConfigs(front)| {
      ConfigsDescribeProviders(front, n);
      var i :| 0 <= i < |front| && front[i].0 == c.originalId && Describes(c, front[i].1);
      assert providers[i] == front[i];
    } else {
      var (providerId, provider) := providers[last];
      var k := BestModelIndex(provider.models);
      assert c == MakeConfig(providerId, provider);
      assert Describes(c, providers[last].1);
    }
  }

  // ---------------------------------------------------------------------------
  // The generator, as the source builds it

  /** `generate_provider_configs`: walks the providers in iteration order and
      appends a config for each one whose id is in the table. */
  method GenerateProviderConfigs(providers: Dict<ProviderRecord>) returns (configs: seq<ProviderConfig>)
    requires ConfigsDefined(providers)
    ensures configs == ProviderConfigs(providers)
  {
    configs := [];
    for i := 0 to |providers|
      invariant ConfigsDefined(providers[..i])
      invariant configs == ProviderConfigs(providers[..i])
    {
      assert providers[..i + 1][..i] == providers[..i];
      var (providerId, provider) := providers[i];
      if providerId in ProviderMapping {
        var (mafiaName, defaultModel) := ProviderMapping[providerId];
        var best := provider.models[BestModelIndex(provider.models)].1;
        var config := ProviderConfig(
          mafiaProvider := mafiaName,
          originalId := providerId,
          name := provider.name,
          api := provider.api,
          defaultModel := defaultModel,
          bestModel := best.name,
          bestModelContext := best.contextLimit,
          totalModels := provider.modelCount);
        configs := configs + [config];
      }
    }
    assert providers[..|providers|] == providers;
  }
}
