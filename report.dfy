/** The report `main` assembles: normalize, filter to the key providers,
    generate their configs, and count. Locating, reading and writing the
    files and printing are not part of this model. */
module ReportBuilder {
  import opened Dicts
  import opened JsonValues
  import opened Normalizer
  import opened KeyProviderFilter
  import opened ConfigGenerator

  datatype Summary = Summary(totalProviders: nat, keyProviders: nat)

  /** The report: its summary counts, the key providers and their configs. */
  datatype Report = Report(summary: Summary, providers: Dict<ProviderRecord>, configs: seq<ProviderConfig>)

  /** `max` can compare the models of every normalized provider whose id is
      in the config table. */
  predicate MappedContextsComparable(providers: Dict<ProviderRecord>)
  {
    forall i :: 0 <= i < |providers| && providers[i].0 in ProviderMapping ==>
      ContextsComparable(providers[i].1.models)
  }

  /** A sub-dictionary of well-formed providers can be given to the config
      generator. */
  lemma KeyProvidersConfigsDefined(providers: Dict<ProviderRecord>, keyProviders: Dict<ProviderRecord>)
    requires WellFormedProviders(providers) && MappedContextsComparable(providers)
    requires DistinctKeys(keyProviders)
    requires forall k :: k in Keys(keyProviders) ==> Get(keyProviders, k) == Get(providers, k)
    ensures ConfigsDefined(keyProviders)
  {
    forall i | 0 <= i < |keyProviders| && keyProviders[i].0 in ProviderMapping
      ensures |keyProviders[i].1.models| >= 1 && ContextsComparable(keyProviders[i].1.models)
    {
      var (id, provider) := keyProviders[i];
      GetAt(keyProviders, i);
      assert id in Keys(keyProviders);
      assert Get(providers, id) == Some(provider);
      var j :| 0 <= j < |providers| && providers[j] == (id, provider);
    }
  }

  /** `main` after loading the document, up to the report it saves. */
  method BuildReport(data: Json) returns (report: Report)
    requires Parsable(data)
    requires MappedContextsComparable(NormalizeProviders(data.members))
    ensures report.summary.totalProviders == |NormalizeProviders(data.members)|
    ensures report.summary.keyProviders == |report.providers|
    ensures report.summary.keyProviders <= report.summary.totalProviders
    ensures DistinctKeys(report.providers)
    ensures forall k :: Get(report.providers, k) == if IsKeyProviderId(k) then Get(NormalizeProviders(data.members), k) else None
    ensures ConfigsDefined(report.providers)
    ensures report.configs == ProviderConfigs(report.providers)
  {
    var providers := ParseOpenRouterModels(data);
    var keyProviders := ExtractKeyProviders(providers);
    KeyProvidersConfigsDefined(providers, keyProviders);
    var configs := GenerateProviderConfigs(keyProviders);
    SubDictSize(keyProviders, providers);
    report := Report(
      summary := Summary(totalProviders := |providers|, keyProviders := |keyProviders|),
      providers := keyProviders,
      configs := configs);
  }
}
