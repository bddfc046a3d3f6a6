/** Two documents worked through the pipeline by hand. */
module Scenarios {
  import opened Dicts
  import opened JsonValues
  import opened Normalizer
  import opened KeyProviderFilter
  import opened ConfigGenerator

  function ContextOnly(context: int): Json
  {
    JObject([("limit", JObject([("context", JInt(context))]))])
  }

  /** A provider outside the allowlist with two models. */
  const AcmeDocument: Json :=
    JObject([("acme", JObject([
      ("name", JString("Acme")),
      ("models", JObject([("m1", ContextOnly(4096)), ("m2", ContextOnly(8192))]))]))])

  const AcmeModels: Dict<Json> := [("m1", ContextOnly(4096)), ("m2", ContextOnly(8192))]

  lemma AcmeModelsNormalized()
    ensures AllModelsReadable(AcmeModels) && DistinctKeys(AcmeModels)
    ensures |NormalizeModels(AcmeModels)| == 2
  {
    forall n: int ensures ModelReadable(ContextOnly(n)) {
      assert Keys(ContextOnly(n).members) == ["limit"];
    }
    assert AllModelsReadable(AcmeModels);
    assert AcmeModels[..1] == [AcmeModels[0]];
    assert AcmeModels[..1][..0] == [];
    assert |NormalizeModels(AcmeModels[..1])| == 1;
  }

  lemma AcmeInfo()
    ensures var info := AcmeDocument.members[0].1.members;
      && ObjectOrAbsent(info, "models")
      && ModelEntries(info) == AcmeModels
      && Get(info, "name") == Some(JString("Acme"))
  {
    var info := AcmeDocument.members[0].1.members;
    assert Keys(info) == ["name", "models"];
    assert IndexOf(info, "models") == 1;
  }

  /** "acme" is kept with both its models. */
  lemma AcmeNormalized()
    ensures Parsable(AcmeDocument)
    ensures var providers := NormalizeProviders(AcmeDocument.members);
      && Keys(providers) == ["acme"]
      && providers[0].1.modelCount == 2
      && providers[0].1.name == JString("Acme")
  {
    AcmeModelsNormalized();
    AcmeInfo();
    var entries := AcmeDocument.members;
    assert Parsable(AcmeDocument);
    assert entries[..0] == [];
    var p := NormalizeProvider("acme", entries[0].1.members);
    assert p.modelCount == 2;
    assert NormalizeProviders(entries) == [("acme", p)];
  }

  /** `needle` cannot occur where its first character is absent. */
  lemma NotContainsByFirstChar(haystack: string, needle: string)
    requires |needle| >= 1
    requires forall i :: 0 <= i && i + |needle| <= |haystack| ==> haystack[i] != needle[0]
    ensures !Contains(haystack, needle)
  {
    forall i | 0 <= i <= |haystack| ensures !(needle <= haystack[i..]) {
      if i + |needle| <= |haystack| {
        assert haystack[i..][0] == haystack[i];
      }
    }
  }

  /** No allowlist token occurs in "acme", so it is not a key provider. */
  lemma AcmeNotKeyProvider()
    ensures !IsKeyProviderId("acme")
  {
    var s := "acme";
    assert Lower(s) == s;
    NotContainsByFirstChar(s, "openai");
    NotContainsByFirstChar(s, "anthropic");
    NotContainsByFirstChar(s, "google");
    NotContainsByFirstChar(s, "deepseek");
    NotContainsByFirstChar(s, "groq");
    NotContainsByFirstChar(s, "meta");
    NotContainsByFirstChar(s, "xai");
    NotContainsByFirstChar(s, "moonshotai");
    NotContainsByFirstChar(s, "qwen");
    NotContainsByFirstChar(s, "ollama");
    NotContainsByFirstChar(s, "lm-studio");
  }

  /** An allowlisted provider with one model; the cost figures are floats
      and so opaque here. */
  const GptX: Json :=
    JObject([
      ("limit", JObject([("context", JInt(200000))])),
      ("cost", JObject([("input", JOther("1.5")), ("output", JOther("6.0"))]))])

  const OpenAiInfo: Dict<Json> :=
    [("name", JString("OpenAI")), ("api", JString("https://api.openai.com")), ("models", JObject([("gpt-x", GptX)]))]

  const OpenAiDocument: Json := JObject([("openai", JObject(OpenAiInfo))])

  lemma GptXNormalized()
    ensures ModelReadable(GptX)
    ensures NormalizeModel("gpt-x", GptX.members).name == JString("gpt-x")
    ensures NormalizeModel("gpt-x", GptX.members).contextLimit == JInt(200000)
  {
    assert Keys(GptX.members) == ["limit", "cost"];
    assert IndexOf(GptX.members, "limit") == 0;
    assert IndexOf(GptX.members, "cost") == 1;
    assert Get(GptX.members, "limit").value.members == [("context", JInt(200000))];
  }

  lemma OpenAiInfoFields()
    ensures ObjectOrAbsent(OpenAiInfo, "models")
    ensures ModelEntries(OpenAiInfo) == [("gpt-x", GptX)]
    ensures GetOr(OpenAiInfo, "name", JString("openai")) == JString("OpenAI")
    ensures GetOr(OpenAiInfo, "api", JString("")) == JString("https://api.openai.com")
  {
    assert Keys(OpenAiInfo) == ["name", "api", "models"];
    assert IndexOf(OpenAiInfo, "models") == 2;
    assert IndexOf(OpenAiInfo, "api") == 1;
  }

  const OpenAiRecord: ProviderRecord := ProviderRecord(
    id := "openai",
    name := JString("OpenAI"),
    api := JString("https://api.openai.com"),
    doc := JString(""),
    modelCount := 1,
    models := [("gpt-x", NormalizeModel("gpt-x", GptX.members))])

  /** "openai" is kept with its one model. */
  lemma OpenAiNormalized()
    ensures Parsable(OpenAiDocument)
    ensures NormalizeProviders(OpenAiDocument.members) == [("openai", OpenAiRecord)]
  {
    GptXNormalized();
    OpenAiInfoFields();
    var models := [("gpt-x", GptX)];
    assert models[..0] == [];
    assert AllModelsReadable(models);
    assert NormalizeModels(models) == OpenAiRecord.models;
    assert GetOr(OpenAiInfo, "doc", JString("")) == JString("") by {
      assert Keys(OpenAiInfo) == ["name", "api", "models"];
    }
    var entries := OpenAiDocument.members;
    assert Parsable(OpenAiDocument);
    assert entries[..0] == [];
    assert NormalizeProvider("openai", OpenAiInfo) == OpenAiRecord;
  }

  /** "openai" passes the filter and yields the config naming OPENAI, its
      default model, and its one model's context. */
  lemma OpenAiConfig()
    ensures IsKeyProviderId("openai")
    ensures ConfigsDefined([("openai", OpenAiRecord)])
    ensures ProviderConfigs([("openai", OpenAiRecord)]) == [ProviderConfig(
      mafiaProvider := "OPENAI",
      originalId := "openai",
      name := JString("OpenAI"),
      api := JString("https://api.openai.com"),
      defaultModel := "gpt-5.1",
      bestModel := JString("gpt-x"),
      bestModelContext := JInt(200000),
      totalModels := 1)]
  {
    GptXNormalized();
    ExactMatchIncluded("openai");
    var providers := [("openai", OpenAiRecord)];
    assert providers[..0] == [];
    assert BestModelIndex(OpenAiRecord.models) == 0;
  }
}
