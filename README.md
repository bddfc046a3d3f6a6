# OpenRouter models parser, modelled in Dafny

This project models the reshaping pipeline of `scripts/parse_openrouter_models.py`.
The pipeline reads a models.dev document, which maps provider ids to provider
objects, and reshapes it for the Mafia AI Benchmark. It has three stages and a
report:

1. **Normalizer** (`parse_openrouter_models`). It turns the decoded document
   into a map from provider id to a provider record. Each provider record
   holds its models as a map from model id to a model record, and missing
   fields get fixed defaults. Entries that are not objects are skipped. A
   provider is kept only if at least one of its models survives.
2. **Key-provider filter** (`extract_key_providers`). It keeps the providers
   whose lower-cased id contains one of eleven allowlist tokens.
3. **Config generator** (`generate_provider_configs`). For each filtered
   provider whose id is in an eleven-entry table, it emits one flat record.
   The record names the provider's model with the largest context window.
4. **Report** (`main`). It counts all providers and the key providers, and
   gathers the key providers and their configs.

Modules, one per stage:

- `Dicts` (`dicts.dfy`): Python dicts as insertion-ordered sequences of
  `(key, value)` pairs. `Put` is `d[k] = v`: an existing key keeps its
  position, a new key is appended. `Get` and `GetOr` are `d.get`.
- `JsonValues` (`json.dfy`): the decoded JSON value. It has objects, strings,
  ints, bools and null; anything else, floats included, is an opaque `JOther`.
- `Normalizer` (`normalizer.dfy`): the normalizer. `NormalizeModel` is the
  record built for one model entry (lines 32-45). The specification
  functions `NormalizeModels` and `NormalizeProviders` describe its result.
  The methods `CollectModels` and `ParseOpenRouterModels` build the result
  with the source's loops and are proved equal to those functions.
- `KeyProviderFilter` (`key_providers.dfy`): the filter. `ExtractKeyProviders`
  has the source's double loop. It visits the allowlist in an unspecified
  order, because the source keeps the allowlist in a Python `set`. `Lower`
  is `full_id.lower()` and `Contains` is the substring test `in` of line 106.
- `ConfigGenerator` (`configs.dfy`): the config generator. `max(...,
  key=context_limit)` becomes the function `BestModelIndex`. `MakeConfig` is
  the record appended for one provider (lines 137-146).
  `GenerateProviderConfigs` is the source's loop, proved equal to the
  specification function `ProviderConfigs`.
- `ReportBuilder` (`report.dfy`): `main` without its I/O.
- `Scenarios` (`scenarios.dfy`): two example documents, worked through by
  hand, whose normalized form and config are proved.

Two facts about the code that the model keeps:

- Ties for the largest context go to the first maximal model in iteration
  order, as Python's `max` keeps the first maximum.
- The filter lower-cases only the id; every allowlist token is already lower
  case.

## Model

| member | source | states |
|---|---|---|
| `Dicts.Put` | scripts/parse_openrouter_models.py:103-107 | `d[k] = v`: the new key is appended and an existing key keeps its place; `k` then maps to `v` and every other key keeps its value; distinct keys stay distinct |
| `Dicts.SubDictSize` | scripts/parse_openrouter_models.py:181-182 | a dict whose keys all occur in another dict has at most as many entries |
| `Normalizer.CollectModels` | scripts/parse_openrouter_models.py:26-45 | the inner loop returns the specification's normalized models; its keys are exactly the keys of the object-valued model entries, and they are distinct |
| `Normalizer.ParseOpenRouterModels` | scripts/parse_openrouter_models.py:16-57 | the normalizer returns the specification's normalized document; its keys are exactly the ids of kept provider entries; keys are distinct; every record has `id` equal to its key and `model_count == len(models) >= 1` |
| `Normalizer.NormalizeModelsKeys` | scripts/parse_openrouter_models.py:28-32 | a model key survives if and only if some entry under that key is an object |
| `Normalizer.NormalizeModelsValues` | scripts/parse_openrouter_models.py:28-45 | for distinct input keys: distinct output keys; an object-valued entry maps to its normalized record under the same key; any other entry is absent |
| `Normalizer.NormalizeProviderKept` | scripts/parse_openrouter_models.py:47 | a provider has at least one normalized model if and only if it has an object-valued model entry |
| `Normalizer.NormalizeProvidersKeys` | scripts/parse_openrouter_models.py:18-55 | a provider id is in the output if and only if its entry is an object with an object-valued model entry |
| `Normalizer.NormalizeProvidersValues` | scripts/parse_openrouter_models.py:18-55 | for distinct input keys: distinct output keys; a kept entry maps to its normalized record under the same id; a non-object entry, or one without object models, is absent |
| `Normalizer.NormalizeProvidersWellFormed` | scripts/parse_openrouter_models.py:47-55 | every normalized record has `id` equal to its key and `model_count == len(models) >= 1` |
| `Normalizer.ModelDefaults` | scripts/parse_openrouter_models.py:33-44 | missing `id`/`name` default to the model key; `family`, `knowledge` and `release_date` default to `''`; the capability flags default to `false`; limits and costs default to 0 when `limit`/`cost` or their inner key is absent |
| `Normalizer.ProviderDefaults` | scripts/parse_openrouter_models.py:22-24 | a missing `name` defaults to the provider id; missing `api` and `doc` default to `''`; without `models` there are no models |
| `KeyProviderFilter.ExtractKeyProviders` | scripts/parse_openrouter_models.py:92-109 | in any allowlist order, a provider id is in the result if and only if some allowlist token is a substring of its lower-cased id; it then maps to its input value, so the result is a sub-dict of the input with distinct keys |
| `KeyProviderFilter.ExactMatchIncluded` | scripts/parse_openrouter_models.py:101-103 | an id equal to a token also passes the substring test, so the exact-match branch adds no key and changes no value (it can change the insertion order, which is not modelled) |
| `KeyProviderFilter.TokenMatchesItself` | scripts/parse_openrouter_models.py:96-99 | each allowlist token is lower case and so occurs in its own lower case |
| `ConfigGenerator.BestModelIndex` | scripts/parse_openrouter_models.py:135 | `max` by `context_limit` returns a model whose context is at least every other model's, and it is the first such model in iteration order |
| `ConfigGenerator.FirstMaxUnique` | scripts/parse_openrouter_models.py:135 | the first maximal model is unique, so the selected best model is determined |
| `ConfigGenerator.GenerateProviderConfigs` | scripts/parse_openrouter_models.py:111-149 | the loop returns exactly the specification's configs for the providers |
| `ConfigGenerator.ConfigsFollowProviders` | scripts/parse_openrouter_models.py:130-131 | the configs' `original_id`s are the providers' ids that are in the table, in the providers' iteration order |
| `ConfigGenerator.ExactlyOneConfig` | scripts/parse_openrouter_models.py:116-147 | with distinct ids, each id present in both the providers and the table has exactly one config, and every other id has none |
| `ConfigGenerator.ConfigsDescribeProviders` | scripts/parse_openrouter_models.py:132-146 | each config copies `mafia_provider` and `default_model` from the table, and `original_id`, `name`, `api` and `total_models` from its provider; `best_model` and `best_model_context` come from the provider's first model with the largest context |
| `ReportBuilder.KeyProvidersConfigsDefined` | scripts/parse_openrouter_models.py:167-168 | the filtered normalized providers satisfy what the config generator needs: every provider in the table has a model, and its contexts can be compared |
| `ReportBuilder.BuildReport` | scripts/parse_openrouter_models.py:159-186 | `total_providers` is the number of normalized providers and `key_providers` is the number of filtered providers, with `key_providers <= total_providers`; the report's providers are the filtered ones and its configs are theirs |
| `Scenarios.AcmeNormalized` | scripts/parse_openrouter_models.py:16-57 | a provider "acme" with two object models is kept, with `model_count` 2 and its own name |
| `Scenarios.AcmeNotKeyProvider` | scripts/parse_openrouter_models.py:96-107 | "acme" contains no allowlist token, so the filter drops it |
| `Scenarios.OpenAiNormalized` | scripts/parse_openrouter_models.py:16-57 | a provider "openai" with one model is normalized with its name, api, an empty doc and one model |
| `Scenarios.OpenAiConfig` | scripts/parse_openrouter_models.py:111-149 | that provider passes the filter and yields the single config `OPENAI` / `gpt-5.1` with best model `gpt-x` and context 200000 |

## Left out

- Reading the input file and decoding JSON (lines 13-14) are not modelled. The normalizer starts from the decoded value. For that reason the model requires that the top-level object and each `models` object have distinct keys, as any decoded dict does.
- The input-file existence check and its early return (lines 154-156) are I/O and are not modelled.
- Writing the report with `json.dump` (lines 188-189) and all console output are not modelled. This covers `print_provider_summary` (lines 59-90) with its float formatting, and the printing in `main`.
- Places where the source raises are modelled as preconditions, not as error results. These are: a document that is not an object; `models`, `limit` or `cost` present but not an object; and `max` on models it cannot compare.
- Cost values are carried as opaque JSON values. The model does no arithmetic on them, and floats are `JOther`.
- The insertion order of the filtered providers is not modelled. It depends on the iteration order of a Python `set`, which is hash-seeded. The filter is specified by its keys and values only.
- KeyProviderFilter.ExtractKeyProviders: `str.lower()` is modelled for ASCII letters only. Python also lower-cases other characters, and a few of them lower-case to ASCII letters (for example the Kelvin sign to `k`). For ids with such characters, the model can leave out a provider that the source keeps.
- ConfigGenerator.BestModelIndex: when a provider has two or more models, the model requires every `context_limit` to be an int or a bool. The same requirement reaches every member that requires `ConfigsDefined` (`ConfigGenerator.GenerateProviderConfigs`, `ConfigGenerator.ConfigsFollowProviders`, `ConfigGenerator.ExactlyOneConfig`, `ConfigGenerator.ConfigsDescribeProviders`) and, through `MappedContextsComparable`, `ReportBuilder.BuildReport`. Python can also order floats against ints, and strings among themselves. Those inputs are outside the model.
