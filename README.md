# Provider selection for the quenderin code generator, in Dafny

quenderin is a command-line tool that turns a prompt into source code by asking
a large language model. It supports two kinds of backend: a local Ollama server
and an OpenAI-compatible hosted API. This project models how it picks one of
them and proves properties of that model.

- **Providers** (`providers.dfy`, from `src/providers.ts`). A `Provider` value
  is either `Ollama(modelName, baseURL)` or `OpenAI(apiKey, modelName,
  customBaseURL)`, built with the source's constructor defaults.
  - The Ollama probe goes to the URL `TagsURL` derives from the base URL: the
    first `/v1` cut out and `/api/tags` appended. `OllamaTest` takes what that
    request got back and the bound model name. It is true iff the response is
    ok, its body parses, and a model descriptor reached by the `some` scan has
    a name containing the model name.
  - The OpenAI probe (`OpenAITest`) succeeds iff listing the models did not throw.
  - Generation sends the same request shape from both providers. It returns the
    first choice's content, or `''`.
  - Auto-detection (`AutoDetect`) is a method with a loop and a probe counter.
    It is proved equal to `Detect`, a first-match search over `codellama`,
    `llama3`, `llama2`, `mistral`, `phi3`.
- **Generator facade** (`unified_generator.dfy`, from
  `src/unified-generator.ts`). The class `Generator` holds the process-wide
  cache `currentProvider` as the field `current: Option<Provider>`.
  - `Resolve` is `initializeProvider`. A cached provider wins. Otherwise the
    file configuration is merged under the call's overrides and the method
    dispatches on `provider`. Only a success writes the cache.
  - `GenerateCodeSimple` resolves first. It then calls the provider with the
    default `maxTokens` and `temperature`, trims the reply, and wraps a
    generation failure with `Code generation failed: `.
  - `TestConnection` turns every resolution error into `false`.
  - Each of these methods is proved against the pure specification `Decide`
    (a fresh resolution) and `Resolution` (resolution with the cache).
- **JavaScript built-ins** (`js_strings.dfy`). These are `indexOf`,
  `includes`, `replace` with a string pattern, and `trim` (ECMAScript's
  WhiteSpace and LineTerminator code points), defined as functions with their
  characterising properties.
- **Scenarios** (`scenarios.dfy`). Clients of the facade that replay the
  situations of `src/__tests__/unified-generator.test.ts`, each proving the
  outcome its test expects.

The model treats two things as inputs:
- **The network.** `Network = (nat, string) -> ProbeOutcome` gives the outcome
  of the k-th probe of one resolution to a URL. `ChatBackend = ChatRequest ->
  Completion` answers chat-completion calls.
- **The configuration file.** Its loaded contents are the `fileConfig`
  parameter.

`AutoDetect` and `Resolve` also return the number of probes they made, so "no
network call" can be stated.

Points of the code the model keeps as written:
- The provider tags are `ollama | openai | auto` (src/unified-generator.ts:12).
- The defaults are applied with `||` (src/unified-generator.ts:117-118). A
  `maxTokens` of 0 or a `temperature` of 0 is therefore replaced by 2048 or 0.1.
- `maxTokens` and `temperature` are read from the call's overrides only. Values
  in the configuration file are ignored (src/unified-generator.ts:117-118).
- `testConnection` reports resolution only (src/unified-generator.ts:132-141).
  It does not call `test()` on the provider it resolves. A cached provider or
  an `openai` provider is never probed. Resolving `ollama` or `auto` probes as
  `Resolve` does (src/unified-generator.ts:24-26, 60, 74-91).
- The Ollama probe cuts out the first `/v1` wherever it occurs in the base URL,
  not just a trailing `/v1` suffix.
- A probe body without a `models` list makes `test()` return `undefined`. Every
  caller treats that as false, and the model returns `false`.

## Model

| member | source | states |
|---|---|---|
| `JsStrings.IndexOfFrom` | src/providers.ts:30 | the result is the first index at or after `from` where the pattern occurs; `None` means it occurs nowhere there |
| `JsStrings.IndexOf` | src/providers.ts:30 | the first occurrence of the pattern, and none before it; `None` iff the pattern occurs nowhere |
| `JsStrings.Includes` | src/providers.ts:34 | `includes` holds iff the pattern occurs at some index (the empty pattern always does) |
| `JsStrings.RemoveFirst` | src/providers.ts:30 | `replace(pat, '')` leaves a string without the pattern unchanged; otherwise it removes exactly the first occurrence, and putting the pattern back there gives the input |
| `JsStrings.TrimStart` | src/unified-generator.ts:122 | the result is a suffix of the input; what was dropped is all trimmable, and the result does not start with a trimmable code point |
| `JsStrings.TrimEnd` | src/unified-generator.ts:122 | the result is a prefix of the input; what was dropped is all trimmable, and the result does not end with a trimmable code point |
| `JsStrings.Trim` | src/unified-generator.ts:122 | `trim()` gives an infix of the input with only trimmable code points around it and none at either of its ends |
| `JsStrings.TrimStartOf` | src/unified-generator.ts:122 | trimming the start of trimmable padding followed by a string that does not start with one gives that string |
| `JsStrings.TrimEndOf` | src/unified-generator.ts:122 | trimming the end of a string that does not end with a trimmable code point, followed by trimmable padding, gives that string |
| `JsStrings.TrimOfPadded` | src/unified-generator.ts:122 | `trim` of padding + tight core + padding is exactly the core, so `trim`'s result is determined uniquely |
| `JsStrings.TrimOfTight` | src/unified-generator.ts:122 | a string with no trimmable code point at either end is its own trim |
| `JsStrings.TrimIdempotent` | src/unified-generator.ts:122 | trimming a trimmed string changes nothing |
| `Providers.Name` | src/providers.ts:19 | the name is `Ollama` exactly for Ollama providers and `OpenAI-Compatible API` exactly for OpenAI-compatible ones |
| `Providers.NewOllama` | src/providers.ts:23-26 | a model name or base URL that is passed is bound as given; an omitted one becomes `codellama` or `http://localhost:11434/v1` |
| `Providers.NewOpenAI` | src/providers.ts:75-81 | the key and optional base URL are bound as given; an omitted model becomes `gpt-4` |
| `Providers.TagsURL` | src/providers.ts:30 | the probe URL ends in `/api/tags`; without `/v1` in the base it is base + `/api/tags`; otherwise its stem is the base with the first `/v1` removed |
| `Providers.TagsURLOfVersionedHost` | src/providers.ts:30 | a base URL made of a host without `v` followed by `/v1` loses exactly that suffix: its probe URL is host + `/api/tags` |
| `Providers.DefaultTagsURL` | src/providers.ts:23-30 | with the default base URL the probe goes to `http://localhost:11434/api/tags` |
| `Providers.AnyNameIncludes` | src/providers.ts:34 | the scan fails on an empty list or a first descriptor without a name, and succeeds at once when the first name contains the model name (the full characterisation is `AnyNameIncludesIff`) |
| `Providers.AnyNameIncludesIff` | src/providers.ts:34 | the `some` scan succeeds iff some descriptor names a model containing the model name and every descriptor before it has a name |
| `Providers.OllamaTest` | src/providers.ts:28-45 | `test()` can only be true for an ok response whose parsed body has a non-empty model list, and is true when the list names exactly the bound model (the full characterisation is `OllamaTestIff`) |
| `Providers.OllamaTestIff` | src/providers.ts:28-45 | `test()` is true iff the response is ok, the body parses, has a model list, and a reachable descriptor's name contains the model name; a network error, non-ok response, bad body or missing list gives false, never an error |
| `Providers.NamedModelsProbe` | src/providers.ts:34 | when every descriptor has a name, the probe succeeds iff some name contains the model name |
| `Providers.ProbeExamples` | src/__tests__/providers.test.ts:30-90 | `codellama:latest` matches `codellama`; a list of only `llama3:latest` does not, nor does an empty list; a network error and a non-ok response give false |
| `Providers.OpenAITest` | src/providers.ts:83-90 | the OpenAI-compatible `test()` is true iff listing models did not throw |
| `Providers.CompletionRequest` | src/providers.ts:47-61 | both providers send their own model, a system message then a user message, and the limits they were given; Ollama sends its base URL and the placeholder key, OpenAI its key and optional base URL |
| `Providers.FirstChoiceContent` | src/providers.ts:63 | a non-empty result is the first choice's content; the result is `''` iff there are no choices or the first has no or empty content |
| `Providers.GenerateCode` | src/providers.ts:47-64 | generation fails iff the chat call rejects, with its message; otherwise it returns the first choice's content as above |
| `Providers.CandidateProvider` | src/providers.ts:113-122 | detection binds each candidate model to the default base URL |
| `Providers.ProbeVerdicts` | src/providers.ts:114-123 | the k-th verdict is whether the k-th probe, of candidate k at its tags URL, succeeds |
| `Providers.FirstTrue` | src/providers.ts:120-127 | the first index at or after k with a true verdict, every earlier one false; `None` iff all from k on are false |
| `Providers.Detect` | src/providers.ts:110-131 | a provider is found iff some probe succeeds; it is the first successful candidate, bound to the default base URL, after exactly 1 + its index in `Candidates` probes (codellama first, then the four fallbacks); nothing is found iff all five probes fail, and then five were made |
| `Providers.CandidateProbe` | src/providers.ts:113-123 | the probe detection makes of candidate k, at the tags URL of its default base URL, is what the k-th verdict records |
| `Providers.DetectedByItsProbe` | src/providers.ts:110-131 | a provider found by detection is one whose own probe succeeded, and that probe was the last one made |
| `Providers.CodellamaFirst` | src/providers.ts:113-117 | when codellama's probe succeeds, detection returns codellama after one probe |
| `Providers.FallbackToLlama3` | src/__tests__/providers.test.ts:135-159 | codellama's probe lists no models and llama3's lists `llama3:latest`: detection returns llama3 after two probes |
| `Providers.AutoDetect` | src/providers.ts:110-131 | the loop with early return yields exactly the provider and probe count of `Detect` |
| `UnifiedGenerator.Merge` | src/unified-generator.ts:28-29 | each field of the merged configuration comes from the overrides when present, else from the file |
| `UnifiedGenerator.OrElse` | src/unified-generator.ts:56 | `x || fallback`: a present non-empty string is kept, an absent or empty one becomes the fallback |
| `UnifiedGenerator.IsAutoTag` | src/unified-generator.ts:32 | detection runs iff the tag is absent, empty or `auto` |
| `UnifiedGenerator.ResolveErrorMessage` | src/unified-generator.ts:41-93 | each message opens with its throw site's first line (`No LLM provider found!`, `Ollama not available!`, `OpenAI API key required!`, `Unknown provider: `); the Ollama message ends with `Then run: ollama pull ` followed by the model it failed on; the unknown-provider message is the phrase followed by the tag; the first two characters already tell the four kinds apart |
| `UnifiedGenerator.ResolveErrorMessageInjective` | src/unified-generator.ts:41-93 | different resolution errors, including the same kind naming different models or tags, never share a message |
| `UnifiedGenerator.GenerateErrorMessage` | src/unified-generator.ts:123-126 | a generation failure reads `Code generation failed: ` + the original message; a resolution error keeps its own message; the prefix is present iff the failure came from generation |
| `UnifiedGenerator.Decide` | src/unified-generator.ts:28-93 | with no cache: an absent, empty or `auto` tag runs detection and fails with NoProviderFound when it finds nothing; `ollama` probes once, with the model defaulting to codellama, and fails with OllamaUnavailable; `openai` never probes and fails with MissingApiKey when the key is absent or empty; any other tag fails with UnknownProvider; every success is a sound provider (a non-empty model, and a non-empty key for OpenAI) |
| `UnifiedGenerator.OllamaResolvedByItsProbe` | src/unified-generator.ts:32-72 | an Ollama provider is only ever resolved because its own probe succeeded, and that probe was the last one the resolution made |
| `UnifiedGenerator.Resolution` | src/unified-generator.ts:23-29 | a cached provider is returned for any overrides with no probe; otherwise the merged configuration decides |
| `UnifiedGenerator.MaxTokensFor` | src/unified-generator.ts:117 | the call's `maxTokens` when present and non-zero, else 2048; never 0 |
| `UnifiedGenerator.TemperatureFor` | src/unified-generator.ts:118 | the call's `temperature` when present and non-zero, else 0.1; never 0 |
| `UnifiedGenerator.Generation` | src/unified-generator.ts:113-126 | the provider is asked with the system prompt and the defaulted limits; a rejection becomes GenerationFailed with its message; a reply becomes the trimmed first choice, with no surrounding whitespace |
| `UnifiedGenerator.Generator.constructor` | src/unified-generator.ts:9 | a new process has no cached provider |
| `UnifiedGenerator.Generator.Resolve` | src/unified-generator.ts:23-94 | returns what `Resolution` gives for the cache before the call; the cache is written iff resolution succeeds and only ever holds a sound provider; a returned provider, cached or new, is sound |
| `UnifiedGenerator.Generator.GenerateCodeSimple` | src/unified-generator.ts:99-127 | a resolution error is returned unwrapped; otherwise the result is `Generation` through the resolved provider; the provider stays cached even when generation fails; the provider asked is sound, so the request names a non-empty model |
| `UnifiedGenerator.Generator.TestConnection` | src/unified-generator.ts:132-141 | true iff resolution succeeds, false for every resolution error; the cache changes as in `Resolve` |
| `GeneratorScenarios.DetectsCodellama` | src/unified-generator.ts:32-39 | with no configuration and codellama available, a fresh resolution picks codellama after one probe |
| `GeneratorScenarios.GeneratesWithDefaults` | src/__tests__/unified-generator.test.ts:22-45 | a backend that answers only a 2048-token, temperature-0.1 codellama request gets that request and its text is returned as it is |
| `GeneratorScenarios.TightReply` | src/unified-generator.ts:113-126 | with no overrides, a reply whose single choice has no surrounding whitespace is returned unchanged |
| `GeneratorScenarios.AutoDetectedGeneration` | src/__tests__/unified-generator.test.ts:22-45 | `generateCodeSimple` with no configuration returns the auto-detected provider's text |
| `GeneratorScenarios.NothingDetected` | src/__tests__/unified-generator.test.ts:47-58 | when every probe fails, generation rejects with a message opening `No LLM provider found!` and the connection test answers false |
| `GeneratorScenarios.OpenAIWithoutKey` | src/__tests__/unified-generator.test.ts:84-97 | openai without a key fails with a message opening `OpenAI API key required!` after no probe |
| `GeneratorScenarios.OpenAIFromFile` | src/__tests__/unified-generator.test.ts:60-82 | openai with a key in the file resolves to the OpenAI-compatible provider with that key and model, with no probe |
| `GeneratorScenarios.GeneratesWithOpenAI` | src/__tests__/unified-generator.test.ts:60-82 | the OpenAI-compatible provider with key `test-key` and model `gpt-4` returns `const result = 42;` as its endpoint answered it |
| `GeneratorScenarios.OpenAIGeneration` | src/__tests__/unified-generator.test.ts:60-82 | with openai, a key and gpt-4 in the file, `generateCodeSimple` returns `const result = 42;` |
| `GeneratorScenarios.ConnectionSucceeds` | src/__tests__/unified-generator.test.ts:127-147 | with no configuration and codellama available, `testConnection` answers true and the cached provider is named `Ollama` |
| `GeneratorScenarios.TimeoutIsWrapped` | src/__tests__/unified-generator.test.ts:99-123 | a chat call rejected with `Network timeout` surfaces as `Code generation failed: Network timeout` |
| `GeneratorScenarios.GenerationRejected` | src/__tests__/unified-generator.test.ts:99-123 | through the facade, a rejected chat call surfaces as `Code generation failed: Network timeout` |
| `GeneratorScenarios.CachedProviderWins` | src/unified-generator.ts:23-26 | after a successful resolution, a later one with other overrides and another network returns the same provider with no probe; after a failed one, the later call resolves afresh |

## Left out

- HTTP (`fetch`) and the `openai` SDK client are left out; the network and the chat endpoint are parameters. The URL of the SDK's models listing and chat call is not modelled.
- Console logging is left out. That includes the diagnostic listing the available models when the probe finds no match.
- Configuration loading and saving (src/config.ts) is file I/O; its result is the `fileConfig` parameter.
- src/index.ts, src/interactive-setup.ts, src/ui-server.ts, ui/app.js and src/generator.ts are not part of this model. They are the CLI, the setup prompts, the web UI and the in-process `node-llama-cpp` generator.
- JavaScript value oddities are left out:
  - a property present with the value `undefined`, which the spread would copy over a file value;
  - non-string values in the configuration;
  - `NaN` for `maxTokens`;
  - a response without a `choices` array.
- Strings are sequences of Unicode scalar values, while JavaScript strings are sequences of UTF-16 code units. Lone surrogates cannot be represented, and indices count code points rather than code units. For well-formed strings, `includes`, `replace` and `trim` give the same results either way.
- `temperature` is a `real`. It is only defaulted and passed through, so floating-point behaviour is not modelled.
- Async interleaving and the race on `currentProvider` are left out. Calls are modelled one after another.
