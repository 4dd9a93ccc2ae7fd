/** The generator facade: resolves which provider to use from the call's
    overrides, the configuration file and auto-detection, caches the result for
    the life of the process, and generates code or reports connectivity through
    it. The configuration file's contents, the probe network and the chat
    backend are parameters. */
module UnifiedGenerator {
  import opened Wrappers
  import opened JsStrings
  import opened Providers

  const DefaultMaxTokens: int := 2048
  const DefaultTemperature: real := 0.1
  const SystemPrompt: string :=
    "You are an expert code generator. Given a prompt, generate only the TypeScript code required to fulfill the request. "
    + "Do not add any conversational text or markdown formatting. Output clean, production-ready code with appropriate comments."
  /** What a failed generation's message starts with. */
  const GenerationPrefix: string := "Code generation failed: "

  /** `SimpleGeneratorConfig`; the configuration file is read into the same
      shape. Every field is optional; `None` is an absent property. */
  datatype GenConfig = GenConfig(
    provider: Option<string>, apiKey: Option<string>, modelName: Option<string>,
    baseURL: Option<string>, maxTokens: Option<int>, temperature: Option<real>)

  const EmptyConfig: GenConfig := GenConfig(None, None, None, None, None, None)

  /** `{ ...fileConfig, ...overrides }`: each property comes from the overrides
      when they have it, else from the file. */
  function Merge(fileConfig: GenConfig, overrides: GenConfig): (m: GenConfig)
    ensures overrides.provider.Some? ==> m.provider == overrides.provider
    ensures overrides.provider.None? ==> m.provider == fileConfig.provider
    ensures overrides.apiKey.Some? ==> m.apiKey == overrides.apiKey
    ensures overrides.apiKey.None? ==> m.apiKey == fileConfig.apiKey
    ensures overrides.modelName.Some? ==> m.modelName == overrides.modelName
    ensures overrides.modelName.None? ==> m.modelName == fileConfig.modelName
    ensures overrides.baseURL.Some? ==> m.baseURL == overrides.baseURL
    ensures overrides.baseURL.None? ==> m.baseURL == fileConfig.baseURL
    ensures overrides.maxTokens.Some? ==> m.maxTokens == overrides.maxTokens
    ensures overrides.maxTokens.None? ==> m.maxTokens == fileConfig.maxTokens
    ensures overrides.temperature.Some? ==> m.temperature == overrides.temperature
    ensures overrides.temperature.None? ==> m.temperature == fileConfig.temperature
  {
    GenConfig(
      if overrides.provider.Some? then overrides.provider else fileConfig.provider,
      if overrides.apiKey.Some? then overrides.apiKey else fileConfig.apiKey,
      if overrides.modelName.Some? then overrides.modelName else fileConfig.modelName,
      if overrides.baseURL.Some? then overrides.baseURL else fileConfig.baseURL,
      if overrides.maxTokens.Some? then overrides.maxTokens else fileConfig.maxTokens,
      if overrides.temperature.Some? then overrides.temperature else fileConfig.temperature)
  }

  /** An optional string is truthy when present and non-empty. */
  predicate Truthy(s: Option<string>)
  {
    s.Some? && s.value != ""
  }

  /** `s || fallback` on an optional string. */
  function OrElse(s: Option<string>, fallback: string): (r: string)
    ensures Truthy(s) ==> r == s.value
    ensures !Truthy(s) ==> r == fallback
  {
    if Truthy(s) then s.value else fallback
  }

  /** `!provider || provider === 'auto'`: the tags that run auto-detection. */
  predicate IsAutoTag(tag: Option<string>)
    ensures IsAutoTag(tag) <==> tag == None || tag == Some("") || tag == Some("auto")
  {
    !Truthy(tag) || tag.value == "auto"
  }

  /** One error per throw site of the resolution. */
  datatype ResolveError =
    | NoProviderFound                 // auto-detection found nothing
    | OllamaUnavailable(model: string) // the explicitly chosen Ollama model failed its probe
    | MissingApiKey                   // openai chosen without an API key
    | UnknownProvider(tag: string)    // any other provider tag

  /** What `generateCodeSimple` can fail with: a resolution error, passed on as
      it is, or a generation failure carrying the backend's message. */
  datatype GenerateError = ResolveFailed(cause: ResolveError) | GenerationFailed(message: string)

  /** The first line of each resolution error's message. */
  const NoProviderPhrase: string := "No LLM provider found!"
  const OllamaUnavailablePhrase: string := "Ollama not available!"
  const MissingKeyPhrase: string := "OpenAI API key required!"
  const UnknownProviderPhrase: string := "Unknown provider: "

  /** The remediation text after the first line of NoProviderFound's message. */
  const NoProviderHelp: string :=
    "\n\nOptions:\n1. Install Ollama: https://ollama.ai\n   Then run: ollama pull codellama\n\n"
    + "2. Use OpenAI API:\n   Create quenderin.json with:\n"
    + "   {\"provider\": \"openai\", \"apiKey\": \"sk-...\", \"modelName\": \"gpt-4\"}\n\n"
    + "3. Download a GGUF model (see models/README.md)\n"

  /** The remediation text after the first line of MissingApiKey's message. */
  const MissingKeyHelp: string :=
    "\nAdd to quenderin.json:\n{\"provider\": \"openai\", \"apiKey\": \"sk-...\", \"modelName\": \"gpt-4\"}"

  /** The first line of the message each resolution throw site raises. */
  function FirstLine(e: ResolveError): string
  {
    match e
    case NoProviderFound => NoProviderPhrase
    case OllamaUnavailable(_) => OllamaUnavailablePhrase
    case MissingApiKey => MissingKeyPhrase
    case UnknownProvider(_) => UnknownProviderPhrase
  }

  /** The parts of OllamaUnavailable's message between its first line and the
      install command, around the first mention of the model. */
  const OllamaRunningHint: string := "\nMake sure Ollama is running and has the "
  const OllamaInstallHint: string := " model installed.\n\nInstall: https://ollama.ai\n"
  /** The command that closes OllamaUnavailable's message, before the model name. */
  const OllamaPullCommand: string := "Then run: ollama pull "

  /** The message each resolution throw site raises: its own first line; for
      an unavailable Ollama model, the install command for that model at the
      end; for an unknown provider, the tag. */
  function ResolveErrorMessage(e: ResolveError): (msg: string)
    ensures StartsWith(msg, FirstLine(e))
    ensures e.OllamaUnavailable? ==>
      && |msg| == |OllamaUnavailablePhrase + OllamaRunningHint + OllamaInstallHint + OllamaPullCommand| + 2 * |e.model|
      && EndsWith(msg, OllamaPullCommand + e.model)
    ensures e.UnknownProvider? ==> msg == UnknownProviderPhrase + e.tag
    // the first two characters already tell the four kinds apart
    ensures |msg| >= 2
    ensures msg[0] == 'N' <==> e.NoProviderFound?
    ensures msg[0] == 'U' <==> e.UnknownProvider?
    ensures msg[0] == 'O' && msg[1] == 'l' <==> e.OllamaUnavailable?
    ensures msg[0] == 'O' && msg[1] == 'p' <==> e.MissingApiKey?
  {
    match e
    case NoProviderFound =>
      assert NoProviderPhrase[0] == 'N';
      Opening(NoProviderPhrase, NoProviderHelp);
      NoProviderPhrase + NoProviderHelp
    case OllamaUnavailable(model) =>
      var rest := OllamaRunningHint + model + OllamaInstallHint + (OllamaPullCommand + model);
      assert OllamaUnavailablePhrase[0] == 'O' && OllamaUnavailablePhrase[1] == 'l';
      Opening(OllamaUnavailablePhrase, rest);
      NamedTwice(OllamaUnavailablePhrase, OllamaRunningHint, OllamaInstallHint, OllamaPullCommand, model);
      OllamaUnavailablePhrase + rest
    case MissingApiKey =>
      assert MissingKeyPhrase[0] == 'O' && MissingKeyPhrase[1] == 'p';
      Opening(MissingKeyPhrase, MissingKeyHelp);
      MissingKeyPhrase + MissingKeyHelp
    case UnknownProvider(tag) =>
      assert UnknownProviderPhrase[0] == 'U';
      Opening(UnknownProviderPhrase, tag);
      UnknownProviderPhrase + tag
  }

  /** A message opening with `head` starts with its first two characters. */
  lemma Opening(head: string, rest: string)
    requires |head| >= 2
    ensures StartsWith(head + rest, head)
    ensures (head + rest)[0] == head[0] && (head + rest)[1] == head[1]
  {
    StartsWithConcat(head, rest);
  }

  /** The shape of a message that names `m` after `b` and again at its end, after `d`. */
  lemma NamedTwice(a: string, b: string, c: string, d: string, m: string)
    ensures var msg := a + (b + m + c + (d + m));
      |msg| == |a + b + c + d| + 2 * |m| && EndsWith(msg, d + m)
  {
    EndsWithConcat(a + (b + m + c), d + m);
    assert a + (b + m + c + (d + m)) == a + (b + m + c) + (d + m);
  }

  /** Each resolution error has its own message: the message determines the
      error, down to the model or the tag it names. */
  lemma ResolveErrorMessageInjective(e1: ResolveError, e2: ResolveError)
    ensures ResolveErrorMessage(e1) == ResolveErrorMessage(e2) ==> e1 == e2
  {
    var m1, m2 := ResolveErrorMessage(e1), ResolveErrorMessage(e2);
    if m1 == m2 {
      if e1.UnknownProvider? {
        assert e1.tag == m1[|UnknownProviderPhrase|..] == e2.tag;
      } else if e1.OllamaUnavailable? {
        assert |e1.model| == |e2.model|;
        EndsWithTail(m1, OllamaPullCommand, e1.model);
        EndsWithTail(m2, OllamaPullCommand, e2.model);
      }
    }
  }

  /** The message `generateCodeSimple` rejects with: generation failures are
      prefixed, resolution errors are not, so the prefix tells the two apart. */
  function GenerateErrorMessage(e: GenerateError): (msg: string)
    ensures e.GenerationFailed? ==> msg == GenerationPrefix + e.message
    ensures e.ResolveFailed? ==> msg == ResolveErrorMessage(e.cause)
    ensures StartsWith(msg, GenerationPrefix) <==> e.GenerationFailed?
  {
    match e
    case ResolveFailed(cause) =>
      var m := ResolveErrorMessage(cause);
      assert GenerationPrefix[0] == 'C';
      assert |m| >= |GenerationPrefix| ==> m[..|GenerationPrefix|][0] == m[0];
      m
    case GenerationFailed(message) =>
      assert (GenerationPrefix + message)[..|GenerationPrefix|] == GenerationPrefix;
      GenerationPrefix + message
  }

  /** What the facade may cache: a provider with a model name and, for the
      OpenAI-compatible API, an API key. */
  predicate Sound(p: Provider)
  {
    p.modelName != "" && (p.OpenAI? ==> p.apiKey != "")
  }

  /** A resolution's outcome and the number of probes it made. */
  datatype Resolved = Resolved(result: Result<Provider, ResolveError>, probes: nat)

  /** Resolution with an empty cache, from the merged configuration. */
  function Decide(merged: GenConfig, net: Network): (r: Resolved)
    // auto-detection: its provider, or NoProviderFound, after its probes
    ensures IsAutoTag(merged.provider) ==>
      var d := Detect(net);
      && r.probes == d.probes
      && (d.found.Some? ==> r.result == Success(d.found.value))
      && (d.found.None? ==> r.result == Failure(NoProviderFound))
    // ollama: one probe of the chosen model at the chosen or default base URL
    ensures !IsAutoTag(merged.provider) && merged.provider.value == "ollama" ==>
      var p := NewOllama(Some(OrElse(merged.modelName, DefaultOllamaModel)), merged.baseURL);
      && r.probes == 1
      && (OllamaTest(net(0, TagsURL(p.baseURL)), p.modelName) ==> r.result == Success(p))
      && (!OllamaTest(net(0, TagsURL(p.baseURL)), p.modelName) ==> r.result == Failure(OllamaUnavailable(p.modelName)))
    // openai: the key is checked, nothing is probed
    ensures !IsAutoTag(merged.provider) && merged.provider.value == "openai" ==>
      && r.probes == 0
      && (!Truthy(merged.apiKey) ==> r.result == Failure(MissingApiKey))
      && (Truthy(merged.apiKey) ==> r.result == Success(NewOpenAI(merged.apiKey.value,
                                         Some(OrElse(merged.modelName, DefaultOpenAIModel)), merged.baseURL)))
    ensures !IsAutoTag(merged.provider) && merged.provider.value !in {"ollama", "openai"} ==>
      r == Resolved(Failure(UnknownProvider(merged.provider.value)), 0)
    // what holds of every resolution
    ensures r.probes <= |Candidates|
    ensures r.result.Success? ==> Sound(r.result.value)
  {
    if IsAutoTag(merged.provider) then
      var d := Detect(net);
      if d.found.Some? then
        Resolved(Success(d.found.value), d.probes)
      else Resolved(Failure(NoProviderFound), d.probes)
    else if merged.provider.value == "ollama" then
      var p := NewOllama(Some(OrElse(merged.modelName, DefaultOllamaModel)), merged.baseURL);
      if OllamaTest(net(0, TagsURL(p.baseURL)), p.modelName) then Resolved(Success(p), 1)
      else Resolved(Failure(OllamaUnavailable(p.modelName)), 1)
    else if merged.provider.value == "openai" then
      if !Truthy(merged.apiKey) then Resolved(Failure(MissingApiKey), 0)
      else Resolved(Success(NewOpenAI(merged.apiKey.value,
                                      Some(OrElse(merged.modelName, DefaultOpenAIModel)), merged.baseURL)), 0)
    else Resolved(Failure(UnknownProvider(merged.provider.value)), 0)
  }

  /** An Ollama provider is only ever resolved by its own probe succeeding, and
      that probe is the last one the resolution made. */
  lemma OllamaResolvedByItsProbe(merged: GenConfig, net: Network)
    ensures var r := Decide(merged, net);
      r.result.Success? && r.result.value.Ollama? ==>
        r.probes >= 1 && OllamaTest(net(r.probes - 1, TagsURL(r.result.value.baseURL)), r.result.value.modelName)
  {
    var r := Decide(merged, net);
    if IsAutoTag(merged.provider) {
      DetectedByItsProbe(net);
      var d := Detect(net);
      assert r.probes == d.probes && (r.result.Success? ==> r.result.value == d.found.value);
    } else if merged.provider.value == "ollama" {
      assert r.probes == 1;
    } else {
      assert r.result.Success? ==> r.result.value.OpenAI?;
    }
  }

  /** `initializeProvider(overrides)` against the cache: a cached provider is
      returned for any overrides, without reading the file or probing. */
  function Resolution(cache: Option<Provider>, fileConfig: GenConfig, overrides: GenConfig, net: Network): (r: Resolved)
    ensures cache.Some? ==> r == Resolved(Success(cache.value), 0)
    ensures cache.None? ==> r == Decide(Merge(fileConfig, overrides), net)
  {
    match cache
    case Some(p) => Resolved(Success(p), 0)
    case None => Decide(Merge(fileConfig, overrides), net)
  }

  /** `config.maxTokens || 2048`: taken from the call's overrides only. */
  function MaxTokensFor(overrides: GenConfig): (n: int)
    ensures n != 0
    ensures overrides.maxTokens.Some? && overrides.maxTokens.value != 0 ==> n == overrides.maxTokens.value
    ensures overrides.maxTokens.None? || overrides.maxTokens.value == 0 ==> n == DefaultMaxTokens
  {
    if overrides.maxTokens.Some? && overrides.maxTokens.value != 0 then overrides.maxTokens.value else DefaultMaxTokens
  }

  /** `config.temperature || 0.1`: taken from the call's overrides only. */
  function TemperatureFor(overrides: GenConfig): (t: real)
    ensures t != 0.0
    ensures overrides.temperature.Some? && overrides.temperature.value != 0.0 ==> t == overrides.temperature.value
    ensures overrides.temperature.None? || overrides.temperature.value == 0.0 ==> t == DefaultTemperature
  {
    if overrides.temperature.Some? && overrides.temperature.value != 0.0 then overrides.temperature.value
    else DefaultTemperature
  }

  /** The part of `generateCodeSimple` inside its try: ask the resolved provider
      with the fixed system prompt and the defaulted limits, trim what comes
      back, and wrap a rejection. */
  function Generation(p: Provider, prompt: string, overrides: GenConfig, backend: ChatBackend)
    : (r: Result<string, GenerateError>)
    ensures var answer := backend(CompletionRequest(p, prompt, SystemPrompt, MaxTokensFor(overrides), TemperatureFor(overrides)));
      && (r.Failure? <==> answer.CallFailed?)
      && (r.Failure? ==> r.error == GenerationFailed(answer.message))
      && (r.Success? ==> answer.Completed? && Tight(r.value) && r.value == Trim(FirstChoiceContent(answer.choices)))
  {
    match GenerateCode(p, prompt, SystemPrompt, MaxTokensFor(overrides), TemperatureFor(overrides), backend)
    case Failure(message) => Failure(GenerationFailed(message))
    case Success(text) => Success(Trim(text))
  }

  /** The facade's process-wide state: the provider cache `currentProvider`. */
  class Generator {
    var current: Option<Provider>

    /** Whatever is cached is a provider resolution could have produced. */
    ghost predicate Valid()
      reads this
    {
      current.Some? ==> Sound(current.value)
    }

    /** A fresh process: nothing cached. */
    constructor ()
      ensures Valid() && current == None
    {
      current := None;
    }

    /** `initializeProvider(overrides)`; the file configuration is what
        `loadConfig()` returned. The cache is written only on success. */
    method Resolve(overrides: GenConfig, fileConfig: GenConfig, net: Network)
      returns (r: Result<Provider, ResolveError>, probes: nat)
      requires Valid()
      modifies this
      ensures Valid()
      ensures Resolved(r, probes) == Resolution(old(current), fileConfig, overrides, net)
      ensures r.Success? ==> Sound(r.value)
      ensures current == if r.Success? then Some(r.value) else old(current)
    {
      if current.Some? {
        return Success(current.value), 0;
      }
      var merged := Merge(fileConfig, overrides);
      if IsAutoTag(merged.provider) {
        var detected;
        detected, probes := AutoDetect(net);
        if detected.Some? {
          current := detected;
          return Success(detected.value), probes;
        }
        return Failure(NoProviderFound), probes;
      }
      var tag := merged.provider.value;
      if tag == "ollama" {
        var provider := NewOllama(Some(OrElse(merged.modelName, DefaultOllamaModel)), merged.baseURL);
        var available := OllamaTest(net(0, TagsURL(provider.baseURL)), provider.modelName);
        if !available {
          return Failure(OllamaUnavailable(provider.modelName)), 1;
        }
        current := Some(provider);
        return Success(provider), 1;
      }
      if tag == "openai" {
        if !Truthy(merged.apiKey) {
          return Failure(MissingApiKey), 0;
        }
        var provider := NewOpenAI(merged.apiKey.value, Some(OrElse(merged.modelName, DefaultOpenAIModel)), merged.baseURL);
        current := Some(provider);
        return Success(provider), 0;
      }
      return Failure(UnknownProvider(tag)), 0;
    }

    /** `generateCodeSimple(prompt, overrides)`: resolution errors pass through
        unwrapped (resolution is outside the try); a provider resolved here
        stays cached even when generation then fails. */
    method GenerateCodeSimple(prompt: string, overrides: GenConfig, fileConfig: GenConfig, net: Network,
                              backend: ChatBackend)
      returns (r: Result<string, GenerateError>)
      requires Valid()
      modifies this
      ensures Valid()
      ensures var resolved := Resolution(old(current), fileConfig, overrides, net).result;
        && current == (if resolved.Success? then Some(resolved.value) else old(current))
        && (resolved.Failure? ==> r == Failure(ResolveFailed(resolved.error)))
        && (resolved.Success? ==> r == Generation(resolved.value, prompt, overrides, backend))
        // the provider asked is sound: its model name, which the request carries, is non-empty
        && (resolved.Success? ==> Sound(resolved.value))
    {
      var resolved, _ := Resolve(overrides, fileConfig, net);
      if resolved.Failure? {
        return Failure(ResolveFailed(resolved.error));
      }
      var generated := GenerateCode(resolved.value, prompt, SystemPrompt,
                                    MaxTokensFor(overrides), TemperatureFor(overrides), backend);
      if generated.Failure? {
        return Failure(GenerationFailed(generated.error));
      }
      return Success(Trim(generated.value));
    }

    /** `testConnection(overrides)`: true iff resolution succeeds; every
        resolution error becomes false. */
    method TestConnection(overrides: GenConfig, fileConfig: GenConfig, net: Network) returns (ok: bool)
      requires Valid()
      modifies this
      ensures Valid()
      ensures var resolved := Resolution(old(current), fileConfig, overrides, net).result;
        && (ok <==> resolved.Success?)
        && current == (if resolved.Success? then Some(resolved.value) else old(current))
    {
      var resolved, _ := Resolve(overrides, fileConfig, net);
      ok := resolved.Success?;
    }
  }
}
