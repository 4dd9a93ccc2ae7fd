/** Clients of the facade that replay the situations its tests describe, and
    what the specifications let a caller conclude about each. */
module GeneratorScenarios {
  import opened Wrappers
  import opened JsStrings
  import opened Providers
  import opened UnifiedGenerator

  const FooCode: string := "const foo = \"bar\";"

  /** With no configuration and codellama's probe succeeding, a fresh
      resolution picks codellama. */
  lemma DetectsCodellama(net: Network) returns (p: Provider)
    requires ProbeSucceeds(net, 0)
    ensures p == Ollama("codellama", DefaultOllamaBaseURL)
    ensures Resolution(None, EmptyConfig, EmptyConfig, net) == Resolved(Success(p), 1)
  {
    CodellamaFirst(net);
    p := Ollama("codellama", DefaultOllamaBaseURL);
    var m := Merge(EmptyConfig, EmptyConfig);
    assert m == EmptyConfig;
    assert IsAutoTag(m.provider);
  }

  /** A reply whose text has no surrounding whitespace comes back as it is. */
  lemma TightReply(p: Provider, prompt: string, backend: ChatBackend, text: string)
    requires backend(CompletionRequest(p, prompt, SystemPrompt, MaxTokensFor(EmptyConfig), TemperatureFor(EmptyConfig)))
             == Completed([Some(text)])
    requires Tight(text)
    ensures Generation(p, prompt, EmptyConfig, backend) == Success(text)
  {
    TrimOfTight(text);
  }

  /** Generation through codellama when the backend answers only a request
      made with 2048 tokens and temperature 0.1: the text comes back trimmed,
      which here leaves it as it is. */
  lemma GeneratesWithDefaults(backend: ChatBackend)
    requires forall req :: backend(req) ==
                           if req.maxTokens == 2048 && req.temperature == 0.1 && req.model == "codellama"
                           then Completed([Some(FooCode)]) else CallFailed("unexpected request")
    ensures Generation(Ollama("codellama", DefaultOllamaBaseURL), "Create a variable", EmptyConfig, backend)
            == Success(FooCode)
  {
    var req := CompletionRequest(Ollama("codellama", DefaultOllamaBaseURL), "Create a variable", SystemPrompt,
                                 MaxTokensFor(EmptyConfig), TemperatureFor(EmptyConfig));
    assert backend(req) == Completed([Some(FooCode)]);
    assert Tight(FooCode);
    TightReply(Ollama("codellama", DefaultOllamaBaseURL), "Create a variable", backend, FooCode);
  }

  /** No configuration, codellama found: the provider's text comes back as it
      is, and it was asked with the default limits of 2048 tokens and 0.1. */
  method AutoDetectedGeneration(net: Network, backend: ChatBackend) returns (r: Result<string, GenerateError>)
    requires ProbeSucceeds(net, 0)
    requires forall req :: backend(req) ==
                           if req.maxTokens == 2048 && req.temperature == 0.1 && req.model == "codellama"
                           then Completed([Some(FooCode)]) else CallFailed("unexpected request")
    ensures r == Success(FooCode)
  {
    var codellama := DetectsCodellama(net);
    GeneratesWithDefaults(backend);
    var g := new Generator();
    r := g.GenerateCodeSimple("Create a variable", EmptyConfig, EmptyConfig, net, backend);
  }

  /** Every probe fails: generation rejects with a message opening "No LLM provider found!" and
      the connection test answers false. */
  method NothingDetected(net: Network, backend: ChatBackend) returns (r: Result<string, GenerateError>, connected: bool)
    requires forall k :: 0 <= k < |Candidates| ==> !ProbeSucceeds(net, k)
    ensures r.Failure? && StartsWith(GenerateErrorMessage(r.error), "No LLM provider found!")
    ensures !connected
  {
    var g := new Generator();
    r := g.GenerateCodeSimple("test", EmptyConfig, EmptyConfig, net, backend);
    connected := g.TestConnection(EmptyConfig, EmptyConfig, net);
  }

  /** The file selects openai without a key: resolution fails with the key
      error and makes no probe. */
  method OpenAIWithoutKey(net: Network) returns (r: Result<Provider, ResolveError>, probes: nat)
    ensures r == Failure(MissingApiKey) && probes == 0
    ensures StartsWith(ResolveErrorMessage(r.error), "OpenAI API key required!")
  {
    var g := new Generator();
    r, probes := g.Resolve(EmptyConfig, EmptyConfig.(provider := Some("openai")), net);
  }

  /** The file selects openai with a key: the OpenAI-compatible provider is
      used, with no probe. */
  method OpenAIFromFile(net: Network) returns (r: Result<Provider, ResolveError>, probes: nat)
    ensures r == Success(OpenAI("test-key", "gpt-4", None)) && probes == 0
    ensures Name(r.value) == "OpenAI-Compatible API"
  {
    var g := new Generator();
    var file := EmptyConfig.(provider := Some("openai"), apiKey := Some("test-key"), modelName := Some("gpt-4"));
    r, probes := g.Resolve(EmptyConfig, file, net);
  }

  const ResultCode: string := "const result = 42;"

  /** The OpenAI-compatible provider of the file's configuration hands back
      what its chat endpoint answered, trimmed, which here leaves it as it is. */
  lemma GeneratesWithOpenAI(backend: ChatBackend)
    requires forall req :: backend(req) == Completed([Some(ResultCode)])
    ensures Generation(OpenAI("test-key", "gpt-4", None), "Create a constant", EmptyConfig, backend)
            == Success(ResultCode)
  {
    var req := CompletionRequest(OpenAI("test-key", "gpt-4", None), "Create a constant", SystemPrompt,
                                 MaxTokensFor(EmptyConfig), TemperatureFor(EmptyConfig));
    assert backend(req) == Completed([Some(ResultCode)]);
    assert Tight(ResultCode);
    TightReply(OpenAI("test-key", "gpt-4", None), "Create a constant", backend, ResultCode);
  }

  /** The file selects openai with a key and model: `generateCodeSimple`
      returns the text of the OpenAI-compatible provider. */
  method OpenAIGeneration(net: Network, backend: ChatBackend) returns (r: Result<string, GenerateError>)
    requires forall req :: backend(req) == Completed([Some(ResultCode)])
    ensures r == Success(ResultCode)
  {
    GeneratesWithOpenAI(backend);
    var g := new Generator();
    var file := EmptyConfig.(provider := Some("openai"), apiKey := Some("test-key"), modelName := Some("gpt-4"));
    r := g.GenerateCodeSimple("Create a constant", EmptyConfig, file, net, backend);
  }

  /** With no configuration and codellama's probe succeeding, the connection
      test answers true and the Ollama provider is cached. */
  method ConnectionSucceeds(net: Network) returns (connected: bool, cached: Option<Provider>)
    requires ProbeSucceeds(net, 0)
    ensures connected
    ensures cached.Some? && Name(cached.value) == "Ollama"
  {
    var codellama := DetectsCodellama(net);
    var g := new Generator();
    connected := g.TestConnection(EmptyConfig, EmptyConfig, net);
    cached := g.current;
  }

  /** A rejection of the chat call is wrapped with the generation prefix. */
  lemma TimeoutIsWrapped(backend: ChatBackend)
    requires forall req :: backend(req) == CallFailed("Network timeout")
    ensures var r := Generation(Ollama("codellama", DefaultOllamaBaseURL), "test", EmptyConfig, backend);
      r.Failure? && GenerateErrorMessage(r.error) == "Code generation failed: Network timeout"
  {
    var req := CompletionRequest(Ollama("codellama", DefaultOllamaBaseURL), "test", SystemPrompt,
                                 MaxTokensFor(EmptyConfig), TemperatureFor(EmptyConfig));
    assert backend(req) == CallFailed("Network timeout");
    var r := Generation(Ollama("codellama", DefaultOllamaBaseURL), "test", EmptyConfig, backend);
    assert r == Failure(GenerationFailed("Network timeout"));
    assert GenerateErrorMessage(r.error) == GenerationPrefix + "Network timeout";
  }

  /** The backend rejects: the caller sees the rejection's message behind the
      generation prefix. */
  method GenerationRejected(net: Network, backend: ChatBackend) returns (r: Result<string, GenerateError>)
    requires ProbeSucceeds(net, 0)
    requires forall req :: backend(req) == CallFailed("Network timeout")
    ensures r.Failure? && GenerateErrorMessage(r.error) == "Code generation failed: Network timeout"
  {
    var codellama := DetectsCodellama(net);
    TimeoutIsWrapped(backend);
    var g := new Generator();
    r := g.GenerateCodeSimple("test", EmptyConfig, EmptyConfig, net, backend);
  }

  /** Once a provider is cached, a later call with other overrides (and another
      network) gets the same provider without probing. */
  method CachedProviderWins(first: GenConfig, later: GenConfig, fileConfig: GenConfig, net: Network, laterNet: Network)
    returns (a: Result<Provider, ResolveError>, b: Result<Provider, ResolveError>, laterProbes: nat)
    ensures a.Success? ==> b == a && laterProbes == 0
    ensures a.Failure? ==> Resolved(b, laterProbes) == Decide(Merge(fileConfig, later), laterNet)
  {
    var g := new Generator();
    var firstProbes;
    a, firstProbes := g.Resolve(first, fileConfig, net);
    b, laterProbes := g.Resolve(later, fileConfig, laterNet);
  }
}
