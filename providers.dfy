/** The two LLM backends (a local Ollama server and an OpenAI-compatible API),
    their availability probes, the extraction of generated text from a chat
    completion, and auto-detection of a working Ollama model. The network is
    an oracle: probes and completions are answered by functions given as
    parameters. */
module Providers {
  import opened Wrappers
  import opened JsStrings

  const OllamaName: string := "Ollama"
  const OpenAIName: string := "OpenAI-Compatible API"
  const DefaultOllamaModel: string := "codellama"
  /** The local Ollama server. */
  const LocalHost: string := "http://localhost:11434"
  /** Ollama's OpenAI-compatible endpoint on the local server. */
  const DefaultOllamaBaseURL: string := LocalHost + "/v1"
  const DefaultOpenAIModel: string := "gpt-4"
  /** The placeholder credential sent to Ollama, which does not check it. */
  const OllamaPlaceholderKey: string := "ollama"
  /** Path of Ollama's native model-listing endpoint. */
  const TagsPath: string := "/api/tags"
  /** The tags URL of a server at the default base URL. */
  const LocalTagsURL: string := LocalHost + TagsPath
  /** Models tried after codellama during auto-detection, in order. */
  const Fallbacks: seq<string> := ["llama3", "llama2", "mistral", "phi3"]

  /** A provider instance with its bound connection parameters; immutable once built. */
  datatype Provider =
    | Ollama(modelName: string, baseURL: string)
    | OpenAI(apiKey: string, modelName: string, customBaseURL: Option<string>)

  /** The provider's `name` field. */
  function Name(p: Provider): (n: string)
    ensures n == OllamaName <==> p.Ollama?
    ensures n == OpenAIName <==> p.OpenAI?
  {
    if p.Ollama? then OllamaName else OpenAIName
  }

  /** `new OllamaProvider(modelName?, baseURL?)`: an argument that is passed is
      bound as given (even an empty string); an omitted one takes its default. */
  function NewOllama(modelName: Option<string>, baseURL: Option<string>): (p: Provider)
    ensures p.Ollama? && Name(p) == OllamaName
    ensures modelName.Some? ==> p.modelName == modelName.value
    ensures modelName.None? ==> p.modelName == DefaultOllamaModel
    ensures baseURL.Some? ==> p.baseURL == baseURL.value
    ensures baseURL.None? ==> p.baseURL == DefaultOllamaBaseURL
  {
    Ollama(
      match modelName case Some(m) => m case None => DefaultOllamaModel,
      match baseURL case Some(b) => b case None => DefaultOllamaBaseURL)
  }

  /** `new OpenAIProvider(apiKey, modelName?, baseURL?)`: the model defaults to
      gpt-4; an omitted base URL leaves the SDK's own default in force. */
  function NewOpenAI(apiKey: string, modelName: Option<string>, baseURL: Option<string>): (p: Provider)
    ensures p.OpenAI? && Name(p) == OpenAIName
    ensures p.apiKey == apiKey && p.customBaseURL == baseURL
    ensures modelName.Some? ==> p.modelName == modelName.value
    ensures modelName.None? ==> p.modelName == DefaultOpenAIModel
  {
    OpenAI(apiKey, match modelName case Some(m) => m case None => DefaultOpenAIModel, baseURL)
  }

  // ---------------------------------------------------------------------------
  // Availability probes

  /** What the network gives back for one GET of an Ollama tags URL. */
  datatype ProbeOutcome =
    | NetworkError      // fetch rejected
    | NotOk             // response.ok is false
    | MalformedBody     // response.json() rejected
      /** The parsed body: its `models` list when present, and for each
          descriptor its `name` when that is a string. */
    | Tags(models: Option<seq<Option<string>>>)

  /** The network seen by probes: the outcome of the k-th probe (counted from 0
      within one resolution) of a URL. */
  type Network = (nat, string) -> ProbeOutcome

  /** `${baseURL.replace('/v1', '')}/api/tags`: the first `/v1` is cut out of
      the base URL and the tags path appended. */
  function TagsURL(baseURL: string): (url: string)
    ensures |url| >= |TagsPath| && url[|url| - |TagsPath|..] == TagsPath
    ensures !Includes(baseURL, "/v1") ==> url == baseURL + TagsPath
    ensures Includes(baseURL, "/v1") ==>
      var i := IndexOf(baseURL, "/v1").value;
      var stem := url[..|url| - |TagsPath|];
      |stem| == |baseURL| - 3 && stem[..i] + "/v1" + stem[i..] == baseURL
  {
    var stem := RemoveFirst(baseURL, "/v1");
    assert (stem + TagsPath)[..|stem|] == stem;
    stem + TagsPath
  }

  /** A base URL that is a host followed by `/v1`, with no `v` in the host,
      loses exactly that suffix. */
  lemma {:induction false} TagsURLOfVersionedHost(host: string)
    requires 'v' !in host
    ensures TagsURL(host + "/v1") == host + TagsPath
  {
    var b := host + "/v1";
    assert OccursAt(b, "/v1", |host|);
    forall j: nat | j < |host| ensures !OccursAt(b, "/v1", j) {
      assert b[j + 1] == if j + 1 < |host| then host[j + 1] else '/';
    }
    assert IndexOf(b, "/v1") == Some(|host|);
    assert b[..|host|] == host;
  }

  /** With the default base URL the probe goes to Ollama's standard local endpoint. */
  lemma DefaultTagsURL()
    ensures TagsURL(DefaultOllamaBaseURL) == LocalTagsURL
  {
    assert 'v' !in LocalHost;
    TagsURLOfVersionedHost(LocalHost);
  }

  /** A descriptor list's `some(m => m.name.includes(modelName))`: the scan
      stops at the first match, and a descriptor without a string name makes
      `includes` throw before any later descriptor is looked at. */
  function AnyNameIncludes(entries: seq<Option<string>>, modelName: string): (found: bool)
    ensures found ==> entries != [] && entries[0].Some?
    ensures entries != [] && entries[0].Some? && Includes(entries[0].value, modelName) ==> found
  {
    if entries == [] then false
    else match entries[0]
      case None => false
      case Some(n) => Includes(n, modelName) || AnyNameIncludes(entries[1..], modelName)
  }

  /** Descriptor `i` names a model containing `modelName`, and the scan reaches it. */
  predicate ReachableMatch(entries: seq<Option<string>>, modelName: string, i: int)
  {
    0 <= i < |entries| && entries[i].Some? && Includes(entries[i].value, modelName)
    && forall j :: 0 <= j < i ==> entries[j].Some?
  }

  lemma {:induction false} AnyNameIncludesIff(entries: seq<Option<string>>, modelName: string)
    ensures AnyNameIncludes(entries, modelName) <==> exists i :: ReachableMatch(entries, modelName, i)
    decreases |entries|
  {
    if entries != [] && entries[0].Some? {
      if Includes(entries[0].value, modelName) {
        assert ReachableMatch(entries, modelName, 0);
      } else {
        AnyNameIncludesIff(entries[1..], modelName);
        if exists i :: ReachableMatch(entries[1..], modelName, i) {
          var i :| ReachableMatch(entries[1..], modelName, i);
          assert ReachableMatch(entries, modelName, i + 1);
        }
        if exists i :: ReachableMatch(entries, modelName, i) {
          var i :| ReachableMatch(entries, modelName, i);
          assert i != 0;
          assert ReachableMatch(entries[1..], modelName, i - 1);
        }
      }
    } else if entries != [] {
      assert forall i :: ReachableMatch(entries, modelName, i) ==> i == 0;
    }
  }

  /** `OllamaProvider.test()` given what the probe got back. */
  function OllamaTest(outcome: ProbeOutcome, modelName: string): (ok: bool)
    ensures ok ==> outcome.Tags? && outcome.models.Some? && outcome.models.value != []
    ensures outcome == Tags(Some([Some(modelName)])) ==> ok
  {
    match outcome
    case Tags(Some(entries)) => AnyNameIncludes(entries, modelName)
    case _ => false
  }

  /** `test()` never throws: it is true iff the response is ok, the body parses
      and has a model list, and the scan reaches a matching name; a failed
      fetch, a non-ok response, a body that does not parse and a body without a
      model list (for which `test()` literally returns `undefined`) give false. */
  lemma OllamaTestIff(outcome: ProbeOutcome, modelName: string)
    ensures OllamaTest(outcome, modelName) <==>
      outcome.Tags? && outcome.models.Some? && exists i :: ReachableMatch(outcome.models.value, modelName, i)
  {
    if outcome.Tags? && outcome.models.Some? {
      AnyNameIncludesIff(outcome.models.value, modelName);
    }
  }

  /** When every descriptor has a name, the probe succeeds iff some name
      contains the bound model name. */
  lemma NamedModelsProbe(names: seq<string>, modelName: string)
    ensures OllamaTest(Tags(Some(seq(|names|, i requires 0 <= i < |names| => Some(names[i])))), modelName)
            <==> exists i :: 0 <= i < |names| && Includes(names[i], modelName)
  {
    var entries := seq(|names|, i requires 0 <= i < |names| => Some(names[i]));
    OllamaTestIff(Tags(Some(entries)), modelName);
    if exists i :: 0 <= i < |names| && Includes(names[i], modelName) {
      var i :| 0 <= i < |names| && Includes(names[i], modelName);
      assert ReachableMatch(entries, modelName, i);
    }
  }

  /** The probe outcomes pinned down by the provider tests. */
  lemma ProbeExamples()
    ensures OllamaTest(Tags(Some([Some("codellama:latest")])), "codellama")
    ensures !OllamaTest(Tags(Some([Some("llama3:latest")])), "codellama")
    ensures !OllamaTest(Tags(Some([])), "codellama")
    ensures !OllamaTest(NetworkError, DefaultOllamaModel) && !OllamaTest(NotOk, DefaultOllamaModel)
  {
    assert OccursAt("codellama:latest", "codellama", 0);
    assert !Includes("llama3:latest", "codellama") by {
      assert 'c' !in "llama3:latest";
      assert forall j: nat :: OccursAt("llama3:latest", "codellama", j) ==> "llama3:latest"[j] == 'c';
    }
  }

  /** What the SDK's `models.list()` call did. */
  datatype Listing = Listed | ListFailed(message: string)

  /** `OpenAIProvider.test()`: true iff listing models did not throw. */
  function OpenAITest(listing: Listing): (ok: bool)
    ensures ok <==> !listing.ListFailed?
  {
    listing.Listed?
  }

  // ---------------------------------------------------------------------------
  // Code generation

  datatype Role = System | User
  datatype ChatMessage = ChatMessage(role: Role, content: string)

  /** A chat-completion request as the provider hands it to the client. */
  datatype ChatRequest = ChatRequest(
    baseURL: Option<string>, apiKey: string, model: string,
    messages: seq<ChatMessage>, maxTokens: int, temperature: real)

  /** The client's answer: the call rejected with a message, or the response's
      choices, each reduced to its `message?.content` (`None` when missing or null). */
  datatype Completion = CallFailed(message: string) | Completed(choices: seq<Option<string>>)

  /** The chat-completion endpoint seen by `generateCode`. */
  type ChatBackend = ChatRequest -> Completion

  /** The request both providers send: their own model, a system message then
      a user message, and the limits as given. */
  function CompletionRequest(p: Provider, prompt: string, systemPrompt: string, maxTokens: int, temperature: real)
    : (req: ChatRequest)
    ensures req.model == p.modelName && req.maxTokens == maxTokens && req.temperature == temperature
    ensures req.messages == [ChatMessage(System, systemPrompt), ChatMessage(User, prompt)]
    ensures p.Ollama? ==> req.baseURL == Some(p.baseURL) && req.apiKey == OllamaPlaceholderKey
    ensures p.OpenAI? ==> req.baseURL == p.customBaseURL && req.apiKey == p.apiKey
  {
    var messages := [ChatMessage(System, systemPrompt), ChatMessage(User, prompt)];
    match p
    case Ollama(m, b) => ChatRequest(Some(b), OllamaPlaceholderKey, m, messages, maxTokens, temperature)
    case OpenAI(k, m, b) => ChatRequest(b, k, m, messages, maxTokens, temperature)
  }

  /** `choices[0]?.message?.content || ''`. */
  function FirstChoiceContent(choices: seq<Option<string>>): (text: string)
    ensures text != "" ==> |choices| > 0 && choices[0] == Some(text)
    ensures text == "" <==> choices == [] || choices[0] == None || choices[0] == Some("")
  {
    if choices == [] then ""
    else match choices[0]
      case None => ""
      case Some(c) => c
  }

  /** `generateCode` of either provider: the first choice's content, or the
      client's rejection propagated with its message. */
  function GenerateCode(p: Provider, prompt: string, systemPrompt: string, maxTokens: int, temperature: real,
                        backend: ChatBackend): (r: Result<string, string>)
    ensures var answer := backend(CompletionRequest(p, prompt, systemPrompt, maxTokens, temperature));
      && (r.Failure? <==> answer.CallFailed?)
      && (r.Failure? ==> r.error == answer.message)
      && (r.Success? ==> answer.Completed?)
      && (r.Success? && r.value != "" ==> answer.Completed? && answer.choices != [] && answer.choices[0] == Some(r.value))
      && (r.Success? && r.value == "" ==> answer.Completed? && (answer.choices == [] || answer.choices[0] in {None, Some("")}))
  {
    match backend(CompletionRequest(p, prompt, systemPrompt, maxTokens, temperature))
    case CallFailed(m) => Failure(m)
    case Completed(choices) => Success(FirstChoiceContent(choices))
  }

  // ---------------------------------------------------------------------------
  // Auto-detection

  /** Every model auto-detection tries, in priority order. */
  const Candidates: seq<string> := [DefaultOllamaModel] + Fallbacks

  /** The provider auto-detection builds for candidate `k`. */
  function CandidateProvider(k: nat): (p: Provider)
    requires k < |Candidates|
    ensures p == Ollama(Candidates[k], DefaultOllamaBaseURL)
  {
    NewOllama(Some(Candidates[k]), None)
  }

  /** The `k`-th probe of detection (which tests candidate `k`) succeeds. */
  predicate ProbeSucceeds(net: Network, k: nat)
  {
    k < |Candidates| && OllamaTest(net(k, LocalTagsURL), Candidates[k])
  }

  /** Whether each candidate's probe succeeds, in probe order. */
  function ProbeVerdicts(net: Network): (v: seq<bool>)
    ensures |v| == |Candidates|
    ensures forall k :: 0 <= k < |v| ==> v[k] == ProbeSucceeds(net, k)
  {
    seq(|Candidates|, k requires 0 <= k < |Candidates| => ProbeSucceeds(net, k))
  }

  /** The first index at or after `k` whose verdict is true. */
  function FirstTrue(v: seq<bool>, k: nat): (r: Option<nat>)
    decreases |v| - k
    ensures r.Some? ==> k <= r.value < |v| && v[r.value]
    ensures r.Some? ==> forall j :: k <= j < r.value ==> !v[j]
    ensures r.None? ==> forall j :: k <= j < |v| ==> !v[j]
  {
    if k >= |v| then None
    else if v[k] then Some(k)
    else FirstTrue(v, k + 1)
  }

  /** The outcome of auto-detection: the provider found, if any, and how many
      probes were made. */
  datatype Detection = Detection(found: Option<Provider>, probes: nat)

  /** Auto-detection as a first-match search: the provider for the first
      candidate whose probe succeeds, after exactly that many probes; none after
      all five probes failed. */
  function Detect(net: Network): (d: Detection)
    ensures d.found.Some? ==>
      && 1 <= d.probes <= |Candidates|
      && d.found.value == Ollama(Candidates[d.probes - 1], DefaultOllamaBaseURL)
      && ProbeVerdicts(net)[d.probes - 1]
      && forall j :: 0 <= j < d.probes - 1 ==> !ProbeVerdicts(net)[j]
    ensures d.found.None? <==> forall j :: 0 <= j < |Candidates| ==> !ProbeVerdicts(net)[j]
    ensures d.found.None? ==> d.probes == |Candidates|
  {
    var v := ProbeVerdicts(net);
    match FirstTrue(v, 0)
    case Some(k) => Detection(Some(CandidateProvider(k)), k + 1)
    case None => Detection(None, |Candidates|)
  }

  /** The provider detection finds is the one whose probe was the last made. */
  lemma DetectedByItsProbe(net: Network)
    ensures var d := Detect(net);
      d.found.Some? ==> d.probes >= 1 && OllamaTest(net(d.probes - 1, TagsURL(d.found.value.baseURL)), d.found.value.modelName)
  {
    var d := Detect(net);
    if d.found.Some? {
      var k := d.probes - 1;
      CandidateProbe(net, k, d.found.value);
    }
  }

  /** codellama is probed first and, when it is there, nothing else is probed. */
  lemma CodellamaFirst(net: Network)
    requires ProbeSucceeds(net, 0)
    ensures Detect(net) == Detection(Some(Ollama("codellama", DefaultOllamaBaseURL)), 1)
  {
  }

  /** The fallback scenario of the provider tests: codellama's probe lists no
      models, llama3's lists llama3:latest; detection stops at llama3. */
  lemma FallbackToLlama3(net: Network)
    requires forall url :: net(0, url) == Tags(Some([]))
    requires forall url :: net(1, url) == Tags(Some([Some("llama3:latest")]))
    ensures Detect(net) == Detection(Some(Ollama("llama3", DefaultOllamaBaseURL)), 2)
  {
    assert !ProbeSucceeds(net, 0);
    assert OccursAt("llama3:latest", "llama3", 0);
    assert ProbeSucceeds(net, 1);
  }

  /** The probe auto-detection makes of candidate `k` is the one its verdict records. */
  lemma CandidateProbe(net: Network, k: nat, p: Provider)
    requires k < |Candidates| && p == NewOllama(Some(Candidates[k]), None)
    ensures ProbeVerdicts(net)[k] == OllamaTest(net(k, TagsURL(p.baseURL)), p.modelName)
  {
    DefaultTagsURL();
  }

  /** `autoDetectProvider()`: probe codellama, then each fallback in turn, and
      return at the first success. */
  method AutoDetect(net: Network) returns (found: Option<Provider>, probes: nat)
    ensures Detection(found, probes) == Detect(net)
  {
    ghost var v := ProbeVerdicts(net);
    var ollama := NewOllama(Some(DefaultOllamaModel), None);
    probes := 1;
    CandidateProbe(net, 0, ollama);
    if OllamaTest(net(0, TagsURL(ollama.baseURL)), ollama.modelName) {
      return Some(ollama), probes;
    }
    var i := 0;
    while i < |Fallbacks|
      invariant 0 <= i <= |Fallbacks|
      invariant probes == i + 1
      invariant FirstTrue(v, 0) == FirstTrue(v, i + 1)
    {
      var provider := NewOllama(Some(Fallbacks[i]), None);
      probes := probes + 1;
      assert Candidates[i + 1] == Fallbacks[i];
      CandidateProbe(net, i + 1, provider);
      if OllamaTest(net(i + 1, TagsURL(provider.baseURL)), provider.modelName) {
        return Some(provider), probes;
      }
      i := i + 1;
    }
    return None, probes;
  }
}
