/** `src/lib/socket.ts`: the module-level connection handle with its
    init/get/disconnect lifecycle, and the static provider catalog. */
module Socket {
  import opened Wrappers
  import opened Seqs
  import AiChat

  const ServerUrl := "http://localhost:3001"

  /** A socket.io client connection, created connected (`autoConnect: true`). */
  class Connection {
    var connected: bool

    constructor ()
      ensures connected
    {
      connected := true;
    }

    method Disconnect()
      modifies this
      ensures !connected
    {
      connected := false;
    }
  }

  /** The module-level `let socket: Socket | null`. `created` counts the
      connections the module has created so far. */
  class SocketHolder {
    var socket: Connection?
    ghost var created: nat

    constructor ()
      ensures socket == null && created == 0
    {
      socket := null;
      created := 0;
    }

    /** `initSocket()`: create a connection only when there is none. */
    method InitSocket() returns (s: Connection)
      modifies this
      ensures socket == s
      ensures old(socket) != null ==> s == old(socket) && created == old(created)
      ensures old(socket) == null ==> fresh(s) && s.connected && created == old(created) + 1
    {
      if socket == null {
        socket := new Connection();
        created := created + 1;
      }
      s := socket;
    }

    /** `getSocket()`. */
    method GetSocket() returns (s: Connection?)
      ensures s == socket
    {
      s := socket;
    }

    /** `disconnectSocket()`: disconnect once and forget the handle; a no-op without one. */
    method DisconnectSocket()
      modifies this, socket
      ensures socket == null && created == old(created)
      ensures old(socket) != null ==> !old(socket).connected
    {
      if socket != null {
        socket.Disconnect();
        socket := null;
      }
    }
  }

  /** What a caller can rely on: repeated init shares one handle; after a
      disconnect the next init opens a new one. */
  method LifecycleExample()
  {
    var holder := new SocketHolder();
    var none := holder.GetSocket();
    assert none == null;
    var first := holder.InitSocket();
    var again := holder.InitSocket();
    assert again == first && holder.created == 1;
    holder.DisconnectSocket();
    assert !first.connected;
    var after := holder.GetSocket();
    assert after == null;
    holder.DisconnectSocket();
    var fresh_ := holder.InitSocket();
    assert fresh_ != first && fresh_.connected && holder.created == 2;
  }

  // ---- Event payloads -------------------------------------------------------

  /** The two models of a pairing, `'A' | 'B'`. */
  datatype Slot = A | B

  function SlotName(s: Slot): (r: string)
    ensures r == "A" <==> s == A
    ensures |r| == 1
  {
    if s == A then "A" else "B"
  }

  /** The `messageChunk` payload. */
  datatype MessageChunk = MessageChunk(sessionId: string, modelType: Slot, chunk: string, isComplete: bool)

  /** The `sessionUpdate` payload. */
  datatype SessionState = SessionState(sessionId: string, turnCount: int, isPaused: bool,
                                       pendingNotes: seq<string>, isActive: bool)

  // ---- The provider catalog ------------------------------------------------

  datatype ModelOption = ModelOption(value: string, caption: string)

  datatype AIProvider = AIProvider(value: string, caption: string, models: seq<ModelOption>)

  const AIProviders: seq<AIProvider> := [
    AIProvider("openai", "OpenAI", [
      ModelOption("gpt-4.1-2025-04-14", "GPT-4.1 (Latest)"),
      ModelOption("o3-2025-04-16", "o3 (Reasoning)"),
      ModelOption("o4-mini-2025-04-16", "o4 Mini (Fast Reasoning)"),
      ModelOption("gpt-4.1-mini-2025-04-14", "GPT-4.1 Mini"),
      ModelOption("gpt-4o", "GPT-4o"),
      ModelOption("gpt-4o-mini", "GPT-4o Mini"),
      ModelOption("gpt-3.5-turbo", "GPT-3.5 Turbo")]),
    AIProvider("anthropic", "Anthropic", [
      ModelOption("claude-opus-4-20250514", "Claude Opus 4 (Latest)"),
      ModelOption("claude-sonnet-4-20250514", "Claude Sonnet 4"),
      ModelOption("claude-3-5-haiku-20241022", "Claude 3.5 Haiku (Fast)"),
      ModelOption("claude-3-7-sonnet-20250219", "Claude 3.7 Sonnet"),
      ModelOption("claude-3-5-sonnet-20241022", "Claude 3.5 Sonnet"),
      ModelOption("claude-3-opus-20240229", "Claude 3 Opus"),
      ModelOption("claude-3-haiku-20240307", "Claude 3 Haiku")]),
    AIProvider("xai", "xAI", [
      ModelOption("grok-beta", "Grok Beta"),
      ModelOption("grok-2", "Grok 2")]),
    AIProvider("google", "Google (Gemini)", [
      ModelOption("gemini-2.0-flash-exp", "Gemini 2.0 Flash (Experimental)"),
      ModelOption("gemini-1.5-pro-002", "Gemini 1.5 Pro (Latest)"),
      ModelOption("gemini-1.5-flash-002", "Gemini 1.5 Flash (Latest)"),
      ModelOption("gemini-1.5-pro", "Gemini 1.5 Pro"),
      ModelOption("gemini-1.5-flash", "Gemini 1.5 Flash")]),
    AIProvider("deepseek", "DeepSeek", [
      ModelOption("deepseek-r1", "DeepSeek R1 (Reasoning)"),
      ModelOption("deepseek-v3", "DeepSeek V3"),
      ModelOption("deepseek-chat", "DeepSeek Chat"),
      ModelOption("deepseek-coder", "DeepSeek Coder")]),
    AIProvider("qwen", "Qwen", [
      ModelOption("qwen3-coder-32b", "Qwen 3 Coder 32B"),
      ModelOption("qwen2.5-coder-32b", "Qwen 2.5 Coder 32B"),
      ModelOption("qwen-plus", "Qwen Plus"),
      ModelOption("qwen-turbo", "Qwen Turbo"),
      ModelOption("qwen-max", "Qwen Max")]),
    AIProvider("openrouter", "OpenRouter", [
      ModelOption("qwen/qwen-3-coder-32b-instruct:free", "Qwen 3 Coder 32B (FREE)"),
      ModelOption("moonshot/kimi-k2-large", "Kimi K2 Large (FREE)"),
      ModelOption("deepseek/deepseek-r1:free", "DeepSeek R1 (FREE)"),
      ModelOption("google/gemini-2.0-flash-exp:free", "Gemini 2.0 Flash (FREE)"),
      ModelOption("meta-llama/llama-3.3-70b-instruct:free", "Llama 3.3 70B (FREE)"),
      ModelOption("qwen/qwen-2.5-coder-32b-instruct:free", "Qwen 2.5 Coder 32B (FREE)"),
      ModelOption("huggingfaceh4/zephyr-7b-beta:free", "Zephyr 7B Beta (FREE)"),
      ModelOption("anthropic/claude-3.5-sonnet", "Claude 3.5 Sonnet"),
      ModelOption("openai/gpt-4o", "GPT-4o"),
      ModelOption("openai/o1-preview", "OpenAI o1 Preview"),
      ModelOption("google/gemini-pro-1.5", "Gemini Pro 1.5"),
      ModelOption("meta-llama/llama-3.1-405b-instruct", "Llama 3.1 405B")])
  ]

  function ProviderValues(ps: seq<AIProvider>): (r: seq<string>)
    ensures |r| == |ps| && forall i :: 0 <= i < |ps| ==> r[i] == ps[i].value
  {
    seq(|ps|, i requires 0 <= i < |ps| => ps[i].value)
  }

  function ModelValues(p: AIProvider): (r: seq<string>)
    ensures |r| == |p.models| && forall i :: 0 <= i < |p.models| ==> r[i] == p.models[i].value
  {
    seq(|p.models|, i requires 0 <= i < |p.models| => p.models[i].value)
  }

  /** `AI_PROVIDERS.find(p => p.value === value)`. */
  function FindIn(ps: seq<AIProvider>, value: string): (r: Option<AIProvider>)
    ensures r.Some? ==> r.value in ps && r.value.value == value
    ensures r.None? <==> value !in ProviderValues(ps)
  {
    if |ps| == 0 then None
    else if ps[0].value == value then Some(ps[0])
    else
      var r := FindIn(ps[1..], value);
      assert ProviderValues(ps) == [ps[0].value] + ProviderValues(ps[1..]);
      r
  }

  /** The catalog entry for a provider value, if the catalog lists it. */
  function FindProvider(value: string): (r: Option<AIProvider>)
    ensures r.Some? ==> r.value in AIProviders && r.value.value == value
    ensures r.None? <==> value !in ProviderValues(AIProviders)
  {
    FindIn(AIProviders, value)
  }

  /** With distinct provider values, looking up the value at index `i` finds that entry. */
  lemma {:induction false} FindInDistinct(ps: seq<AIProvider>, i: int)
    requires NoDuplicates(ProviderValues(ps)) && 0 <= i < |ps|
    ensures FindIn(ps, ps[i].value) == Some(ps[i])
  {
    if i > 0 {
      assert ProviderValues(ps)[0] != ProviderValues(ps)[i];
      var tail := ps[1..];
      assert NoDuplicates(ProviderValues(tail)) by {
        forall a, b | 0 <= a < b < |tail|
          ensures ProviderValues(tail)[a] != ProviderValues(tail)[b]
        {
          assert ProviderValues(ps)[a + 1] != ProviderValues(ps)[b + 1];
        }
      }
      FindInDistinct(tail, i - 1);
    }
  }

  /** The catalog lists exactly the dispatcher's seven names, in the same order. */
  lemma CatalogMatchesDispatcher()
    ensures ProviderValues(AIProviders) == AiChat.SupportedProviders
  {
  }

  /** A catalog entry exists for a name exactly when `callAIProvider` has an adapter for it. */
  lemma CatalogAgreesWithDispatch(name: string)
    ensures FindProvider(name).Some? <==> AiChat.ResolveProvider(name).Success?
  {
    CatalogMatchesDispatcher();
  }

  /** The catalog's internal consistency: distinct provider values; every provider
      lists at least one model, so `models[0]` is always defined; model values
      are distinct within each provider. */
  lemma CatalogProvidersDistinct()
    ensures NoDuplicates(ProviderValues(AIProviders))
  {
    CatalogMatchesDispatcher();
  }

  lemma CatalogModelsNonEmpty()
    ensures forall p :: p in AIProviders ==> |p.models| > 0
  {
  }

  /** Model values are distinct within each provider, so each `<option>` key is unique. */
  lemma CatalogModelsDistinct()
    ensures forall p :: p in AIProviders ==> NoDuplicates(ModelValues(p))
  {
    FirstProvidersDistinct();
    LastProvidersDistinct();
    OpenRouterModelsDistinct();
  }

  lemma FirstProvidersDistinct()
    ensures forall i :: 0 <= i < 4 ==> NoDuplicates(ModelValues(AIProviders[i]))
  {
    assert NoDuplicates(ModelValues(AIProviders[0]));
    assert NoDuplicates(ModelValues(AIProviders[1]));
    assert NoDuplicates(ModelValues(AIProviders[2]));
    assert NoDuplicates(ModelValues(AIProviders[3]));
  }

  lemma LastProvidersDistinct()
    ensures forall i :: 4 <= i < 6 ==> NoDuplicates(ModelValues(AIProviders[i]))
  {
    assert NoDuplicates(ModelValues(AIProviders[4]));
    assert NoDuplicates(ModelValues(AIProviders[5]));
  }

  lemma OpenRouterModelsDistinct()
    ensures NoDuplicates(ModelValues(AIProviders[6]))
  {
  }

}
