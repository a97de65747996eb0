/**
 * `ComponentFactory` of hive/hive/factory.py: builds agents and memories from
 * the two configuration files, memoising memories by name and model clients
 * by a cache key derived from each agent's `llm_config`.
 *
 * A model client is represented by the constructor call the factory makes
 * (which client class, with which arguments); the environment is the map `env`.
 */
module Factory {
  import opened Wrappers
  import opened Values
  import opened AgentTypes
  import opened MemoryTypes

  /** `ComponentFactory.valid_providers`. */
  const ValidProviders: seq<string> :=
    ["azure", "openai", "foundry", "anthropic", "ollama", "gemini", "openai_assistant_api"]

  /** The client constructor calls `_create_model_client` makes. */
  datatype Client =
    | AzureOpenAIChatCompletionClient(azureDeployment: string, model: Value, apiVersion: string,
                                      azureEndpoint: string, tokenScope: string, kwargs: map<string, Value>)
    | AzureAIChatCompletionClient(fixedModel: string, endpoint: string, githubToken: string, kwargs: map<string, Value>)
    | OpenAIChatCompletionClient(model: Value, kwargs: map<string, Value>)
    | AnthropicChatCompletionClient(model: Value, kwargs: map<string, Value>)
    | OllamaChatCompletionClient(model: Value, kwargs: map<string, Value>)
    | AsyncOpenAI(apiKey: string)

  predicate IsValidProvider(provider: Value) {
    provider.Str? && provider.s in ValidProviders
  }

  /** The API-key variable a provider checks with `os.getenv` before building its client. */
  function ApiKeyVariable(provider: string): Option<string> {
    match provider
    case "openai" => Some("OPENAI_API_KEY")
    case "anthropic" => Some("ANTHROPIC_API_KEY")
    case "ollama" => Some("OLLAMA_API_KEY")
    case "gemini" => Some("GEMINI_API_KEY")
    case "openai_assistant_api" => Some("OPENAI_API_KEY")
    case _ => None
  }

  /** The environment holds what `provider` needs: its API key, or the GitHub token for foundry. */
  predicate CredentialsPresent(provider: string, env: map<string, string>) {
    && (provider == "foundry" ==> "GITHUB_TOKEN" in env)
    && (ApiKeyVariable(provider).Some? ==> ApiKeyVariable(provider).value in env)
  }

  /** The dispatch on `provider` in `_create_model_client`, given the model and the extra arguments. */
  function MakeClient(model: Value, provider: Value, kwargs: map<string, Value>, env: map<string, string>)
    : (r: Result<Client, Exception>)
    ensures r.Success? <==> IsValidProvider(provider) && CredentialsPresent(provider.s, env)
    ensures !IsValidProvider(provider) ==> r == Failure(ValueError(InvalidProvider(provider)))
    ensures IsValidProvider(provider) && ApiKeyVariable(provider.s).Some? && ApiKeyVariable(provider.s).value !in env ==>
      r == Failure(ValueError(EnvVarNotSet(ApiKeyVariable(provider.s).value)))
    ensures provider == Str("foundry") && "GITHUB_TOKEN" !in env ==> r == Failure(KeyError("GITHUB_TOKEN"))
    ensures r.Success? && provider.s in {"azure", "openai", "anthropic", "ollama", "gemini"} ==>
      && (|| r.value.AzureOpenAIChatCompletionClient? || r.value.OpenAIChatCompletionClient?
          || r.value.AnthropicChatCompletionClient? || r.value.OllamaChatCompletionClient?)
      && r.value.model == model && r.value.kwargs == kwargs
    ensures r.Success? && provider.s in {"openai", "gemini"} ==> r.value.OpenAIChatCompletionClient?
    ensures r.Success? && provider == Str("openai_assistant_api") ==> r.value == AsyncOpenAI(env["OPENAI_API_KEY"])
  {
    if provider == Str("azure") then
      Success(AzureOpenAIChatCompletionClient("{your-azure-deployment}", model, "2024-06-01",
        "https://{your-custom-endpoint}.openai.azure.com/", "https://cognitiveservices.azure.com/.default", kwargs))
    else if provider == Str("foundry") then
      if "GITHUB_TOKEN" !in env then Failure(KeyError("GITHUB_TOKEN"))
      else Success(AzureAIChatCompletionClient("Phi-4", "https://models.inference.ai.azure.com", env["GITHUB_TOKEN"], kwargs))
    else if provider == Str("openai") then
      if "OPENAI_API_KEY" !in env then Failure(ValueError(EnvVarNotSet("OPENAI_API_KEY")))
      else Success(OpenAIChatCompletionClient(model, kwargs))
    else if provider == Str("anthropic") then
      if "ANTHROPIC_API_KEY" !in env then Failure(ValueError(EnvVarNotSet("ANTHROPIC_API_KEY")))
      else Success(AnthropicChatCompletionClient(model, kwargs))
    else if provider == Str("ollama") then
      if "OLLAMA_API_KEY" !in env then Failure(ValueError(EnvVarNotSet("OLLAMA_API_KEY")))
      else Success(OllamaChatCompletionClient(model, kwargs))
    else if provider == Str("gemini") then
      if "GEMINI_API_KEY" !in env then Failure(ValueError(EnvVarNotSet("GEMINI_API_KEY")))
      else Success(OpenAIChatCompletionClient(model, kwargs))
    else if provider == Str("openai_assistant_api") then
      if "OPENAI_API_KEY" !in env then Failure(ValueError(EnvVarNotSet("OPENAI_API_KEY")))
      else Success(AsyncOpenAI(env["OPENAI_API_KEY"]))
    else Failure(ValueError(InvalidProvider(provider)))
  }

  /** The extra client arguments: `llm_config` without its "model" and "provider" entries. */
  function KwargsOf(llm: map<string, Value>): (kwargs: map<string, Value>)
    ensures kwargs.Keys == llm.Keys - {"model", "provider"}
    ensures forall k :: k in kwargs ==> kwargs[k] == llm[k]
  {
    map k | k in llm && k != "model" && k != "provider" :: llm[k]
  }

  /** The loop of `_create_model_client` that copies every other entry into `kwargs`. */
  method Kwargs(llm: map<string, Value>) returns (kwargs: map<string, Value>)
    ensures kwargs == KwargsOf(llm)
  {
    kwargs := map[];
    var remaining := llm.Keys;
    while remaining != {}
      invariant remaining <= llm.Keys
      invariant kwargs.Keys == (llm.Keys - remaining) - {"model", "provider"}
      invariant forall k :: k in kwargs ==> kwargs[k] == llm[k]
      decreases remaining
    {
      var key :| key in remaining;
      if key != "model" && key != "provider" {
        kwargs := kwargs[key := llm[key]];
      }
      remaining := remaining - {key};
    }
  }

  /** `_create_model_client` as a function of the configuration and the environment. */
  function ModelClientFor(llm: Value, env: map<string, string>): Result<Client, Exception> {
    match Index(llm, "model")
    case Failure(e) => Failure(e)
    case Success(model) =>
      match Index(llm, "provider")
      case Failure(e) => Failure(e)
      case Success(provider) => MakeClient(model, provider, KwargsOf(llm.entries), env)
  }

  /** `_create_model_client`: read model and provider, collect the extra arguments, dispatch. */
  method CreateModelClient(llm: Value, env: map<string, string>) returns (r: Result<Client, Exception>)
    ensures r == ModelClientFor(llm, env)
  {
    var model := Index(llm, "model");
    if model.Failure? {
      return Failure(model.error);
    }
    var provider := Index(llm, "provider");
    if provider.Failure? {
      return Failure(provider.error);
    }
    var kwargs := Kwargs(llm.entries);
    r := MakeClient(model.value, provider.value, kwargs, env);
  }

  /** A configuration that names an unknown provider never yields a client. */
  lemma UnknownProviderRejected(llm: map<string, Value>, env: map<string, string>)
    requires "model" in llm && "provider" in llm && !IsValidProvider(llm["provider"])
    ensures ModelClientFor(Mapping(llm), env) == Failure(ValueError(InvalidProvider(llm["provider"])))
  {
  }

  /** `agent_config[name]['llm_config']`. */
  function LlmConfig(agentConfig: map<string, Value>, name: string): Result<Value, Exception> {
    if name !in agentConfig then Failure(KeyError(name)) else Index(agentConfig[name], "llm_config")
  }

  /**
   * The cache key of `_update_clients`: the model, except for the assistant API,
   * where it is the provider string; lists and mappings cannot be dictionary keys.
   */
  function CacheKey(agentConfig: map<string, Value>, name: string): (r: Result<Value, Exception>)
    ensures r.Success? ==> Hashable(r.value)
  {
    match LlmConfig(agentConfig, name)
    case Failure(e) => Failure(e)
    case Success(llm) =>
      match Index(llm, "provider")
      case Failure(e) => Failure(e)
      case Success(provider) =>
        match (if provider != Str("openai_assistant_api") then Index(llm, "model") else Success(provider))
        case Failure(e) => Failure(e)
        case Success(key) => if Hashable(key) then Success(key) else Failure(TypeError)
  }

  /** For a well-formed configuration the key is the model, or the provider for the assistant API. */
  lemma CacheKeyRule(agentConfig: map<string, Value>, name: string, llm: map<string, Value>)
    requires name in agentConfig && agentConfig[name].Mapping?
    requires agentConfig[name].entries.Keys >= {"llm_config"} && agentConfig[name].entries["llm_config"] == Mapping(llm)
    requires "provider" in llm
    requires llm["provider"] != Str("openai_assistant_api") ==> "model" in llm && Hashable(llm["model"])
    ensures CacheKey(agentConfig, name)
         == Success(if llm["provider"] == Str("openai_assistant_api") then llm["provider"] else llm["model"])
  {
  }

  /**
   * The key ignores everything but the model: two agents with the same model
   * and providers other than the assistant API share one cached client, even
   * when their providers or extra arguments differ.
   */
  lemma SharedModelSharesKey(agentConfig: map<string, Value>, a: string, b: string, llmA: map<string, Value>, llmB: map<string, Value>)
    requires a in agentConfig && b in agentConfig
    requires agentConfig[a].Mapping? && "llm_config" in agentConfig[a].entries
    requires agentConfig[b].Mapping? && "llm_config" in agentConfig[b].entries
    requires agentConfig[a].entries["llm_config"] == Mapping(llmA) && agentConfig[b].entries["llm_config"] == Mapping(llmB)
    requires llmA.Keys >= {"model", "provider"} && llmB.Keys >= {"model", "provider"}
    requires llmA["model"] == llmB["model"] && Hashable(llmA["model"])
    requires llmA["provider"] != Str("openai_assistant_api") && llmB["provider"] != Str("openai_assistant_api")
    ensures CacheKey(agentConfig, a) == CacheKey(agentConfig, b) == Success(llmA["model"])
  {
  }

  /** `[m.memory for m in memory]`. */
  function MemoryValues<M>(ms: seq<BaseMemoryType<M>>): seq<M> {
    seq(|ms|, i requires 0 <= i < |ms| => ms[i].memory)
  }

  class ComponentFactory<M> {
    const agentConfig: map<string, Value>
    const memoryConfig: map<string, Value>
    const env: map<string, string>
    /** `model_clients`: one client per cache key. */
    var modelClients: map<Value, Client>
    /** `memory_resources`: one memory per name. */
    var memoryResources: map<string, BaseMemoryType<M>>

    /** Every cached memory was built under its own name from its own configuration entry. */
    ghost predicate Valid()
      reads this
    {
      forall n :: n in memoryResources ==>
        n in memoryConfig && memoryResources[n].name == n && memoryResources[n].config == memoryConfig[n]
    }

    /** `ComponentFactory(...)`: the memory configuration is `{}` when its file does not exist. */
    constructor (agentConfig: map<string, Value>, memoryConfigFile: Option<map<string, Value>>, env: map<string, string>)
      ensures Valid()
      ensures this.agentConfig == agentConfig && this.env == env
      ensures memoryConfig == (if memoryConfigFile.Some? then memoryConfigFile.value else map[])
      ensures modelClients == map[] && memoryResources == map[]
    {
      this.agentConfig := agentConfig;
      this.memoryConfig := if memoryConfigFile.Some? then memoryConfigFile.value else map[];
      this.env := env;
      modelClients := map[];
      memoryResources := map[];
    }

    /** `load_memory`: a cached memory is returned as it is; otherwise one is built and cached. */
    method LoadMemory(name: string, generate: (string, Value) -> M) returns (r: Result<BaseMemoryType<M>, Exception>)
      requires Valid()
      modifies this`memoryResources
      ensures Valid()
      ensures name in old(memoryResources) ==>
        r == Success(old(memoryResources)[name]) && memoryResources == old(memoryResources)
      ensures name !in old(memoryResources) ==> (r.Success? <==> name in memoryConfig)
      ensures name !in old(memoryResources) && r.Success? ==>
        && fresh(r.value) && r.value.memory == generate(name, memoryConfig[name])
        && memoryResources == old(memoryResources)[name := r.value]
      ensures r.Failure? ==> r.error == ValueError(MemoryNotFound(name)) && memoryResources == old(memoryResources)
      ensures r.Success? ==> name in memoryResources && memoryResources[name] == r.value && r.value.config == memoryConfig[name]
    {
      if name in memoryResources {
        return Success(memoryResources[name]);
      }
      r := BaseMemoryType.Create(name, memoryConfig, generate);
      if r.Success? {
        memoryResources := memoryResources[name := r.value];
      }
    }

    /** `_update_clients`: a cache hit returns the cached client; a miss creates and caches one. */
    method UpdateClients(name: string) returns (r: Result<Client, Exception>)
      modifies this`modelClients
      ensures CacheKey(agentConfig, name).Failure? ==>
        r == Failure(CacheKey(agentConfig, name).error) && modelClients == old(modelClients)
      ensures CacheKey(agentConfig, name).Success? && CacheKey(agentConfig, name).value in old(modelClients) ==>
        r == Success(old(modelClients)[CacheKey(agentConfig, name).value]) && modelClients == old(modelClients)
      ensures CacheKey(agentConfig, name).Success? && CacheKey(agentConfig, name).value !in old(modelClients) ==>
        && r == ModelClientFor(LlmConfig(agentConfig, name).value, env)
        && modelClients == (if r.Success? then old(modelClients)[CacheKey(agentConfig, name).value := r.value]
                            else old(modelClients))
      ensures r.Success? ==>
        && CacheKey(agentConfig, name).Success?
        && CacheKey(agentConfig, name).value in modelClients
        && modelClients[CacheKey(agentConfig, name).value] == r.value
    {
      var llm := LlmConfig(agentConfig, name);
      if llm.Failure? {
        return Failure(llm.error);
      }
      var provider := Index(llm.value, "provider");
      if provider.Failure? {
        return Failure(provider.error);
      }
      var key;
      if provider.value != Str("openai_assistant_api") {
        var model := Index(llm.value, "model");
        if model.Failure? {
          return Failure(model.error);
        }
        key := model.value;
      } else {
        key := provider.value;
      }
      if !Hashable(key) {
        return Failure(TypeError);
      }
      if key in modelClients {
        return Success(modelClients[key]);
      }
      r := CreateModelClient(llm.value, env);
      if r.Success? {
        modelClients := modelClients[key := r.value];
      }
    }

    /**
     * `create_agent`: the client is resolved before the agent is initialised, so
     * an agent missing from the configuration raises the KeyError of
     * `agent_config[name]`, not the ValueError of `_load_config`. A cached
     * client is reused and leaves the cache as it was; otherwise the client is
     * created and cached under its key, or its error is raised with the cache
     * unchanged. The agent receives each memory's store, in the given order.
     */
    method CreateAgent<A>(name: string, memory: seq<BaseMemoryType<M>>,
                          generate: (string, Client, seq<M>, Value, Value) -> A)
      returns (r: Result<A, Exception>)
      modifies this`modelClients
      ensures name !in agentConfig ==> r == Failure(KeyError(name))
      ensures CacheKey(agentConfig, name).Failure? ==>
        r == Failure(CacheKey(agentConfig, name).error) && modelClients == old(modelClients)
      ensures CacheKey(agentConfig, name).Success? ==> name in agentConfig && ToolConfigOf(agentConfig[name]).Success?
      ensures CacheKey(agentConfig, name).Success? && CacheKey(agentConfig, name).value in old(modelClients) ==>
        && modelClients == old(modelClients)
        && r == Success(generate(name, old(modelClients)[CacheKey(agentConfig, name).value], MemoryValues(memory),
                                 agentConfig[name], ToolConfigOf(agentConfig[name]).value))
      ensures CacheKey(agentConfig, name).Success? && CacheKey(agentConfig, name).value !in old(modelClients) ==>
        var client := ModelClientFor(LlmConfig(agentConfig, name).value, env);
        && (r.Success? <==> client.Success?)
        && (client.Failure? ==> r == Failure(client.error) && modelClients == old(modelClients))
        && (client.Success? ==>
              && modelClients == old(modelClients)[CacheKey(agentConfig, name).value := client.value]
              && r == Success(generate(name, client.value, MemoryValues(memory),
                                       agentConfig[name], ToolConfigOf(agentConfig[name]).value)))
    {
      var blankAgent := new BaseAgentType();
      var modelClient := UpdateClients(name);
      if modelClient.Failure? {
        return Failure(modelClient.error);
      }
      r := blankAgent.Initialize(name, agentConfig, modelClient.value, MemoryValues(memory), generate);
    }
  }
}
