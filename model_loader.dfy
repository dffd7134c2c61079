/**
 * Provider and model resolution: `load_model` reads LLM_PROVIDER and MODEL_NAME,
 * checks the provider against the supported ones, checks the credentials its loader
 * requires, builds the chat client and binds the tools when there are any.
 *
 * Client objects are records of the settings they are built with; the tool node
 * and the bound model are records of the tools they hold.
 */
module ModelLoader {
  import opened Wrappers
  import opened Text
  import opened Environ

  datatype Provider = OpenAI | Anthropic | Azure | Ollama | Google | Grok | Groq {
    function Name(): string {
      match this
      case OpenAI => "openai"
      case Anthropic => "anthropic"
      case Azure => "azure"
      case Ollama => "ollama"
      case Google => "google"
      case Grok => "grok"
      case Groq => "groq"
    }
  }

  const SupportedProviders: seq<string> :=
    ["openai", "anthropic", "azure", "ollama", "google", "grok", "groq"]

  /** The loader registered for each provider name. */
  const ProviderLoaders: map<string, Provider> := map[
    "openai" := OpenAI, "anthropic" := Anthropic, "azure" := Azure, "ollama" := Ollama,
    "google" := Google, "grok" := Grok, "groq" := Groq]

  /** The model used when MODEL_NAME is unset. */
  const DefaultModels: map<string, string> := map[
    "openai" := "gpt-5-mini",
    "anthropic" := "claude-3-5-haiku-20241022",
    "azure" := "gpt-4o",
    "ollama" := "llama3",
    "google" := "gemini-2.5-flash",
    "grok" := "grok-3",
    "groq" := "openai/gpt-oss-120b"]

  const DefaultAzureApiVersion := "2024-02-01"
  const DefaultOllamaBaseUrl := "http://localhost:11434"
  const DefaultXaiBaseUrl := "https://api.x.ai/v1"

  /** Every supported provider has a loader and a default model, and nothing else does. */
  lemma ProviderTablesAgree()
    ensures ProviderLoaders.Keys == set name | name in SupportedProviders
    ensures DefaultModels.Keys == set name | name in SupportedProviders
    ensures forall name :: name in ProviderLoaders ==> ProviderLoaders[name].Name() == name
  {
  }

  // ---------------------------------------------------------------------------
  // _get_env
  // ---------------------------------------------------------------------------

  /** The variable has a non-empty value. */
  predicate IsSet(env: Env, key: string) {
    key in env && env[key] != ""
  }

  function MissingVariableMessage(key: string): string {
    "Required environment variable '" + key + "' is not set. "
    + "Please add it to your .env file or shell environment."
  }

  /** `_get_env(key, default, required)`: `os.getenv(key, default)`, failing when the
      variable is required and that value is None or empty. */
  function GetEnvVar(env: Env, key: string, default: Option<string>, required: bool)
    : (r: Result<Option<string>, string>)
    ensures r.Failure? <==>
      required && (if key in env then env[key] == "" else default.None? || default.value == "")
    ensures r.Failure? ==> r.error == MissingVariableMessage(key)
    ensures r.Success? && key in env ==> r.value == Some(env[key])
    ensures r.Success? && key !in env ==> r.value == default
  {
    var value := if key in env then Some(env[key]) else default;
    if required && (value.None? || value.value == "") then Failure(MissingVariableMessage(key)) else Success(value)
  }

  /** Not required and with a default, `_get_env` is plain `os.getenv`. */
  lemma OptionalGetEnvVar(env: Env, key: string, default: string)
    ensures GetEnvVar(env, key, Some(default), false) == Success(Some(GetEnv(env, key, default)))
  {
  }

  // ---------------------------------------------------------------------------
  // The per-provider loaders
  // ---------------------------------------------------------------------------

  /** A chat client: which class (by provider), the model or deployment name, and the
      settings passed explicitly to it. */
  datatype ChatModel = ChatModel(
    provider: Provider,
    model: string,
    apiKey: Option<string>,
    baseUrl: Option<string>,
    apiVersion: Option<string>)

  /** The variables each `_load_*` checks, in the order it checks them: only Ollama
      needs none, every other provider checks its API key first, and no variable is
      checked twice. */
  function RequiredKeys(p: Provider): (keys: seq<string>)
    ensures keys == [] <==> p == Ollama
    ensures p != Ollama ==> EndsWith(keys[0], "_API_KEY")
    ensures forall i, j :: 0 <= i < j < |keys| ==> keys[i] != keys[j]
  {
    match p
    case OpenAI => ApiKeyName("OPENAI", "OPENAI_API_KEY"); ["OPENAI_API_KEY"]
    case Anthropic => ApiKeyName("ANTHROPIC", "ANTHROPIC_API_KEY"); ["ANTHROPIC_API_KEY"]
    case Azure =>
      ApiKeyName("AZURE_OPENAI", "AZURE_OPENAI_API_KEY");
      ["AZURE_OPENAI_API_KEY", "AZURE_OPENAI_ENDPOINT"]
    case Ollama => []
    case Google => ApiKeyName("GOOGLE", "GOOGLE_API_KEY"); ["GOOGLE_API_KEY"]
    case Grok => ApiKeyName("XAI", "XAI_API_KEY"); ["XAI_API_KEY"]
    case Groq => ApiKeyName("GROQ", "GROQ_API_KEY"); ["GROQ_API_KEY"]
  }

  /** A variable named "{service}_API_KEY" ends with "_API_KEY". */
  lemma ApiKeyName(service: string, name: string)
    requires name == service + "_API_KEY"
    ensures EndsWith(name, "_API_KEY")
  {
    assert name[|name| - |"_API_KEY"|..] == "_API_KEY";
  }

  /** The position of the first of `keys` that is unset or empty, if any. */
  function FirstUnset(env: Env, keys: seq<string>): (r: Option<nat>)
    ensures r.None? <==> forall i :: 0 <= i < |keys| ==> IsSet(env, keys[i])
    ensures r.Some? ==>
      && r.value < |keys|
      && !IsSet(env, keys[r.value])
      && forall j :: 0 <= j < r.value ==> IsSet(env, keys[j])
  {
    if keys == [] then
      None
    else if !IsSet(env, keys[0]) then
      Some(0)
    else
      match FirstUnset(env, keys[1..])
      case None => None
      case Some(i) => Some(i + 1)
  }

  /** What every `_load_*` promises: it fails exactly when one of its required
      variables is unset or empty, naming the first such one, and otherwise builds a
      client for its provider with the given model name. */
  ghost predicate LoaderContract(p: Provider, modelName: string, env: Env, r: Result<ChatModel, string>) {
    && (r.Success? <==> FirstUnset(env, RequiredKeys(p)).None?)
    && (r.Failure? ==> r.error == MissingVariableMessage(RequiredKeys(p)[FirstUnset(env, RequiredKeys(p)).value]))
    && (r.Success? ==> r.value.provider == p && r.value.model == modelName)
  }

  function LoadOpenAI(modelName: string, env: Env): (r: Result<ChatModel, string>)
    ensures LoaderContract(OpenAI, modelName, env, r)
  {
    var _ :- GetEnvVar(env, "OPENAI_API_KEY", None, true);
    Success(ChatModel(OpenAI, modelName, None, None, None))
  }

  function LoadAnthropic(modelName: string, env: Env): (r: Result<ChatModel, string>)
    ensures LoaderContract(Anthropic, modelName, env, r)
  {
    var _ :- GetEnvVar(env, "ANTHROPIC_API_KEY", None, true);
    Success(ChatModel(Anthropic, modelName, None, None, None))
  }

  function LoadAzure(modelName: string, env: Env): (r: Result<ChatModel, string>)
    ensures LoaderContract(Azure, modelName, env, r)
    ensures r.Success? && "AZURE_OPENAI_API_VERSION" !in env ==> r.value.apiVersion == Some("2024-02-01")
  {
    var _ :- GetEnvVar(env, "AZURE_OPENAI_API_KEY", None, true);
    var _ :- GetEnvVar(env, "AZURE_OPENAI_ENDPOINT", None, true);
    var apiVersion := GetEnvVar(env, "AZURE_OPENAI_API_VERSION", Some(DefaultAzureApiVersion), false).Extract();
    Success(ChatModel(Azure, modelName, None, None, apiVersion))
  }

  function LoadOllama(modelName: string, env: Env): (r: Result<ChatModel, string>)
    ensures LoaderContract(Ollama, modelName, env, r)
    ensures r.Success? && "OLLAMA_BASE_URL" !in env ==> r.value.baseUrl == Some("http://localhost:11434")
  {
    var baseUrl := GetEnvVar(env, "OLLAMA_BASE_URL", Some(DefaultOllamaBaseUrl), false).Extract();
    Success(ChatModel(Ollama, modelName, None, baseUrl, None))
  }

  function LoadGoogle(modelName: string, env: Env): (r: Result<ChatModel, string>)
    ensures LoaderContract(Google, modelName, env, r)
  {
    var _ :- GetEnvVar(env, "GOOGLE_API_KEY", None, true);
    Success(ChatModel(Google, modelName, None, None, None))
  }

  function LoadGrok(modelName: string, env: Env): (r: Result<ChatModel, string>)
    ensures LoaderContract(Grok, modelName, env, r)
    ensures r.Success? ==> r.value.apiKey == Some(env["XAI_API_KEY"])
    ensures r.Success? && "XAI_BASE_URL" !in env ==> r.value.baseUrl == Some("https://api.x.ai/v1")
  {
    var apiKey :- GetEnvVar(env, "XAI_API_KEY", None, true);
    var baseUrl := GetEnvVar(env, "XAI_BASE_URL", Some(DefaultXaiBaseUrl), false).Extract();
    Success(ChatModel(Grok, modelName, apiKey, baseUrl, None))
  }

  function LoadGroq(modelName: string, env: Env): (r: Result<ChatModel, string>)
    ensures LoaderContract(Groq, modelName, env, r)
  {
    var _ :- GetEnvVar(env, "GROQ_API_KEY", None, true);
    Success(ChatModel(Groq, modelName, None, None, None))
  }

  /** Calling the loader that `_PROVIDER_LOADERS` registers for `p`. */
  function LoadProvider(p: Provider, modelName: string, env: Env): (r: Result<ChatModel, string>)
    ensures LoaderContract(p, modelName, env, r)
  {
    match p
    case OpenAI => LoadOpenAI(modelName, env)
    case Anthropic => LoadAnthropic(modelName, env)
    case Azure => LoadAzure(modelName, env)
    case Ollama => LoadOllama(modelName, env)
    case Google => LoadGoogle(modelName, env)
    case Grok => LoadGrok(modelName, env)
    case Groq => LoadGroq(modelName, env)
  }

  // ---------------------------------------------------------------------------
  // load_model
  // ---------------------------------------------------------------------------

  datatype Tool = Tool(name: string)

  /** The base client, or the client with the tools bound to it. */
  datatype BoundModel = Plain(base: ChatModel) | WithTools(base: ChatModel, tools: seq<Tool>)

  /** `(model, tool_node)`; the tool node is the list of tools it dispatches to. */
  datatype LoadedModel = LoadedModel(model: BoundModel, toolNode: Option<seq<Tool>>)

  /** The lowercased LLM_PROVIDER, "openai" when unset: it holds no upper-case letter,
      and a set value keeps its length and every character that is not upper-case. */
  function ProviderName(env: Env): (name: string)
    ensures forall i :: 0 <= i < |name| ==> !IsUpper(name[i])
    ensures "LLM_PROVIDER" !in env ==> name == "openai"
    ensures "LLM_PROVIDER" in env ==> var v := env["LLM_PROVIDER"];
      |name| == |v| && forall i :: 0 <= i < |v| && !IsUpper(v[i]) ==> name[i] == v[i]
  {
    Lower(GetEnv(env, "LLM_PROVIDER", "openai"))
  }

  function UnsupportedMessage(provider: string): string {
    "Unsupported provider '" + provider + "'. Choose one of: " + Join(", ", SupportedProviders)
  }

  function LoadModel(env: Env, tools: Option<seq<Tool>>): (r: Result<LoadedModel, string>)
    ensures ProviderName(env) !in SupportedProviders ==> r == Failure(UnsupportedMessage(ProviderName(env)))
    ensures r.Success? <==>
      && ProviderName(env) in SupportedProviders
      && FirstUnset(env, RequiredKeys(ProviderLoaders[ProviderName(env)])).None?
    ensures r.Success? ==>
      && r.value.model.base.provider.Name() == ProviderName(env)
      && r.value.model.base.model
           == (if "MODEL_NAME" in env then env["MODEL_NAME"] else DefaultModels[ProviderName(env)])
    ensures r.Success? ==>
      var bind := tools.Some? && |tools.value| > 0;
      && (r.value.model.WithTools? <==> bind)
      && (r.value.toolNode.Some? <==> bind)
      && (bind ==> r.value.model.tools == tools.value && r.value.toolNode == Some(tools.value))
  {
    var toolList := if tools.Some? then tools.value else [];
    var provider := ProviderName(env);
    if provider !in SupportedProviders then
      Failure(UnsupportedMessage(provider))
    else
      ProviderTablesAgree();
      var modelName := GetEnv(env, "MODEL_NAME", DefaultModels[provider]);
      var base :- LoadProvider(ProviderLoaders[provider], modelName, env);
      if |toolList| > 0 then
        Success(LoadedModel(WithTools(base, toolList), Some(toolList)))
      else
        Success(LoadedModel(Plain(base), None))
  }

  /** Credentials are never consulted for an unsupported provider. */
  lemma UnsupportedProviderIgnoresCredentials(env: Env, key: string, value: string, tools: Option<seq<Tool>>)
    requires key != "LLM_PROVIDER"
    requires ProviderName(env) !in SupportedProviders
    ensures LoadModel(env[key := value], tools) == LoadModel(env, tools)
  {
    assert GetEnv(env[key := value], "LLM_PROVIDER", "openai") == GetEnv(env, "LLM_PROVIDER", "openai");
  }

  /** With LLM_PROVIDER and MODEL_NAME unset, the result is OpenAI's "gpt-5-mini",
      available exactly when OPENAI_API_KEY is set and non-empty. */
  lemma DefaultsToOpenAI(env: Env, tools: Option<seq<Tool>>)
    requires "LLM_PROVIDER" !in env && "MODEL_NAME" !in env
    ensures LoadModel(env, tools).Success? <==> IsSet(env, "OPENAI_API_KEY")
    ensures LoadModel(env, tools).Success? ==>
      LoadModel(env, tools).value.model.base == ChatModel(OpenAI, "gpt-5-mini", None, None, None)
  {
    assert ProviderName(env) == "openai";
  }
}
