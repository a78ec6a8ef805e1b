/**
  The provider registry and the OpenAI-compatible client of
  `server/ai_providers.py`: the `PROVIDERS` table that `register` fills at
  start-up, the five built-in factories, `get_provider`, the client's
  constructor and the chat-completion request that `polish` sends.
*/
module Providers {
  import opened Wrappers
  import opened Strings

  /** The process environment, as seen by `os.getenv`. */
  type Environment = map<string, string>

  /** A configuration value: environment variable `name`, or `fallback`
      when the variable is not set at all (a variable set to "" yields ""). */
  datatype Setting = Setting(name: string, fallback: string)

  function Getenv(env: Environment, setting: Setting): (value: string)
    ensures setting.name in env ==> value == env[setting.name]
    ensures setting.name !in env ==> value == setting.fallback
  {
    if setting.name in env then env[setting.name] else setting.fallback
  }

  // ---------------------------------------------------------------------
  // The client

  const SYSTEM_PROMPT: string := "You are a text polisher. The user will give you a raw voice transcript. Clean it up into clear, well-structured text while preserving the original meaning and ideas. Fix grammar, remove filler words, and organize the thoughts. Output ONLY the polished text, nothing else."

  const CHAT_COMPLETIONS_PATH: string := "/chat/completions"
  const MAX_TOKENS: nat := 2048

  /** One entry of the `messages` list of a chat-completion request. */
  datatype Message = Message(role: string, content: string)

  /** The parts of the POST that `polish` sends which the model fixes:
      target URL, the two headers, and the JSON body without `temperature`. */
  datatype ChatRequest = ChatRequest(
    url: string,
    authorization: string,
    contentType: string,
    model: string,
    messages: seq<Message>,
    maxTokens: nat)

  /** What came back from the backend. `Responded` carries the HTTP status
      and `choices[0].message.content` when the JSON body has a string
      there; `Unreachable` is a transport failure of the HTTP client. */
  datatype LlmReply = Responded(status: nat, content: Option<string>) | Unreachable

  /** Why `polish` raised. */
  datatype PolishError =
    | UpstreamStatus(status: nat)   // `raise_for_status` on a status outside 200..299
    | MalformedResponse             // the expected field is absent from the body
    | UpstreamUnreachable

  /** An `OpenAICompatibleProvider` once its constructor has run. The
      object's fields are never assigned again, so it is a value here. */
  datatype Client = Client(baseUrl: string, apiKey: string, model: string)
  {
    /** The request `polish(rawText)` posts. */
    function ChatRequestFor(rawText: string): (r: ChatRequest)
      ensures |r.url| == |baseUrl| + |CHAT_COMPLETIONS_PATH|
      ensures r.url[..|baseUrl|] == baseUrl && r.url[|baseUrl|..] == CHAT_COMPLETIONS_PATH
      ensures |r.authorization| == 7 + |apiKey| && r.authorization[..7] == "Bearer " && r.authorization[7..] == apiKey
      ensures r.contentType == "application/json" && r.model == model
      ensures |r.messages| == 2 && r.messages[0].role == "system" && r.messages[1] == Message("user", rawText)
      ensures r.maxTokens == MAX_TOKENS
    {
      ChatRequest(
        baseUrl + CHAT_COMPLETIONS_PATH,
        "Bearer " + apiKey,
        "application/json",
        model,
        [Message("system", SYSTEM_PROMPT), Message("user", rawText)],
        MAX_TOKENS)
    }

    /** `polish(rawText)`, with the backend replaced by the oracle `llm`:
        a 2xx reply carrying content yields that content stripped; any
        other reply is the error `polish` raises. */
    function Polish(rawText: string, llm: ChatRequest -> LlmReply): (r: Result<string, PolishError>)
      ensures var reply := llm(ChatRequestFor(rawText));
        && (r.Success? <==> reply.Responded? && 200 <= reply.status < 300 && reply.content.Some?)
        && (r.Success? ==> r.value == Strip(reply.content.value))
        && (r.Failure? && reply.Responded? && !(200 <= reply.status < 300) ==> r.error == UpstreamStatus(reply.status))
        && (reply.Responded? && 200 <= reply.status < 300 && reply.content.None? ==> r == Failure(MalformedResponse))
        && (reply.Unreachable? ==> r == Failure(UpstreamUnreachable))
      ensures r.Success? ==> r.value == [] || (!IsWhitespace(r.value[0]) && !IsWhitespace(r.value[|r.value| - 1]))
    {
      match llm(ChatRequestFor(rawText))
      case Unreachable => Failure(UpstreamUnreachable)
      case Responded(status, content) =>
        if !(200 <= status < 300) then Failure(UpstreamStatus(status))
        else if content.None? then Failure(MalformedResponse)
        else Success(Strip(content.value))
    }
  }

  /** `OpenAICompatibleProvider(base_url, api_key, model)`: the base URL is
      stored without its trailing slashes. */
  function NewClient(baseUrl: string, apiKey: string, model: string): (c: Client)
    ensures c.baseUrl == [] || c.baseUrl[|c.baseUrl| - 1] != '/'
    ensures |c.baseUrl| <= |baseUrl| && baseUrl == c.baseUrl + Slashes(|baseUrl| - |c.baseUrl|)
    ensures c.apiKey == apiKey && c.model == model
  {
    var trimmed := TrimTrailingSlashes(baseUrl);
    assert baseUrl == trimmed + Slashes(|baseUrl| - |trimmed|);
    Client(trimmed, apiKey, model)
  }

  /** Slashes appended to a configured base URL give the same client. */
  lemma NewClientIgnoresTrailingSlashes(baseUrl: string, extra: nat, apiKey: string, model: string)
    ensures NewClient(baseUrl + Slashes(extra), apiKey, model) == NewClient(baseUrl, apiKey, model)
  {
    TrimTrailingSlashesIdempotent(baseUrl, extra);
  }

  /** The request `polish` sends from a client built with `baseUrl`: the
      trimmed base followed by the completions path, so the two are joined
      by exactly one slash; the key as a bearer token; the system prompt and
      then the raw text, unmodified; at most 2048 tokens. */
  lemma PolishRequestShape(baseUrl: string, apiKey: string, model: string, rawText: string)
    ensures var req := NewClient(baseUrl, apiKey, model).ChatRequestFor(rawText);
      var base := TrimTrailingSlashes(baseUrl);
      && req.url == base + "/chat/completions"
      && (base != [] ==> req.url[|base| - 1] != '/' && req.url[|base|] == '/' && req.url[|base| + 1] != '/')
      && req.authorization == "Bearer " + apiKey
      && req.model == model
      && |req.messages| == 2
      && req.messages[0] == Message("system", SYSTEM_PROMPT)
      && req.messages[1] == Message("user", rawText)
      && req.maxTokens == 2048
  {
  }

  /** The client a factory builds for `polish` to use, with every setting
      resolved from `env`. It never fails, even if a setting falls back to "". */
  function Invoke(factory: Factory, env: Environment): (c: Client)
    ensures var url := Getenv(env, factory.baseUrl);
      |c.baseUrl| <= |url| && url == c.baseUrl + Slashes(|url| - |c.baseUrl|)
      && (c.baseUrl == [] || c.baseUrl[|c.baseUrl| - 1] != '/')
    ensures c.apiKey == Getenv(env, factory.apiKey) && c.model == Getenv(env, factory.model)
  {
    NewClient(Getenv(env, factory.baseUrl), Getenv(env, factory.apiKey), Getenv(env, factory.model))
  }

  // ---------------------------------------------------------------------
  // The registry

  /** A registered factory: the three settings it reads. */
  datatype Factory = Factory(baseUrl: Setting, apiKey: Setting, model: Setting)

  const DEEPSEEK: Factory := Factory(
    Setting("DEEPSEEK_BASE_URL", "https://api.deepseek.com/v1"),
    Setting("DEEPSEEK_API_KEY", ""),
    Setting("DEEPSEEK_MODEL", "deepseek-chat"))
  const ZAI: Factory := Factory(
    Setting("ZAI_BASE_URL", "https://api.z.ai/v1"),
    Setting("ZAI_API_KEY", ""),
    Setting("ZAI_MODEL", "z1-mini"))
  const MINIMAX: Factory := Factory(
    Setting("MINIMAX_BASE_URL", "https://api.minimax.io/v1"),
    Setting("MINIMAX_API_KEY", ""),
    Setting("MINIMAX_MODEL", "MiniMax-Text-01"))
  const OPENAI: Factory := Factory(
    Setting("OPENAI_BASE_URL", "https://api.openai.com/v1"),
    Setting("OPENAI_API_KEY", ""),
    Setting("OPENAI_MODEL", "gpt-4o-mini"))
  const CUSTOM: Factory := Factory(
    Setting("CUSTOM_BASE_URL", ""),
    Setting("CUSTOM_API_KEY", ""),
    Setting("CUSTOM_MODEL", ""))

  /** The contents of the `PROVIDERS` dict: its keys in insertion order and
      the factory stored under each. */
  datatype ProviderTable = ProviderTable(names: seq<string>, factories: map<string, Factory>)
  {
    /** Each key listed once, and exactly the keys of the map. */
    ghost predicate Valid()
    {
      && (forall i, j :: 0 <= i < j < |names| ==> names[i] != names[j])
      && (forall n :: n in factories <==> n in names)
    }

    /** `PROVIDERS[name] = factory`: a new key goes last, an existing key
        keeps its place. */
    function Put(name: string, factory: Factory): ProviderTable
    {
      ProviderTable(if name in names then names else names + [name], factories[name := factory])
    }
  }

  /** After `PROVIDERS[name] = factory` the entry for `name` is `factory`,
      every other entry is as before, the earlier keys keep their order,
      and a key is added only when `name` was not registered yet. */
  lemma PutEffect(table: ProviderTable, name: string, factory: Factory)
    requires table.Valid()
    ensures var t := table.Put(name, factory);
      && t.Valid()
      && name in t.factories && t.factories[name] == factory
      && (forall n :: n != name ==> (n in t.factories <==> n in table.factories))
      && (forall n :: n != name && n in table.factories ==> t.factories[n] == table.factories[n])
      && |table.names| <= |t.names| && t.names[..|table.names|] == table.names
      && |t.names| == if name in table.names then |table.names| else |table.names| + 1
  {
    var t := table.Put(name, factory);
    if name !in table.names {
      assert t.names == table.names + [name];
      forall i, j | 0 <= i < j < |t.names| ensures t.names[i] != t.names[j] {
        if j == |table.names| { assert t.names[i] in table.names; }
      }
    }
  }

  const EMPTY: ProviderTable := ProviderTable([], map[])

  /** Registering a name again replaces its factory: the last registration
      wins and the keys are as after the first one. */
  lemma PutOverwrites(table: ProviderTable, name: string, first: Factory, second: Factory)
    requires table.Valid()
    ensures table.Put(name, first).Put(name, second) == table.Put(name, second)
  {
    PutEffect(table, name, first);
  }

  /** The table as it stands after the module has been imported: the five
      decorated factories, in source order (`LoadProviders` builds it). */
  function Builtin(): (t: ProviderTable)
    ensures t.Valid()
    ensures t == EMPTY.Put("deepseek", DEEPSEEK).Put("zai", ZAI).Put("minimax", MINIMAX)
                      .Put("openai", OPENAI).Put("custom", CUSTOM)
  {
    ProviderTable(
      ["deepseek", "zai", "minimax", "openai", "custom"],
      map["deepseek" := DEEPSEEK, "zai" := ZAI, "minimax" := MINIMAX, "openai" := OPENAI, "custom" := CUSTOM])
  }

  /** The text of the `ValueError` for a name that is not registered. */
  function UnknownProviderMessage(name: string, names: seq<string>): (msg: string)
    ensures var head := |"Unknown provider '"|;
      var listed := head + |name| + |"'. Available: "|;
      && |msg| == listed + |Join(names, ", ")|
      && msg[..head] == "Unknown provider '"
      && msg[head..head + |name|] == name
      && msg[head + |name|..listed] == "'. Available: "
      && msg[listed..] == Join(names, ", ")
  {
    "Unknown provider '" + name + "'. Available: " + Join(names, ", ")
  }

  /** `get_provider(name)`: the registered factory's client, or the
      unknown-provider error. */
  function GetProvider(table: ProviderTable, name: string, env: Environment): (r: Result<Client, string>)
    ensures r.Success? <==> name in table.factories
    ensures r.Success? ==> r.value == Invoke(table.factories[name], env)
    ensures r.Failure? ==> r.error == UnknownProviderMessage(name, table.names)
  {
    if name in table.factories then Success(Invoke(table.factories[name], env))
    else Failure(UnknownProviderMessage(name, table.names))
  }

  /** The unknown-provider message quotes the requested name, then lists
      every registered name at its place in `", "`-joined insertion order. */
  lemma {:induction false} UnknownProviderMessageLists(name: string, names: seq<string>, i: nat)
    requires i < |names|
    ensures var msg := UnknownProviderMessage(name, names);
      var head := |"Unknown provider '"|;
      var listed := head + |name| + |"'. Available: "|;
      && msg[head..head + |name|] == name
      && listed + JoinOffset(names, ", ", i) + |names[i]| <= |msg|
      && msg[listed + JoinOffset(names, ", ", i)..listed + JoinOffset(names, ", ", i) + |names[i]|] == names[i]
      && (i + 1 < |names| ==>
            JoinOffset(names, ", ", i) + |names[i]| + 2 == JoinOffset(names, ", ", i + 1) &&
            listed + JoinOffset(names, ", ", i + 1) <= |msg| &&
            msg[listed + JoinOffset(names, ", ", i) + |names[i]|..listed + JoinOffset(names, ", ", i + 1)] == ", ")
      && forall k :: i < k < |names| ==> JoinOffset(names, ", ", i) + |names[i]| < JoinOffset(names, ", ", k)
  {
    var msg := UnknownProviderMessage(name, names);
    var joined := Join(names, ", ");
    var listed := |"Unknown provider '"| + |name| + |"'. Available: "|;
    assert msg == "Unknown provider '" + name + "'. Available: " + joined;
    JoinAt(names, ", ", i);
    var o := JoinOffset(names, ", ", i);
    assert msg[listed + o..listed + o + |names[i]|] == joined[o..o + |names[i]|];
    if i + 1 < |names| {
      JoinSeparatorAt(names, ", ", i);
      var o' := JoinOffset(names, ", ", i + 1);
      assert msg[listed + o + |names[i]|..listed + o'] == joined[o + |names[i]|..o'];
    }
    forall k | i < k < |names|
      ensures JoinOffset(names, ", ", i) + |names[i]| < JoinOffset(names, ", ", k)
    {
      JoinOffsetOrdered(names, ", ", i, k);
    }
  }

  /** With the built-in table, exactly the five built-in names are found. */
  lemma BuiltinLookupSucceeds(name: string, env: Environment)
    ensures GetProvider(Builtin(), name, env).Success? <==> name in {"deepseek", "zai", "minimax", "openai", "custom"}
  {
  }

  /** The custom factory still builds a client when none of its settings is
      set: every field is then "". */
  lemma CustomFactoryDefaults(env: Environment)
    requires "CUSTOM_BASE_URL" !in env && "CUSTOM_API_KEY" !in env && "CUSTOM_MODEL" !in env
    ensures GetProvider(Builtin(), "custom", env) == Success(Client("", "", ""))
  {
  }

  /** With the built-in table, any other name fails with the five names
      listed in registration order. */
  lemma BuiltinUnknownMessage(name: string, env: Environment)
    requires name !in {"deepseek", "zai", "minimax", "openai", "custom"}
    ensures GetProvider(Builtin(), name, env)
      == Failure("Unknown provider '" + name + "'. Available: " + "deepseek, zai, minimax, openai, custom")
  {
    JoinFive("deepseek", "zai", "minimax", "openai", "custom", ", ");
    BuiltinNamesSpelled();
  }

  lemma BuiltinNamesSpelled()
    ensures "deepseek" + ", " + "zai" + ", " + "minimax" + ", " + "openai" + ", " + "custom"
      == "deepseek, zai, minimax, openai, custom"
  {
  }

  /** The mutable `PROVIDERS` table of the module. */
  class Registry {
    var providers: ProviderTable

    ghost predicate Valid()
      reads this
    {
      providers.Valid()
    }

    /** `PROVIDERS: dict[str, callable] = {}`. */
    constructor ()
      ensures Valid() && providers == EMPTY
    {
      providers := EMPTY;
    }

    /** `register(name)(factory)`: stores the factory under `name`, replacing
        any earlier one, and hands the factory back unchanged. */
    method Register(name: string, factory: Factory) returns (registered: Factory)
      requires Valid()
      modifies this
      ensures Valid()
      ensures registered == factory
      ensures providers == old(providers).Put(name, factory)
      ensures name in providers.factories && providers.factories[name] == factory
      ensures forall n :: n != name ==> (n in providers.factories <==> n in old(providers.factories))
      ensures forall n :: n != name && n in old(providers.factories) ==>
        providers.factories[n] == old(providers.factories[n])
    {
      PutEffect(providers, name, factory);
      providers := providers.Put(name, factory);
      registered := factory;
    }
  }

  /** Importing the module: the table starts empty and the five decorated
      factories register themselves in source order. */
  method LoadProviders() returns (registry: Registry)
    ensures fresh(registry) && registry.Valid()
    ensures registry.providers == Builtin()
    ensures registry.providers.names == ["deepseek", "zai", "minimax", "openai", "custom"]
  {
    registry := new Registry();
    var f := registry.Register("deepseek", DEEPSEEK);
    ghost var expected := EMPTY.Put("deepseek", DEEPSEEK);
    assert registry.providers == expected;
    f := registry.Register("zai", ZAI);
    expected := expected.Put("zai", ZAI);
    assert registry.providers == expected;
    f := registry.Register("minimax", MINIMAX);
    expected := expected.Put("minimax", MINIMAX);
    assert registry.providers == expected;
    f := registry.Register("openai", OPENAI);
    expected := expected.Put("openai", OPENAI);
    assert registry.providers == expected;
    f := registry.Register("custom", CUSTOM);
    expected := expected.Put("custom", CUSTOM);
    assert registry.providers == expected == Builtin();
  }
}
