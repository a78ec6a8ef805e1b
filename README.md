# voice-capture relay — a Dafny model

The server accepts a raw voice transcript on `POST /capture`, has a
language-model backend "polish" it, posts the polished text to a Discord
webhook and answers with both texts. This project models its two pieces of
logic and proves their properties:

- the **provider registry** of `server/ai_providers.py` (module `Providers`,
  file `providers.dfy`): the `PROVIDERS` dict that `register` fills in place
  (class `Registry` over an insertion-ordered `ProviderTable`), the five
  built-in factories and the settings they read, `get_provider` and its
  unknown-provider message, the client constructor with its
  `base_url.rstrip("/")`, and the chat-completion request `polish` sends and
  the stripped text it returns;
- the **capture pipeline** of `server/main.py` (module `CaptureEndpoint`,
  file `capture.dfy`): the order of the guards, provider-name resolution
  with Python's `or`, the two outbound calls (as oracles), the status rule of
  `send_to_discord` and the response envelope. `Capture` returns a `Run`:
  the outcome and the list of calls it made, in order, so that the ordering
  properties ("no webhook call unless polish returned") can be stated.

`strings.dfy` (module `Strings`) holds the Python string operations the two
files rely on: `str.strip()` over Python's exact whitespace set,
`rstrip("/")`, `", ".join(...)` and `str()` of a status code, each with a
characterisation proved about it. `wrappers.dfy` holds `Option` and `Result`.

Modelling choices:

- The environment is a `map<string, string>`; `Getenv` is
  `os.getenv(name, default)`: a variable that is set to `""` yields `""`,
  not the default.
- An `OpenAICompatibleProvider` is the datatype `Client`. Its constructor
  (`NewClient`) is the only place its fields are assigned, so a value models
  it faithfully, and `get_provider` and `capture` stay pure functions.
- The LLM backend is an oracle `llm: ChatRequest -> LlmReply` (HTTP status
  plus `choices[0].message.content` if present, or a transport failure); the
  webhook is an oracle `webhook: WebhookPost -> WebhookReply`. The clock
  reading for `elapsed_ms` is a parameter.
- `polish` fails when the status is outside 200..299 (`raise_for_status`),
  when the content is missing, or when the backend cannot be reached.
- Errors the handler raises itself (`HTTPException` 400, 500, 502) are told
  apart by `IsHttpException`; the lookup's `ValueError`, polish failures and
  webhook transport errors escape the handler, and the framework answers
  them with a 500.

Behaviour of the code worth knowing, which the model keeps: `register`
overwrites an existing name silently (the last registration wins), and the
table stays mutable after start-up; an unknown provider is an unhandled
`ValueError`, so the client sees a 500, not a 400; a request override of
`""` falls back like a missing one, but an `AI_PROVIDER` set to `""` is used
as is (and then fails the lookup), because `os.getenv` only falls back to
`"deepseek"` when the variable is unset.

## Model

| member | source | states |
|---|---|---|
| `Strings.Strip` | server/main.py:31 | `s.strip()` is empty exactly when `s` is all whitespace; otherwise it neither starts nor ends with whitespace; it is the slice of `s` after the leading whitespace, with only whitespace after it |
| `Strings.StripUnique` | server/ai_providers.py:47 | any non-empty slice with non-whitespace ends and only whitespace around it is what `strip()` returns (an independent characterisation) |
| `Strings.StripIdempotent` | server/ai_providers.py:47 | stripping the polished text again changes nothing |
| `Strings.TrimTrailingSlashes` | server/ai_providers.py:22 | `rstrip("/")` yields a prefix of its input without a trailing `/`, and the input continues with `/` characters only |
| `Strings.TrimTrailingSlashesUnique` | server/ai_providers.py:22 | any prefix with those two properties is what `rstrip("/")` returns |
| `Strings.TrimTrailingSlashesIdempotent` | server/ai_providers.py:22 | normalising twice changes nothing, and appending slashes to the input changes nothing |
| `Strings.JoinAt` | server/ai_providers.py:110 | `", ".join(keys)` holds every key at its offset |
| `Strings.JoinSeparatorAt` | server/ai_providers.py:110 | between each key and the next the joined text holds exactly the separator |
| `Strings.JoinOffsetOrdered` | server/ai_providers.py:110 | with a non-empty separator, each key starts after the previous one ends, so the keys appear in insertion order |
| `Strings.JoinLength` | server/ai_providers.py:110 | joining no keys gives `""`; otherwise the joined text ends exactly where its last key ends |
| `Strings.NatToString` | server/main.py:58 | `str(status)` is non-empty, all decimal digits, and starts with `0` only for 0 |
| `Strings.NatToStringRoundTrip` | server/main.py:58 | the decimal text of a status code reads back as that code |
| `Strings.NatToStringInjective` | server/main.py:58 | two status codes with the same decimal text are equal |
| `Providers.NewClient` | server/ai_providers.py:21-24 | the stored base URL has no trailing `/`, and the given one is it followed by slashes only; key and model are stored as given |
| `Providers.Getenv` | server/ai_providers.py:65-67 | `os.getenv(name, default)`: the variable's value when it is set (even to `""`), the default only when it is unset |
| `Providers.Client.ChatRequestFor` | server/ai_providers.py:27-45 | the request goes to the stored base URL followed by `/chat/completions`, with `Authorization: Bearer <key>`, `Content-Type: application/json`, the client's model, a system message then the user message holding the raw text unmodified, and `max_tokens` 2048 |
| `Providers.PolishRequestShape` | server/ai_providers.py:26-45 | the request goes to trimmed base + `/chat/completions` (one slash between), with `Bearer <key>`, the client's model, messages exactly `[system SYSTEM_PROMPT, user raw_text]` with the text unmodified, and `max_tokens` 2048 |
| `Providers.NewClientIgnoresTrailingSlashes` | server/ai_providers.py:22 | extra trailing slashes in the configured base URL give the same client |
| `Providers.Client.Polish` | server/ai_providers.py:26-47 | polish succeeds exactly when the backend answers 2xx with content; the result is that content stripped (no surrounding whitespace); a non-2xx status is reported with its code, a 2xx reply without content as a malformed response, and a transport failure as the backend being unreachable |
| `Providers.PutEffect` | server/ai_providers.py:55-59 | after `PROVIDERS[name] = f`, `name` maps to `f`, every other key keeps its presence and factory, earlier keys keep their order, and a key is added only if `name` was new; the table stays duplicate-free |
| `Providers.PutOverwrites` | server/ai_providers.py:56-58 | registering a name twice is the same as registering it once with the last factory |
| `Providers.Registry.constructor` | server/ai_providers.py:52 | the table starts empty |
| `Providers.Registry.Register` | server/ai_providers.py:55-59 | the decorator hands the factory back unchanged, and the table becomes the old one with `name` set to it, nothing else changed |
| `Providers.Builtin` | server/ai_providers.py:62-104 | the table after import is the five registrations in source order: `deepseek, zai, minimax, openai, custom` with their settings and defaults |
| `Providers.LoadProviders` | server/ai_providers.py:52-104 | importing the module registers the five factories in order and leaves exactly that table |
| `Providers.Invoke` | server/ai_providers.py:63-104 | a factory's client carries the key and model its settings resolve to in the environment, and the resolved base URL without its trailing slashes |
| `Providers.UnknownProviderMessage` | server/ai_providers.py:110-111 | the message is `Unknown provider '`, the name, `'. Available: ` and then the registered keys joined by `", "`, and nothing else |
| `Providers.GetProvider` | server/ai_providers.py:107-112 | lookup succeeds exactly for registered names, with the client the stored factory builds from the environment (a total function: factories never fail); otherwise the unknown-provider message |
| `Providers.UnknownProviderMessageLists` | server/ai_providers.py:108-111 | the failure message quotes the requested name and then lists every registered key, each after the previous one, in insertion order, with exactly `", "` between neighbours |
| `Providers.BuiltinLookupSucceeds` | server/ai_providers.py:62-108 | with the built-in table, lookup succeeds exactly for the five built-in names |
| `Providers.CustomFactoryDefaults` | server/ai_providers.py:98-104 | the custom factory builds a client even when none of its settings is set, with URL, key and model all `""` |
| `Providers.BuiltinUnknownMessage` | server/ai_providers.py:107-111 | any other name fails with `Unknown provider '<name>'. Available: deepseek, zai, minimax, openai, custom` |
| `CaptureEndpoint.WebhookUrl` | server/main.py:14 | the destination is the variable's value, and it is empty exactly when the variable is unset or set to `""` |
| `CaptureEndpoint.HttpStatus` | server/main.py:32-58 | the client sees 400 exactly for blank text, 502 exactly for a rejected delivery, and 500 for every other error (raised or escaping) |
| `CaptureEndpoint.Detail` | server/main.py:32-58 | each error the handler raises has its own detail: `Empty text`, `DISCORD_WEBHOOK_URL not configured`, or `Discord webhook failed: ` followed by the status in decimal |
| `CaptureEndpoint.CheckDelivery` | server/main.py:53-58 | delivery succeeds exactly for status 200 or 204; any other status is a 502 carrying that status; a transport failure is an error |
| `CaptureEndpoint.RejectionMessageNamesStatus` | server/main.py:57-58 | the 502 message is `Discord webhook failed: ` followed by the status in decimal, which reads back as the status |
| `CaptureEndpoint.RejectionMessageInjective` | server/main.py:58 | different statuses give different 502 messages |
| `CaptureEndpoint.ResolveProviderName` | server/main.py:38 | a non-empty override is used; a missing or empty one falls back to `AI_PROVIDER`, and to `"deepseek"` when that is unset |
| `CaptureEndpoint.PolishAndDeliver` | server/main.py:40-50 | polish is called first, on the untrimmed text; a polish failure ends the run after that one call; otherwise the webhook gets exactly `{content: polished}`, and its verdict decides between the error and the response `(text, polished, name, elapsed)` |
| `CaptureEndpoint.Capture` | server/main.py:30-50 | blank text is a 400 with no calls and only then; a missing webhook URL is a 500 with no calls; an unknown provider fails with the lookup's message and no calls; once all three guards pass, the run is exactly `PolishAndDeliver` with the resolved provider's client, so polish is called and its result decides the rest; a polish failure leaves exactly one call; the webhook is called only after polish returned, with its result; success needs delivery status 200/204 and returns the text as sent, the polished text delivered and the resolved provider name; never more than one call of each kind |
| `CaptureEndpoint.CaptureSucceeds` | server/main.py:30-50 | end to end with the built-in table, a 200 backend reply and a 204 webhook reply: the response echoes the text, carries the stripped content and names the resolved provider, after exactly the two calls |

## Left out

- Networking: the `httpx` client, its async context managers and the 30 s and
  10 s timeouts are replaced by the two oracles; a timeout is one of the
  oracles' transport failures.
- JSON: the backend's body is not parsed; the oracle yields the content of
  the first choice or nothing (a missing field, or content that is not a
  string, which makes `.strip()` raise).
- `temperature: 0.3` is not part of `ChatRequest` (a float constant), and
  `SYSTEM_PROMPT` is a constant that no property inspects beyond its place
  as the first message.
- `elapsed_ms`: computed from `time.time()` floats on a wall clock, so it is
  a parameter of `Capture`, passed through to the response; non-negativity
  and monotonicity are not promised by the code and are not stated.
- FastAPI and pydantic: routing, body validation (a non-string `text` is
  rejected before the handler runs), the `/health` endpoint with its fixed
  reply, and the body of the framework's 500 page for unhandled exceptions.
- `load_dotenv` and `os.getenv` themselves: the environment is one fixed map.
  `DISCORD_WEBHOOK_URL` is read once at import while `AI_PROVIDER` and the
  provider settings are read per request; with one map that difference is
  not visible.
- The abstract base class `AIProvider`: it has one implementation, modelled
  as the datatype `Client`.
- Concurrency: requests are independent and the registry is only read after
  start-up, so one request is modelled at a time.
