/**
  The `POST /capture` handler of `server/main.py`: its guards, provider
  resolution, the two outbound calls and the response it composes. The LLM
  backend and the webhook are oracles, and the handler's result records the
  calls it made, in order, beside its outcome.
*/
module CaptureEndpoint {
  import opened Wrappers
  import opened Strings
  import opened Providers

  /** The process-wide default provider. */
  const AI_PROVIDER: Setting := Setting("AI_PROVIDER", "deepseek")
  /** The webhook destination; there is no default. */
  const DISCORD_WEBHOOK_URL: Setting := Setting("DISCORD_WEBHOOK_URL", "")

  /** `os.getenv("DISCORD_WEBHOOK_URL", "")`: unset and empty are alike. */
  function WebhookUrl(env: Environment): (url: string)
    ensures url == "" <==> "DISCORD_WEBHOOK_URL" !in env || env["DISCORD_WEBHOOK_URL"] == ""
    ensures url != "" ==> url == env["DISCORD_WEBHOOK_URL"]
  {
    Getenv(env, DISCORD_WEBHOOK_URL)
  }

  /** The request body: the transcript and an optional provider override. */
  datatype CaptureRequest = CaptureRequest(text: string, provider: Option<string>)

  /** The success body. `elapsedMs` is the clock reading the handler took. */
  datatype CaptureResponse = CaptureResponse(
    original: string,
    polished: string,
    providerUsed: string,
    elapsedMs: int)

  /** The JSON POST `send_to_discord` makes: `{"content": content}` to `url`. */
  datatype WebhookPost = WebhookPost(url: string, content: string)

  /** The webhook's HTTP reply, or a transport failure of the HTTP client. */
  datatype WebhookReply = Answered(status: nat) | NoAnswer

  /** Every way the handler ends without a response body. */
  datatype CaptureError =
    | EmptyText                         // raised by the handler: 400
    | WebhookNotConfigured              // raised by the handler: 500
    | UnknownProvider(message: string)  // the `ValueError` of `get_provider`
    | PolishFailed(cause: PolishError)  // whatever `polish` raised
    | WebhookRejected(status: nat)      // raised by `send_to_discord`: 502
    | WebhookUnreachable                // the HTTP client's transport error

  /** Whether the handler itself raised the error as an `HTTPException`;
      the others escape it and the framework answers them with a 500. */
  predicate IsHttpException(e: CaptureError)
  {
    e.EmptyText? || e.WebhookNotConfigured? || e.WebhookRejected?
  }

  /** The status the client sees: the handler's own 400 and 502, and 500
      for everything else, raised or escaping. */
  function HttpStatus(e: CaptureError): (status: nat)
    ensures status == 400 <==> e.EmptyText?
    ensures status == 502 <==> e.WebhookRejected?
    ensures status == 500 <==> !e.EmptyText? && !e.WebhookRejected?
  {
    match e
    case EmptyText => 400
    case WebhookRejected(_) => 502
    case _ => 500
  }

  const WEBHOOK_FAILED_PREFIX: string := "Discord webhook failed: "

  /** The `detail` of the errors the handler raises itself. */
  function Detail(e: CaptureError): (detail: string)
    requires IsHttpException(e)
    ensures detail == "Empty text" <==> e.EmptyText?
    ensures detail == "DISCORD_WEBHOOK_URL not configured" <==> e.WebhookNotConfigured?
    ensures e.WebhookRejected? <==>
      |WEBHOOK_FAILED_PREFIX| < |detail| && detail[..|WEBHOOK_FAILED_PREFIX|] == WEBHOOK_FAILED_PREFIX
    ensures e.WebhookRejected? ==> detail[|WEBHOOK_FAILED_PREFIX|..] == NatToString(e.status)
  {
    match e
    case EmptyText => "Empty text"
    case WebhookNotConfigured =>
      var detail := "DISCORD_WEBHOOK_URL not configured";
      assert detail[1] != WEBHOOK_FAILED_PREFIX[1];
      detail
    case WebhookRejected(status) =>
      var detail := WEBHOOK_FAILED_PREFIX + NatToString(status);
      assert detail[1] != "DISCORD_WEBHOOK_URL not configured"[1] && detail[0] != "Empty text"[0];
      detail
  }

  /** `send_to_discord`'s verdict on the webhook's reply: status 200 or 204
      is delivery, every other status a 502, a transport failure an error. */
  function CheckDelivery(reply: WebhookReply): (r: Option<CaptureError>)
    ensures r.None? <==> reply == Answered(200) || reply == Answered(204)
    ensures r.Some? && reply.Answered? ==> r.value == WebhookRejected(reply.status) && HttpStatus(r.value) == 502
    ensures r.Some? && reply.NoAnswer? ==> r.value == WebhookUnreachable
  {
    match reply
    case NoAnswer => Some(WebhookUnreachable)
    case Answered(status) => if status == 200 || status == 204 then None else Some(WebhookRejected(status))
  }

  /** The 502's message ends in the webhook's status code, written in
      decimal, and that code can be read back from it. */
  lemma RejectionMessageNamesStatus(status: nat)
    requires status != 200 && status != 204
    ensures var e := CheckDelivery(Answered(status));
      && e == Some(WebhookRejected(status))
      && var msg := Detail(e.value);
      && |WEBHOOK_FAILED_PREFIX| < |msg|
      && msg[..|WEBHOOK_FAILED_PREFIX|] == WEBHOOK_FAILED_PREFIX
      && IsDigits(msg[|WEBHOOK_FAILED_PREFIX|..])
      && DigitsValue(msg[|WEBHOOK_FAILED_PREFIX|..]) == status
  {
    var msg := Detail(WebhookRejected(status));
    assert msg[|WEBHOOK_FAILED_PREFIX|..] == NatToString(status);
    NatToStringRoundTrip(status);
  }

  /** Two different statuses never give the same 502 message. */
  lemma RejectionMessageInjective(s: nat, t: nat)
    requires Detail(WebhookRejected(s)) == Detail(WebhookRejected(t))
    ensures s == t
  {
    var msg := Detail(WebhookRejected(s));
    assert msg[|WEBHOOK_FAILED_PREFIX|..] == NatToString(s);
    assert msg[|WEBHOOK_FAILED_PREFIX|..] == NatToString(t);
    NatToStringInjective(s, t);
  }

  /** `req.provider or os.getenv("AI_PROVIDER", "deepseek")`: a missing or
      empty override falls back to the configured default. */
  function ResolveProviderName(provider: Option<string>, env: Environment): (name: string)
    ensures provider.Some? && provider.value != "" ==> name == provider.value
    ensures provider.None? || provider.value == "" ==>
      name == if "AI_PROVIDER" in env then env["AI_PROVIDER"] else "deepseek"
  {
    if provider.Some? && provider.value != "" then provider.value else Getenv(env, AI_PROVIDER)
  }

  /** An outbound call the handler made. */
  datatype Call = PolishCall(request: ChatRequest) | WebhookCall(post: WebhookPost)

  /** What one run of the handler produces: its outcome and its calls. */
  datatype Run = Run(outcome: Result<CaptureResponse, CaptureError>, calls: seq<Call>)

  /** The second half of `capture`, once `client` has been obtained for
      `name`: polish the untrimmed text, deliver the result, compose the
      response. */
  function PolishAndDeliver(
    client: Client,
    name: string,
    req: CaptureRequest,
    env: Environment,
    llm: ChatRequest -> LlmReply,
    webhook: WebhookPost -> WebhookReply,
    elapsedMs: int): (run: Run)
    ensures 1 <= |run.calls| <= 2
    ensures run.calls[0] == PolishCall(client.ChatRequestFor(req.text))
    ensures run.outcome.Failure? && run.outcome.error.PolishFailed? <==> |run.calls| == 1
    ensures |run.calls| == 1 ==>
      client.Polish(req.text, llm).Failure? &&
      run.outcome == Failure(PolishFailed(client.Polish(req.text, llm).error))
    ensures |run.calls| == 2 ==>
      && client.Polish(req.text, llm).Success?
      && run.calls[1] == WebhookCall(WebhookPost(WebhookUrl(env), client.Polish(req.text, llm).value))
      && (run.outcome.Success? <==> CheckDelivery(webhook(run.calls[1].post)).None?)
      && (run.outcome.Failure? ==> Some(run.outcome.error) == CheckDelivery(webhook(run.calls[1].post)))
    ensures run.outcome.Success? ==>
      run.outcome.value == CaptureResponse(req.text, run.calls[1].post.content, name, elapsedMs)
  {
    var polishCall := PolishCall(client.ChatRequestFor(req.text));
    match client.Polish(req.text, llm)
    case Failure(cause) => Run(Failure(PolishFailed(cause)), [polishCall])
    case Success(polished) =>
      var post := WebhookPost(WebhookUrl(env), polished);
      var calls := [polishCall, WebhookCall(post)];
      match CheckDelivery(webhook(post))
      case Some(error) => Run(Failure(error), calls)
      case None => Run(Success(CaptureResponse(req.text, polished, name, elapsedMs)), calls)
  }

  /** `capture(req)` against the provider table `table`, the environment
      `env`, the backend `llm`, the webhook `webhook` and the clock reading
      `elapsedMs`. */
  function Capture(
    req: CaptureRequest,
    env: Environment,
    table: ProviderTable,
    llm: ChatRequest -> LlmReply,
    webhook: WebhookPost -> WebhookReply,
    elapsedMs: int): (run: Run)
    // At most one polish call, then at most one delivery; never a retry.
    ensures |run.calls| <= 2
    ensures |run.calls| >= 1 ==> run.calls[0].PolishCall?
    ensures |run.calls| == 2 ==> run.calls[1].WebhookCall?
    // First guard: blank text, before anything else.
    ensures IsBlank(req.text) <==> run.outcome == Failure(EmptyText)
    ensures IsBlank(req.text) ==> run.calls == []
    // Second guard: no webhook destination, before any lookup or call.
    ensures !IsBlank(req.text) && WebhookUrl(env) == "" ==> run == Run(Failure(WebhookNotConfigured), [])
    // Lookup: an unknown name aborts before any call, with the lookup's message.
    ensures run.outcome.Failure? && run.outcome.error.UnknownProvider? <==>
      !IsBlank(req.text) && WebhookUrl(env) != "" && ResolveProviderName(req.provider, env) !in table.factories
    ensures run.outcome.Failure? && run.outcome.error.UnknownProvider? ==>
      run.calls == [] &&
      run.outcome.error.message == UnknownProviderMessage(ResolveProviderName(req.provider, env), table.names)
    // The polish call: made by the resolved provider's client, on the untrimmed text.
    ensures run.calls != [] ==>
      && !IsBlank(req.text) && WebhookUrl(env) != ""
      && ResolveProviderName(req.provider, env) in table.factories
      && run.calls[0] == PolishCall(
           Invoke(table.factories[ResolveProviderName(req.provider, env)], env).ChatRequestFor(req.text))
    // A polish failure aborts after that one call.
    ensures run.outcome.Failure? && run.outcome.error.PolishFailed? <==> |run.calls| == 1
    // The webhook call: only once polish has returned, carrying its result.
    ensures |run.calls| == 2 ==>
      var polished := Invoke(table.factories[ResolveProviderName(req.provider, env)], env).Polish(req.text, llm);
      && polished.Success?
      && run.calls[1] == WebhookCall(WebhookPost(WebhookUrl(env), polished.value))
    // Delivery decides the rest: 200 or 204 is success, anything else an error.
    ensures |run.calls| == 2 ==>
      && (run.outcome.Success? <==> CheckDelivery(webhook(run.calls[1].post)).None?)
      && (run.outcome.Failure? ==> Some(run.outcome.error) == CheckDelivery(webhook(run.calls[1].post)))
    // Every guard passed: the run is polish-then-deliver with the resolved client.
    ensures !IsBlank(req.text) && WebhookUrl(env) != "" && ResolveProviderName(req.provider, env) in table.factories ==>
      var name := ResolveProviderName(req.provider, env);
      run == PolishAndDeliver(Invoke(table.factories[name], env), name, req, env, llm, webhook, elapsedMs)
    // The response: the text exactly as sent, the polished text delivered, the name used.
    ensures run.outcome.Success? ==>
      && |run.calls| == 2
      && run.outcome.value.original == req.text
      && run.outcome.value.polished == run.calls[1].post.content
      && run.outcome.value.providerUsed == ResolveProviderName(req.provider, env)
      && run.outcome.value.elapsedMs == elapsedMs
  {
    if Strip(req.text) == "" then Run(Failure(EmptyText), [])
    else if WebhookUrl(env) == "" then Run(Failure(WebhookNotConfigured), [])
    else
      var name := ResolveProviderName(req.provider, env);
      match GetProvider(table, name, env)
      case Failure(message) => Run(Failure(UnknownProvider(message)), [])
      case Success(client) => PolishAndDeliver(client, name, req, env, llm, webhook, elapsedMs)
  }

  /** End to end with the built-in table, a backend that answers 200 with
      `content` and a webhook that answers 204: the response echoes the
      text, carries the stripped content and names the resolved provider,
      and exactly the two calls were made. */
  lemma CaptureSucceeds(req: CaptureRequest, env: Environment, content: string, elapsedMs: int)
    requires !IsBlank(req.text) && WebhookUrl(env) != ""
    requires ResolveProviderName(req.provider, env) in {"deepseek", "zai", "minimax", "openai", "custom"}
    ensures var run := Capture(req, env, Builtin(), _ => Responded(200, Some(content)), _ => Answered(204), elapsedMs);
      && run.outcome == Success(CaptureResponse(req.text, Strip(content), ResolveProviderName(req.provider, env), elapsedMs))
      && |run.calls| == 2 && run.calls[0].PolishCall? && run.calls[1].post == WebhookPost(WebhookUrl(env), Strip(content))
  {
    BuiltinLookupSucceeds(ResolveProviderName(req.provider, env), env);
  }
}
