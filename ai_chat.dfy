/** The `ai-chat` Edge Function: the request handler and `callAIProvider` with
    its seven vendor adapters. The network is abstract: `net` maps the request
    an adapter would send to the outcome of sending it. */
module AiChat {
  import opened Wrappers
  import opened Text
  import Js
  import opened Tables

  datatype Provider = OpenAI | Anthropic | XAI | Google | DeepSeek | Qwen | OpenRouter

  /** The `case` label `callAIProvider` matches for each adapter. */
  function ProviderName(p: Provider): string {
    match p
    case OpenAI => "openai"
    case Anthropic => "anthropic"
    case XAI => "xai"
    case Google => "google"
    case DeepSeek => "deepseek"
    case Qwen => "qwen"
    case OpenRouter => "openrouter"
  }

  /** The seven names the dispatcher accepts, in `switch` order. */
  const SupportedProviders: seq<string> :=
    ["openai", "anthropic", "xai", "google", "deepseek", "qwen", "openrouter"]

  /** The vendor name each adapter puts in front of its error messages. */
  function VendorLabel(p: Provider): string {
    match p
    case OpenAI => "OpenAI"
    case Anthropic => "Anthropic"
    case XAI => "xAI"
    case Google => "Google"
    case DeepSeek => "DeepSeek"
    case Qwen => "Qwen"
    case OpenRouter => "OpenRouter"
  }

  /** The `switch (provider)` of `callAIProvider`, including its `default` throw. */
  function ResolveProvider(name: string): (r: Result<Provider, string>)
    ensures r.Success? ==> ProviderName(r.value) == name
    ensures r.Failure? ==> r.error == "Unsupported provider: " + name
    ensures r.Success? <==> name in SupportedProviders
  {
    match name
    case "openai" => Success(OpenAI)
    case "anthropic" => Success(Anthropic)
    case "xai" => Success(XAI)
    case "google" => Success(Google)
    case "deepseek" => Success(DeepSeek)
    case "qwen" => Success(Qwen)
    case "openrouter" => Success(OpenRouter)
    case _ => Failure("Unsupported provider: " + name)
  }

  /** Every adapter is reached by its own name and by no other. */
  lemma ResolveProviderName(p: Provider)
    ensures ResolveProvider(ProviderName(p)) == Success(p)
  {
  }

  // ---- Request envelopes ---------------------------------------------------

  /** One element of the `messages` array the client sends. */
  datatype ChatTurn = ChatTurn(role: string, content: string)

  datatype Header = Header(name: string, value: string)

  datatype GooglePart = GooglePart(text: string)

  datatype GoogleContent = GoogleContent(parts: seq<GooglePart>, role: string)

  /** The JSON body of each vendor's request. */
  datatype RequestBody =
    | ChatCompletionsBody(model: string, messages: seq<ChatTurn>, maxTokens: nat, temperature: real)
    | AnthropicBody(model: string, maxTokens: nat, messages: seq<ChatTurn>)
    | GoogleBody(contents: seq<GoogleContent>)
    | QwenBody(model: string, inputMessages: seq<ChatTurn>, maxTokens: nat, temperature: real)

  /** A `fetch(url, { method: 'POST', headers, body })` call. */
  datatype HttpRequest = HttpRequest(url: string, headers: seq<Header>, body: RequestBody)

  /** What became of a `fetch` followed by `response.json()`: a reply with its
      `ok` flag and parsed body, or a rejection with the error's message. */
  datatype HttpOutcome = Reply(ok: bool, data: Js.Value) | Failed(message: string)

  const MaxTokens: nat := 1000
  const Temperature: real := 0.7

  const GoogleModelsUrl := "https://" + "generativelanguage.googleapis.com/v1beta/models/"

  /** The URL each adapter posts to: always HTTPS, and Google's ends with the key. */
  function Endpoint(p: Provider, apiKey: string, model: string): (r: string)
    ensures "https://" <= r
    ensures p == Google ==> |r| >= |apiKey| && r[|r| - |apiKey|..] == apiKey
  {
    match p
    case OpenAI => "https://" + "api.openai.com/v1/chat/completions"
    case Anthropic => "https://" + "api.anthropic.com/v1/messages"
    case XAI => "https://" + "api.x.ai/v1/chat/completions"
    case Google =>
      var u := GoogleModelsUrl + model + ":generateContent?key=" + apiKey;
      assert u[..8] == GoogleModelsUrl[..8] == "https://";
      u
    case DeepSeek => "https://" + "api.deepseek.com/v1/chat/completions"
    case Qwen => "https://" + "dashscope.aliyuncs.com/api/v1/services/aigc/text-generation/generation"
    case OpenRouter => "https://" + "openrouter.ai/api/v1/chat/completions"
  }

  predicate UsesBearer(p: Provider) {
    p != Anthropic && p != Google
  }

  /** Every request declares a JSON body; the Bearer vendors alone send `Authorization`,
      and Anthropic alone sends `x-api-key`. */
  function RequestHeaders(p: Provider, apiKey: string): (r: seq<Header>)
    ensures Header("Content-Type", "application/json") in r
    ensures (exists i :: 0 <= i < |r| && r[i].name == "Authorization") <==> UsesBearer(p)
    ensures (exists i :: 0 <= i < |r| && r[i].name == "x-api-key") <==> p == Anthropic
  {
    if UsesBearer(p) then
      var r := [Header("Authorization", "Bearer " + apiKey), Header("Content-Type", "application/json")];
      assert r[0].name == "Authorization" && r[1].name != "x-api-key";
      r
    else if p == Anthropic then
      var r := [Header("x-api-key", apiKey), Header("Content-Type", "application/json"), Header("anthropic-version", "2023-06-01")];
      assert r[0].name == "x-api-key" && r[1].name != "Authorization" && r[2].name != "Authorization";
      r
    else
      [Header("Content-Type", "application/json")]
  }

  /** Google's role vocabulary: `user` stays, every other role becomes `model`. */
  function GoogleRole(role: string): (r: string)
    ensures r == "user" || r == "model"
    ensures r == "user" <==> role == "user"
  {
    if role == "user" then "user" else "model"
  }

  /** `messages.map(msg => ({ parts: [{ text: msg.content }], role: ... }))`. */
  function GoogleContents(messages: seq<ChatTurn>): (r: seq<GoogleContent>)
    ensures |r| == |messages|
    ensures forall i :: 0 <= i < |messages| ==>
      r[i].parts == [GooglePart(messages[i].content)] && r[i].role == GoogleRole(messages[i].role)
  {
    if |messages| == 0 then []
    else [GoogleContent([GooglePart(messages[0].content)], GoogleRole(messages[0].role))] + GoogleContents(messages[1..])
  }

  /** The JSON body each adapter posts: only Google's lacks the model name, and
      every body carries the conversation's texts in order. */
  function Body(p: Provider, model: string, messages: seq<ChatTurn>): (r: RequestBody)
    ensures r.GoogleBody? <==> p == Google
    ensures !r.GoogleBody? ==> r.model == model
    ensures EnvelopeTexts(r) == Texts(messages)
  {
    match p
    case Anthropic => AnthropicBody(model, MaxTokens, messages)
    case Google => GoogleKeepsTexts(messages); GoogleBody(GoogleContents(messages))
    case Qwen => QwenBody(model, messages, MaxTokens, Temperature)
    case _ => ChatCompletionsBody(model, messages, MaxTokens, Temperature)
  }

  /** The request the adapter for `p` sends. */
  function BuildRequest(p: Provider, apiKey: string, model: string, messages: seq<ChatTurn>): (r: HttpRequest)
    ensures "https://" <= r.url
    ensures Header("Content-Type", "application/json") in r.headers
    ensures EnvelopeTexts(r.body) == Texts(messages)
  {
    HttpRequest(Endpoint(p, apiKey, model), RequestHeaders(p, apiKey), Body(p, model, messages))
  }

  /** The texts of a conversation, in order. */
  function Texts(ms: seq<ChatTurn>): (r: seq<string>)
    ensures |r| == |ms| && forall i :: 0 <= i < |ms| ==> r[i] == ms[i].content
  {
    seq(|ms|, i requires 0 <= i < |ms| => ms[i].content)
  }

  /** The texts of Google's `contents`: each entry's first part. */
  function PartTexts(cs: seq<GoogleContent>): (r: seq<string>)
    ensures |r| == |cs| && forall i :: 0 <= i < |cs| ==> r[i] == (if |cs[i].parts| > 0 then cs[i].parts[0].text else "")
  {
    seq(|cs|, i requires 0 <= i < |cs| => if |cs[i].parts| > 0 then cs[i].parts[0].text else "")
  }

  /** The message texts an envelope carries, in order. */
  function EnvelopeTexts(body: RequestBody): seq<string> {
    match body
    case ChatCompletionsBody(_, ms, _, _) => Texts(ms)
    case AnthropicBody(_, _, ms) => Texts(ms)
    case QwenBody(_, ms, _, _) => Texts(ms)
    case GoogleBody(cs) => PartTexts(cs)
  }

  /** Every adapter forwards the whole conversation: same number of messages, same texts, same order. */
  lemma EnvelopeKeepsConversation(p: Provider, model: string, messages: seq<ChatTurn>)
    ensures EnvelopeTexts(Body(p, model, messages)) == Texts(messages)
  {
    match p
    case Google => GoogleKeepsTexts(messages);
    case Anthropic =>
    case Qwen =>
    case _ =>
  }

  lemma GoogleKeepsTexts(messages: seq<ChatTurn>)
    ensures PartTexts(GoogleContents(messages)) == Texts(messages)
  {
    var l, r := PartTexts(GoogleContents(messages)), Texts(messages);
    forall i | 0 <= i < |l| ensures l[i] == r[i] {
    }
  }

  /** Google is the only adapter that rewrites roles; the others pass the turns through untouched. */
  lemma EnvelopeRoles(p: Provider, model: string, messages: seq<ChatTurn>)
    ensures var body := Body(p, model, messages);
      match body
      case GoogleBody(cs) =>
        p == Google && |cs| == |messages| &&
        forall i :: 0 <= i < |cs| ==> (cs[i].role == "user" <==> messages[i].role == "user") && (cs[i].role == "user" || cs[i].role == "model")
      case ChatCompletionsBody(_, ms, _, _) => ms == messages
      case AnthropicBody(_, _, ms) => ms == messages
      case QwenBody(_, ms, _, _) => ms == messages
  {
  }

  /** Where the model name and the API key go, and the fixed generation limits. */
  lemma EnvelopeCredentialsAndLimits(p: Provider, apiKey: string, model: string, messages: seq<ChatTurn>)
    ensures var req := BuildRequest(p, apiKey, model, messages);
      (UsesBearer(p) ==> req.headers[0] == Header("Authorization", "Bearer " + apiKey)) &&
      (p == Anthropic ==> req.headers[0] == Header("x-api-key", apiKey) && req.body.maxTokens == 1000) &&
      (p == Google ==> req.url == GoogleModelsUrl + model + ":generateContent?key=" + apiKey &&
                       forall h :: h in req.headers ==> h.name != "Authorization" && h.name != "x-api-key") &&
      (p != Google ==> req.body.model == model) &&
      (req.body.ChatCompletionsBody? || req.body.QwenBody? ==> req.body.maxTokens == 1000 && req.body.temperature == 0.7)
  {
    match p
    case Anthropic =>
    case Google =>
    case Qwen =>
    case _ =>
  }

  // ---- Responses -----------------------------------------------------------

  /** The property path each adapter reads the completion text from. */
  function ExtractPath(p: Provider): (r: seq<Js.Key>)
    ensures Js.Index(0) in r
    ensures |r| > 0 && (r[|r| - 1] == Js.Field("text") || r[|r| - 1] == Js.Field("content"))
  {
    match p
    case Anthropic => [Js.Field("content"), Js.Index(0), Js.Field("text")]
    case Google => [Js.Field("candidates"), Js.Index(0), Js.Field("content"), Js.Field("parts"), Js.Index(0), Js.Field("text")]
    case Qwen => [Js.Field("output"), Js.Field("choices"), Js.Index(0), Js.Field("message"), Js.Field("content")]
    case _ => [Js.Field("choices"), Js.Index(0), Js.Field("message"), Js.Field("content")]
  }

  function ErrorPrefix(p: Provider): string {
    VendorLabel(p) + " API error: "
  }

  /** `data.error?.message`, or `data.message` for Qwen. */
  function ErrorDetail(p: Provider, data: Js.Value): (r: Result<Js.Value, string>)
    ensures r.Failure? <==> Js.IsNullish(data)
  {
    if p == Qwen then Js.Get(data, Js.Field("message"))
    else
      match Js.Get(data, Js.Field("error"))
      case Failure(e) => Failure(e)
      case Success(err) => Js.OptionalGet(err, Js.Field("message"))
  }

  /** The message of the error a non-ok reply makes the adapter throw. */
  function ErrorText(p: Provider, data: Js.Value): (r: string)
    ensures !Js.IsNullish(data) ==> ErrorPrefix(p) <= r
    ensures Js.IsNullish(data) ==> r == Js.ReadError(data, Js.Field(if p == Qwen then "message" else "error"))
  {
    match ErrorDetail(p, data)
    case Failure(typeError) => typeError
    case Success(d) => ErrorPrefix(p) + (if Js.Truthy(d) then Js.ToText(d) else "Unknown error")
  }

  /** What the adapter for `p` returns (`Success`) or throws (`Failure`) for a network outcome. */
  function Interpret(p: Provider, outcome: HttpOutcome): (r: Result<Js.Value, string>)
    ensures outcome.Failed? ==> r == Failure(outcome.message)
    ensures r.Success? ==> outcome.Reply? && outcome.ok
  {
    match outcome
    case Failed(m) => Failure(m)
    case Reply(ok, data) => if !ok then Failure(ErrorText(p, data)) else Js.GetPath(data, ExtractPath(p))
  }

  /** A non-ok reply never yields a completion. */
  lemma NonOkNeverSucceeds(p: Provider, data: Js.Value)
    ensures Interpret(p, Reply(false, data)).Failure?
  {
  }

  /** A non-ok reply whose body is not null: the vendor's own message when it is
      truthy, otherwise "Unknown error", always behind the vendor prefix. */
  lemma NonOkMessage(p: Provider, data: Js.Value)
    requires !Js.IsNullish(data)
    ensures var r := Interpret(p, Reply(false, data));
      var d := ErrorDetail(p, data);
      d.Success? && r.Failure? && |r.error| > 0 && ErrorPrefix(p) <= r.error &&
      r.error == ErrorPrefix(p) + (if Js.Truthy(d.value) then Js.ToText(d.value) else "Unknown error")
  {
  }

  /** The vendor message is used verbatim when it is a non-empty string. */
  lemma NonOkStringMessage(p: Provider, msg: string)
    requires msg != ""
    ensures p != Qwen ==>
      Interpret(p, Reply(false, Js.Obj(map["error" := Js.Obj(map["message" := Js.Str(msg)])])))
        == Failure(ErrorPrefix(p) + msg)
    ensures p == Qwen ==>
      Interpret(p, Reply(false, Js.Obj(map["message" := Js.Str(msg)]))) == Failure("Qwen API error: " + msg)
  {
    var inner := Js.Obj(map["message" := Js.Str(msg)]);
    assert Js.KeyText(Js.Field("message")) == "message";
    assert Js.Get(inner, Js.Field("message")) == Success(Js.Str(msg));
    if p != Qwen {
      var data := Js.Obj(map["error" := inner]);
      assert Js.KeyText(Js.Field("error")) == "error";
      assert Js.Get(data, Js.Field("error")) == Success(inner);
      assert ErrorText(p, data) == ErrorPrefix(p) + msg;
    } else {
      assert ErrorText(p, inner) == ErrorPrefix(Qwen) + msg;
      assert ErrorPrefix(Qwen) == "Qwen API error: ";
    }
  }

  /** Qwen reads `data.message`, the others `data.error.message`: the same body
      gives Qwen's message ... */
  lemma QwenReadsTopLevelMessage()
    ensures Interpret(Qwen, Reply(false, Js.Obj(map["message" := Js.Str("quota")]))) == Failure("Qwen API error: quota")
  {
    var data := Js.Obj(map["message" := Js.Str("quota")]);
    assert Js.KeyText(Js.Field("message")) == "message";
    assert Js.Get(data, Js.Field("message")) == Success(Js.Str("quota"));
    assert ErrorText(Qwen, data) == ErrorPrefix(Qwen) + "quota";
    assert ErrorPrefix(Qwen) + "quota" == "Qwen API error: quota";
  }

  /** ... and every other vendor's fallback text. */
  lemma OthersIgnoreTopLevelMessage()
    ensures Interpret(OpenAI, Reply(false, Js.Obj(map["message" := Js.Str("quota")]))) == Failure("OpenAI API error: Unknown error")
  {
    var data := Js.Obj(map["message" := Js.Str("quota")]);
    assert ErrorDetail(OpenAI, data) == Success(Js.Undefined) by {
      assert Js.KeyText(Js.Field("error")) == "error" && "error" !in data.fields;
      assert Js.Get(data, Js.Field("error")) == Success(Js.Undefined);
    }
    assert ErrorText(OpenAI, data) == ErrorPrefix(OpenAI) + "Unknown error";
    assert ErrorPrefix(OpenAI) + "Unknown error" == "OpenAI API error: Unknown error" by {
      assert ErrorPrefix(OpenAI) == "OpenAI API error: ";
    }
  }

  /** A `null` error body makes the error path itself throw a TypeError, without the vendor prefix. */
  lemma NullErrorBodyThrowsTypeError(p: Provider)
    ensures Interpret(p, Reply(false, Js.Null))
         == Failure("Cannot read properties of null (reading '" + (if p == Qwen then "message" else "error") + "')")
  {
    var field := if p == Qwen then "message" else "error";
    assert Js.KeyText(Js.Field(field)) == field;
    assert ErrorDetail(p, Js.Null) == Failure(Js.ReadError(Js.Null, Js.Field(field)));
    assert Js.ReadError(Js.Null, Js.Field(field))
        == "Cannot read properties of " + "null" + " (reading '" + field + "')";
    assert "Cannot read properties of " + "null" + " (reading '" == "Cannot read properties of null (reading '";
  }

  /** On success each adapter returns exactly the value found along its own path. */
  lemma SuccessExtracts(p: Provider, text: Js.Value)
    ensures Interpret(p, Reply(true, Js.Nest(ExtractPath(p), text))) == Success(text)
  {
    Js.GetPathOfNest(ExtractPath(p), text);
  }

  /** A successful reply missing a step of the path throws the engine's TypeError. */
  lemma SuccessWithoutChoicesThrows()
    ensures Interpret(OpenAI, Reply(true, Js.Obj(map[]))) == Failure("Cannot read properties of undefined (reading '0')")
  {
    var path := ExtractPath(OpenAI);
    assert path[0] == Js.Field("choices") && path[1] == Js.Index(0);
    assert Js.Get(Js.Obj(map[]), Js.Field("choices")) == Success(Js.Undefined);
    assert Js.GetPath(Js.Obj(map[]), path) == Js.GetPath(Js.Undefined, path[1..]);
    assert Js.GetPath(Js.Undefined, path[1..]) == Failure(Js.ReadError(Js.Undefined, Js.Index(0))) by {
      assert path[1..][0] == Js.Index(0);
    }
    UndefinedIndexZeroMessage();
  }

  lemma UndefinedIndexZeroMessage()
    ensures Js.ReadError(Js.Undefined, Js.Index(0)) == "Cannot read properties of undefined (reading '0')"
  {
    assert Js.KeyText(Js.Index(0)) == "0" by {
      assert NatToString(0) == [DigitChar(0)];
    }
    assert Js.ReadError(Js.Undefined, Js.Index(0)) == "Cannot read properties of " + "undefined" + " (reading '" + "0" + "')";
    assert "Cannot read properties of " + "undefined" + " (reading '" + "0" + "')" == "Cannot read properties of undefined (reading '0')";
  }

  // ---- Dispatch ------------------------------------------------------------

  /** The outcome of `callAIProvider`: the request it sent, if any, and what it returned or threw. */
  datatype Call = Call(sent: Option<HttpRequest>, result: Result<Js.Value, string>)

  function CallAIProvider(provider: string, apiKey: string, model: string, messages: seq<ChatTurn>,
                          net: HttpRequest -> HttpOutcome): (r: Call)
    ensures r.sent.None? <==> provider !in SupportedProviders
    ensures r.sent.None? ==> r.result == Failure("Unsupported provider: " + provider)
    ensures r.sent.Some? ==> EnvelopeTexts(r.sent.value.body) == Texts(messages) && "https://" <= r.sent.value.url
  {
    match ResolveProvider(provider)
    case Failure(e) => Call(None, Failure(e))
    case Success(p) =>
      var req := BuildRequest(p, apiKey, model, messages);
      Call(Some(req), Interpret(p, net(req)))
  }

  /** An unknown provider throws before any request is made. */
  lemma UnsupportedProviderMakesNoCall(provider: string, apiKey: string, model: string,
                                       messages: seq<ChatTurn>, net: HttpRequest -> HttpOutcome)
    requires provider !in SupportedProviders
    ensures CallAIProvider(provider, apiKey, model, messages, net) == Call(None, Failure("Unsupported provider: " + provider))
  {
  }

  /** Each of the seven names reaches its own adapter and sends exactly one request. */
  lemma NameReachesItsAdapter(p: Provider, apiKey: string, model: string,
                              messages: seq<ChatTurn>, net: HttpRequest -> HttpOutcome)
    ensures var req := BuildRequest(p, apiKey, model, messages);
      CallAIProvider(ProviderName(p), apiKey, model, messages, net) == Call(Some(req), Interpret(p, net(req)))
  {
    ResolveProviderName(p);
  }

  // ---- The handler ---------------------------------------------------------

  /** The JSON body the client posts. */
  datatype ChatRequest = ChatRequest(sessionId: string, messages: seq<ChatTurn>, modelType: string)

  datatype ChatBody = PlainText(text: string) | Answer(response: Js.Value, model: string) | ErrorJson(error: string)

  datatype ChatResponse = ChatResponse(status: nat, body: ChatBody)

  /** `modelType === 'A' ? config.model_a : config.model_b`. */
  function SelectModel(config: Configuration, modelType: string): (m: string)
    ensures modelType == "A" ==> m == config.modelA
    ensures modelType != "A" ==> m == config.modelB
  {
    if modelType == "A" then config.modelA else config.modelB
  }

  /** One POST to `ai-chat`. `user` is what `auth.getUser()` found; `insertSucceeds`
      says whether the (unchecked) `chat_messages` insert took effect. */
  method HandleChat(db: Database, user: Option<string>, req: ChatRequest,
                    net: HttpRequest -> HttpOutcome, insertSucceeds: bool)
    returns (resp: ChatResponse, sent: Option<HttpRequest>)
    modifies db
    ensures db.configurations == old(db.configurations) && db.sessions == old(db.sessions)
    ensures user.None? ==>
      resp == ChatResponse(401, PlainText("Unauthorized")) && sent.None? && db.chatMessages == old(db.chatMessages)
    ensures user.Some? && LookupActive(old(db.configurations), user.value).None? ==>
      resp == ChatResponse(400, PlainText("No active AI configuration found")) && sent.None? &&
      db.chatMessages == old(db.chatMessages)
    ensures user.Some? && LookupActive(old(db.configurations), user.value).Some? ==>
      var config := LookupActive(old(db.configurations), user.value).value;
      var model := SelectModel(config, req.modelType);
      var call := CallAIProvider(config.provider, config.apiKey, model, req.messages, net);
      sent == call.sent &&
      (call.result.Failure? ==>
         resp == ChatResponse(500, ErrorJson(call.result.error)) && db.chatMessages == old(db.chatMessages)) &&
      (call.result.Success? ==>
         resp == ChatResponse(200, Answer(call.result.value, model)) &&
         db.chatMessages == old(db.chatMessages) +
           (if insertSucceeds then [MessageRow(req.sessionId, req.modelType, call.result.value)] else []))
  {
    if user.None? {
      return ChatResponse(401, PlainText("Unauthorized")), None;
    }
    var config := LookupActive(db.configurations, user.value);
    if config.None? {
      return ChatResponse(400, PlainText("No active AI configuration found")), None;
    }
    var model := SelectModel(config.value, req.modelType);
    var call := CallAIProvider(config.value.provider, config.value.apiKey, model, req.messages, net);
    sent := call.sent;
    if call.result.Failure? {
      return ChatResponse(500, ErrorJson(call.result.error)), sent;
    }
    var response := call.result.value;
    if insertSucceeds {
      db.chatMessages := db.chatMessages + [MessageRow(req.sessionId, req.modelType, response)];
    }
    resp := ChatResponse(200, Answer(response, model));
  }

  /** The worked example: an OpenAI configuration, model A, a stub that answers "hello". */
  method OpenAIScenario()
  {
    var db := new Database();
    var config := Configuration("c1", "u1", "openai", "sk", "gpt-4o", "gpt-4o-mini", true);
    db.configurations := [config];
    assert ActiveRows(db.configurations, "u1") == [config];
    var net := (r: HttpRequest) => Reply(true, Js.Nest(ExtractPath(OpenAI), Js.Str("hello")));
    SuccessExtracts(OpenAI, Js.Str("hello"));
    NameReachesItsAdapter(OpenAI, "sk", "gpt-4o", [ChatTurn("user", "hi")], net);
    var resp, sent := HandleChat(db, Some("u1"), ChatRequest("S", [ChatTurn("user", "hi")], "A"), net, true);
    assert resp == ChatResponse(200, Answer(Js.Str("hello"), "gpt-4o"));
    assert db.chatMessages == [MessageRow("S", "A", Js.Str("hello"))];
  }
}
