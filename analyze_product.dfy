/**
 * The analyze-product serverless handler: it answers CORS preflight,
 * checks that the Groq API key is configured and that the request carries
 * an image, turns the image into a data URI, asks the Groq chat-completion
 * endpoint to read the product's text, and wraps either the completion or
 * the first failure in a JSON envelope.
 *
 * Everything the handler awaits is an input here: the environment
 * variables, the parsed request body, and what the upstream call did.
 */
module AnalyzeProduct {
  import opened JsRuntime

  // ---- Configuration ----

  /** The two environment variables the key may come from (None: not set). */
  datatype Env = Env(upperKey: Option<string>, lowerKey: Option<string>)

  /** `Deno.env.get('GROQ_API_KEY') || Deno.env.get('groq')` */
  function ApiKey(env: Env): (key: Option<string>)
    ensures NonEmpty(env.upperKey) ==> key == env.upperKey
    ensures !NonEmpty(env.upperKey) ==> key == env.lowerKey
    ensures NonEmpty(key) <==> NonEmpty(env.upperKey) || NonEmpty(env.lowerKey)
  {
    if NonEmpty(env.upperKey) then env.upperKey else env.lowerKey
  }

  // ---- The request and the upstream call, as the handler sees them ----

  /** The outcome of `await x.json()`: the parsed value, or the message of the error it threw. */
  datatype JsonOutcome = Parsed(value: Json) | ParseFailed(message: string)

  datatype Request = Request(httpMethod: string, body: JsonOutcome)

  /** What the handler sends to the chat-completion endpoint. */
  datatype ChatRequest = ChatRequest(
    url: string,
    apiKey: string,
    model: string,
    systemPrompt: string,
    userPrompt: string,
    maxTokens: nat)

  /** The outcome of the awaited `fetch`: rejected with a message, or a response. */
  datatype Upstream =
    | FetchRejected(message: string)
    | Responded(status: nat, body: JsonOutcome)

  /** `response.ok`: the status is in the range 200-299. */
  predicate OkStatus(status: nat)
  {
    200 <= status <= 299
  }

  // ---- The response ----

  datatype Body = EmptyBody | ErrorEnvelope(error: string) | ResultEnvelope(result: Option<Json>)

  datatype Response = Response(status: nat, headers: map<string, string>, body: Body)

  /** What one invocation did: its response, whether it read the request body, and what it sent upstream. */
  datatype Trace = Trace(response: Response, bodyRead: bool, sent: Option<ChatRequest>)

  const CorsHeaders: map<string, string> := map[
    "Access-Control-Allow-Origin" := "*",
    "Access-Control-Allow-Headers" := "authorization, x-client-info, apikey, content-type"]

  const JsonHeaders: map<string, string> := CorsHeaders["Content-Type" := "application/json"]

  /** The answer to a preflight request: no body, the CORS headers, the default status. */
  const Preflight: Response := Response(200, CorsHeaders, EmptyBody)

  // ---- Messages ----

  const MissingKeyMessage: string := "GROQ_API_KEY is not configured. Please check your Supabase Edge Function Secrets."
  const NoImageMessage: string := "No image provided"
  const InvalidFormatMessage: string := "Invalid response format from Groq API"
  const UpstreamErrorPrefix: string := "Groq API error: "
  const HttpStatusPrefix: string := "HTTP status "
  /** The engine's TypeError when the request body is JSON null and `{ image }` destructures it. */
  const DestructureNullMessage: string := "Cannot destructure property 'image' of '(intermediate value)' as it is null."
  /** The engine's TypeError when `image` is truthy but not a string. */
  const StartsWithMessage: string := "image.startsWith is not a function"
  /** The engine's TypeError when an error response's body is JSON null. */
  const ReadErrorOfNullMessage: string := "Cannot read properties of null (reading 'error')"

  // ---- The request to Groq ----

  const DataPrefix: string := "data:"
  const JpegDataUriPrefix: string := "data:image/jpeg;base64,"

  /** `formattedImage`: an image already given as a data URI is kept, anything else is taken as base64 JPEG. */
  function FormatImage(image: string): (f: string)
    ensures StartsWith(f, DataPrefix)
    ensures StartsWith(image, DataPrefix) ==> f == image
    ensures !StartsWith(image, DataPrefix) ==> f == JpegDataUriPrefix + image
  {
    if StartsWith(image, DataPrefix) then image else JpegDataUriPrefix + image
  }

  /** Formatting twice is formatting once, and the caller's image is always the tail of the result. */
  lemma FormatImageIdempotent(image: string)
    ensures FormatImage(FormatImage(image)) == FormatImage(image)
    ensures FormatImage(image)[|FormatImage(image)| - |image|..] == image
  {
  }

  const GroqUrl: string := "https://api.groq.com/openai/v1/chat/completions"
  const GroqModel: string := "llama3-70b-8192"
  const MaxTokens: nat := 1024
  const SystemPrompt: string := "You are an OCR specialist that reads text from product images and extracts key information about the product. Focus on ingredients, product name, brand, nutrition facts, and sustainability information. Present the information in a clear, concise format."
  const UserPromptPrefix: string := "Please analyze this product image and extract all text information. Focus on the product name, ingredients list, and any sustainability claims or certifications. The image is provided as a base64 string: "

  /** The chat-completion request for an image already in data-URI form. */
  function BuildChatRequest(apiKey: string, formattedImage: string): (r: ChatRequest)
    ensures r.url == GroqUrl && r.apiKey == apiKey && r.model == GroqModel
    ensures r.maxTokens == MaxTokens && r.systemPrompt == SystemPrompt
    ensures StartsWith(r.userPrompt, UserPromptPrefix) && r.userPrompt[|UserPromptPrefix|..] == formattedImage
  {
    ChatRequest(GroqUrl, apiKey, GroqModel, SystemPrompt, UserPromptPrefix + formattedImage, MaxTokens)
  }

  // ---- Reading Groq's answer ----

  /**
   * `errorData.error?.message`: found only when the body is an object whose
   * `error` is an object with an own `message`.
   */
  function ErrorDetail(errorData: Json): (r: Option<Json>)
    requires errorData != JNull
    ensures r.Some? <==>
      && errorData.JObject? && "error" in errorData.fields
      && errorData.fields["error"].JObject? && "message" in errorData.fields["error"].fields
    ensures r.Some? ==> r.value == errorData.fields["error"].fields["message"]
    ensures HasErrorMessage(errorData) ==> r == Some(JString(ErrorMessageOf(errorData)))
  {
    var err := Prop(errorData, "error");
    if err.None? || err.value == JNull then None else Prop(err.value, "message")
  }

  /** The error body's `error.message` is absent or has a string form. */
  predicate ReportableDetail(errorData: Json)
    requires errorData != JNull
  {
    var detail := ErrorDetail(errorData);
    detail.None? || Printable(detail.value)
  }

  /**
   * The message of a non-ok response:
   * `Groq API error: ${errorData.error?.message || `HTTP status ${status}`}`,
   * unless reading the error body, or printing its message, throws first.
   */
  function UpstreamErrorMessage(status: nat, errorBody: JsonOutcome): (m: string)
    ensures errorBody.ParseFailed? ==> m == errorBody.message
    ensures errorBody == Parsed(JNull) ==> m == ReadErrorOfNullMessage
    ensures errorBody.Parsed? && errorBody.value != JNull && !Truthy(ErrorDetail(errorBody.value)) ==>
      m == UpstreamErrorPrefix + HttpStatusPrefix + NatToDecimal(status)
    ensures (errorBody.Parsed? && errorBody.value != JNull && Truthy(ErrorDetail(errorBody.value)) &&
             Printable(ErrorDetail(errorBody.value).value)) ==>
      m == UpstreamErrorPrefix + TemplateString(ErrorDetail(errorBody.value).value).s
    ensures errorBody.Parsed? && errorBody.value != JNull ==>
      (StartsWith(m, UpstreamErrorPrefix) <==> ReportableDetail(errorBody.value))
    ensures errorBody.Parsed? && errorBody.value != JNull && !ReportableDetail(errorBody.value) ==>
      m == NoPrimitiveMessage
  {
    match errorBody
    case ParseFailed(m) => m
    case Parsed(errorData) =>
      if errorData == JNull then ReadErrorOfNullMessage
      else
      var detail := ErrorDetail(errorData);
      var printed := if Truthy(detail) then TemplateString(detail.value) else Converted(HttpStatusPrefix + NatToDecimal(status));
      match printed
      case ConversionError(e) =>
        assert e[0] != UpstreamErrorPrefix[0];
        e
      case Converted(text) =>
        var m := UpstreamErrorPrefix + text;
        assert m[..|UpstreamErrorPrefix|] == UpstreamErrorPrefix;
        m
  }

  /**
   * Once the error body is read: its `error.message` when that is a
   * non-empty string, the HTTP status when there is no truthy message.
   */
  lemma UpstreamErrorMessageShape(status: nat, errorData: Json)
    requires errorData != JNull
    ensures HasErrorMessage(errorData) ==>
      UpstreamErrorMessage(status, Parsed(errorData)) == UpstreamErrorPrefix + ErrorMessageOf(errorData)
    ensures !Truthy(ErrorDetail(errorData)) ==>
      UpstreamErrorMessage(status, Parsed(errorData)) == UpstreamErrorPrefix + HttpStatusPrefix + NatToDecimal(status)
  {
  }

  /** The error body has a non-empty string at `error.message`. */
  predicate HasErrorMessage(errorData: Json)
  {
    && errorData.JObject?
    && "error" in errorData.fields
    && errorData.fields["error"].JObject?
    && "message" in errorData.fields["error"].fields
    && errorData.fields["error"].fields["message"].JString?
    && errorData.fields["error"].fields["message"].s != ""
  }

  function ErrorMessageOf(errorData: Json): string
    requires HasErrorMessage(errorData)
  {
    errorData.fields["error"].fields["message"].s
  }

  /** Without a usable `error.message`, different statuses give different messages. */
  lemma StatusMessagesDistinct(s1: nat, s2: nat, e1: Json, e2: Json)
    requires e1 != JNull && e2 != JNull
    requires !Truthy(ErrorDetail(e1)) && !Truthy(ErrorDetail(e2))
    requires UpstreamErrorMessage(s1, Parsed(e1)) == UpstreamErrorMessage(s2, Parsed(e2))
    ensures s1 == s2
  {
    var p := UpstreamErrorPrefix + HttpStatusPrefix;
    assert UpstreamErrorMessage(s1, Parsed(e1)) == UpstreamErrorPrefix + (HttpStatusPrefix + NatToDecimal(s1));
    assert UpstreamErrorMessage(s2, Parsed(e2)) == UpstreamErrorPrefix + (HttpStatusPrefix + NatToDecimal(s2));
    assert NatToDecimal(s1) == (UpstreamErrorMessage(s1, Parsed(e1)))[|p|..];
    assert NatToDecimal(s2) == (UpstreamErrorMessage(s2, Parsed(e2)))[|p|..];
    DecimalInjective(s1, s2);
  }

  /**
   * The completion of an ok response: `data.choices[0].message.content`,
   * provided each step on the way is truthy.
   */
  function ChoiceContent(body: JsonOutcome): (r: Outcome)
    ensures body.ParseFailed? ==> r == Failed(body.message)
    ensures r.Failed? && body.Parsed? ==> r.message == InvalidFormatMessage
    ensures r.Succeeded? <==> body.Parsed? && HasMessage(body.value)
    ensures r.Succeeded? ==> r.content == MessageContent(body.value)
  {
    match body
    case ParseFailed(m) => Failed(m)
    case Parsed(data) =>
      if !Truthy(Some(data)) then Failed(InvalidFormatMessage)
      else
        var choices := Prop(data, "choices");
        if !Truthy(choices) then Failed(InvalidFormatMessage)
        else
          var first := Elem0(choices.value);
          if !Truthy(first) then Failed(InvalidFormatMessage)
          else
            var message := Prop(first.value, "message");
            if !Truthy(message) then Failed(InvalidFormatMessage)
            else Succeeded(Prop(message.value, "content"))
  }

  /**
   * The shape the handler accepts: `data.choices[0].message` truthy. The
   * choices are a non-empty array or an object with a field "0", and the
   * first choice is an object with a truthy own `message`.
   */
  predicate HasMessage(data: Json)
    ensures HasMessage(data) ==> data.JObject? && "choices" in data.fields
    ensures HasMessage(data) ==>
      var choices := data.fields["choices"];
      && ((choices.JArray? && |choices.items| > 0) || (choices.JObject? && "0" in choices.fields))
      && var first := if choices.JArray? then choices.items[0] else choices.fields["0"];
      && first.JObject? && "message" in first.fields && Truthy(Some(first.fields["message"]))
  {
    && Truthy(Some(data))
    && var choices := Prop(data, "choices");
    && Truthy(choices)
    && var first := Elem0(choices.value);
    && Truthy(first)
    && Truthy(Prop(first.value, "message"))
  }

  /**
   * `data.choices[0].message.content` for an accepted body, read straight
   * from its fields: the message's own `content`, or undefined when the
   * message is not an object with that key.
   */
  function MessageContent(data: Json): Option<Json>
    requires HasMessage(data)
  {
    var choices := data.fields["choices"];
    var first := if choices.JArray? then choices.items[0] else choices.fields["0"];
    var message := first.fields["message"];
    if message.JObject? && "content" in message.fields then Some(message.fields["content"]) else None
  }

  /**
   * A completion `{..., "choices": [{..., "message": {..., "content": c}}, ...]}`,
   * whatever other keys (`id`, `usage`, `role`, ...) it carries, yields exactly c;
   * without a `content` key it yields undefined.
   */
  lemma WellFormedCompletion(data: map<string, Json>, choice: map<string, Json>, message: map<string, Json>, rest: seq<Json>)
    requires "choices" in data && data["choices"] == JArray([JObject(choice)] + rest)
    requires "message" in choice && choice["message"] == JObject(message)
    ensures "content" in message ==> ChoiceContent(Parsed(JObject(data))) == Succeeded(Some(message["content"]))
    ensures "content" !in message ==> ChoiceContent(Parsed(JObject(data))) == Succeeded(None)
  {
  }

  /** The result of the `try` block: the completion's content (possibly undefined) or the message of what was thrown. */
  datatype Outcome = Succeeded(content: Option<Json>) | Failed(message: string)

  /** What the upstream call yields for the handler. */
  function UpstreamOutcome(u: Upstream): (r: Outcome)
    ensures u.FetchRejected? ==> r == Failed(u.message)
    ensures u.Responded? && !OkStatus(u.status) ==> r == Failed(UpstreamErrorMessage(u.status, u.body))
    ensures u.Responded? && OkStatus(u.status) ==> r == ChoiceContent(u.body)
    ensures u.Responded? && !OkStatus(u.status) ==> r.Failed?
    ensures u.Responded? && !OkStatus(u.status) && u.body.Parsed? && u.body.value != JNull ==>
      (StartsWith(r.message, UpstreamErrorPrefix) <==> ReportableDetail(u.body.value))
    ensures r.Succeeded? ==> u.Responded? && OkStatus(u.status)
  {
    match u
    case FetchRejected(m) => Failed(m)
    case Responded(status, body) =>
      if !OkStatus(status) then
        Failed(UpstreamErrorMessage(status, body))
      else ChoiceContent(body)
  }

  // ---- The handler ----

  /** One run of the `try` block: its outcome, whether it read the body, and the request it sent. */
  datatype Attempt = Attempt(outcome: Outcome, bodyRead: bool, sent: Option<ChatRequest>)

  /** The guard chain of the `try` block, in the order the handler runs it. */
  function Analyze(env: Env, body: JsonOutcome, upstream: Upstream): (a: Attempt)
    ensures a.sent.Some? ==> a.bodyRead
    ensures !NonEmpty(ApiKey(env)) ==> a == Attempt(Failed(MissingKeyMessage), false, None)
    ensures a.outcome.Succeeded? ==> a.sent.Some?
    ensures NonEmpty(ApiKey(env)) && body.ParseFailed? ==> a == Attempt(Failed(body.message), true, None)
    ensures NonEmpty(ApiKey(env)) && body == Parsed(JNull) ==> a == Attempt(Failed(DestructureNullMessage), true, None)
    ensures NonEmpty(ApiKey(env)) && body.Parsed? && body.value != JNull ==>
      var image := Prop(body.value, "image");
      && (!Truthy(image) ==> a == Attempt(Failed(NoImageMessage), true, None))
      && (Truthy(image) && !image.value.JString? ==> a == Attempt(Failed(StartsWithMessage), true, None))
      && (Truthy(image) && image.value.JString? ==>
            a == Attempt(UpstreamOutcome(upstream), true, Some(BuildChatRequest(ApiKey(env).value, FormatImage(image.value.s)))))
  {
    var key := ApiKey(env);
    if !NonEmpty(key) then Attempt(Failed(MissingKeyMessage), false, None)
    else match body
      case ParseFailed(m) => Attempt(Failed(m), true, None)
      case Parsed(v) =>
        if v == JNull then Attempt(Failed(DestructureNullMessage), true, None)
        else
        var image := Prop(v, "image");
        if !Truthy(image) then Attempt(Failed(NoImageMessage), true, None)
        else if !image.value.JString? then Attempt(Failed(StartsWithMessage), true, None)
        else
          var request := BuildChatRequest(key.value, FormatImage(image.value.s));
          Attempt(UpstreamOutcome(upstream), true, Some(request))
  }

  /** The envelope: `{result}` with the default status, or `{error}` with status 500. */
  function Respond(o: Outcome): (r: Response)
    ensures r.status == 500 <==> o.Failed?
    ensures r.headers == JsonHeaders
    ensures o.Failed? ==> r.body == ErrorEnvelope(o.message)
    ensures o.Succeeded? ==> r.status == 200 && r.body == ResultEnvelope(o.content)
  {
    match o
    case Succeeded(content) => Response(200, JsonHeaders, ResultEnvelope(content))
    case Failed(m) => Response(500, JsonHeaders, ErrorEnvelope(m))
  }

  /** The handler passed to `serve`. */
  function Handle(env: Env, req: Request, upstream: Upstream): (t: Trace)
    ensures t.response.status == 200 || t.response.status == 500
    ensures CorsHeaders.Keys <= t.response.headers.Keys
    ensures forall h :: h in CorsHeaders ==> t.response.headers[h] == CorsHeaders[h]
    ensures t.response.status == 500 <==> t.response.body.ErrorEnvelope?
    ensures req.httpMethod == "OPTIONS" ==> t == Trace(Preflight, false, None)
  {
    if req.httpMethod == "OPTIONS" then Trace(Preflight, false, None)
    else
      var a := Analyze(env, req.body, upstream);
      Trace(Respond(a.outcome), a.bodyRead, a.sent)
  }

  // ---- Properties of the handler ----

  /** A preflight is answered before anything is checked, whatever the configuration, body or upstream. */
  lemma PreflightFirst(env: Env, body: JsonOutcome, u: Upstream)
    ensures Handle(env, Request("OPTIONS", body), u) == Trace(Response(200, CorsHeaders, EmptyBody), false, None)
  {
  }

  /** Without a key: a 500 before the body is read or anything is sent. */
  lemma MissingKeyFailsEarly(env: Env, req: Request, u: Upstream)
    requires req.httpMethod != "OPTIONS"
    requires !NonEmpty(env.upperKey) && !NonEmpty(env.lowerKey)
    ensures Handle(env, req, u) == Trace(Response(500, JsonHeaders, ErrorEnvelope(MissingKeyMessage)), false, None)
  {
  }

  /** A body without a usable image: "No image provided", and nothing is sent. */
  lemma MissingImageFails(env: Env, fields: map<string, Json>, u: Upstream)
    requires NonEmpty(ApiKey(env))
    requires "image" !in fields || fields["image"] in {JNull, JString(""), JBool(false), JNumber(0)}
    ensures Handle(env, Request("POST", Parsed(JObject(fields))), u)
      == Trace(Response(500, JsonHeaders, ErrorEnvelope(NoImageMessage)), true, None)
  {
  }

  /** Whatever is sent upstream carries the configured key and the body's image as a data URI. */
  lemma SentRequestCarriesImage(env: Env, req: Request, u: Upstream)
    requires Handle(env, req, u).sent.Some?
    ensures var r := Handle(env, req, u).sent.value;
      && req.httpMethod != "OPTIONS"
      && NonEmpty(ApiKey(env)) && r.apiKey == ApiKey(env).value
      && req.body.Parsed? && req.body.value.JObject? && "image" in req.body.value.fields
      && var image := req.body.value.fields["image"];
      && image.JString? && image.s != ""
      && r == BuildChatRequest(ApiKey(env).value, FormatImage(image.s))
      && StartsWith(r.userPrompt[|UserPromptPrefix|..], DataPrefix)
  {
  }

  /**
   * With a usable key and a non-empty string image, the request is always
   * sent, and the answer is whatever the upstream call yields.
   */
  lemma ImageIsSent(env: Env, httpMethod: string, fields: map<string, Json>, image: string, u: Upstream)
    requires httpMethod != "OPTIONS" && NonEmpty(ApiKey(env))
    requires "image" in fields && fields["image"] == JString(image) && image != ""
    ensures Handle(env, Request(httpMethod, Parsed(JObject(fields))), u)
      == Trace(Respond(UpstreamOutcome(u)), true, Some(BuildChatRequest(ApiKey(env).value, FormatImage(image))))
  {
  }

  /** A truthy `image` that is not a string fails on `startsWith`, and nothing is sent. */
  lemma NonStringImageFails(env: Env, httpMethod: string, fields: map<string, Json>, u: Upstream)
    requires httpMethod != "OPTIONS" && NonEmpty(ApiKey(env))
    requires "image" in fields && Truthy(Some(fields["image"])) && !fields["image"].JString?
    ensures Handle(env, Request(httpMethod, Parsed(JObject(fields))), u)
      == Trace(Response(500, JsonHeaders, ErrorEnvelope(StartsWithMessage)), true, None)
  {
  }

  /** A 200 with a result envelope exactly when the upstream answered ok with a well-formed completion. */
  lemma SuccessExactly(env: Env, req: Request, u: Upstream)
    requires req.httpMethod != "OPTIONS"
    ensures Handle(env, req, u).response.body.ResultEnvelope? <==>
      && Handle(env, req, u).sent.Some?
      && u.Responded? && OkStatus(u.status) && u.body.Parsed? && HasMessage(u.body.value)
    ensures Handle(env, req, u).response.body.ResultEnvelope? ==>
      && Handle(env, req, u).response.status == 200
      && u.Responded? && u.body.Parsed? && HasMessage(u.body.value)
      && Handle(env, req, u).response.body == ResultEnvelope(MessageContent(u.body.value))
  {
  }

  /**
   * A non-ok upstream answer with a readable body is a 500. Its error carries
   * the Groq prefix, unless the body's `error.message` has no string form;
   * then it is the engine's TypeError.
   */
  lemma UpstreamErrorReported(env: Env, req: Request, status: nat, errorData: Json)
    requires Handle(env, req, Responded(status, Parsed(errorData))).sent.Some?
    requires !OkStatus(status) && errorData != JNull
    ensures var t := Handle(env, req, Responded(status, Parsed(errorData)));
      && t.response.status == 500 && t.response.body.ErrorEnvelope?
      && (StartsWith(t.response.body.error, UpstreamErrorPrefix) <==> ReportableDetail(errorData))
      && (!ReportableDetail(errorData) ==> t.response.body.error == NoPrimitiveMessage)
  {
  }

  /** A concrete body whose `error.message` cannot be printed: `{"error": {"message": {"toString": 1}}}`. */
  lemma UnprintableErrorMessage(status: nat)
    requires !OkStatus(status)
    ensures var body := JObject(map["error" := JObject(map["message" := JObject(map["toString" := JNumber(1)])])]);
      UpstreamOutcome(Responded(status, Parsed(body))) == Failed(NoPrimitiveMessage)
  {
  }
}
