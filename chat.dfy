/**
 * The serverless handler of api/chat.js: the three gate checks, the request it sends to
 * the Gemini `generateContent` endpoint, and the translation of what comes back into the
 * status and JSON body it answers with.
 */
module Chat {
  import opened Wrappers
  import opened JsValue
  import opened GeminiBody

  /** The fixed upstream endpoint; the credential is never part of it. */
  const GeminiUrl: string :=
    "https://generativelanguage.googleapis.com/v1beta/models/gemini-2.5-flash-preview-09-2025:generateContent"

  /** The `name` of the error `fetch` rejects with when its abort signal fires. */
  const AbortErrorName: string := "AbortError"

  datatype Header = Header(name: string, value: string)

  /** The request sent upstream. */
  datatype Outbound = Outbound(httpMethod: string, url: string, headers: seq<Header>, body: Json)

  /**
   * What the upstream call ends in. `Response` carries the status, the status text and
   * the result of `geminiResponse.json()` (`None` when parsing threw). `Thrown` is a
   * rejected `fetch`: the timeout's abort (named "AbortError") or any other fault, with
   * its `message` when it has one.
   */
  datatype Outcome =
    | Response(status: int, statusText: string, parsed: Option<Json>)
    | Thrown(name: string, message: Option<string>)

  /** The status and JSON body the handler answers with. */
  datatype Reply = Reply(status: int, body: Json)

  /** One invocation: the upstream request, if one was made, and the reply. */
  datatype Exchange = Exchange(sent: Option<Outbound>, reply: Reply)

  /** `!GEMINI_API_KEY` is false: the variable is set and not empty. */
  predicate KeyConfigured(key: Option<string>) {
    key.Some? && key.value != ""
  }

  /** The body passes `!payload || typeof payload !== 'object'`; arrays pass too. */
  predicate BodyAccepted(body: Option<Json>) {
    body.Some? && ObjectLike(body.value)
  }

  /** `Response.ok` of the Fetch standard: the status is in the range 200 to 299. */
  predicate IsOk(status: int) {
    200 <= status <= 299
  }

  function ErrorBody(error: string, message: string): Json {
    JObject([Field("error", JString(error)), Field("message", JString(message))])
  }

  const MethodNotAllowed: Reply :=
    Reply(405, ErrorBody("Method Not Allowed", "Apenas requisições POST são permitidas para este endpoint."))

  const Misconfigured: Reply :=
    Reply(500, ErrorBody("Server Misconfiguration", "A chave GEMINI_API_KEY não está configurada no ambiente Vercel."))

  const BadRequest: Reply :=
    Reply(400, ErrorBody("Bad Request", "O corpo da requisição deve ser um JSON válido com os dados da requisição."))

  const GatewayTimeout: Reply :=
    Reply(504, ErrorBody("Gateway Timeout", "Timeout ao chamar a API externa."))

  /** The headers of the upstream request: JSON content and the credential as a bearer token. */
  function OutboundHeaders(key: string): seq<Header> {
    [Header("Content-Type", "application/json"), Header("Authorization", "Bearer " + key)]
  }

  /** The value of the first header with this name, if any. */
  function HeaderValue(headers: seq<Header>, name: string): Option<string> {
    if headers == [] then None
    else if headers[0].name == name then Some(headers[0].value)
    else HeaderValue(headers[1..], name)
  }

  /** The body of a non-ok reply: upstream's parsed body, or `{statusText}` when that is absent or falsy. */
  function UpstreamErrorBody(statusText: string, data: Json): Json
  {
    var details := if Truthy(data) then data else JObject([Field("statusText", JString(statusText))]);
    JObject([Field("error", JString("Erro na API do Gemini")), Field("details", details)])
  }

  /** The reply to an outcome of the upstream call (api/chat.js:95-124). */
  function Translate(outcome: Outcome): (reply: Reply)
    ensures reply.status == 200 <==> outcome.Response? && IsOk(outcome.status)
  {
    match outcome
    case Response(status, statusText, parsed) =>
      var data := parsed.GetOr(JNull);
      if !IsOk(status) then Reply(status, UpstreamErrorBody(statusText, data))
      else Reply(200, data)
    case Thrown(name, message) =>
      if name == AbortErrorName then GatewayTimeout
      else
        Reply(500, JObject([Field("error", JString("Internal Server Error"))] +
                           if message.Some? then [Field("message", JString(message.value))] else []))
  }

  /**
   * One run of the handler. `key` is `GEMINI_API_KEY` (`None` when unset), `body` is
   * `req.body` (`None` when absent) and `outcome` is what the upstream call ends in, were
   * one made.
   */
  function Handle(httpMethod: string, key: Option<string>, body: Option<Json>, outcome: Outcome): (x: Exchange)
    ensures x.sent.Some? <==> httpMethod == "POST" && KeyConfigured(key) && BodyAccepted(body)
    ensures x.sent.Some? ==> x.sent.value.httpMethod == "POST" && x.sent.value.url == GeminiUrl
  {
    if httpMethod != "POST" then Exchange(None, MethodNotAllowed)
    else if !KeyConfigured(key) then Exchange(None, Misconfigured)
    else if !BodyAccepted(body) then Exchange(None, BadRequest)
    else
      var request := Outbound("POST", GeminiUrl, OutboundHeaders(key.value), JObject(Normalize(body.value)));
      Exchange(Some(request), Translate(outcome))
  }

  /** Any method other than POST is answered with 405, whatever the key, the body and upstream. */
  lemma NonPostRejected(httpMethod: string, key: Option<string>, body: Option<Json>, outcome: Outcome)
    requires httpMethod != "POST"
    ensures Handle(httpMethod, key, body, outcome) == Exchange(None, MethodNotAllowed)
    ensures Handle(httpMethod, key, body, outcome).reply.body.fields[0] == Field("error", JString("Method Not Allowed"))
  {
  }

  /** A POST without a configured key is answered with 500, whatever the body, and nothing is sent. */
  lemma MissingKeyRejected(key: Option<string>, body: Option<Json>, outcome: Outcome)
    requires !KeyConfigured(key)
    ensures Handle("POST", key, body, outcome) == Exchange(None, Misconfigured)
    ensures Handle("POST", key, body, outcome).reply.body.fields[0] == Field("error", JString("Server Misconfiguration"))
  {
  }

  /** With a key, a missing, falsy or non-object body is answered with 400 and nothing is sent. */
  lemma BadBodyRejected(key: Option<string>, body: Option<Json>, outcome: Outcome)
    requires KeyConfigured(key)
    requires body.None? || !Truthy(body.value) || !TypeofObject(body.value)
    ensures Handle("POST", key, body, outcome) == Exchange(None, BadRequest)
    ensures Handle("POST", key, body, outcome).reply.body.fields[0] == Field("error", JString("Bad Request"))
  {
  }

  /** An array body passes the object check; having no named fields, it forwards an empty object. */
  lemma ArrayBodyForwardsEmptyObject(key: Option<string>, items: seq<Json>, outcome: Outcome)
    requires KeyConfigured(key)
    ensures Handle("POST", key, Some(JArray(items)), outcome).sent.Some?
    ensures Handle("POST", key, Some(JArray(items)), outcome).sent.value.body == JObject([])
  {
  }

  /**
   * Once all gates pass, exactly one POST request goes to the fixed URL, with the normalized
   * body and the key only in the `Authorization` header, and the reply is the
   * translation of its outcome.
   */
  lemma ForwardedRequest(key: string, payload: Json, outcome: Outcome)
    requires key != "" && ObjectLike(payload)
    ensures var x := Handle("POST", Some(key), Some(payload), outcome);
            && x.sent == Some(Outbound("POST", GeminiUrl, OutboundHeaders(key), JObject(Normalize(payload))))
            && x.sent.value.httpMethod == "POST"
            && HeaderValue(x.sent.value.headers, "Authorization") == Some("Bearer " + key)
            && HeaderValue(x.sent.value.headers, "Content-Type") == Some("application/json")
            && x.reply == Translate(outcome)
  {
  }

  /** No inbound field outside the allow-list ever reaches upstream. */
  lemma ForwardedKeysAllowListed(httpMethod: string, key: Option<string>, body: Option<Json>, outcome: Outcome)
    ensures var x := Handle(httpMethod, key, body, outcome);
            x.sent.Some? ==> x.sent.value.body.JObject? &&
                             forall i :: 0 <= i < |x.sent.value.body.fields| ==>
                               x.sent.value.body.fields[i].key in ForwardedKeys
  {
  }

  /**
   * The credential never reaches the client nor the URL or body of the upstream request:
   * two configured keys give the same reply and differ only in the `Authorization` header.
   */
  lemma KeyConfinedToAuthorization(httpMethod: string, k1: string, k2: string, body: Option<Json>, outcome: Outcome)
    requires k1 != "" && k2 != ""
    ensures var x1, x2 := Handle(httpMethod, Some(k1), body, outcome), Handle(httpMethod, Some(k2), body, outcome);
            && x1.reply == x2.reply
            && x1.sent.Some? == x2.sent.Some?
            && (x1.sent.Some? ==> && x1.sent.value.url == x2.sent.value.url == GeminiUrl
                                  && x1.sent.value.body == x2.sent.value.body
                                  && x1.sent.value.headers[0] == x2.sent.value.headers[0])
  {
  }

  /** A non-ok upstream status is relayed with upstream's body, or `{statusText}` when that is absent or falsy. */
  lemma UpstreamErrorRelayed(status: int, statusText: string, parsed: Option<Json>)
    requires !IsOk(status)
    ensures var reply := Translate(Response(status, statusText, parsed));
            && reply.status == status
            && reply.body.JObject? && |reply.body.fields| == 2
            && reply.body.fields[0] == Field("error", JString("Erro na API do Gemini"))
            && reply.body.fields[1].key == "details"
            && (parsed.Some? && Truthy(parsed.value) ==> reply.body.fields[1].value == parsed.value)
            && (parsed.None? || !Truthy(parsed.value) ==>
                  reply.body.fields[1].value == JObject([Field("statusText", JString(statusText))]))
  {
  }

  /** An ok upstream response is answered with status 200, whatever 2xx code upstream sent, and its parsed body, `null` when parsing failed. */
  lemma UpstreamSuccessRelayed(status: int, statusText: string, parsed: Option<Json>)
    requires IsOk(status)
    ensures Translate(Response(status, statusText, parsed)) == Reply(200, if parsed.Some? then parsed.value else JNull)
  {
  }

  /** The timeout's abort is answered with 504; every other fault with 500 and the fault's message. */
  lemma FaultsTranslated(name: string, message: Option<string>)
    ensures name == AbortErrorName ==> Translate(Thrown(name, message)) == GatewayTimeout
    ensures name != AbortErrorName ==>
              && Translate(Thrown(name, message)).status == 500
              && Translate(Thrown(name, message)).body.fields[0] == Field("error", JString("Internal Server Error"))
              && Lookup(Translate(Thrown(name, message)).body.fields, "message") ==
                   if message.Some? then Some(JString(message.value)) else None
  {
  }

  /** The entries and the payload of an example request. */
  const SearchTool: Json := JObject([Field("google_search", JObject([]))])
  const UnknownTool: Json := JObject([Field("unknown_tool", JObject([]))])

  function ExamplePayload(m1: Json, m2: Json): Json {
    JObject([Field("history", JArray([m1, m2])), Field("tools", JArray([SearchTool, UnknownTool]))])
  }

  /** Of the example tools only the `google_search` entry is kept. */
  lemma ExampleTools()
    ensures FilterTools([SearchTool, UnknownTool]) == [SearchTool]
  {
    KeepToolExactly(SearchTool);
    KeepToolExactly(UnknownTool);
    assert [SearchTool, UnknownTool][..1] == [SearchTool];
    assert [SearchTool][..0] == [];
  }

  /** The property reads the handler makes on the example payload. */
  lemma ExampleMembers(m1: Json, m2: Json)
    ensures Member(ExamplePayload(m1, m2), "history") == Some(JArray([m1, m2]))
    ensures Member(ExamplePayload(m1, m2), "systemInstruction").None?
    ensures Member(ExamplePayload(m1, m2), "tools") == Some(JArray([SearchTool, UnknownTool]))
  {
    var history := Field("history", JArray([m1, m2]));
    var tools := Field("tools", JArray([SearchTool, UnknownTool]));
    assert [history, tools][..1] == [history];
    assert Lookup([history, tools], "history") == Lookup([history], "history");
  }

  /** The forwarded body of the example payload. */
  lemma ExampleNormalized(m1: Json, m2: Json)
    ensures Normalize(ExamplePayload(m1, m2)) ==
              [Field("contents", JArray([m1, m2])), Field("tools", JArray([SearchTool]))]
  {
    var payload := ExamplePayload(m1, m2);
    ExampleMembers(m1, m2);
    ExampleTools();
    assert ContentsPart(payload) == [Field("contents", JArray([m1, m2]))];
    assert SystemInstructionPart(payload) == [];
    assert ToolsPart(payload) == [Field("tools", JArray([SearchTool]))];
  }

  /**
   * `{history: [m1, m2], tools: [{google_search: {}}, {unknown_tool: {}}]}` forwards
   * `contents: [m1, m2]` and only the `google_search` tool.
   */
  lemma UnknownToolDroppedExample(key: string, m1: Json, m2: Json, outcome: Outcome)
    requires key != ""
    ensures Handle("POST", Some(key), Some(ExamplePayload(m1, m2)), outcome).sent.value.body ==
              JObject([Field("contents", JArray([m1, m2])), Field("tools", JArray([SearchTool]))])
  {
    ExampleNormalized(m1, m2);
    ForwardedRequest(key, ExamplePayload(m1, m2), outcome);
  }

  /** Upstream's 429 with `{error: "rate limited"}` is relayed as 429 inside the wrapper. */
  lemma RateLimitedExample()
    ensures var upstream := JObject([Field("error", JString("rate limited"))]);
            Translate(Response(429, "Too Many Requests", Some(upstream))) ==
              Reply(429, JObject([Field("error", JString("Erro na API do Gemini")), Field("details", upstream)]))
  {
  }
}
