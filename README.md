# Gemini chat proxy handler, modelled in Dafny

The repository is one serverless handler, `api/chat.js`. It accepts a chat payload from a
browser client, rebuilds it into the body the Gemini `generateContent` endpoint expects,
adds the server's API key as a bearer token and forwards the request. It then relays
upstream's answer, or a translated error, back to the client.

The model covers the handler's decision logic:

- `Chat.Handle` is one run of the handler. Its inputs are the HTTP method, the
  `GEMINI_API_KEY` value, the parsed request body and what the upstream call ends in.
  It returns the upstream request, if one was sent, together with the status and JSON
  body of the reply.
- The gates come in the source's order: method, then key, then body.
- The outbound body is built once as a function (`GeminiBody.Normalize`) and once the
  way the handler builds it, step by step with a filter loop
  (`GeminiBody.BuildGeminiBody`). The method is proved to compute the function.
- Upstream outcomes are translated by `Chat.Translate`.

Modules:

- `Wrappers`: `Option`. `None` stands for JavaScript's `undefined`.
- `JsValue`: JSON values and the JavaScript semantics the handler uses. This covers
  truthiness, `typeof … === 'object'`, `Array.isArray`, property reads, and the first
  entry of `Object.keys`.
- `GeminiBody`: the `geminiBody` construction (api/chat.js:42-61).
- `Chat`: the gates, the upstream request, the outcome translation and `Handle`.

Modelling choices:

- A JSON object is an ordered list of fields. A property read returns the last field
  with that key, as `JSON.parse` keeps the last duplicate.
- `Object.keys(tool)[0]` follows ECMAScript's own-key order. Keys that are array indices
  (canonical decimal integers from 0 to 2^32 - 2) come first, in ascending numeric
  order. So `{"1": x, "google_search": {}}` has first key `"1"` and is dropped.
  `GeminiBody.KeepToolExactly` states the resulting rule.
- An array entry in `tools` has first key `"0"` (or none when empty), so it is always
  dropped.
- `Response.ok` is derived from the status: it holds for 200 to 299, as in the Fetch
  standard.
- A rejected `fetch` is `Thrown(name, message)`. The handler branches on
  `name === 'AbortError'`, which is what the 30-second abort produces.
- Numbers are `real`s. Only their truthiness matters here, where `0` is falsy.

Behaviour worth noting:

- An ok upstream response is answered with the literal status 200, not upstream's own
  2xx code (api/chat.js:110).
- `systemInstruction` is forwarded when it is truthy and `typeof` is `'object'`. That
  includes arrays, not only objects (api/chat.js:50).
- A tool entry is kept when its first own key is `google_search`, even if it has more
  keys. An array body passes the body check and forwards an empty object.

## Model

| member | source | states |
|---|---|---|
| `JsValue.Lookup` | api/chat.js:44-55 | a property read finds a value exactly when some field has that key, and the value is that of the last such field |
| `JsValue.LookupAppend` | api/chat.js:42-61 | in a concatenation of field lists, a key of the later list shadows the earlier one |
| `JsValue.SmallestIndexKey` | api/chat.js:58 | returns no key exactly when no key is an array index, and otherwise a present array-index key no larger than any other |
| `GeminiBody.FilterTools` | api/chat.js:55-61 | the filtered tools are no more than the input and every one of them satisfies the filter predicate |
| `GeminiBody.KeepToolExactly` | api/chat.js:56-60 | a tool is kept if and only if it is an object whose first field is `google_search` and none of whose keys is an array index; null, primitives, arrays, `{}` and unknown tools are dropped |
| `GeminiBody.FilterToolsPositions` | api/chat.js:55-61 | the filtered tools are the input entries at a strictly increasing list of positions, and a position is in it exactly when the filter accepts that entry (an order-preserving subsequence, nothing accepted lost) |
| `GeminiBody.FilterToolsIdempotent` | api/chat.js:55-61 | filtering already filtered tools changes nothing |
| `GeminiBody.ContentsPart` | api/chat.js:44-48 | yields at most one field, keyed `contents` |
| `GeminiBody.SystemInstructionPart` | api/chat.js:50-52 | yields at most one field, keyed `systemInstruction` |
| `GeminiBody.ToolsPart` | api/chat.js:55-61 | yields at most one field, keyed `tools` |
| `GeminiBody.Normalize` | api/chat.js:42-61 | every key of the forwarded body is one of `contents`, `systemInstruction`, `tools`, and no key occurs twice |
| `GeminiBody.BuildGeminiBody` | api/chat.js:42-61 | the step-by-step construction, with its filter loop, yields exactly `Normalize(payload)` |
| `GeminiBody.NormalizeLookup` | api/chat.js:42-61 | each allow-listed key of the forwarded body is read from the one part that sets it |
| `GeminiBody.NormalizeLookupOutside` | api/chat.js:42-61 | no key outside the allow-list can be read from the forwarded body |
| `GeminiBody.ContentsPriority` | api/chat.js:44-48 | `contents` is `history` when that is an array, else the payload's `contents` when that is an array, else absent |
| `GeminiBody.SystemInstructionRule` | api/chat.js:50-52 | `systemInstruction` is present exactly when the payload's is a truthy value of type 'object', and is then copied unchanged |
| `GeminiBody.ToolsRule` | api/chat.js:55-61 | `tools` is present, possibly empty, exactly when the payload's `tools` is an array, and is then its filtered entries |
| `GeminiBody.NormalizeIgnoresOtherFields` | api/chat.js:39-61 | two payloads that agree on `history`, `contents`, `systemInstruction` and `tools` give the same forwarded body, whatever other fields they carry |
| `GeminiBody.ContentsPartStable` | api/chat.js:44-48 | normalizing a forwarded body again keeps its `contents` field |
| `GeminiBody.SystemInstructionPartStable` | api/chat.js:50-52 | normalizing a forwarded body again keeps its `systemInstruction` field |
| `GeminiBody.ToolsPartStable` | api/chat.js:55-61 | normalizing a forwarded body again keeps its `tools` field |
| `GeminiBody.NormalizeIdempotent` | api/chat.js:42-61 | a forwarded body normalizes to itself |
| `JsValue.Member` | api/chat.js:44-55 | a property read of the payload or a tool; its meaning is stated by `Lookup` on objects, and arrays have none of the fields read, as `ExampleMembers` and `ArrayBodyForwardsEmptyObject` show |
| `JsValue.FirstKey` | api/chat.js:58 | `Object.keys(v)[0]`: the smallest array-index key if there is one, else the first field; its meaning for tools is stated by `GeminiBody.KeepToolExactly` |
| `GeminiBody.KeepTool` | api/chat.js:56-60 | the `tools.filter` callback; characterized by `GeminiBody.KeepToolExactly` |
| `Chat.KeyConfigured` | api/chat.js:19 | the key gate `!GEMINI_API_KEY`; its effect is stated by `Chat.MissingKeyRejected` and `Chat.Handle` |
| `Chat.BodyAccepted` | api/chat.js:32 | the body gate `!payload \|\| typeof payload !== 'object'`; its effect is stated by `Chat.BadBodyRejected`, `Chat.ArrayBodyForwardsEmptyObject` and `Chat.Handle` |
| `Chat.OutboundHeaders` | api/chat.js:83-86 | the upstream headers; `Chat.ForwardedRequest` states their `Content-Type` and `Authorization: Bearer <key>` values |
| `Chat.UpstreamErrorBody` | api/chat.js:102-106 | `data \|\| {statusText}` inside the error wrapper; characterized by `Chat.UpstreamErrorRelayed` |
| `Chat.Translate` | api/chat.js:95-124 | the reply has status 200 exactly when upstream answered with an ok status |
| `Chat.Handle` | api/chat.js:11-124 | a request goes upstream exactly when the method is POST, the key is set and non-empty, and the body is an array or a non-null object; that request is a POST to the fixed URL |
| `Chat.NonPostRejected` | api/chat.js:11-16 | any method other than POST gets 405 `Method Not Allowed` and no upstream request, whatever the key, body and outcome |
| `Chat.MissingKeyRejected` | api/chat.js:19-25 | a POST with the key unset or empty gets 500 `Server Misconfiguration` and no upstream request, whatever the body |
| `Chat.BadBodyRejected` | api/chat.js:32-37 | with the key set, a missing, falsy or non-object body gets 400 `Bad Request` and no upstream request |
| `Chat.ArrayBodyForwardsEmptyObject` | api/chat.js:32-48 | an array body passes the body check and forwards an empty object |
| `Chat.ForwardedRequest` | api/chat.js:81-93 | past the gates, one POST request goes to the fixed URL with the normalized body, `Content-Type: application/json` and `Authorization: Bearer <key>`, and the reply is the translation of its outcome |
| `Chat.ForwardedKeysAllowListed` | api/chat.js:42-61 | whatever the input, a forwarded body only has keys from `contents`, `systemInstruction`, `tools` |
| `Chat.KeyConfinedToAuthorization` | api/chat.js:81-86 | two configured keys give the same reply, the same fixed URL and the same body, so the key never reaches the client, the URL or the body |
| `Chat.UpstreamErrorRelayed` | api/chat.js:98-107 | a non-ok response is answered with upstream's status and `{error: 'Erro na API do Gemini', details}`, where `details` is the parsed body, or `{statusText}` when parsing failed or gave a falsy value |
| `Chat.UpstreamSuccessRelayed` | api/chat.js:98-110 | an ok response is answered with status 200, whatever its 2xx code, and the parsed body, or `null` when parsing failed |
| `Chat.FaultsTranslated` | api/chat.js:112-124 | an `AbortError` gets 504 `Gateway Timeout`; any other fault gets 500 `Internal Server Error` carrying the fault's message when it has one |
| `Chat.ExampleTools` | api/chat.js:56-60 | of `[{google_search: {}}, {unknown_tool: {}}]` only the first entry is kept |
| `Chat.ExampleMembers` | api/chat.js:44-55 | the property reads of the example payload give its `history` and `tools` and no `systemInstruction` |
| `Chat.ExampleNormalized` | api/chat.js:42-61 | the example payload normalizes to its `history` as `contents` and only the `google_search` tool |
| `Chat.UnknownToolDroppedExample` | api/chat.js:42-93 | `{history: [m1, m2], tools: [{google_search: {}}, {unknown_tool: {}}]}` is forwarded as `contents: [m1, m2]` with only the `google_search` tool |
| `Chat.RateLimitedExample` | api/chat.js:101-107 | upstream's 429 `{error: "rate limited"}` is answered with 429 and that body as `details` |

## Left out

- `fetch`, `AbortController` and the 30-second `setTimeout`/`clearTimeout` race
  (api/chat.js:76-95, 113) are network I/O and a timer. The model takes the call's
  outcome as an input, and the timeout is the `Thrown("AbortError", …)` outcome.
  Cancelling the connection is not modelled.
- `console.log`/`console.error` and their `try`/`catch` (api/chat.js:63-72, 115, 119)
  are diagnostics with no effect on the reply.
- Reading `process.env.GEMINI_API_KEY` once at load time (api/chat.js:6) becomes the
  `key` parameter of `Handle`.
- `JSON.stringify(geminiBody)` and `geminiResponse.json()` (api/chat.js:91, 99) are
  foreign serialisation and parsing. The outbound body stays a `Json` value, and the
  parse result is an `Option` inside the outcome.
- The `res.status().json()` response API becomes the returned `Reply`. As in
  `JSON.stringify`, a `message` that is `undefined` is left out of the 500 body.
- `Chat.Translate`: a thrown value whose `message` is not a string, or a thrown `null`
  (for which reading `error.name` would itself throw), is not modelled. A fault carries
  a name and an optional string message.
- JSON numbers are `real`s with no IEEE-754 rounding. The handler only tests their
  truthiness.
- `JsValue.Member`: reading a named property of an array gives `undefined`. That is
  right for the four names the handler reads, but other array properties such as
  `length` are not modelled.
