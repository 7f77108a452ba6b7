/**
 * The image proxy's decision logic: a serverless handler that checks the
 * request, answers a diagnostic probe, picks an API key, forwards the
 * prompt to a text-to-image service and reshapes its reply for the chat
 * client. The request body arrives already parsed, the two environment
 * keys are parameters, and the upstream call is an oracle outcome that is
 * consulted only when the handler actually issues the call.
 */
module ImageProxy {
  import opened Options

  /** Parsed JSON values (numbers restricted to integers). */
  datatype Json =
    | JNull
    | JBool(b: bool)
    | JNumber(n: int)
    | JString(s: string)
    | JArray(items: seq<Json>)
    | JObject(fields: map<string, Json>)

  /** JavaScript truthiness of a JSON value. */
  predicate Truthy(v: Json) {
    match v
    case JNull => false
    case JBool(b) => b
    case JNumber(n) => n != 0
    case JString(s) => s != ""
    case _ => true
  }

  /** `Boolean(process.env.X)`: the variable is set and not empty. */
  predicate Present(key: Option<string>) {
    key.Some? && key.value != ""
  }

  const StatusCheckPrompt := "__status_check__"
  const SnippetLimit := 2000
  const UpstreamUrl := "https://api.stability.ai/v1/generation/stable-diffusion-v1-6/text-to-image"

  const MethodNotAllowed := "Method Not Allowed"
  const MissingPrompt := "Missing prompt"
  const NoApiKey := "No API key configured on server"
  const FetchFailed := "Upstream fetch failed"
  const UpstreamApiError := "Upstream API error"

  /** The generation request sent upstream. */
  datatype TextPrompt = TextPrompt(text: Json)
  datatype Payload = Payload(textPrompts: seq<TextPrompt>, cfgScale: int, height: int, width: int, samples: int, steps: int)
  datatype UpstreamRequest = UpstreamRequest(url: string, authorization: string, payload: Payload)

  /** One generated image in the upstream reply; `base64` is absent when the
      entry has no such field. */
  datatype Artifact = Artifact(base64: Option<string>)

  /** What `response.json()` and `json.artifacts.map` make of a successful
      reply: a list of artifacts, or a thrown error with its message. */
  datatype UpstreamJson = Artifacts(artifacts: seq<Artifact>) | Unreadable(errorMessage: string)

  /**
   * The outcome of the upstream call: the fetch threw, or a reply came back
   * with a status, the text `response.text()` yields (absent when reading
   * throws), two headers, and what reading it as JSON yields.
   */
  datatype UpstreamOutcome =
    | FetchThrew(message: string)
    | Replied(status: int, text: Option<string>, contentType: Option<string>,
              contentLength: Option<string>, json: UpstreamJson)

  /** `response.ok`. */
  predicate IsOk(status: int) {
    200 <= status <= 299
  }

  datatype Prediction = Prediction(bytesBase64Encoded: Option<string>)

  /** The JSON bodies the handler can send. */
  datatype ResponseBody =
    | Failure(error: string)
    | FetchFailure(error: string, message: string)
    | UpstreamFailure(error: string, upstreamStatus: int, bodySnippet: string,
                      contentType: Option<string>, contentLength: Option<string>)
    | StatusReport(ok: bool, hasGenerativeKey: bool, hasViteKey: bool)
    | Predictions(predictions: seq<Prediction>)

  datatype Response = Response(status: int, headers: map<string, string>, body: ResponseBody)

  /** What one request amounts to: the upstream call issued (if any) and the
      response sent back. */
  datatype Exchange = Exchange(upstreamRequest: Option<UpstreamRequest>, response: Response)

  /** `body && body.prompt`: the prompt field of an object body, absent for
      any other body. */
  function PromptField(body: Option<Json>): Option<Json> {
    match body
    case Some(JObject(fields)) => if "prompt" in fields then Some(fields["prompt"]) else None
    case _ => None
  }

  /** The request carries a prompt that passes `if (!prompt)`. */
  predicate HasPrompt(body: Option<Json>) {
    PromptField(body).Some? && Truthy(PromptField(body).value)
  }

  /** `GENERATIVE_API_KEY || VITE_IMG_API_KEY || ''`, with the empty
      string read as no key. */
  function SelectKey(generativeKey: Option<string>, viteKey: Option<string>): (key: Option<string>)
    ensures key.Some? <==> Present(generativeKey) || Present(viteKey)
    ensures key.Some? ==> key.value != ""
    ensures Present(generativeKey) ==> key == generativeKey
    ensures !Present(generativeKey) && Present(viteKey) ==> key == viteKey
  {
    if Present(generativeKey) then generativeKey
    else if Present(viteKey) then viteKey
    else None
  }

  /** The generation request built around the learner's prompt. */
  function BuildRequest(prompt: Json, key: string): (r: UpstreamRequest)
    ensures |r.payload.textPrompts| == 1 && r.payload.textPrompts[0].text == prompt
    ensures r.payload.samples == 1
    ensures r.authorization == "Bearer " + key
    ensures r.url == UpstreamUrl
  {
    UpstreamRequest(UpstreamUrl, "Bearer " + key,
      Payload([TextPrompt(prompt)], 7, 512, 768, 1, 30))
  }

  /** `full ? full.substring(0, 2000) : ''`, where an unreadable body reads
      as empty. */
  function Snippet(text: Option<string>): (r: string)
    ensures |r| <= SnippetLimit
    ensures text.None? ==> r == ""
    ensures text.Some? ==> r <= text.value
    ensures text.Some? ==> |r| == if |text.value| < SnippetLimit then |text.value| else SnippetLimit
  {
    match text
    case None => ""
    case Some(full) =>
      if full == "" then ""
      else if |full| <= SnippetLimit then full
      else full[..SnippetLimit]
  }

  /** `artifacts.map(art => ({ bytesBase64Encoded: art.base64 }))`. */
  function Adapt(artifacts: seq<Artifact>): (ps: seq<Prediction>)
    ensures |ps| == |artifacts|
    ensures forall i :: 0 <= i < |ps| ==> ps[i].bytesBase64Encoded == artifacts[i].base64
  {
    if |artifacts| == 0 then []
    else [Prediction(artifacts[0].base64)] + Adapt(artifacts[1..])
  }

  /** The reply to the client once the upstream call was made. */
  function Relay(upstream: UpstreamOutcome): (r: Response)
    ensures r.status in {200, 500, 502}
    ensures r.headers == map[]
    ensures r.status == 502 <==> upstream.FetchThrew? || !IsOk(upstream.status)
    ensures upstream.FetchThrew? ==> r.body == FetchFailure(FetchFailed, upstream.message)
    ensures upstream.Replied? && !IsOk(upstream.status) ==>
      r.body == UpstreamFailure(UpstreamApiError, upstream.status, Snippet(upstream.text),
                                upstream.contentType, upstream.contentLength)
    ensures r.status == 200 <==> upstream.Replied? && IsOk(upstream.status) && upstream.json.Artifacts?
    ensures r.status == 200 ==> r.body.Predictions? && |r.body.predictions| == |upstream.json.artifacts|
    ensures r.status == 500 ==> r.body == Failure(upstream.json.errorMessage)
  {
    match upstream
    case FetchThrew(message) => Response(502, map[], FetchFailure(FetchFailed, message))
    case Replied(status, text, contentType, contentLength, json) =>
      if !IsOk(status) then
        Response(502, map[], UpstreamFailure(UpstreamApiError, status, Snippet(text), contentType, contentLength))
      else match json
        case Artifacts(artifacts) => Response(200, map[], Predictions(Adapt(artifacts)))
        case Unreadable(message) => Response(500, map[], Failure(message))
  }

  /** The handler: method check, prompt check, diagnostic probe, key
      selection, then the upstream call and its relay. */
  function Handle(verb: string, body: Option<Json>, generativeKey: Option<string>,
                  viteKey: Option<string>, upstream: UpstreamOutcome): (x: Exchange)
    ensures x.response.status in {200, 400, 405, 500, 502}
    ensures x.response.status == 405 <==> verb != "POST"
    ensures "Allow" in x.response.headers <==> verb != "POST"
    ensures verb != "POST" ==> x == Exchange(None, Response(405, map["Allow" := "POST"], Failure(MethodNotAllowed)))
    ensures x.response.status == 400 <==> verb == "POST" && !HasPrompt(body)
    ensures verb == "POST" && !HasPrompt(body) ==> x == Exchange(None, Response(400, map[], Failure(MissingPrompt)))
    ensures x.upstreamRequest.Some? <==>
      verb == "POST" && HasPrompt(body) && PromptField(body) != Some(JString(StatusCheckPrompt))
      && SelectKey(generativeKey, viteKey).Some?
    ensures x.upstreamRequest.Some? ==>
      x.upstreamRequest.value == BuildRequest(PromptField(body).value, SelectKey(generativeKey, viteKey).value)
  {
    if verb != "POST" then
      Exchange(None, Response(405, map["Allow" := "POST"], Failure(MethodNotAllowed)))
    else if !HasPrompt(body) then
      Exchange(None, Response(400, map[], Failure(MissingPrompt)))
    else if PromptField(body) == Some(JString(StatusCheckPrompt)) then
      Exchange(None, Response(200, map[], StatusReport(true, Present(generativeKey), Present(viteKey))))
    else match SelectKey(generativeKey, viteKey)
      case None => Exchange(None, Response(500, map[], Failure(NoApiKey)))
      case Some(key) => Exchange(Some(BuildRequest(PromptField(body).value, key)), Relay(upstream))
  }

  /** The diagnostic probe answers 200 with the two key flags and never
      calls upstream, whatever keys are configured. */
  lemma StatusCheckAnswersWithoutUpstream(body: Option<Json>, generativeKey: Option<string>,
                                          viteKey: Option<string>, upstream: UpstreamOutcome)
    requires PromptField(body) == Some(JString(StatusCheckPrompt))
    ensures var x := Handle("POST", body, generativeKey, viteKey, upstream);
      && x.upstreamRequest.None?
      && x.response == Response(200, map[], StatusReport(true, Present(generativeKey), Present(viteKey)))
  {
  }

  /** Without a usable key an ordinary prompt is refused with 500 before any
      upstream call. */
  lemma MissingKeyIsServerError(body: Option<Json>, generativeKey: Option<string>,
                                viteKey: Option<string>, upstream: UpstreamOutcome)
    requires HasPrompt(body) && PromptField(body) != Some(JString(StatusCheckPrompt))
    requires !Present(generativeKey) && !Present(viteKey)
    ensures var x := Handle("POST", body, generativeKey, viteKey, upstream);
      x.upstreamRequest.None? && x.response == Response(500, map[], Failure(NoApiKey))
  {
  }

  /** When no upstream call is issued, the response does not depend on the
      upstream outcome; when the method is not POST, it depends on nothing
      but the method. */
  lemma ResponseIgnoresUnusedInputs(verb: string, body: Option<Json>, generativeKey: Option<string>,
                                    viteKey: Option<string>, u1: UpstreamOutcome, u2: UpstreamOutcome,
                                    body': Option<Json>, generativeKey': Option<string>, viteKey': Option<string>)
    ensures Handle(verb, body, generativeKey, viteKey, u1).upstreamRequest.None? ==>
      Handle(verb, body, generativeKey, viteKey, u1) == Handle(verb, body, generativeKey, viteKey, u2)
    ensures verb != "POST" ==>
      Handle(verb, body, generativeKey, viteKey, u1) == Handle(verb, body', generativeKey', viteKey', u2)
  {
  }

  /** A forwarded request is answered by relaying the upstream outcome; in
      particular a successful reply becomes 200 with one prediction per
      artifact, in order. */
  lemma ForwardedRequestRelaysUpstream(body: Option<Json>, generativeKey: Option<string>,
                                       viteKey: Option<string>, upstream: UpstreamOutcome)
    requires Handle("POST", body, generativeKey, viteKey, upstream).upstreamRequest.Some?
    ensures Handle("POST", body, generativeKey, viteKey, upstream).response == Relay(upstream)
    ensures upstream.Replied? && IsOk(upstream.status) && upstream.json.Artifacts? ==>
      var ps := Handle("POST", body, generativeKey, viteKey, upstream).response.body.predictions;
      && |ps| == |upstream.json.artifacts|
      && forall i :: 0 <= i < |ps| ==> ps[i].bytesBase64Encoded == upstream.json.artifacts[i].base64
  {
  }
}
