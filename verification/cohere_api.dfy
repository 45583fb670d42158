/**
 * The generation relay, `/api/cohere` (pages/api/cohere.js): it forwards the prompt to
 * Cohere's generate endpoint and answers `{text}` or a fixed `{error}`.
 */
module CohereApi {
  import opened Wrappers
  import opened JsString
  import opened Http

  const COHERE_URL := "https://api.cohere.ai/generate"
  const MAX_TOKENS := 100
  const INVALID_RESPONSE := "Invalid response from Cohere API"
  const FETCH_FAILED := "Failed to fetch Cohere response"

  /** The JSON request body `{prompt}`; `None` when the field is absent. */
  datatype GenerateRequest = GenerateRequest(prompt: Option<string>)

  /** The two JSON bodies the relay answers with. */
  datatype GenerateBody = Generated(text: string) | GenerateError(error: string)

  /** The provider call: URL, `Authorization` header and the JSON body `{prompt, max_tokens}`. */
  datatype CohereCall = CohereCall(url: string, authorization: string, prompt: Option<string>, maxTokens: int)

  /** The provider's parsed reply `{text}`. */
  datatype CohereData = CohereData(text: Option<string>)

  /**
   * What `axios.post` yields: it throws (transport failure or a status outside 2xx), or
   * it resolves with `response.data`, which is `None` when it is not an object.
   */
  datatype CohereOutcome = AxiosThrew | AxiosResolved(data: Option<CohereData>)

  datatype GenerateExchange = GenerateExchange(call: CohereCall, response: HttpResponse<GenerateBody>)

  /** The header built by the template `Bearer ${key}`: an unset key is spelled `undefined`. */
  function Authorization(apiKey: Option<string>): string {
    "Bearer " + (if apiKey.Some? then apiKey.value else "undefined")
  }

  /** The handler: no validation of the prompt, one provider call, three possible replies. */
  function Handle(req: GenerateRequest, apiKey: Option<string>, outcome: CohereOutcome): (x: GenerateExchange)
    ensures x.call.url == COHERE_URL && x.call.prompt == req.prompt && x.call.maxTokens == MAX_TOKENS
    ensures x.call.authorization == Authorization(apiKey)
    ensures x.response.status in {200, 500}
    ensures x.response.status == 200 <==> x.response.body.Generated?
    ensures x.response.body.Generated? <==>
      outcome.AxiosResolved? && outcome.data.Some? && Truthy(outcome.data.value.text)
    ensures x.response.body.Generated? ==> Some(x.response.body.text) == outcome.data.value.text
    ensures outcome.AxiosThrew? ==> x.response.body == GenerateError(FETCH_FAILED)
    ensures outcome.AxiosResolved? && !x.response.body.Generated? ==> x.response.body == GenerateError(INVALID_RESPONSE)
  {
    var call := CohereCall(COHERE_URL, Authorization(apiKey), req.prompt, MAX_TOKENS);
    match outcome
    case AxiosThrew => GenerateExchange(call, HttpResponse(500, GenerateError(FETCH_FAILED)))
    case AxiosResolved(data) =>
      if data.Some? && Truthy(data.value.text) then GenerateExchange(call, HttpResponse(200, Generated(data.value.text.value)))
      else GenerateExchange(call, HttpResponse(500, GenerateError(INVALID_RESPONSE)))
  }

  /** Whatever the provider does, a successful reply is never empty and an error never leaks provider details. */
  lemma RepliesAreFixedOrGenerated(req: GenerateRequest, apiKey: Option<string>, outcome: CohereOutcome)
    ensures var b := Handle(req, apiKey, outcome).response.body;
      (b.Generated? && b.text != "") || b == GenerateError(FETCH_FAILED) || b == GenerateError(INVALID_RESPONSE)
  {
  }
}
