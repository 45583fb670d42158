/**
 * The translation relay, `POST /api/translate` (pages/api/translate.js): it validates the
 * request, forwards it to the Google Translate v2 endpoint and turns the provider's reply
 * into `{translatedText}` or `{error}` with a status code.
 */
module TranslateApi {
  import opened Wrappers
  import opened JsString
  import opened Http

  const METHOD_NOT_ALLOWED := "Method not allowed"
  const MISSING_PARAMETERS := "Missing parameters: text and targetLang are required."
  const NOT_CONFIGURED := "Translation service not configured."
  const API_ERROR_PREFIX := "Translation API error: "
  const UNEXPECTED_FORMAT := "Unexpected translation response format."
  const SERVER_ERROR := "Translation failed due to server error."
  const GOOGLE_URL_PREFIX := "https://translation.googleapis.com/language/translate/v2?key="

  /** The JSON request body `{text, targetLang}`; `None` is a field that is absent. */
  datatype TranslateRequest = TranslateRequest(text: Option<string>, targetLang: Option<string>)

  /** The two JSON bodies the relay answers with. */
  datatype TranslateBody = Translated(translatedText: string) | TranslateError(error: string)

  /** The call made to the provider: its URL (carrying the key) and the JSON body `{q, source, target, format}`. */
  datatype GoogleRequest = GoogleRequest(url: string, q: string, source: string, target: string, format: string)

  /** The provider's JSON reply `{data: {translations: [{translatedText}, ...]}}`, any part of which may be absent. */
  datatype GoogleEntry = GoogleEntry(translatedText: Option<string>)
  datatype GoogleData = GoogleData(translations: Option<seq<GoogleEntry>>)
  datatype GoogleJson = GoogleJson(data: Option<GoogleData>)

  /**
   * What the provider call yields: the fetch failed, or a response arrived with a status,
   * a status text and a body that parsed as JSON (`Some`) or did not (`None`).
   */
  datatype Upstream = FetchFailed | Responded(status: int, statusText: string, json: Option<GoogleJson>)

  /** The provider request the relay made (`None`: it made none) and the response it wrote. */
  datatype TranslateExchange = TranslateExchange(call: Option<GoogleRequest>, response: HttpResponse<TranslateBody>)

  /** `response.ok`: a status in the range 200-299. */
  predicate Ok(status: int) {
    200 <= status <= 299
  }

  function Reject(status: int, message: string): TranslateExchange {
    TranslateExchange(None, HttpResponse(status, TranslateError(message)))
  }

  /** The early returns of the handler, in their order; `None` when the request passes all of them. */
  function Precheck(verb: string, req: TranslateRequest, apiKey: Option<string>): (r: Option<TranslateExchange>)
    ensures verb != "POST" ==> r == Some(Reject(405, METHOD_NOT_ALLOWED))
    ensures verb == "POST" && !(Truthy(req.text) && Truthy(req.targetLang)) ==>
      r == Some(Reject(400, MISSING_PARAMETERS))
    ensures verb == "POST" && Truthy(req.text) && Truthy(req.targetLang) && !Truthy(apiKey) ==>
      r == Some(Reject(500, NOT_CONFIGURED))
    ensures r.None? <==> verb == "POST" && Truthy(req.text) && Truthy(req.targetLang) && Truthy(apiKey)
  {
    if verb != "POST" then Some(Reject(405, METHOD_NOT_ALLOWED))
    else if !Truthy(req.text) || !Truthy(req.targetLang) then Some(Reject(400, MISSING_PARAMETERS))
    else if !Truthy(apiKey) then Some(Reject(500, NOT_CONFIGURED))
    else None
  }

  /** The provider request: source language fixed to English, plain-text format, the key in the URL. */
  function ProviderRequest(text: string, targetLang: string, key: string): GoogleRequest {
    GoogleRequest(GOOGLE_URL_PREFIX + key, text, "en", targetLang, "text")
  }

  /**
   * The reply classification as written: line 50 logs
   * `data.data.translations[0].translatedText` before line 52 checks the shape, so a missing
   * `data`, a missing `translations` or an empty `translations` throws there and lands in the
   * catch; only a present first entry with a falsy `translatedText` reaches the format error.
   */
  function ClassifyAsWritten(upstream: Upstream): HttpResponse<TranslateBody> {
    match upstream
    case FetchFailed => HttpResponse(500, TranslateError(SERVER_ERROR))
    case Responded(status, statusText, json) =>
      if !Ok(status) then HttpResponse(status, TranslateError(API_ERROR_PREFIX + statusText))
      else if json.None? then HttpResponse(500, TranslateError(SERVER_ERROR))
      else if !HasFirstEntry(json.value) then HttpResponse(500, TranslateError(SERVER_ERROR))
      else
        var first := json.value.data.value.translations.value[0];
        if !Truthy(first.translatedText) then HttpResponse(500, TranslateError(UNEXPECTED_FORMAT))
        else HttpResponse(200, Translated(first.translatedText.value))
  }

  /** `data.data.translations[0]` exists: the expression on line 50 does not throw. */
  predicate HasFirstEntry(g: GoogleJson) {
    g.data.Some? && g.data.value.translations.Some? && |g.data.value.translations.value| > 0
  }

  /** The handler as written. */
  function HandleAsWritten(verb: string, req: TranslateRequest, apiKey: Option<string>, upstream: Upstream): (x: TranslateExchange)
    ensures x.call.Some? <==> Precheck(verb, req, apiKey).None?
    ensures x.call.Some? ==>
      x.call.value == ProviderRequest(req.text.value, req.targetLang.value, apiKey.value)
    ensures x.call.None? ==> x == Precheck(verb, req, apiKey).value
    ensures x.response.status in {200, 400, 405, 500}
      || (upstream.Responded? && x.call.Some? && x.response.status == upstream.status && !Ok(upstream.status))
    ensures x.response.status == 200 <==> x.response.body.Translated?
    ensures x.response.body.TranslateError? ==> x.response.body.error != ""
  {
    match Precheck(verb, req, apiKey)
    case Some(rejected) => rejected
    case None =>
      TranslateExchange(Some(ProviderRequest(req.text.value, req.targetLang.value, apiKey.value)), ClassifyAsWritten(upstream))
  }

  /** A provider reply of the documented shape with a non-empty first translation. */
  predicate WellShaped(g: GoogleJson) {
    HasFirstEntry(g) && Truthy(g.data.value.translations.value[0].translatedText)
  }

  function FirstTranslation(g: GoogleJson): string
    requires WellShaped(g)
  {
    g.data.value.translations.value[0].translatedText.value
  }

  /** The classification line 52 intends: every malformed reply is a format error. */
  function Classify(upstream: Upstream): (r: HttpResponse<TranslateBody>)
    ensures upstream.Responded? && Ok(upstream.status) && upstream.json.Some? ==>
      r == if WellShaped(upstream.json.value) then HttpResponse(200, Translated(FirstTranslation(upstream.json.value)))
           else HttpResponse(500, TranslateError(UNEXPECTED_FORMAT))
  {
    match upstream
    case FetchFailed => HttpResponse(500, TranslateError(SERVER_ERROR))
    case Responded(status, statusText, json) =>
      if !Ok(status) then HttpResponse(status, TranslateError(API_ERROR_PREFIX + statusText))
      else if json.None? then HttpResponse(500, TranslateError(SERVER_ERROR))
      else if !WellShaped(json.value) then HttpResponse(500, TranslateError(UNEXPECTED_FORMAT))
      else HttpResponse(200, Translated(FirstTranslation(json.value)))
  }

  /**
   * The handler with the shape check ahead of the first dereference: the behaviour line 52
   * intends, against which the discrepancy in `MissingDataCounterexample` is stated. The
   * client model talks to `HandleAsWritten`.
   */
  function Handle(verb: string, req: TranslateRequest, apiKey: Option<string>, upstream: Upstream): (x: TranslateExchange)
    ensures x.call.Some? <==> Precheck(verb, req, apiKey).None?
    ensures x.call.None? ==> x == Precheck(verb, req, apiKey).value
    ensures x.response.body.TranslateError? ==> x.response.body.error != ""
  {
    match Precheck(verb, req, apiKey)
    case Some(rejected) => rejected
    case None =>
      TranslateExchange(Some(ProviderRequest(req.text.value, req.targetLang.value, apiKey.value)), Classify(upstream))
  }

  /** A provider status outside 200-299 is passed on with the provider's status text. */
  lemma UpstreamErrorForwarded(req: TranslateRequest, key: string, status: int, statusText: string, json: Option<GoogleJson>)
    requires Truthy(req.text) && Truthy(req.targetLang) && key != ""
    requires !Ok(status)
    ensures HandleAsWritten("POST", req, Some(key), Responded(status, statusText, json)).response
      == HttpResponse(status, TranslateError(API_ERROR_PREFIX + statusText))
  {
  }

  /** Status 200 happens exactly for a well-shaped reply, and then carries its first translation. */
  lemma SuccessIsFirstTranslation(verb: string, req: TranslateRequest, apiKey: Option<string>, upstream: Upstream)
    ensures var x := HandleAsWritten(verb, req, apiKey, upstream);
      x.response.status == 200 <==>
        && x.call.Some? && upstream.Responded? && Ok(upstream.status)
        && upstream.json.Some? && WellShaped(upstream.json.value)
        && x.response.body == Translated(FirstTranslation(upstream.json.value))
  {
  }

  /**
   * As written, a missing `data`, a missing `translations` or an empty `translations` list
   * ends in the server-error reply; the format error is reached only for a present first
   * entry whose `translatedText` is absent or empty.
   */
  lemma MalformedRepliesAsWritten(req: TranslateRequest, key: string, status: int, statusText: string, g: GoogleJson)
    requires Truthy(req.text) && Truthy(req.targetLang) && key != "" && Ok(status)
    ensures var response := HandleAsWritten("POST", req, Some(key), Responded(status, statusText, Some(g))).response;
      && (!HasFirstEntry(g) ==> response == HttpResponse(500, TranslateError(SERVER_ERROR)))
      && (response == HttpResponse(500, TranslateError(UNEXPECTED_FORMAT)) <==>
            HasFirstEntry(g) && !Truthy(g.data.value.translations.value[0].translatedText))
  {
  }

  /**
   * Once the request passes the checks, a failed fetch, a 2xx reply whose body is not JSON and
   * a 2xx reply without a first entry all end in the catch at lines 58-60: status 500 with the
   * server-error message.
   */
  lemma ServerErrorAsWritten(verb: string, req: TranslateRequest, apiKey: Option<string>, upstream: Upstream)
    ensures var x := HandleAsWritten(verb, req, apiKey, upstream);
      Precheck(verb, req, apiKey).None? &&
      (|| upstream.FetchFailed?
       || (upstream.Responded? && Ok(upstream.status) && upstream.json.None?)
       || (upstream.Responded? && Ok(upstream.status) && upstream.json.Some? && !HasFirstEntry(upstream.json.value)))
      ==> x.response == HttpResponse(500, TranslateError(SERVER_ERROR))
  {
  }

  /** The concrete reply that shows the shape check at line 52 being bypassed. */
  lemma MissingDataCounterexample()
    ensures var req := TranslateRequest(Some("hello"), Some("bn"));
      var upstream := Responded(200, "OK", Some(GoogleJson(None)));
      && HandleAsWritten("POST", req, Some("k"), upstream).response.body == TranslateError(SERVER_ERROR)
      && Handle("POST", req, Some("k"), upstream).response.body == TranslateError(UNEXPECTED_FORMAT)
  {
  }

  /**
   * The corrected handler differs from the written one exactly when line 50 would throw,
   * and then only in the message of the 500 reply.
   */
  lemma HandleDiffersOnlyOnMalformed(verb: string, req: TranslateRequest, apiKey: Option<string>, upstream: Upstream)
    ensures var x, y := Handle(verb, req, apiKey, upstream), HandleAsWritten(verb, req, apiKey, upstream);
      && x.call == y.call
      && x.response.status == y.response.status
      && (x != y <==>
            && x.call.Some? && upstream.Responded? && Ok(upstream.status) && upstream.json.Some?
            && !HasFirstEntry(upstream.json.value))
  {
  }

  /** The example exchange: a well-formed Bangla reply is passed back as `{translatedText}`. */
  lemma BanglaExample()
    ensures var reply := GoogleJson(Some(GoogleData(Some([GoogleEntry(Some("কেমন আছো"))]))));
      HandleAsWritten("POST", TranslateRequest(Some("How are you?"), Some("bn")), Some("k"), Responded(200, "OK", Some(reply))).response
        == HttpResponse(200, Translated("কেমন আছো"))
  {
  }

  /** Empty text or empty target language is rejected with 400 before any provider call. */
  lemma MissingParameterExamples(apiKey: Option<string>, upstream: Upstream)
    ensures HandleAsWritten("POST", TranslateRequest(Some(""), Some("bn")), apiKey, upstream) == Reject(400, MISSING_PARAMETERS)
    ensures HandleAsWritten("POST", TranslateRequest(Some("hello"), Some("")), apiKey, upstream) == Reject(400, MISSING_PARAMETERS)
  {
  }
}
