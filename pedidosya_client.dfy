/**
 * The courier API client (src/pedidosya_client.rs): the typed error of the shipping
 * estimate operation, the mapping from the server's error envelope to it, and the
 * way `send_post_request` turns one HTTP exchange into a result.
 *
 * The network exchange itself is a parameter: `send` stands for posting the request
 * to a URL and awaiting the response, `decodeBody` for `response.json()` (reading the
 * body and decoding it as the success type) and `decodeEnvelope` for
 * `serde_json::from_str` on the error body.
 */
module Client {
  import opened Wrappers
  import opened Models

  const PedidosYaBaseUrl: string := "https://courier-api.pedidosya.com"
  const EstimatesPath: string := "/v3/shippings/estimates"

  /** The server's error envelope (`HttpErrorResponse`), the same for every operation. */
  datatype HttpErrorResponse = HttpErrorResponse(status: Option<int>, message: Option<string>, code: Option<string>)

  /** An untyped JSON document (`serde_json::Value`), kept as its text. */
  datatype JsonValue = JsonValue(text: string)

  /** The typed error entity of the shipping estimate operation. */
  datatype GetShippingsEstimatesError =
    | Status400(envelope: HttpErrorResponse)
    | Status403(envelope: HttpErrorResponse)
    | Status500(envelope: HttpErrorResponse)
    | StatusNonExpected(envelope: HttpErrorResponse)
    | UnknownValue(value: JsonValue)

  /** The status codes the estimate operation documents. */
  predicate DocumentedEstimatesStatus(n: int) {
    n == 400 || n == 403 || n == 500
  }

  /**
   * `impl From<HttpErrorResponse> for GetShippingsEstimatesError`: a documented status
   * selects its own variant, any other status or none selects `StatusNonExpected`;
   * the envelope is always carried unchanged and `UnknownValue` is never produced.
   */
  function EstimatesErrorFrom(e: HttpErrorResponse): (v: GetShippingsEstimatesError)
    ensures !v.UnknownValue? && v.envelope == e
    ensures v.Status400? <==> e.status == Some(400)
    ensures v.Status403? <==> e.status == Some(403)
    ensures v.Status500? <==> e.status == Some(500)
    ensures v.StatusNonExpected? <==> e.status.None? || !DocumentedEstimatesStatus(e.status.value)
  {
    match e.status
    case Some(400) => Status400(e)
    case Some(403) => Status403(e)
    case Some(500) => Status500(e)
    case Some(_) => StatusNonExpected(e)
    case None => StatusNonExpected(e)
  }

  /** `PedidosYaClient`: the base URL and the token; never changed after construction. */
  datatype PedidosYaClient = PedidosYaClient(basePath: string, authToken: string)

  /** `PedidosYaClient::new`, without the HTTP client it builds: every client talks to the fixed base URL. */
  function NewClient(authToken: string): (c: PedidosYaClient)
    ensures c.basePath == PedidosYaBaseUrl && c.authToken == authToken
  {
    PedidosYaClient(PedidosYaBaseUrl, authToken)
  }

  /** `format!("{}/{}", base_path, url)`: the base, one slash, then the path as given. */
  function RequestUrl(basePath: string, url: string): (r: string)
    ensures |r| == |basePath| + 1 + |url|
    ensures r[..|basePath|] == basePath && r[|basePath|] == '/' && r[|basePath| + 1..] == url
  {
    basePath + "/" + url
  }

  /** The estimate path already starts with a slash, so the URL the client posts to has two. */
  lemma EstimatesUrlHasDoubledSlash(authToken: string)
    ensures RequestUrl(NewClient(authToken).basePath, EstimatesPath)
         == "https://courier-api.pedidosya.com//v3/shippings/estimates"
  {
    var r := RequestUrl(PedidosYaBaseUrl, EstimatesPath);
    assert r == PedidosYaBaseUrl + "/" + EstimatesPath;
  }

  /** A response as received: status, `Content-Type` text if any, and the body or the error reading it. */
  datatype HttpResponse = HttpResponse(status: StatusCode, contentType: Option<string>, body: Result<string, ReqwestError>)

  /** `StatusCode::is_success`: the 2xx class of section 15.3 of RFC 9110. */
  predicate IsSuccess(status: StatusCode) {
    200 <= status <= 299
  }

  const ModelsSuffix: string := " content type response that cannot be converted to `models::`"
  const PdfMessage: string := "Received `application/pdf`" + ModelsSuffix
  const EmptyContentTypeMessage: string := "Received empty" + ModelsSuffix

  /** `t` occurs somewhere in `s`. */
  ghost predicate Contains(s: string, t: string) {
    exists before, after :: s == before + t + after
  }

  /** The message for a success response of unsupported content type: it names that type. */
  function UnsupportedMessage(text: string): (m: string)
    ensures Contains(m, text)
  {
    var after := "`" + ModelsSuffix;
    var m := "Received `" + text + after;
    assert m == "Received `" + text + after;
    m
  }

  /** The decision table of `send_post_request` once the response is in (lines 78-114). */
  function InterpretResponse<Res, E>(
    response: HttpResponse,
    decodeBody: string -> Result<Res, ReqwestError>,
    decodeEnvelope: string -> Result<HttpErrorResponse, SerdeError>,
    toEntity: HttpErrorResponse -> E): (r: Result<Res, Error<E>>)
    // Only a 2xx JSON response whose body reads and decodes succeeds, with the decoded body.
    ensures r.Ok? <==>
      IsSuccess(response.status) && ClassifyContentType(response.contentType) == Json
      && response.body.Ok? && decodeBody(response.body.value).Ok?
    ensures r.Ok? ==> r.value == decodeBody(response.body.value).value
    // A 2xx response of any other content type is a JSON error, whatever its body.
    ensures IsSuccess(response.status) && ClassifyContentType(response.contentType) != Json
      ==> r.Err? && r.error.Serde?
    ensures IsSuccess(response.status) && ClassifyContentType(response.contentType) == Pdf
      ==> r == Err(Serde(SerdeError(PdfMessage)))
    ensures IsSuccess(response.status) && ClassifyContentType(response.contentType).Unsoported?
      ==> r.Err? && r.error.Serde? && Contains(r.error.serde.message, response.contentType.value)
    ensures IsSuccess(response.status) && response.contentType.None?
      ==> r == Err(Serde(SerdeError(EmptyContentTypeMessage)))
    // A typed response error exactly for a non-2xx JSON response whose body is an envelope;
    // it keeps the status and the raw body and carries the envelope's conversion.
    ensures r.Err? && r.error.ResponseError? <==>
      !IsSuccess(response.status) && ClassifyContentType(response.contentType) == Json
      && response.body.Ok? && decodeEnvelope(response.body.value).Ok?
    ensures r.Err? && r.error.ResponseError? ==>
      r.error.response
      == ResponseContent(response.status, response.body.value, Some(toEntity(decodeEnvelope(response.body.value).value)))
    // A non-2xx JSON body that is not an envelope fails with the JSON error itself.
    ensures !IsSuccess(response.status) && ClassifyContentType(response.contentType) == Json
      && response.body.Ok? && decodeEnvelope(response.body.value).Err?
      ==> r == Err(Serde(decodeEnvelope(response.body.value).error))
    // A non-2xx response of any other content type is a JSON error.
    ensures !IsSuccess(response.status) && ClassifyContentType(response.contentType) != Json
      ==> r == Err(Serde(SerdeError(EmptyContentTypeMessage)))
    // A JSON body that cannot be read, or a 2xx JSON body that does not decode, is that reqwest error.
    ensures ClassifyContentType(response.contentType) == Json && response.body.Err?
      ==> r == Err(Reqwest(response.body.error))
    ensures IsSuccess(response.status) && ClassifyContentType(response.contentType) == Json
      && response.body.Ok? && decodeBody(response.body.value).Err?
      ==> r == Err(Reqwest(decodeBody(response.body.value).error))
    // reqwest errors come only from reading or decoding the body of a JSON response.
    ensures r.Err? && r.error.Reqwest? ==>
      ClassifyContentType(response.contentType) == Json
      && (response.body.Err? || (IsSuccess(response.status) && decodeBody(response.body.value).Err?))
    ensures !(r.Err? && r.error.Io?)
  {
    var contentType := ClassifyContentType(response.contentType);
    if IsSuccess(response.status) then
      match contentType
      case Json =>
        (match response.body
         case Err(e) => Err(FromReqwestError(e))
         case Ok(text) =>
           match decodeBody(text)
           case Ok(v) => Ok(v)
           case Err(e) => Err(FromReqwestError(e)))
      case Pdf => Err(Serde(SerdeError(PdfMessage)))
      case Unsoported(text) => Err(Serde(SerdeError(UnsupportedMessage(text))))
      case Absent => Err(Serde(SerdeError(EmptyContentTypeMessage)))
    else if contentType == Json then
      match response.body
      case Err(e) => Err(FromReqwestError(e))
      case Ok(content) =>
        match decodeEnvelope(content)
        case Err(e) => Err(FromSerdeError(e))
        case Ok(envelope) =>
          Err(ResponseError(ResponseContent(response.status, content, Some(toEntity(envelope)))))
    else
      Err(Serde(SerdeError(EmptyContentTypeMessage)))
  }

  /** `send_post_request`: a failed send is a reqwest error, anything received is interpreted. */
  function SendPostRequest<Res, E>(
    client: PedidosYaClient,
    url: string,
    send: string -> Result<HttpResponse, ReqwestError>,
    decodeBody: string -> Result<Res, ReqwestError>,
    decodeEnvelope: string -> Result<HttpErrorResponse, SerdeError>,
    toEntity: HttpErrorResponse -> E): (r: Result<Res, Error<E>>)
    ensures send(RequestUrl(client.basePath, url)).Err?
      ==> r == Err(Reqwest(send(RequestUrl(client.basePath, url)).error))
    ensures send(RequestUrl(client.basePath, url)).Ok?
      ==> r == InterpretResponse(send(RequestUrl(client.basePath, url)).value, decodeBody, decodeEnvelope, toEntity)
  {
    match send(RequestUrl(client.basePath, url))
    case Err(e) => Err(FromReqwestError(e))
    case Ok(response) => InterpretResponse(response, decodeBody, decodeEnvelope, toEntity)
  }

  /**
   * `shipping_estimate_shipping_order`: a POST to the estimate path whose typed error
   * entity, when there is one, is the envelope's conversion and never `UnknownValue`.
   */
  function ShippingEstimateShippingOrder<Res>(
    client: PedidosYaClient,
    send: string -> Result<HttpResponse, ReqwestError>,
    decodeBody: string -> Result<Res, ReqwestError>,
    decodeEnvelope: string -> Result<HttpErrorResponse, SerdeError>): (r: Result<Res, Error<GetShippingsEstimatesError>>)
    ensures r == SendPostRequest(client, EstimatesPath, send, decodeBody, decodeEnvelope, EstimatesErrorFrom)
    ensures r.Err? && r.error.ResponseError? ==>
      && r.error.response.entity.Some?
      && !r.error.response.entity.value.UnknownValue?
      && r.error.response.entity.value == EstimatesErrorFrom(r.error.response.entity.value.envelope)
  {
    SendPostRequest(client, EstimatesPath, send, decodeBody, decodeEnvelope, EstimatesErrorFrom)
  }

  // ---------------------------------------------------------------- scenarios

  /** 403 with a JSON envelope on the estimate endpoint: a response error wrapping `Status403`. */
  lemma Estimates403Scenario<Res>(
    authToken: string,
    send: string -> Result<HttpResponse, ReqwestError>,
    decodeBody: string -> Result<Res, ReqwestError>,
    decodeEnvelope: string -> Result<HttpErrorResponse, SerdeError>,
    body: string)
    requires send("https://courier-api.pedidosya.com//v3/shippings/estimates")
          == Ok(HttpResponse(403, Some("application/json"), Ok(body)))
    requires decodeEnvelope(body) == Ok(HttpErrorResponse(Some(403), Some("Menlo Park, CA"), Some("Menlo Park, CA")))
    ensures ShippingEstimateShippingOrder(NewClient(authToken), send, decodeBody, decodeEnvelope)
         == Err(ResponseError(ResponseContent(403, body,
              Some(Status403(HttpErrorResponse(Some(403), Some("Menlo Park, CA"), Some("Menlo Park, CA")))))))
  {
    EstimatesUrlHasDoubledSlash(authToken);
  }

  /** 409 is not among the estimate operation's variants (lines 13-19), so it maps to `StatusNonExpected`. */
  lemma Estimates409Scenario<Res>(
    authToken: string,
    send: string -> Result<HttpResponse, ReqwestError>,
    decodeBody: string -> Result<Res, ReqwestError>,
    decodeEnvelope: string -> Result<HttpErrorResponse, SerdeError>,
    body: string,
    envelope: HttpErrorResponse)
    requires send("https://courier-api.pedidosya.com//v3/shippings/estimates")
          == Ok(HttpResponse(409, Some("application/json"), Ok(body)))
    requires decodeEnvelope(body) == Ok(envelope) && envelope.status == Some(409)
    ensures ShippingEstimateShippingOrder(NewClient(authToken), send, decodeBody, decodeEnvelope)
         == Err(ResponseError(ResponseContent(409, body, Some(StatusNonExpected(envelope)))))
  {
    EstimatesUrlHasDoubledSlash(authToken);
  }

  /** 200 with a PDF body is a JSON error whose message mentions "pdf", never a payload. */
  lemma SuccessPdfScenario<Res, E>(
    body: Result<string, ReqwestError>,
    decodeBody: string -> Result<Res, ReqwestError>,
    decodeEnvelope: string -> Result<HttpErrorResponse, SerdeError>,
    toEntity: HttpErrorResponse -> E)
    ensures var r := InterpretResponse(HttpResponse(200, Some("application/pdf"), body), decodeBody, decodeEnvelope, toEntity);
      r.Err? && r.error.Serde? && Contains(r.error.serde.message, "pdf")
  {
    assert PdfMessage == "Received `application/" + "pdf" + ("`" + ModelsSuffix);
  }

  /** 200 without a `Content-Type` header is a JSON error, never a default payload. */
  lemma SuccessWithoutContentTypeScenario<Res, E>(
    body: Result<string, ReqwestError>,
    decodeBody: string -> Result<Res, ReqwestError>,
    decodeEnvelope: string -> Result<HttpErrorResponse, SerdeError>,
    toEntity: HttpErrorResponse -> E)
    ensures InterpretResponse(HttpResponse(200, None, body), decodeBody, decodeEnvelope, toEntity)
         == Err(Serde(SerdeError(EmptyContentTypeMessage)))
  {}
}
