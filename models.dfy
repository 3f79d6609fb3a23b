/**
 * Shared response types of the client (src/models/mod.rs): the error type every
 * call returns, the record of a failed response, and the classification of a
 * response's `Content-Type` header (the field of section 8.3 of RFC 9110).
 */
module Models {
  import opened Wrappers

  /** An error of the HTTP library (reqwest): failed send, failed body read or failed JSON body decode. */
  datatype ReqwestError = ReqwestError(description: string)

  /** A JSON error (serde_json); only its message is modelled. */
  datatype SerdeError = SerdeError(message: string)

  /** An I/O error (std::io). */
  datatype IoError = IoError(description: string)

  /** reqwest's `StatusCode`: a three-digit HTTP status. */
  type StatusCode = n: int | 100 <= n <= 999 witness 200

  /** `ResponseContent<T>`: what the client keeps of a failed response. */
  datatype ResponseContent<T> = ResponseContent(status: StatusCode, content: string, entity: Option<T>)

  /** `Error<T>`: the error of every client call; `T` is the operation's typed error entity. */
  datatype Error<T> =
    | Reqwest(reqwest: ReqwestError)
    | Serde(serde: SerdeError)
    | Io(io: IoError)
    | ResponseError(response: ResponseContent<T>)

  /** `impl From<reqwest::Error> for Error<T>`: the reqwest error, carried unchanged. */
  function FromReqwestError<T>(e: ReqwestError): (r: Error<T>)
    ensures r.Reqwest? && r.reqwest == e
  {
    Reqwest(e)
  }

  /** `impl From<serde_json::Error> for Error<T>`: the JSON error, carried unchanged. */
  function FromSerdeError<T>(e: SerdeError): (r: Error<T>)
    ensures r.Serde? && r.serde == e
  {
    Serde(e)
  }

  /**
   * `ContentType`. `Absent` is the source's `ContentType::None` (renamed so as not to
   * clash with `Option.None`); `Unsoported` keeps the source's spelling.
   */
  datatype ContentType = Json | Pdf | Unsoported(text: string) | Absent

  const JsonMediaType: string := "application/json"
  const PdfMediaType: string := "application/pdf"

  /** Rust's `str::starts_with`: case-sensitive, byte for byte. */
  predicate StartsWith(text: string, prefix: string) {
    |text| >= |prefix| && text[..|prefix|] == prefix
  }

  /** No header value starts with both media types: they differ at position 12 ('j' against 'p'). */
  lemma JsonAndPdfPrefixesDisjoint(text: string)
    ensures !(StartsWith(text, JsonMediaType) && StartsWith(text, PdfMediaType))
  {
    if StartsWith(text, JsonMediaType) {
      assert text[12] == JsonMediaType[12] == 'j';
      assert text[..|PdfMediaType|][12] != PdfMediaType[12];
    }
  }

  /**
   * `impl From<Option<&str>> for ContentType`: a plain prefix test, not media-type parsing.
   * Exactly one case applies; the JSON and PDF tests may be read in either order.
   */
  function ClassifyContentType(header: Option<string>): (c: ContentType)
    ensures c == Absent <==> header.None?
    ensures c == Json <==> header.Some? && JsonMediaType <= header.value
    ensures c == Pdf <==> header.Some? && PdfMediaType <= header.value
    ensures c.Unsoported? <==>
      header.Some? && !(JsonMediaType <= header.value) && !(PdfMediaType <= header.value)
    ensures c.Unsoported? ==> c.text == header.value
  {
    match header
    case Some(text) =>
      JsonAndPdfPrefixesDisjoint(text);
      if StartsWith(text, JsonMediaType) then Json
      else if StartsWith(text, PdfMediaType) then Pdf
      else Unsoported(text)
    case None =>
      Absent
  }

  /** A header that is classified `Unsoported` or `Absent` is recovered exactly from its class. */
  lemma ClassifyKeepsUnrecognisedHeader(h1: Option<string>, h2: Option<string>)
    requires ClassifyContentType(h1) == ClassifyContentType(h2)
    requires ClassifyContentType(h1).Unsoported? || ClassifyContentType(h1) == Absent
    ensures h1 == h2
  {}

  /** Parameters after the media type, a present empty header and a different case. */
  lemma ClassifyContentTypeExamples()
    ensures ClassifyContentType(Some("application/json; charset=utf-8")) == Json
    ensures ClassifyContentType(Some("application/pdf")) == Pdf
    ensures ClassifyContentType(Some("Application/JSON")) == Unsoported("Application/JSON")
    ensures ClassifyContentType(Some("")) == Unsoported("")
    ensures ClassifyContentType(None) == Absent
  {
    assert JsonMediaType <= "application/json; charset=utf-8";
    assert "Application/JSON"[0] != JsonMediaType[0];
  }
}
