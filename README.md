# PedidosYa courier client: a verified model of its decision logic

This project models the parts of the PedidosYa courier API client (a Rust SDK) that
have behaviour of their own:

- the wire strings of the inbound callback payload: the `Topic`,
  `CallbackShippingStatus` (7 cases) and `CancelCode` (25 cases) enums, their serde
  rename attributes, their `Display` impls, their `Default` impls and
  `CallbackRequestData::new` (`callback_request.dfy`, module `Callbacks`);
- the classification of a response's `Content-Type` header (the field of section 8.3
  of RFC 9110) into `Json`, `Pdf`, `Unsoported(text)` or absent, and the `Error<T>`
  type with its two `From` conversions (`models.dfy`, module `Models`);
- the shipping estimate operation's typed error `GetShippingsEstimatesError`, its
  conversion from the server's error envelope, the URL the client posts to, and the
  decision table of `send_post_request`. That table takes the 2xx status class
  (section 15.3 of RFC 9110), the classified content type, whether the body decodes
  and whether an error body decodes as an envelope (`pedidosya_client.dfy`, module
  `Client`).

serde's derived deserializer for a renamed unit enum is modelled in `wire_table.dfy`
(module `WireTable`). It keeps the wire names in declaration order and identifies a
variant by its position. Deserializing a string looks the string up in that list.
`Wrappers` holds `Option` and `Result`.

The modelled logic is pure, so the model is datatypes, functions and lemmas.
The network is a parameter of the dispatcher: `send` posts to a URL and returns the
response or a transport error, `decodeBody` stands for `response.json()`, and
`decodeEnvelope` stands for `serde_json::from_str` on the error body. JSON decoding is
therefore an uninterpreted function returning a `Result`.

Two points of the error handling in `send_post_request` (src/pedidosya_client.rs):

- `GetShippingsEstimatesError` declares `UnknownValue(serde_json::Value)` (line 18),
  but nothing builds it. A non-2xx JSON body that is not an envelope fails the whole
  call with `Error::Serde`, through the `?` after `serde_json::from_str` (line 102).
  `InterpretResponse` states this, and `ShippingEstimateShippingOrder` proves that
  `UnknownValue` is never produced.
- A 2xx JSON body that does not decode becomes `Error::Reqwest`, not `Error::Serde`,
  because `response.json()` is reqwest's decoder and the `?` converts its error
  (line 87). A JSON body that cannot be read at all (lines 87 and 101) is also
  `Error::Reqwest`. `InterpretResponse` states both.

Two facts the proofs make explicit:

- The estimate URL is `"https://courier-api.pedidosya.com//v3/shippings/estimates"`,
  with a doubled slash. The path constant already starts with `/` and `format!`
  adds another.
- A non-2xx response whose content type is not JSON always gets the message
  "Received empty content type ...", even when a content type was present.

## Model

| member | source | states |
|---|---|---|
| `WireTable.IndexOf` | src/models/callback_request.rs:77-93 | serde's lookup of a wire name: `None` exactly when the name is not in the rename list, otherwise the first position whose name is the one looked up |
| `WireTable.IndexOfListed` | src/models/callback_request.rs:77-93 | with distinct names, looking up the name at position k gives k back (induction over the list) |
| `Callbacks.TopicToString` | src/models/callback_request.rs:26-31 | the one topic's wire string is its rename "SHIPPING_STATUS", a SCREAMING_SNAKE word |
| `Callbacks.ParseTopic` | src/models/callback_request.rs:26-31 | a string parses as a topic exactly when it is "SHIPPING_STATUS", and parses back to the topic that writes it |
| `Callbacks.DefaultTopic` | src/models/callback_request.rs:33-37 | the default topic parses back from its own wire string |
| `Callbacks.StatusToString` | src/models/callback_request.rs:95-107 | `Display` of each status equals that status's serde rename (the name at its declaration position) |
| `Callbacks.ParseStatus` | src/models/callback_request.rs:77-93 | deserializing accepts only a displayed status string and fails exactly on strings outside the rename list |
| `Callbacks.StatusNamesDistinct` | src/models/callback_request.rs:78-92 | the seven status renames are pairwise distinct |
| `Callbacks.StatusRoundTrip` | src/models/callback_request.rs:77-107 | parse(display(s)) == s for every status |
| `Callbacks.StatusToStringInjective` | src/models/callback_request.rs:95-107 | two statuses display the same exactly when they are the same status |
| `Callbacks.ParseStatusRejects` | src/models/callback_request.rs:77-93 | a string that no status displays as does not parse |
| `Callbacks.ParseStatusExamples` | src/models/callback_request.rs:77-93 | "CANCELED" and lower-case "confirmed" are rejected; "CANCELLED" is `Cancelled` |
| `Callbacks.StatusAlphabet` | src/models/callback_request.rs:95-107 | every status string uses only `A`-`Z` and `_` |
| `Callbacks.DefaultStatus` | src/models/callback_request.rs:109-113 | the default status is the first declared one and displays as "CONFIRMED" |
| `Callbacks.CancelCodeToString` | src/models/callback_request.rs:171-201 | `Display` of each of the 25 cancel codes equals that code's serde rename |
| `Callbacks.ParseCancelCode` | src/models/callback_request.rs:117-169 | deserializing accepts only a displayed cancel-code string and fails exactly on strings outside the rename list |
| `Callbacks.CancelCodeNamesDistinct` | src/models/callback_request.rs:118-168 | the 25 cancel-code renames are pairwise distinct |
| `Callbacks.CancelCodeRoundTrip` | src/models/callback_request.rs:117-201 | parse(display(c)) == c for all 25 codes |
| `Callbacks.CancelCodeToStringInjective` | src/models/callback_request.rs:171-201 | two codes display the same exactly when they are the same code |
| `Callbacks.ParseCancelCodeRejects` | src/models/callback_request.rs:117-169 | a string that no code displays as does not parse |
| `Callbacks.CancelCodeAlphabet` | src/models/callback_request.rs:171-201 | every cancel-code string uses only `A`-`Z` and `_` |
| `Callbacks.DefaultCancelCode` | src/models/callback_request.rs:203-207 | the default code is the first declared one and displays as "ADDRESS_DATA_MISSING" |
| `Callbacks.NewCallbackRequestData` | src/models/callback_request.rs:62-72 | a new data block has all five fields unset |
| `Models.FromReqwestError` | src/models/mod.rs:15-19 | a reqwest error becomes `Error::Reqwest` carrying it unchanged |
| `Models.FromSerdeError` | src/models/mod.rs:21-25 | a JSON error becomes `Error::Serde` carrying it unchanged |
| `Models.JsonAndPdfPrefixesDisjoint` | src/models/mod.rs:38-41 | no header text starts with both "application/json" and "application/pdf" |
| `Models.ClassifyContentType` | src/models/mod.rs:34-49 | absent header gives `Absent`; otherwise `Json` exactly for prefix "application/json", `Pdf` exactly for prefix "application/pdf", and `Unsoported` with the original text for anything else |
| `Models.ClassifyKeepsUnrecognisedHeader` | src/models/mod.rs:42-46 | an `Unsoported` or `Absent` class determines the header it came from, so absence and an empty header differ |
| `Models.ClassifyContentTypeExamples` | src/models/mod.rs:36-46 | "application/json; charset=utf-8" is `Json`; "Application/JSON" and "" are `Unsoported` of themselves; no header is `Absent` |
| `Client.EstimatesErrorFrom` | src/pedidosya_client.rs:21-31 | status 400, 403 and 500 select their own variant; any other status or none selects `StatusNonExpected`; the envelope is kept and `UnknownValue` never results |
| `Client.NewClient` | src/pedidosya_client.rs:54-58 | a new client posts to the fixed base URL and keeps the token |
| `Client.RequestUrl` | src/pedidosya_client.rs:73 | the URL is the base path, one slash, then the path as given |
| `Client.EstimatesUrlHasDoubledSlash` | src/pedidosya_client.rs:117-123 | the estimate request goes to "https://courier-api.pedidosya.com//v3/shippings/estimates" |
| `Client.UnsupportedMessage` | src/pedidosya_client.rs:91-95 | the unsupported-content-type message contains the content-type text |
| `Client.InterpretResponse` | src/pedidosya_client.rs:78-114 | `Ok` exactly for 2xx JSON with a decodable body; other 2xx content types give `Serde`; `ResponseError` exactly for non-2xx JSON with an envelope body, keeping status, raw body and the converted envelope; a non-envelope body or non-JSON type gives `Serde`; a JSON body read failure, or a 2xx JSON decode failure, is exactly that `Reqwest` error, and `Reqwest` arises from nothing else; never `Io` |
| `Client.SendPostRequest` | src/pedidosya_client.rs:61-115 | a failed send to base + "/" + url is `Error::Reqwest` of that failure; a received response is interpreted by the decision table |
| `Client.ShippingEstimateShippingOrder` | src/pedidosya_client.rs:117-123 | posts to the estimate path; a typed error entity is always present, never `UnknownValue`, and is the conversion of the envelope it carries |
| `Client.Estimates403Scenario` | src/pedidosya_client.rs:100-109 | a 403 JSON envelope on the estimate endpoint yields a response error wrapping `Status403` with the envelope and raw body |
| `Client.Estimates409Scenario` | src/pedidosya_client.rs:23-28 | a 409 envelope on the estimate endpoint yields `StatusNonExpected` |
| `Client.SuccessPdfScenario` | src/pedidosya_client.rs:88-90 | 200 with `application/pdf` is `Error::Serde` whose message contains "pdf" |
| `Client.SuccessWithoutContentTypeScenario` | src/pedidosya_client.rs:96-98 | 200 without a content type is `Error::Serde` with the "empty content type" message |

## Left out

- `PedidosYaClient::new` builds a reqwest client with a default `Authorization` header and panics through `expect` when the token is not a valid header value or the client cannot be built (src/pedidosya_client.rs:42-52). This is library plumbing with foreign calls. `NewClient` models only the fields the client stores.
- The async `.send().await`, `.json().await` and `.text().await` calls are network I/O. They are the parameters `send`, `decodeBody` and the `body` field of `HttpResponse`. Serializing the request body with `.json(body)` is folded into `send`, whose failure is a reqwest error either way.
- serde_json parsing and serialization internals are not modelled. Decoding is an uninterpreted function, and `serde_json::Value` is kept as opaque text.
- `HeaderValue::to_str` turns a header value that is not visible ASCII into an absent header before classification. The model takes the header text after that conversion.
- The envelope type `HttpErrorResponse` (src/models/http_errors.rs) is not part of this model. It is modelled from its wire shape: optional `status`, `message` and `code`.
- JSON round trips of whole model structs with `skip_serializing_if`, and the derived `Default` of `CallbackRequest` and `CallbackRequestData`, depend on derive-generated code that is not visible.
- `ShippingResponse::new` (src/models/shipping_response.rs:34-45) is an all-`None` constructor. It is the same shape as `CallbackRequestData::new`, which is modelled.
- `Error::Io` is a variant of `Error` here but is never constructed; `InterpretResponse` proves it never results.
- Client.UnsupportedMessage: the contract states only that the message contains the content-type text; the rest of the wording is fixed in the body but not stated as a property.
- Client.InterpretResponse: for an unsupported content type on a 2xx response it states that the message contains that content type, not the whole message.
