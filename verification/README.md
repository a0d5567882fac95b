# Image proxy, document serialiser and contact payload — a Dafny model

This project models the request-handling logic of a small FastAPI backend
(`main.py`) with the network and the database taken out:

- **`GET /api/image?src=<url>`** (`ImageProxy`, `image_proxy.dfy`). The
  handler accepts `src` only when it starts with `https://` or `http://`.
  It fetches the URL once. A 200 reply is relayed with its bytes, its
  Content-Type (or `image/jpeg` when the upstream sent none), a one-day
  `Cache-Control` and the marker header `X-Image-Proxy: 1`. Every failure
  becomes an HTTP error with a `detail` text. The outbound request is the
  parameter `fetch: string -> Upstream`, a total function giving what
  fetching a URL yields: `Timeout`, `OtherFailure(message)` or
  `Reply(status, contentType, body)`. The handler's `try` body (`Attempt`)
  and its `except` chain (`ProxyImage`) are modelled separately, so the
  order of the `except` clauses is explicit.
- **Decimal text of a status code** (`Decimal`, `decimal.dfy`). The error
  detail `f"Upstream failed: {status}"` writes the status in decimal.
  `FromNat` models that rendering and `ToNat` reads the text back. Together
  they are proved to be a bijection between `nat` and canonical digit
  strings, so the status can always be recovered from the detail.
- **`serialize`** (`DocumentSerializer`, `serializer.dfy`). This helper of
  `GET /api/contact` writes `_id` as its `str()` and every value that has
  `isoformat()` as its ISO text. Each top-level value is an `ObjectId`, a
  `Temporal` (datetime, date or time: it has an ISO text and a `str()`
  text, which differ for datetimes), a `Text`, or `Other`, which carries
  its `str()` form. `Serialize` is written like the source: copy, fix
  `_id`, then loop over a snapshot of the items.
- **`ContactIn`** (`ContactForm`, `contact.dfy`). This is the body of
  `POST /api/contact`. Each JSON field is `Omitted`, `Null` or
  `Given(text)`. `Validate` either accepts the payload as a `Contact`
  record or returns one `Problem` per failing field. The e-mail validator is
  the parameter `parseEmail`. It gives `None` for a rejected text and
  `Some(address)` for the normalised address that is stored.

`wrappers.dfy` holds the `Option` and `Result` datatypes.

## Model

| member | source | states |
|---|---|---|
| ImageProxy.ProxyImage | main.py:81-117 | An image is sent exactly when `src` has an allowed scheme and the upstream answered 200. The image carries the upstream bytes unchanged. Its media type is the upstream Content-Type when present (even if empty) and `image/jpeg` otherwise. The same value appears under `Content-Type`, beside `Cache-Control: public, max-age=86400` and `X-Image-Proxy: 1`. An error's status is never 200. A rejected `src` gives 400 "Invalid URL". A timeout gives 504 "Image fetch timed out". Any other failure gives 500 "Proxy error: " + message. A non-200 reply gives that exact status with the detail "Upstream failed: " + its decimal text. |
| ImageProxy.HttpExceptionReraised | main.py:112-113 | An `HTTPException` raised inside the `try` (the 400 or the upstream-status error) reaches the caller with the same status and detail. It is never turned into a 500. |
| ImageProxy.InvalidSourceNeverFetched | main.py:88-90 | For a `src` with neither prefix, the answer is 400 "Invalid URL" whatever the upstream would have done, so no fetch is made. |
| ImageProxy.OnlySourceFetched | main.py:100 | The answer depends on the upstream only through what fetching `src` itself yields. |
| ImageProxy.SuccessHeadersExact | main.py:105-111 | A successful answer's headers are exactly Cache-Control, Content-Type (equal to the media type) and X-Image-Proxy, in that order. |
| ImageProxy.Explain | main.py:90-117 | Parses an error detail back into its cause. An upstream-status or proxy-failure reading is only produced from a detail of exactly that form. |
| ImageProxy.UpstreamDetailExplained | main.py:101-102 | The detail "Upstream failed: " + the decimal text of a status reads back as exactly that status. |
| ImageProxy.ProxyDetailExplained | main.py:116-117 | The detail "Proxy error: " + a message reads back as a proxy failure with exactly that message. It is never mistaken for an upstream status, a timeout or an invalid URL. |
| ImageProxy.ErrorExplained | main.py:87-117 | The answer is an error exactly when the inputs call for one. The detail of the raised error parses back to the cause (invalid URL, upstream status, timeout, or proxy failure with its message). Its status is the one that cause maps to, so the upstream status can be read back from the detail. |
| ImageProxy.AvatarRelayed | main.py:104-111 | Example: `https://example.com/avatar.png` with a 200 PNG reply is relayed with body, `image/png` and the three fixed headers. |
| ImageProxy.FtpRefused | main.py:89-90 | Example: `ftp://example.com/x.png` is answered 400 "Invalid URL". |
| ImageProxy.NotFoundPassedThrough | main.py:101-102 | Example: an upstream 404 is answered 404 with detail "Upstream failed: 404". |
| Decimal.FromNat | main.py:102 | The decimal text of a status is non-empty, all digits, and has no leading zero. |
| Decimal.ToNatFromNat | main.py:102 | Reading back the decimal text of `n` gives `n`. |
| Decimal.FromNatToNat | main.py:102 | Every canonical digit string is the decimal text of the number it denotes. |
| Decimal.FromNatInjective | main.py:102 | Different statuses give different details. |
| DocumentSerializer.Serialize | main.py:66-73 | The keys are unchanged. `_id` becomes the text of its `str()`. Every other value with an ISO form becomes its ISO text. All other values are kept. |
| DocumentSerializer.SerializeAll | main.py:74 | The listing serialises every document in order. Keys are preserved and each value is transformed as `serialize` transforms it. |
| DocumentSerializer.SerializedHasNoDates | main.py:68-72 | No serialised value has an ISO form any more, and `_id` is always text. |
| DocumentSerializer.SerializedIsJsonReady | main.py:65-73 | A serialised value is never an identifier or a date when the input was JSON-ready, sat under `_id`, or was date-like. Values under `_id` and date-like values come out as plain text. |
| DocumentSerializer.SerializeIdempotent | main.py:66-73 | Serialising an already serialised value changes nothing. |
| ContactForm.Validate | main.py:34-40 | An accepted payload gives a record within bounds. The name is 2..120 characters and the message 5..5000. A subject has at most 200 characters and a phone at most 30. The e-mail was accepted by the validator, and the record stores the address the validator produced. Name, message, subject and phone are the submitted texts. Absent or null optionals become `None`. An omitted `source` becomes "portfolio". A rejected payload reports at least one problem. |
| ContactForm.AcceptedIffAllFieldsOk | main.py:34-40 | A payload is accepted if and only if every field passes its own constraint. |
| ContactForm.ProblemsAreFailingFields | main.py:34-40 | When a payload is rejected, the problems returned are about exactly the failing fields, in declaration order. |
| ContactForm.ProblemsNameFailingFields | main.py:34-40 | When a payload is rejected, each failing field is reported exactly once, and no passing field is reported. |
| ContactForm.SubmissionRoundTrip | main.py:34-40 | Every valid contact record whose address is already in the validator's normal form, submitted as a payload, is accepted as that same record. |
| ContactForm.SourceDefaults | main.py:40 | An accepted payload that leaves out `source` is recorded with source "portfolio". |

## Left out

- The outbound `requests.get` call (main.py:93-100): its browser-like headers, its empty Referer/Origin and its 10-second timeout are network I/O. The model only sees the `Upstream` outcome.
- ImageProxy.ProxyImage: a timeout while reading the body is reported by the requests library as a connection error, not as `requests.Timeout`. So it falls under `OtherFailure` and gives 500. The model does not tell it apart from other failures, because the upstream outcome is given already classified.
- ImageProxy.ErrorExplained: `detail` is the detail of the raised exception. For statuses that carry no body (every status below 200, and 204, 205 and 304) the framework writes no `detail` on the wire. So an upstream reply with one of those statuses reaches the caller without text to read back.
- Upstream status codes are any `nat`. The HTTP client only produces 100..999, but the handler itself does not rely on that.
- The upstream Content-Type arrives already looked up. The requests library's case-insensitive header dictionary, and its joining of repeated headers, are not modelled.
- Headers the web framework adds on its own, such as Content-Length, are not modelled. Header names are compared exactly, not case-insensitively.
- CORS middleware, routing, `Query` parsing and response writing (main.py:12-20) are framework plumbing.
- `create_contact_message` and `list_contact_messages` (main.py:43-78), apart from `serialize` and the list comprehension at line 74, are left out. Their database calls come from a `database` module that is not part of this model.
- E-mail checking and normalisation (`EmailStr`, main.py:36) are done by an outside library. They are the opaque parameter `parseEmail`. The model does not say how an address is normalised: trimming spaces, dropping a display name and lower-casing the domain are the library's business.
- ContactForm.Validate: JSON values that are neither strings nor null are not modelled. The library's messages and error locations are reduced to one `Problem` per field.
- DocumentSerializer.Serialize: a document is a `map`, so the key order that Python's dict keeps (and the listing's JSON shows) is not modelled. No property here depends on it.
- DocumentSerializer.Serialize: values nested inside lists or sub-documents are not visited, as in the source. They are carried opaquely in `Other`.
- The `/test` diagnostics endpoint (main.py:120-155), the two greeting endpoints (main.py:23-30), the `received_at` timestamp (main.py:50) and the server start-up (main.py:158-161) are left out. They read the environment, the clock and the database.
