/**
 * The image-proxy handler `GET /api/image?src=<url>`: it checks the scheme of
 * `src`, fetches it once from the upstream host and either relays the image
 * with caching headers or answers with an HTTP error.
 *
 * The outbound request is not modelled; the upstream is the parameter
 * `fetch`, a total function from URL to what the fetch of that URL yields.
 * A result that does not depend on `fetch` is a result for which no request
 * was made.
 */
module ImageProxy {
  import opened Wrappers
  import Decimal

  newtype byte = x: int | 0 <= x < 256

  /** What one outbound GET yields. */
  datatype Upstream =
    | Timeout                                  // requests raised requests.Timeout
    | OtherFailure(message: string)            // any other exception, with its `str()`
    | Reply(status: nat, contentType: Option<string>, body: seq<byte>)

  datatype Header = Header(name: string, value: string)

  /** What the handler sends back: an image (status 200) or an error with a JSON `detail`. */
  datatype Response =
    | Image(body: seq<byte>, mediaType: string, headers: seq<Header>)
    | Error(status: nat, detail: string)

  /** The exceptions the body of the handler's `try` can raise. */
  datatype Raised =
    | HttpException(status: nat, detail: string)
    | TimeoutRaised
    | OtherRaised(message: string)

  const Ok: nat := 200
  const BadRequest: nat := 400
  const InternalError: nat := 500
  const GatewayTimeout: nat := 504

  const HttpsPrefix := "https://"
  const HttpPrefix := "http://"
  const DefaultContentType := "image/jpeg"
  const CacheControl := "public, max-age=86400"
  const ProxyMarker := "1"

  const InvalidUrlDetail := "Invalid URL"
  const TimeoutDetail := "Image fetch timed out"
  const UpstreamPrefix := "Upstream failed: "
  const ProxyErrorPrefix := "Proxy error: "

  predicate StartsWith(s: string, prefix: string) {
    |prefix| <= |s| && s[..|prefix|] == prefix
  }

  /** The only check made on `src`: a case-sensitive `https://` or `http://` prefix. */
  predicate AllowedScheme(src: string) {
    StartsWith(src, HttpsPrefix) || StartsWith(src, HttpPrefix)
  }

  /** The value of the first header called `name`, if any. */
  function Lookup(headers: seq<Header>, name: string): (r: Option<string>)
    ensures r.Some? <==> exists i | 0 <= i < |headers| :: headers[i].name == name
    ensures r.Some? ==> exists i | 0 <= i < |headers| :: headers[i] == Header(name, r.value)
    decreases |headers|
  {
    if |headers| == 0 then None
    else if headers[0].name == name then Some(headers[0].value)
    else
      var r := Lookup(headers[1..], name);
      assert forall i | 1 <= i < |headers| :: headers[i] == headers[1..][i - 1];
      r
  }

  /** The headers of a successful reply. */
  function ProxyHeaders(contentType: string): seq<Header> {
    [Header("Cache-Control", CacheControl), Header("Content-Type", contentType), Header("X-Image-Proxy", ProxyMarker)]
  }

  /** Each fixed header is found under its own name. */
  lemma ProxyHeadersLookup(contentType: string)
    ensures Lookup(ProxyHeaders(contentType), "Cache-Control") == Some(CacheControl)
    ensures Lookup(ProxyHeaders(contentType), "Content-Type") == Some(contentType)
    ensures Lookup(ProxyHeaders(contentType), "X-Image-Proxy") == Some(ProxyMarker)
  {
    var hs := ProxyHeaders(contentType);
    assert hs[1..] == [Header("Content-Type", contentType), Header("X-Image-Proxy", ProxyMarker)];
    assert hs[1..][1..] == [Header("X-Image-Proxy", ProxyMarker)];
    assert "Cache-Control"[0] != "X-Image-Proxy"[0] && "Content-Type"[0] != "X-Image-Proxy"[0];
    assert "Cache-Control"[1] != "Content-Type"[1];
    assert Lookup(hs[1..][1..], "X-Image-Proxy") == Some(ProxyMarker);
    assert Lookup(hs[1..], "X-Image-Proxy") == Some(ProxyMarker);
  }

  /** The detail of the error raised for a non-200 upstream status. */
  function UpstreamDetail(status: nat): string {
    UpstreamPrefix + Decimal.FromNat(status)
  }

  /** The body of the handler's `try`: what it returns or raises. */
  function Attempt(src: string, fetch: string -> Upstream): Result<Response, Raised> {
    if !AllowedScheme(src) then
      Failure(HttpException(BadRequest, InvalidUrlDetail))
    else
      match fetch(src)
      case Timeout => Failure(TimeoutRaised)
      case OtherFailure(m) => Failure(OtherRaised(m))
      case Reply(status, ct, body) =>
        if status != Ok then
          Failure(HttpException(status, UpstreamDetail(status)))
        else
          var contentType := ct.GetOr(DefaultContentType);
          Success(Image(body, contentType, ProxyHeaders(contentType)))
  }

  /** The upstream answered 200. */
  predicate UpstreamSucceeded(u: Upstream) {
    u.Reply? && u.status == Ok
  }

  /**
   * The handler: the `try` body, then the `except` chain in source order —
   * an `HTTPException` is re-raised as it is, a timeout becomes 504 and
   * anything else becomes 500.
   */
  function ProxyImage(src: string, fetch: string -> Upstream): (r: Response)
    // an image is sent exactly when the scheme is allowed and the upstream answered 200
    ensures r.Image? <==> AllowedScheme(src) && UpstreamSucceeded(fetch(src))
    // and it relays the upstream bytes under the upstream (or default) content type
    ensures r.Image? ==>
      && r.body == fetch(src).body
      && r.mediaType == (if fetch(src).contentType.Some? then fetch(src).contentType.value else DefaultContentType)
      && Lookup(r.headers, "Content-Type") == Some(r.mediaType)
      && Lookup(r.headers, "Cache-Control") == Some(CacheControl)
      && Lookup(r.headers, "X-Image-Proxy") == Some(ProxyMarker)
      && |r.headers| == 3
    // an error never claims success
    ensures r.Error? ==> r.status != Ok
    ensures !AllowedScheme(src) ==> r == Error(BadRequest, InvalidUrlDetail)
    ensures AllowedScheme(src) && fetch(src).Timeout? ==> r == Error(GatewayTimeout, TimeoutDetail)
    ensures AllowedScheme(src) && fetch(src).OtherFailure? ==>
      r == Error(InternalError, ProxyErrorPrefix + fetch(src).message)
    ensures AllowedScheme(src) && fetch(src).Reply? && fetch(src).status != Ok ==>
      r.Error? && r.status == fetch(src).status && r.detail == UpstreamDetail(fetch(src).status)
  {
    match Attempt(src, fetch)
    case Success(response) => ProxyHeadersLookup(response.mediaType); response
    case Failure(HttpException(status, detail)) => Error(status, detail)
    case Failure(TimeoutRaised) => Error(GatewayTimeout, TimeoutDetail)
    case Failure(OtherRaised(m)) => Error(InternalError, ProxyErrorPrefix + m)
  }

  /** An `HTTPException` raised inside the `try` reaches the caller unchanged, never as a 500. */
  lemma HttpExceptionReraised(src: string, fetch: string -> Upstream, status: nat, detail: string)
    requires Attempt(src, fetch) == Failure(HttpException(status, detail))
    ensures ProxyImage(src, fetch) == Error(status, detail)
  {
  }

  /** A rejected `src` is answered without consulting the upstream at all. */
  lemma InvalidSourceNeverFetched(src: string, fetch: string -> Upstream, other: string -> Upstream)
    requires !AllowedScheme(src)
    ensures ProxyImage(src, fetch) == ProxyImage(src, other) == Error(BadRequest, InvalidUrlDetail)
  {
  }

  /** The answer depends on the upstream only through the fetch of `src` itself. */
  lemma OnlySourceFetched(src: string, fetch: string -> Upstream, other: string -> Upstream)
    requires fetch(src) == other(src)
    ensures ProxyImage(src, fetch) == ProxyImage(src, other)
  {
  }

  /** The headers of a successful answer are exactly the three fixed ones, in this order. */
  lemma SuccessHeadersExact(src: string, fetch: string -> Upstream)
    requires ProxyImage(src, fetch).Image?
    ensures ProxyImage(src, fetch).headers ==
      [Header("Cache-Control", "public, max-age=86400"),
       Header("Content-Type", ProxyImage(src, fetch).mediaType),
       Header("X-Image-Proxy", "1")]
  {
  }

  /** Why a request failed, as the caller can read it from an error's `detail`. */
  datatype Diagnosis =
    | InvalidUrl
    | UpstreamStatus(status: nat)
    | TimedOut
    | ProxyFailure(message: string)

  /** The status the handler answers with for each diagnosis. */
  function StatusOf(d: Diagnosis): nat {
    match d
    case InvalidUrl => BadRequest
    case UpstreamStatus(s) => s
    case TimedOut => GatewayTimeout
    case ProxyFailure(_) => InternalError
  }

  /** Reads an error `detail` back into the failure it reports. */
  function Explain(detail: string): (d: Option<Diagnosis>)
    ensures d.Some? && d.value.UpstreamStatus? ==> detail == UpstreamDetail(d.value.status)
    ensures d.Some? && d.value.ProxyFailure? ==> detail == ProxyErrorPrefix + d.value.message
  {
    if detail == InvalidUrlDetail then Some(InvalidUrl)
    else if detail == TimeoutDetail then Some(TimedOut)
    else if StartsWith(detail, UpstreamPrefix) && Decimal.IsCanonical(detail[|UpstreamPrefix|..]) then
      var digits := detail[|UpstreamPrefix|..];
      Decimal.FromNatToNat(digits);
      assert detail == UpstreamPrefix + digits;
      Some(UpstreamStatus(Decimal.ToNat(digits)))
    else if StartsWith(detail, ProxyErrorPrefix) then
      assert detail == ProxyErrorPrefix + detail[|ProxyErrorPrefix|..];
      Some(ProxyFailure(detail[|ProxyErrorPrefix|..]))
    else None
  }

  /** The failure the handler should report for `src`, stated from the inputs alone. */
  function ExpectedDiagnosis(src: string, u: Upstream): Option<Diagnosis> {
    if !AllowedScheme(src) then Some(InvalidUrl)
    else
      match u
      case Timeout => Some(TimedOut)
      case OtherFailure(m) => Some(ProxyFailure(m))
      case Reply(s, _, _) => if s == Ok then None else Some(UpstreamStatus(s))
  }

  /** The detail of an upstream-status error reads back as that status. */
  lemma UpstreamDetailExplained(status: nat)
    ensures Explain(UpstreamDetail(status)) == Some(UpstreamStatus(status))
  {
    var digits := Decimal.FromNat(status);
    var detail := UpstreamDetail(status);
    assert detail[..|UpstreamPrefix|] == UpstreamPrefix;
    assert detail[|UpstreamPrefix|..] == digits;
    assert detail != InvalidUrlDetail && detail != TimeoutDetail by {
      assert detail[0] == 'U';
    }
    Decimal.ToNatFromNat(status);
  }

  /** The detail of a proxy failure reads back as its message. */
  lemma ProxyDetailExplained(message: string)
    ensures Explain(ProxyErrorPrefix + message) == Some(ProxyFailure(message))
  {
    var detail := ProxyErrorPrefix + message;
    assert detail[..|ProxyErrorPrefix|] == ProxyErrorPrefix;
    assert detail[|ProxyErrorPrefix|..] == message;
    assert detail[0] == 'P';
    assert !StartsWith(detail, UpstreamPrefix) && detail != InvalidUrlDetail && detail != TimeoutDetail;
  }

  /**
   * The `detail` of every raised error reads back as the failure that
   * caused it, and its status is the one that failure maps to. In
   * particular the upstream status can be recovered from the detail.
   */
  lemma ErrorExplained(src: string, fetch: string -> Upstream)
    ensures ProxyImage(src, fetch).Error? <==> ExpectedDiagnosis(src, fetch(src)).Some?
    ensures ProxyImage(src, fetch).Error? ==>
      && Explain(ProxyImage(src, fetch).detail) == ExpectedDiagnosis(src, fetch(src))
      && ProxyImage(src, fetch).status == StatusOf(ExpectedDiagnosis(src, fetch(src)).value)
  {
    if AllowedScheme(src) {
      match fetch(src)
      case Reply(s, _, _) =>
        if s != Ok {
          UpstreamDetailExplained(s);
        }
      case OtherFailure(m) =>
        ProxyDetailExplained(m);
      case Timeout =>
    }
  }

  /** Example: a valid `https` source whose upstream answers 200 with a PNG. */
  lemma AvatarRelayed(body: seq<byte>)
    ensures ProxyImage("https://example.com/avatar.png", _ => Reply(200, Some("image/png"), body))
      == Image(body, "image/png",
               [Header("Cache-Control", "public, max-age=86400"),
                Header("Content-Type", "image/png"),
                Header("X-Image-Proxy", "1")])
  {
    assert StartsWith("https://example.com/avatar.png", HttpsPrefix);
  }

  /** Example: an `ftp` source is refused with 400. */
  lemma FtpRefused(fetch: string -> Upstream)
    ensures ProxyImage("ftp://example.com/x.png", fetch) == Error(400, "Invalid URL")
  {
    var src := "ftp://example.com/x.png";
    assert src[0] == 'f' && HttpPrefix[0] == 'h' && HttpsPrefix[0] == 'h';
    assert src[..|HttpPrefix|][0] != HttpPrefix[0];
    assert src[..|HttpsPrefix|][0] != HttpsPrefix[0];
  }

  /** Example: an upstream 404 is answered with 404 and a detail naming it. */
  lemma NotFoundPassedThrough(src: string, fetch: string -> Upstream)
    requires AllowedScheme(src)
    requires fetch(src).Reply? && fetch(src).status == 404
    ensures ProxyImage(src, fetch) == Error(404, "Upstream failed: 404")
  {
    assert Decimal.FromNat(404) == "404";
  }
}
