/**
 * The status check shared by the two GitHub requests `req` (JSON listing) and
 * `req_zip` (log archive): a 403 reply becomes an access-forbidden error carrying
 * the reply text; every other reply goes on to decoding, whose error passes
 * through unchanged.
 */
module Request {
  import opened Wrappers

  newtype byte = x: int | 0 <= x < 256

  /** An HTTP status code as the `http` crate represents it: 100 to 999. */
  type StatusCode = s: int | 100 <= s <= 999 witness 200

  const FORBIDDEN: StatusCode := 403

  /**
   * The reply `send()` hands back, after the client's automatic redirect
   * following: its status and its body, seen both as text (`text()`) and as
   * raw bytes (`bytes()`, which `json()` also decodes).
   */
  datatype Response = Response(status: StatusCode, text: string, bytes: seq<byte>)

  /** Error for a reply the API refused with 403; `details` is the reply text. */
  datatype AccessForbiddenError = AccessForbiddenError(details: string)
  {
    /** What `Display` writes: the details and nothing else. */
    function ToString(): string {
      details
    }
  }

  /** The boxed error of a request: the 403 error, or a decoder error passed through. */
  datatype ReqError<+E> = AccessForbidden(forbidden: AccessForbiddenError) | Decoding(cause: E)

  /** Builds the 403 error from the reply text, copied verbatim. */
  function NewAccessForbiddenError(msg: string): (e: AccessForbiddenError)
    ensures e.ToString() == msg
  {
    AccessForbiddenError(msg)
  }

  /** Passes a decoder's result on, wrapping only its error. */
  function Propagate<T, E>(decoded: Result<T, E>): Result<T, ReqError<E>>
  {
    match decoded
    case Ok(v) => Ok(v)
    case Err(e) => Err(Decoding(e))
  }

  /**
   * `req`: the reply to a JSON request, decoded by `json` unless it is a 403.
   * Only a 403 yields `AccessForbidden`, and then with the reply text; any other
   * status yields exactly what the decoder yields.
   */
  function Req<T, E>(resp: Response, json: seq<byte> -> Result<T, E>): (r: Result<T, ReqError<E>>)
    ensures (r.Err? && r.error.AccessForbidden?) <==> resp.status == FORBIDDEN
    ensures resp.status == FORBIDDEN ==> r.error.forbidden.ToString() == resp.text
    ensures resp.status != FORBIDDEN ==> (r.Ok? <==> json(resp.bytes).Ok?)
    ensures resp.status != FORBIDDEN && r.Ok? ==> r.value == json(resp.bytes).value
    ensures resp.status != FORBIDDEN && r.Err? ==> r.error == Decoding(json(resp.bytes).error)
  {
    if resp.status == FORBIDDEN then
      Err(AccessForbidden(NewAccessForbiddenError(resp.text)))
    else
      Propagate(json(resp.bytes))
  }

  /**
   * `req_zip`: the reply to an archive request, opened by `openZip` unless it
   * is a 403, with the same classification as `Req`.
   */
  function ReqZip<A, E>(resp: Response, openZip: seq<byte> -> Result<A, E>): (r: Result<A, ReqError<E>>)
    ensures (r.Err? && r.error.AccessForbidden?) <==> resp.status == FORBIDDEN
    ensures resp.status == FORBIDDEN ==> r.error.forbidden.ToString() == resp.text
    ensures resp.status != FORBIDDEN ==> (r.Ok? <==> openZip(resp.bytes).Ok?)
    ensures resp.status != FORBIDDEN && r.Ok? ==> r.value == openZip(resp.bytes).value
    ensures resp.status != FORBIDDEN && r.Err? ==> r.error == Decoding(openZip(resp.bytes).error)
  {
    if resp.status == FORBIDDEN then
      Err(AccessForbidden(NewAccessForbiddenError(resp.text)))
    else
      var zipBytes := resp.bytes;
      Propagate(openZip(zipBytes))
  }

  /**
   * No status is special-cased but 403: two replies with the same body and
   * statuses other than 403 (a 200, a 404, a 500, or a 3xx the client did not
   * follow) are decoded identically.
   */
  lemma OnlyForbiddenIsSpecial<T, E>(a: Response, b: Response, json: seq<byte> -> Result<T, E>)
    requires a.status != FORBIDDEN && b.status != FORBIDDEN
    requires a.bytes == b.bytes
    ensures Req(a, json) == Req(b, json)
    ensures ReqZip(a, json) == ReqZip(b, json)
  {
  }
}
