/** Types shared by the energy-grid mock service and its client: the request
    the client builds, the responses the service answers with, and the
    message that both sides sign. */
module Protocol {

  datatype Option<T> = None | Some(value: T)

  /** The one endpoint of the service; the client signs this fixed path and
      the server routes on it. */
  const QueryPath: string := "/device/real/query"

  /** Largest `sn_list` the service accepts in one request. */
  const MaxBatch: nat := 10

  /** The HTTP method. OPTIONS is singled out because the framework answers
      it by itself on a path that has a route for some other method. */
  datatype Verb = Post | Options | OtherVerb

  /** The `sn_list` field of a JSON request body: either an array of serial
      numbers, or anything else (absent, null, an object, a string ...). */
  datatype Body = SnList(sns: seq<string>) | NotArray

  /** An HTTP request as the middleware sees it. `url` is the original URL;
      a header is `None` when it was not sent. */
  datatype Request = Request(
    verb: Verb,
    url: string,
    signature: Option<string>,
    timestamp: Option<string>,
    body: Body)

  /** One device record. The random power reading, status and update time
      the service synthesises are not modelled; only the serial number is. */
  datatype Record = Record(sn: string)

  /** Every answer the service can give, one constructor per distinct branch. */
  datatype Response =
    | RateLimited          // 429 from the rate limiter
    | MissingCredentials   // 401: a signature or timestamp header is absent or empty
    | BadSignature         // 401: the signature does not match
    | NotAnArray           // 400: sn_list is not an array
    | BatchTooLarge        // 400: sn_list has more than MaxBatch items
    | NotFound             // 404: passed both gates but no route matched
    | AllowedMethods       // 200 with `Allow: POST` and body "POST": the framework's OPTIONS reply
    | Data(data: seq<Record>)  // 200: one record per submitted serial number

  function StatusCode(r: Response): (code: int)
    ensures code == 200 <==> r.Data? || r.AllowedMethods?
    ensures code == 429 <==> r.RateLimited?
    ensures code == 401 <==> r.MissingCredentials? || r.BadSignature?
    ensures code == 400 <==> r.NotAnArray? || r.BatchTooLarge?
    ensures code == 404 <==> r.NotFound?
  {
    match r
    case RateLimited => 429
    case MissingCredentials => 401
    case BadSignature => 401
    case NotAnArray => 400
    case BatchTooLarge => 400
    case NotFound => 404
    case AllowedMethods => 200
    case Data(_) => 200
  }

  /** The string both sides digest: path, secret and timestamp concatenated
      with no delimiter. */
  function SignedMessage(path: string, secret: string, timestamp: string): (m: string)
    ensures |m| == |path| + |secret| + |timestamp|
    ensures m[..|path|] == path
    ensures m[|m| - |timestamp|..] == timestamp
  {
    path + secret + timestamp
  }

  /** JavaScript truthiness of a header value: absent and "" are both falsy. */
  predicate Present(h: Option<string>)
  {
    h.Some? && h.value != ""
  }

  /** The records the service returns for a list of serial numbers. */
  function RecordsFor(sns: seq<string>): (rs: seq<Record>)
    ensures |rs| == |sns|
    ensures forall k :: 0 <= k < |sns| ==> rs[k].sn == sns[k]
  {
    seq(|sns|, k requires 0 <= k < |sns| => Record(sns[k]))
  }
}
