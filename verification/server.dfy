/** The mock service's request pipeline: a global rate limiter, then the
    signature check, then the query handler, applied in that order to every
    request. The limiter's `lastRequestTime` is the only state; a request is
    modelled as a pure transition from the old value to the new value and a
    response. MD5 is the parameter `hash`. */
module Server {
  import opened Protocol

  const SecretToken: string := "interview_token_123"

  /** Minimum spacing, in milliseconds, between two admitted requests. */
  const RateWindow: int := 950

  /** Value of `lastRequestTime` when the service starts. */
  const InitialLastRequestTime: int := 0

  /** Outcome of the rate limiter: whether the request passes, and the new
      `lastRequestTime`. */
  datatype Admission = Admission(admitted: bool, last: int)

  function RateLimit(last: int, now: int): (a: Admission)
    ensures a.admitted <==> now - last >= RateWindow
    ensures !a.admitted ==> a.last == last
    ensures a.admitted ==> a.last == now
  {
    if now - last < RateWindow then Admission(false, last) else Admission(true, now)
  }

  /** Reference definition of an authenticated request: both headers are
      truthy and the signature is exactly the digest the server recomputes
      from the request's own URL, its secret and the supplied timestamp. */
  predicate Authentic(req: Request, hash: string -> string)
  {
    && Present(req.signature)
    && Present(req.timestamp)
    && req.signature.value == hash(SignedMessage(req.url, SecretToken, req.timestamp.value))
  }

  /** The signature middleware: `None` lets the request through, `Some(r)`
      ends it with `r`. */
  function CheckSignature(req: Request, hash: string -> string): (rejection: Option<Response>)
    ensures rejection.None? <==> Authentic(req, hash)
    ensures rejection.Some? ==> StatusCode(rejection.value) == 401
    ensures !Present(req.signature) || !Present(req.timestamp) ==> rejection == Some(MissingCredentials)
    ensures Present(req.signature) && Present(req.timestamp) && !Authentic(req, hash) ==> rejection == Some(BadSignature)
  {
    if !Present(req.signature) || !Present(req.timestamp) then
      Some(MissingCredentials)
    else if req.signature.value != hash(SignedMessage(req.url, SecretToken, req.timestamp.value)) then
      Some(BadSignature)
    else
      None
  }

  /** A body the query handler accepts: an array of at most MaxBatch items. */
  predicate ValidBody(body: Body)
  {
    body.SnList? && |body.sns| <= MaxBatch
  }

  /** The `/device/real/query` handler. */
  function Query(body: Body): (r: Response)
    ensures r.Data? <==> ValidBody(body)
    ensures r.Data? ==> |r.data| == |body.sns|
    ensures r.Data? ==> forall k :: 0 <= k < |r.data| ==> r.data[k].sn == body.sns[k]
    ensures body.NotArray? ==> r == NotAnArray
    ensures body.SnList? && |body.sns| > MaxBatch ==> r == BatchTooLarge
  {
    match body
    case NotArray => NotAnArray
    case SnList(sns) => if |sns| > MaxBatch then BatchTooLarge else Data(RecordsFor(sns))
  }

  /** The one route the service declares: POST on the query path. */
  predicate RouteMatches(req: Request)
  {
    req.verb == Post && req.url == QueryPath
  }

  /** An OPTIONS request on the query path, which the framework answers by
      itself with the methods the path has a route for. */
  predicate OptionsProbe(req: Request)
  {
    req.verb == Options && req.url == QueryPath
  }

  /** What follows the two middlewares: the handler when the route matches,
      the framework's automatic `Allow: POST` reply to OPTIONS on the query
      path, otherwise the framework's 404. */
  function Route(req: Request): (r: Response)
    ensures r.Data? <==> RouteMatches(req) && ValidBody(req.body)
    ensures StatusCode(r) == 400 <==> RouteMatches(req) && !ValidBody(req.body)
    ensures r == AllowedMethods <==> OptionsProbe(req)
    ensures r == NotFound <==> !RouteMatches(req) && !OptionsProbe(req)
  {
    if RouteMatches(req) then Query(req.body)
    else if OptionsProbe(req) then AllowedMethods
    else NotFound
  }

  datatype Step = Step(last: int, response: Response)

  /** One request through the whole pipeline at server time `now`. */
  function Handle(last: int, now: int, req: Request, hash: string -> string): (s: Step)
    ensures s.response.RateLimited? ==> s.last == last
    ensures !s.response.RateLimited? ==> s.last == now
  {
    var a := RateLimit(last, now);
    if !a.admitted then
      Step(a.last, RateLimited)
    else
      match CheckSignature(req, hash)
      case Some(rejection) => Step(a.last, rejection)
      case None => Step(a.last, Route(req))
  }

  /** The gates apply in the order 429, 401, then routing, then 400: each
      outcome is produced exactly when every earlier gate passed and this
      one decided, and an admitted request takes the rate-limit slot
      whatever follows. An OPTIONS probe only gets the framework's reply
      after passing both middlewares. */
  lemma GateOrder(last: int, now: int, req: Request, hash: string -> string)
    ensures var s := Handle(last, now, req, hash);
      && (StatusCode(s.response) == 429 <==> now - last < RateWindow)
      && (StatusCode(s.response) == 401 <==> now - last >= RateWindow && !Authentic(req, hash))
      && (StatusCode(s.response) == 404 <==>
            now - last >= RateWindow && Authentic(req, hash) && !RouteMatches(req) && !OptionsProbe(req))
      && (s.response == AllowedMethods <==> now - last >= RateWindow && Authentic(req, hash) && OptionsProbe(req))
      && (StatusCode(s.response) == 400 <==>
            now - last >= RateWindow && Authentic(req, hash) && RouteMatches(req) && !ValidBody(req.body))
      && (s.response.Data? <==>
            now - last >= RateWindow && Authentic(req, hash) && RouteMatches(req) && ValidBody(req.body))
      && s.last == (if now - last < RateWindow then last else now)
  {
  }

  /** With both headers present, the signature gate passes exactly when the
      supplied signature equals the recomputed digest. */
  lemma SignatureGate(req: Request, hash: string -> string)
    requires Present(req.signature) && Present(req.timestamp)
    ensures CheckSignature(req, hash).None? <==>
      req.signature.value == hash(req.url + SecretToken + req.timestamp.value)
  {
  }

  /** A request arriving at server time `now`. */
  datatype Arrival = Arrival(now: int, request: Request)

  datatype Trace = Trace(last: int, responses: seq<Response>)

  /** A sequence of requests handled one after another (Node runs the
      middleware on one thread), starting from `lastRequestTime == last`. */
  function Serve(last: int, arrivals: seq<Arrival>, hash: string -> string): (t: Trace)
    ensures |t.responses| == |arrivals|
    ensures t.last >= last
    decreases |arrivals|
  {
    if |arrivals| == 0 then
      Trace(last, [])
    else
      var s := Handle(last, arrivals[0].now, arrivals[0].request, hash);
      var rest := Serve(s.last, arrivals[1..], hash);
      Trace(rest.last, [s.response] + rest.responses)
  }

  /** Every admitted request arrived at least a window after the starting
      state, and the final state is no earlier than any admitted arrival. */
  lemma {:induction false} AdmittedAfterWindow(last: int, arrivals: seq<Arrival>, hash: string -> string)
    ensures var t := Serve(last, arrivals, hash);
      forall i :: 0 <= i < |arrivals| && !t.responses[i].RateLimited? ==>
        arrivals[i].now - last >= RateWindow && t.last >= arrivals[i].now
    decreases |arrivals|
  {
    if |arrivals| > 0 {
      var s := Handle(last, arrivals[0].now, arrivals[0].request, hash);
      var rest := arrivals[1..];
      AdmittedAfterWindow(s.last, rest, hash);
      var t := Serve(last, arrivals, hash);
      var u := Serve(s.last, rest, hash);
      forall i | 0 <= i < |arrivals| && !t.responses[i].RateLimited?
        ensures arrivals[i].now - last >= RateWindow && t.last >= arrivals[i].now
      {
        if i > 0 {
          assert t.responses[i] == u.responses[i - 1];
          assert arrivals[i] == rest[i - 1];
        }
      }
    }
  }

  /** Any two admitted requests, not only consecutive ones, are at least a
      window apart in arrival order. This holds whatever the clock does:
      a reading earlier than `lastRequestTime` is rejected. */
  lemma {:induction false} AdmittedSpacing(last: int, arrivals: seq<Arrival>, hash: string -> string)
    ensures var t := Serve(last, arrivals, hash);
      forall i, j :: 0 <= i < j < |arrivals| && !t.responses[i].RateLimited? && !t.responses[j].RateLimited? ==>
        arrivals[j].now - arrivals[i].now >= RateWindow
    decreases |arrivals|
  {
    if |arrivals| > 0 {
      var s := Handle(last, arrivals[0].now, arrivals[0].request, hash);
      var rest := arrivals[1..];
      AdmittedSpacing(s.last, rest, hash);
      AdmittedAfterWindow(s.last, rest, hash);
      var t := Serve(last, arrivals, hash);
      var u := Serve(s.last, rest, hash);
      forall i, j | 0 <= i < j < |arrivals| && !t.responses[i].RateLimited? && !t.responses[j].RateLimited?
        ensures arrivals[j].now - arrivals[i].now >= RateWindow
      {
        assert t.responses[j] == u.responses[j - 1];
        assert arrivals[j] == rest[j - 1];
        if i > 0 {
          assert t.responses[i] == u.responses[i - 1];
          assert arrivals[i] == rest[i - 1];
        }
      }
    }
  }

  /** Of two requests arriving less than a window apart, at most one is
      admitted. */
  lemma AtMostOneInWindow(last: int, arrivals: seq<Arrival>, hash: string -> string, i: nat, j: nat)
    requires i < |arrivals| && j < |arrivals| && i != j
    requires -RateWindow < arrivals[j].now - arrivals[i].now < RateWindow
    ensures var t := Serve(last, arrivals, hash);
      t.responses[i].RateLimited? || t.responses[j].RateLimited?
  {
    AdmittedSpacing(last, arrivals, hash);
  }

  /** Arrivals each at least a window after the previous one (the first at
      least a window after the starting state) are all admitted. */
  lemma {:induction false} SpacedArrivalsAdmitted(last: int, arrivals: seq<Arrival>, hash: string -> string)
    requires |arrivals| > 0 ==> arrivals[0].now - last >= RateWindow
    requires forall i :: 0 < i < |arrivals| ==> arrivals[i].now - arrivals[i - 1].now >= RateWindow
    ensures forall i :: 0 <= i < |arrivals| ==> !Serve(last, arrivals, hash).responses[i].RateLimited?
    decreases |arrivals|
  {
    if |arrivals| > 0 {
      var s := Handle(last, arrivals[0].now, arrivals[0].request, hash);
      var rest := arrivals[1..];
      assert s.last == arrivals[0].now;
      assert forall i :: 0 < i < |rest| ==> rest[i] == arrivals[i + 1] && rest[i - 1] == arrivals[i];
      SpacedArrivalsAdmitted(s.last, rest, hash);
      var t := Serve(last, arrivals, hash);
      var u := Serve(s.last, rest, hash);
      forall i | 0 < i < |arrivals|
        ensures !t.responses[i].RateLimited?
      {
        assert t.responses[i] == u.responses[i - 1];
      }
    }
  }

  /** A rejected request does not move the window: a request at least a
      window after the starting state and after every request admitted
      before it is admitted, however many rejected requests came between. */
  lemma {:induction false} AdmittedAfterLastAdmitted(last: int, arrivals: seq<Arrival>, hash: string -> string, i: nat)
    requires i < |arrivals| && arrivals[i].now - last >= RateWindow
    requires forall j :: 0 <= j < i && !Serve(last, arrivals, hash).responses[j].RateLimited? ==>
      arrivals[i].now - arrivals[j].now >= RateWindow
    ensures !Serve(last, arrivals, hash).responses[i].RateLimited?
    decreases i
  {
    var t := Serve(last, arrivals, hash);
    var s := Handle(last, arrivals[0].now, arrivals[0].request, hash);
    var rest := arrivals[1..];
    var u := Serve(s.last, rest, hash);
    assert t.responses == [s.response] + u.responses;
    if i > 0 {
      assert s.last == last || (!t.responses[0].RateLimited? && s.last == arrivals[0].now);
      forall j | 0 <= j < i - 1 && !u.responses[j].RateLimited?
        ensures rest[i - 1].now - rest[j].now >= RateWindow
      {
        assert t.responses[j + 1] == u.responses[j];
      }
      AdmittedAfterLastAdmitted(s.last, rest, hash, i - 1);
      assert t.responses[i] == u.responses[i - 1];
    }
  }

  /** From the service's start (`lastRequestTime` is 0) the first request
      is admitted exactly when its clock reading is at least a window past
      the epoch; a real `Date.now()` always is. */
  lemma FirstRequestAfterStartup(arrivals: seq<Arrival>, hash: string -> string)
    requires |arrivals| > 0
    ensures !Serve(InitialLastRequestTime, arrivals, hash).responses[0].RateLimited? <==> arrivals[0].now >= RateWindow
  {
    var s := Handle(InitialLastRequestTime, arrivals[0].now, arrivals[0].request, hash);
    GateOrder(InitialLastRequestTime, arrivals[0].now, arrivals[0].request, hash);
    assert s.response.RateLimited? <==> StatusCode(s.response) == 429;
  }
}
