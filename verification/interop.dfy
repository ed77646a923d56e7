/** How the client's requests fare at the service: the client's signing
    agrees with the server's check when both use the same digest and
    secret, a batch of at most MaxBatch serial numbers is answered with one
    record per serial number, and every rejection the service can give
    lands on the client's retry path. */
module Interop {
  import opened Protocol
  import Server
  import Client
  import Decimal

  /** The reply the client reads for a service response: its status code,
      and a `data` array only on a 200 (error bodies carry no `data`). */
  function Deliver(r: Response): (reply: Client.Reply)
    ensures reply.Answered? && reply.status == StatusCode(r)
    ensures reply.payload.DataArray? <==> r.Data?
    ensures r.Data? ==> reply.payload.records == r.data
  {
    Client.Answered(StatusCode(r), if r.Data? then Client.DataArray(r.data) else Client.Unusable)
  }

  /** The client's signing function computes the scheme the server checks:
      the digest of path, secret and timestamp concatenated. */
  ghost predicate SignsLikeServer(sign: (string, string, string) -> string, hash: string -> string)
  {
    forall p, t, ts :: sign(p, t, ts) == hash(SignedMessage(p, t, ts))
  }

  /** Digests are never the empty string (an MD5 hex digest has 32
      characters), so a signature header is always truthy. */
  ghost predicate NonEmptyDigests(hash: string -> string)
  {
    forall m :: hash(m) != ""
  }

  /** A request the client builds with the server's secret passes the
      signature gate. */
  lemma ClientRequestAuthentic(batch: seq<string>, clock: nat, sign: (string, string, string) -> string,
                               hash: string -> string)
    requires SignsLikeServer(sign, hash) && NonEmptyDigests(hash)
    ensures Server.Authentic(Client.SignedRequest(batch, clock, Server.SecretToken, sign), hash)
  {
  }

  /** An admitted client request for a batch of at most MaxBatch serial
      numbers takes the rate-limit slot and is answered with data the
      client accepts: one record per serial number, in order. */
  lemma ClientBatchServed(last: int, now: int, batch: seq<string>, clock: nat,
                          sign: (string, string, string) -> string, hash: string -> string)
    requires SignsLikeServer(sign, hash) && NonEmptyDigests(hash)
    requires now - last >= Server.RateWindow && |batch| <= MaxBatch
    ensures var s := Server.Handle(last, now, Client.SignedRequest(batch, clock, Server.SecretToken, sign), hash);
      && s.last == now
      && Client.Classify(Deliver(s.response)).Fetched?
      && |Client.Classify(Deliver(s.response)).records| == |batch|
      && forall k :: 0 <= k < |batch| ==> Client.Classify(Deliver(s.response)).records[k].sn == batch[k]
  {
    ClientRequestAuthentic(batch, clock, sign, hash);
  }

  /** Every response other than data — 429, both 401s, both 400s, 404 and
      the OPTIONS reply, whose body is not JSON — is a retry for the
      client; a 400 is retried like a 429 although the unchanged request
      can never succeed. */
  lemma RejectionsAreRetried(r: Response)
    requires !r.Data?
    ensures Client.Classify(Deliver(r)).Retry?
  {
  }

  /** A batch of more than MaxBatch serial numbers is never served data,
      whatever the limiter state, clock or signature: every attempt at it
      is retried. */
  lemma OversizedBatchNeverServed(last: int, now: int, batch: seq<string>, clock: nat, token: string,
                                  sign: (string, string, string) -> string, hash: string -> string)
    requires |batch| > MaxBatch
    ensures var s := Server.Handle(last, now, Client.SignedRequest(batch, clock, token, sign), hash);
      Client.Classify(Deliver(s.response)).Retry?
  {
  }

  /** A client signing with the server's scheme is turned away with the
      invalid-signature 401 exactly when its token's digest differs from
      the one the server recomputes with its own secret, for the same path
      and timestamp. */
  lemma WrongTokenRejected(batch: seq<string>, clock: nat, token: string,
                           sign: (string, string, string) -> string, hash: string -> string)
    requires SignsLikeServer(sign, hash) && NonEmptyDigests(hash)
    ensures Server.CheckSignature(Client.SignedRequest(batch, clock, token, sign), hash) == Some(BadSignature)
      <==> hash(SignedMessage(QueryPath, token, Decimal.Show(clock)))
           != hash(SignedMessage(QueryPath, Server.SecretToken, Decimal.Show(clock)))
  {
  }

  /** For an idealised digest that tells every two messages apart, any
      token other than the server's secret is rejected with the
      invalid-signature 401. MD5 is not injective; this is the intended
      behaviour, not a guarantee. */
  lemma WrongTokenRejectedByInjectiveDigest(batch: seq<string>, clock: nat, token: string,
                                            sign: (string, string, string) -> string, hash: string -> string)
    requires SignsLikeServer(sign, hash) && NonEmptyDigests(hash)
    requires forall a, b :: hash(a) == hash(b) ==> a == b
    requires token != Server.SecretToken
    ensures Server.CheckSignature(Client.SignedRequest(batch, clock, token, sign), hash) == Some(BadSignature)
  {
    WrongTokenRejected(batch, clock, token, sign, hash);
    SecretDeterminedByMessage(QueryPath, token, Server.SecretToken, Decimal.Show(clock));
  }

  /** With path and timestamp fixed, the signed message determines the
      secret. */
  lemma SecretDeterminedByMessage(path: string, a: string, b: string, ts: string)
    ensures SignedMessage(path, a, ts) == SignedMessage(path, b, ts) <==> a == b
  {
    var m := SignedMessage(path, a, ts);
    var n := SignedMessage(path, b, ts);
    if m == n {
      assert m[|path|..|m| - |ts|] == a;
      assert n[|path|..|n| - |ts|] == b;
    }
  }
}
