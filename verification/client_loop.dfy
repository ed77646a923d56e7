/** `fetchAllData` in the shape of its source: an outer loop over batches
    and an inner loop of at most MaxAttempts attempts, with the 429, non-2xx
    and thrown branches written out separately. It is proved to compute
    exactly the functional model `Client.FetchAll`. */
module ClientLoop {
  import opened Protocol
  import opened Client
  import Decimal

  /** One iteration of the outer loop up to, not including, the
      inter-batch pause: the attempt loop for one batch. */
  method FetchBatchLoop(batch: seq<string>, tries: seq<Exchange>, token: string,
                        sign: (string, string, string) -> string)
    returns (batchFetched: bool, records: seq<Record>, events: seq<Event>)
    requires Answers(tries)
    ensures batchFetched <==> FetchBatch(batch, tries, token, sign).fetched.Some?
    ensures records == Contribution(FetchBatch(batch, tries, token, sign))
    ensures events == FetchBatch(batch, tries, token, sign).trace
  {
    ghost var whole := FetchBatch(batch, tries, token, sign);
    records := [];
    events := [];
    var attempts := 0;
    batchFetched := false;
    while !batchFetched && attempts < MaxAttempts
      invariant 0 <= attempts <= MaxAttempts
      invariant !batchFetched ==>
        && records == []
        && Attempts(batch, tries, attempts, token, sign).fetched == whole.fetched
        && events + Attempts(batch, tries, attempts, token, sign).trace == whole.trace
      invariant batchFetched ==> whole.fetched == Some(records) && events == whole.trace
      decreases MaxAttempts - attempts, if batchFetched then 0 else 1
    {
      ghost var before := events;
      ghost var rest := Attempts(batch, tries, attempts + 1, token, sign);
      attempts := attempts + 1;
      var timestamp := Decimal.Show(tries[attempts - 1].clock);
      var signature := sign(QueryPath, token, timestamp);
      var request := Request(Post, QueryPath, Some(signature), Some(timestamp), SnList(batch));
      events := events + [Sent(request)];
      var reply := tries[attempts - 1].reply;
      if reply.TransportError? {
        events := events + [Slept(RetryDelay)];
        RetryStep(before, request, rest.trace);
        continue;
      }
      if reply.status == 429 {
        events := events + [Slept(RetryDelay)];
        RetryStep(before, request, rest.trace);
        continue;
      }
      if !IsOk(reply.status) {
        events := events + [Slept(RetryDelay)];
        RetryStep(before, request, rest.trace);
        continue;
      }
      match reply.payload
      case Unusable =>
        events := events + [Slept(RetryDelay)];
        RetryStep(before, request, rest.trace);
      case DataArray(data) =>
        assert request == SignedRequest(batch, tries[attempts - 1].clock, token, sign);
        assert Attempts(batch, tries, attempts - 1, token, sign) == BatchRun(Some(data), attempts, [Sent(request)]);
        records := records + data;
        assert records == data;
        batchFetched := true;
    }
  }

  /** Appending a failed attempt's events one by one agrees with the
      functional model's prepending. */
  lemma RetryStep(before: seq<Event>, request: Request, rest: seq<Event>)
    ensures before + [Sent(request)] + [Slept(RetryDelay)] + rest == before + ([Sent(request), Slept(RetryDelay)] + rest)
  {
  }

  method FetchAllData(batches: seq<seq<string>>, net: seq<seq<Exchange>>, token: string,
                      sign: (string, string, string) -> string)
    returns (aggregatedResults: seq<Record>, trace: seq<Event>)
    requires AnswersAll(batches, net)
    ensures aggregatedResults == FetchAll(batches, net, token, sign).records
    ensures trace == FetchAll(batches, net, token, sign).trace
  {
    aggregatedResults := [];
    trace := [];
    var i := 0;
    while i < |batches|
      invariant 0 <= i <= |batches|
      invariant AnswersAll(batches[..i], net[..i])
      invariant aggregatedResults == FetchAll(batches[..i], net[..i], token, sign).records
      invariant trace == FetchAll(batches[..i], net[..i], token, sign).trace
    {
      var batchFetched, records, events := FetchBatchLoop(batches[i], net[i], token, sign);
      aggregatedResults := aggregatedResults + records;
      trace := trace + events + [Slept(InterBatchDelay)];
      NextBatch(batches, net, i, token, sign);
      i := i + 1;
    }
    assert batches[..i] == batches;
    assert net[..i] == net;
  }

  /** One more turn of the outer loop extends the fold by batch `i`. */
  lemma NextBatch(batches: seq<seq<string>>, net: seq<seq<Exchange>>, i: nat, token: string,
                  sign: (string, string, string) -> string)
    requires AnswersAll(batches, net) && i < |batches|
    ensures AnswersAll(batches[..i + 1], net[..i + 1])
    ensures var prev := FetchAll(batches[..i], net[..i], token, sign);
      var b := FetchBatch(batches[i], net[i], token, sign);
      FetchAll(batches[..i + 1], net[..i + 1], token, sign)
        == Run(prev.records + Contribution(b), prev.trace + b.trace + [Slept(InterBatchDelay)])
  {
    assert batches[..i + 1][..i] == batches[..i];
    assert net[..i + 1][..i] == net[..i];
  }
}
