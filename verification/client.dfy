/** The client's batch fetch engine (`fetchAllData`) as a pure function of
    its environment. The network is an oracle: for each batch, the clock
    reading and the reply of every attempt the client could make. Sleeping
    appends the delay to an event trace, and sending appends the request. */
module Client {
  import opened Protocol
  import Decimal

  /** Attempts per batch before the batch is given up. */
  const MaxAttempts: nat := 5

  /** Pause after a failed attempt, in milliseconds. */
  const RetryDelay: nat := 1500

  /** Pause after every batch, whatever its outcome, in milliseconds. */
  const InterBatchDelay: nat := 1000

  /** The body of a 2xx reply as the client reads it: a `data` array of
      records, or something `response.json()` or the spread of `data.data`
      throws on. A `data` string, which the spread accepts character by
      character, is not represented. */
  datatype Payload = DataArray(records: seq<Record>) | Unusable

  /** What an attempt's `fetch` produced: an HTTP answer, or a thrown
      transport error. */
  datatype Reply = Answered(status: int, payload: Payload) | TransportError

  /** One attempt as seen from the client: the clock reading used for its
      timestamp, and the network's reply. */
  datatype Exchange = Exchange(clock: nat, reply: Reply)

  datatype RetryReason = Throttled | HttpFailure | Thrown

  /** How an attempt ends: with records, or with a retry. */
  datatype Verdict = Fetched(records: seq<Record>) | Retry(reason: RetryReason)

  /** Observable effects of the client, in order. */
  datatype Event = Sent(request: Request) | Slept(ms: nat)

  predicate IsOk(status: int)
  {
    200 <= status <= 299
  }

  /** The three ways an attempt fails — 429, another non-2xx status, a
      thrown error (including an unreadable 2xx body) — and the one way it
      succeeds. */
  function Classify(reply: Reply): (v: Verdict)
    ensures v.Fetched? <==> reply.Answered? && IsOk(reply.status) && reply.payload.DataArray?
    ensures v.Fetched? ==> v.records == reply.payload.records
    ensures reply.Answered? && reply.status == 429 ==> v == Retry(Throttled)
  {
    match reply
    case TransportError => Retry(Thrown)
    case Answered(status, payload) =>
      if status == 429 then Retry(Throttled)
      else if !IsOk(status) then Retry(HttpFailure)
      else match payload
        case DataArray(records) => Fetched(records)
        case Unusable => Retry(Thrown)
  }

  /** The request one attempt sends: a fresh decimal timestamp from this
      attempt's clock reading, a signature over the fixed path, the token
      and that timestamp, and the batch as `sn_list`. The signing function
      and the token are parameters. */
  function SignedRequest(batch: seq<string>, clock: nat, token: string,
                         sign: (string, string, string) -> string): (req: Request)
    ensures req.verb == Post && req.url == QueryPath && req.body == SnList(batch)
    ensures req.timestamp == Some(Decimal.Show(clock)) && Present(req.timestamp)
    ensures req.signature == Some(sign(QueryPath, token, Decimal.Show(clock)))
  {
    var timestamp := Decimal.Show(clock);
    Request(Post, QueryPath, Some(sign(QueryPath, token, timestamp)), Some(timestamp), SnList(batch))
  }

  /** Result of one batch: the records it contributed (`None` when it
      failed permanently), the number of attempts used, and its events. */
  datatype BatchRun = BatchRun(fetched: Option<seq<Record>>, attempts: nat, trace: seq<Event>)

  /** A network oracle answers every attempt a batch can make. */
  predicate Answers(tries: seq<Exchange>)
  {
    |tries| >= MaxAttempts
  }

  /** The attempt loop from attempt number `attempts` on (attempts already
      made count as consumed). */
  function Attempts(batch: seq<string>, tries: seq<Exchange>, attempts: nat, token: string,
                    sign: (string, string, string) -> string): (r: BatchRun)
    requires Answers(tries) && attempts <= MaxAttempts
    ensures attempts <= r.attempts <= MaxAttempts
    ensures attempts < MaxAttempts ==> attempts < r.attempts
    ensures r.fetched.None? ==> r.attempts == MaxAttempts
    ensures |r.trace| == 2 * (r.attempts - attempts) - (if r.fetched.Some? then 1 else 0)
    decreases MaxAttempts - attempts
  {
    if attempts == MaxAttempts then
      BatchRun(None, MaxAttempts, [])
    else
      var t := tries[attempts];
      var sent := Sent(SignedRequest(batch, t.clock, token, sign));
      match Classify(t.reply)
      case Fetched(records) => BatchRun(Some(records), attempts + 1, [sent])
      case Retry(_) =>
        var rest := Attempts(batch, tries, attempts + 1, token, sign);
        BatchRun(rest.fetched, rest.attempts, [sent, Slept(RetryDelay)] + rest.trace)
  }

  /** One batch, from its first attempt. */
  function FetchBatch(batch: seq<string>, tries: seq<Exchange>, token: string,
                      sign: (string, string, string) -> string): (r: BatchRun)
    requires Answers(tries)
    ensures 1 <= r.attempts <= MaxAttempts
    ensures r.fetched.None? ==> r.attempts == MaxAttempts
  {
    Attempts(batch, tries, 0, token, sign)
  }

  /** What a batch adds to `aggregatedResults`. */
  function Contribution(b: BatchRun): (rs: seq<Record>)
  {
    if b.fetched.Some? then b.fetched.value else []
  }

  /** Reference definition: the first attempt, among the first MaxAttempts,
      whose reply is a success. */
  function FirstSuccess(tries: seq<Exchange>, from: nat): (k: Option<nat>)
    requires Answers(tries) && from <= MaxAttempts
    ensures k.Some? ==> from <= k.value < MaxAttempts && Classify(tries[k.value].reply).Fetched?
    ensures k.Some? ==> forall j :: from <= j < k.value ==> Classify(tries[j].reply).Retry?
    ensures k.None? ==> forall j :: from <= j < MaxAttempts ==> Classify(tries[j].reply).Retry?
    decreases MaxAttempts - from
  {
    if from == MaxAttempts then None
    else if Classify(tries[from].reply).Fetched? then Some(from)
    else FirstSuccess(tries, from + 1)
  }

  /** The attempt loop stops right after the first success: the batch
      yields exactly that attempt's records and uses exactly that many
      attempts; with no success among the first MaxAttempts it yields
      nothing after MaxAttempts attempts. */
  lemma {:induction false} AttemptsStopAtFirstSuccess(batch: seq<string>, tries: seq<Exchange>, from: nat,
                                                      token: string, sign: (string, string, string) -> string)
    requires Answers(tries) && from <= MaxAttempts
    ensures var r := Attempts(batch, tries, from, token, sign);
      match FirstSuccess(tries, from)
      case Some(k) => r.fetched == Some(Classify(tries[k].reply).records) && r.attempts == k + 1
      case None => r.fetched == None && r.attempts == MaxAttempts
    decreases MaxAttempts - from
  {
    if from < MaxAttempts && Classify(tries[from].reply).Retry? {
      AttemptsStopAtFirstSuccess(batch, tries, from + 1, token, sign);
    }
  }

  /** Records are appended exactly once when some attempt among the first
      MaxAttempts succeeds, and never otherwise. */
  lemma BatchFetchedIffSomeAttemptSucceeds(batch: seq<string>, tries: seq<Exchange>, token: string,
                                           sign: (string, string, string) -> string)
    requires Answers(tries)
    ensures var r := FetchBatch(batch, tries, token, sign);
      && (r.fetched.Some? <==> exists k :: 0 <= k < MaxAttempts && Classify(tries[k].reply).Fetched?)
      && (r.fetched.Some? ==> Classify(tries[r.attempts - 1].reply) == Fetched(r.fetched.value))
      && (r.fetched.Some? ==> forall j :: 0 <= j < r.attempts - 1 ==> Classify(tries[j].reply).Retry?)
  {
    AttemptsStopAtFirstSuccess(batch, tries, 0, token, sign);
  }

  /** Failed attempts `lo` .. `hi - 1`: each one the request built from
      that attempt's clock reading, followed by a retry pause. */
  function RetryRounds(batch: seq<string>, tries: seq<Exchange>, lo: nat, hi: nat, token: string,
                       sign: (string, string, string) -> string): (es: seq<Event>)
    requires lo <= hi <= |tries|
    ensures |es| == 2 * (hi - lo)
    decreases hi - lo
  {
    if lo == hi then []
    else [Sent(SignedRequest(batch, tries[lo].clock, token, sign)), Slept(RetryDelay)]
         + RetryRounds(batch, tries, lo + 1, hi, token, sign)
  }

  /** The events of a batch that succeeds: one signed request per attempt,
      each built from that attempt's own clock reading, with a 1500 ms
      pause after each failed attempt and none after the successful one. */
  lemma {:induction false} FetchedBatchTrace(batch: seq<string>, tries: seq<Exchange>, from: nat,
                                             token: string, sign: (string, string, string) -> string)
    requires Answers(tries) && from <= MaxAttempts
    requires Attempts(batch, tries, from, token, sign).fetched.Some?
    ensures var r := Attempts(batch, tries, from, token, sign);
      r.trace == RetryRounds(batch, tries, from, r.attempts - 1, token, sign)
                 + [Sent(SignedRequest(batch, tries[r.attempts - 1].clock, token, sign))]
    decreases MaxAttempts - from
  {
    if Classify(tries[from].reply).Retry? {
      RetryUnfold(batch, tries, from, token, sign);
      FetchedBatchTrace(batch, tries, from + 1, token, sign);
    }
  }

  /** One failed attempt: its send and pause come first, and the rest of
      the loop decides the outcome. */
  lemma RetryUnfold(batch: seq<string>, tries: seq<Exchange>, from: nat,
                    token: string, sign: (string, string, string) -> string)
    requires Answers(tries) && from < MaxAttempts
    requires Classify(tries[from].reply).Retry?
    ensures var r := Attempts(batch, tries, from, token, sign);
      var rest := Attempts(batch, tries, from + 1, token, sign);
      && r.fetched == rest.fetched
      && r.attempts == rest.attempts
      && r.trace == [Sent(SignedRequest(batch, tries[from].clock, token, sign)), Slept(RetryDelay)] + rest.trace
  {
  }

  /** The events of a batch that fails: one signed request per attempt,
      each followed by a 1500 ms pause, for every remaining attempt. */
  lemma {:induction false} FailedBatchTrace(batch: seq<string>, tries: seq<Exchange>, from: nat,
                                            token: string, sign: (string, string, string) -> string)
    requires Answers(tries) && from <= MaxAttempts
    requires Attempts(batch, tries, from, token, sign).fetched.None?
    ensures Attempts(batch, tries, from, token, sign).trace == RetryRounds(batch, tries, from, MaxAttempts, token, sign)
    decreases MaxAttempts - from
  {
    if from < MaxAttempts {
      RetryUnfold(batch, tries, from, token, sign);
      FailedBatchTrace(batch, tries, from + 1, token, sign);
    }
  }

  /** With every remaining attempt failing, the loop runs to the attempt
      limit and yields nothing. */
  lemma {:induction false} NoSuccessNoRecords(batch: seq<string>, tries: seq<Exchange>, from: nat,
                                              token: string, sign: (string, string, string) -> string)
    requires Answers(tries) && from <= MaxAttempts
    requires forall k :: from <= k < MaxAttempts ==> Classify(tries[k].reply).Retry?
    ensures Attempts(batch, tries, from, token, sign).fetched == None
    decreases MaxAttempts - from
  {
    if from < MaxAttempts {
      NoSuccessNoRecords(batch, tries, from + 1, token, sign);
    }
  }

  /** A batch whose every attempt fails sends five signed requests, each
      followed by a 1500 ms pause, and contributes nothing. */
  lemma PermanentFailureTrace(batch: seq<string>, tries: seq<Exchange>, token: string,
                              sign: (string, string, string) -> string)
    requires Answers(tries)
    requires forall k :: 0 <= k < MaxAttempts ==> Classify(tries[k].reply).Retry?
    ensures var r := FetchBatch(batch, tries, token, sign);
      && r.fetched == None
      && r.attempts == MaxAttempts
      && |r.trace| == 2 * MaxAttempts
      && forall k :: 0 <= k < MaxAttempts ==>
           r.trace[2 * k] == Sent(SignedRequest(batch, tries[k].clock, token, sign))
           && r.trace[2 * k + 1] == Slept(RetryDelay)
  {
    NoSuccessNoRecords(batch, tries, 0, token, sign);
    FailedBatchTrace(batch, tries, 0, token, sign);
    var r := FetchBatch(batch, tries, token, sign);
    forall k | 0 <= k < MaxAttempts
      ensures r.trace[2 * k] == Sent(SignedRequest(batch, tries[k].clock, token, sign))
      ensures r.trace[2 * k + 1] == Slept(RetryDelay)
    {
      RetryRoundsAt(batch, tries, 0, MaxAttempts, k, token, sign);
    }
  }

  lemma {:induction false} RetryRoundsAt(batch: seq<string>, tries: seq<Exchange>, lo: nat, hi: nat, k: nat,
                                         token: string, sign: (string, string, string) -> string)
    requires lo <= hi <= |tries| && k < hi - lo
    ensures RetryRounds(batch, tries, lo, hi, token, sign)[2 * k] == Sent(SignedRequest(batch, tries[lo + k].clock, token, sign))
    ensures RetryRounds(batch, tries, lo, hi, token, sign)[2 * k + 1] == Slept(RetryDelay)
    decreases k
  {
    if k > 0 {
      RetryRoundsAt(batch, tries, lo + 1, hi, k - 1, token, sign);
    }
  }

  /** 429, any other non-2xx status and a thrown error are treated alike:
      replacing one failed reply by another failed reply of any kind, at
      the same clock reading, changes nothing the client does. */
  lemma {:induction false} RetryReasonsAlike(batch: seq<string>, tries: seq<Exchange>, tries': seq<Exchange>,
                                             from: nat, token: string, sign: (string, string, string) -> string)
    requires Answers(tries) && |tries'| == |tries| && from <= MaxAttempts
    requires forall k :: 0 <= k < |tries| ==> tries[k].clock == tries'[k].clock
    requires forall k :: 0 <= k < |tries| ==>
      (Classify(tries[k].reply).Retry? && Classify(tries'[k].reply).Retry?) || tries[k].reply == tries'[k].reply
    ensures Attempts(batch, tries, from, token, sign) == Attempts(batch, tries', from, token, sign)
    decreases MaxAttempts - from
  {
    if from < MaxAttempts {
      RetryReasonsAlike(batch, tries, tries', from + 1, token, sign);
    }
  }

  /** The state `fetchAllData` keeps: `aggregatedResults` and the events. */
  datatype Run = Run(records: seq<Record>, trace: seq<Event>)

  /** The network oracle answers every batch. */
  predicate AnswersAll(batches: seq<seq<string>>, net: seq<seq<Exchange>>)
  {
    |net| == |batches| && forall i :: 0 <= i < |net| ==> Answers(net[i])
  }

  /** The outer loop over batches, as a fold over the batches in order:
      every batch runs its attempt loop and is followed by one
      inter-batch pause. */
  function FetchAll(batches: seq<seq<string>>, net: seq<seq<Exchange>>, token: string,
                    sign: (string, string, string) -> string): (r: Run)
    requires AnswersAll(batches, net)
    ensures 2 * |batches| <= |r.trace| <= (2 * MaxAttempts + 1) * |batches|
    decreases |batches|
  {
    if |batches| == 0 then
      Run([], [])
    else
      var n := |batches| - 1;
      var prev := FetchAll(batches[..n], net[..n], token, sign);
      var b := FetchBatch(batches[n], net[n], token, sign);
      Run(prev.records + Contribution(b), prev.trace + b.trace + [Slept(InterBatchDelay)])
  }

  function Concat<T>(parts: seq<seq<T>>): (s: seq<T>)
    decreases |parts|
  {
    if |parts| == 0 then [] else Concat(parts[..|parts| - 1]) + parts[|parts| - 1]
  }

  /** The batch runs of a whole fetch, one per batch in order. */
  function BatchRuns(batches: seq<seq<string>>, net: seq<seq<Exchange>>, token: string,
                     sign: (string, string, string) -> string): (rs: seq<BatchRun>)
    requires AnswersAll(batches, net)
    ensures |rs| == |batches|
    ensures forall i :: 0 <= i < |batches| ==> rs[i] == FetchBatch(batches[i], net[i], token, sign)
  {
    seq(|batches|, i requires 0 <= i < |batches| && AnswersAll(batches, net) => FetchBatch(batches[i], net[i], token, sign))
  }

  /** Each batch's contribution and each batch's events followed by one
      1000 ms pause. */
  function Contributions(runs: seq<BatchRun>): (cs: seq<seq<Record>>)
    ensures |cs| == |runs|
    ensures forall i :: 0 <= i < |runs| ==> cs[i] == Contribution(runs[i])
  {
    seq(|runs|, i requires 0 <= i < |runs| => Contribution(runs[i]))
  }

  function Paced(runs: seq<BatchRun>): (ts: seq<seq<Event>>)
    ensures |ts| == |runs|
    ensures forall i :: 0 <= i < |runs| ==> ts[i] == runs[i].trace + [Slept(InterBatchDelay)]
  {
    seq(|runs|, i requires 0 <= i < |runs| => runs[i].trace + [Slept(InterBatchDelay)])
  }

  /** Every batch is visited in order and none stops the loop:
      `aggregatedResults` is the in-order concatenation of the successful
      batches' records, and the events are each batch's events followed by
      exactly one 1000 ms pause. */
  lemma {:induction false} FetchAllIsInOrderConcatenation(batches: seq<seq<string>>, net: seq<seq<Exchange>>,
                                                          token: string, sign: (string, string, string) -> string)
    requires AnswersAll(batches, net)
    ensures var runs := BatchRuns(batches, net, token, sign);
      && FetchAll(batches, net, token, sign).records == Concat(Contributions(runs))
      && FetchAll(batches, net, token, sign).trace == Concat(Paced(runs))
    decreases |batches|
  {
    if |batches| > 0 {
      var n := |batches| - 1;
      FetchAllIsInOrderConcatenation(batches[..n], net[..n], token, sign);
      var runs := BatchRuns(batches, net, token, sign);
      BatchRunsPrefix(batches, net, n, token, sign);
      var prev := FetchAll(batches[..n], net[..n], token, sign);
      var b := FetchBatch(batches[n], net[n], token, sign);
      assert runs[n] == b;
      ContributionsPrefix(runs, n);
      assert FetchAll(batches, net, token, sign).records == prev.records + Contributions(runs)[n];
      PacedPrefix(runs, n);
      assert FetchAll(batches, net, token, sign).trace == prev.trace + Paced(runs)[n];
    }
  }

  lemma BatchRunsPrefix(batches: seq<seq<string>>, net: seq<seq<Exchange>>, n: nat,
                        token: string, sign: (string, string, string) -> string)
    requires AnswersAll(batches, net) && n <= |batches|
    ensures AnswersAll(batches[..n], net[..n])
    ensures BatchRuns(batches[..n], net[..n], token, sign) == BatchRuns(batches, net, token, sign)[..n]
  {
  }

  lemma ContributionsPrefix(runs: seq<BatchRun>, n: nat)
    requires n <= |runs|
    ensures Contributions(runs[..n]) == Contributions(runs)[..n]
  {
  }

  lemma PacedPrefix(runs: seq<BatchRun>, n: nat)
    requires n <= |runs|
    ensures Paced(runs[..n]) == Paced(runs)[..n]
  {
  }

  /** A batch's own events hold no 1000 ms pause: its only pauses are
      the 1500 ms retry pauses. */
  lemma {:induction false} OnlyRetryPausesInBatch(batch: seq<string>, tries: seq<Exchange>, from: nat,
                                                  token: string, sign: (string, string, string) -> string)
    requires Answers(tries) && from <= MaxAttempts
    ensures Slept(InterBatchDelay) !in Attempts(batch, tries, from, token, sign).trace
    decreases MaxAttempts - from
  {
    if from < MaxAttempts && Classify(tries[from].reply).Retry? {
      OnlyRetryPausesInBatch(batch, tries, from + 1, token, sign);
    }
  }

  /** Exactly one 1000 ms pause per batch, whatever the batches' outcomes. */
  lemma {:induction false} OnePausePerBatch(batches: seq<seq<string>>, net: seq<seq<Exchange>>,
                                            token: string, sign: (string, string, string) -> string)
    requires AnswersAll(batches, net)
    ensures multiset(FetchAll(batches, net, token, sign).trace)[Slept(InterBatchDelay)] == |batches|
    decreases |batches|
  {
    if |batches| > 0 {
      var n := |batches| - 1;
      var b := FetchBatch(batches[n], net[n], token, sign);
      OnePausePerBatch(batches[..n], net[..n], token, sign);
      OnlyRetryPausesInBatch(batches[n], net[n], 0, token, sign);
      var prev := FetchAll(batches[..n], net[..n], token, sign);
      assert FetchAll(batches, net, token, sign).trace == prev.trace + b.trace + [Slept(InterBatchDelay)];
    }
  }

  /** A service that never answers with data (always 429, say) makes every
      batch fail permanently: the run collects no records but still visits
      every batch. */
  lemma {:induction false} NothingFetchedWhenEveryAttemptFails(batches: seq<seq<string>>, net: seq<seq<Exchange>>,
                                                               token: string, sign: (string, string, string) -> string)
    requires AnswersAll(batches, net)
    requires forall i, k :: 0 <= i < |net| && 0 <= k < MaxAttempts ==> Classify(net[i][k].reply).Retry?
    ensures FetchAll(batches, net, token, sign).records == []
    decreases |batches|
  {
    if |batches| > 0 {
      var n := |batches| - 1;
      NoSuccessNoRecords(batches[n], net[n], 0, token, sign);
      NothingFetchedWhenEveryAttemptFails(batches[..n], net[..n], token, sign);
    }
  }
}
