# energy-grid: admission pipeline and batch fetch engine

A model of the two decision procedures of the energy-grid mock API and its
client.

- **The service pipeline** (`server.js`). Every request goes through three
  gates and then the handler, in a fixed order. The rate limiter rejects a
  request with 429 when it arrives less than 950 ms after the last admitted
  one; otherwise it moves `lastRequestTime` to now. The signature check gives
  401 when a `signature` or `timestamp` header is missing or empty, and 401
  when the signature is not exactly the digest of url + secret + timestamp.
  The query handler gives 400 when `sn_list` is not an array or holds more
  than 10 items. Otherwise it returns one record per serial number. In the
  model, a request is a pure transition `(lastRequestTime, request) ->
  (lastRequestTime', response)` (`Server.Handle`). A run of requests is a fold
  over them (`Server.Serve`).
- **The client's fetch engine** (`client.js`, `fetchAllData`). It visits
  the batches in order. Each batch gets at most 5 attempts. An attempt ends
  either in success, which appends the records and stops the batch, or in a
  retry after a 1500 ms pause. A retry happens on 429, on any other non-2xx
  status, and on a thrown error. After every batch the client pauses
  1000 ms. The network is an oracle: for each attempt, the clock reading that
  goes into the timestamp header and the reply. Sleeping and sending append
  events to a trace. `Client.FetchAll` is the functional model.
  `ClientLoop.FetchAllData` has the nested-loop shape of the source and is
  proved to compute exactly `Client.FetchAll`.

Files: `protocol.dfy` holds the shared request, response and record types
and the signed message. `decimal.dfy` holds `Date.now().toString()`.
`server.dfy` holds the pipeline. `client.dfy` holds the functional fetch
engine. `client_loop.dfy` holds the loop form of the engine.
`interop.dfy` covers client requests meeting the server's gates.

The server digests the request's original URL (`req.originalUrl`), query
string included. It does not digest a normalised path. `Request.url` is that
original URL, and a client request is authentic only when it is sent to
exactly the path it signed.

Parameters stand in for code the model cannot see:
- `hash: string -> string` is MD5-as-hex.
- `sign` is the client's `generateSignature`.
- `token` is the client's `TOKEN`.
- The clock readings and replies in the oracle are `Date.now()` and `fetch`.

## Model

| member | source | states |
|---|---|---|
| Protocol.StatusCode | server.js:16-76 | the status of each response: 429 exactly for the limiter's rejection; 401 exactly for the missing-credentials and invalid-signature replies; 400 exactly for a non-array or oversized `sn_list`; 200 exactly for data (`res.json`) and the framework's OPTIONS reply; 404 exactly for the framework's not-found reply |
| Protocol.SignedMessage | server.js:42 | the digested string `url + SECRET_TOKEN + timestamp`: its length is the sum of the three, it starts with the path and ends with the timestamp |
| Server.RateLimit | server.js:14-23 | admits exactly when `now - last >= 950`; on rejection the state is unchanged, on admission it becomes exactly `now` |
| Server.CheckSignature | server.js:29-50 | passes exactly the authentic requests; an absent or empty header gives the missing-credentials 401; with both headers present and a wrong signature it gives the invalid-signature 401 |
| Server.SignatureGate | server.js:40-47 | with both headers present, the gate passes iff the signature equals `hash(url + SECRET_TOKEN + timestamp)` exactly |
| Server.Query | server.js:56-77 | data iff `sn_list` is an array of at most 10 items; a non-array gives 400, more than 10 items gives 400; data has the same length as `sn_list` and `data[k].sn == sn_list[k]` |
| Protocol.RecordsFor | server.js:69-74 | the service answers with exactly one record per submitted serial number, `data[k].sn == sn_list[k]` |
| Server.Route | server.js:56-77 | after both middlewares: data iff the request is a POST to `/device/real/query` with a valid body; 400 iff it is such a POST with a bad body; the automatic `Allow: POST` reply iff it is an OPTIONS request on that path; 404 iff neither |
| Server.Handle | server.js:14-77 | a 429 leaves `lastRequestTime` unchanged; every other response sets it to `now` |
| Server.GateOrder | server.js:14-67 | 429 iff the limiter rejects; 401 iff admitted and not authentic; the automatic OPTIONS reply iff admitted, authentic and an OPTIONS request on the query path; 404 iff admitted, authentic, off-route and not such an OPTIONS request; 400 iff admitted, authentic, on-route with a bad body; data iff every gate passes; an admitted request takes the slot even when it then fails with 401 or 400 |
| Server.Serve | server.js:14-23 | one response per request, and `lastRequestTime` never decreases over a run |
| Server.AdmittedAfterWindow | server.js:14-23 | every admitted request came at least 950 ms after the starting state, and the final state is no earlier than any admitted arrival |
| Server.AdmittedSpacing | server.js:14-23 | any two admitted requests (not only consecutive ones) are at least 950 ms apart, even when the clock goes backwards |
| Server.AtMostOneInWindow | server.js:14-23 | of two requests arriving less than 950 ms apart, at most one is admitted |
| Server.FirstRequestAfterStartup | server.js:8-23 | from the starting value `lastRequestTime = 0`, the first request is admitted iff its clock reading is at least 950 |
| Server.AdmittedAfterLastAdmitted | server.js:14-23 | a rejected request does not move the window: a request at least 950 ms after the starting state and after every earlier admitted request is admitted, whatever was rejected in between |
| Server.SpacedArrivalsAdmitted | server.js:14-23 | requests each at least 950 ms after the previous one (the first at least 950 ms after the starting state) are all admitted |
| Decimal.Show | client.js:14 | the timestamp text is non-empty, all digits, without a leading zero |
| Decimal.ValueOfShow | client.js:14 | reading the timestamp text back gives the clock value again |
| Decimal.ShowInjective | client.js:14 | distinct clock readings give distinct timestamp headers |
| Client.Classify | client.js:32-52 | among the modelled replies, an attempt succeeds iff the reply is 2xx with a readable `data` array, and then yields exactly those records; 429 is the throttled retry |
| Client.SignedRequest | client.js:14-30 | each attempt POSTs the batch as `sn_list` to the fixed path, with a fresh decimal timestamp from its own clock reading and a signature over `/device/real/query`, the token and that timestamp |
| Client.Attempts | client.js:11-53 | from any attempt count below 5 the loop uses at least one more attempt, and never more than 5 in all; a batch with no records has used all 5; one event per send and per pause |
| Client.FetchBatch | client.js:8-53 | a batch uses between 1 and 5 attempts, and all 5 when it fails |
| Client.FirstSuccess | client.js:11-48 | the reference definition of the first successful attempt among the first 5: it succeeds and every earlier attempt is a retry; `None` means all 5 are retries |
| Client.AttemptsStopAtFirstSuccess | client.js:11-53 | the loop stops right after the first success: the batch yields that attempt's records and uses exactly that many attempts; without a success it yields nothing after 5 attempts |
| Client.BatchFetchedIffSomeAttemptSucceeds | client.js:11-57 | records are appended exactly once iff some attempt among the first 5 succeeds; they come from the last attempt made, and every earlier attempt was a retry |
| Client.FetchedBatchTrace | client.js:11-53 | a successful batch's events are one signed request per attempt, each from its own clock reading, with a 1500 ms pause after every failed attempt and none after the successful one |
| Client.FailedBatchTrace | client.js:11-53 | a failed batch's events are one signed request per remaining attempt, each followed by a 1500 ms pause |
| Client.NoSuccessNoRecords | client.js:11-53 | when every remaining attempt fails, the loop yields no records |
| Client.OnlyRetryPausesInBatch | client.js:32-52 | a batch's own events hold no 1000 ms pause |
| Client.PermanentFailureTrace | client.js:11-57 | a batch whose every attempt fails sends five requests, each followed by a 1500 ms pause, and contributes nothing |
| Client.RetryReasonsAlike | client.js:32-52 | 429, other non-2xx statuses and thrown errors are handled alike: swapping one failed reply for another changes nothing the client does |
| Client.FetchAll | client.js:1-64 | a run over n batches makes between 2n and 11n events: each batch sends at least once and pauses once afterwards, and makes at most 5 sends and 5 retry pauses |
| Client.FetchAllIsInOrderConcatenation | client.js:5-60 | `aggregatedResults` is the in-order concatenation of the successful batches' records; the trace is each batch's events followed by one 1000 ms pause, batch after batch |
| Client.OnePausePerBatch | client.js:7-60 | exactly one 1000 ms pause per batch, whatever the outcomes |
| Client.NothingFetchedWhenEveryAttemptFails | client.js:7-60 | when every attempt fails (a service that always answers 429, say) the run collects no records |
| ClientLoop.FetchBatchLoop | client.js:8-57 | the source-shaped attempt loop, with separate 429, non-ok and catch branches, computes exactly the functional batch model |
| ClientLoop.FetchAllData | client.js:1-64 | the source-shaped nested loops compute exactly the records and events of `Client.FetchAll` |
| Interop.Deliver | server.js:17-76 | the client sees each response's status; only the data reply carries a readable `data` array, holding exactly the served records, and every other reply (the JSON error bodies and the OPTIONS text) is unreadable as data |
| Interop.ClientRequestAuthentic | server.js:29-50 | a request the client signs with the server's secret, using the same digest, passes the signature gate |
| Interop.ClientBatchServed | server.js:14-77 | an admitted client request for at most 10 serial numbers takes the slot and is answered with data the client accepts: one record per serial number, in order |
| Interop.RejectionsAreRetried | client.js:32-42 | every non-data response (429, both 401s, both 400s, 404, and the 200 OPTIONS reply whose body is not JSON) is a retry for the client |
| Interop.OversizedBatchNeverServed | server.js:63-67 | a batch of more than 10 serial numbers never gets data, whatever the limiter state, clock or signature, so every attempt at it is retried |
| Interop.SecretDeterminedByMessage | server.js:40-43 | with path and timestamp fixed, the signed message determines the secret |
| Interop.WrongTokenRejected | server.js:40-47 | a client signing like the server gets the invalid-signature 401 exactly when the digest of its token's message differs from the digest of the secret's message, for the same path and timestamp |
| Interop.WrongTokenRejectedByInjectiveDigest | server.js:40-47 | with an idealised digest that tells all messages apart, any token other than the secret gets the invalid-signature 401 |

## Left out

- Express wiring, `app.listen`, the `express.json()` body parser and console logging are I/O plumbing. A body that is not valid JSON is rejected by the parser before the limiter runs; that path is not modelled.
- Route matching is exact equality of the original URL with `/device/real/query` plus method POST. Express's leniency (trailing slash, case, query string) is not modelled. Of the framework's own replies after both gates, two are modelled: the automatic 200 `Allow: POST` answer to OPTIONS on `/device/real/query` (`AllowedMethods`), and the 404 for everything else. HEAD and the other methods on that path get the 404.
- MD5 is the parameter `hash`. The client's `generateSignature`, `TOKEN` and `API_URL` are not part of this model. `sign` and `token` are parameters, and the client's requests are addressed to `/device/real/query`.
- Records carry only `sn`. The random power reading, status and ISO update time (`Math.random`, `toFixed`, `new Date()`) are non-deterministic and left out.
- `sn_list` items are strings. The service echoes any JSON value; non-string items are not modelled.
- `fetch`, `response.json()` and `sleep` are replaced by the per-attempt oracle and the event trace. Each batch's oracle must answer 5 attempts (`Client.Answers`): the environment always answers.
- `generateSerialNumbers` and `chunkArray` are not part of this model. The batch list is a given `seq<seq<string>>`. Aggregation and report writing are not part of this model either.
- The limiter's concurrency is not modelled. Node runs the middleware on one thread, so requests form a sequence (`Server.Serve`).
- Client.Classify: a 2xx reply whose `data` is a string does not throw in the client. The spread pushes the string's characters into `aggregatedResults`, and the batch counts as fetched: `{"data": ""}` adds nothing and still stops the retries. The model's replies carry only a record array or an unusable body, so this success is not represented. The service never sends such a reply: its JSON 200 (`res.json`, server.js:76) always carries a `data` array, and its other 200, the OPTIONS reply, has the text body `POST`, which `response.json()` rejects.
- Decimal.Show: `Number.prototype.toString` switches to exponential notation at 1e21. `Date.now()` stays below 8.64e15, so plain decimal digits are the whole story.
