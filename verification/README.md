# FH-Validator verification pipeline, modelled in Dafny

FH-Validator checks whether download links still work. An input processor
supplies a batch of link records. For each record, `app.js` logs the link it
is processing and looks for the service supporter (the provider plugin) whose
host names contain the link's hostname. It then does one of three things:

- For a supported link, it builds the request options from that supporter,
  attaches a random proxy when proxies are configured, and sends the request
  through a promise chain that ends at the result handler.
- For an unsupported link, it counts the host in `foundUnsupportedServices`.
  Only the first sighting of each host is reported to the result handler.
- A row without a link (the column missing or null) makes `verifyDownload` throw; the run loop logs the
  failure and goes on.

When the chain of a supported last link resolves, the run log receives a
summary of the counters and a finish marker. A batch whose last link is
unsupported, missing or rejected ends without a summary.

The model has one module per concern:

- `Values`: request options, link records, supporters and `getReqOpts`.
- `Registry`: `identifyProvider`.
- `Tracker`: the unsupported-service counters.
- `ProxyPool`: mathjs `random` and the index drawn by `getRandomProxy`.
- `Batch`: the last-link flag.
- `App`: the module-level state as a `Validator` class, with `verifyDownload`
  and `run` as methods.

Request-option objects and link records are updated in place by the source, so
they are classes. A supporter's `reqOpts` template is handed out by reference,
and the model keeps that aliasing. Every log line the core writes (the run-log
notices, the "using proxy" notice, the debug line `processing <link>`, and the
errors) and every `handleError` call is appended to the validator's `log` as an
`Event`.

`handleResult` is curried. `handleResult(attribs)` runs for every supported
link while its chain is built (app.js:112), and returns the step the chain
runs later. The model records only that later step, as a `ResultHandled`
event, when the chain resolves. Each chain is settled right after its
dispatch, so the log's order is the model's order. In `app.js` the chains
settle in any order.

Some inputs come from outside the pipeline and are given as parameters:

| source of the value | how the model receives it |
|---|---|
| hostname parser | the constant function `hostnameOf` |
| the uniform draw of `math.random` | a real `u` in [0, 1) |
| how each request's promise chain settles | a `ChainOutcome` |

Some facts about what `app.js` does and does not do:

- **Host matching.** A host matches only when it is exactly equal to one of a
  supporter's host names. There is no pattern or suffix matching.
- **Redirects and retries.** There is no provider-mediated redirect and no
  retry. A rejected chain is logged and nothing more happens.
- **Proxy choice.** The index is `floor(random(0, length - 1))`, so with two or
  more proxies the last listed proxy is never used (see Findings).
- **Proxy when the pool is empty.** The options keep whatever `proxy` and
  `tunnel` the template or custom request already carried.
- **Provenance fields.** The link record gets `url` and `proxy`. There is no
  `redirected` field.

## Model

| member | source | states |
|---|---|---|
| Registry.IdentifyProvider | app.js:87-94 | The result is the index of the first supporter whose host names contain the link's hostname. No earlier supporter lists it. `None` exactly when no supporter lists it, including for a null hostname. Matching is exact string equality, so a suffix or subdomain of a listed name matches nothing. |
| Registry.FindFrom | app.js:89-93 | The search `_.find` performs from index i: the first supporter from i on that lists the hostname, or `None` when none from i on lists it. |
| Registry.IdentifyProviderAppend | app.js:87-94 | Appending supporters never changes a link that an earlier supporter already claims. An unclaimed link goes to the first appended supporter that claims it, at its shifted index. |
| Values.GetReqOpts | app.js:133-138 | With `setupRequest`, the result is a fresh object holding the custom request. Otherwise it is the supporter's template object itself (not a copy). With no template, it is a fresh empty object. |
| Tracker.CounterKey | app.js:122-124 | A hostname is its own key in the counter object. A null hostname becomes the key "null", which only a hostname spelled "null" shares. |
| Tracker.Record | app.js:121-130 | One unsupported sighting. It is reported exactly when the host's count was falsy (absent or 0). The host's count becomes the old count plus one, and no other key changes. |
| Tracker.TallyCounts | app.js:121-130 | After any sequence of sightings, each host's count has grown by its number of occurrences. The host is reported exactly once if it had no count before and occurs at all, and never otherwise. |
| Tracker.FreshRunCounts | app.js:16 | Starting from the empty counter object, a host seen k times has count k and is reported once. |
| Tracker.TallyAppend | app.js:121-130 | Counting a batch in two parts equals counting it whole: the counters compose and the report lists concatenate. |
| ProxyPool.Random | app.js:142 | mathjs `random(0, max)`: the draw scaled into [0, max], and strictly below `max` when `max` is positive. |
| ProxyPool.RandomIsProduct | app.js:142 | The scaled draw is `u * max`, mathjs's `min + u * (max - min)` with `min = 0`. |
| ProxyPool.ProxyIndexAsWritten | app.js:142 | The index `floor(random(0, len - 1))` is always within the proxy list. |
| ProxyPool.ProxyIndexAsWrittenSkipsLast | app.js:140-147 | As written, with two or more proxies the drawn index is always below `len - 1`, so the proxy at the last position is never used. |
| ProxyPool.ProxyIndexAsWrittenTwo | app.js:142 | As written, with two proxies every draw picks the first one. |
| ProxyPool.ProxyIndex | app.js:142 | The corrected draw `floor(random(0, len))` is always within the proxy list. It is not what app.js computes; see Findings. |
| ProxyPool.ProxyIndexReachesEvery | app.js:142 | The corrected draw can reach every index: the draw k/len picks index k. This is the intended behaviour, not that of app.js; see Findings. |
| App.Validator.GetRandomProxy | app.js:140-147 | The result is `false` (`None`) exactly when the proxy list is empty, and otherwise a listed proxy: the one at the as-written index `floor(random(0, len - 1))`. |
| App.Validator.LastProxyNeverDrawn | app.js:140-147 | With two or more proxies, every draw returns the proxy at one of the first `len - 1` positions: the proxy at the last position is never drawn. |
| App.Validator.AssembledFields | app.js:99-109 | The assembled options target the link. With proxies, they carry a listed proxy and have tunnelling off. Without proxies, the template's proxy and tunnel are kept. Every other option is kept. |
| App.Validator.AttachProxy | app.js:100-104 | With proxies, the drawn proxy and `tunnel = false` are written into the options and the "using proxy" notice naming that proxy is logged. Without proxies, nothing changes. |
| App.Validator.SharedTemplate | app.js:133-138 | The template object supporter p hands out by reference, if any, is one of the supporters' templates. |
| App.Validator.AssembleRequest | app.js:99-109 | The options object has exactly the assembled fields. It is fresh for custom or empty requests and is the shared template otherwise. The record is the given one, or a fresh empty one when none was given. The record's `url` and `proxy` are the link and the options' proxy. Only the proxy notice is logged. Only the supporter's shared template may change, and it still dispatches alike. |
| App.Validator.AssembledAlike | app.js:99-109 | Two template states that dispatch alike assemble the same options for any link and draw. `SameDispatch` is the invariant that makes a reused template harmless: the pipeline writes only `uri`, `proxy` and `tunnel`, and overwrites `proxy` and `tunnel` whenever proxies exist. `RowFieldsAlike` uses it to carry each row's options over from the start of the batch. |
| App.Validator.RowFieldsFrom | app.js:99-109 | The options a supported row is dispatched with when the templates hold a given snapshot: they target its link and, when proxies exist, carry the proxy its draw picks with tunnelling off. |
| App.Validator.RowFieldsAlike | app.js:99-109 | While the templates dispatch alike with a snapshot, every row is dispatched with exactly the options that snapshot gives it. So the writes earlier rows make to a shared template change no later row's options. |
| App.Validator.ReportUnsupported | app.js:125-126 | Logs the unsupported-service notice and then calls the handler's `handleError` with the fixed message and the row's record. |
| App.Validator.TrackUnsupported | app.js:121-130 | The counters advance by `Record` on the host's key, with a null hostname counted under "null". The notice and the `handleError` call are logged exactly when the sighting is the first. |
| App.Validator.Settle | app.js:110-120 | A resolved chain runs the step `handleResult(record)` returned, logged as `ResultHandled`. For the last link it then logs the summary of the counters and the finish marker. A rejected chain logs the error with the link's url. |
| App.Validator.VerifyDownload | app.js:96-131 | A supported link leaves the counters unchanged. It dispatches options with the assembled fields, writes the link and the options' proxy into the record, and logs the proxy notice, the dispatch and the chain's completion. The options are a fresh object for custom or empty requests, and otherwise the supporter's template object itself. Only that template may change, and it still dispatches alike. An unsupported link changes only its host's counter and touches no record or template. Its notice and error call come only on the host's first sighting. |
| App.Validator.CompletionProjections | app.js:110-120 | A settled chain records one `ResultHandled` event with the record exactly when it resolves, and logs one summary exactly when it resolves for the last link. It calls no `handleError` and reports no host. |
| App.Validator.SummaryTailProjections | app.js:113-117 | The summary and the finish marker count as one summary and nothing else. |
| App.Validator.ReportProjections | app.js:123-126 | A first unsupported sighting reports its host once and calls `handleError` once, and nothing else. |
| App.Validator.DispatchFrontProjections | app.js:100-110 | The proxy notice and the dispatch are neither a report, a handler event nor a summary. |
| App.Validator.DispatchProjections | app.js:99-120 | A dispatched request records one `ResultHandled` event with its record exactly when its chain resolves, and logs a summary exactly when it resolves for the last link. The proxy notice and the dispatch are neither a report nor a handler event. |
| App.Validator.RowEventsProjections | app.js:96-131 | One link's events: a summary exactly when the link is last, supported and resolves; one `ResultHandled` event with the row's record exactly when it is supported and resolves; one notice and one `handleError` call exactly when its host is unsupported and seen for the first time. |
| App.Validator.RowFields | app.js:99-109 | The options a supported row is dispatched with target its link and, when proxies exist, carry the proxy its draw picks with tunnelling off. |
| App.Validator.VerifyRow | app.js:157-166 | One loop iteration. It logs `processing <link>` and then that row's events. A missing link logs the caught failure. A supported link logs the proxy notice, the dispatch and the chain's completion, all with the options `RowFields` gives. An unsupported link logs the notice and the `handleError` call on the host's first sighting. The counters advance by the row's unsupported key. A supported link's record gets the link as `url` and the dispatched options' proxy, which is the drawn proxy when proxies exist. Any other row leaves its record unchanged. The supporter's shared template, if the link uses one, now holds exactly the dispatched options. A row that dispatches nothing leaves every template unchanged. Every template still dispatches alike. |
| App.Validator.RowProjections | app.js:157-166 | One row adds to the log's reported hosts and `handleError` calls exactly the row's share of the tally. It adds a `ResultHandled` event for a supported resolved link and a summary when that link is last. |
| App.Validator.BatchTallyStep | app.js:121-130 | Proof step for `BatchEventsReports`: counting one more row is one more tally over that row's key, after the tally of the rows before it. |
| App.Validator.VerifyAt | app.js:157-166 | One loop iteration, seen through snapshots. It logs the row's processing line and events and advances the counters by the row's key. Its options are `RowFields` of its link and draw. Only the row's own record may change, and for a supported row it then holds the link and the dispatched proxy. Every template still dispatches alike with its fields before the row. |
| App.Validator.VerifyNext | app.js:157-166 | One loop iteration, stated against the batch. Row i's processing line and events follow those of the rows before it. Its key extends the tally. Its options are `RowFields` of its link and draw, and equal the options the batch's starting templates give it. The provenance of the rows up to i holds after it. Every template still dispatches alike with its fields at the start of the batch. |
| App.Validator.DispatchedFromStep | app.js:99-109 | Proof step for `VerifyNext`: a row dispatched with the options the starting templates give it extends the rows so dispatched by one. |
| App.Validator.DispatchedFromDrawn | app.js:99-109 | Rows dispatched with the options a template snapshot gives them target their links and, when proxies exist, carry the proxies their draws pick with tunnelling off. |
| App.Validator.ProvenanceStep | app.js:107-108 | Proof step for `VerifyNext`: the provenance of the rows so far survives one more row when only that row's record changed and, for a supported row, it holds the row's link and proxy. |
| App.Validator.BatchLogStep | app.js:157-166 | Proof step for `VerifyNext`: the log of the rows so far, followed by one more row's events, is the log of one more row. |
| App.Validator.VerifyBatch | app.js:157-166 | Over the whole batch, only the last row is flagged. The log grows by the batch's events: each row's processing line and events, with the counters as the rows before it left them and the options that row was dispatched with. The counters equal the tally of the unsupported keys in batch order. Every row's options are exactly `RowFields` of its link and draw over the templates as they were before the batch, whether or not proxies exist. The flag returned for each row is the one its events were logged with. Every supported row's options target its link and, when proxies exist, carry the proxy its draw picks with tunnelling off. Every supported row's record, unless a later row reuses the same record object, holds that row's link as `url` and its dispatched proxy. Only the records of supported rows may change, so a row that dispatches nothing leaves its record alone. Every template still dispatches alike. |
| App.Validator.BatchEventsPrefix | app.js:157-166 | The events of the first n rows depend only on the options those rows were dispatched with. |
| App.Validator.BatchEventsSnoc | app.js:157-166 | Proof step for `VerifyNext`: verifying one more row appends that row's processing line and events after the events of the rows before it. |
| App.Validator.BatchStepProjections | app.js:157-166 | Proof step for the four `BatchEvents` projections: what one more row adds to each of them and to the tally. |
| App.Validator.ReportsStep | app.js:121-130 | Proof step for `BatchEventsReports`: if the reported hosts match the tally over n - 1 rows, they match it over n rows. |
| App.Validator.BatchEventsReports | app.js:121-130 | Over the first n rows, the hosts reported as unsupported are the reports of those rows' tally, in batch order: each host once, at its first sighting. |
| App.Validator.BatchEventsErrors | app.js:126 | Over the first n rows, `handleError` is called once per reported host. |
| App.Validator.BatchEventsHandled | app.js:110-112 | Over the first n rows, the `ResultHandled` events carry the records of the supported rows whose chains resolve, in the model's batch order. |
| App.Validator.HandledRowsStep | app.js:110-112 | Proof step for `BatchEventsHandled`: one more row adds its record to the handled records exactly when its link is supported and its chain resolves. |
| App.Validator.BatchEventsSummary | app.js:113-117 | Over the batch, the summary is logged once when the last link is supported and resolves, and never otherwise. |
| App.Validator.SummaryInRow | app.js:113-117 | Proof step for `BatchEventsSummaryCounts`: a last supported row whose chain resolves logs the summary of the counters it is given. |
| App.Validator.BatchEventsSummaryCounts | app.js:113-117 | When the summary is logged, the counters it carries are the final tally of every unsupported host in the batch. |
| App.Validator.BatchProjections | app.js:157-166 | Over the whole batch: the reported hosts are the tally's reports, with one `handleError` call each; the `ResultHandled` events carry the records of the supported rows that resolve, in the model's order; there is one summary exactly when the last link is supported and resolves. |
| App.Validator.Run | app.js:150-167 | The start marker is logged first. If the input source fails, only its error follows, and no counter, record or template changes. Otherwise each row's link is read from the link column by `Links` (`result[dlLinkColumnName]`, `None` when the row has no string there) and the batch is verified as `VerifyBatch` states, with every row's options exactly `RowFields` of its link and draw over the templates before the run. Only the records of supported rows may change. |
| App.Validator.RunProjections | app.js:150-167 | A failed input adds no report, handler event or summary. Otherwise the run adds one notice and one `handleError` call per host first sighted in the batch, in order. It adds one `ResultHandled` event per supported row whose chain resolves, with that row's record, in the model's batch order. It adds one summary exactly when the last link is supported and resolves. |
| App.Validator.Emit | app.js:151 | Logging an event appends exactly that event to the log. |
| App.Validator.constructor | app.js:16 | A new validator starts with an empty counter object and an empty log. |
| Batch.ExactlyOneLast | app.js:157-162 | With `isLastVerification = (i === length - 1)`, exactly one link of a non-empty batch is flagged, and none of an empty one. |

## Left out

- Logger setup (app.js:19-49), loading the proxy list (app.js:51), plugin loading and validation (app.js:68-85), and reading the configuration. These only construct the inputs, which the model takes as parameters.
- The transport defaults set with `request.defaults` (app.js:56-66) are not part of the request options modelled here. These defaults are: no redirect following, full responses, no rejection on status, a timeout, a pool size and a user agent.
- `URL.parse(url).hostname` is the uninterpreted function `hostnameOf`. URL syntax is not modelled.
- `math.random` is the draw `u`, in [0, 1), supplied per link.
- The HTTP request, `verifyDownloadExists` and `handleResult` are foreign code. Their combined effect is the `ChainOutcome` of each link's chain.
- The chains settle asynchronously and in any order. The model settles each chain right after its dispatch, so the log does not capture how different links' completions interleave. The summary's counters are unaffected: every row is counted synchronously before any chain can settle, and the summary belongs to the last row.
- The outer call `handleResult(attribs)` (app.js:112) happens for every supported row while its chain is built, whatever the outcome. The model does not log it. It logs only the returned step, as `ResultHandled`, when the chain resolves. What the result handler does with the record is not part of this model.
- A null value in the link column is modelled as a column absent from the record: both give `None`, and `URL.parse(null)` fails just as `URL.parse(undefined)` does (app.js:88).
- Object keys inherited from `Object.prototype` (for example a hostname equal to "constructor") are not modelled. The counter object is a plain map.
- `getCustomRequest` is taken to return a fresh object on each call. Its options are given as a value.
- App.Validator.VerifyRow: the only synchronous failure it models is a row without the link column, which is caught and logged. Other throws from foreign code are not modelled.
- The link record's columns are constants. The pipeline only writes the provenance properties `url` and `proxy`, which are kept apart from the columns.
- App.Validator.VerifyBatch: provenance is stated for each row whose record object no later row of the batch reuses. When rows share a record, the later row's write wins, and only that write is stated.
- App.Validator.VerifyBatch: after the batch, every template is stated only to dispatch alike (`SameDispatch`), not to hold particular fields. Its `uri`, and its `proxy` and `tunnel` when proxies exist, are those of the last row that used it.

## Findings

| source | as written | input that shows it | evidently intended | confidence | as-written member | corrected member |
|---|---|---|---|---|---|---|
| app.js:142 | `math.floor(math.random(0, proxies.length - 1))`. `random(min, max)` returns a value in [min, max), so the index is at most `length - 2`. | proxies `[p0, p1]`: every draw selects `p0`, and `p1` is never used. | `math.floor(math.random(0, proxies.length))`: a uniform choice over all proxies. | high; not executed | ProxyPool.ProxyIndexAsWrittenSkipsLast | ProxyPool.ProxyIndexReachesEvery |

The validator itself keeps the as-written draw, so `App.Validator.LastProxyNeverDrawn` states the effect on `getRandomProxy`. `ProxyPool.ProxyIndex` is the corrected draw, proved to reach every proxy.
