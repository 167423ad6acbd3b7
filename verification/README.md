# Website bug finder: analysis orchestrator model

A Dafny model of the decision logic of the website bug finder's HTTP service
(`src/index.ts`). The service takes a page as raw HTML or as a URL. It runs an
accessibility scan and a four-viewport responsiveness sweep in a headless
browser. When asked, it also runs a Lighthouse performance audit, and it
returns one merged report.

The browser, the accessibility engine and the performance tool are opaque
collaborators. The model gets their results as abstract outcomes:

- `ScanOutcome`: the browser stage failed, or it produced raw violations,
  per-viewport step outcomes, and a flag for whether closing succeeded.
- `AuditOutcome`: launch failed, the tool failed, kill failed after the
  numbers were read, or every step completed with its numbers.
- `StepOutcome`: one viewport either measured an overflow flag or threw.
- The random session id is a parameter, with a freshness precondition.

Modules, leaf first:

- `Wrappers`: `Option` (a JSON field that may be absent) and `Result` (a value
  or a thrown error).
- `Js`: JavaScript truthiness of an optional string, the `x || ""` idiom, and
  `Math.round` (floor of `x + 0.5`).
- `Metrics`: the three-way `Category`, the five lab metrics with their
  threshold pairs, classification of a metric value, and the overall category
  from the 0-1 performance score.
- `Sessions`: the global `sessionHtmlMap` as a `Registry`. It is `Unset`
  until the first audit assigns the global, and a `Table` of id to HTML after
  that. The module also has publish, the GET handler's resolve, revoke, and
  the session route.
- `Performance`: building the audit report from the tool's numbers, and
  `runLighthouseAudit` with its session lifecycle.
- `Violations`: normalisation of engine violations and nodes.
- `Responsiveness`: the fixed viewport list and the sweep, written both as a
  fold and as the handler's loop.
- `Analyse`: the `/analyse` handler. It covers validation, the scan stage,
  performance gating and the merged reply.

Behaviour of the code worth knowing:

- The code deletes the session entry only on the audit's success path, after
  the browser is killed (`src/index.ts:132-134`). It does not delete it on
  every exit path. An audit that throws after publishing leaves its page in
  the map. `Performance.AuditFailureLeavesSession` states this.
- The session route is `/__lighthouse-session/:sessionId`. The query
  parameter is `lightHouseRequired`, and it must be exactly the string
  `"true"`.
- Before any audit has run, the global map is never assigned. The GET handler
  then throws on the lookup, so the model answers `ServerError` there, not
  not-found.
- The scanner closes its browser at line 215 only on the normal path. Sweep
  results are pushed into a list declared outside the stage's `try`, so they
  survive a later throw. Violations are normalised only after that close has
  succeeded.
- Validation uses truthiness, so an empty string counts as absent.

## Model

| member | source | states |
|---|---|---|
| Js.Truthy | src/index.ts:161-173 | JavaScript truthiness of a string field: it holds iff the field is present and non-empty, so an absent field and "" are both falsy. The same test is used at lines 142 and 232. |
| Js.OrEmpty | src/index.ts:219-221 | The empty-string default of field copying keeps a present value unchanged, including an empty one. It substitutes "" only for an absent value. It agrees with truthiness in both directions. |
| Js.Round | src/index.ts:101-117 | The rounded percentile is within half a unit of the raw value. Ties round up. |
| Js.RoundUnique | src/index.ts:101-117 | No other integer meets Round's bounds, so they characterise it. |
| Metrics.Classify | src/index.ts:102-118 | GOOD iff the value is at most the first threshold. NEEDS IMPROVEMENT iff it is above the first and at most the second. POOR iff it is above the second. |
| Metrics.Overall | src/index.ts:97 | GOOD iff the score is at least 0.9. NEEDS IMPROVEMENT iff 0.5 <= score < 0.9. POOR iff the score is below 0.5. |
| Metrics.ThresholdTable | src/index.ts:102-118 | The literal threshold pairs: FCP 1800/3000, LCP 2500/4000, CLS 0.1/0.25, INP 200/500, TTFB 800/1800. |
| Metrics.ClassifyMonotone | src/index.ts:102-118 | A larger metric value never gives a better category. |
| Metrics.OverallMonotone | src/index.ts:97 | A higher performance score never gives a worse overall category. |
| Metrics.OverallBoundaries | src/index.ts:97 | Both boundaries are inclusive: 0.9 is GOOD, 0.5 is NEEDS IMPROVEMENT, anything below 0.5 is POOR. |
| Metrics.LabelInjective | src/index.ts:97-118 | Distinct categories are reported under distinct strings. |
| Sessions.Publish | src/index.ts:71-74 | Empty HTML is rejected with "Provide htmlText". Otherwise the map exists afterwards and serves the HTML under the id. Every other id keeps its presence and its value. |
| Sessions.Resolve | src/index.ts:138-149 | Answers found with the stored HTML iff the entry exists and is non-empty. Answers server error iff the global was never assigned. Otherwise answers not-found. |
| Sessions.Revoke | src/index.ts:134 | The id is absent afterwards. All other entries are unchanged. An unset global stays unset. |
| Sessions.SessionPath | src/index.ts:75 | The audit path is the session route followed by exactly the id. |
| Sessions.AuditUrl | src/index.ts:75 | The loopback URL handed to the tool ends with the session path for the id. |
| Sessions.RouteParam | src/index.ts:138-139 | A parameter extracted from a path is non-empty and slash-free. Rebuilding the path from it gives back the request path. |
| Sessions.RouteRoundTrip | src/index.ts:138-139 | The path built for a slash-free id routes back to that id. |
| Sessions.PublishThenResolve | src/index.ts:140-148 | After publishing non-empty HTML under a fresh id, resolve returns exactly that HTML. |
| Sessions.PublishFrame | src/index.ts:73-74 | Publishing does not change how any other id resolves. The one exception: an unset global now answers not-found instead of failing. |
| Sessions.PublishEmptyRejected | src/index.ts:71 | Empty HTML fails before the map is touched. |
| Sessions.RevokeThenResolve | src/index.ts:134-148 | After revoke, the id resolves to not-found. |
| Sessions.PublishRevokeRoundTrip | src/index.ts:72-134 | Publishing under a fresh id and then revoking restores the map's mapping. |
| Sessions.ValidPreserved | src/index.ts:71-74 | Publish and revoke keep every stored page non-empty. |
| Sessions.ValidNotFound | src/index.ts:142-145 | On such a map, not-found means exactly that the id is unknown. |
| Performance.MetricEntry | src/index.ts:100-119 | The category is computed on the unrounded value and matches its threshold band. The percentile is the raw score for CLS and the rounded value otherwise, within half a unit of the raw value either way. |
| Performance.BuildReport | src/index.ts:95-130 | Each metric's category matches its threshold band, computed on the unrounded value. The overall category follows the score boundaries. Percentiles are within half a unit of the raw values, with CLS unrounded. The four category scores are copied. |
| Performance.RunLighthouseAudit | src/index.ts:70-137 | Empty HTML fails with the map unchanged. The audit succeeds iff the HTML is non-empty and every external step completes, and then it returns the report built from the tool's numbers and restores the map. Any failure after publishing leaves the entry in place. |
| Performance.AuditFailureLeavesSession | src/index.ts:74-134 | After a failed audit, the session still resolves to its HTML. The delete runs only on the success path. |
| Performance.AuditSuccessRevokes | src/index.ts:132-136 | After a successful audit, the session resolves to not-found. |
| Performance.ToolFetchesPublishedHtml | src/index.ts:72-75 | The path of the URL handed to the tool routes to the session id. In the published state the audit runs against, that id resolves to the published HTML. |
| Violations.NormaliseNode | src/index.ts:221 | Each node field is the present value, or "" when absent. |
| Violations.NormaliseViolation | src/index.ts:219-222 | The id, description and help default to "". Nodes keep their number and order, and each node is normalised. |
| Violations.Normalise | src/index.ts:218-224 | The violation list keeps its length and order, and each element is normalised. |
| Violations.NormaliseAll | src/index.ts:218-224 | The handler's push loops yield one normalised violation per engine violation, in order. |
| Violations.NormaliseLiftRoundTrip | src/index.ts:219-221 | Normalising a violation whose fields are all present gives back exactly those fields and nodes. |
| Violations.NormaliseIdempotent | src/index.ts:219-221 | Normalising twice is the same as normalising once. |
| Violations.AbsentBecomesEmpty | src/index.ts:221 | A node field becomes "" iff it was absent or empty. |
| Responsiveness.Sweep | src/index.ts:197-214 | The results are one entry per viewport, in order, each with that step's overflow flag. They stop exactly at the first step that throws. |
| Responsiveness.SweepUnique | src/index.ts:197-214 | Only one result list satisfies that prefix description. |
| Responsiveness.RunSweep | src/index.ts:191-214 | The handler's loop over the four viewports, where the first throw is swallowed and ends the loop, yields exactly the fold's results. |
| Responsiveness.SweepIsOrderedPrefix | src/index.ts:191-214 | The reported names are a prefix of Desktop Large, Desktop Standard, Tablet, Phone, with no duplicates. |
| Responsiveness.SweepCompleteIff | src/index.ts:197-214 | All four viewports are reported iff no step throws. Otherwise the list ends just before the first throwing step. |
| Analyse.PerformanceRequested | src/index.ts:157 | The audit is requested iff the query value is exactly the string "true". An absent value does not request it. |
| Analyse.Validate | src/index.ts:161-168 | The request is rejected iff html and url are both truthy or both falsy. Each case gets its own message. Otherwise the truthy field is the scan input. |
| Analyse.Scan | src/index.ts:170-226 | A browser-stage failure gives empty violations and empty responsiveness. Otherwise the responsiveness list is the sweep prefix, and the violations are the normalised list if the browser closed and empty if it did not. |
| Analyse.Analyse | src/index.ts:151-237 | A 400 reply comes iff validation fails, and then no stage runs and the map is unchanged. Otherwise exactly the truthy input is scanned. The audit is attempted iff the query is exactly "true" and html is truthy. The performance result is non-null iff the audit completed. The scan results are returned either way. |
| Analyse.AuditFailureIsolated | src/index.ts:230-237 | A failing audit gives the same reply as not asking for it: null performance, and the same violations and responsiveness. |
| Analyse.UrlRequestNeverAudits | src/index.ts:232 | A URL request never runs the audit and always gets a null performance result. |
| Analyse.RejectionIgnoresStages | src/index.ts:161-168 | The outcome of a rejected request does not depend on any stage's behaviour. |
| Analyse.ReplyResponsivenessOrdered | src/index.ts:160-214 | The responsiveness entries in every reply are an in-order, duplicate-free prefix of the four device profiles. |

## Left out

- Express setup, JSON body parsing with its 2 MB limit, routing details, and
  `app.listen`. This is HTTP plumbing.
- Calls to Puppeteer, axe-core, Lighthouse and chrome-launcher. These are
  opaque foreign processes, so they appear only as the abstract outcomes
  above.
- `JSON.parse` of the report and the audit-key lookups. The nine numbers are
  given as reals. NaN, `null` scores and missing audits are not modelled.
- Floating-point behaviour. Thresholds and values are exact reals. In the
  model, `0.1` is exactly one tenth, where the source uses the nearest
  double.
- The 500 reply that the content-load failure branches send before
  continuing. Later replies then fail on headers already sent. This is a
  response-layer quirk, and the stage sequence it leaves is the one modelled.
- The second `browser.close()` in the handler's `finally`, and the browser
  process left running when the audit tool fails. The model tracks the
  session map, not process handles.
- `imagesOversize`, which is computed but never returned. Also the `labTest`
  constant flag in the report.
- The 200 ms settle delay and console logging.
- Uniqueness of the random session ids, and concurrent access to the global
  map by overlapping requests. A fresh id is a precondition instead.
- Inherited object keys such as `constructor` in the session map lookup.
- Sessions.RouteParam: does not model case-insensitive matching of the route
  prefix, percent-decoding, or the optional trailing slash. Express routes
  such paths to the handler too, but the model treats them as not matching.
  The tool only ever requests the exact path built for the session.
- Query and body values that are not strings, such as arrays. The model
  treats them as a query that is not "true" or as an absent field.
- A `nodes` field on a violation that is missing or not an array. The engine
  always supplies one, so a throw in the middle of normalisation is not
  modelled.
- The top-level catch that turns an unexpected throw into a 500 reply.
  Nothing inside the modelled stages reaches it.
