/** The `/analyse` handler: validate the request, run the accessibility scan
    and responsiveness sweep, optionally run the performance audit, and merge
    whatever each stage produced. */
module Analyse {
  import opened Wrappers
  import opened Js
  import opened Sessions
  import opened Performance
  import opened Violations
  import opened Responsiveness

  /** The request: the two body fields and the `lightHouseRequired` query value. */
  datatype AnalyseRequest = AnalyseRequest(
    html: Option<string>, url: Option<string>, lightHouseRequired: Option<string>)

  /** The query asks for the audit only with the exact string "true". */
  predicate PerformanceRequested(q: Option<string>)
    ensures PerformanceRequested(q) <==> q.GetOr("") == "true"
    ensures PerformanceRequested(q) ==> q.Some?
  {
    q == Some("true")
  }

  /** What the scan loads: the raw markup or the target URL. */
  datatype ScanInput = HtmlInput(html: string) | UrlInput(url: string)

  const MissingInputError: string := "Html field or url field must be specified"
  const ConflictingInputError: string := "Specify either html or url field"

  /** Exactly one of the two fields must be truthy; the truthy one drives
      the scan. */
  function Validate(html: Option<string>, url: Option<string>): (v: Result<ScanInput, string>)
    ensures v.Failure? <==> Truthy(html) == Truthy(url)
    ensures v.Failure? ==> (v.error == MissingInputError <==> !Truthy(html))
    ensures v.Failure? ==> (v.error == ConflictingInputError <==> Truthy(html))
    ensures v.Success? ==> (v.value.HtmlInput? <==> Truthy(html))
    ensures v.Success? && v.value.HtmlInput? ==> html == Some(v.value.html) && v.value.html != ""
    ensures v.Success? && v.value.UrlInput? ==> url == Some(v.value.url) && v.value.url != ""
  {
    if !Truthy(html) && !Truthy(url) then Failure(MissingInputError)
    else if Truthy(html) && Truthy(url) then Failure(ConflictingInputError)
    else if Truthy(html) then Success(HtmlInput(html.value))
    else Success(UrlInput(url.value))
  }

  /** How the browser part of the request goes. `BrowserFailed`: launching,
      opening the page, injecting or running the accessibility engine threw,
      so the sweep never started. `Audited`: the engine returned `raw`, the
      sweep met `steps`, and closing the browser succeeded iff `closeOk`. A
      failure to load the content is not a separate case: the engine then
      simply runs on whatever page is loaded. */
  datatype ScanOutcome =
    | BrowserFailed
    | Audited(raw: seq<RawViolation>, steps: seq<StepOutcome>, closeOk: bool)

  predicate WellFormedScan(s: ScanOutcome) {
    s.Audited? ==> |s.steps| == |Viewports|
  }

  datatype ScanResult = ScanResult(violations: seq<ResultViolation>, responsiveness: seq<ResponsivenessResult>)

  /** The best-effort scan stage. Sweep results are collected into a list
      that lives outside the stage's try, so they survive a later throw;
      the violations are normalised only after the browser has closed. */
  function Scan(s: ScanOutcome): (r: ScanResult)
    requires WellFormedScan(s)
    ensures s.BrowserFailed? ==> r == ScanResult([], [])
    ensures s.Audited? ==> SweepPrefix(Viewports, s.steps, r.responsiveness)
    ensures s.Audited? && s.closeOk ==>
      |r.violations| == |s.raw| && forall i :: 0 <= i < |s.raw| ==> r.violations[i] == NormaliseViolation(s.raw[i])
    ensures s.Audited? && !s.closeOk ==> r.violations == []
  {
    match s
    case BrowserFailed => ScanResult([], [])
    case Audited(raw, steps, closeOk) =>
      ScanResult(if closeOk then Normalise(raw) else [], Sweep(Viewports, steps))
  }

  /** Everything outside the handler that decides its course: the browser,
      the performance tool and the random session id. */
  datatype Environment = Environment(scan: ScanOutcome, audit: AuditOutcome, sessionId: SessionId)

  /** The HTTP reply: 400 with an error, or 200 with the merged result
      (`lightHouseResults` is `null` when absent). */
  datatype Reply =
    | BadRequest(error: string)
    | Report(violations: seq<ResultViolation>, lightHouseResults: Option<AuditReport>,
             responsiveness: seq<ResponsivenessResult>)

  /** The reply together with what the handler did: the session map it
      leaves, the input it scanned (if any) and whether it ran the audit. */
  datatype Analysis = Analysis(reply: Reply, registry: Registry, scanned: Option<ScanInput>, auditAttempted: bool)

  function Analyse(req: AnalyseRequest, env: Environment, reg: Registry): (a: Analysis)
    requires WellFormedScan(env.scan)
    requires Fresh(reg, env.sessionId)
    ensures a.reply.BadRequest? <==> Truthy(req.html) == Truthy(req.url)
    ensures a.reply.BadRequest? ==> a.registry == reg && a.scanned == None && !a.auditAttempted
    ensures a.reply.Report? ==>
      a.scanned == Some(if Truthy(req.html) then HtmlInput(req.html.value) else UrlInput(req.url.value))
    ensures a.reply.Report? ==>
      a.reply.violations == Scan(env.scan).violations && a.reply.responsiveness == Scan(env.scan).responsiveness
    ensures a.auditAttempted <==> a.reply.Report? && PerformanceRequested(req.lightHouseRequired) && Truthy(req.html)
    ensures a.reply.Report? ==> (a.reply.lightHouseResults.Some? <==> a.auditAttempted && env.audit.Completes?)
    ensures a.reply.Report? && a.reply.lightHouseResults.Some? ==>
      a.reply.lightHouseResults.value == BuildReport(env.audit.raw)
    ensures !a.auditAttempted ==> a.registry == reg
    ensures a.auditAttempted && env.audit.Completes? ==> Entries(a.registry) == Entries(reg)
    ensures a.auditAttempted && !env.audit.Completes? ==>
      Resolve(a.registry, env.sessionId) == Found(req.html.value)
    ensures Valid(reg) ==> Valid(a.registry)
  {
    match Validate(req.html, req.url)
    case Failure(e) => Analysis(BadRequest(e), reg, None, false)
    case Success(input) =>
      var scan := Scan(env.scan);
      if PerformanceRequested(req.lightHouseRequired) && Truthy(req.html) then
        var run := RunLighthouseAudit(req.html.value, env.sessionId, reg, env.audit);
        Analysis(Report(scan.violations, run.result.ToOption(), scan.responsiveness), run.registry, Some(input), true)
      else
        Analysis(Report(scan.violations, None, scan.responsiveness), reg, Some(input), false)
  }

  /** A failing performance audit costs only the performance field: the reply
      is the one the same request gets without asking for the audit. */
  lemma AuditFailureIsolated(req: AnalyseRequest, env: Environment, reg: Registry)
    requires WellFormedScan(env.scan) && Fresh(reg, env.sessionId)
    requires !env.audit.Completes?
    ensures Analyse(req, env, reg).reply == Analyse(req.(lightHouseRequired := None), env, reg).reply
  {
  }

  /** A URL request never runs the audit, whatever the query says. */
  lemma UrlRequestNeverAudits(u: string, q: Option<string>, env: Environment, reg: Registry)
    requires WellFormedScan(env.scan) && Fresh(reg, env.sessionId)
    requires u != ""
    ensures !Analyse(AnalyseRequest(None, Some(u), q), env, reg).auditAttempted
    ensures Analyse(AnalyseRequest(None, Some(u), q), env, reg).reply.Report?
    ensures Analyse(AnalyseRequest(None, Some(u), q), env, reg).reply.lightHouseResults == None
  {
  }

  /** A rejected request's reply does not depend on how any stage would
      have gone: no stage runs. */
  lemma RejectionIgnoresStages(req: AnalyseRequest, env1: Environment, env2: Environment, reg: Registry)
    requires WellFormedScan(env1.scan) && Fresh(reg, env1.sessionId)
    requires WellFormedScan(env2.scan) && Fresh(reg, env2.sessionId)
    requires Truthy(req.html) == Truthy(req.url)
    ensures Analyse(req, env1, reg) == Analyse(req, env2, reg)
  {
  }

  /** Responsiveness entries in a reply are always an in-order, duplicate-free
      prefix of the four device profiles. */
  lemma ReplyResponsivenessOrdered(req: AnalyseRequest, env: Environment, reg: Registry)
    requires WellFormedScan(env.scan) && Fresh(reg, env.sessionId)
    requires Analyse(req, env, reg).reply.Report?
    ensures Names(Analyse(req, env, reg).reply.responsiveness) <= ViewportNames()
    ensures NoDuplicates(Names(Analyse(req, env, reg).reply.responsiveness))
  {
    if env.scan.Audited? {
      SweepIsOrderedPrefix(env.scan.steps);
    }
  }
}
