/** The performance audit runner: publish the HTML, let the audit tool fetch
    it by URL, turn the tool's numbers into the categorised report, clean up. */
module Performance {
  import opened Wrappers
  import opened Js
  import opened Metrics
  import opened Sessions

  /** The numbers read from the tool's JSON report: five audit values and
      the four 0-1 category scores. */
  datatype RawReport = RawReport(
    fcp: real,
    lcp: real,
    cls: real,
    totalBlockingTime: real,
    serverResponseTime: real,
    performance: real,
    accessibility: real,
    bestPractices: real,
    seo: real)

  /** The audit value a metric is computed from. */
  function RawValue(raw: RawReport, m: Metric): real {
    match m
    case FirstContentfulPaint => raw.fcp
    case LargestContentfulPaint => raw.lcp
    case CumulativeLayoutShift => raw.cls
    case InteractionToNextPaint => raw.totalBlockingTime
    case TimeToFirstByte => raw.serverResponseTime
  }

  datatype MetricResult = MetricResult(percentile: real, category: Category)

  datatype CategoryScores = CategoryScores(
    performance: real, accessibility: real, bestPractices: real, seo: real)

  /** The audit result the service returns. */
  datatype AuditReport = AuditReport(
    overall: Category,
    fcp: MetricResult,
    lcp: MetricResult,
    cls: MetricResult,
    inp: MetricResult,
    ttfb: MetricResult,
    scores: CategoryScores)

  function MetricOf(a: AuditReport, m: Metric): MetricResult {
    match m
    case FirstContentfulPaint => a.fcp
    case LargestContentfulPaint => a.lcp
    case CumulativeLayoutShift => a.cls
    case InteractionToNextPaint => a.inp
    case TimeToFirstByte => a.ttfb
  }

  /** One metric entry: the millisecond metrics report a rounded percentile,
      layout shift its raw score; the category uses the unrounded value. */
  function MetricEntry(raw: RawReport, m: Metric): (e: MetricResult)
    ensures e.category == Good <==> RawValue(raw, m) <= LimitsOf(m).good
    ensures e.category == Poor <==> LimitsOf(m).needsImprovement < RawValue(raw, m)
    ensures m == CumulativeLayoutShift ==> e.percentile == RawValue(raw, m)
    ensures m != CumulativeLayoutShift ==> e.percentile == Round(RawValue(raw, m)) as real
    ensures RawValue(raw, m) - 0.5 < e.percentile <= RawValue(raw, m) + 0.5
  {
    var v := RawValue(raw, m);
    MetricResult(if m == CumulativeLayoutShift then v else Round(v) as real, Classify(m, v))
  }

  /** The report built from the tool's numbers. */
  function BuildReport(raw: RawReport): (a: AuditReport)
    ensures a.overall == Good <==> 0.9 <= raw.performance
    ensures a.overall == Poor <==> raw.performance < 0.5
    ensures forall m :: MetricOf(a, m).category == Good <==> RawValue(raw, m) <= LimitsOf(m).good
    ensures forall m :: MetricOf(a, m).category == Poor <==> LimitsOf(m).needsImprovement < RawValue(raw, m)
    ensures a.cls.percentile == raw.cls
    ensures forall m :: RawValue(raw, m) - 0.5 < MetricOf(a, m).percentile <= RawValue(raw, m) + 0.5
    ensures a.scores == CategoryScores(raw.performance, raw.accessibility, raw.bestPractices, raw.seo)
  {
    AuditReport(
      Overall(raw.performance),
      MetricEntry(raw, FirstContentfulPaint),
      MetricEntry(raw, LargestContentfulPaint),
      MetricEntry(raw, CumulativeLayoutShift),
      MetricEntry(raw, InteractionToNextPaint),
      MetricEntry(raw, TimeToFirstByte),
      CategoryScores(raw.performance, raw.accessibility, raw.bestPractices, raw.seo))
  }

  /** How the external steps of one audit go. Each failing step throws out
      of the runner at that point. */
  datatype AuditOutcome =
    | LaunchFails              // launching the dedicated browser threw
    | ToolFails                // the audit tool threw or gave no parsable report
    | KillFails(raw: RawReport) // the numbers were read but killing the browser threw
    | Completes(raw: RawReport) // every step succeeded

  datatype AuditError = EmptyHtml | Crashed

  /** The runner's result and the session map it leaves behind. */
  datatype AuditRun = AuditRun(result: Result<AuditReport, AuditError>, registry: Registry)

  /** One audit of `html` using the fresh session id `id`. The entry is
      deleted only once everything else has succeeded: a failure after
      publishing leaves it in the map. */
  function RunLighthouseAudit(html: string, id: SessionId, reg: Registry, outcome: AuditOutcome): (run: AuditRun)
    requires Fresh(reg, id)
    ensures html == "" ==> run == AuditRun(Failure(EmptyHtml), reg)
    ensures run.result.Success? <==> html != "" && outcome.Completes?
    ensures run.result.Success? ==> run.result.value == BuildReport(outcome.raw)
    ensures html != "" && outcome.Completes? ==> run.registry.Table? && Entries(run.registry) == Entries(reg)
    ensures html != "" && !outcome.Completes? ==> Entries(run.registry) == Entries(reg)[id := html]
    ensures Valid(reg) ==> Valid(run.registry)
  {
    match Publish(reg, id, html)
    case Failure(_) => AuditRun(Failure(EmptyHtml), reg)
    case Success(published) =>
      PublishRevokeRoundTrip(reg, id, html);
      if outcome.Completes? then
        AuditRun(Success(BuildReport(outcome.raw)), Revoke(published, id))
      else
        AuditRun(Failure(Crashed), published)
  }

  /** A failed audit leaves its page published: the session stays resolvable. */
  lemma AuditFailureLeavesSession(html: string, id: SessionId, reg: Registry, outcome: AuditOutcome)
    requires Fresh(reg, id) && html != "" && !outcome.Completes?
    ensures RunLighthouseAudit(html, id, reg, outcome).result == Failure(Crashed)
    ensures Resolve(RunLighthouseAudit(html, id, reg, outcome).registry, id) == Found(html)
  {
  }

  /** A successful audit no longer serves its session. */
  lemma AuditSuccessRevokes(html: string, id: SessionId, reg: Registry, raw: RawReport)
    requires Fresh(reg, id) && html != ""
    ensures Resolve(RunLighthouseAudit(html, id, reg, Completes(raw)).registry, id) == NotFound
  {
  }

  /** In the published state the audit runs against, the path of the URL
      handed to the tool routes to the session id, which is answered with
      exactly the published HTML. */
  lemma ToolFetchesPublishedHtml(html: string, id: SessionId, reg: Registry, port: string)
    requires Fresh(reg, id) && html != "" && id != "" && '/' !in id
    ensures var u := AuditUrl(port, id);
      RouteParam(u[|u| - |SessionPath(id)|..]) == Some(id)
    ensures Resolve(Publish(reg, id, html).value, id) == Found(html)
  {
    RouteRoundTrip(id);
    PublishThenResolve(reg, id, html);
  }
}
