/** The life of one RabbitMQ delivery inside the Runner, as a protocol over events.

    An event is a backend call together with its answer, or the result of a piece of work.
    For each kind of delivery a pair of functions describes what an event leads to: `…After`
    says whether the delivery is settled (and how), a completion is sent (and which), or work
    continues; `…Proceeds` says which event then comes next.  The consumer methods are proved
    to produce only conforming traces; module DeliveryLaws says what those guarantee. */
module Delivery {
  import opened Wire
  import opened Supervision
  import opened Retry
  import opened PerformanceStore

  datatype Kind = API | SCENARIO | WEB | PERFORMANCE | RECORDING | EXPLORATION

  datatype Outcome = Acked | Requeued | Rejected | StoppedAuth

  datatype Settlement = Ack | NackRequeue | Reject

  function SettlementOf(o: Outcome): Settlement {
    match o
    case Acked => Ack
    case Requeued => NackRequeue
    case _ => Reject
  }

  /** Status and outcome words on the wire. */
  datatype Word =
    | SUCCESS | FAILED | REVIEW | TIMEOUT | CANCELLED | COMPLETED
    | ASSIGNED | RUNNING | CANCELLING | STOP_REQUESTED
    | HTTP_RESPONSE | EXECUTION_ERROR | PASS | OTHER

  datatype Why =
    | NoError | CANCEL_REQUESTED | FORCE_STOP_REQUESTED | TOTAL_TIMEOUT | TARGET_TIMEOUT | TARGET_NETWORK
    | ASSERTION_REVIEW | ASSERTION_FAILED | CLEANUP_ERROR | EVIDENCE_ERROR | EXECUTOR_ERROR | PROTOCOL_ERROR
    | RECORDING_TIMEOUT | STOP_UNRESPONSIVE | RESULT_INVALID | FromChild

  /** What a completion call carries. */
  datatype Sent = Sent(outcome: Word, why: Why, retries: nat, evaluated: bool) | Samples(doc: Doc)

  function Plain(outcome: Word, why: Why): Sent { Sent(outcome, why, 0, false) }

  /** What it answers.  Calls with a single status field put it in `runStatus`. */
  datatype Completed = NotACompletion | Completed(outcome: Word, runStatus: Word, caseStatus: Word)

  /** AI assertions left for the backend by a child: none, a usable list, or garbage. */
  datatype Ai = NoAi | GoodAi | BadAi

  /** The result mapping of a child: its outcome word and error, whether its list field is a
      list, its pending AI assertions, and whether its traces name exactly the planned nodes. */
  datatype Payload = Payload(outcome: Word, why: Why, wellFormed: bool, ai: Ai, exactTraces: bool)

  datatype End =
    | FORCE_STOPPED | TOTAL_TIMED_OUT | CANCEL_UNRESPONSIVE | STOP_UNHEARD | CANCELLED_KIND
    | BROKEN | BARE_RESULT | OTHER_KIND

  /** IsolatedOutcome: the kind's own result with a mapping (samples for a performance run),
      or any other kind. */
  datatype Iso = Result(payload: Payload) | Measured(doc: Doc) | Ended(end: End)

  /** The outcome a supervision exit stands for. */
  function IsoOf(e: Exit<Iso>): Iso
    requires !e.StillRunning? && !e.ControlFailed? && !e.ProcessFailed?
  {
    match e
    case Delivered(iso) => iso
    case TotalTimeout => Ended(TOTAL_TIMED_OUT)
    case CancelUnresponsive => Ended(CANCEL_UNRESPONSIVE)
    case StopUnresponsive => Ended(STOP_UNHEARD)
    case ForceStopped => Ended(FORCE_STOPPED)
    case Broken => Ended(BROKEN)
  }

  datatype ClaimView = ClaimView(status: Word, idempotent: bool)

  /** `typed`: the answer has the plan type; `needsTarget`: a second plan must be read. */
  datatype PlanView = PlanView(typed: bool, needsTarget: bool)

  /** Aggregate verdict on the AI assertions and whether every judged node has a trace. */
  datatype Judged = Judged(verdict: Word, nodesKnown: bool)

  datatype CleanResult =
    | NotMappings | CleanFault(fault: Fault) | CleanForced | CleanTimedOut | CleanBad | CleanDone(success: bool)

  /** Where in a delivery the control endpoint is read. */
  datatype Phase = Before | Race | Ready | AfterChild(iso: Iso) | AfterReport(report: Report, retries: nat)

  /** What a deferred cleanup belongs to. */
  datatype Cleaning =
    | ScenarioCleaning(iso: Iso, verdict: Word)
    | CancelCleaning(demand: Demand, retries: nat)
    | ReportCleaning(report: Report, retries: nat)

  datatype Event =
    | Envelope(valid: bool)
    | Slot(acquired: bool)
    | Unconfigured
    | Claim(claim: Reply<ClaimView>)
    | Plan(plan: Reply<PlanView>)
    | TargetPlan(target: Reply<bool>)
    | Start(planTyped: bool, start: Reply<Word>)
    | Asked(phase: Phase, control: Reply<Control>)
    | Child(iso: Iso)
    | ChildFault(fault: Fault)
    | Crashed(crash: Fault)
    | Explored(explored: Reply<Word>)
    | Recalled(iso: Iso)
    | StoreFault
    | Saved(iso: Iso, saved: bool)
    | Attempts(attempts: Retry.Result)
    | Evidence(iso: Iso, pending: Demand, evidence: Reply<bool>)
    | Evaluated(iso: Iso, judged: Reply<Judged>)
    | ReportEvaluated(report: Report, retries: nat, cleanupOutcome: Reply<Word>)
    | Cleaned(cleaning: Cleaning, cleaned: CleanResult)
    | Reporting(sent: Sent, answer: Reply<Completed>)
    | Completion(sent: Sent, answer: Reply<Completed>)
    | Settle(outcome: Outcome)

  /** What an event leads to. */
  datatype Next = Settles(outcome: Outcome) | Completes(sent: Sent) | Continues | Over

  // ---------------------------------------------------------------- shared decisions

  /** The ladder used before anything was reported: unknown errors are fatal. */
  function Strict(f: Fault): Outcome {
    match f
    case Auth => StoppedAuth
    case Transport => Requeued
    case _ => Rejected
  }

  /** The ladder used around reporting: unknown errors are retried by redelivery. */
  function Lenient(f: Fault): Outcome { if f.Unknown? then Requeued else Strict(f) }

  function SettlesStrictly<T>(r: Reply<T>): Next {
    if r.Raised? then Settles(Strict(r.fault)) else Continues
  }

  function SettlesLeniently<T>(r: Reply<T>): Next {
    if r.Raised? then Settles(Lenient(r.fault)) else Continues
  }

  function ForceWhy(d: Demand): Why { if d == Force then FORCE_STOP_REQUESTED else CANCEL_REQUESTED }

  predicate RunOutcome(w: Word) { (w == SUCCESS || w == FAILED || w == TIMEOUT || w == CANCELLED) }

  /** Before a claim: the envelope and the slot. */
  function Entry(e: Event): Next {
    match e
    case Envelope(valid) => if valid then Continues else Settles(Rejected)
    case Slot(acquired) => if acquired then Continues else Settles(Requeued)
    case _ => Over
  }

  /** The claim of a run: a cancelled run is acknowledged at once. */
  function RunClaim(r: Reply<ClaimView>): Next {
    if r.Ok? && r.value.status == CANCELLED then Settles(Acked) else SettlesStrictly(r)
  }

  function RunStart(r: Reply<Word>): Next {
    if r.Ok? && r.value == CANCELLING then Completes(Plain(CANCELLED, CANCEL_REQUESTED)) else SettlesStrictly(r)
  }

  /** A control answer of a run: a fault settles, a demand cancels.  Web runs report a force
      stop as an ordinary cancellation. */
  function RunControl(r: Reply<Control>, namesForce: bool): Next {
    match CheckControl(r)
    case Raised(f) => Settles(Strict(f))
    case Ok(d) =>
      if d == Clear then Continues
      else Completes(Plain(CANCELLED, if namesForce then ForceWhy(d) else CANCEL_REQUESTED))
  }

  /** Does a completion answer confirm a terminal state consistent with itself? */
  predicate Confirms(k: Kind, sent: Sent, c: Completed) {
    c.Completed? &&
    if sent.Samples? then (c.runStatus == SUCCESS || c.runStatus == FAILED)
    else match k
      case API | PERFORMANCE =>
        if c.outcome == TIMEOUT then c.runStatus == TIMEOUT && c.caseStatus == TIMEOUT
        else if c.outcome == CANCELLED then c.runStatus == CANCELLED && c.caseStatus == CANCELLED
        else (c.outcome == HTTP_RESPONSE || c.outcome == EXECUTION_ERROR) &&
             (c.runStatus == SUCCESS || c.runStatus == FAILED) &&
             (c.caseStatus == SUCCESS || c.caseStatus == FAILED || c.caseStatus == REVIEW)
      case SCENARIO | WEB =>
        if c.outcome == FAILED then
          (c.runStatus == FAILED || c.runStatus == REVIEW) && (c.caseStatus == FAILED || c.caseStatus == REVIEW)
        else
          (c.outcome == SUCCESS || c.outcome == TIMEOUT || c.outcome == CANCELLED) &&
          c.runStatus == c.outcome && c.caseStatus == c.outcome
      case RECORDING => c.outcome == sent.outcome && c.runStatus == sent.outcome
      case EXPLORATION => c.runStatus == sent.outcome
  }

  function AnsweredAs(k: Kind, sent: Sent, r: Reply<Completed>): Outcome {
    match r
    case Raised(f) => Lenient(f)
    case Ok(c) => if Confirms(k, sent, c) then Acked
                  else if sent.Samples? && c.NotACompletion? then Requeued else Rejected
  }

  /** The completion once AI assertions were judged. */
  function JudgedFinal(final: Sent, verdict: Word): Sent {
    if verdict != PASS then Sent(FAILED, if verdict == REVIEW then ASSERTION_REVIEW else ASSERTION_FAILED, 0, true)
    else if final.Samples? then final
    else final.(evaluated := true)
  }

  // ---------------------------------------------------------------- WEB_CASE

  function WebFinal(iso: Iso): Sent {
    match iso
    case Result(p) => Plain(p.outcome, if p.outcome == CANCELLED then CANCEL_REQUESTED else p.why)
    case Ended(FORCE_STOPPED) => Plain(CANCELLED, CANCEL_REQUESTED)
    case Ended(CANCEL_UNRESPONSIVE) => Plain(CANCELLED, CANCEL_REQUESTED)
    case Ended(TOTAL_TIMED_OUT) => Plain(TIMEOUT, Why.TOTAL_TIMEOUT)
    case _ => Plain(FAILED, EXECUTOR_ERROR)
  }

  predicate WebVoid(iso: Iso) {
    iso.Result? && (!RunOutcome(iso.payload.outcome) || !iso.payload.wellFormed || iso.payload.ai == BadAi)
  }

  predicate WebJudged(iso: Iso) {
    iso.Result? && iso.payload.ai == GoodAi && (iso.payload.outcome != CANCELLED && iso.payload.outcome != TIMEOUT)
  }

  function WebWork(iso: Iso): Next {
    if WebVoid(iso) then Settles(Rejected) else if WebJudged(iso) then Continues else Completes(WebFinal(iso))
  }

  /** Outcomes after which control is not read again. */
  predicate WebTerminal(iso: Iso) {
    iso.Ended? &&
    (iso.end == FORCE_STOPPED || iso.end == TOTAL_TIMED_OUT || iso.end == CANCEL_UNRESPONSIVE || iso.end == BROKEN)
  }

  predicate WebCancelled(iso: Iso) {
    iso == Ended(FORCE_STOPPED) || iso == Ended(CANCEL_UNRESPONSIVE) ||
    (iso.Result? && iso.payload.outcome == CANCELLED)
  }

  function WebEvidence(iso: Iso, pending: Demand, r: Reply<bool>): Next {
    if r == Raised(Auth) then Settles(StoppedAuth)
    else if pending != Clear then Completes(Plain(CANCELLED, CANCEL_REQUESTED))
    else if r.Ok? || WebCancelled(iso) then WebWork(iso)
    else if iso.Result? && iso.payload.exactTraces then Completes(Plain(FAILED, EVIDENCE_ERROR))
    else Settles(Lenient(r.fault))
  }

  /** A demand that arrives with a result is kept until the evidence is uploaded. */
  function WebPending(iso: Iso, r: Reply<Control>): Demand {
    if iso.Result? && CheckControl(r).Ok? then CheckControl(r).value else Clear
  }

  function WebAsked(iso: Iso, r: Reply<Control>): Next {
    if iso.Result? && CheckControl(r).Ok? then Continues else RunControl(r, false)
  }

  function WebEvaluated(iso: Iso, r: Reply<Judged>): Next {
    if r.Raised? then Settles(Lenient(r.fault)) else Completes(JudgedFinal(WebFinal(iso), r.value.verdict))
  }

  function WebAfter(e: Event): Next {
    match e
    case Claim(r) => RunClaim(r)
    case Plan(r) => SettlesStrictly(r)
    case Start(_, r) => RunStart(r)
    case Asked(AfterChild(iso), r) => WebAsked(iso, r)
    case Asked(_, r) => RunControl(r, false)
    case Child(iso) => Continues
    case ChildFault(f) => Settles(Strict(f))
    case Crashed(f) => Settles(Strict(f))
    case Evidence(iso, pending, r) => WebEvidence(iso, pending, r)
    case Evaluated(iso, r) => WebEvaluated(iso, r)
    case Completion(sent, r) => Settles(AnsweredAs(WEB, sent, r))
    case _ => Entry(e)
  }

  predicate WebProceeds(a: Event, b: Event) {
    match a
    case Envelope(_) => b.Slot?
    case Slot(_) => b.Claim?
    case Claim(_) => b.Plan?
    case Plan(_) => b.Start?
    case Start(_, _) => b.Asked? && b.phase == Before
    case Asked(AfterChild(iso), r) => b.Evidence? && b.iso == iso && b.pending == WebPending(iso, r)
    case Asked(Before, _) => b.Child? || b.ChildFault? || b.Crashed?
    case Child(iso) =>
      if WebTerminal(iso) then b.Evidence? && b.iso == iso && b.pending == Clear
      else b.Asked? && b.phase == AfterChild(iso)
    case Evidence(iso, _, _) => b.Evaluated? && b.iso == iso
    case _ => false
  }

  // ---------------------------------------------------------------- SCENARIO

  function ScenarioFinal(iso: Iso): Sent {
    match iso
    case Result(p) =>
      Plain(p.outcome, if p.outcome == CANCELLED && p.why != FORCE_STOP_REQUESTED then CANCEL_REQUESTED else p.why)
    case Ended(FORCE_STOPPED) => Plain(CANCELLED, FORCE_STOP_REQUESTED)
    case Ended(CANCEL_UNRESPONSIVE) => Plain(CANCELLED, CANCEL_REQUESTED)
    case Ended(TOTAL_TIMED_OUT) => Plain(TIMEOUT, Why.TOTAL_TIMEOUT)
    case _ => Plain(FAILED, EXECUTOR_ERROR)
  }

  predicate ScenarioVoid(iso: Iso) {
    iso.Result? &&
    var p := iso.payload;
    !RunOutcome(p.outcome) || !p.wellFormed || (p.ai != NoAi && (p.outcome != SUCCESS || p.ai == BadAi))
  }

  function ScenarioWork(iso: Iso): Next {
    if ScenarioVoid(iso) then Settles(Rejected)
    else if iso.Result? && iso.payload.ai == GoodAi then Continues
    else Completes(ScenarioFinal(iso))
  }

  function ScenarioAsked(iso: Iso, r: Reply<Control>): Next {
    if CheckControl(r) == Ok(Clear) then ScenarioWork(iso) else RunControl(r, true)
  }

  function ScenarioEvaluated(r: Reply<Judged>): Next {
    if r.Ok? && !r.value.nodesKnown then Settles(Rejected) else SettlesLeniently(r)
  }

  function ScenarioCleaned(iso: Iso, verdict: Word, r: CleanResult): Next {
    if !r.CleanDone? then Settles(Rejected)
    else Completes(if r.success then JudgedFinal(ScenarioFinal(iso), verdict) else Sent(FAILED, CLEANUP_ERROR, 0, true))
  }

  function ScenarioAfter(e: Event): Next {
    match e
    case Claim(r) => RunClaim(r)
    case Plan(r) => SettlesStrictly(r)
    case Start(_, r) => RunStart(r)
    case Asked(AfterChild(iso), r) => ScenarioAsked(iso, r)
    case Asked(_, r) => RunControl(r, true)
    case Child(_) => Continues
    case ChildFault(f) => Settles(Strict(f))
    case Evaluated(_, r) => ScenarioEvaluated(r)
    case Cleaned(ScenarioCleaning(iso, verdict), r) => ScenarioCleaned(iso, verdict, r)
    case Completion(sent, r) => Settles(AnsweredAs(SCENARIO, sent, r))
    case _ => Entry(e)
  }

  predicate ScenarioProceeds(a: Event, b: Event) {
    match a
    case Envelope(_) => b.Slot?
    case Slot(_) => b.Claim?
    case Claim(_) => b.Plan?
    case Plan(_) => b.Start?
    case Start(_, _) => b.Asked? && b.phase == Before
    case Asked(AfterChild(iso), _) => b.Evaluated? && b.iso == iso
    case Asked(Before, _) => b.Child? || b.ChildFault?
    case Child(iso) => b.Asked? && b.phase == AfterChild(iso)
    case Evaluated(iso, r) => b.Cleaned? && r.Ok? && b.cleaning == ScenarioCleaning(iso, r.value.verdict)
    case _ => false
  }

  // ---------------------------------------------------------------- API_CASE

  predicate IsDeferred(r: Report) { r.HttpResponse? && r.deferred.Some? }

  function ReportSent(r: Report, retries: nat, evaluated: bool): Sent {
    match r
    case HttpResponse(_) => Sent(HTTP_RESPONSE, NoError, retries, evaluated)
    case TargetTimedOut => Sent(TIMEOUT, Why.TARGET_TIMEOUT, retries, evaluated)
    case NetworkError => Sent(EXECUTION_ERROR, TARGET_NETWORK, retries, evaluated)
    case ExecutorError => Sent(EXECUTION_ERROR, EXECUTOR_ERROR, retries, evaluated)
  }

  /** An accepted report that leaves the run running: the next case follows. */
  predicate NextCase(r: Reply<Completed>) {
    && r.Ok? && r.value.Completed? && r.value.runStatus == RUNNING
    && (r.value.caseStatus == SUCCESS || r.value.caseStatus == FAILED || r.value.caseStatus == REVIEW ||
        r.value.caseStatus == TIMEOUT)
  }

  function ApiAttempts(r: Retry.Result): Next {
    match r
    case SettledBy(f) => Settles(Strict(f))
    case EndTimeout(n) => Completes(Sent(TIMEOUT, Why.TOTAL_TIMEOUT, n, false))
    case EndDemand(d, n) => Completes(Sent(CANCELLED, ForceWhy(d), n, false))
    case Reported(report, _) =>
      if IsDeferred(report) && !report.deferred.value.contextOk then Settles(Rejected) else Continues
    case Pending => Continues
  }

  function ApiReported(report: Report, n: nat, r: Reply<Control>): Next {
    match CheckControl(r)
    case Raised(f) => Settles(Strict(f))
    case Ok(d) =>
      if d != Clear && !IsDeferred(report) then Completes(Sent(CANCELLED, ForceWhy(d), n, false))
      else if d == Clear && IsDeferred(report) && !report.deferred.value.responseOk then Settles(Rejected)
      else Continues
  }

  predicate ApiReportedNext(report: Report, n: nat, r: Reply<Control>, b: Event) {
    if !IsDeferred(report) then b.Reporting? && b.sent == ReportSent(report, n, false)
    else if CheckControl(r) == Ok(Clear) then b.ReportEvaluated? && b.report == report && b.retries == n
    else b.Cleaned? && CheckControl(r).Ok? && b.cleaning == CancelCleaning(CheckControl(r).value, n)
  }

  function ApiCleaned(c: Cleaning, r: CleanResult): Next {
    match r
    case NotMappings => Settles(Rejected)
    case CleanFault(f) => Settles(Strict(f))
    case CleanForced => Completes(Plain(CANCELLED, FORCE_STOP_REQUESTED))
    case CleanTimedOut => Completes(Plain(TIMEOUT, Why.TOTAL_TIMEOUT))
    case CleanBad => Completes(Plain(EXECUTION_ERROR, CLEANUP_ERROR))
    case CleanDone(_) =>
      if c.CancelCleaning? then Completes(Sent(CANCELLED, ForceWhy(c.demand), c.retries, false)) else Continues
  }

  function ApiAfter(e: Event): Next {
    match e
    case Claim(r) => RunClaim(r)
    case Plan(r) => SettlesStrictly(r)
    case Start(_, r) => RunStart(r)
    case Asked(AfterReport(report, n), r) => ApiReported(report, n, r)
    case Asked(_, r) => RunControl(r, true)
    case Attempts(r) => ApiAttempts(r)
    case ReportEvaluated(_, _, r) => SettlesLeniently(r)
    case Cleaned(c, r) => ApiCleaned(c, r)
    case Reporting(sent, r) => if NextCase(r) then Continues else Settles(AnsweredAs(API, sent, r))
    case Completion(sent, r) => Settles(AnsweredAs(API, sent, r))
    case _ => Entry(e)
  }

  predicate ApiProceeds(a: Event, b: Event) {
    match a
    case Envelope(_) => b.Slot?
    case Slot(_) => b.Claim?
    case Claim(_) => b.Plan?
    case Plan(_) => b.Start?
    case Start(_, _) => b.Asked? && b.phase == Before
    case Asked(AfterReport(report, n), r) => ApiReportedNext(report, n, r, b)
    case Asked(Before, _) => b.Attempts?
    case Attempts(r) => r.Reported? && b.Asked? && b.phase == AfterReport(r.report, r.retries)
    case ReportEvaluated(report, n, _) => b.Cleaned? && b.cleaning == ReportCleaning(report, n)
    case Cleaned(c, _) => c.ReportCleaning? && b.Reporting? && b.sent == ReportSent(c.report, c.retries, true)
    case Reporting(_, _) => b.Plan?
    case _ => false
  }

  // ---------------------------------------------------------------- PERFORMANCE

  function PerformanceFinal(iso: Iso): Sent {
    match iso
    case Measured(doc) => if Reportable(doc) then Samples(doc) else Plain(EXECUTION_ERROR, RESULT_INVALID)
    case Ended(TOTAL_TIMED_OUT) => Plain(TIMEOUT, Why.TOTAL_TIMEOUT)
    case Ended(FORCE_STOPPED) => Plain(CANCELLED, FORCE_STOP_REQUESTED)
    case Ended(CANCEL_UNRESPONSIVE) => Plain(CANCELLED, CANCEL_REQUESTED)
    case Ended(CANCELLED_KIND) => Plain(CANCELLED, CANCEL_REQUESTED)
    case _ => Plain(EXECUTION_ERROR, EXECUTOR_ERROR)
  }

  /** A fault inside the handler once the plan is known: a cancelled execution is reported. */
  function PerformanceFault(f: Fault): Next {
    if f == Execution(true) then Completes(Plain(CANCELLED, CANCEL_REQUESTED)) else Settles(Lenient(f))
  }

  function PerformanceClaim(r: Reply<ClaimView>): Next {
    if r.Ok? && r.value.status == CANCELLED then Settles(Acked) else SettlesLeniently(r)
  }

  function PerformanceStep<T>(r: Reply<T>): Next { if r.Raised? then PerformanceFault(r.fault) else Continues }

  function PerformanceStart(r: Reply<Word>): Next {
    if r == Ok(CANCELLING) then Completes(Plain(CANCELLED, CANCEL_REQUESTED)) else PerformanceStep(r)
  }

  function PerformanceAfter(e: Event): Next {
    match e
    case Unconfigured => Settles(Rejected)
    case Claim(r) => PerformanceClaim(r)
    case Plan(r) => SettlesLeniently(r)
    case TargetPlan(r) => PerformanceStep(r)
    case Start(_, r) => PerformanceStart(r)
    case Asked(_, r) => RunControl(r, true)
    case Child(_) => Continues
    case ChildFault(f) => Settles(Strict(f))
    case Crashed(f) => PerformanceFault(f)
    case Recalled(iso) => Completes(PerformanceFinal(iso))
    case StoreFault => Settles(Rejected)
    case Saved(iso, saved) => if saved then Completes(PerformanceFinal(iso)) else Settles(Requeued)
    case Completion(sent, r) => Settles(AnsweredAs(PERFORMANCE, sent, r))
    case _ => Entry(e)
  }

  predicate PerformanceProceeds(a: Event, b: Event) {
    match a
    case Envelope(_) => b.Slot?
    case Slot(_) => b.Claim? || b.Unconfigured?
    case Claim(_) => b.Plan?
    case Plan(r) => if r.Ok? && r.value.needsTarget then b.TargetPlan? else b.Start?
    case TargetPlan(_) => b.Start?
    case Start(_, _) => b.Asked? && b.phase == Before
    case Asked(Before, _) => b.Child? || b.ChildFault? || b.Crashed? || b.Recalled? || b.StoreFault?
    case Child(iso) => b.Saved? && b.iso == iso && (b.saved || iso.Measured? || iso == Ended(BARE_RESULT))
    case _ => false
  }

  // ---------------------------------------------------------------- WEB_RECORDING

  function RecordingFinal(iso: Iso): Sent {
    match iso
    case Result(p) => Plain(p.outcome, if p.outcome == CANCELLED then CANCEL_REQUESTED else p.why)
    case Ended(TOTAL_TIMED_OUT) => Plain(FAILED, RECORDING_TIMEOUT)
    case Ended(STOP_UNHEARD) => Plain(FAILED, STOP_UNRESPONSIVE)
    case Ended(CANCEL_UNRESPONSIVE) => Plain(CANCELLED, CANCEL_REQUESTED)
    case Ended(FORCE_STOPPED) => Plain(CANCELLED, CANCEL_REQUESTED)
    case _ => Plain(FAILED, EXECUTOR_ERROR)
  }

  predicate RecordingVoid(iso: Iso) {
    && iso.Result?
    && ((iso.payload.outcome != COMPLETED && iso.payload.outcome != FAILED && iso.payload.outcome != CANCELLED)
        || !iso.payload.wellFormed)
  }

  function RecordingControl(phase: Phase, r: Reply<Control>): Next {
    match r
    case Raised(f) => Settles(Strict(f))
    case Ok(Malformed) => Settles(Rejected)
    case Ok(Flags(stop, cancel, _)) =>
      if cancel then Completes(Plain(CANCELLED, CANCEL_REQUESTED))
      else if phase.AfterChild? then
        (if RecordingVoid(phase.iso) then Settles(Rejected) else Completes(RecordingFinal(phase.iso)))
      else if stop then Completes(Plain(COMPLETED, NoError))
      else if phase.Race? then Settles(Rejected)
      else Continues
  }

  function RecordingClaim(r: Reply<ClaimView>): Next {
    if r.Raised? then Settles(Strict(r.fault))
    else if r.value.status == CANCELLED ||
        (r.value.idempotent && (r.value.status == COMPLETED || r.value.status == FAILED)) then
      Settles(Acked)
    else if r.value.status == STOP_REQUESTED then Completes(Plain(COMPLETED, NoError))
    else Continues
  }

  /** A conflict on the plan may be a stop or cancel that landed in between: ask again. */
  function RecordingPlan(r: Reply<PlanView>): Next {
    if r == Raised(Protocol) then Continues else SettlesStrictly(r)
  }

  function RecordingStart(r: Reply<Word>): Next {
    if r == Ok(STOP_REQUESTED) then Completes(Plain(COMPLETED, NoError)) else SettlesStrictly(r)
  }

  function RecordingAfter(e: Event): Next {
    match e
    case Claim(r) => RecordingClaim(r)
    case Plan(r) => RecordingPlan(r)
    case Start(_, r) => RecordingStart(r)
    case Asked(phase, r) => RecordingControl(phase, r)
    case Child(_) => Continues
    case ChildFault(f) => Settles(Strict(f))
    case Completion(sent, r) => Settles(AnsweredAs(RECORDING, sent, r))
    case _ => Entry(e)
  }

  predicate RecordingProceeds(a: Event, b: Event) {
    match a
    case Envelope(_) => b.Slot?
    case Slot(_) => b.Claim?
    case Claim(_) => b.Asked? && b.phase == Before
    case Asked(Before, _) => b.Plan?
    case Plan(r) => if r.Raised? then b.Asked? && b.phase == Race else b.Start?
    case Start(_, _) => b.Asked? && b.phase == Ready
    case Asked(Ready, _) => b.Child? || b.ChildFault?
    case Child(iso) => b.Asked? && b.phase == AfterChild(iso)
    case _ => false
  }

  // ---------------------------------------------------------------- WEB_EXPLORATION

  /** Once claimed, protocol-level faults are reported as a failure of the exploration. */
  function ExplorationFault(f: Fault): Next {
    if f.Protocol? || f.Runner? || f.Execution? then Completes(Plain(FAILED, PROTOCOL_ERROR)) else Settles(Strict(f))
  }

  function ExplorationClaim(r: Reply<ClaimView>): Next {
    if r.Raised? then Settles(Strict(r.fault))
    else if r.value.status == COMPLETED || r.value.status == FAILED || r.value.status == CANCELLED then Settles(Acked)
    else if r.value.status == STOP_REQUESTED then Completes(Plain(COMPLETED, NoError))
    else Continues
  }

  function ExplorationControl(r: Reply<Control>): Next {
    match r
    case Raised(f) => ExplorationFault(f)
    case Ok(Malformed) => Settles(Rejected)
    case Ok(Flags(_, cancel, _)) => if cancel then Completes(Plain(CANCELLED, CANCEL_REQUESTED)) else Continues
  }

  function ExplorationPlan(r: Reply<PlanView>): Next { if r.Raised? then ExplorationFault(r.fault) else Continues }

  function ExplorationStart(typed: bool, r: Reply<Word>): Next {
    if r.Raised? then ExplorationFault(r.fault)
    else if r.value == RUNNING && typed then Continues
    else Completes(Plain(FAILED, PROTOCOL_ERROR))
  }

  function ExplorationDone(r: Reply<Word>): Next {
    if r.Ok? then Completes(Plain(r.value, FromChild))
    else if r.fault.Unknown? then Completes(Plain(FAILED, EXECUTOR_ERROR))
    else ExplorationFault(r.fault)
  }

  function ExplorationAfter(e: Event): Next {
    match e
    case Claim(r) => ExplorationClaim(r)
    case Asked(_, r) => ExplorationControl(r)
    case Plan(r) => ExplorationPlan(r)
    case Start(typed, r) => ExplorationStart(typed, r)
    case Explored(r) => ExplorationDone(r)
    case Completion(sent, r) => Settles(AnsweredAs(EXPLORATION, sent, r))
    case _ => Entry(e)
  }

  predicate ExplorationProceeds(a: Event, b: Event) {
    match a
    case Envelope(_) => b.Slot?
    case Slot(_) => b.Claim?
    case Claim(_) => b.Asked? && b.phase == Before
    case Asked(Before, _) => b.Plan?
    case Plan(r) => r.Ok? && b.Start? && b.planTyped == r.value.typed
    case Start(_, _) => b.Explored?
    case _ => false
  }

  // ---------------------------------------------------------------- traces

  function After(k: Kind, e: Event): Next {
    match k
    case API => ApiAfter(e)
    case SCENARIO => ScenarioAfter(e)
    case WEB => WebAfter(e)
    case PERFORMANCE => PerformanceAfter(e)
    case RECORDING => RecordingAfter(e)
    case EXPLORATION => ExplorationAfter(e)
  }

  predicate Proceeds(k: Kind, a: Event, b: Event) {
    match k
    case API => ApiProceeds(a, b)
    case SCENARIO => ScenarioProceeds(a, b)
    case WEB => WebProceeds(a, b)
    case PERFORMANCE => PerformanceProceeds(a, b)
    case RECORDING => RecordingProceeds(a, b)
    case EXPLORATION => ExplorationProceeds(a, b)
  }

  /** `b` is what an event with consequence `next` demands, or one it permits. */
  predicate Permits(next: Next, permitted: bool, b: Event) {
    match next
    case Settles(o) => b == Settle(o)
    case Completes(sent) => b.Completion? && b.sent == sent
    case Continues => permitted
    case Over => false
  }

  predicate Follows(k: Kind, a: Event, b: Event) { Permits(After(k, a), Proceeds(k, a, b), b) }

  function Last(t: seq<Event>): Event
    requires t != []
  {
    t[|t| - 1]
  }

  ghost predicate StepOk(rule: (Event, Event) -> bool, t: seq<Event>, i: nat)
    requires 0 < i < |t|
  {
    rule(t[i - 1], t[i])
  }

  /** A trace that starts with an envelope and in which every event follows the previous one. */
  ghost predicate Obeys(rule: (Event, Event) -> bool, t: seq<Event>) {
    t != [] && t[0].Envelope? && forall i :: 0 < i < |t| ==> StepOk(rule, t, i)
  }

  ghost function RuleOf(k: Kind): (Event, Event) -> bool { (a, b) => Follows(k, a, b) }

  ghost predicate Conforms(k: Kind, t: seq<Event>) { Obeys(RuleOf(k), t) }

  lemma Extend(rule: (Event, Event) -> bool, t: seq<Event>, e: Event)
    requires if t == [] then e.Envelope? else Obeys(rule, t) && rule(Last(t), e)
    ensures Obeys(rule, t + [e])
  {
    forall i | 0 < i < |t + [e]|
      ensures StepOk(rule, t + [e], i)
    {
      if i < |t| { assert StepOk(rule, t, i); }
    }
  }
}
