/** Why a delivery is completed, requeued, rejected or goes on, read off its events: the same
    decisions as module Delivery makes, stated by reason and on the answers themselves. */
module Reasons {
  import opened Wire
  import opened Supervision
  import opened Retry
  import opened PerformanceStore
  import opened Delivery
  import opened Observations
  import opened DeliveryLaws

  // ---------------------------------------------------------------- control answers

  predicate CancelFlag(r: Reply<Control>) { r.Ok? && r.value.Flags? && r.value.cancel }

  predicate ForceFlag(r: Reply<Control>) { r.Ok? && r.value.Flags? && r.value.force }

  predicate StopFlag(r: Reply<Control>) { r.Ok? && r.value.Flags? && r.value.stop }

  /** Answered, and neither cancel nor force is set. */
  predicate Silent(r: Reply<Control>) { r.Ok? && r.value.Flags? && !r.value.cancel && !r.value.force }

  const CANCELLATION := Sent(CANCELLED, CANCEL_REQUESTED, 0, false)

  /** A demand that names a force stop as such. */
  predicate Stopped(r: Reply<Control>, retries: nat, sent: Sent) {
    if ForceFlag(r) then sent == Sent(CANCELLED, FORCE_STOP_REQUESTED, retries, false)
    else CancelFlag(r) && sent == Sent(CANCELLED, CANCEL_REQUESTED, retries, false)
  }

  // ---------------------------------------------------------------- outcomes of children

  predicate RunWord(w: Word) { w in {SUCCESS, FAILED, TIMEOUT, CANCELLED} }

  /** A result of a web child that cannot be reported. */
  predicate WebUnusable(iso: Iso) {
    iso.Result? && !(RunWord(iso.payload.outcome) && iso.payload.wellFormed && iso.payload.ai != BadAi)
  }

  /** A result whose AI assertions the backend has to judge. */
  predicate WebOpen(iso: Iso) {
    iso.Result? && iso.payload.ai == GoodAi && iso.payload.outcome !in {CANCELLED, TIMEOUT}
  }

  /** What a web outcome is completed with. */
  predicate WebSays(iso: Iso, sent: Sent) {
    if iso.Result? then
      sent == Sent(iso.payload.outcome, if iso.payload.outcome == CANCELLED then CANCEL_REQUESTED else iso.payload.why,
                   0, false)
    else if iso == Ended(TOTAL_TIMED_OUT) then sent == Sent(TIMEOUT, Why.TOTAL_TIMEOUT, 0, false)
    else if iso == Ended(FORCE_STOPPED) || iso == Ended(End.CANCEL_UNRESPONSIVE) then sent == CANCELLATION
    else sent == Sent(FAILED, EXECUTOR_ERROR, 0, false)
  }

  predicate ScenarioUnusable(iso: Iso) {
    && iso.Result?
    && !(RunWord(iso.payload.outcome) && iso.payload.wellFormed &&
         (iso.payload.ai == NoAi || (iso.payload.ai == GoodAi && iso.payload.outcome == SUCCESS)))
  }

  predicate ScenarioSays(iso: Iso, sent: Sent) {
    if iso.Result? then
      && sent.Sent? && sent.outcome == iso.payload.outcome && sent.retries == 0 && !sent.evaluated
      && (if iso.payload.outcome != CANCELLED || iso.payload.why == FORCE_STOP_REQUESTED
          then sent.why == iso.payload.why else sent.why == CANCEL_REQUESTED)
    else if iso == Ended(TOTAL_TIMED_OUT) then sent == Sent(TIMEOUT, Why.TOTAL_TIMEOUT, 0, false)
    else if iso == Ended(FORCE_STOPPED) then sent == Sent(CANCELLED, FORCE_STOP_REQUESTED, 0, false)
    else if iso == Ended(End.CANCEL_UNRESPONSIVE) then sent == CANCELLATION
    else sent == Sent(FAILED, EXECUTOR_ERROR, 0, false)
  }

  /** What a judged outcome is completed with: its own completion, marked as evaluated, or the
      verdict against it. */
  predicate JudgedSays(own: Sent, verdict: Word, sent: Sent) {
    if verdict == PASS then own.Sent? && sent == Sent(own.outcome, own.why, own.retries, true)
    else if verdict == REVIEW then sent == Sent(FAILED, ASSERTION_REVIEW, 0, true)
    else sent == Sent(FAILED, ASSERTION_FAILED, 0, true)
  }

  /** Samples go out as they were measured; anything else ends the run. */
  predicate PerformanceSays(iso: Iso, sent: Sent) {
    if iso.Measured? && iso.doc.wall.Some? && iso.doc.samples.Some? then sent == Samples(iso.doc)
    else if iso.Measured? then sent == Sent(EXECUTION_ERROR, RESULT_INVALID, 0, false)
    else if iso == Ended(TOTAL_TIMED_OUT) then sent == Sent(TIMEOUT, Why.TOTAL_TIMEOUT, 0, false)
    else if iso == Ended(FORCE_STOPPED) then sent == Sent(CANCELLED, FORCE_STOP_REQUESTED, 0, false)
    else if iso == Ended(End.CANCEL_UNRESPONSIVE) || iso == Ended(CANCELLED_KIND) then sent == CANCELLATION
    else sent == Sent(EXECUTION_ERROR, EXECUTOR_ERROR, 0, false)
  }

  predicate RecordingUnusable(iso: Iso) {
    iso.Result? && !(iso.payload.outcome in {COMPLETED, FAILED, CANCELLED} && iso.payload.wellFormed)
  }

  predicate RecordingSays(iso: Iso, sent: Sent) {
    if iso.Result? then
      sent == Sent(iso.payload.outcome, if iso.payload.outcome == CANCELLED then CANCEL_REQUESTED else iso.payload.why,
                   0, false)
    else if iso == Ended(TOTAL_TIMED_OUT) then sent == Sent(FAILED, RECORDING_TIMEOUT, 0, false)
    else if iso == Ended(STOP_UNHEARD) then sent == Sent(FAILED, Why.STOP_UNRESPONSIVE, 0, false)
    else if iso == Ended(FORCE_STOPPED) || iso == Ended(End.CANCEL_UNRESPONSIVE) then sent == CANCELLATION
    else sent == Sent(FAILED, EXECUTOR_ERROR, 0, false)
  }

  /** The web child itself was cancelled: missing evidence is no reason against the report. */
  predicate CancelledChild(iso: Iso) {
    iso in {Ended(FORCE_STOPPED), Ended(End.CANCEL_UNRESPONSIVE)} || (iso.Result? && iso.payload.outcome == CANCELLED)
  }

  /** Outcomes of a web child after which control is not read again. */
  predicate EndedForGood(iso: Iso) {
    iso in {Ended(FORCE_STOPPED), Ended(TOTAL_TIMED_OUT), Ended(End.CANCEL_UNRESPONSIVE), Ended(BROKEN)}
  }

  predicate ProtocolLevel(f: Fault) { f.Protocol? || f.Runner? || f.Execution? }

  predicate Postponed(report: Report) { report.HttpResponse? && report.deferred.Some? }

  // ---------------------------------------------------------------- completions

  /** Does this event call for this completion? */
  ghost predicate Explains(k: Kind, e: Event, sent: Sent) {
    match k
    case API => ApiExplains(e, sent)
    case SCENARIO => ScenarioExplains(e, sent)
    case WEB => WebExplains(e, sent)
    case PERFORMANCE => PerformanceExplains(e, sent)
    case RECORDING => RecordingExplains(e, sent)
    case EXPLORATION => ExplorationExplains(e, sent)
  }

  predicate ApiExplains(e: Event, sent: Sent) {
    || (e.Start? && e.start == Ok(CANCELLING) && sent == CANCELLATION)
    || (e.Asked? && !e.phase.AfterReport? && Stopped(e.control, 0, sent))
    || (e.Asked? && e.phase.AfterReport? && !Postponed(e.phase.report) && Stopped(e.control, e.phase.retries, sent))
    || (e.Attempts? && e.attempts.EndTimeout? && sent == Sent(TIMEOUT, Why.TOTAL_TIMEOUT, e.attempts.retries, false))
    || (e.Attempts? && e.attempts.EndDemand? && e.attempts.demand == Force &&
        sent == Sent(CANCELLED, FORCE_STOP_REQUESTED, e.attempts.retries, false))
    || (e.Attempts? && e.attempts.EndDemand? && e.attempts.demand != Force &&
        sent == Sent(CANCELLED, CANCEL_REQUESTED, e.attempts.retries, false))
    || (e.Cleaned? && e.cleaned == CleanForced && sent == Sent(CANCELLED, FORCE_STOP_REQUESTED, 0, false))
    || (e.Cleaned? && e.cleaned == CleanTimedOut && sent == Sent(TIMEOUT, Why.TOTAL_TIMEOUT, 0, false))
    || (e.Cleaned? && e.cleaned == CleanBad && sent == Sent(EXECUTION_ERROR, CLEANUP_ERROR, 0, false))
    || (e.Cleaned? && e.cleaned.CleanDone? && e.cleaning.CancelCleaning? &&
        sent == Sent(CANCELLED, if e.cleaning.demand == Force then FORCE_STOP_REQUESTED else CANCEL_REQUESTED,
                     e.cleaning.retries, false))
  }

  ghost predicate ScenarioExplains(e: Event, sent: Sent) {
    || (e.Start? && e.start == Ok(CANCELLING) && sent == CANCELLATION)
    || (e.Asked? && Stopped(e.control, 0, sent))
    || (e.Asked? && e.phase.AfterChild? && Silent(e.control) && !ScenarioUnusable(e.phase.iso) &&
        !(e.phase.iso.Result? && e.phase.iso.payload.ai == GoodAi) && ScenarioSays(e.phase.iso, sent))
    || (e.Cleaned? && e.cleaning.ScenarioCleaning? && e.cleaned == CleanDone(true) &&
        exists own :: ScenarioSays(e.cleaning.iso, own) && JudgedSays(own, e.cleaning.verdict, sent))
    || (e.Cleaned? && e.cleaning.ScenarioCleaning? && e.cleaned == CleanDone(false) &&
        sent == Sent(FAILED, CLEANUP_ERROR, 0, true))
  }

  ghost predicate WebExplains(e: Event, sent: Sent) {
    || (e.Start? && e.start == Ok(CANCELLING) && sent == CANCELLATION)
    || (e.Asked? && !(e.phase.AfterChild? && e.phase.iso.Result?) && (ForceFlag(e.control) || CancelFlag(e.control)) &&
        sent == CANCELLATION)
    || (e.Evidence? && e.evidence != Raised(Auth) && e.pending != Clear && sent == CANCELLATION)
    || (e.Evidence? && e.pending == Clear &&
        (e.evidence.Ok? || (e.evidence != Raised(Auth) && CancelledChild(e.iso))) &&
        !WebUnusable(e.iso) && !WebOpen(e.iso) && WebSays(e.iso, sent))
    || (e.Evidence? && e.pending == Clear && e.evidence.Raised? && !e.evidence.fault.Auth? && !CancelledChild(e.iso) &&
        e.iso.Result? && e.iso.payload.exactTraces && sent == Sent(FAILED, EVIDENCE_ERROR, 0, false))
    || (e.Evaluated? && e.judged.Ok? &&
        exists own :: WebSays(e.iso, own) && JudgedSays(own, e.judged.value.verdict, sent))
  }

  predicate PerformanceExplains(e: Event, sent: Sent) {
    || (e.Start? && e.start == Ok(CANCELLING) && sent == CANCELLATION)
    || (e.Asked? && Stopped(e.control, 0, sent))
    || (e == TargetPlan(Raised(Execution(true))) && sent == CANCELLATION)
    || (e.Start? && e.start == Raised(Execution(true)) && sent == CANCELLATION)
    || (e == Crashed(Execution(true)) && sent == CANCELLATION)
    || (e.Recalled? && PerformanceSays(e.iso, sent))
    || (e.Saved? && e.saved && PerformanceSays(e.iso, sent))
  }

  const STOPPED_RECORDING := Sent(COMPLETED, NoError, 0, false)

  predicate RecordingExplains(e: Event, sent: Sent) {
    || (e.Claim? && e.claim.Ok? && e.claim.value.status == STOP_REQUESTED && sent == STOPPED_RECORDING)
    || (e.Start? && e.start == Ok(STOP_REQUESTED) && sent == STOPPED_RECORDING)
    || (e.Asked? && CancelFlag(e.control) && sent == CANCELLATION)
    || (e.Asked? && !CancelFlag(e.control) && StopFlag(e.control) && !e.phase.AfterChild? && sent == STOPPED_RECORDING)
    || (e.Asked? && e.control.Ok? && e.control.value.Flags? && !CancelFlag(e.control) && e.phase.AfterChild? &&
        !RecordingUnusable(e.phase.iso) && RecordingSays(e.phase.iso, sent))
  }

  const BROKEN_PROTOCOL := Sent(FAILED, PROTOCOL_ERROR, 0, false)

  predicate ExplorationExplains(e: Event, sent: Sent) {
    || (e.Claim? && e.claim.Ok? && e.claim.value.status == STOP_REQUESTED && sent == STOPPED_RECORDING)
    || (e.Asked? && CancelFlag(e.control) && sent == CANCELLATION)
    || (e.Asked? && e.control.Raised? && ProtocolLevel(e.control.fault) && sent == BROKEN_PROTOCOL)
    || (e.Plan? && e.plan.Raised? && ProtocolLevel(e.plan.fault) && sent == BROKEN_PROTOCOL)
    || (e.Start? && e.start.Raised? && ProtocolLevel(e.start.fault) && sent == BROKEN_PROTOCOL)
    || (e.Start? && e.start.Ok? && !(e.start.value == RUNNING && e.planTyped) && sent == BROKEN_PROTOCOL)
    || (e.Explored? && e.explored.Ok? && sent == Sent(e.explored.value, FromChild, 0, false))
    || (e.Explored? && e.explored.Raised? && e.explored.fault.Unknown? &&
        sent == Sent(FAILED, EXECUTOR_ERROR, 0, false))
    || (e.Explored? && e.explored.Raised? && ProtocolLevel(e.explored.fault) && sent == BROKEN_PROTOCOL)
  }

  lemma ApiCompletes(e: Event, sent: Sent)
    ensures After(API, e) == Completes(sent) <==> ApiExplains(e, sent)
  {}

  lemma ScenarioCompletes(e: Event, sent: Sent)
    ensures After(SCENARIO, e) == Completes(sent) <==> ScenarioExplains(e, sent)
  {
    if e.Cleaned? && e.cleaning.ScenarioCleaning? {
      assert ScenarioSays(e.cleaning.iso, ScenarioFinal(e.cleaning.iso));
    }
  }

  lemma WebCompletes(e: Event, sent: Sent)
    ensures After(WEB, e) == Completes(sent) <==> WebExplains(e, sent)
  {
    if e.Evaluated? { assert WebSays(e.iso, WebFinal(e.iso)); }
  }

  lemma PerformanceCompletes(e: Event, sent: Sent)
    ensures After(PERFORMANCE, e) == Completes(sent) <==> PerformanceExplains(e, sent)
  {}

  lemma RecordingCompletes(e: Event, sent: Sent)
    ensures After(RECORDING, e) == Completes(sent) <==> RecordingExplains(e, sent)
  {}

  lemma ExplorationCompletes(e: Event, sent: Sent)
    ensures After(EXPLORATION, e) == Completes(sent) <==> ExplorationExplains(e, sent)
  {}

  /** An event leads to a completion exactly when it explains it. */
  lemma CompletionDecision(k: Kind, e: Event, sent: Sent)
    ensures After(k, e) == Completes(sent) <==> Explains(k, e, sent)
  {
    match k {
      case API => ApiCompletes(e, sent);
      case SCENARIO => ScenarioCompletes(e, sent);
      case WEB => WebCompletes(e, sent);
      case PERFORMANCE => PerformanceCompletes(e, sent);
      case RECORDING => RecordingCompletes(e, sent);
      case EXPLORATION => ExplorationCompletes(e, sent);
    }
  }

  // ---------------------------------------------------------------- requeues

  predicate Passing(f: Fault) { f.Transport? || f.Unknown? }

  /** Does this event send the delivery back to its queue? */
  predicate Returns(k: Kind, e: Event) {
    match e
    case Slot(acquired) => !acquired
    case Claim(r) => r == Raised(Transport) || (k == PERFORMANCE && r == Raised(Unknown))
    case Plan(r) => r == Raised(Transport) || (k == PERFORMANCE && r == Raised(Unknown))
    case Start(_, r) => r == Raised(Transport) || (k == PERFORMANCE && r == Raised(Unknown))
    case TargetPlan(r) => k == PERFORMANCE && r.Raised? && Passing(r.fault)
    case Asked(_, r) => r == Raised(Transport)
    case ChildFault(f) => k != API && k != EXPLORATION && f == Transport
    case Crashed(f) => (k == WEB && f == Transport) || (k == PERFORMANCE && Passing(f))
    case Explored(r) => k == EXPLORATION && r == Raised(Transport)
    case Attempts(r) => k == API && r == SettledBy(Transport)
    case Evidence(iso, pending, r) =>
      && k == WEB && pending == Clear && r.Raised? && Passing(r.fault)
      && !CancelledChild(iso) && !(iso.Result? && iso.payload.exactTraces)
    case Evaluated(_, r) => (k == WEB || k == SCENARIO) && r.Raised? && Passing(r.fault)
    case ReportEvaluated(_, _, r) => k == API && r.Raised? && Passing(r.fault)
    case Cleaned(_, r) => k == API && r == CleanFault(Transport)
    case Saved(_, saved) => k == PERFORMANCE && !saved
    case Completion(sent, r) => (r.Raised? && Passing(r.fault)) || (sent.Samples? && r == Ok(NotACompletion))
    case Reporting(sent, r) =>
      k == API && ((r.Raised? && Passing(r.fault)) || (sent.Samples? && r == Ok(NotACompletion)))
    case _ => false
  }

  lemma ReturnDecision(k: Kind, e: Event)
    ensures After(k, e) == Settles(Requeued) <==> Returns(k, e)
  {
    match k {
      case API =>
      case SCENARIO =>
      case WEB =>
      case PERFORMANCE =>
      case RECORDING =>
      case EXPLORATION =>
    }
  }

  // ---------------------------------------------------------------- rejections

  /** Neither an authentication failure nor one that may be gone the next time. */
  predicate Lasting(f: Fault) { f.Protocol? || f.Runner? || f.Execution? }

  /** A fault before reporting: whatever is unknown is fatal too. */
  predicate Fatal(f: Fault) { Lasting(f) || f.Unknown? }

  /** A claim, plan or start of a run that was refused for good. */
  predicate Refused<T(==)>(k: Kind, r: Reply<T>) {
    r.Raised? && (if k == PERFORMANCE then Lasting(r.fault) else Fatal(r.fault))
  }

  /** Once the plan of a performance run is known a cancelled execution is reported instead. */
  predicate PerformanceRefuses(f: Fault) { Lasting(f) && f != Execution(true) }

  predicate Unconfirmed(k: Kind, sent: Sent, r: Reply<Completed>) {
    if r.Raised? then Lasting(r.fault)
    else !Agrees(k, sent, r.value) && !(sent.Samples? && r.value.NotACompletion?)
  }

  /** Is the report of a case accepted and the run still running? */
  predicate GoesOn(r: Reply<Completed>) {
    && r.Ok? && r.value.Completed? && r.value.runStatus == RUNNING
    && r.value.caseStatus in {SUCCESS, FAILED, REVIEW, TIMEOUT}
  }

  predicate Garbled(r: Reply<Control>) { r == Ok(Malformed) || (r.Raised? && Fatal(r.fault)) }

  /** Does this event reject the delivery? */
  predicate Rejects(k: Kind, e: Event) {
    match k
    case API => ApiRejects(e)
    case SCENARIO => ScenarioRejects(e)
    case WEB => WebRejects(e)
    case PERFORMANCE => PerformanceRejects(e)
    case RECORDING => RecordingRejects(e)
    case EXPLORATION => ExplorationRejects(e)
  }

  /** A message that is no envelope, and a claim, plan or start that was refused. */
  predicate OpeningRejects(k: Kind, e: Event) {
    || e == Envelope(false)
    || (e.Claim? && Refused(k, e.claim)) || (e.Plan? && Refused(k, e.plan))
    || (e.Start? && Refused(k, e.start))
    || (e.Completion? && Unconfirmed(k, e.sent, e.answer))
  }

  predicate ApiRejects(e: Event) {
    || OpeningRejects(API, e)
    || (e.Asked? && Garbled(e.control))
    || (e.Asked? && e.phase.AfterReport? && Silent(e.control) && Postponed(e.phase.report) &&
        !e.phase.report.deferred.value.responseOk)
    || (e.Attempts? && e.attempts.SettledBy? && Fatal(e.attempts.fault))
    || (e.Attempts? && e.attempts.Reported? && Postponed(e.attempts.report) &&
        !e.attempts.report.deferred.value.contextOk)
    || (e.ReportEvaluated? && e.cleanupOutcome.Raised? && Lasting(e.cleanupOutcome.fault))
    || (e.Cleaned? && (e.cleaned.NotMappings? || (e.cleaned.CleanFault? && Fatal(e.cleaned.fault))))
    || (e.Reporting? && !GoesOn(e.answer) && Unconfirmed(API, e.sent, e.answer))
  }

  predicate ScenarioRejects(e: Event) {
    || OpeningRejects(SCENARIO, e)
    || (e.Asked? && Garbled(e.control))
    || (e.Asked? && e.phase.AfterChild? && Silent(e.control) && ScenarioUnusable(e.phase.iso))
    || (e.ChildFault? && Fatal(e.fault))
    || (e.Evaluated? && (if e.judged.Ok? then !e.judged.value.nodesKnown else Lasting(e.judged.fault)))
    || (e.Cleaned? && e.cleaning.ScenarioCleaning? && !e.cleaned.CleanDone?)
  }

  predicate WebRejects(e: Event) {
    || OpeningRejects(WEB, e)
    || (e.Asked? && Garbled(e.control))
    || (e.ChildFault? && Fatal(e.fault)) || (e.Crashed? && Fatal(e.crash))
    || (e.Evidence? && e.pending == Clear &&
        (e.evidence.Ok? || (e.evidence != Raised(Auth) && CancelledChild(e.iso))) &&
        WebUnusable(e.iso))
    || (e.Evidence? && e.pending == Clear && e.evidence.Raised? && Lasting(e.evidence.fault) &&
        !CancelledChild(e.iso) && !(e.iso.Result? && e.iso.payload.exactTraces))
    || (e.Evaluated? && e.judged.Raised? && Lasting(e.judged.fault))
  }

  predicate PerformanceRejects(e: Event) {
    || e == Unconfigured || e == StoreFault || e == Envelope(false)
    || (e.Claim? && Refused(PERFORMANCE, e.claim)) || (e.Plan? && Refused(PERFORMANCE, e.plan))
    || (e.TargetPlan? && e.target.Raised? && PerformanceRefuses(e.target.fault))
    || (e.Start? && e.start.Raised? && PerformanceRefuses(e.start.fault))
    || (e.Asked? && Garbled(e.control))
    || (e.ChildFault? && Fatal(e.fault)) || (e.Crashed? && PerformanceRefuses(e.crash))
    || (e.Completion? && Unconfirmed(PERFORMANCE, e.sent, e.answer))
  }

  predicate RecordingRejects(e: Event) {
    || e == Envelope(false)
    || (e.Claim? && Refused(RECORDING, e.claim)) || (e.Start? && Refused(RECORDING, e.start))
    || (e.Plan? && Refused(RECORDING, e.plan) && e.plan != Raised(Protocol))
    || (e.Asked? && Garbled(e.control))
    || (e.Asked? && e.control.Ok? && e.control.value.Flags? && !e.control.value.cancel &&
        ((e.phase.Race? && !e.control.value.stop) || (e.phase.AfterChild? && RecordingUnusable(e.phase.iso))))
    || (e.ChildFault? && Fatal(e.fault))
    || (e.Completion? && Unconfirmed(RECORDING, e.sent, e.answer))
  }

  /** Once claimed, an exploration reports protocol-level faults instead of rejecting. */
  predicate ExplorationRejects(e: Event) {
    || e == Envelope(false)
    || (e.Claim? && Refused(EXPLORATION, e.claim))
    || (e.Plan? && e.plan == Raised(Unknown)) || (e.Start? && e.start == Raised(Unknown))
    || (e.Asked? && (e.control == Ok(Malformed) || e.control == Raised(Unknown)))
    || (e.Completion? && Unconfirmed(EXPLORATION, e.sent, e.answer))
  }

  lemma ApiRejectDecision(e: Event)
    ensures After(API, e) == Settles(Rejected) <==> ApiRejects(e)
  {
    if (e.Completion? || e.Reporting?) && e.answer.Ok? { ConfirmationDecision(API, e.sent, e.answer.value); }
  }

  lemma ScenarioRejectDecision(e: Event)
    ensures After(SCENARIO, e) == Settles(Rejected) <==> ScenarioRejects(e)
  {
    if (e.Completion? || e.Reporting?) && e.answer.Ok? { ConfirmationDecision(SCENARIO, e.sent, e.answer.value); }
  }

  lemma WebRejectDecision(e: Event)
    ensures After(WEB, e) == Settles(Rejected) <==> WebRejects(e)
  {
    if (e.Completion? || e.Reporting?) && e.answer.Ok? { ConfirmationDecision(WEB, e.sent, e.answer.value); }
  }

  lemma PerformanceRejectDecision(e: Event)
    ensures After(PERFORMANCE, e) == Settles(Rejected) <==> PerformanceRejects(e)
  {
    if (e.Completion? || e.Reporting?) && e.answer.Ok? { ConfirmationDecision(PERFORMANCE, e.sent, e.answer.value); }
  }

  lemma RecordingRejectDecision(e: Event)
    ensures After(RECORDING, e) == Settles(Rejected) <==> RecordingRejects(e)
  {
    if (e.Completion? || e.Reporting?) && e.answer.Ok? { ConfirmationDecision(RECORDING, e.sent, e.answer.value); }
  }

  lemma ExplorationRejectDecision(e: Event)
    ensures After(EXPLORATION, e) == Settles(Rejected) <==> ExplorationRejects(e)
  {
    if (e.Completion? || e.Reporting?) && e.answer.Ok? { ConfirmationDecision(EXPLORATION, e.sent, e.answer.value); }
  }

  lemma RejectDecision(k: Kind, e: Event)
    ensures After(k, e) == Settles(Rejected) <==> Rejects(k, e)
  {
    match k {
      case API => ApiRejectDecision(e);
      case SCENARIO => ScenarioRejectDecision(e);
      case WEB => WebRejectDecision(e);
      case PERFORMANCE => PerformanceRejectDecision(e);
      case RECORDING => RecordingRejectDecision(e);
      case EXPLORATION => ExplorationRejectDecision(e);
    }
  }

  // ---------------------------------------------------------------- what comes before what

  /** The work of a delivery: what a clear gate stands in front of. */
  predicate Works(e: Event) {
    e.Child? || e.ChildFault? || e.Crashed? || e.Recalled? || e.StoreFault? || e.Attempts? || e.Explored?
  }

  /** Must `a` come right before `b`?  Settlements and completions aside. */
  predicate Precedes(k: Kind, a: Event, b: Event) {
    match b
    case Envelope(_) => false
    case Slot(_) => a == Envelope(true)
    case Unconfigured => k == PERFORMANCE && a == Slot(true)
    case Claim(_) => a == Slot(true)
    case TargetPlan(_) => k == PERFORMANCE && a.Plan? && a.plan.Ok? && a.plan.value.needsTarget
    case Plan(_) =>
      if k == RECORDING || k == EXPLORATION then a.Asked? && a.phase == Before && Unasked(k, a.control)
      else (a.Claim? && a.claim.Ok? && a.claim.value.status != CANCELLED) ||
           (k == API && a.Reporting? && GoesOn(a.answer))
    case Start(typed, _) =>
      || (a.Plan? && a.plan.Ok? && !(k == PERFORMANCE && a.plan.value.needsTarget) &&
          (k == EXPLORATION ==> typed == a.plan.value.typed))
      || (k == PERFORMANCE && a.TargetPlan? && a.target.Ok?)
    case Asked(phase, _) => AskedAfter(k, phase, a)
    case Evidence(iso, pending, _) =>
      && k == WEB
      && if a.Child? then a.iso == iso && EndedForGood(iso) && pending == Clear
         else a.Asked? && a.phase == AfterChild(iso) && PendingOf(iso, a.control, pending)
    case Evaluated(iso, _) =>
      if k == SCENARIO then
        a.Asked? && a.phase == AfterChild(iso) && Silent(a.control) && iso.Result? && iso.payload.ai == GoodAi
      else
        && k == WEB && a.Evidence? && a.iso == iso && a.pending == Clear && WebOpen(iso)
        && (a.evidence.Ok? || CancelledChild(iso))
    case ReportEvaluated(report, n, _) =>
      && k == API && a.Asked? && a.phase == AfterReport(report, n) && Silent(a.control) && Postponed(report)
    case Cleaned(cleaning, _) => CleanedAfter(k, cleaning, a)
    case Reporting(sent, _) =>
      && k == API
      && ((a.Asked? && a.phase.AfterReport? && Silent(a.control) && !Postponed(a.phase.report) &&
           ReportSays(a.phase.report, a.phase.retries, false, sent))
          || (a.Cleaned? && a.cleaned.CleanDone? && a.cleaning.ReportCleaning? &&
              ReportSays(a.cleaning.report, a.cleaning.retries, true, sent)))
    case Saved(iso, saved) =>
      k == PERFORMANCE && a == Child(iso) && (!saved ==> iso.Measured? || iso == Ended(BARE_RESULT))
    case Explored(_) => k == EXPLORATION && a == Start(true, Ok(RUNNING))
    case _ => Works(b) ==> a.Asked? && Unasked(k, a.control) && a.phase == if k == RECORDING then Ready else Before
  }

  /** Control wants nothing of this kind of delivery. */
  predicate Unasked(k: Kind, r: Reply<Control>) {
    && r.Ok? && r.value.Flags? && !r.value.cancel
    && (k == RECORDING ==> !r.value.stop) && (k != RECORDING && k != EXPLORATION ==> !r.value.force)
  }

  predicate AskedAfter(k: Kind, phase: Phase, a: Event) {
    match phase
    case Before =>
      if k == RECORDING || k == EXPLORATION then a.Claim? && a.claim.Ok?
      else a.Start? && a.start.Ok? && a.start.value != CANCELLING
    case Race => k == RECORDING && a == Plan(Raised(Protocol))
    case Ready => k == RECORDING && a.Start? && a.start.Ok? && a.start.value != STOP_REQUESTED
    case AfterChild(iso) => (k == SCENARIO || k == RECORDING || (k == WEB && !EndedForGood(iso))) && a == Child(iso)
    case AfterReport(report, n) =>
      && k == API && a == Attempts(Reported(report, n))
      && !(Postponed(report) && !report.deferred.value.contextOk)
  }

  /** What is still pending when evidence is uploaded: the demand that came with a result. */
  predicate PendingOf(iso: Iso, r: Reply<Control>, pending: Demand) {
    && r.Ok? && r.value.Flags?
    && (if iso.Result? && r.value.force then pending == Force
        else if iso.Result? && r.value.cancel then pending == Cancel
        else Silent(r) && pending == Clear)
  }

  predicate CleanedAfter(k: Kind, cleaning: Cleaning, a: Event) {
    match cleaning
    case ScenarioCleaning(iso, verdict) =>
      k == SCENARIO && a.Evaluated? && a.iso == iso && a.judged.Ok? && a.judged.value.verdict == verdict &&
      a.judged.value.nodesKnown
    case CancelCleaning(demand, n) =>
      && k == API && a.Asked? && a.phase.AfterReport? && a.phase.retries == n && Postponed(a.phase.report)
      && (if ForceFlag(a.control) then demand == Force else CancelFlag(a.control) && demand == Cancel)
    case ReportCleaning(report, n) =>
      k == API && a.ReportEvaluated? && a.report == report && a.retries == n && a.cleanupOutcome.Ok?
  }

  /** What the report of a case says. */
  predicate ReportSays(report: Report, n: nat, evaluated: bool, sent: Sent) {
    && sent.Sent? && sent.retries == n && sent.evaluated == evaluated
    && (report.HttpResponse? ==> sent.outcome == HTTP_RESPONSE && sent.why == NoError)
    && (report.TargetTimedOut? ==> sent.outcome == TIMEOUT && sent.why == Why.TARGET_TIMEOUT)
    && (report.NetworkError? ==> sent.outcome == EXECUTION_ERROR && sent.why == TARGET_NETWORK)
    && (report.ExecutorError? ==> sent.outcome == EXECUTION_ERROR && sent.why == EXECUTOR_ERROR)
  }

  lemma ApiOrder(a: Event, b: Event)
    requires Follows(API, a, b) && !b.Settle? && !b.Completion?
    ensures Precedes(API, a, b)
  {}

  lemma ScenarioOrder(a: Event, b: Event)
    requires Follows(SCENARIO, a, b) && !b.Settle? && !b.Completion?
    ensures Precedes(SCENARIO, a, b)
  {}

  lemma WebOrder(a: Event, b: Event)
    requires Follows(WEB, a, b) && !b.Settle? && !b.Completion?
    ensures Precedes(WEB, a, b)
  {}

  lemma PerformanceOrder(a: Event, b: Event)
    requires Follows(PERFORMANCE, a, b) && !b.Settle? && !b.Completion?
    ensures Precedes(PERFORMANCE, a, b)
  {}

  lemma RecordingOrder(a: Event, b: Event)
    requires Follows(RECORDING, a, b) && !b.Settle? && !b.Completion?
    ensures Precedes(RECORDING, a, b)
  {}

  lemma ExplorationOrder(a: Event, b: Event)
    requires Follows(EXPLORATION, a, b) && !b.Settle? && !b.Completion?
    ensures Precedes(EXPLORATION, a, b)
  {}

  /** Nothing in a delivery happens without what has to come before it: a claim needs a slot, a
      start its plan, work a clear control answer, a report the control answer after the work. */
  lemma OrderDecision(k: Kind, a: Event, b: Event)
    requires Follows(k, a, b) && !b.Settle? && !b.Completion?
    ensures Precedes(k, a, b)
  {
    match k {
      case API => ApiOrder(a, b);
      case SCENARIO => ScenarioOrder(a, b);
      case WEB => WebOrder(a, b);
      case PERFORMANCE => PerformanceOrder(a, b);
      case RECORDING => RecordingOrder(a, b);
      case EXPLORATION => ExplorationOrder(a, b);
    }
  }

  // ---------------------------------------------------------------- whole deliveries

  /** Every completion of a delivery is explained by the event before it. */
  lemma CompletionIsExplained(k: Kind, t: seq<Event>, i: nat)
    requires Conforms(k, t) && 0 < i < |t| && t[i].Completion?
    ensures Explains(k, t[i - 1], t[i].sent)
  {
    assert StepOk(RuleOf(k), t, i);
    DemandedBy(k, t[i - 1], t[i]);
    CompletionDecision(k, t[i - 1], t[i].sent);
  }

  lemma DemandedBy(k: Kind, a: Event, b: Event)
    requires Follows(k, a, b) && b.Completion?
    ensures After(k, a) == Completes(b.sent)
  {
    match k {
      case API =>
      case SCENARIO =>
      case WEB =>
      case PERFORMANCE =>
      case RECORDING =>
      case EXPLORATION =>
    }
  }

  /** The child outcome events of a run with a child are about. */
  function Concerns(e: Event): Option<Iso> {
    match e
    case Saved(iso, _) => Some(iso)
    case _ => About(e)
  }

  /** After the child, everything up to the completion concerns its outcome. */
  lemma {:induction false} AllAboutTheChild(k: Kind, t: seq<Event>, j: nat, i: nat)
    requires k == WEB || k == SCENARIO || k == PERFORMANCE || k == RECORDING
    requires Conforms(k, t) && j <= i < |t| && t[j].Child? && !t[i].Completion? && !t[i].Settle?
    ensures Concerns(t[i]) == Some(t[j].iso)
    decreases i
  {
    if j < i {
      assert StepOk(RuleOf(k), t, i);
      SettlementIsLast(k, t, i - 1);
      StaysAbout(k, t[i - 1], t[i]);
      AllAboutTheChild(k, t, j, i - 1);
    }
  }

  lemma StaysAbout(k: Kind, a: Event, b: Event)
    requires k == WEB || k == SCENARIO || k == PERFORMANCE || k == RECORDING
    requires Follows(k, a, b) && !b.Completion? && !b.Settle?
    ensures !a.Completion? && !a.Settle?
    ensures Concerns(a).Some? ==> Concerns(b) == Concerns(a)
  {
    EndsAfter(k, a, b);
    match k {
      case SCENARIO =>
      case WEB =>
      case PERFORMANCE =>
      case RECORDING =>
      case _ =>
    }
  }

  /** What the end of a child leads to, when no result came out of it: a timeout is reported as
      TIMEOUT, a stop as CANCELLED, anything else as a failure. */
  lemma EndIsReported(k: Kind, t: seq<Event>, j: nat, i: nat, end: End)
    requires k == WEB || k == SCENARIO || k == PERFORMANCE || k == RECORDING
    requires Conforms(k, t) && j < i < |t| && t[j] == Child(Ended(end)) && t[i].Completion?
    ensures k == WEB && EndedForGood(Ended(end)) ==> WebSays(Ended(end), t[i].sent)
    ensures k == WEB && !EndedForGood(Ended(end)) ==> WebSays(Ended(end), t[i].sent) || t[i].sent == CANCELLATION
    ensures k == SCENARIO ==> ScenarioSays(Ended(end), t[i].sent) ||
                              exists r :: t[i - 1] == Asked(AfterChild(Ended(end)), r) && Stopped(r, 0, t[i].sent)
    ensures k == PERFORMANCE ==> PerformanceSays(Ended(end), t[i].sent)
    ensures k == RECORDING ==> RecordingSays(Ended(end), t[i].sent) || t[i].sent == CANCELLATION
  {
    SettlementIsLast(k, t, i - 1);
    assert !t[i - 1].Completion? && !t[i - 1].Settle? by {
      assert StepOk(RuleOf(k), t, i);
      EndsAfter(k, t[i - 1], t[i]);
    }
    AllAboutTheChild(k, t, j, i - 1);
    CompletionIsExplained(k, t, i);
    Sound(k, t, i - 1);
    EndExplained(k, t[i - 1], end, t[i].sent);
  }

  /** What the events before it make sure of for an event about a child. */
  predicate SoundAt(k: Kind, e: Event) {
    && (k == WEB && e.Asked? && e.phase.AfterChild? ==> !EndedForGood(e.phase.iso))
    && (k == WEB && e.Evidence? && EndedForGood(e.iso) ==> e.pending == Clear)
    && (k == PERFORMANCE && e.Asked? ==> !e.phase.AfterChild?)
    && (e.Evaluated? ==> e.iso.Result?)
    && (e.Cleaned? && e.cleaning.ScenarioCleaning? ==> e.cleaning.iso.Result?)
  }

  lemma {:induction false} Sound(k: Kind, t: seq<Event>, i: nat)
    requires Conforms(k, t) && i < |t|
    ensures SoundAt(k, t[i])
  {
    if i > 0 && !t[i].Settle? && !t[i].Completion? {
      Sound(k, t, i - 1);
      assert StepOk(RuleOf(k), t, i);
      OrderDecision(k, t[i - 1], t[i]);
    }
  }

  lemma EndExplained(k: Kind, e: Event, end: End, sent: Sent)
    requires Explains(k, e, sent) && Concerns(e) == Some(Ended(end)) && SoundAt(k, e)
    ensures k == WEB && EndedForGood(Ended(end)) ==> WebSays(Ended(end), sent)
    ensures k == WEB && !EndedForGood(Ended(end)) ==> WebSays(Ended(end), sent) || sent == CANCELLATION
    ensures k == SCENARIO ==> ScenarioSays(Ended(end), sent) ||
                              exists r :: e == Asked(AfterChild(Ended(end)), r) && Stopped(r, 0, sent)
    ensures k == PERFORMANCE ==> PerformanceSays(Ended(end), sent)
    ensures k == RECORDING ==> RecordingSays(Ended(end), sent) || sent == CANCELLATION
  {}

  /** Success is reported only of a run whose child delivered it to the watch. */
  lemma SuccessWasDelivered(k: Kind, o: Observed, held: Option<Doc>, t: seq<Event>, i: nat)
    requires k == WEB || k == SCENARIO
    requires Obeys(RuleFor(k, o, held), t)
    requires 0 < i < |t| && t[i].Completion? && t[i].sent.Sent? && t[i].sent.outcome == SUCCESS
    ensures o.child.outcome.Some? && o.child.outcome.value.Result? && o.child.outcome.value.payload.outcome == SUCCESS
  {
    ObservedTrace(k, o, held, t);
    SuccessIsTheChilds(k, t, i);
    var j :| 0 <= j < i && t[j].Child? && t[j].iso.Result? && t[j].iso.payload.outcome == SUCCESS;
    assert Fits(k, o, held, t[j]);
    ResultWasDelivered(o, t[j].iso);
  }

  lemma ResultWasDelivered(o: Observed, iso: Iso)
    requires ChildSeen(o, iso) && (iso.Result? || iso.Measured?)
    ensures o.child.outcome == Some(iso)
  {}

  /** A timeout of the watch is real, and reported as such. */
  lemma TimeoutIsReported(k: Kind, o: Observed, held: Option<Doc>, t: seq<Event>, j: nat, i: nat)
    requires k == WEB || k == PERFORMANCE
    requires Obeys(RuleFor(k, o, held), t) && j < i < |t| && t[j] == Child(Ended(TOTAL_TIMED_OUT)) && t[i].Completion?
    ensures t[i].sent == Sent(TIMEOUT, Why.TOTAL_TIMEOUT, 0, false)
  {
    ObservedTrace(k, o, held, t);
    EndIsReported(k, t, j, i, TOTAL_TIMED_OUT);
  }

  /** Samples are reported as the load delivered them or as they were kept. */
  lemma SamplesAreGenuine(o: Observed, held: Option<Doc>, t: seq<Event>, i: nat)
    requires Obeys(RuleFor(PERFORMANCE, o, held), t) && 0 < i < |t| && t[i].Completion? && t[i].sent.Samples?
    ensures || o.child.outcome == Some(Measured(t[i].sent.doc))
            || (t[i - 1] == Recalled(Measured(t[i].sent.doc)) && (held.Some? ==> held.value == t[i].sent.doc))
  {
    ObservedTrace(PERFORMANCE, o, held, t);
    CompletionIsExplained(PERFORMANCE, t, i);
    if t[i - 1].Saved? {
      assert StepOk(RuleOf(PERFORMANCE), t, i - 1);
      OrderDecision(PERFORMANCE, t[i - 2], t[i - 1]);
      assert Fits(PERFORMANCE, o, held, t[i - 2]);
      ResultWasDelivered(o, t[i - 2].iso);
    } else {
      assert Fits(PERFORMANCE, o, held, t[i - 1]);
    }
  }
}
