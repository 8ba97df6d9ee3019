/** The protocol of module Delivery read as rules of one event at a time, the form in which the
    consumer methods use it, and the proof that the protocol satisfies them. */
module DeliveryRules {
  import opened Wire
  import opened Retry
  import opened PerformanceStore
  import opened Delivery
  import opened Observations

  /** A run is claimed once its slot is taken, and acknowledged if it was cancelled. */
  ghost predicate ClaimRules(rule: (Event, Event) -> bool) {
    && (forall b: Event {:trigger rule(Slot(true), b)} ::
          b.Claim? ==> rule(Slot(true), b))
    && (forall r: Reply<ClaimView>, b: Event {:trigger rule(Claim(r), b)} ::
          Permits(RunClaim(r), b.Plan?, b) ==> rule(Claim(r), b))
  }

  /** Plan, then start. */
  ghost predicate StartRules(rule: (Event, Event) -> bool) {
    && (forall r: Reply<PlanView>, b: Event {:trigger rule(Plan(r), b)} ::
          Permits(SettlesStrictly(r), b.Start?, b) ==> rule(Plan(r), b))
    && (forall p: bool, r: Reply<Word>, b: Event {:trigger rule(Start(p, r), b)} ::
          Permits(RunStart(r), b.Asked? && b.phase == Before, b) ==> rule(Start(p, r), b))
  }

  /** Control faults and demands before the work. */
  ghost predicate GateRules(rule: (Event, Event) -> bool, namesForce: bool) {
    && (forall r: Reply<Control>, b: Event {:trigger rule(Asked(Before, r), b)} ::
          Permits(RunControl(r, namesForce), false, b) ==> rule(Asked(Before, r), b))
  }

  /** A completion is settled by its answer. */
  ghost predicate ClosingRules(k: Kind, rule: (Event, Event) -> bool) {
    && (forall s: Sent, r: Reply<Completed>, b: Event {:trigger rule(Completion(s, r), b)} ::
          b == Settle(AnsweredAs(k, s, r)) ==> rule(Completion(s, r), b))
  }

  ghost predicate WebWorkRules(rule: (Event, Event) -> bool, fits: Event -> bool) {
    && (forall r: Reply<Control>, b: Event {:trigger rule(Asked(Before, r), b)} ::
          CheckControl(r) == Ok(Clear) && (b.Child? || b.ChildFault? || b.Crashed?) && fits(b) ==>
              rule(Asked(Before, r), b))
    && (forall f: Fault, b: Event {:trigger rule(ChildFault(f), b)} ::
          b == Settle(Strict(f)) ==> rule(ChildFault(f), b))
    && (forall f: Fault, b: Event {:trigger rule(Crashed(f), b)} ::
          b == Settle(Strict(f)) ==> rule(Crashed(f), b))
    && (forall iso: Iso, b: Event {:trigger rule(Child(iso), b)} ::
          (if WebTerminal(iso) then b.Evidence? && b.iso == iso && b.pending == Clear
           else b.Asked? && b.phase == AfterChild(iso)) ==> rule(Child(iso), b))
  }

  ghost predicate WebReportRules(rule: (Event, Event) -> bool) {
    && (forall iso: Iso, r: Reply<Control>, b: Event {:trigger rule(Asked(AfterChild(iso), r), b)} ::
          Permits(WebAsked(iso, r), b.Evidence? && b.iso == iso && b.pending == WebPending(iso, r), b) ==>
              rule(Asked(AfterChild(iso), r), b))
    && (forall iso: Iso, d: Demand, r: Reply<bool>, b: Event {:trigger rule(Evidence(iso, d, r), b)} ::
          Permits(WebEvidence(iso, d, r), b.Evaluated? && b.iso == iso, b) ==> rule(Evidence(iso, d, r), b))
    && (forall iso: Iso, r: Reply<Judged>, b: Event {:trigger rule(Evaluated(iso, r), b)} ::
          Permits(WebEvaluated(iso, r), false, b) ==> rule(Evaluated(iso, r), b))
  }

  ghost predicate WebRules(rule: (Event, Event) -> bool, fits: Event -> bool) {
    && ClaimRules(rule) && StartRules(rule) && GateRules(rule, false) && ClosingRules(WEB, rule) &&
       WebWorkRules(rule, fits) && WebReportRules(rule)
  }

  ghost predicate ScenarioWorkRules(rule: (Event, Event) -> bool, fits: Event -> bool) {
    && (forall r: Reply<Control>, b: Event {:trigger rule(Asked(Before, r), b)} ::
          CheckControl(r) == Ok(Clear) && (b.Child? || b.ChildFault?) && fits(b) ==> rule(Asked(Before, r), b))
    && (forall f: Fault, b: Event {:trigger rule(ChildFault(f), b)} ::
          b == Settle(Strict(f)) ==> rule(ChildFault(f), b))
    && (forall iso: Iso, b: Event {:trigger rule(Child(iso), b)} ::
          b.Asked? && b.phase == AfterChild(iso) ==> rule(Child(iso), b))
    && (forall iso: Iso, r: Reply<Control>, b: Event {:trigger rule(Asked(AfterChild(iso), r), b)} ::
          Permits(ScenarioAsked(iso, r), b.Evaluated? && b.iso == iso, b) ==> rule(Asked(AfterChild(iso), r), b))
  }

  ghost predicate ScenarioReportRules(rule: (Event, Event) -> bool) {
    && (forall iso: Iso, r: Reply<Judged>, b: Event {:trigger rule(Evaluated(iso, r), b)} ::
          Permits(ScenarioEvaluated(r), r.Ok? && b.Cleaned? && b.cleaning == ScenarioCleaning(iso, r.value.verdict), b)
          ==> rule(Evaluated(iso, r), b))
    && (forall iso: Iso, v: Word, r: CleanResult, b: Event {:trigger rule(Cleaned(ScenarioCleaning(iso, v), r), b)} ::
          Permits(ScenarioCleaned(iso, v, r), false, b) ==> rule(Cleaned(ScenarioCleaning(iso, v), r), b))
  }

  ghost predicate ScenarioRules(rule: (Event, Event) -> bool, fits: Event -> bool) {
    && ClaimRules(rule) && StartRules(rule) && GateRules(rule, true) && ClosingRules(SCENARIO, rule) &&
       ScenarioWorkRules(rule, fits) && ScenarioReportRules(rule)
  }

  ghost predicate ApiWorkRules(rule: (Event, Event) -> bool, fits: Event -> bool) {
    && (forall r: Reply<Control>, b: Event {:trigger rule(Asked(Before, r), b)} ::
          CheckControl(r) == Ok(Clear) && b.Attempts? && fits(b) ==> rule(Asked(Before, r), b))
    && (forall r: Retry.Result, b: Event {:trigger rule(Attempts(r), b)} ::
          Permits(ApiAttempts(r), r.Reported? && b.Asked? && b.phase == AfterReport(r.report, r.retries), b) ==>
              rule(Attempts(r), b))
    && (forall p: Report, n: nat, r: Reply<Control>, b: Event {:trigger rule(Asked(AfterReport(p, n), r), b)} ::
          Permits(ApiReported(p, n, r), ApiReportedNext(p, n, r, b), b) && (b.Cleaned? ==> fits(b)) ==>
              rule(Asked(AfterReport(p, n), r), b))
  }

  ghost predicate ApiReportRules(rule: (Event, Event) -> bool, fits: Event -> bool) {
    ApiCleaningRules(rule, fits) && ApiReportingRules(rule)
  }

  ghost predicate ApiCleaningRules(rule: (Event, Event) -> bool, fits: Event -> bool) {
    && (forall p: Report, n: nat, r: Reply<Word>, b: Event {:trigger rule(ReportEvaluated(p, n, r), b)} ::
          Permits(SettlesLeniently(r), b.Cleaned? && b.cleaning == ReportCleaning(p, n) && fits(b), b)
          ==> rule(ReportEvaluated(p, n, r), b))
    && (forall c: Cleaning, r: CleanResult, b: Event {:trigger rule(Cleaned(c, r), b)} ::
          Permits(ApiCleaned(c, r),
                  c.ReportCleaning? && b.Reporting? && b.sent == ReportSent(c.report, c.retries, true), b)
          ==> rule(Cleaned(c, r), b))
  }

  ghost predicate ApiReportingRules(rule: (Event, Event) -> bool) {
    && (forall s: Sent, r: Reply<Completed>, b: Event {:trigger rule(Reporting(s, r), b)} ::
          Permits(if NextCase(r) then Continues else Settles(AnsweredAs(API, s, r)), b.Plan?, b) ==>
              rule(Reporting(s, r), b))
  }

  ghost predicate ApiRules(rule: (Event, Event) -> bool, fits: Event -> bool) {
    && ClaimRules(rule) && StartRules(rule) && GateRules(rule, true) && ClosingRules(API, rule) &&
       ApiWorkRules(rule, fits) && ApiReportRules(rule, fits)
  }

  ghost predicate PerformanceStartingRules(rule: (Event, Event) -> bool) {
    && (forall b: Event {:trigger rule(Slot(true), b)} ::
          (b.Claim? || b.Unconfigured?) ==> rule(Slot(true), b))
    && (forall b: Event {:trigger rule(Unconfigured, b)} ::
          b == Settle(Rejected) ==> rule(Unconfigured, b))
    && (forall r: Reply<ClaimView>, b: Event {:trigger rule(Claim(r), b)} ::
          Permits(PerformanceClaim(r), b.Plan?, b) ==> rule(Claim(r), b))
    && (forall r: Reply<PlanView>, b: Event {:trigger rule(Plan(r), b)} ::
          Permits(SettlesLeniently(r), if r.Ok? && r.value.needsTarget then b.TargetPlan? else b.Start?, b) ==>
              rule(Plan(r), b))
    && (forall r: Reply<bool>, b: Event {:trigger rule(TargetPlan(r), b)} ::
          Permits(PerformanceStep(r), b.Start?, b) ==> rule(TargetPlan(r), b))
    && (forall p: bool, r: Reply<Word>, b: Event {:trigger rule(Start(p, r), b)} ::
          Permits(PerformanceStart(r), b.Asked? && b.phase == Before, b) ==> rule(Start(p, r), b))
  }

  ghost predicate PerformanceWorkRules(rule: (Event, Event) -> bool, fits: Event -> bool) {
    && (forall r: Reply<Control>, b: Event {:trigger rule(Asked(Before, r), b)} ::
          CheckControl(r) == Ok(Clear) && fits(b) &&
          (b.Child? || b.ChildFault? || b.Crashed? || b.Recalled? || b.StoreFault?)
          ==> rule(Asked(Before, r), b))
    && (forall f: Fault, b: Event {:trigger rule(ChildFault(f), b)} ::
          b == Settle(Strict(f)) ==> rule(ChildFault(f), b))
  }

  ghost predicate PerformanceReportRules(rule: (Event, Event) -> bool) {
    PerformanceFoundRules(rule) && PerformanceSavingRules(rule)
  }

  ghost predicate PerformanceFoundRules(rule: (Event, Event) -> bool) {
    && (forall f: Fault, b: Event {:trigger rule(Crashed(f), b)} ::
          Permits(PerformanceFault(f), false, b) ==> rule(Crashed(f), b))
    && (forall iso: Iso, b: Event {:trigger rule(Recalled(iso), b)} ::
          Permits(Completes(PerformanceFinal(iso)), false, b) ==> rule(Recalled(iso), b))
    && (forall b: Event {:trigger rule(StoreFault, b)} ::
          b == Settle(Rejected) ==> rule(StoreFault, b))
  }

  ghost predicate PerformanceSavingRules(rule: (Event, Event) -> bool) {
    && (forall iso: Iso, b: Event {:trigger rule(Child(iso), b)} ::
          b.Saved? && b.iso == iso && (b.saved || iso.Measured? || iso == Ended(BARE_RESULT)) ==> rule(Child(iso), b))
    && (forall iso: Iso, v: bool, b: Event {:trigger rule(Saved(iso, v), b)} ::
          Permits(if v then Completes(PerformanceFinal(iso)) else Settles(Requeued), false, b) ==>
              rule(Saved(iso, v), b))
  }

  /** The rules up to the work. */
  ghost predicate PerformanceOpeningRules(rule: (Event, Event) -> bool, fits: Event -> bool) {
    && GateRules(rule, true) && ClosingRules(PERFORMANCE, rule)
    && PerformanceStartingRules(rule) && PerformanceWorkRules(rule, fits)
  }

  ghost predicate PerformanceRules(rule: (Event, Event) -> bool, fits: Event -> bool) {
    && GateRules(rule, true) && ClosingRules(PERFORMANCE, rule) && PerformanceStartingRules(rule) &&
       PerformanceWorkRules(rule, fits) && PerformanceReportRules(rule)
  }

  ghost predicate RecordingClaimingRules(rule: (Event, Event) -> bool, fits: Event -> bool) {
    && (forall b: Event {:trigger rule(Slot(true), b)} ::
          b.Claim? ==> rule(Slot(true), b))
    && (forall r: Reply<ClaimView>, b: Event {:trigger rule(Claim(r), b)} ::
          Permits(RecordingClaim(r), b.Asked? && b.phase == Before, b) ==> rule(Claim(r), b))
    && (forall p: Phase, r: Reply<Control>, b: Event {:trigger rule(Asked(p, r), b)} ::
          Permits(RecordingControl(p, r),
                  if p.Before? then b.Plan? else p.Ready? && (b.Child? || b.ChildFault?) && fits(b), b) ==>
            rule(Asked(p, r), b))
  }

  ghost predicate RecordingWorkRules(rule: (Event, Event) -> bool) {
    && (forall r: Reply<PlanView>, b: Event {:trigger rule(Plan(r), b)} ::
          Permits(RecordingPlan(r), if r.Raised? then b.Asked? && b.phase == Race else b.Start?, b) ==>
              rule(Plan(r), b))
    && (forall p: bool, r: Reply<Word>, b: Event {:trigger rule(Start(p, r), b)} ::
          Permits(RecordingStart(r), b.Asked? && b.phase == Ready, b) ==> rule(Start(p, r), b))
    && (forall f: Fault, b: Event {:trigger rule(ChildFault(f), b)} ::
          b == Settle(Strict(f)) ==> rule(ChildFault(f), b))
    && (forall iso: Iso, b: Event {:trigger rule(Child(iso), b)} ::
          b.Asked? && b.phase == AfterChild(iso) ==> rule(Child(iso), b))
  }

  ghost predicate RecordingRules(rule: (Event, Event) -> bool, fits: Event -> bool) {
    && ClosingRules(RECORDING, rule) && RecordingClaimingRules(rule, fits) && RecordingWorkRules(rule)
  }

  ghost predicate ExplorationClaimingRules(rule: (Event, Event) -> bool) {
    && (forall b: Event {:trigger rule(Slot(true), b)} ::
          b.Claim? ==> rule(Slot(true), b))
    && (forall r: Reply<ClaimView>, b: Event {:trigger rule(Claim(r), b)} ::
          Permits(ExplorationClaim(r), b.Asked? && b.phase == Before, b) ==> rule(Claim(r), b))
    && (forall p: Phase, r: Reply<Control>, b: Event {:trigger rule(Asked(p, r), b)} ::
          Permits(ExplorationControl(r), p.Before? && b.Plan?, b) ==> rule(Asked(p, r), b))
  }

  ghost predicate ExplorationWorkRules(rule: (Event, Event) -> bool) {
    && (forall r: Reply<PlanView>, b: Event {:trigger rule(Plan(r), b)} ::
          Permits(ExplorationPlan(r), r.Ok? && b.Start? && b.planTyped == r.value.typed, b) ==> rule(Plan(r), b))
    && (forall p: bool, r: Reply<Word>, b: Event {:trigger rule(Start(p, r), b)} ::
          Permits(ExplorationStart(p, r), b.Explored?, b) ==> rule(Start(p, r), b))
    && (forall r: Reply<Word>, b: Event {:trigger rule(Explored(r), b)} ::
          Permits(ExplorationDone(r), false, b) ==> rule(Explored(r), b))
  }

  ghost predicate ExplorationRules(rule: (Event, Event) -> bool) {
    && ClosingRules(EXPLORATION, rule) && ExplorationClaimingRules(rule) && ExplorationWorkRules(rule)
  }

  /** Events that were not observed but answered, or are the Runner's own. */
  predicate Free(b: Event) {
    && !b.Child? && !b.ChildFault? && !b.Crashed? && !b.Recalled? && !b.Attempts?
    && (b.Cleaned? ==> b.cleaning.ScenarioCleaning?)
  }

  /** The rule allows everything the protocol of kind `k` does with events that fit. */
  ghost predicate Allows(rule: (Event, Event) -> bool, k: Kind, fits: Event -> bool) {
    forall a, b {:trigger rule(a, b)} ::
      Permits(After(k, a), Proceeds(k, a, b), b) && (Free(b) || fits(b)) ==> rule(a, b)
  }

  lemma Opens(rule: (Event, Event) -> bool, k: Kind, fits: Event -> bool)
    requires Allows(rule, k, fits) && (k == WEB || k == SCENARIO || k == API)
    ensures ClaimRules(rule) && StartRules(rule)
  {}

  lemma Gates(rule: (Event, Event) -> bool, k: Kind, fits: Event -> bool)
    requires Allows(rule, k, fits) && (k == WEB || k == SCENARIO || k == API || k == PERFORMANCE)
    ensures GateRules(rule, k != WEB)
  {}

  lemma Closes(rule: (Event, Event) -> bool, k: Kind, fits: Event -> bool)
    requires Allows(rule, k, fits)
    ensures ClosingRules(k, rule)
  {}

  lemma WebWorks(rule: (Event, Event) -> bool, fits: Event -> bool)
    requires Allows(rule, WEB, fits)
    ensures WebWorkRules(rule, fits)
  {}

  lemma WebReports(rule: (Event, Event) -> bool, fits: Event -> bool)
    requires Allows(rule, WEB, fits)
    ensures WebReportRules(rule)
  {}

  lemma WebProtocol(rule: (Event, Event) -> bool, fits: Event -> bool)
    requires Allows(rule, WEB, fits)
    ensures WebRules(rule, fits)
  {
    Opens(rule, WEB, fits);
    Gates(rule, WEB, fits);
    Closes(rule, WEB, fits);
    WebWorks(rule, fits);
    WebReports(rule, fits);
  }

  lemma ScenarioWorks(rule: (Event, Event) -> bool, fits: Event -> bool)
    requires Allows(rule, SCENARIO, fits)
    ensures ScenarioWorkRules(rule, fits)
  {}

  lemma ScenarioReports(rule: (Event, Event) -> bool, fits: Event -> bool)
    requires Allows(rule, SCENARIO, fits)
    ensures ScenarioReportRules(rule)
  {}

  lemma ScenarioProtocol(rule: (Event, Event) -> bool, fits: Event -> bool)
    requires Allows(rule, SCENARIO, fits)
    ensures ScenarioRules(rule, fits)
  {
    Opens(rule, SCENARIO, fits);
    Gates(rule, SCENARIO, fits);
    Closes(rule, SCENARIO, fits);
    ScenarioWorks(rule, fits);
    ScenarioReports(rule, fits);
  }

  lemma ApiWorks(rule: (Event, Event) -> bool, fits: Event -> bool)
    requires Allows(rule, API, fits)
    ensures ApiWorkRules(rule, fits)
  {}

  lemma ApiCleans(rule: (Event, Event) -> bool, fits: Event -> bool)
    requires Allows(rule, API, fits)
    ensures ApiCleaningRules(rule, fits)
  {}

  lemma ApiReports(rule: (Event, Event) -> bool, fits: Event -> bool)
    requires Allows(rule, API, fits)
    ensures ApiReportingRules(rule)
  {}

  lemma ApiProtocol(rule: (Event, Event) -> bool, fits: Event -> bool)
    requires Allows(rule, API, fits)
    ensures ApiRules(rule, fits)
  {
    Opens(rule, API, fits);
    Gates(rule, API, fits);
    Closes(rule, API, fits);
    ApiWorks(rule, fits);
    ApiCleans(rule, fits);
    ApiReports(rule, fits);
  }

  lemma PerformanceStarts(rule: (Event, Event) -> bool, fits: Event -> bool)
    requires Allows(rule, PERFORMANCE, fits)
    ensures PerformanceStartingRules(rule)
  {}

  lemma PerformanceWorks(rule: (Event, Event) -> bool, fits: Event -> bool)
    requires Allows(rule, PERFORMANCE, fits)
    ensures PerformanceWorkRules(rule, fits)
  {}

  lemma PerformanceFinds(rule: (Event, Event) -> bool, fits: Event -> bool)
    requires Allows(rule, PERFORMANCE, fits)
    ensures PerformanceFoundRules(rule)
  {}

  lemma PerformanceSaves(rule: (Event, Event) -> bool, fits: Event -> bool)
    requires Allows(rule, PERFORMANCE, fits)
    ensures PerformanceSavingRules(rule)
  {}

  lemma PerformanceProtocol(rule: (Event, Event) -> bool, fits: Event -> bool)
    requires Allows(rule, PERFORMANCE, fits)
    ensures PerformanceRules(rule, fits)
  {
    Gates(rule, PERFORMANCE, fits);
    Closes(rule, PERFORMANCE, fits);
    PerformanceStarts(rule, fits);
    PerformanceWorks(rule, fits);
    PerformanceFinds(rule, fits);
    PerformanceSaves(rule, fits);
  }

  lemma RecordingClaims(rule: (Event, Event) -> bool, fits: Event -> bool)
    requires Allows(rule, RECORDING, fits)
    ensures RecordingClaimingRules(rule, fits)
  {}

  lemma RecordingWorks(rule: (Event, Event) -> bool, fits: Event -> bool)
    requires Allows(rule, RECORDING, fits)
    ensures RecordingWorkRules(rule)
  {}

  lemma RecordingProtocol(rule: (Event, Event) -> bool, fits: Event -> bool)
    requires Allows(rule, RECORDING, fits)
    ensures RecordingRules(rule, fits)
  {
    Closes(rule, RECORDING, fits);
    RecordingClaims(rule, fits);
    RecordingWorks(rule, fits);
  }

  lemma ExplorationClaims(rule: (Event, Event) -> bool, fits: Event -> bool)
    requires Allows(rule, EXPLORATION, fits)
    ensures ExplorationClaimingRules(rule)
  {}

  lemma ExplorationWorks(rule: (Event, Event) -> bool, fits: Event -> bool)
    requires Allows(rule, EXPLORATION, fits)
    ensures ExplorationWorkRules(rule)
  {}

  lemma ExplorationProtocol(rule: (Event, Event) -> bool, fits: Event -> bool)
    requires Allows(rule, EXPLORATION, fits)
    ensures ExplorationRules(rule)
  {
    Closes(rule, EXPLORATION, fits);
    ExplorationClaims(rule, fits);
    ExplorationWorks(rule, fits);
  }

  /** Garbled messages are rejected, busy slots requeue. */
  ghost predicate EntryRules(rule: (Event, Event) -> bool) {
    && rule(Envelope(false), Settle(Rejected))
    && rule(Envelope(true), Slot(true)) && rule(Envelope(true), Slot(false))
    && rule(Slot(false), Settle(Requeued))
  }

  lemma EntryProtocol(rule: (Event, Event) -> bool, k: Kind, fits: Event -> bool)
    requires Allows(rule, k, fits)
    ensures EntryRules(rule)
  {}

  ghost function FitsOf(k: Kind, o: Observed, held: Option<Doc>): Event -> bool { e => Fits(k, o, held, e) }

  lemma RuleAllows(k: Kind, o: Observed, held: Option<Doc>)
    ensures Allows(RuleFor(k, o, held), k, FitsOf(k, o, held))
  {}
}
