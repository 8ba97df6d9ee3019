/** RunnerTaskConsumer: one method per kind of delivery, each proved to follow the protocol
    of module Delivery and to settle the delivery exactly once.

    Backend answers, child behaviour and local faults are arbitrary (`*`); every answer is
    recorded in the ghost `trace` of the current delivery, every acknowledgement in the ghost
    log `settled`.  A call can return, let an exception escape, or not be finished when the
    observed part of its run ends: still waiting for a child or, in the performance handler,
    because the process died before or after any backend call or change of the samples. */
module Consumer {
  import opened Wire
  import opened Supervision
  import opened Retry
  import opened PerformanceStore
  import opened Delivery
  import opened Observations
  import opened DeliveryRules

  datatype Call = Returned(outcome: Outcome) | Escaped | Unfinished

  /** What one delivery did to its samples, in this order: load, keep, forget. */
  datatype Did = Did(loaded: bool, kept: Option<Doc>, forgot: bool)

  /** The settlements of a delivery.  `start`, `startOn`: those sent when it came in, and
      consuming then; `slips`: those that control faults caused in watches that then threw;
      `base`, `on`: both together, and consuming with them; `calm`: no method of a process
      handle raises in this delivery. */
  datatype Log = Log(start: seq<Settlement>, startOn: bool, slips: seq<Settlement>,
                     base: seq<Settlement>, on: bool, calm: bool)

  /** What was settled before the handler's own settlement. */
  predicate Based(l: Log) {
    l.base == l.start + l.slips && (l.slips == [] ==> l.on == l.startOn) && (l.calm ==> l.slips == [])
  }

  /** `m` is `l` with one more slip, for the control fault `f`. */
  predicate Slipped(l: Log, m: Log, f: Fault) {
    m.slips == l.slips + [SettlementOf(Strict(f))] && m.on == (l.on && !f.Auth?)
  }

  /** `m` is `l` with possibly more slips. */
  predicate Extends(l: Log, m: Log) {
    m.start == l.start && m.startOn == l.startOn && m.calm == l.calm && (Based(l) ==> Based(m))
  }

  lemma OnceIff(before: seq<Settlement>, slips: seq<Settlement>, own: Settlement)
    ensures (before + slips) + [own] == before + [own] <==> slips == []
  {
    if slips != [] { assert |(before + slips) + [own]| != |before + [own]|; }
  }

  function CleanResultOf(e: Exit<bool>): CleanResult
    requires !e.StillRunning? && !e.ProcessFailed?
  {
    match e
    case Delivered(ok) => if ok then CleanDone(true) else CleanBad
    case TotalTimeout => CleanTimedOut
    case ForceStopped => CleanForced
    case ControlFailed(f) => CleanFault(f)
    case _ => CleanBad
  }

  /** Every resource a report leaves to a deferred cleanup is a mapping. */
  predicate Mappings(report: Report) {
    IsDeferred(report) ==> forall m <- report.deferred.value.mappings :: m
  }

  /** So are those of whatever an attempt may answer. */
  predicate MappingWork(work: Work) {
    match work
    case Isolated(_, record) => record.outcome.Some? ==> Mappings(record.outcome.value.report)
    case Inline(answer) => Mappings(answer.report)
    case Throws(report) => Mappings(report)
  }

  ghost predicate AllMappings(c: Case) { forall i :: MappingWork(c.attempts(i).work) }

  ghost predicate Mapped(o: Observed) { forall c <- o.cases :: AllMappings(c) }

  lemma AnswerMappings(deadline: Option<int>, work: Work, ran: Ran)
    requires Yields(deadline, work, ran) && MappingWork(work) && ran.Answered?
    ensures Mappings(ran.answer.report)
  {}

  /** The cases reported so far. */
  ghost function Told(t: seq<Event>): nat {
    if t == [] then 0 else Told(t[..|t| - 1]) + if t[|t| - 1].Reporting? then 1 else 0
  }

  /** Why a call for one child did not settle the delivery: the child still runs, or an
      exception escapes. */
  ghost predicate WebUnsettled(o: Observed, r: Call) {
    (r.Escaped? && !o.workspace) || (r.Unfinished? && ChildRuns(o))
  }

  ghost predicate ScenarioUnsettled(o: Observed, r: Call) {
    (r.Escaped? && (ChildRaised(o) || !o.cleans)) || (r.Unfinished? && ChildRuns(o))
  }

  ghost predicate RecordingUnsettled(o: Observed, r: Call) {
    || (r.Escaped? && (RecordingRaised(o) || RecordingFaulted(o, Unknown) || Illegible(o.control)))
    || (r.Unfinished? && RecordingRuns(o))
  }

  /** An answer a recording cannot read. */
  predicate Illegible(control: Reply<Control>) { control == Raised(Unknown) || control == Ok(Malformed) }

  /** Why one case did not. */
  ghost predicate CaseUnsettled(c: Case, r: Call) {
    || (r.Escaped? && (CleanupRaised(c) || c.answer == Ok(NotACompletion)))
    || (r.Unfinished? && CaseRuns(c))
  }

  /** Why a whole run did not: one of its cases did not, or it goes on after all of them. */
  ghost predicate ApiUnsettled(o: Observed, r: Call) {
    || (exists c :: c in o.cases && CaseUnsettled(c, r))
    || (r.Unfinished? && forall c <- o.cases :: NextCase(c.answer))
  }

  /** Why a delivery was not settled; the process of a performance run may die at any moment. */
  ghost predicate Unsettled(k: Kind, o: Observed, r: Call) {
    match k
    case WEB => WebUnsettled(o, r)
    case SCENARIO => ScenarioUnsettled(o, r)
    case RECORDING => RecordingUnsettled(o, r)
    case API => ApiUnsettled(o, r)
    case PERFORMANCE => r.Unfinished?
    case EXPLORATION => false
  }

  ghost function HeldIn(kept: map<Key, Doc>, key: Key): Option<Doc> {
    if key in kept then Some(kept[key]) else None
  }

  /** How a part of the performance handler ends: the delivery is over, the run was already
      cancelled, a fault reaches the except clauses, or the handler goes on. */
  datatype Step = Quit(call: Call) | Cancelled | Threw(fault: Fault, planKnown: bool) | Go

  function FaultNext(f: Fault, planKnown: bool): Next {
    if planKnown then PerformanceFault(f) else Settles(Lenient(f))
  }

  /** A parsed message: whether it is a supported envelope for this Runner, its kind, whether
      its run type is API_CASE, the slot it needs, and the identifiers its samples are kept under. */
  datatype Envelope = Envelope(valid: bool, kind: Kind, apiCase: bool, slot: SlotType, key: Key)

  datatype SlotType = ApiSlot | WebSlot | PerformanceSlot

  class RunnerTaskConsumer {
    /** Which event may follow which in the current delivery, which events say what was
        observed, and its events so far. */
    ghost var rule: (Event, Event) -> bool
    ghost var fits: Event -> bool
    ghost var trace: seq<Event>
    /** Every settlement ever sent on the channel. */
    ghost var settled: seq<Settlement>
    var consuming: bool

    ghost var log: Log

    /** Free slots by type, when slots are limited at all. */
    const limited: bool
    var available: map<SlotType, nat>

    /** Performance results: in memory, in the spool, and what happened to them. */
    const hasExecutor: bool
    const store: PerformanceResultStore?
    var cache: map<Key, Iso>
    /** The keys in use, those whose samples are kept, and what the current delivery did. */
    ghost const keys: set<Key>
    ghost var kept: map<Key, Doc>
    ghost var did: Did

    constructor (hasExecutor: bool, limited: bool, available: map<SlotType, nat>, store: PerformanceResultStore?,
                 ghost keys: set<Key>, ghost kept: map<Key, Doc>)
      ensures this.hasExecutor == hasExecutor && this.limited == limited && this.available == available
      ensures this.store == store && this.keys == keys && this.kept == kept
      ensures trace == [] && settled == [] && consuming && cache == map[]
    {
      this.hasExecutor, this.limited, this.available, this.store := hasExecutor, limited, available, store;
      this.keys, this.kept := keys, kept;
      rule, fits := (a, b) => false, e => false;
      trace, settled, consuming, cache, did := [], [], true, map[], Did(false, None, false);
      log := Log([], true, [], [], true, true);
    }

    // ------------------------------------------------------------ bookkeeping

    /** The current delivery has obeyed its rule, up to and including event `e`. */
    ghost predicate At(e: Event)
      reads this`rule, this`trace
    {
      Obeys(rule, trace) && Last(trace) == e
    }

    ghost predicate May(e: Event)
      reads this`rule, this`trace
    {
      Obeys(rule, trace) && rule(Last(trace), e)
    }

    /** The current delivery obeyed its rule up to a settlement, which is the only entry added
        to `log.base` and agrees with the outcome returned; consumption stops exactly on an
        authentication failure. */
    ghost predicate Finished(r: Call)
      reads this`rule, this`trace, this`settled, this`consuming, this`log
    {
      && r.Returned?
      && At(Settle(r.outcome))
      && settled == log.base + [SettlementOf(r.outcome)]
      && consuming == (log.on && r.outcome != StoppedAuth)
    }

    /** The handler has not settled yet. */
    ghost predicate Open()
      reads this`settled, this`consuming, this`log
    {
      settled == log.base && consuming == log.on
    }

    ghost predicate Ends(r: Call)
      reads this`rule, this`trace, this`settled, this`consuming, this`log
    {
      if r.Returned? then Finished(r) else Open()
    }

    ghost predicate MayPlan() reads this`rule, this`trace { forall p :: May(Plan(p)) }

    ghost predicate MayAsk(phase: Phase) reads this`rule, this`trace { forall c :: May(Asked(phase, c)) }

    ghost predicate MayComplete(sent: Sent) reads this`rule, this`trace { forall a :: May(Completion(sent, a)) }

    /** The except clauses of the performance handler may deal with `f`. */
    ghost predicate MayFault(f: Fault, planKnown: bool) reads this`rule, this`trace {
      forall b :: Permits(FaultNext(f, planKnown), false, b) ==> May(b)
    }

    ghost method Emit(e: Event)
      requires if trace == [] then e.Envelope? else May(e)
      modifies this`trace
      ensures At(e) && Told(trace) == Told(old(trace)) + if e.Reporting? then 1 else 0
    {
      Extend(rule, trace, e);
      trace := trace + [e];
      assert trace[..|trace| - 1] == old(trace);
    }

    /** A case was reported and the run goes on. */
    ghost predicate GoesOn(told: nat, answer: Reply<Completed>)
      reads this`rule, this`trace, this`settled, this`consuming, this`log
    {
      Open() && MayPlan() && Told(trace) > told && NextCase(answer)
    }

    /** Events that say what was observed of the children fit. */
    ghost predicate Observing(o: Observed) reads this`fits {
      && (forall iso :: ChildSeen(o, iso) ==> fits(Child(iso)))
      && (forall f :: ChildFaulted(o, f) ==> fits(ChildFault(f)))
      && (forall f :: Raises(o.child.ending, f) ==> fits(Crashed(f)))
    }

    ghost predicate ObservingRecording(o: Observed) reads this`fits {
      && (forall iso :: RecordingSeen(o, iso) ==> fits(Child(iso)))
      && (forall f :: RecordingFaulted(o, f) ==> fits(ChildFault(f)))
    }

    /** What was observed of a case fits. */
    ghost predicate ObservingCase(c: Case) reads this`fits {
      && (forall r :: AttemptsEnd(c, r) ==> fits(Attempts(r)))
      && (forall cleaning, r: CleanResult :: r.NotMappings? || CleanupEnds(c, r) ==> fits(Cleaned(cleaning, r)))
    }

    ghost predicate ObservingCases(o: Observed) reads this`fits { forall c <- o.cases :: ObservingCase(c) }

    /** What was kept fits. */
    ghost predicate ObservingHeld(held: Option<Doc>) reads this`fits {
      && (forall iso :: (held.Some? ==> iso == Measured(held.value)) ==> fits(Recalled(iso)))
      && fits(StoreFault)
    }

    /** What the exit of a watch stands for may be told. */
    ghost predicate Tellable(exit: Exit<Iso>) reads this`fits {
      && (forall iso :: StandsFor(exit, iso) ==> fits(Child(iso)))
      && (exit.ControlFailed? ==> fits(ChildFault(exit.fault)))
      && (exit.ProcessFailed? ==> fits(Crashed(exit.raised)))
    }

    // ------------------------------------------------------------ channel

    method BasicAck() returns (r: Call)
      requires May(Settle(Acked))
      requires Open()
      modifies this`trace, this`settled
      ensures Finished(r) && r == Returned(Acked)
    {
      settled := settled + [Ack];
      Emit(Settle(Acked));
      r := Returned(Acked);
    }

    method BasicNack() returns (r: Call)
      requires May(Settle(Requeued))
      requires Open()
      modifies this`trace, this`settled
      ensures Finished(r) && r == Returned(Requeued)
    {
      settled := settled + [NackRequeue];
      Emit(Settle(Requeued));
      r := Returned(Requeued);
    }

    method BasicReject() returns (r: Call)
      requires May(Settle(Rejected))
      requires Open()
      modifies this`trace, this`settled
      ensures Finished(r) && r == Returned(Rejected)
    {
      settled := settled + [Reject];
      Emit(Settle(Rejected));
      r := Returned(Rejected);
    }

    method RejectAndStopConsuming() returns (r: Call)
      requires May(Settle(StoppedAuth))
      requires Open()
      modifies this`trace, this`settled, this`consuming
      ensures Finished(r) && r == Returned(StoppedAuth)
    {
      settled := settled + [Reject];
      Emit(Settle(StoppedAuth));
      consuming := false;
      r := Returned(StoppedAuth);
    }

    /** The except-ladder used before anything was reported. */
    method StrictLadder(f: Fault) returns (r: Call)
      requires May(Settle(Strict(f)))
      requires Open()
      modifies this`trace, this`settled, this`consuming
      ensures Finished(r) && r == Returned(Strict(f))
    {
      match f {
        case Auth => r := RejectAndStopConsuming();
        case Transport => r := BasicNack();
        case _ => r := BasicReject();
      }
    }

    /** The except-ladder used around reporting. */
    method LenientLadder(f: Fault) returns (r: Call)
      requires May(Settle(Lenient(f)))
      requires Open()
      modifies this`trace, this`settled, this`consuming
      ensures Finished(r) && r == Returned(Lenient(f))
    {
      if f.Unknown? { r := BasicNack(); } else { r := StrictLadder(f); }
    }

    /** The settlement a watch had made before it threw. */
    method SettleFirst(f: Option<Fault>)
      requires Open() && (f.Some? ==> !log.calm)
      modifies this`settled, this`consuming, this`log
      ensures Open() && Extends(old(log), log)
      ensures if f.Some? then Slipped(old(log), log, f.value) else log == old(log)
    {
      if f.Some? {
        settled := settled + [SettlementOf(Strict(f.value))];
        if f.value.Auth? { consuming := false; }
        log := log.(slips := log.slips + [SettlementOf(Strict(f.value))], base := settled, on := consuming);
      }
    }

    /** The `_complete_*` calls and their `_complete_*_disposition`. */
    method Complete(k: Kind, sent: Sent) returns (r: Call)
      requires ClosingRules(k, rule)
      requires MayComplete(sent)
      requires Open()
      modifies this`trace, this`settled, this`consuming
      ensures Finished(r)
    {
      var answer: Reply<Completed> := Arbitrary();
      r := Conclude(k, sent, answer);
    }

    method Conclude(k: Kind, sent: Sent, answer: Reply<Completed>) returns (r: Call)
      requires ClosingRules(k, rule) && May(Completion(sent, answer))
      requires Open()
      modifies this`trace, this`settled, this`consuming
      ensures Finished(r) && r == Returned(AnsweredAs(k, sent, answer))
    {
      Emit(Completion(sent, answer));
      if answer.Raised? {
        r := LenientLadder(answer.fault);
      } else if Confirms(k, sent, answer.value) {
        r := BasicAck();
      } else if sent.Samples? && answer.value.NotACompletion? {
        r := BasicNack();
      } else {
        r := BasicReject();
      }
    }

    // ------------------------------------------------------------ the opening of a run

    /** Claim a run; a cancelled one is acknowledged at once. */
    method ClaimRun() returns (early: Option<Call>)
      requires ClaimRules(rule) && At(Slot(true))
      requires Open()
      modifies this`trace, this`settled, this`consuming
      ensures early.Some? ==> Finished(early.value)
      ensures early.None? ==> Open() && MayPlan()
    {
      var claim: Reply<ClaimView> := Arbitrary();
      Emit(Claim(claim));
      var r: Call;
      if claim.Raised? { r := StrictLadder(claim.fault); return Some(r); }
      if claim.value.status == CANCELLED { r := BasicAck(); return Some(r); }
      early := None;
    }

    /** Read the plan and start the case; a run being cancelled is completed at once. */
    method PlanAndStart(k: Kind) returns (early: Option<Call>)
      requires StartRules(rule) && ClosingRules(k, rule) && MayPlan()
      requires Open()
      modifies this`trace, this`settled, this`consuming
      ensures early.Some? ==> Finished(early.value)
      ensures early.None? ==> Open() && MayAsk(Before) && Told(trace) == Told(old(trace))
    {
      var r: Call;
      var plan: Reply<PlanView> := Arbitrary();
      Emit(Plan(plan));
      if plan.Raised? { r := StrictLadder(plan.fault); return Some(r); }
      var started: Reply<Word> := Arbitrary();
      Emit(Start(plan.value.typed, started));
      if started.Raised? { r := StrictLadder(started.fault); return Some(r); }
      if started.value == CANCELLING {
        r := Complete(k, Plain(CANCELLED, CANCEL_REQUESTED));
        return Some(r);
      }
      early := None;
    }

    /** Read control before the work. */
    method PassGate(k: Kind, namesForce: bool) returns (early: Option<Call>, ghost cleared: Reply<Control>)
      requires GateRules(rule, namesForce) && ClosingRules(k, rule) && MayAsk(Before)
      requires Open()
      modifies this`trace, this`settled, this`consuming
      ensures early.Some? ==> Finished(early.value)
      ensures early.None? ==>
                Open() && At(Asked(Before, cleared)) && CheckControl(cleared) == Ok(Clear) &&
                Told(trace) == Told(old(trace))
    {
      var r: Call;
      var control: Reply<Control> := Arbitrary();
      cleared := control;
      Emit(Asked(Before, control));
      var demand := CheckControl(control);
      if demand.Raised? { r := StrictLadder(demand.fault); return Some(r), cleared; }
      if demand.value != Clear {
        r := Complete(k, Plain(CANCELLED, if namesForce then ForceWhy(demand.value) else CANCEL_REQUESTED));
        return Some(r), cleared;
      }
      early := None;
    }

    /** Plan, start and control. */
    method StartRun(k: Kind, namesForce: bool) returns (early: Option<Call>, ghost cleared: Reply<Control>)
      requires StartRules(rule) && GateRules(rule, namesForce) && ClosingRules(k, rule) && MayPlan()
      requires Open()
      modifies this`trace, this`settled, this`consuming
      ensures early.Some? ==> Finished(early.value)
      ensures early.None? ==> Open() && At(Asked(Before, cleared)) && CheckControl(cleared) == Ok(Clear)
      ensures early.None? ==> Told(trace) == Told(old(trace))
    {
      cleared := Raised(Unknown);
      early := PlanAndStart(k);
      if early.None? { early, cleared := PassGate(k, namesForce); }
    }

    /** The same with the claim before it. */
    method OpenRun(k: Kind, namesForce: bool) returns (early: Option<Call>, ghost cleared: Reply<Control>)
      requires ClaimRules(rule) && StartRules(rule) && GateRules(rule, namesForce) && ClosingRules(k, rule)
      requires At(Slot(true))
      requires Open()
      modifies this`trace, this`settled, this`consuming
      ensures early.Some? ==> Finished(early.value)
      ensures early.None? ==> Open() && At(Asked(Before, cleared)) && CheckControl(cleared) == Ok(Clear)
    {
      cleared := Raised(Unknown);
      early := ClaimRun();
      if early.None? { early, cleared := StartRun(k, namesForce); }
    }

    // ------------------------------------------------------------ WEB_CASE

    /** `_process_web_execution_delivery`.  A workspace that cannot be created lets its
        exception escape. */
    method ProcessWeb(o: Observed) returns (r: Call)
      requires WebRules(rule, fits) && At(Slot(true))
      requires Open() && (log.calm ==> CalmEnding(o.child.ending))
      requires Observing(o)
      modifies this`trace, this`settled, this`consuming, this`log
      ensures Extends(old(log), log)
      ensures Ends(r) && (!r.Returned? ==> WebUnsettled(o, r))
    {
      var early;
      ghost var cleared;
      early, cleared := OpenRun(WEB, false);
      if early.Some? { return early.value; }
      if !o.workspace { return Escaped; }
      var iso: Iso;
      early, iso := ExecuteWeb(o, cleared);
      if early.Some? { return early.value; }
      r := AfterWeb(iso);
    }

    /** Control, evidence and completion of an outcome. */
    method AfterWeb(iso: Iso) returns (r: Call)
      requires WebRules(rule, fits) && At(Child(iso))
      requires Open()
      modifies this`trace, this`settled, this`consuming
      ensures Finished(r)
    {
      var early, pending := AskAfterWeb(iso);
      if early.Some? { return early.value; }
      r := FinishWeb(iso, pending);
    }

    /** `_execute_web_isolated`, including a child that cannot be started. */
    method ExecuteWeb(o: Observed, ghost cleared: Reply<Control>)
      returns (early: Option<Call>, iso: Iso)
      requires WebWorkRules(rule, fits) && At(Asked(Before, cleared)) && CheckControl(cleared) == Ok(Clear)
      requires Open() && (log.calm ==> CalmEnding(o.child.ending))
      requires Observing(o)
      modifies this`trace, this`settled, this`consuming, this`log
      ensures Extends(old(log), log)
      ensures log == old(log) || exists f :: Overran(o.lim, o.child, f) && Slipped(old(log), log, f)
      ensures forall f :: Overran(o.lim, o.child, f) ==> Slipped(old(log), log, f)
      ensures early.Some? ==> Ends(early.value)
      ensures early.Some? && !early.value.Returned? ==> early.value.Unfinished? && ChildRuns(o)
      ensures early.None? ==> Open() && At(Child(iso)) && ChildSeen(o, iso)
    {
      var exit, turn, seen, _, _ := Supervise(o.lim, o.child);
      WatchIsSeen(o, turn, seen, exit);
      early, iso := AfterWebWatch(exit, cleared);
    }

    /** What the exit of the watch leads to. */
    method AfterWebWatch(exit: Exit<Iso>, ghost cleared: Reply<Control>) returns (early: Option<Call>, iso: Iso)
      requires WebWorkRules(rule, fits) && At(Asked(Before, cleared)) && CheckControl(cleared) == Ok(Clear)
      requires Open() && (log.calm && exit.ProcessFailed? ==> exit.settled.None?)
      requires Tellable(exit)
      modifies this`trace, this`settled, this`consuming, this`log
      ensures Extends(old(log), log)
      ensures if exit.ProcessFailed? && exit.settled.Some? then Slipped(old(log), log, exit.settled.value)
              else log == old(log)
      ensures early.Some? ==> Ends(early.value)
      ensures early.Some? && !early.value.Returned? ==> early.value.Unfinished? && exit.StillRunning?
      ensures early.None? ==> Open() && At(Child(iso)) && StandsFor(exit, iso)
    {
      iso := Ended(BROKEN);
      var r: Call;
      if exit.StillRunning? {
        early := Some(Unfinished);
      } else if exit.ProcessFailed? {
        SettleFirst(exit.settled);
        Emit(Crashed(exit.raised));
        r := StrictLadder(exit.raised);
        early := Some(r);
      } else if exit.ControlFailed? {
        Emit(ChildFault(exit.fault));
        r := StrictLadder(exit.fault);
        early := Some(r);
      } else {
        iso, early := IsoOf(exit), None;
        Emit(Child(iso));
      }
    }

    /** Control after the child: a demand is kept for a result, acted on otherwise. */
    method AskAfterWeb(iso: Iso) returns (early: Option<Call>, pending: Demand)
      requires WebRules(rule, fits) && At(Child(iso))
      requires Open()
      modifies this`trace, this`settled, this`consuming
      ensures early.Some? ==> Finished(early.value)
      ensures early.None? ==> Open() && forall e :: May(Evidence(iso, pending, e))
    {
      pending := Clear;
      if WebTerminal(iso) { return None, pending; }
      var r: Call;
      var control: Reply<Control> := Arbitrary();
      Emit(Asked(AfterChild(iso), control));
      var demand := CheckControl(control);
      if demand.Raised? { r := StrictLadder(demand.fault); return Some(r), pending; }
      if iso.Result? {
        pending := demand.value;
      } else if demand.value != Clear {
        r := Complete(WEB, Plain(CANCELLED, CANCEL_REQUESTED));
        return Some(r), pending;
      }
      early := None;
    }

    /** Evidence, then the completion it leads to. */
    method FinishWeb(iso: Iso, pending: Demand) returns (r: Call)
      requires WebRules(rule, fits) && forall e :: May(Evidence(iso, pending, e))
      requires Open()
      modifies this`trace, this`settled, this`consuming
      ensures Finished(r)
    {
      var evidence: Reply<bool> := Arbitrary();
      Emit(Evidence(iso, pending, evidence));
      if evidence == Raised(Auth) {
        r := StrictLadder(Auth);
      } else if pending != Clear {
        r := Complete(WEB, Plain(CANCELLED, CANCEL_REQUESTED));
      } else if evidence.Ok? || WebCancelled(iso) {
        r := ReportWeb(iso, pending, evidence);
      } else if iso.Result? && iso.payload.exactTraces {
        r := Complete(WEB, Plain(FAILED, EVIDENCE_ERROR));
      } else {
        r := LenientLadder(evidence.fault);
      }
    }

    /** `_complete_web_result` */
    method ReportWeb(iso: Iso, pending: Demand, ghost evidence: Reply<bool>) returns (r: Call)
      requires WebRules(rule, fits) && At(Evidence(iso, pending, evidence))
      requires pending == Clear && evidence != Raised(Auth) && (evidence.Ok? || WebCancelled(iso))
      requires Open()
      modifies this`trace, this`settled, this`consuming
      ensures Finished(r)
    {
      if WebVoid(iso) {
        r := BasicReject();
      } else if !WebJudged(iso) {
        r := Complete(WEB, WebFinal(iso));
      } else {
        var judged: Reply<Judged> := Arbitrary();
        Emit(Evaluated(iso, judged));
        if judged.Raised? {
          r := LenientLadder(judged.fault);
        } else {
          r := Complete(WEB, JudgedFinal(WebFinal(iso), judged.value.verdict));
        }
      }
    }

    // ------------------------------------------------------------ SCENARIO

    /** `_process_scenario_execution_delivery`.  A child that cannot be started lets its
        exception escape. */
    method ProcessScenario(o: Observed) returns (r: Call)
      requires ScenarioRules(rule, fits) && At(Slot(true))
      requires Open() && (log.calm ==> CalmEnding(o.child.ending))
      requires Observing(o)
      modifies this`trace, this`settled, this`consuming, this`log
      ensures Extends(old(log), log)
      ensures Ends(r) && (!r.Returned? ==> ScenarioUnsettled(o, r))
    {
      var early;
      ghost var cleared;
      early, cleared := OpenRun(SCENARIO, true);
      if early.Some? { return early.value; }
      var iso: Iso;
      early, iso := ExecuteScenario(o, cleared);
      if early.Some? { return early.value; }
      r := ReportScenario(iso, o.cleans);
    }

    /** `_execute_scenario_isolated` */
    method ExecuteScenario(o: Observed, ghost cleared: Reply<Control>)
      returns (early: Option<Call>, iso: Iso)
      requires ScenarioWorkRules(rule, fits) && At(Asked(Before, cleared)) && CheckControl(cleared) == Ok(Clear)
      requires Open() && (log.calm ==> CalmEnding(o.child.ending))
      requires Observing(o)
      modifies this`trace, this`settled, this`consuming, this`log
      ensures Extends(old(log), log)
      ensures log == old(log) || exists f :: Overran(o.lim, o.child, f) && Slipped(old(log), log, f)
      ensures forall f :: Overran(o.lim, o.child, f) ==> Slipped(old(log), log, f)
      ensures early.Some? ==> Ends(early.value)
      ensures early.Some? && early.value.Escaped? ==> ChildRaised(o)
      ensures early.Some? && early.value.Unfinished? ==> ChildRuns(o)
      ensures early.None? ==> Open() && At(Child(iso)) && ChildSeen(o, iso)
    {
      var exit, turn, seen, _, _ := Supervise(o.lim, o.child);
      WatchIsSeen(o, turn, seen, exit);
      early, iso := AfterScenarioWatch(exit, cleared);
    }

    /** What the exit of the watch leads to; an exception escapes. */
    method AfterScenarioWatch(exit: Exit<Iso>, ghost cleared: Reply<Control>) returns (early: Option<Call>, iso: Iso)
      requires ScenarioWorkRules(rule, fits) && At(Asked(Before, cleared)) && CheckControl(cleared) == Ok(Clear)
      requires Open() && (log.calm && exit.ProcessFailed? ==> exit.settled.None?)
      requires Tellable(exit)
      modifies this`trace, this`settled, this`consuming, this`log
      ensures Extends(old(log), log)
      ensures if exit.ProcessFailed? && exit.settled.Some? then Slipped(old(log), log, exit.settled.value)
              else log == old(log)
      ensures early.Some? ==> Ends(early.value)
      ensures early == Some(Escaped) <==> exit.ProcessFailed?
      ensures early == Some(Unfinished) <==> exit.StillRunning?
      ensures early.None? ==> Open() && At(Child(iso)) && StandsFor(exit, iso)
    {
      iso, early := Ended(BROKEN), None;
      if exit.StillRunning? {
        early := Some(Unfinished);
      } else if exit.ProcessFailed? {
        SettleFirst(exit.settled);
        early := Some(Escaped);
      } else if exit.ControlFailed? {
        Emit(ChildFault(exit.fault));
        var r := StrictLadder(exit.fault);
        early := Some(r);
      } else {
        iso := IsoOf(exit);
        Emit(Child(iso));
      }
    }

    /** Control once more, then `_complete_scenario_result`. */
    method ReportScenario(iso: Iso, cleans: bool) returns (r: Call)
      requires ScenarioRules(rule, fits) && At(Child(iso))
      requires Open()
      modifies this`trace, this`settled, this`consuming
      ensures Ends(r) && (!r.Returned? ==> r.Escaped? && !cleans)
    {
      var control: Reply<Control> := Arbitrary();
      Emit(Asked(AfterChild(iso), control));
      var demand := CheckControl(control);
      if demand.Raised? {
        r := StrictLadder(demand.fault);
      } else if demand.value != Clear {
        r := Complete(SCENARIO, Plain(CANCELLED, ForceWhy(demand.value)));
      } else if ScenarioVoid(iso) {
        r := BasicReject();
      } else if iso.Result? && iso.payload.ai == GoodAi {
        r := JudgeScenario(iso, cleans);
      } else {
        r := Complete(SCENARIO, ScenarioFinal(iso));
      }
    }

    /** Backend judgement, deferred cleanup in a second child, completion. */
    method JudgeScenario(iso: Iso, cleans: bool) returns (r: Call)
      requires ScenarioRules(rule, fits) && forall j :: May(Evaluated(iso, j))
      requires Open()
      modifies this`trace, this`settled, this`consuming
      ensures Ends(r) && (!r.Returned? ==> r.Escaped? && !cleans)
    {
      var judged: Reply<Judged> := Arbitrary();
      Emit(Evaluated(iso, judged));
      if judged.Raised? { r := LenientLadder(judged.fault); return; }
      if !judged.value.nodesKnown { r := BasicReject(); return; }
      if !cleans { return Escaped; }
      var cleaned: CleanResult := Arbitrary();
      Emit(Cleaned(ScenarioCleaning(iso, judged.value.verdict), cleaned));
      if !cleaned.CleanDone? {
        r := BasicReject();
      } else if cleaned.success {
        r := Complete(SCENARIO, JudgedFinal(ScenarioFinal(iso), judged.value.verdict));
      } else {
        r := Complete(SCENARIO, Sent(FAILED, CLEANUP_ERROR, 0, true));
      }
    }

    // ------------------------------------------------------------ API_CASE

    /** The one return that leaves the delivery unsettled: `_execute_deferred_cleanup` gives
        up on a resource that is not a mapping. */
    ghost predicate Dropped(r: Call)
      reads this`rule, this`trace, this`settled, this`consuming, this`log
    {
      && r == Returned(Rejected) && Open()
      && Obeys(rule, trace) && Last(trace).Cleaned? && Last(trace).cleaned == NotMappings
    }

    /** `_process_execution_delivery`: the cases of a run one after the other, as `o.cases` says
        they go; the call is unfinished when more cases come. */
    method ProcessApi(o: Observed) returns (r: Call)
      requires ApiRules(rule, fits) && At(Slot(true))
      requires Open() && (log.calm ==> forall c <- o.cases :: CalmCase(c))
      requires ObservingCases(o)
      modifies this`trace, this`settled, this`consuming, this`log
      ensures Extends(old(log), log)
      ensures Ends(r) || Dropped(r)
      ensures Mapped(o) ==> Ends(r)
      ensures !r.Returned? ==> ApiUnsettled(o, r)
      ensures r.Unfinished? && Told(trace) < |o.cases| ==> exists c :: c in o.cases && CaseRuns(c)
    {
      var early := ClaimRun();
      if early.Some? { return early.value; }
      for i := 0 to |o.cases|
        invariant Open() && Extends(old(log), log) && MayPlan() && Told(trace) >= i
        invariant forall c <- o.cases[..i] :: NextCase(c.answer)
      {
        early := ProcessCase(o.cases[i]);
        if early.Some? { return early.value; }
      }
      r := Unfinished;
    }

    /** One turn of the case loop; None when the run goes on with another case.  An attempt that
        threw after control had settled is reported all the same. */
    method ProcessCase(c: Case) returns (early: Option<Call>)
      requires ApiRules(rule, fits) && MayPlan() && (log.calm ==> CalmCase(c))
      requires Open()
      requires ObservingCase(c)
      modifies this`trace, this`settled, this`consuming, this`log
      ensures Extends(old(log), log)
      ensures early.None? ==> GoesOn(Told(old(trace)), c.answer)
      ensures early.Some? ==> Ends(early.value) || Dropped(early.value)
      ensures early.Some? && AllMappings(c) ==> Ends(early.value)
      ensures early.Some? && !early.value.Returned? ==> CaseUnsettled(c, early.value)
    {
      ghost var cleared;
      early, cleared := StartRun(API, true);
      if early.None? { early := AttemptCase(c, cleared); }
    }

    /** The attempts of a case that was started, and what they lead to. */
    method AttemptCase(c: Case, ghost cleared: Reply<Control>) returns (early: Option<Call>)
      requires ApiRules(rule, fits) && At(Asked(Before, cleared)) && CheckControl(cleared) == Ok(Clear)
      requires Open() && (log.calm ==> CalmCase(c))
      requires ObservingCase(c)
      modifies this`trace, this`settled, this`consuming, this`log
      ensures Extends(old(log), log)
      ensures early.None? ==> GoesOn(Told(old(trace)), c.answer)
      ensures early.Some? ==> Ends(early.value) || Dropped(early.value)
      ensures early.Some? && AllMappings(c) ==> Ends(early.value)
      ensures early.Some? && !early.value.Returned? ==> CaseUnsettled(c, early.value)
    {
      var result, _, _ := RunAttempts(c);
      Emit(Attempts(result));
      if result.Reported? {
        early := ReportCase(c, result.report, result.retries);
      } else {
        early := EndAttempts(result);
      }
    }

    /** The attempts of a case, and the settlement one of them may have made before it threw. */
    method RunAttempts(c: Case) returns (result: Retry.Result, ghost repeated: nat, ghost last: Option<Ran>)
      requires log.calm ==> CalmCase(c)
      requires Open()
      modifies this`settled, this`consuming, this`log
      ensures Extends(old(log), log)
      ensures Open() && AttemptsEnd(c, result)
      ensures last.Some? ==> Yields(c.deadline, c.attempts(repeated).work, last.value)
      ensures if last.Some? && last.value.Answered? && last.value.settled.Some? then
                && AttemptOverran(c, repeated, last.value.settled.value)
                && Slipped(old(log), log, last.value.settled.value)
                && result.Reported? && result.report.ExecutorError?
              else log == old(log)
      ensures result.Reported? && AllMappings(c) ==> Mappings(result.report)
    {
      var outcome, rans, final, _, _, _ := ExecuteWithRetries(c.policy, c.deadline, c.listens, c.attempts);
      result, repeated, last := outcome, |rans|, final;
      if final.Some? && final.value.Answered? {
        assert CalmWork(c.attempts(|rans|).work) ==> final.value.settled.None?;
        assert final.value.settled.Some? ==> AttemptOverran(c, |rans|, final.value.settled.value);
        if AllMappings(c) { AnswerMappings(c.deadline, c.attempts(|rans|).work, final.value); }
        SettleFirst(final.value.settled);
      }
    }

    /** Attempts that ended the delivery instead of producing a report. */
    method EndAttempts(result: Retry.Result) returns (early: Option<Call>)
      requires ApiRules(rule, fits) && At(Attempts(result)) && !result.Reported?
      requires Open()
      modifies this`trace, this`settled, this`consuming
      ensures early.Some? && early.value.Returned? ==> Finished(early.value)
      ensures early.Some? && (!early.value.Returned? ==> Open() && early.value.Unfinished? && result.Pending?)
    {
      var r: Call;
      match result {
        case SettledBy(f) => r := StrictLadder(f);
        case EndTimeout(n) => r := Complete(API, Sent(TIMEOUT, Why.TOTAL_TIMEOUT, n, false));
        case EndDemand(d, n) => r := Complete(API, Sent(CANCELLED, ForceWhy(d), n, false));
        case Pending => r := Unfinished;
      }
      early := Some(r);
    }

    /** Control, judgement and cleanup of a report, then the report itself. */
    method ReportCase(c: Case, report: Report, n: nat) returns (early: Option<Call>)
      requires ApiRules(rule, fits) && At(Attempts(Reported(report, n)))
      requires log.calm ==> CalmCase(c)
      requires Open()
      requires ObservingCase(c)
      modifies this`trace, this`settled, this`consuming, this`log
      ensures Extends(old(log), log)
      ensures early.None? ==> GoesOn(Told(old(trace)), c.answer)
      ensures early.Some? && !early.value.Returned? ==> CaseUnsettled(c, early.value)
      ensures early.Some? ==>
                || Ends(early.value)
                || Dropped(early.value)
      ensures early.Some? && Mappings(report) ==> Ends(early.value)
    {
      if IsDeferred(report) && !report.deferred.value.contextOk {
        var r := BasicReject();
        return Some(r);
      }
      early := AskAndReport(c, report, n);
    }

    /** Control once more, and what it leads to. */
    method AskAndReport(c: Case, report: Report, n: nat) returns (early: Option<Call>)
      requires ApiRules(rule, fits) && MayAsk(AfterReport(report, n))
      requires log.calm ==> CalmCase(c)
      requires Open()
      requires ObservingCase(c)
      modifies this`trace, this`settled, this`consuming, this`log
      ensures Extends(old(log), log)
      ensures early.None? ==> GoesOn(Told(old(trace)), c.answer)
      ensures early.Some? && !early.value.Returned? ==> CaseUnsettled(c, early.value)
      ensures early.Some? ==> Ends(early.value) || Dropped(early.value)
      ensures early.Some? && Mappings(report) ==> Ends(early.value)
    {
      var r: Call;
      var control: Reply<Control> := Arbitrary();
      Emit(Asked(AfterReport(report, n), control));
      var demand := CheckControl(control);
      if demand.Raised? { r := StrictLadder(demand.fault); return Some(r); }
      early := ReportAsked(c, report, n, demand.value);
    }

    method ReportAsked(c: Case, report: Report, n: nat, demand: Demand) returns (early: Option<Call>)
      requires ApiRules(rule, fits) && (log.calm ==> CalmCase(c))
      requires if demand == Clear then MayReport(report, n) else MayEnd(report, n, demand)
      requires Open()
      requires ObservingCase(c)
      modifies this`trace, this`settled, this`consuming, this`log
      ensures Extends(old(log), log)
      ensures early.None? ==> GoesOn(Told(old(trace)), c.answer)
      ensures early.Some? && !early.value.Returned? ==> CaseUnsettled(c, early.value)
      ensures early.Some? ==> Ends(early.value) || Dropped(early.value)
      ensures early.Some? && Mappings(report) ==> Ends(early.value)
    {
      if demand != Clear {
        early := ReportDemanded(c, report, n, demand);
      } else {
        early := ReportCleared(c, report, n);
      }
    }

    /** Control wants the run to end: what was deferred is cleaned up first. */
    method ReportDemanded(c: Case, report: Report, n: nat, demand: Demand) returns (early: Option<Call>)
      requires ApiRules(rule, fits) && (log.calm ==> CalmCase(c)) && demand != Clear && MayEnd(report, n, demand)
      requires Open()
      requires ObservingCase(c)
      modifies this`trace, this`settled, this`consuming, this`log
      ensures Extends(old(log), log)
      ensures early.None? ==> GoesOn(Told(old(trace)), c.answer)
      ensures early.Some? && !early.value.Returned? ==> CaseUnsettled(c, early.value)
      ensures early.Some? ==> Ends(early.value) || Dropped(early.value)
      ensures early.Some? && Mappings(report) ==> Ends(early.value)
    {
      if IsDeferred(report) {
        early := CleanUp(c, CancelCleaning(demand, n), report);
      } else {
        var r := Complete(API, Sent(CANCELLED, ForceWhy(demand), n, false));
        early := Some(r);
      }
    }

    ghost predicate MayEnd(report: Report, n: nat, demand: Demand)
      reads this`rule, this`fits, this`trace
    {
      if IsDeferred(report) then MayClean(CancelCleaning(demand, n))
      else MayComplete(Sent(CANCELLED, ForceWhy(demand), n, false))
    }

    ghost predicate MayClean(cleaning: Cleaning)
      reads this`rule, this`fits, this`trace
    {
      forall c :: fits(Cleaned(cleaning, c)) ==> May(Cleaned(cleaning, c))
    }

    /** Nothing was demanded: the report, judged and cleaned up first if that was deferred. */
    method ReportCleared(c: Case, report: Report, n: nat) returns (early: Option<Call>)
      requires ApiRules(rule, fits) && (log.calm ==> CalmCase(c)) && MayReport(report, n)
      requires Open()
      requires ObservingCase(c)
      modifies this`trace, this`settled, this`consuming, this`log
      ensures Extends(old(log), log)
      ensures early.None? ==> GoesOn(Told(old(trace)), c.answer)
      ensures early.Some? && !early.value.Returned? ==> CaseUnsettled(c, early.value)
      ensures early.Some? ==> Ends(early.value) || Dropped(early.value)
      ensures early.Some? && Mappings(report) ==> Ends(early.value)
    {
      if !IsDeferred(report) {
        early := Submit(ReportSent(report, n, false), c.answer);
      } else if !report.deferred.value.responseOk {
        var r := BasicReject();
        early := Some(r);
      } else {
        early := JudgeReport(c, report, n);
      }
    }

    ghost predicate MayReport(report: Report, n: nat)
      reads this`rule, this`trace
    {
      if !IsDeferred(report) then forall a :: May(Reporting(ReportSent(report, n, false), a))
      else if !report.deferred.value.responseOk then May(Settle(Rejected))
      else forall w :: May(ReportEvaluated(report, n, w))
    }

    /** `execution_evaluate`, the deferred cleanup, and the evaluated report. */
    method JudgeReport(c: Case, report: Report, n: nat) returns (early: Option<Call>)
      requires ApiRules(rule, fits) && IsDeferred(report) && forall w :: May(ReportEvaluated(report, n, w))
      requires log.calm ==> CalmCase(c)
      requires Open()
      requires ObservingCase(c)
      modifies this`trace, this`settled, this`consuming, this`log
      ensures Extends(old(log), log)
      ensures early.None? ==> GoesOn(Told(old(trace)), c.answer)
      ensures early.Some? && !early.value.Returned? ==> CaseUnsettled(c, early.value)
      ensures early.Some? ==>
                || Ends(early.value)
                || Dropped(early.value)
      ensures early.Some? && Mappings(report) ==> Ends(early.value)
    {
      var judged: Reply<Word> := Arbitrary();
      Emit(ReportEvaluated(report, n, judged));
      if judged.Raised? {
        var r := LenientLadder(judged.fault);
        return Some(r);
      }
      early := CleanUp(c, ReportCleaning(report, n), report);
    }

    /** `_execute_deferred_cleanup` and what follows it. */
    method CleanUp(c: Case, cleaning: Cleaning, report: Report) returns (early: Option<Call>)
      requires ApiRules(rule, fits) && IsDeferred(report) && !cleaning.ScenarioCleaning?
      requires MayClean(cleaning)
      requires log.calm ==> CalmCase(c)
      requires Open()
      requires ObservingCase(c)
      modifies this`trace, this`settled, this`consuming, this`log
      ensures Extends(old(log), log)
      ensures early.None? ==> GoesOn(Told(old(trace)), c.answer)
      ensures early.Some? && !early.value.Returned? ==> CaseUnsettled(c, early.value)
      ensures early.Some? && Mappings(report) ==> Ends(early.value)
      ensures !Mappings(report) ==>
                early.Some? && Dropped(early.value)
    {
      if !(forall m <- report.deferred.value.mappings :: m) {
        Emit(Cleaned(cleaning, NotMappings));
        return Some(Returned(Rejected));
      }
      var cleaned;
      early, cleaned := RunCleanup(c);
      if early.None? { early := AfterCleanup(cleaning, cleaned, c.answer); }
    }

    /** The cleanup itself: it may still run, or let an exception escape. */
    method RunCleanup(c: Case) returns (early: Option<Call>, cleaned: CleanResult)
      requires log.calm ==> CalmCase(c)
      requires Open()
      modifies this`settled, this`consuming, this`log
      ensures Extends(old(log), log)
      ensures log == old(log) || exists f :: CleanupOverran(c, f) && Slipped(old(log), log, f)
      ensures forall f :: CleanupOverran(c, f) ==> Slipped(old(log), log, f)
      ensures early.Some? ==> !early.value.Returned?
      ensures early.Some? && early.value.Escaped? ==> CleanupRaised(c)
      ensures early.Some? && early.value.Unfinished? ==> CaseRuns(c)
      ensures early.None? ==> !cleaned.NotMappings? && CleanupEnds(c, cleaned)
      ensures Open()
    {
      early, cleaned := None, CleanBad;
      match c.cleaning {
        case CleanThrows => early := Some(Escaped);
        case CleanInline(ok) => cleaned := if ok then CleanDone(true) else CleanBad;
        case CleanIsolated(pollEvery, record) =>
          var exit, turn, seen, _, _ := SuperviseApi(LimitsOf(c.deadline, pollEvery), record);
          if exit.StillRunning? {
            early := Some(Unfinished);
          } else if exit.ProcessFailed? {
            SettleFirst(exit.settled);
            early := Some(Escaped);
          } else {
            assert seen == exit && CleansAs(seen, CleanResultOf(exit));
            cleaned := CleanResultOf(exit);
          }
      }
    }

    method AfterCleanup(cleaning: Cleaning, cleaned: CleanResult, answer: Reply<Completed>)
      returns (early: Option<Call>)
      requires ApiRules(rule, fits) && !cleaning.ScenarioCleaning? && !cleaned.NotMappings?
      requires May(Cleaned(cleaning, cleaned))
      requires Open()
      modifies this`trace, this`settled, this`consuming
      ensures early.None? ==> GoesOn(Told(old(trace)), answer)
      ensures early.Some? ==> Ends(early.value)
      ensures early.Some? && !early.value.Returned? ==> early.value.Escaped? && answer == Ok(NotACompletion)
    {
      Emit(Cleaned(cleaning, cleaned));
      var r: Call;
      if cleaned.CleanFault? {
        r := StrictLadder(cleaned.fault);
      } else if cleaned.CleanForced? {
        r := Complete(API, Plain(CANCELLED, FORCE_STOP_REQUESTED));
      } else if cleaned.CleanTimedOut? {
        r := Complete(API, Plain(TIMEOUT, Why.TOTAL_TIMEOUT));
      } else if cleaned.CleanBad? {
        r := Complete(API, Plain(EXECUTION_ERROR, CLEANUP_ERROR));
      } else if cleaning.CancelCleaning? {
        r := Complete(API, Sent(CANCELLED, ForceWhy(cleaning.demand), cleaning.retries, false));
      } else {
        early := Submit(ReportSent(cleaning.report, cleaning.retries, true), answer);
        return;
      }
      early := Some(r);
    }

    /** `execution_complete` of the case loop; None when the run is still running. */
    method Submit(sent: Sent, answer: Reply<Completed>) returns (early: Option<Call>)
      requires ApiRules(rule, fits) && forall a :: May(Reporting(sent, a))
      requires Open()
      modifies this`trace, this`settled, this`consuming
      ensures early.None? ==> GoesOn(Told(old(trace)), answer)
      ensures early.Some? && early.value.Returned? ==> Finished(early.value)
      ensures early.Some? && !early.value.Returned? ==> Open() && early.value.Escaped? && answer == Ok(NotACompletion)
    {
      Emit(Reporting(sent, answer));
      if NextCase(answer) { return None; }
      var r: Call;
      if answer.Raised? {
        r := LenientLadder(answer.fault);
      } else if answer.value.NotACompletion? {
        r := Escaped;
      } else if Confirms(API, sent, answer.value) {
        r := BasicAck();
      } else {
        r := BasicReject();
      }
      early := Some(r);
    }

    // ------------------------------------------------------------ WEB_RECORDING

    /** Read the recording's control: None when it asks for nothing. */
    method AskRecording(phase: Phase) returns (early: Option<Call>, ghost control: Reply<Control>)
      requires RecordingRules(rule, fits) && !phase.AfterChild? && !phase.AfterReport?
      requires MayAsk(phase)
      requires Open()
      modifies this`trace, this`settled, this`consuming
      ensures early.Some? ==> Finished(early.value)
      ensures early.None? ==> !phase.Race? && Open() && At(Asked(phase, control))
      ensures early.None? ==> control.Ok? && control.value.Flags? && !control.value.cancel && !control.value.stop
    {
      var r: Call;
      var answer: Reply<Control> := Arbitrary();
      control := answer;
      Emit(Asked(phase, answer));
      if answer.Raised? {
        r := StrictLadder(answer.fault);
      } else if answer.value.Malformed? {
        r := BasicReject();
      } else if answer.value.cancel {
        r := Complete(RECORDING, Plain(CANCELLED, CANCEL_REQUESTED));
      } else if answer.value.stop {
        r := Complete(RECORDING, Plain(COMPLETED, NoError));
      } else if phase.Race? {
        r := BasicReject();
      } else {
        return None, control;
      }
      early := Some(r);
    }

    /** `_process_web_recording_delivery` */
    method ProcessRecording(o: Observed) returns (r: Call)
      requires RecordingRules(rule, fits) && At(Slot(true))
      requires Open() && (log.calm ==> CalmEnding(o.recording.ending))
      requires ObservingRecording(o)
      modifies this`trace, this`settled, this`consuming, this`log
      ensures Extends(old(log), log)
      ensures Ends(r) && (!r.Returned? ==> RecordingUnsettled(o, r))
    {
      var early := OpenRecording();
      if early.Some? { return early.value; }
      r := Record(o);
    }

    /** Claim, control, plan, start, control. */
    method OpenRecording() returns (early: Option<Call>)
      requires RecordingRules(rule, fits) && At(Slot(true))
      requires Open()
      modifies this`trace, this`settled, this`consuming
      ensures early.Some? ==> Finished(early.value)
      ensures early.None? ==> Open() && MayRecord()
    {
      early := ClaimRecording();
      if early.Some? { return; }
      ghost var control;
      early, control := AskRecording(Before);
      if early.Some? { return; }
      early := StartRecording();
      if early.Some? { return; }
      early, control := AskRecording(Ready);
    }

    ghost predicate MayRecord()
      reads this`rule, this`fits, this`trace
    {
      (forall i :: fits(Child(i)) ==> May(Child(i))) && forall f :: fits(ChildFault(f)) ==> May(ChildFault(f))
    }

    method ClaimRecording() returns (early: Option<Call>)
      requires RecordingRules(rule, fits) && At(Slot(true))
      requires Open()
      modifies this`trace, this`settled, this`consuming
      ensures early.Some? ==> Finished(early.value)
      ensures early.None? ==> Open() && MayAsk(Before)
    {
      var r: Call;
      var claim: Reply<ClaimView> := Arbitrary();
      Emit(Claim(claim));
      if claim.Raised? {
        r := StrictLadder(claim.fault);
      } else if claim.value.status == CANCELLED {
        r := BasicAck();
      } else if claim.value.idempotent && (claim.value.status == COMPLETED || claim.value.status == FAILED) {
        r := BasicAck();
      } else if claim.value.status == STOP_REQUESTED {
        r := Complete(RECORDING, Plain(COMPLETED, NoError));
      } else {
        return None;
      }
      early := Some(r);
    }

    /** Plan and start.  A conflict on the plan reads control once more before giving up. */
    method StartRecording() returns (early: Option<Call>)
      requires RecordingRules(rule, fits) && MayPlan()
      requires Open()
      modifies this`trace, this`settled, this`consuming
      ensures early.Some? ==> Finished(early.value)
      ensures early.None? ==> Open() && MayAsk(Ready)
    {
      var r: Call;
      var plan: Reply<PlanView> := Arbitrary();
      Emit(Plan(plan));
      if plan == Raised(Protocol) {
        ghost var control;
        early, control := AskRecording(Race);
        return;
      }
      if plan.Raised? { r := StrictLadder(plan.fault); return Some(r); }
      var started: Reply<Word> := Arbitrary();
      Emit(Start(plan.value.typed, started));
      if started.Raised? { r := StrictLadder(started.fault); return Some(r); }
      if started.value == STOP_REQUESTED {
        r := Complete(RECORDING, Plain(COMPLETED, NoError));
        return Some(r);
      }
      early := None;
    }

    /** The headed child.  Outside the first part of the handler an unknown control error
        escapes. */
    method Record(o: Observed) returns (r: Call)
      requires RecordingRules(rule, fits) && ObservingRecording(o) && MayRecord()
      requires Open() && (log.calm ==> CalmEnding(o.recording.ending))
      modifies this`trace, this`settled, this`consuming, this`log
      ensures Extends(old(log), log)
      ensures log == old(log) || exists f :: RecordingOverran(o.lim, o.recording, f) && Slipped(old(log), log, f)
      ensures forall f :: RecordingOverran(o.lim, o.recording, f) ==> Slipped(old(log), log, f)
      ensures Ends(r) && (!r.Returned? ==> RecordingUnsettled(o, r))
    {
      var exit, turn, seen, _, _ := SuperviseRecording(o.lim, o.recording);
      RecordingIsSeen(o, turn, seen, exit, o.recording.ending.terminating.None? && !Slips(seen));
      if exit.StillRunning? { return Unfinished; }
      if exit.ProcessFailed? {
        SettleFirst(exit.settled);
        r := Escaped;
      } else if exit.ControlFailed? {
        if exit.fault.Unknown? { return Escaped; }
        Emit(ChildFault(exit.fault));
        r := StrictLadder(exit.fault);
      } else {
        var iso := IsoOf(exit);
        Emit(Child(iso));
        r := FinishRecording(iso, o.control);
      }
    }

    /** Control once more, and the completion. */
    method FinishRecording(iso: Iso, control: Reply<Control>) returns (r: Call)
      requires RecordingRules(rule, fits) && At(Child(iso))
      requires Open()
      modifies this`trace, this`settled, this`consuming
      ensures Ends(r) && (!r.Returned? <==> Illegible(control)) && !r.Unfinished?
    {
      if control == Raised(Unknown) || control == Ok(Malformed) { return Escaped; }
      Emit(Asked(AfterChild(iso), control));
      if control.Raised? {
        r := StrictLadder(control.fault);
      } else if control.value.cancel {
        r := Complete(RECORDING, Plain(CANCELLED, CANCEL_REQUESTED));
      } else if RecordingVoid(iso) {
        r := BasicReject();
      } else {
        r := Complete(RECORDING, RecordingFinal(iso));
      }
    }

    // ------------------------------------------------------------ WEB_EXPLORATION

    /** Protocol-level faults after the claim become a FAILED completion. */
    method FailExploration(f: Fault) returns (r: Call)
      requires ClosingRules(EXPLORATION, rule) && forall b :: Permits(ExplorationFault(f), false, b) ==> May(b)
      requires Open()
      modifies this`trace, this`settled, this`consuming
      ensures Finished(r)
    {
      if f.Protocol? || f.Runner? || f.Execution? {
        r := Complete(EXPLORATION, Plain(FAILED, PROTOCOL_ERROR));
      } else {
        r := StrictLadder(f);
      }
    }

    /** `_process_web_exploration_delivery` */
    method ProcessExploration() returns (r: Call)
      requires ExplorationRules(rule) && At(Slot(true))
      requires Open()
      modifies this`trace, this`settled, this`consuming
      ensures Finished(r)
    {
      var claim: Reply<ClaimView> := Arbitrary();
      Emit(Claim(claim));
      if claim.Raised? { r := StrictLadder(claim.fault); return; }
      if claim.value.status == COMPLETED || claim.value.status == FAILED || claim.value.status == CANCELLED {
        r := BasicAck();
        return;
      }
      if claim.value.status == STOP_REQUESTED {
        r := Complete(EXPLORATION, Plain(COMPLETED, NoError));
        return;
      }
      var control: Reply<Control> := Arbitrary();
      Emit(Asked(Before, control));
      if control.Raised? {
        r := FailExploration(control.fault);
      } else if control.value.Malformed? {
        r := BasicReject();
      } else if control.value.cancel {
        r := Complete(EXPLORATION, Plain(CANCELLED, CANCEL_REQUESTED));
      } else {
        r := Explore();
      }
    }

    /** Plan, start, explore, complete. */
    method Explore() returns (r: Call)
      requires ExplorationRules(rule) && MayPlan()
      requires Open()
      modifies this`trace, this`settled, this`consuming
      ensures Finished(r)
    {
      var plan: Reply<PlanView> := Arbitrary();
      Emit(Plan(plan));
      if plan.Raised? {
        r := FailExploration(plan.fault);
      } else {
        r := StartExploring(plan.value.typed);
      }
    }

    method StartExploring(typed: bool) returns (r: Call)
      requires ExplorationRules(rule) && forall w :: May(Start(typed, w))
      requires Open()
      modifies this`trace, this`settled, this`consuming
      ensures Finished(r)
    {
      var started: Reply<Word> := Arbitrary();
      Emit(Start(typed, started));
      if started.Raised? {
        r := FailExploration(started.fault);
      } else if started.value != RUNNING || !typed {
        r := Complete(EXPLORATION, Plain(FAILED, PROTOCOL_ERROR));
      } else {
        r := ExploreAndComplete();
      }
    }

    method ExploreAndComplete() returns (r: Call)
      requires ClosingRules(EXPLORATION, rule) && ExplorationWorkRules(rule) && forall w :: May(Explored(w))
      requires Open()
      modifies this`trace, this`settled, this`consuming
      ensures Finished(r)
    {
      var explored: Reply<Word> := Arbitrary();
      Emit(Explored(explored));
      if explored.Ok? {
        r := Complete(EXPLORATION, Plain(explored.value, FromChild));
      } else if explored.fault.Unknown? {
        r := Complete(EXPLORATION, Plain(FAILED, EXECUTOR_ERROR));
      } else {
        r := FailExploration(explored.fault);
      }
    }

    // ------------------------------------------------------------ PERFORMANCE

    /** The spool tells the keys in use apart. */
    ghost predicate Separated() {
      store != null ==> forall a, b :: a in keys && b in keys && store.Path(a) == store.Path(b) ==> a == b
    }

    /** The samples kept for `k` can be read back, and memory agrees with the spool. */
    ghost predicate Holds(k: Key)
      requires k in kept
      reads this`cache, this`kept, store
    {
      && store != null
      && Read(store.files, store.Path(k), k) == Ok(Some(kept[k])) && InRange(kept[k])
      && (k in cache ==> cache[k] == Measured(kept[k]))
    }

    /** Everything kept is there. */
    ghost predicate Spool()
      reads this`cache, this`kept, store
    {
      kept.Keys <= keys && forall k :: k in kept ==> Holds(k)
    }

    /** The samples of other keys are the same. */
    ghost predicate OthersKept(key: Key, before: map<Key, Doc>)
      reads this`kept
    {
      forall k :: k != key ==> (k in kept <==> k in before) && (k in kept ==> kept[k] == before[k])
    }

    ghost function Held(key: Key): Option<Doc> reads this`kept { if key in kept then Some(kept[key]) else None }

    /** Since `before` and `did0` the samples of `key` were at most forgotten. */
    ghost predicate AtMostForgot(key: Key, before: map<Key, Doc>, did0: Did)
      reads this`kept, this`did
    {
      && OthersKept(key, before)
      && ((did == did0 && Held(key) == HeldIn(before, key)) || (did == did0.(forgot := true) && key !in kept))
    }

    /** How a whole delivery for `key` changed what is kept. */
    ghost predicate Accounted(key: Key, before: map<Key, Doc>)
      reads this`kept, this`did
    {
      && OthersKept(key, before)
      && Held(key) == (if did.forgot then None else if did.kept.Some? then did.kept else HeldIn(before, key))
      && (did.loaded ==> key !in before)
      && (did.kept.Some? ==> did.loaded)
    }

    /** After a part of the handler that at most forgets: only an end without requeue forgets. */
    ghost predicate Forgave(key: Key, before: map<Key, Doc>, did0: Did, r: Call)
      reads this`cache, this`kept, this`did, store
    {
      && !r.Escaped?
      && Spool() && AtMostForgot(key, before, did0)
      && (r == Returned(Requeued) && key in before ==> key in kept)
    }

    /** After the whole handler; `cached`: its key was in memory before. */
    ghost predicate Sampled(key: Key, before: map<Key, Doc>, cached: bool, r: Call)
      reads this`cache, this`kept, this`did, store
    {
      && Spool() && Accounted(key, before) && (did.loaded ==> !cached)
      && (r == Returned(Requeued) && key in before ==> key in kept)
    }

    lemma ForgaveIsSampled(key: Key, before: map<Key, Doc>, did0: Did, cached: bool, r: Call)
      requires Forgave(key, before, did0, r) && did0.kept.None? && !did0.forgot
      requires did0.loaded ==> !cached && key !in before
      ensures Sampled(key, before, cached, r)
    {}

    /** `_forget_performance_result`; a failing delete is ignored. */
    method Forget(key: Key)
      requires Spool() && Separated() && key in keys
      modifies this`cache, this`kept, this`did, store
      ensures Spool()
      ensures AtMostForgot(key, old(kept), old(did)) && did.forgot && key !in kept
    {
      kept := kept - {key};
      did := did.(forgot := true);
      cache := cache - {key};
      if store != null {
        var _ := store.Delete(key);
      }
    }

    /** The cache, then the spool; None is the only answer that leads to a load. */
    method Recall(key: Key) returns (r: Reply<Option<Iso>>)
      requires Spool() && key in keys
      modifies this`cache
      ensures Spool()
      ensures r == Ok(None) ==> key !in old(cache) && key !in kept
      ensures r.Ok? && r.value.Some? && key in kept ==> r.value.value == Measured(kept[key])
      ensures key in old(cache) ==> r == Ok(Some(old(cache)[key]))
      ensures key !in old(cache) && store == null ==> r == Ok(None)
      ensures key !in old(cache) && store != null && r.Ok? ==>
                Read(store.files, store.Path(key), key).Ok? &&
                r.value == (match Read(store.files, store.Path(key), key).value {
                              case None => None
                              case Some(d) => Some(Measured(d))
                            })
    {
      if key in cache { return Ok(Some(cache[key])); }
      if store == null { return Ok(None); }
      var loaded, _ := store.Load(key);
      if loaded.Raised? { return Raised(loaded.fault); }
      if loaded.value.None? { return Ok(None); }
      cache := cache[key := Measured(loaded.value.value)];
      r := Ok(Some(cache[key]));
    }

    /** Remember a finished load: in memory, then in the spool. */
    method Keep(key: Key, iso: Iso) returns (saved: bool)
      requires Spool() && Separated() && key in keys && key !in kept && did.kept.None?
      modifies this`cache, this`kept, this`did, store
      ensures Spool()
      ensures OthersKept(key, old(kept)) && did == old(did).(kept := Held(key))
      ensures saved || iso.Measured? || iso == Ended(BARE_RESULT)
      ensures !iso.Measured? || store == null ==> (saved <==> store == null || iso != Ended(BARE_RESULT))
      ensures key in kept ==> iso == Measured(kept[key])
      ensures saved && iso.Measured? && InRange(iso.doc) && store != null ==> key in kept
      ensures iso.Measured? || iso == Ended(BARE_RESULT) ==> cache == old(cache)[key := iso]
      ensures !iso.Measured? && iso != Ended(BARE_RESULT) ==> cache == old(cache)
    {
      if !iso.Measured? && iso != Ended(BARE_RESULT) { return true; }
      cache := cache[key := iso];
      if store == null { return true; }
      if !iso.Measured? { return false; }
      var ok, _ := store.Save(key, iso.doc);
      saved := ok;
      if saved && InRange(iso.doc) {
        kept := kept[key := iso.doc];
        did := did.(kept := Some(iso.doc));
      }
    }

    /** The except clauses of the performance handler. */
    method PerformanceLadder(key: Key, f: Fault) returns (r: Call)
      requires May(Settle(Lenient(f))) && Spool() && Separated() && key in keys
      requires Open()
      modifies this`trace, this`settled, this`consuming, this`cache, this`kept, this`did, store
      ensures r.Returned? ==> Finished(r) && r == Returned(Lenient(f))
      ensures !r.Returned? ==> r.Unfinished? && Open()
      ensures Forgave(key, old(kept), old(did), r)
      ensures did.forgot == (old(did).forgot || f.Auth? || f.Protocol? || f.Runner?)
    {
      if f.Auth? || f.Protocol? || f.Runner? { Forget(key); }
      var dies: bool := Arbitrary();
      if dies { return Unfinished; }
      r := LenientLadder(f);
    }

    /** `_complete_performance_outcome` */
    method CompletePerformance(key: Key, iso: Iso) returns (r: Call)
      requires ClosingRules(PERFORMANCE, rule) && Spool() && Separated() && key in keys
      requires MayComplete(PerformanceFinal(iso))
      requires key in kept ==> iso == Measured(kept[key])
      requires Open()
      modifies this`trace, this`settled, this`consuming, this`cache, this`kept, this`did, store
      ensures Ends(r)
      ensures Forgave(key, old(kept), old(did), r)
      ensures r.Returned? && PerformanceFinal(iso).Samples? ==>
                did.forgot == (old(did).forgot || r != Returned(Requeued))
      ensures r.Returned? && !PerformanceFinal(iso).Samples? ==>
                did.forgot == (old(did).forgot || PerformanceFinal(iso).outcome == EXECUTION_ERROR)
    {
      var dies: bool := Arbitrary();
      if dies { return Unfinished; }
      var answer: Reply<Completed> := Arbitrary();
      var sent := PerformanceFinal(iso);
      ForgottenIff(sent, answer);
      r := ForgetAndConclude(key, sent, answer);
    }

    /** What is sent may end the samples of its key, before the delivery is settled. */
    method ForgetAndConclude(key: Key, sent: Sent, answer: Reply<Completed>) returns (r: Call)
      requires ClosingRules(PERFORMANCE, rule) && May(Completion(sent, answer))
      requires Spool() && Separated() && key in keys
      requires Open()
      modifies this`trace, this`settled, this`consuming, this`cache, this`kept, this`did, store
      ensures if r.Returned? then Finished(r) && r == Returned(AnsweredAs(PERFORMANCE, sent, answer))
              else r.Unfinished? && Open()
      ensures Spool() && AtMostForgot(key, old(kept), old(did))
      ensures did.forgot == (old(did).forgot || Forgets(sent, answer))
      ensures !Forgets(sent, answer) ==> did == old(did) && kept == old(kept)
    {
      if Forgets(sent, answer) { Forget(key); }
      var dies: bool := Arbitrary();
      if dies { return Unfinished; }
      r := Conclude(PERFORMANCE, sent, answer);
    }

    /** Does this answer end the samples of its key? */
    predicate Forgets(sent: Sent, answer: Reply<Completed>) {
      if sent.Samples? then answer != Raised(Transport) && answer != Raised(Unknown) && answer != Ok(NotACompletion)
      else sent.outcome == EXECUTION_ERROR
    }

    /** Samples that were sent are forgotten exactly when the delivery does not come back. */
    lemma ForgottenIff(sent: Sent, answer: Reply<Completed>)
      ensures sent.Samples? ==> (Forgets(sent, answer) <==> AnsweredAs(PERFORMANCE, sent, answer) != Requeued)
    {}

    /** `_process_performance_delivery` */
    method ProcessPerformance(key: Key, o: Observed) returns (r: Call)
      requires PerformanceRules(rule, fits) && At(Slot(true)) && Spool() && Separated() && key in keys
      requires Open() && (log.calm ==> CalmEnding(o.child.ending))
      requires Observing(o)
      requires ObservingHeld(Held(key))
      modifies this`trace, this`settled, this`consuming, this`log, this`cache, this`kept, this`did, store
      ensures Extends(old(log), log)
      ensures Ends(r) && !r.Escaped?
      ensures Sampled(key, old(kept), key in old(cache), r)
    {
      did := Did(false, None, false);
      var step := OpenPerformance();
      if step.Go? {
        r := RecallOrLoad(key, o);
      } else {
        r := EndPerformance(key, step);
        ForgaveIsSampled(key, old(kept), Did(false, None, false), key in old(cache), r);
      }
    }

    /** The handler ends before the samples are looked for. */
    method EndPerformance(key: Key, step: Step) returns (r: Call)
      requires ClosingRules(PERFORMANCE, rule) && Spool() && Separated() && key in keys && !step.Go?
      requires step.Quit? ==> Ends(step.call) && !step.call.Escaped?
      requires !step.Quit? ==> Open()
      requires step.Cancelled? ==> May(Settle(Acked))
      requires step.Threw? ==> MayFault(step.fault, step.planKnown)
      modifies this`trace, this`settled, this`consuming, this`cache, this`kept, this`did, store
      ensures Ends(r) && Forgave(key, old(kept), old(did), r)
    {
      match step {
        case Quit(call) => r := call;
        case Cancelled => r := ForgetCancelled(key);
        case Threw(f, planKnown) => r := HandleFault(key, f, planKnown);
        case Go => assert false;
      }
    }

    /** The run was cancelled before it was claimed. */
    method ForgetCancelled(key: Key) returns (r: Call)
      requires May(Settle(Acked)) && Spool() && Separated() && key in keys
      requires Open()
      modifies this`trace, this`settled, this`cache, this`kept, this`did, store
      ensures r.Returned? ==> Finished(r) && r == Returned(Acked)
      ensures !r.Returned? ==> r.Unfinished? && Open()
      ensures Forgave(key, old(kept), old(did), r)
      ensures did.forgot
    {
      Forget(key);
      var dies: bool := Arbitrary();
      if dies { return Unfinished; }
      r := BasicAck();
    }

    /** Claim, plan, plan of the target, start, control: everything before the samples. */
    method OpenPerformance() returns (step: Step)
      requires PerformanceOpeningRules(rule, fits) && At(Slot(true))
      requires Open()
      modifies this`trace, this`settled, this`consuming
      ensures step.Quit? ==> Ends(step.call) && !step.call.Escaped?
      ensures !step.Quit? ==> Open()
      ensures step.Cancelled? ==> May(Settle(Acked))
      ensures step.Threw? ==> MayFault(step.fault, step.planKnown)
      ensures step.Go? ==> MayWork()
      ensures !hasExecutor ==> step == Quit(Returned(Rejected))
    {
      if !hasExecutor {
        Emit(Unconfigured);
        var r := BasicReject();
        return Quit(r);
      }
      var claim: Reply<ClaimView> := Arbitrary();
      Emit(Claim(claim));
      var dies: bool := Arbitrary();
      if dies { return Quit(Unfinished); }
      if claim.Raised? { return Threw(claim.fault, false); }
      if claim.value.status == CANCELLED { return Cancelled; }
      step := PlanPerformance();
    }

    /** The plan, and the plan of the target if there is one. */
    method PlanPerformance() returns (step: Step)
      requires PerformanceOpeningRules(rule, fits) && MayPlan()
      requires Open()
      modifies this`trace, this`settled, this`consuming
      ensures step.Quit? ==> Ends(step.call) && !step.call.Escaped?
      ensures !step.Quit? ==> Open()
      ensures !step.Cancelled?
      ensures step.Threw? ==> MayFault(step.fault, step.planKnown)
      ensures step.Go? ==> MayWork()
    {
      var plan: Reply<PlanView> := Arbitrary();
      Emit(Plan(plan));
      var dies: bool := Arbitrary();
      if dies { return Quit(Unfinished); }
      if plan.Raised? { return Threw(plan.fault, false); }
      if plan.value.needsTarget {
        var target: Reply<bool> := Arbitrary();
        Emit(TargetPlan(target));
        dies := Arbitrary();
        if dies { return Quit(Unfinished); }
        if target.Raised? { return Threw(target.fault, true); }
      }
      step := StartPerformance(plan.value.typed);
    }

    method StartPerformance(typed: bool) returns (step: Step)
      requires PerformanceOpeningRules(rule, fits) && forall w :: May(Start(typed, w))
      requires Open()
      modifies this`trace, this`settled, this`consuming
      ensures step.Quit? ==> Ends(step.call) && !step.call.Escaped?
      ensures !step.Quit? ==> Open()
      ensures !step.Cancelled?
      ensures step.Threw? ==> MayFault(step.fault, step.planKnown)
      ensures step.Go? ==> MayWork()
    {
      var started: Reply<Word> := Arbitrary();
      Emit(Start(typed, started));
      var dies: bool := Arbitrary();
      if dies { return Quit(Unfinished); }
      if started.Raised? { return Threw(started.fault, true); }
      if started.value == CANCELLING {
        var r := Complete(PERFORMANCE, Plain(CANCELLED, CANCEL_REQUESTED));
        return Quit(r);
      }
      step := GatePerformance();
    }

    method GatePerformance() returns (step: Step)
      requires GateRules(rule, true) && ClosingRules(PERFORMANCE, rule) && PerformanceWorkRules(rule, fits)
      requires MayAsk(Before)
      requires Open()
      modifies this`trace, this`settled, this`consuming
      ensures step.Quit? ==> Ends(step.call) && !step.call.Escaped?
      ensures !step.Quit? ==> Open() && step.Go? && MayWork()
    {
      var early, cleared := PassGate(PERFORMANCE, true);
      var dies: bool := Arbitrary();
      step := if early.Some? then Quit(early.value) else if dies then Quit(Unfinished) else Go;
    }

    /** Control has let the work through. */
    ghost predicate MayWork()
      reads this`rule, this`fits, this`trace
    {
      && (forall i :: (fits(Child(i)) ==> May(Child(i))) && (fits(Recalled(i)) ==> May(Recalled(i))))
      && (forall f :: (fits(ChildFault(f)) ==> May(ChildFault(f))) && (fits(Crashed(f)) ==> May(Crashed(f))))
      && (fits(StoreFault) ==> May(StoreFault))
    }

    /** The except clauses: a cancelled execution is reported once the plan is known. */
    method HandleFault(key: Key, f: Fault, planKnown: bool) returns (r: Call)
      requires ClosingRules(PERFORMANCE, rule) && Spool() && Separated() && key in keys
      requires MayFault(f, planKnown)
      requires Open()
      modifies this`trace, this`settled, this`consuming, this`cache, this`kept, this`did, store
      ensures Ends(r)
      ensures Forgave(key, old(kept), old(did), r)
    {
      if f == Execution(true) && planKnown {
        r := Complete(PERFORMANCE, Plain(CANCELLED, CANCEL_REQUESTED));
      } else {
        r := PerformanceLadder(key, f);
      }
    }

    /** Kept samples are reported again; only without any is the load applied. */
    method RecallOrLoad(key: Key, o: Observed) returns (r: Call)
      requires ClosingRules(PERFORMANCE, rule) && PerformanceWorkRules(rule, fits) && PerformanceReportRules(rule)
      requires Spool() && Separated() && key in keys && MayWork()
      requires did == Did(false, None, false)
      requires Open() && (log.calm ==> CalmEnding(o.child.ending))
      requires Observing(o)
      requires ObservingHeld(Held(key))
      modifies this`trace, this`settled, this`consuming, this`log, this`cache, this`kept, this`did, store
      ensures Extends(old(log), log)
      ensures Ends(r) && !r.Escaped?
      ensures Sampled(key, old(kept), key in old(cache), r)
    {
      var recalled := Recall(key);
      if recalled == Ok(None) {
        r := LoadAndReport(key, o);
      } else {
        r := ReportAgain(key, recalled);
        ForgaveIsSampled(key, old(kept), Did(false, None, false), key in old(cache), r);
      }
    }

    /** Samples, or something unreadable in their place, were found. */
    method ReportAgain(key: Key, recalled: Reply<Option<Iso>>) returns (r: Call)
      requires ClosingRules(PERFORMANCE, rule) && PerformanceReportRules(rule) && MayWork()
      requires Spool() && Separated() && key in keys && recalled != Ok(None)
      requires recalled.Ok? && key in kept ==> recalled.value.value == Measured(kept[key])
      requires ObservingHeld(Held(key))
      requires Open()
      modifies this`trace, this`settled, this`consuming, this`cache, this`kept, this`did, store
      ensures Ends(r) && Forgave(key, old(kept), old(did), r)
    {
      if recalled.Raised? {
        r := RejectUnreadable(key);
      } else {
        Emit(Recalled(recalled.value.value));
        r := CompletePerformance(key, recalled.value.value);
      }
    }

    /** A spooled result that cannot be read is dropped with its delivery. */
    method RejectUnreadable(key: Key) returns (r: Call)
      requires PerformanceReportRules(rule) && Spool() && Separated() && key in keys && May(StoreFault)
      requires Open()
      modifies this`trace, this`settled, this`consuming, this`cache, this`kept, this`did, store
      ensures r.Returned? ==> Finished(r) && r == Returned(Rejected)
      ensures !r.Returned? ==> Open()
      ensures Forgave(key, old(kept), old(did), r)
      ensures did.forgot
    {
      Emit(StoreFault);
      Forget(key);
      var dies: bool := Arbitrary();
      if dies { return Unfinished; }
      r := BasicReject();
    }

    /** Apply the load, then keep and report what it measured. */
    method LoadAndReport(key: Key, o: Observed) returns (r: Call)
      requires ClosingRules(PERFORMANCE, rule) && PerformanceWorkRules(rule, fits) && PerformanceReportRules(rule)
      requires Spool() && Separated() && key in keys && key !in kept && MayWork()
      requires did == Did(false, None, false)
      requires Open() && (log.calm ==> CalmEnding(o.child.ending))
      requires Observing(o)
      modifies this`trace, this`settled, this`consuming, this`log, this`cache, this`kept, this`did, store
      ensures Extends(old(log), log)
      ensures Ends(r) && !r.Escaped?
      ensures Sampled(key, old(kept), false, r)
    {
      var step, iso;
      step, iso := ApplyLoad(o);
      did := Did(true, None, false);
      r := AfterLoad(key, step, iso);
    }

    /** What a load leads to: samples to keep and report, or nothing. */
    method AfterLoad(key: Key, step: Step, iso: Iso) returns (r: Call)
      requires ClosingRules(PERFORMANCE, rule) && PerformanceReportRules(rule)
      requires Spool() && Separated() && key in keys && key !in kept && did == Did(true, None, false)
      requires step.Go? ==> At(Child(iso))
      requires step.Quit? ==> Ends(step.call) && !step.call.Escaped?
      requires !step.Quit? ==> Open() && !step.Cancelled?
      requires step.Threw? ==> MayFault(step.fault, step.planKnown)
      modifies this`trace, this`settled, this`consuming, this`cache, this`kept, this`did, store
      ensures Ends(r) && !r.Escaped?
      ensures Sampled(key, old(kept), false, r)
    {
      if step.Go? {
        r := KeepAndComplete(key, iso);
      } else {
        r := EndPerformance(key, step);
        ForgaveIsSampled(key, old(kept), Did(true, None, false), false, r);
      }
    }

    /** `_execute_performance_isolated` */
    method ApplyLoad(o: Observed) returns (step: Step, iso: Iso)
      requires PerformanceWorkRules(rule, fits) && PerformanceReportRules(rule) && MayWork()
      requires Open() && (log.calm ==> CalmEnding(o.child.ending))
      requires Observing(o)
      modifies this`trace, this`settled, this`consuming, this`log
      ensures Extends(old(log), log)
      ensures log == old(log) || exists f :: Overran(o.lim, o.child, f) && Slipped(old(log), log, f)
      ensures forall f :: Overran(o.lim, o.child, f) ==> Slipped(old(log), log, f)
      ensures step.Quit? ==> Ends(step.call) && !step.call.Escaped?
      ensures !step.Quit? ==> Open() && !step.Cancelled?
      ensures step.Threw? ==> MayFault(step.fault, step.planKnown)
      ensures step.Go? ==> At(Child(iso)) && ChildSeen(o, iso)
    {
      var exit, turn, seen, _, _ := Supervise(o.lim, o.child);
      WatchIsSeen(o, turn, seen, exit);
      step, iso := AfterLoadWatch(exit);
    }

    /** What the exit of the watch leads to. */
    method AfterLoadWatch(exit: Exit<Iso>) returns (step: Step, iso: Iso)
      requires PerformanceWorkRules(rule, fits) && PerformanceReportRules(rule) && MayWork()
      requires Open() && (log.calm && exit.ProcessFailed? ==> exit.settled.None?)
      requires Tellable(exit)
      modifies this`trace, this`settled, this`consuming, this`log
      ensures Extends(old(log), log) && !step.Cancelled?
      ensures if exit.ProcessFailed? && exit.settled.Some? then Slipped(old(log), log, exit.settled.value)
              else log == old(log)
      ensures step.Quit? ==> Ends(step.call) && !step.call.Escaped?
      ensures !step.Quit? ==> Open()
      ensures step.Threw? ==> MayFault(step.fault, step.planKnown)
      ensures step.Go? ==> At(Child(iso)) && StandsFor(exit, iso)
    {
      iso := Ended(BROKEN);
      if exit.StillRunning? {
        step := Quit(Unfinished);
      } else if exit.ProcessFailed? {
        SettleFirst(exit.settled);
        Emit(Crashed(exit.raised));
        step := Threw(exit.raised, true);
      } else if exit.ControlFailed? {
        Emit(ChildFault(exit.fault));
        var r := StrictLadder(exit.fault);
        step := Quit(r);
      } else {
        iso, step := IsoOf(exit), Go;
        Emit(Child(iso));
      }
    }

    /** A finished load: remember it, or requeue the delivery if that fails. */
    method KeepAndComplete(key: Key, iso: Iso) returns (r: Call)
      requires ClosingRules(PERFORMANCE, rule) && PerformanceReportRules(rule)
      requires Spool() && Separated() && key in keys && key !in kept && did == Did(true, None, false)
      requires forall v :: v || iso.Measured? || iso == Ended(BARE_RESULT) ==> May(Saved(iso, v))
      requires Open()
      modifies this`trace, this`settled, this`consuming, this`cache, this`kept, this`did, store
      ensures Ends(r) && !r.Escaped?
      ensures Sampled(key, old(kept), false, r)
    {
      var saved := Keep(key, iso);
      ghost var now, does := kept, did;
      r := ReportSaved(key, iso, saved);
      KeptThenForgave(key, old(kept), now, does, r);
    }

    method ReportSaved(key: Key, iso: Iso, saved: bool) returns (r: Call)
      requires ClosingRules(PERFORMANCE, rule) && PerformanceReportRules(rule) && May(Saved(iso, saved))
      requires Spool() && Separated() && key in keys && (key in kept ==> iso == Measured(kept[key]))
      requires Open()
      modifies this`trace, this`settled, this`consuming, this`cache, this`kept, this`did, store
      ensures Ends(r) && Forgave(key, old(kept), old(did), r)
    {
      Emit(Saved(iso, saved));
      if saved {
        assert MayComplete(PerformanceFinal(iso));
        r := CompletePerformance(key, iso);
      } else {
        r := BasicNack();
      }
    }

    lemma KeptThenForgave(key: Key, before: map<Key, Doc>, now: map<Key, Doc>, does: Did, r: Call)
      requires Forgave(key, now, does, r) && key !in before
      requires does.loaded && !does.forgot && does.kept == HeldIn(now, key)
      requires forall k :: k != key ==> (k in now <==> k in before) && (k in now ==> now[k] == before[k])
      ensures Sampled(key, before, false, r)
    {}

    // ------------------------------------------------------------ dispatch

    /** How the handlers of all kinds end. */
    ghost predicate Handled(api: bool, o: Observed, r: Call)
      reads this`rule, this`trace, this`settled, this`consuming, this`log
    {
      && (Ends(r) || (api && Dropped(r)))
      && (Mapped(o) ==> Ends(r))
    }

    /** An API case comes in and there is no executor for it. */
    predicate Unequipped(e: Envelope) { e.apiCase && !hasExecutor }

    /** A call that did not settle has a reason. */
    ghost predicate Explained(e: Envelope, o: Observed, r: Call) {
      !r.Returned? ==> e.valid && ((r.Escaped? && Unequipped(e)) || Unsettled(e.kind, o, r))
    }

    /** `process_execution_delivery`: the envelope, the slot, the handler of its kind.
        For every envelope and everything the backend, the children, their handles, the clock
        and the spool may do: a call that returns has settled the delivery as its outcome says,
        after a trace of the protocol, and before that once for each settlement in `log.slips`,
        that is for each watch that settled and then threw; so it has settled exactly once
        exactly when there was none.  The only exception is a deferred cleanup with a resource
        that is not a mapping, which returns without a settlement of its own. */
    method ProcessExecutionDelivery(e: Envelope, o: Observed) returns (r: Call)
      requires Spool() && Separated() && e.key in keys
      requires limited ==> e.slot in available
      modifies this`rule, this`fits, this`trace, this`settled, this`consuming, this`available, this`log
      modifies this`cache, this`kept, this`did, store
      ensures Ruled(e.kind, o, HeldIn(old(kept), e.key))
      ensures log.start == old(settled) && log.startOn == old(consuming) && log.calm == Calm(o) && Based(log)
      ensures Handled(e.valid && e.kind == API, o, r)
      ensures Explained(e, o, r)
      ensures r.Returned? && Ends(r) ==> (settled == old(settled) + [SettlementOf(r.outcome)] <==> log.slips == [])
      ensures !r.Unfinished? ==> available == old(available)
      ensures Sampled(e.key, old(kept), e.key in old(cache), r) && (did.loaded ==> e.valid && e.kind == PERFORMANCE)
    {
      r := Serve(e, o);
      if r.Returned? { OnceIff(log.start, log.slips, SettlementOf(r.outcome)); }
    }

    /** How a delivery that came in with these settlements and samples ends. */
    ghost predicate Served(
        e: Envelope, o: Observed, start: seq<Settlement>, startOn: bool, before: map<Key, Doc>, cached: bool, r: Call)
      reads this`rule, this`fits, this`trace, this`settled, this`consuming, this`log
      reads this`cache, this`kept, this`did, store
    {
      && Ruled(e.kind, o, HeldIn(before, e.key))
      && log.start == start && log.startOn == startOn && log.calm == Calm(o) && Based(log)
      && Handled(e.valid && e.kind == API, o, r) && Explained(e, o, r)
      && Sampled(e.key, before, cached, r) && (did.loaded ==> e.valid && e.kind == PERFORMANCE)
    }

    method Serve(e: Envelope, o: Observed) returns (r: Call)
      requires Spool() && Separated() && e.key in keys
      requires limited ==> e.slot in available
      modifies this`rule, this`fits, this`trace, this`settled, this`consuming, this`available, this`log
      modifies this`cache, this`kept, this`did, store
      ensures Served(e, o, old(settled), old(consuming), old(kept), e.key in old(cache), r)
      ensures !r.Unfinished? ==> available == old(available)
    {
      r := Receive(e, o);
      if !r.Unfinished? { return; }
      r := HandleAndRelease(e, o, old(available));
    }

    lemma RefusalIsServed(e: Envelope, o: Observed, r: Call)
      requires Spool() && did == Did(false, None, false)
      requires Ruled(e.kind, o, Held(e.key)) && log.calm == Calm(o) && Based(log) && Ends(r) && Explained(e, o, r)
      ensures Served(e, o, log.start, log.startOn, kept, e.key in cache, r)
    {}

    /** The handler of the delivery's kind; its slot is released however the handler ends. */
    method HandleAndRelease(e: Envelope, o: Observed, ghost free: map<SlotType, nat>) returns (r: Call)
      requires Ruled(e.kind, o, Held(e.key)) && At(Slot(true)) && e.valid
      requires Spool() && Separated() && e.key in keys && did == Did(false, None, false)
      requires available == Taken(free, e.slot) && (limited ==> e.slot in free && free[e.slot] > 0)
      requires Open() && log.calm == Calm(o) && Based(log)
      modifies this`trace, this`settled, this`consuming, this`log, this`available
      modifies this`cache, this`kept, this`did, store
      ensures Served(e, o, old(log).start, old(log).startOn, old(kept), e.key in old(cache), r)
      ensures available == if r.Unfinished? then old(available) else free
    {
      r := Handle(e, o);
      if !r.Unfinished? { Release(e.slot, free); }
    }

    /** Give the slot back. */
    method Release(slot: SlotType, ghost free: map<SlotType, nat>)
      requires available == Taken(free, slot) && (limited ==> slot in free && free[slot] > 0)
      modifies this`available
      ensures available == free
    {
      if limited { available := available[slot := available[slot] + 1]; }
    }

    /** The free slots once one is taken; without limits nothing is counted. */
    function Taken(free: map<SlotType, nat>, slot: SlotType): map<SlotType, nat> {
      if limited && slot in free && free[slot] > 0 then free[slot := free[slot] - 1] else free
    }

    /** A new delivery, up to its slot. */
    method Receive(e: Envelope, ghost o: Observed) returns (r: Call)
      requires Spool() && (limited ==> e.slot in available)
      modifies this`rule, this`fits, this`trace, this`did, this`settled, this`available, this`log
      ensures Ruled(e.kind, o, Held(e.key)) && did == Did(false, None, false)
      ensures log.start == old(settled) && log.startOn == old(consuming) && log.calm == Calm(o) && Based(log)
      ensures r.Unfinished? ==> Open() && e.valid && At(Slot(true)) && (limited ==> old(available)[e.slot] > 0)
      ensures !r.Unfinished? ==> Served(e, o, old(settled), old(consuming), kept, e.key in cache, r)
      ensures available == if r.Unfinished? then Taken(old(available), e.slot) else old(available)
    {
      BeginDelivery(e.kind, o, Held(e.key));
      r := Admit(e, o, Held(e.key));
      if !r.Unfinished? { RefusalIsServed(e, o, r); }
    }

    ghost method BeginDelivery(k: Kind, o: Observed, held: Option<Doc>)
      modifies this`rule, this`fits, this`trace, this`did, this`log
      ensures Ruled(k, o, held) && trace == [] && did == Did(false, None, false)
      ensures log.start == settled && log.startOn == consuming && log.calm == Calm(o) && Open() && Based(log)
    {
      Begin(k, o, held);
      BeginLog(Calm(o));
    }

    /** The events of the delivery follow the protocol of its kind and say what was observed. */
    ghost predicate Ruled(k: Kind, o: Observed, held: Option<Doc>) reads this`rule, this`fits {
      rule == RuleFor(k, o, held) && fits == FitsOf(k, o, held)
    }

    ghost method Begin(k: Kind, o: Observed, held: Option<Doc>)
      modifies this`rule, this`fits, this`trace, this`did
      ensures Ruled(k, o, held) && trace == [] && did == Did(false, None, false)
    {
      did := Did(false, None, false);
      trace := [];
      rule, fits := RuleFor(k, o, held), FitsOf(k, o, held);
    }

    lemma Enters(k: Kind, o: Observed, held: Option<Doc>)
      requires Ruled(k, o, held)
      ensures EntryRules(rule)
    {
      RuleAllows(k, o, held);
      EntryProtocol(rule, k, fits);
    }

    lemma Observes(k: Kind, o: Observed, held: Option<Doc>)
      requires Ruled(k, o, held)
      ensures k != RECORDING ==> Observing(o)
      ensures k == RECORDING ==> ObservingRecording(o)
      ensures ObservingHeld(held)
    {}

    lemma ObservesCases(k: Kind, o: Observed, held: Option<Doc>)
      requires Ruled(k, o, held)
      ensures ObservingCases(o)
    {}

    ghost method BeginLog(calmly: bool)
      modifies this`log
      ensures log.start == settled && log.startOn == consuming && log.calm == calmly && Open() && Based(log)
    {
      log := Log(settled, consuming, [], settled, consuming, calmly);
    }

    /** The envelope and the slot; Unfinished once a slot is taken. */
    method Admit(e: Envelope, ghost o: Observed, ghost held: Option<Doc>) returns (r: Call)
      requires Ruled(e.kind, o, held) && trace == []
      requires limited ==> e.slot in available
      requires Open()
      modifies this`trace, this`settled, this`available
      ensures Ends(r)
      ensures r.Unfinished? ==> e.valid && At(Slot(true)) && (limited ==> old(available)[e.slot] > 0)
      ensures available == if r.Unfinished? then Taken(old(available), e.slot) else old(available)
      ensures r == Returned(Rejected) <==> !e.valid
      ensures r.Escaped? <==> e.valid && Unequipped(e)
      ensures r == Returned(Requeued) <==>
                e.valid && !(e.apiCase && !hasExecutor) && limited && old(available)[e.slot] == 0
    {
      Enters(e.kind, o, held);
      Emit(Event.Envelope(e.valid));
      if !e.valid {
        r := BasicReject();
      } else if e.apiCase && !hasExecutor {
        r := Escaped;
      } else {
        r := TakeSlot(e.slot);
      }
    }

    method TakeSlot(slot: SlotType) returns (r: Call)
      requires EntryRules(rule) && At(Event.Envelope(true)) && (limited ==> slot in available)
      requires Open()
      modifies this`trace, this`settled, this`available
      ensures Ends(r) && !r.Escaped?
      ensures r.Unfinished? ==> At(Slot(true)) && (limited ==> old(available)[slot] > 0)
      ensures available == if r.Unfinished? then Taken(old(available), slot) else old(available)
      ensures r == Returned(Requeued) <==> limited && old(available)[slot] == 0
      ensures r.Returned? ==> r == Returned(Requeued)
    {
      if limited && available[slot] == 0 {
        Emit(Slot(false));
        r := BasicNack();
      } else {
        Emit(Slot(true));
        available := Taken(available, slot);
        r := Unfinished;
      }
    }

    /** The handler of the delivery's kind, with a slot taken. */
    method Handle(e: Envelope, o: Observed) returns (r: Call)
      requires Ruled(e.kind, o, Held(e.key)) && At(Slot(true)) && e.valid
      requires Spool() && Separated() && e.key in keys && did == Did(false, None, false)
      requires Open() && log.calm == Calm(o) && Based(log)
      modifies this`trace, this`settled, this`consuming, this`log, this`cache, this`kept, this`did, store
      ensures Served(e, o, old(log).start, old(log).startOn, old(kept), e.key in old(cache), r)
    {
      if e.kind == PERFORMANCE {
        r := HandlePerformance(e.key, o);
      } else {
        r := Dispatch(e.kind, o, Held(e.key));
      }
    }

    method HandlePerformance(key: Key, o: Observed) returns (r: Call)
      requires Ruled(PERFORMANCE, o, Held(key)) && At(Slot(true))
      requires Spool() && Separated() && key in keys
      requires Open() && (log.calm ==> Calm(o))
      modifies this`trace, this`settled, this`consuming, this`log, this`cache, this`kept, this`did, store
      ensures Extends(old(log), log) && Ends(r) && !r.Escaped?
      ensures Sampled(key, old(kept), key in old(cache), r)
    {
      RuleAllows(PERFORMANCE, o, Held(key));
      PerformanceProtocol(rule, fits);
      Observes(PERFORMANCE, o, Held(key));
      r := ProcessPerformance(key, o);
    }

    /** The handlers that leave performance samples alone. */
    method Dispatch(k: Kind, o: Observed, ghost held: Option<Doc>) returns (r: Call)
      requires Ruled(k, o, held) && At(Slot(true)) && k != PERFORMANCE
      requires Open() && (log.calm ==> Calm(o))
      modifies this`trace, this`settled, this`consuming, this`log
      ensures Extends(old(log), log)
      ensures Handled(k == API, o, r) && (!r.Returned? ==> Unsettled(k, o, r))
    {
      RuleAllows(k, o, held);
      if k == API {
        ApiProtocol(rule, fits);
        ObservesCases(k, o, held);
        r := ProcessApi(o);
      } else if k == EXPLORATION {
        ExplorationProtocol(rule, fits);
        r := ProcessExploration();
      } else {
        r := DispatchChild(k, o, held);
      }
    }

    /** The handlers with one child. */
    method DispatchChild(k: Kind, o: Observed, ghost held: Option<Doc>) returns (r: Call)
      requires Ruled(k, o, held) && Allows(rule, k, fits) && At(Slot(true))
      requires k == SCENARIO || k == WEB || k == RECORDING
      requires Open() && (log.calm ==> Calm(o))
      modifies this`trace, this`settled, this`consuming, this`log
      ensures Extends(old(log), log)
      ensures Ends(r) && (!r.Returned? ==> Unsettled(k, o, r))
    {
      Observes(k, o, held);
      if k == SCENARIO {
        ScenarioProtocol(rule, fits);
        r := ProcessScenario(o);
      } else if k == WEB {
        WebProtocol(rule, fits);
        r := ProcessWeb(o);
      } else {
        RecordingProtocol(rule, fits);
        r := ProcessRecording(o);
      }
    }
  }
}
