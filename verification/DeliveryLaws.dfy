/** What every delivery that follows the protocol guarantees, whatever the backend, the
    children and the clock did. */
module DeliveryLaws {
  import opened Wire
  import opened Delivery

  /** A claim that says the work is already over. */
  predicate ClaimedOver(k: Kind, v: ClaimView) {
    match k
    case RECORDING => v.status == CANCELLED || (v.idempotent && (v.status == COMPLETED || v.status == FAILED))
    case EXPLORATION => v.status == COMPLETED || v.status == FAILED || v.status == CANCELLED
    case _ => v.status == CANCELLED
  }

  /** The answers to a completion that confirm it: a consistent terminal state of the kind. */
  predicate Agrees(k: Kind, sent: Sent, c: Completed) {
    && c.Completed?
    && var answer := (c.outcome, c.runStatus, c.caseStatus);
       if sent.Samples? then c.runStatus in {SUCCESS, FAILED}
       else if k == API || k == PERFORMANCE then
         || answer in {(TIMEOUT, TIMEOUT, TIMEOUT), (CANCELLED, CANCELLED, CANCELLED)}
         || (c.outcome in {HTTP_RESPONSE, EXECUTION_ERROR} && c.runStatus in {SUCCESS, FAILED} &&
             c.caseStatus in {SUCCESS, FAILED, REVIEW})
       else if k == SCENARIO || k == WEB then
         || answer in {(SUCCESS, SUCCESS, SUCCESS), (TIMEOUT, TIMEOUT, TIMEOUT), (CANCELLED, CANCELLED, CANCELLED)}
         || (c.outcome == FAILED && c.runStatus in {FAILED, REVIEW} && c.caseStatus in {FAILED, REVIEW})
       else c.runStatus == sent.outcome && (k == RECORDING ==> c.outcome == sent.outcome)
  }

  lemma ConfirmationDecision(k: Kind, sent: Sent, c: Completed)
    ensures Confirms(k, sent, c) <==> Agrees(k, sent, c)
  {
    match k {
      case API =>
      case SCENARIO =>
      case WEB =>
      case PERFORMANCE =>
      case RECORDING =>
      case EXPLORATION =>
    }
  }

  /** An event after which an acknowledgement is due. */
  predicate Earns(k: Kind, e: Event) {
    match e
    case Claim(Ok(v)) => ClaimedOver(k, v)
    case Completion(sent, Ok(c)) => Agrees(k, sent, c)
    case Reporting(sent, Ok(c)) => k == API && Agrees(k, sent, c)
    case _ => false
  }

  lemma AckDecision(k: Kind, e: Event)
    ensures After(k, e) == Settles(Acked) <==> Earns(k, e)
  {
    if (e.Completion? || e.Reporting?) && e.answer.Ok? { ConfirmationDecision(k, e.sent, e.answer.value); }
    match k {
      case API =>
      case SCENARIO =>
      case WEB =>
      case PERFORMANCE =>
      case RECORDING =>
      case EXPLORATION =>
    }
  }

  /** A delivery is acknowledged only right after a claim that found the work over, or a
      completion whose outcome and statuses agree. */
  lemma AckIsEarned(k: Kind, t: seq<Event>)
    requires Conforms(k, t) && Last(t) == Settle(Acked)
    ensures |t| >= 2 && Earns(k, t[|t| - 2])
  {
    assert StepOk(RuleOf(k), t, |t| - 1);
    AckDecision(k, t[|t| - 2]);
  }

  // ---------------------------------------------------------------- faults

  /** The fault an event carries. */
  function FaultOf(e: Event): Option<Fault> {
    match e
    case Claim(Raised(f)) => Some(f)
    case Plan(Raised(f)) => Some(f)
    case TargetPlan(Raised(f)) => Some(f)
    case Start(_, Raised(f)) => Some(f)
    case Asked(_, Raised(f)) => Some(f)
    case Asked(_, Ok(Malformed)) => Some(Protocol)
    case ChildFault(f) => Some(f)
    case Crashed(f) => Some(f)
    case Explored(Raised(f)) => Some(f)
    case Attempts(SettledBy(f)) => Some(f)
    case Evidence(_, _, Raised(f)) => Some(f)
    case Evaluated(_, Raised(f)) => Some(f)
    case ReportEvaluated(_, _, Raised(f)) => Some(f)
    case Cleaned(_, CleanFault(f)) => Some(f)
    case Reporting(_, Raised(f)) => Some(f)
    case Completion(_, Raised(f)) => Some(f)
    case _ => None
  }

  /** An authentication failure stops the consumer, wherever it happens, and nothing else does.
      (The cleanup child of a scenario has no fault of its own: whatever is wrong with it rejects.) */
  lemma StopDecision(k: Kind, e: Event)
    ensures After(k, e) == Settles(StoppedAuth) ==> FaultOf(e) == Some(Auth)
    ensures FaultOf(e) == Some(Auth) && After(k, e) != Over && !(k == SCENARIO && e.Cleaned?) ==>
            After(k, e) == Settles(StoppedAuth)
  {
    match k {
      case API =>
      case SCENARIO =>
      case WEB =>
      case PERFORMANCE =>
      case RECORDING =>
      case EXPLORATION =>
    }
  }

  lemma StopIsEarned(k: Kind, t: seq<Event>)
    requires Conforms(k, t) && Last(t) == Settle(StoppedAuth)
    ensures |t| >= 2 && FaultOf(t[|t| - 2]) == Some(Auth)
  {
    assert StepOk(RuleOf(k), t, |t| - 1);
    StopDecision(k, t[|t| - 2]);
  }

  /** Reasons that may be gone at the next delivery. */
  predicate Transient(e: Event) {
    || FaultOf(e) == Some(Transport) || FaultOf(e) == Some(Unknown)
    || e == Slot(false)
    || (e.Saved? && !e.saved)
    || ((e.Completion? || e.Reporting?) && e.sent.Samples? && e.answer == Ok(NotACompletion))
  }

  lemma RequeueDecision(k: Kind, e: Event)
    ensures After(k, e) == Settles(Requeued) ==> Transient(e)
  {
    match k {
      case API =>
      case SCENARIO =>
      case WEB =>
      case PERFORMANCE =>
      case RECORDING =>
      case EXPLORATION =>
    }
  }

  /** A delivery goes back to its queue only for a transient reason: a malformed message, a
      protocol error or a finished run is never delivered again and again. */
  lemma RequeueIsTransient(k: Kind, t: seq<Event>)
    requires Conforms(k, t) && Last(t) == Settle(Requeued)
    ensures |t| >= 2 && Transient(t[|t| - 2])
  {
    assert StepOk(RuleOf(k), t, |t| - 1);
    RequeueDecision(k, t[|t| - 2]);
  }

  // ---------------------------------------------------------------- order

  /** The stage of an event in a delivery. */
  function Rank(k: Kind, e: Event): nat {
    match e
    case Envelope(_) => 0
    case Slot(_) => 1
    case Unconfigured => 2
    case Claim(_) => 2
    case Asked(Before, _) => if k == RECORDING || k == EXPLORATION then 3 else 7
    case Plan(_) => 4
    case Asked(Race, _) => 5
    case TargetPlan(_) => 5
    case Start(_, _) => 6
    case Asked(Ready, _) => 7
    case Child(_) => 8
    case ChildFault(_) => 8
    case Crashed(_) => 8
    case Recalled(_) => 8
    case StoreFault => 8
    case Attempts(_) => 8
    case Explored(_) => 8
    case Saved(_, _) => 9
    case Asked(_, _) => 9
    case Evidence(_, _, _) => 10
    case Evaluated(_, _) => 11
    case ReportEvaluated(_, _, _) => 11
    case Cleaned(_, _) => 12
    case Reporting(_, _) => 13
    case Completion(_, _) => 13
    case Settle(_) => 14
  }

  lemma ApiStageGoesUp(a: Event, b: Event)
    requires Follows(API, a, b)
    ensures Rank(API, a) < Rank(API, b) || (a.Reporting? && b.Plan?)
  {}

  lemma ScenarioStageGoesUp(a: Event, b: Event)
    requires Follows(SCENARIO, a, b)
    ensures Rank(SCENARIO, a) < Rank(SCENARIO, b)
  {}

  lemma WebStageGoesUp(a: Event, b: Event)
    requires Follows(WEB, a, b)
    ensures Rank(WEB, a) < Rank(WEB, b)
  {}

  lemma PerformanceStageGoesUp(a: Event, b: Event)
    requires Follows(PERFORMANCE, a, b)
    ensures Rank(PERFORMANCE, a) < Rank(PERFORMANCE, b)
  {}

  lemma RecordingStageGoesUp(a: Event, b: Event)
    requires Follows(RECORDING, a, b)
    ensures Rank(RECORDING, a) < Rank(RECORDING, b)
  {}

  lemma ExplorationStageGoesUp(a: Event, b: Event)
    requires Follows(EXPLORATION, a, b)
    ensures Rank(EXPLORATION, a) < Rank(EXPLORATION, b)
  {}

  /** Stages only go up, except that an API run goes on with the plan of its next case. */
  lemma StageGoesUp(k: Kind, a: Event, b: Event)
    requires Follows(k, a, b)
    ensures Rank(k, a) < Rank(k, b) || (k == API && a.Reporting? && b.Plan?)
  {
    match k {
      case API => ApiStageGoesUp(a, b);
      case SCENARIO => ScenarioStageGoesUp(a, b);
      case WEB => WebStageGoesUp(a, b);
      case PERFORMANCE => PerformanceStageGoesUp(a, b);
      case RECORDING => RecordingStageGoesUp(a, b);
      case EXPLORATION => ExplorationStageGoesUp(a, b);
    }
  }

  /** Between two events of a delivery with no report in between, the stage went up: within a
      case no call is made twice and none out of order. */
  lemma {:induction false} StagesAreOrdered(k: Kind, t: seq<Event>, i: nat, j: nat)
    requires Conforms(k, t) && i < j < |t|
    requires forall m :: i <= m < j ==> !t[m].Reporting?
    ensures Rank(k, t[i]) < Rank(k, t[j])
    decreases j
  {
    assert StepOk(RuleOf(k), t, j);
    StageGoesUp(k, t[j - 1], t[j]);
    if i < j - 1 { StagesAreOrdered(k, t, i, j - 1); }
  }

  /** A delivery of any kind but API has at most fifteen events. */
  lemma DeliveriesAreShort(k: Kind, t: seq<Event>)
    requires Conforms(k, t) && k != API
    ensures |t| <= 15
  {
    StageCounts(k, t, |t| - 1);
  }

  lemma {:induction false} StageCounts(k: Kind, t: seq<Event>, i: nat)
    requires Conforms(k, t) && k != API && i < |t|
    ensures i <= Rank(k, t[i]) <= 14
  {
    if i > 0 {
      StageCounts(k, t, i - 1);
      assert StepOk(RuleOf(k), t, i);
      StageGoesUp(k, t[i - 1], t[i]);
    }
  }

  /** Nothing follows a settlement, and only a settlement follows a completion. */
  lemma SettlementIsLast(k: Kind, t: seq<Event>, i: nat)
    requires Conforms(k, t) && i < |t|
    ensures t[i].Settle? ==> i == |t| - 1
    ensures t[i].Completion? ==> i >= |t| - 2
  {
    if i < |t| - 1 {
      assert StepOk(RuleOf(k), t, i + 1);
      EndsAfter(k, t[i], t[i + 1]);
      if i < |t| - 2 {
        assert StepOk(RuleOf(k), t, i + 2);
        EndsAfter(k, t[i + 1], t[i + 2]);
      }
    }
  }

  lemma EndsAfter(k: Kind, a: Event, b: Event)
    requires Follows(k, a, b)
    ensures !a.Settle? && (a.Completion? ==> b.Settle?)
  {
    match k {
      case API =>
      case SCENARIO =>
      case WEB =>
      case PERFORMANCE =>
      case RECORDING =>
      case EXPLORATION =>
    }
  }

  // ---------------------------------------------------------------- what is reported

  /** The child outcome an event of a scenario or web delivery is about. */
  function About(e: Event): Option<Iso> {
    match e
    case Child(iso) => Some(iso)
    case Asked(AfterChild(iso), _) => Some(iso)
    case Evidence(iso, _, _) => Some(iso)
    case Evaluated(iso, _) => Some(iso)
    case Cleaned(ScenarioCleaning(iso, _), _) => Some(iso)
    case _ => None
  }

  lemma AboutIsHandedOn(k: Kind, a: Event, b: Event)
    requires k == WEB || k == SCENARIO
    requires Follows(k, a, b) && About(b).Some? && !b.Child?
    ensures About(a) == About(b)
  {
    match k {
      case SCENARIO =>
      case WEB =>
      case _ =>
    }
  }

  /** Whatever is evaluated, uploaded or cleaned up is the outcome of the one child. */
  lemma {:induction false} AboutTheChild(k: Kind, t: seq<Event>, i: nat)
    requires k == WEB || k == SCENARIO
    requires Conforms(k, t) && i < |t| && About(t[i]).Some?
    ensures exists j :: 0 <= j <= i && t[j] == Child(About(t[i]).value)
  {
    if t[i].Child? {
      assert t[i] == Child(About(t[i]).value);
    } else {
      assert i > 0;
      assert StepOk(RuleOf(k), t, i);
      AboutIsHandedOn(k, t[i - 1], t[i]);
      AboutTheChild(k, t, i - 1);
    }
  }

  /** Why a completion may say SUCCESS. */
  predicate Succeeds(k: Kind, e: Event) {
    About(e).Some? && About(e).value.Result? && About(e).value.payload.outcome == SUCCESS &&
    (About(e).value.payload.ai != NoAi ==>
       || (k == WEB && e.Evaluated? && e.judged.Ok? && e.judged.value.verdict == PASS)
       || (k == SCENARIO && e.Cleaned? && e.cleaning.ScenarioCleaning? && e.cleaning.verdict == PASS &&
          e.cleaned == CleanDone(true)))
  }

  lemma SuccessDecision(k: Kind, e: Event, sent: Sent)
    requires k == WEB || k == SCENARIO
    requires After(k, e) == Completes(sent) && sent.Sent? && sent.outcome == SUCCESS
    ensures Succeeds(k, e)
  {
    match k {
      case SCENARIO =>
      case WEB =>
      case _ =>
    }
  }

  /** A scenario or web run is reported successful only if its child delivered a successful
      result, and every AI assertion it left open was judged PASS (and, for a scenario, the
      deferred cleanup succeeded). */
  lemma SuccessIsTheChilds(k: Kind, t: seq<Event>, i: nat)
    requires k == WEB || k == SCENARIO
    requires Conforms(k, t) && 0 < i < |t| && t[i].Completion? && t[i].sent.Sent? && t[i].sent.outcome == SUCCESS
    ensures Succeeds(k, t[i - 1])
    ensures exists j :: 0 <= j < i && t[j].Child? && t[j].iso.Result? && t[j].iso.payload.outcome == SUCCESS
  {
    assert StepOk(RuleOf(k), t, i);
    CompletionIsDemanded(k, t[i - 1], t[i]);
    SuccessDecision(k, t[i - 1], t[i].sent);
    AboutTheChild(k, t, i - 1);
  }

  lemma CompletionIsDemanded(k: Kind, a: Event, b: Event)
    requires (k == WEB || k == SCENARIO) && Follows(k, a, b) && b.Completion?
    ensures After(k, a) == Completes(b.sent)
  {
    match k {
      case SCENARIO =>
      case WEB =>
      case _ =>
    }
  }
}
