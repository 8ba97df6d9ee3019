/** What the Runner observes of the children of a delivery, and what that makes true of the
    events of its trace: a `Child` event is the outcome of the watch, an `Attempts` event the
    result of the attempts, and so on. */
module Observations {
  import opened Wire
  import opened Supervision
  import opened Retry
  import opened PerformanceStore
  import opened Delivery

  /** How a deferred cleanup goes: in an isolated child, which answers whether its result is
      well formed, directly, or with an exception. */
  datatype CleanWork = CleanIsolated(pollEvery: int, record: ApiRecord<bool>) | CleanInline(ok: bool) | CleanThrows

  /** How the attempts of one API case go, its deferred cleanup, and the answer to its report. */
  datatype Case =
    Case(policy: Policy, deadline: Option<int>, listens: bool, attempts: nat -> Attempt, cleaning: CleanWork,
         answer: Reply<Completed>)

  /** What the Runner observes of the children of a delivery, whichever of them it starts; whether
      the workspace of a web child can be created and the cleanup of a scenario runs without an
      exception; and the control answer after a recording. */
  datatype Observed =
    Observed(lim: Limits, child: Record<Iso>, recording: RecordingRecord<Iso>, cases: seq<Case>,
             workspace: bool, cleans: bool, control: Reply<Control>)

  /** No method of a process handle raises while a child is terminated or closed. */
  ghost predicate Calm(o: Observed) {
    && CalmEnding(o.child.ending) && CalmEnding(o.recording.ending)
    && forall c <- o.cases :: CalmCase(c)
  }

  predicate CalmEnding(e: Ending) { e.terminating.None? && e.closing.None? }

  predicate CalmWork(work: Work) { work.Isolated? ==> CalmEnding(work.record.ending) }

  ghost predicate CalmCase(c: Case) {
    && (forall i :: CalmWork(c.attempts(i).work))
    && (c.cleaning.CleanIsolated? ==> CalmEnding(c.cleaning.record.ending))
  }

  ghost predicate AttemptOverran(c: Case, i: nat, f: Fault) {
    var work := c.attempts(i).work;
    work.Isolated? && ApiOverran(LimitsOf(c.deadline, work.pollEvery), work.record, f)
  }

  ghost predicate CleanupOverran(c: Case, f: Fault) {
    c.cleaning.CleanIsolated? && ApiOverran(LimitsOf(c.deadline, c.cleaning.pollEvery), c.cleaning.record, f)
  }

  // ---------------------------------------------------------------- the child of a run

  /** The outcome a watch that ended like this stands for. */
  predicate StandsFor(seen: Exit<Iso>, iso: Iso) {
    || (seen.Delivered? && iso == seen.result)
    || (seen.TotalTimeout? && iso == Ended(TOTAL_TIMED_OUT))
    || (seen.ForceStopped? && iso == Ended(FORCE_STOPPED))
    || (seen.CancelUnresponsive? && iso == Ended(End.CANCEL_UNRESPONSIVE))
    || (seen.StopUnresponsive? && iso == Ended(STOP_UNHEARD))
    || (seen.Broken? && iso == Ended(BROKEN))
  }

  ghost predicate ChildSeen(o: Observed, iso: Iso) {
    exists turn, seen :: Sees(o.lim, o.child, turn, seen) && StandsFor(seen, iso)
  }

  ghost predicate ChildFaulted(o: Observed, f: Fault) {
    exists turn, seen: Exit<Iso> :: Sees(o.lim, o.child, turn, seen) && seen == ControlFailed(f)
  }

  ghost predicate RecordingSeen(o: Observed, iso: Iso) {
    exists turn, seen :: RecordingSees(o.lim, o.recording, turn, seen) && StandsFor(seen, iso)
  }

  ghost predicate RecordingFaulted(o: Observed, f: Fault) {
    exists turn, seen: Exit<Iso> :: RecordingSees(o.lim, o.recording, turn, seen) && seen == ControlFailed(f)
  }

  /** The turns observed all keep the watch going. */
  ghost predicate ChildRuns(o: Observed) { Sees(o.lim, o.child, |o.child.ticks|, StillRunning) }

  ghost predicate RecordingRuns(o: Observed) {
    RecordingSees(o.lim, o.recording, |o.recording.ticks|, StillRunning)
  }

  /** The watch was left by an exception of the process handle. */
  ghost predicate ChildRaised(o: Observed) {
    exists turn, seen: Exit<Iso> ::
      Sees(o.lim, o.child, turn, seen) &&
      RaisedBy(o.child.ending, |o.child.ticks|, turn, Interrupts(o.child.ticks, turn)).Some?
  }

  ghost predicate RecordingRaised(o: Observed) {
    exists turn, seen: Exit<Iso> ::
      RecordingSees(o.lim, o.recording, turn, seen) &&
      RaisedBy(o.recording.ending, |o.recording.ticks|, turn, Terminated(o.recording.ticks, turn, seen)).Some?
  }

  /** A method of the process handle raised it. */
  predicate Raises(e: Ending, f: Fault) { e.breaking == Some(f) || e.terminating == Some(f) || e.closing == Some(f) }

  /** What the exit of a watch allows the trace to say. */
  ghost predicate ExitSeen(o: Observed, exit: Exit<Iso>) {
    && (forall iso :: StandsFor(exit, iso) ==> ChildSeen(o, iso))
    && (exit.ControlFailed? ==> ChildFaulted(o, exit.fault))
    && (exit.ProcessFailed? ==> Raises(o.child.ending, exit.raised) && ChildRaised(o))
    && (exit.StillRunning? ==> ChildRuns(o))
  }

  lemma WatchIsSeen(o: Observed, turn: nat, seen: Exit<Iso>, exit: Exit<Iso>)
    requires Sees(o.lim, o.child, turn, seen)
    requires exit ==
             Leaves(seen, RaisedBy(o.child.ending, |o.child.ticks|, turn, Interrupts(o.child.ticks, turn)), true)
    ensures ExitSeen(o, exit)
  {}

  ghost predicate RecordingExitSeen(o: Observed, exit: Exit<Iso>) {
    && (forall iso :: StandsFor(exit, iso) ==> RecordingSeen(o, iso))
    && (exit.ControlFailed? ==> RecordingFaulted(o, exit.fault))
    && (exit.ProcessFailed? ==> RecordingRaised(o))
    && (exit.StillRunning? ==> RecordingRuns(o))
  }

  lemma RecordingIsSeen(o: Observed, turn: nat, seen: Exit<Iso>, exit: Exit<Iso>, settles: bool)
    requires RecordingSees(o.lim, o.recording, turn, seen)
    requires var terminated := Terminated(o.recording.ticks, turn, seen);
             exit == Leaves(seen, RaisedBy(o.recording.ending, |o.recording.ticks|, turn, terminated), settles)
    ensures RecordingExitSeen(o, exit)
  {}

  // ---------------------------------------------------------------- the cases of a run

  /** The attempts of the case end with this result. */
  ghost predicate AttemptsEnd(c: Case, r: Retry.Result) {
    exists rans, final, at ::
      && |rans| <= c.policy.maxRetries && AllRepeat(c.policy, c.deadline, c.attempts, rans)
      && EndsWith(c.policy, c.deadline, c.attempts(|rans|), final, |rans|, r, at)
  }

  /** The result a cleanup that ended like this stands for. */
  predicate CleansAs(seen: Exit<bool>, r: CleanResult) {
    || (seen == Delivered(true) && r == CleanDone(true))
    || ((seen == Delivered(false) || seen.Broken?) && r == CleanBad)
    || (seen.TotalTimeout? && r == CleanTimedOut)
    || (seen.ForceStopped? && r == CleanForced)
    || (seen.ControlFailed? && r == CleanFault(seen.fault))
  }

  ghost predicate CleanupEnds(c: Case, r: CleanResult) {
    match c.cleaning
    case CleanThrows => false
    case CleanInline(ok) => r == if ok then CleanDone(true) else CleanBad
    case CleanIsolated(pollEvery, record) =>
      exists turn, seen :: ApiSees(LimitsOf(c.deadline, pollEvery), record, turn, seen) && CleansAs(seen, r)
  }

  /** The case may still go on: its attempts or its cleanup are not over. */
  ghost predicate CaseRuns(c: Case) {
    || AttemptsEnd(c, Retry.Pending)
    || (c.cleaning.CleanIsolated? &&
        var record := c.cleaning.record;
        ApiSees(LimitsOf(c.deadline, c.cleaning.pollEvery), record, |record.ticks|, StillRunning))
  }

  /** The cleanup of the case ends with an exception. */
  ghost predicate CleanupRaised(c: Case) {
    || c.cleaning.CleanThrows?
    || (c.cleaning.CleanIsolated? &&
        HandleRaised(LimitsOf(c.deadline, c.cleaning.pollEvery), c.cleaning.record))
  }

  ghost predicate AttemptsSeen(o: Observed, r: Retry.Result) { exists c :: c in o.cases && AttemptsEnd(c, r) }

  ghost predicate CleanupSeen(o: Observed, r: CleanResult) { exists c :: c in o.cases && CleanupEnds(c, r) }

  // ---------------------------------------------------------------- events

  /** Does the event say what was observed?  `held` are the samples kept when the delivery came
      in.  What the backend answers is whatever the event says. */
  ghost predicate Fits(k: Kind, o: Observed, held: Option<Doc>, e: Event) {
    match e
    case Child(iso) => if k == RECORDING then RecordingSeen(o, iso) else ChildSeen(o, iso)
    case ChildFault(f) => if k == RECORDING then RecordingFaulted(o, f) else ChildFaulted(o, f)
    case Crashed(f) => Raises(o.child.ending, f)
    case Recalled(iso) => held.Some? ==> iso == Measured(held.value)
    case Attempts(r) => AttemptsSeen(o, r)
    case Cleaned(c, r) => c.ScenarioCleaning? || r.NotMappings? || CleanupSeen(o, r)
    case _ => true
  }

  /** The protocol of a kind, over events that say what was observed. */
  ghost function RuleFor(k: Kind, o: Observed, held: Option<Doc>): (Event, Event) -> bool {
    (a, b) => Follows(k, a, b) && Fits(k, o, held, b)
  }

  lemma ObservedStep(k: Kind, o: Observed, held: Option<Doc>, t: seq<Event>, i: nat)
    requires Obeys(RuleFor(k, o, held), t) && 0 < i < |t|
    ensures Follows(k, t[i - 1], t[i]) && Fits(k, o, held, t[i])
  {
    assert StepOk(RuleFor(k, o, held), t, i);
  }

  lemma ObservedConforms(k: Kind, o: Observed, held: Option<Doc>, t: seq<Event>)
    requires Obeys(RuleFor(k, o, held), t)
    ensures Conforms(k, t)
  {
    forall i | 0 < i < |t| ensures StepOk(RuleOf(k), t, i) { ObservedStep(k, o, held, t, i); }
  }

  lemma ObservedFits(k: Kind, o: Observed, held: Option<Doc>, t: seq<Event>, i: nat)
    requires Obeys(RuleFor(k, o, held), t) && i < |t|
    ensures Fits(k, o, held, t[i])
  {
    if i > 0 { ObservedStep(k, o, held, t, i); }
  }

  /** A trace under that rule conforms to the protocol, and every event in it fits. */
  lemma ObservedTrace(k: Kind, o: Observed, held: Option<Doc>, t: seq<Event>)
    requires Obeys(RuleFor(k, o, held), t)
    ensures Conforms(k, t)
    ensures forall i :: 0 <= i < |t| ==> Fits(k, o, held, t[i])
  {
    ObservedConforms(k, o, held, t);
    forall i | 0 <= i < |t| ensures Fits(k, o, held, t[i]) { ObservedFits(k, o, held, t, i); }
  }
}
