/** The API attempt loop of the Runner: repeat on chosen failures, back off, and watch the
    deadline, the stop event and the control endpoint while waiting.

    What the surroundings do is given by oracles indexed by attempt and by waiting step.
    Times and delays are integer milliseconds. */
module Retry {
  import opened Wire
  import opened Supervision

  datatype Reason = HTTP_5XX | TARGET_TIMEOUT | TARGET_NETWORK_ERROR

  datatype Policy = Policy(maxRetries: nat, backoffMs: nat, retryOn: set<Reason>)

  /** A cleanup left for later by the pipeline: is the snapshot usable, is the response
      usable, and which of the registered resources are mappings (a resources field that is not
      a list counts as one that is none). */
  datatype Deferred = Deferred(contextOk: bool, responseOk: bool, mappings: seq<bool>)

  /** What one attempt will be reported as. */
  datatype Report = HttpResponse(deferred: Option<Deferred>) | TargetTimedOut | NetworkError | ExecutorError

  /** Why the watch over an attempt ended without an answer. */
  datatype Halt = ForceHalt | TimeoutHalt | ControlHalt(fault: Fault) | NotYet

  /** What the child of an attempt, or the executor itself, answers.  `status` is the HTTP
      status when a response was read. */
  datatype Answer = Answer(report: Report, status: Option<int>, internalRetries: nat)

  /** The work of one attempt: an isolated child under observation, the executor called
      directly, or an exception that reaches the except clauses of the loop. */
  datatype Work =
    | Isolated(pollEvery: int, record: ApiRecord<Answer>)
    | Inline(answer: Answer)
    | Throws(report: Report)

  /** How one attempt ended.  `settled`: the attempt threw after control had settled the delivery
      with this fault, and the loop goes on all the same. */
  datatype Ran =
    | Stopped(halt: Halt)
    | Answered(answer: Answer, threw: bool, settled: Option<Fault>)

  const INTERRUPTED := Answer(ExecutorError, None, 0)

  function LimitsOf(deadline: Option<int>, pollEvery: int): Limits { Limits(deadline, pollEvery, 0) }

  /** The watched child's exit as the result of an attempt. */
  function RanOf(e: Exit<Answer>): Ran
    requires !e.CancelUnresponsive? && !e.StopUnresponsive?
  {
    match e
    case Delivered(answer) => Answered(answer, false, None)
    case TotalTimeout => Stopped(TimeoutHalt)
    case ForceStopped => Stopped(ForceHalt)
    case ControlFailed(f) => Stopped(ControlHalt(f))
    case StillRunning => Stopped(NotYet)
    case Broken => Answered(INTERRUPTED, false, None)
    case ProcessFailed(_, settled) => Answered(INTERRUPTED, true, settled)
  }

  /** Terminating or closing the watched child raised, or the loop broke. */
  ghost predicate HandleRaised<R(!new)>(lim: Limits, rec: ApiRecord<R>) {
    exists turn, seen: Exit<R> ::
      ApiSees(lim, rec, turn, seen) &&
      RaisedBy(rec.ending, |rec.ticks|, turn, ApiInterrupts(rec.ticks, turn)).Some?
  }

  /** What the observations say about the end of an attempt. */
  ghost predicate Yields(deadline: Option<int>, work: Work, ran: Ran) {
    match work
    case Inline(answer) => ran == Answered(answer, false, None)
    case Throws(report) => ran == Answered(Answer(report, None, 0), true, None)
    case Isolated(_, record) =>
      (forall f :: ApiOverran(LimitsOf(deadline, work.pollEvery), record, f) ==>
                     ran == Answered(INTERRUPTED, true, Some(f))) &&
      (ran.Answered? && ran.threw <==> HandleRaised(LimitsOf(deadline, work.pollEvery), record)) &&
      match ran
      case Answered(answer, threw, settled) =>
        if threw then
          && answer == INTERRUPTED
          && (settled.Some? ==> ApiOverran(LimitsOf(deadline, work.pollEvery), record, settled.value))
        else
          && settled.None?
          && (record.outcome == Some(answer) || (record.outcome.None? && answer == INTERRUPTED))
      case Stopped(TimeoutHalt) =>
        (record.outcome.None? && Passed(deadline, record.late)) || Aborted(deadline, work, TotalTimeout)
      case Stopped(ForceHalt) => Aborted(deadline, work, ForceStopped)
      case Stopped(ControlHalt(f)) => Aborted(deadline, work, ControlFailed(f))
      case Stopped(NotYet) => ApiKeepsGoing(LimitsOf(deadline, work.pollEvery), record.ticks, |record.ticks|)
  }

  /** The watch reached a turn that made it terminate the child, with this exit. */
  ghost predicate Aborted(deadline: Option<int>, work: Work, exit: Exit<Answer>)
    requires work.Isolated?
  {
    var lim, ticks := LimitsOf(deadline, work.pollEvery), work.record.ticks;
    exists i :: 0 <= i < |ticks| && ApiKeepsGoing(lim, ticks, i) && ApiInterrupts(ticks, i) &&
                ApiAbortsWith(lim, ApiPollAt(lim.pollEvery, ticks, i), ticks[i], exit)
  }

  /** `_execute_isolated` for one attempt, with the except clauses around it. */
  method RunAttempt(deadline: Option<int>, work: Work) returns (ran: Ran)
    ensures Yields(deadline, work, ran)
  {
    match work {
      case Inline(answer) => ran := Answered(answer, false, None);
      case Throws(report) => ran := Answered(Answer(report, None, 0), true, None);
      case Isolated(pollEvery, record) =>
        var lim := LimitsOf(deadline, pollEvery);
        var exit, turn, seen, _, _ := SuperviseApi(lim, record);
        forall i, end | ApiSees(lim, record, i, end) ensures i == turn { ApiSeesOne(lim, record, i, end, turn, seen); }
        ran := RanOf(exit);
    }
  }

  /** One step of a backoff: clock, did the stop event fire during the step, clock, control. */
  datatype WaitTick = WaitTick(now: int, stopped: bool, after: int, control: Reply<Control>)

  datatype Attempt = Attempt(before: int, work: Work, after: int, control: Reply<Control>, waiting: nat -> WaitTick)

  function Pow2(k: nat): (p: nat)
    ensures p >= 1
  {
    if k == 0 then 1 else 2 * Pow2(k - 1)
  }

  /** The backoff before repetition `k`, in milliseconds. */
  function DelayMs(policy: Policy, k: nat): nat {
    assert policy.backoffMs * Pow2(k) >= 0;
    Min(30000, policy.backoffMs * Pow2(k))
  }

  function Sum(s: seq<nat>): nat {
    if s == [] then 0 else Sum(s[..|s| - 1]) + s[|s| - 1]
  }

  datatype Waited = Proceed | Finish | Demanded(demand: Demand) | Faulted(fault: Fault) | DeadlinePassed

  /** The decision taken from the control endpoint at the end of a step. */
  function AfterControl(r: Reply<Control>): Waited {
    match CheckControl(r)
    case Raised(f) => Faulted(f)
    case Ok(Clear) => Proceed
    case Ok(d) => Demanded(d)
  }

  /** A full step that ended with nothing in the way. */
  predicate Uneventful(deadline: Option<int>, t: WaitTick) {
    !t.stopped && !Passed(deadline, t.after) && Demands(t.control, Clear)
  }

  /** The step neither oversleeps the deadline nor the half-second control interval. */
  predicate Bounded(deadline: Option<int>, t: WaitTick, step: nat, interval: Option<nat>) {
    && step > 0
    && (deadline.Some? ==> t.now + step <= deadline.value)
    && (interval.Some? ==> step <= interval.value)
  }

  ghost predicate StepsBounded(deadline: Option<int>, ticks: nat -> WaitTick, slept: seq<nat>, interval: Option<nat>) {
    slept == [] || (StepsBounded(deadline, ticks, slept[..|slept| - 1], interval) &&
                    Bounded(deadline, ticks(|slept| - 1), slept[|slept| - 1], interval))
  }

  ghost predicate AllUneventful(deadline: Option<int>, ticks: nat -> WaitTick, n: nat) {
    n == 0 || (AllUneventful(deadline, ticks, n - 1) && Uneventful(deadline, ticks(n - 1)))
  }

  /** What the last thing the wait looked at says about a result that stops the wait. */
  ghost predicate Interrupted(deadline: Option<int>, t: WaitTick, listens: bool, w: Waited) {
    match w
    case Finish => listens && t.stopped
    case DeadlinePassed => Passed(deadline, t.now) || Passed(deadline, t.after)
    case Demanded(d) => Demands(t.control, d) && d != Clear
    case Faulted(f) => Faults(t.control, f)
    case Proceed => false
  }

  /** The waiting promised for a delay: which steps were slept and why the wait ended.
      `at` is the observation the decision was taken from. */
  ghost predicate WaitedFor(delay: int, deadline: Option<int>, listens: bool, ticks: nat -> WaitTick,
                            w: Waited, slept: seq<nat>, at: nat) {
    && StepsBounded(deadline, ticks, slept, if listens then Some(500) else None)
    && Sum(slept) <= delay
    && (w.Proceed? && (listens || delay == 0) ==> Sum(slept) == delay)
    && (w.Proceed? && !listens ==> Sum(slept) == delay || (|slept| == 1 && ticks(0).after < ticks(0).now + slept[0]))
    && (w.Proceed? && listens && delay > 0 ==> AllUneventful(deadline, ticks, |slept|))
    && (!w.Proceed? ==> Interrupted(deadline, ticks(at), listens, w))
  }

  /** Without a stop event there is a single sleep, cut at the deadline. */
  method SleepOnce(delay: nat, deadline: Option<int>, t: WaitTick) returns (w: Waited, slept: seq<nat>)
    requires delay > 0
    ensures |slept| <= 1
    ensures slept == [] ==> w == DeadlinePassed
    ensures slept != [] ==> Bounded(deadline, t, slept[0], None) && slept[0] <= delay
    ensures w.Proceed? ==> slept[0] == delay || t.after < t.now + slept[0]
    ensures !w.Proceed? ==> Interrupted(deadline, t, false, w)
  {
    if Passed(deadline, t.now) { return DeadlinePassed, []; }
    var step: nat := if deadline.Some? then Min(delay, deadline.value - t.now) else delay;
    w := if Passed(deadline, t.after) then DeadlinePassed else AfterControl(t.control);
    slept := [step];
  }

  /** With a stop event the delay is slept in steps of at most half a second, and control is
      read after each. */
  method WaitListening(delay: nat, deadline: Option<int>, ticks: nat -> WaitTick)
    returns (w: Waited, slept: seq<nat>, at: nat)
    requires delay > 0
    ensures WaitedFor(delay, deadline, true, ticks, w, slept, at)
  {
    slept := [];
    var remaining := delay;
    while true
      invariant 0 < remaining
      invariant Sum(slept) + remaining == delay
      invariant StepsBounded(deadline, ticks, slept, Some(500))
      invariant AllUneventful(deadline, ticks, |slept|)
      decreases remaining
    {
      at := |slept|;
      var t := ticks(at);
      if Passed(deadline, t.now) { return DeadlinePassed, slept, at; }
      var step: nat := Min(500, remaining);
      if deadline.Some? { step := Min(step, deadline.value - t.now); }
      ghost var before := slept;
      slept := slept + [step];
      assert slept[..|slept| - 1] == before;
      if t.stopped { return Finish, slept, at; }
      remaining := remaining - step;
      w := if Passed(deadline, t.after) then DeadlinePassed else AfterControl(t.control);
      if w != Proceed || remaining == 0 { return w, slept, at; }
    }
  }

  /** `_wait_retry_with_control`.  `listens` says whether a stop event is attached; `slept`
      are the steps actually slept, step `i` under the observations `ticks(i)`. */
  method Wait(delay: nat, deadline: Option<int>, listens: bool, ticks: nat -> WaitTick)
    returns (w: Waited, slept: seq<nat>, at: nat)
    ensures WaitedFor(delay, deadline, listens, ticks, w, slept, at)
  {
    slept, at := [], 0;
    var first := ticks(0);
    if delay == 0 {
      w := if Passed(deadline, first.after) then DeadlinePassed
           else if listens && first.stopped then Finish
           else AfterControl(first.control);
    } else if listens {
      w, slept, at := WaitListening(delay, deadline, ticks);
    } else {
      w, slept := SleepOnce(delay, deadline, first);
      if slept != [] {
        assert slept[..0] == [] && slept == [slept[0]];
      }
    }
  }

  /** `_retry_reason` */
  function ReasonOf(answer: Answer): Option<Reason> {
    if answer.status.Some? && 500 <= answer.status.value <= 599 then Some(HTTP_5XX)
    else if answer.report.TargetTimedOut? then Some(TARGET_TIMEOUT)
    else if answer.report.NetworkError? then Some(TARGET_NETWORK_ERROR)
    else None
  }

  datatype Result =
    | Reported(report: Report, retries: nat)
    | SettledBy(fault: Fault)
    | EndTimeout(retries: nat)
    | EndDemand(demand: Demand, retries: nat)
    | Pending

  /** Attempt `i` produced a report before the deadline. */
  predicate Produced(deadline: Option<int>, a: Attempt, ran: Ran) {
    ran.Answered? && (ran.threw || !Passed(deadline, a.after))
  }

  /** The policy wants an attempt with this answer repeated. */
  predicate Wanted(policy: Policy, answer: Answer, i: nat) {
    i < policy.maxRetries && ReasonOf(answer).Some? && ReasonOf(answer).value in policy.retryOn
  }

  /** Attempt `i` started before the deadline, ended as observed and may be repeated. */
  ghost predicate Repeats(policy: Policy, deadline: Option<int>, a: Attempt, ran: Ran, i: nat) {
    && !Passed(deadline, a.before)
    && Yields(deadline, a.work, ran) && Produced(deadline, a, ran) && Wanted(policy, ran.answer, i)
    && Demands(a.control, Clear)
  }

  /** The attempts before the last one, which ended as `rans`, were all repeated. */
  ghost predicate AllRepeat(policy: Policy, deadline: Option<int>, attempts: nat -> Attempt, rans: seq<Ran>) {
    rans == [] ||
    (AllRepeat(policy, deadline, attempts, rans[..|rans| - 1]) &&
     Repeats(policy, deadline, attempts(|rans| - 1), rans[|rans| - 1], |rans| - 1))
  }

  /** Every backoff before the last attempt was waited to its end. */
  ghost predicate FullWaits(
      policy: Policy, deadline: Option<int>, listens: bool, attempts: nat -> Attempt, waits: seq<seq<nat>>)
  {
    waits == [] ||
    (FullWaits(policy, deadline, listens, attempts, waits[..|waits| - 1]) &&
     FullWait(policy, deadline, listens, attempts(|waits| - 1), |waits| - 1, waits[|waits| - 1]))
  }

  /** The steps of backoff `k` were bounded by the deadline and the control interval and sum to
      its delay (or the single sleep was cut short by a clock that fell behind it, when no stop
      event is attached). */
  ghost predicate FullWait(
      policy: Policy, deadline: Option<int>, listens: bool, a: Attempt, k: nat, slept: seq<nat>)
  {
    WaitedFor(DelayMs(policy, k), deadline, listens, a.waiting, Proceed, slept, 0)
  }

  /** A wait that ended early kept the same bounds on its steps. */
  ghost predicate CutWait(policy: Policy, deadline: Option<int>, listens: bool, a: Attempt, k: nat, slept: seq<nat>) {
    && StepsBounded(deadline, a.waiting, slept, if listens then Some(500) else None)
    && Sum(slept) <= DelayMs(policy, k)
  }

  /** How the last attempt `i`, which started before the deadline and ended as `ran`, justifies
      the result of the whole loop.  `at` is the step of its backoff the decision was taken
      from, when it was taken there. */
  ghost predicate Justifies(policy: Policy, deadline: Option<int>, a: Attempt, ran: Ran, i: nat, r: Result, at: nat) {
    && !Passed(deadline, a.before) && Yields(deadline, a.work, ran)
    && match r
       case Reported(report, retries) =>
         && Produced(deadline, a, ran) && report == ran.answer.report
         && if Wanted(policy, ran.answer, i)
            then retries == i && Demands(a.control, Clear) && a.waiting(at).stopped
            else retries == Min(3, i + ran.answer.internalRetries)
       case SettledBy(f) =>
         || ran == Stopped(ControlHalt(f))
         || (Produced(deadline, a, ran) && Wanted(policy, ran.answer, i) && Faults(a.control, f))
         || (Repeats(policy, deadline, a, ran, i) && Faults(a.waiting(at).control, f))
       case EndTimeout(retries) =>
         && retries == i
         && (|| ran == Stopped(TimeoutHalt)
             || (ran.Answered? && !ran.threw && Passed(deadline, a.after))
             || (Repeats(policy, deadline, a, ran, i) &&
                 (Passed(deadline, a.waiting(at).now) || Passed(deadline, a.waiting(at).after))))
       case EndDemand(d, retries) =>
         && retries == i && d != Clear
         && (|| (d == Force && ran == Stopped(ForceHalt))
             || (Produced(deadline, a, ran) && Wanted(policy, ran.answer, i) && Demands(a.control, d))
             || (Repeats(policy, deadline, a, ran, i) && Demands(a.waiting(at).control, d)))
       case Pending => ran == Stopped(NotYet)
  }

  /** The loop ended at attempt `i`: at the deadline, before the attempt, or because of it. */
  ghost predicate EndsWith(
      policy: Policy, deadline: Option<int>, a: Attempt, final: Option<Ran>, i: nat, r: Result, at: nat)
  {
    if final.None? then Passed(deadline, a.before) && r == EndTimeout(i)
    else Justifies(policy, deadline, a, final.value, i, r, at)
  }

  /** What an attempt that is not to be repeated at once leads to, if anything. */
  method Conclude(policy: Policy, deadline: Option<int>, a: Attempt, ran: Ran, i: nat) returns (r: Option<Result>)
    requires !Passed(deadline, a.before) && Yields(deadline, a.work, ran)
    ensures r.None? <==> Repeats(policy, deadline, a, ran, i)
    ensures r.Some? ==> forall at :: Justifies(policy, deadline, a, ran, i, r.value, at)
  {
    if ran.Stopped? {
      match ran.halt {
        case ControlHalt(f) => return Some(SettledBy(f));
        case ForceHalt => return Some(EndDemand(Force, i));
        case TimeoutHalt => return Some(EndTimeout(i));
        case NotYet => return Some(Pending);
      }
    }
    if !ran.threw && Passed(deadline, a.after) { return Some(EndTimeout(i)); }
    var reason := ReasonOf(ran.answer);
    if i >= policy.maxRetries || reason.None? || reason.value !in policy.retryOn {
      return Some(Reported(ran.answer.report, Min(3, i + ran.answer.internalRetries)));
    }
    var demand := CheckControl(a.control);
    if demand.Raised? { return Some(SettledBy(demand.fault)); }
    if demand.value != Clear { return Some(EndDemand(demand.value, i)); }
    r := None;
  }

  lemma RepeatsOnce(policy: Policy, deadline: Option<int>, attempts: nat -> Attempt, rans: seq<Ran>, ran: Ran)
    requires AllRepeat(policy, deadline, attempts, rans)
    requires Repeats(policy, deadline, attempts(|rans|), ran, |rans|)
    ensures AllRepeat(policy, deadline, attempts, rans + [ran])
  {
    assert (rans + [ran])[..|rans|] == rans;
  }

  lemma WaitsOnce(policy: Policy, deadline: Option<int>, listens: bool, attempts: nat -> Attempt,
                  waits: seq<seq<nat>>, slept: seq<nat>)
    requires FullWaits(policy, deadline, listens, attempts, waits)
    requires FullWait(policy, deadline, listens, attempts(|waits|), |waits|, slept)
    ensures FullWaits(policy, deadline, listens, attempts, waits + [slept])
  {
    assert (waits + [slept])[..|waits|] == waits;
  }

  /** What follows attempt `i`: the end of the loop, or its backoff and another attempt. */
  method Proceeding(policy: Policy, deadline: Option<int>, listens: bool, a: Attempt, ran: Ran, i: nat)
    returns (r: Option<Result>, slept: seq<nat>, at: nat)
    requires !Passed(deadline, a.before) && Yields(deadline, a.work, ran)
    ensures r.None? ==> Repeats(policy, deadline, a, ran, i) && FullWait(policy, deadline, listens, a, i, slept)
    ensures r.Some? ==>
              Justifies(policy, deadline, a, ran, i, r.value, at) && CutWait(policy, deadline, listens, a, i, slept)
  {
    slept, at := [], 0;
    r := Conclude(policy, deadline, a, ran, i);
    if r.Some? { return; }
    var w;
    w, slept, at := Wait(DelayMs(policy, i), deadline, listens, a.waiting);
    match w {
      case Faulted(f) => r := Some(SettledBy(f));
      case Demanded(d) => r := Some(EndDemand(d, i));
      case DeadlinePassed => r := Some(EndTimeout(i));
      case Finish => r := Some(Reported(ran.answer.report, i));
      case Proceed =>
    }
  }

  /** `_execute_with_retries`.  Attempts `0 .. last` were considered; every one before the
      last ended as `rans` says, failed for a listed reason, was repeated after a full backoff,
      and none ran at or after the deadline.  `final` is how the last attempt ended, if it ran,
      `cut` the wait that was ended early after it, if any. */
  method ExecuteWithRetries(policy: Policy, deadline: Option<int>, listens: bool, attempts: nat -> Attempt)
    returns (r: Result, rans: seq<Ran>, final: Option<Ran>, waits: seq<seq<nat>>, cut: seq<nat>, at: nat)
    ensures |rans| <= policy.maxRetries
    ensures AllRepeat(policy, deadline, attempts, rans)
    ensures |waits| == |rans| && FullWaits(policy, deadline, listens, attempts, waits)
    ensures CutWait(policy, deadline, listens, attempts(|rans|), |rans|, cut)
    ensures EndsWith(policy, deadline, attempts(|rans|), final, |rans|, r, at)
  {
    rans, waits, cut, at := [], [], [], 0;
    while true
      invariant |rans| <= policy.maxRetries
      invariant AllRepeat(policy, deadline, attempts, rans)
      invariant |waits| == |rans| && FullWaits(policy, deadline, listens, attempts, waits) && cut == []
      decreases policy.maxRetries - |rans|
    {
      var i := |rans|;
      var a := attempts(i);
      if Passed(deadline, a.before) { return EndTimeout(i), rans, None, waits, cut, at; }
      var ran := RunAttempt(deadline, a.work);
      var ended, slept;
      ended, slept, at := Proceeding(policy, deadline, listens, a, ran, i);
      if ended.Some? { return ended.value, rans, Some(ran), waits, slept, at; }
      RepeatsOnce(policy, deadline, attempts, rans, ran);
      WaitsOnce(policy, deadline, listens, attempts, waits, slept);
      rans, waits := rans + [ran], waits + [slept];
    }
  }

  /** Every repeated attempt started before the deadline and failed for a listed reason. */
  lemma {:induction false} RepeatedAttempt(
      policy: Policy, deadline: Option<int>, attempts: nat -> Attempt, rans: seq<Ran>, i: nat)
    requires i < |rans| && AllRepeat(policy, deadline, attempts, rans)
    ensures Repeats(policy, deadline, attempts(i), rans[i], i)
  {
    if i < |rans| - 1 { RepeatedAttempt(policy, deadline, attempts, rans[..|rans| - 1], i); }
  }

  /** An attempt that threw after control had settled is never repeated. */
  lemma SettledIsFinal(policy: Policy, deadline: Option<int>, a: Attempt, ran: Ran, i: nat)
    requires Repeats(policy, deadline, a, ran, i)
    ensures ran.settled.None?
  {}

  /** Why a report may be repeated, read off the answer itself: a 5xx status, else a timeout of
      the target, else a network error, each only if the policy lists it. */
  predicate Listed(policy: Policy, answer: Answer) {
    var serverError := answer.status.Some? && 500 <= answer.status.value <= 599;
    || (serverError && HTTP_5XX in policy.retryOn)
    || (!serverError && answer.report == TargetTimedOut && TARGET_TIMEOUT in policy.retryOn)
    || (!serverError && answer.report == NetworkError && TARGET_NETWORK_ERROR in policy.retryOn)
  }

  /** An attempt is repeated exactly when it began before the deadline, produced a report that is
      listed, with retries left and control clear. */
  lemma RepeatedBecause(policy: Policy, deadline: Option<int>, a: Attempt, ran: Ran, i: nat)
    requires Yields(deadline, a.work, ran)
    ensures Repeats(policy, deadline, a, ran, i) <==>
              && (deadline.Some? ==> a.before < deadline.value)
              && ran.Answered? && (ran.threw || (deadline.Some? ==> a.after < deadline.value))
              && i < policy.maxRetries && Listed(policy, ran.answer)
              && a.control.Ok? && a.control.value.Flags? && !a.control.value.cancel && !a.control.value.force
  {}

  /** The first backoff is the policy's own, ... */
  lemma BackoffStarts(policy: Policy)
    ensures DelayMs(policy, 0) == Min(30000, policy.backoffMs)
  {
    assert Pow2(0) == 1;
  }

  /** ... and they double until they reach thirty seconds and stay there. */
  lemma {:induction false} BackoffDoubles(policy: Policy, k: nat)
    ensures DelayMs(policy, k + 1) == Min(30000, 2 * DelayMs(policy, k))
  {
    assert policy.backoffMs * Pow2(k + 1) == 2 * (policy.backoffMs * Pow2(k));
  }
}
