/** The parent-side loops that watch an isolated child process.

    A loop is run against a finite record of what the parent observed: one `Tick` per
    turn, then the pipe content after the loop.  A record that ends while the child is
    still alive yields `StillRunning`: the call has not returned yet.  Methods of the process
    handle may raise, at any turn and while the child is terminated or closed.  Times are
    integer milliseconds on the wall clock. */
module Supervision {
  import opened Wire

  /** One turn: is the child alive, did the pipe deliver, the clock, what the control
      endpoint would answer, and whether a cancellation request would be accepted. */
  datatype Tick = Tick(alive: bool, delivered: bool, now: int, control: Reply<Control>, accepts: bool)

  /** What methods of the process handle raise: `breaking` where the ticks end, `terminating`
      when a child is terminated and joined, `closing` when it is closed. */
  datatype Ending = Ending(breaking: Option<Fault>, terminating: Option<Fault>, closing: Option<Fault>)


  datatype Record<R> = Record(ticks: seq<Tick>, outcome: Option<R>, late: int, ending: Ending)

  datatype Limits = Limits(deadline: Option<int>, pollEvery: int, cancelWait: int)

  /** `ProcessFailed`: a method of the process handle raised; `settled` is the control fault by
      which the delivery had been settled before that. */
  datatype Exit<R> =
    | Delivered(result: R)
    | TotalTimeout
    | CancelUnresponsive
    | StopUnresponsive
    | ForceStopped
    | Broken
    | ControlFailed(fault: Fault)
    | ProcessFailed(raised: Fault, settled: Option<Fault>)
    | StillRunning

  /** What the parent tells a child. */
  datatype Command = RequestCancel | RequestStop | Terminate | Close

  /** An isolated child process, as the parent's handle sees it.  Terminating is a request and
      a bounded wait; closing terminates, waits and kills, so a child that was closed is gone
      unless closing raised. */
  class Child {
    ghost var commands: seq<Command>
    ghost var running: bool

    constructor ()
      ensures commands == [] && running
    {
      commands, running := [], true;
    }

    method Tell(command: Command)
      requires !command.Close?
      modifies this
      ensures commands == old(commands) + [command] && running == old(running)
    {
      commands := commands + [command];
    }

    method Shut(raises: Option<Fault>)
      modifies this
      ensures commands == old(commands) + [Close] && running == (old(running) && raises.Some?)
    {
      commands, running := commands + [Close], running && raises.Some?;
    }
  }

  /** Has a loop over `n` ticks that stopped at `turn` been left? */
  predicate Over(e: Ending, n: nat, turn: nat) { turn < n || e.breaking.Some? }

  /** The exception that leaves such a loop: closing comes last and its exception wins. */
  function RaisedBy(e: Ending, n: nat, turn: nat, interrupted: bool): Option<Fault> {
    if !Over(e, n, turn) then None
    else if e.closing.Some? then e.closing
    else if turn >= n then e.breaking
    else if interrupted then e.terminating
    else None
  }

  /** The exit once exceptions are counted in.  `settles`: a control fault is settled before
      the child is terminated. */
  function Leaves<R>(seen: Exit<R>, raised: Option<Fault>, settles: bool): Exit<R> {
    if raised.None? then seen
    else ProcessFailed(raised.value, if settles && seen.ControlFailed? then Some(seen.fault) else None)
  }

  predicate Passed(deadline: Option<int>, now: int) {
    deadline.Some? && now >= deadline.value
  }

  /** The child is alive and has put nothing in the pipe. */
  predicate Quiet(t: Tick) { t.alive && !t.delivered }

  predicate Says(t: Tick, d: Demand) { Demands(t.control, d) }

  /** What the loop remembers between turns: when control was consulted last (time zero
      before the first consultation) and since when a cancellation is pending. */
  datatype Watch = Watch(lastPoll: int, cancelSince: Option<int>)

  predicate PollDue(lim: Limits, w: Watch, now: int) {
    w.cancelSince.None? && now - w.lastPoll >= lim.pollEvery
  }

  predicate WindowClosed(lim: Limits, w: Watch, now: int) {
    w.cancelSince.Some? && now >= w.cancelSince.value + lim.cancelWait
  }

  function Remember(lim: Limits, w: Watch, t: Tick): Watch {
    if !PollDue(lim, w, t.now) then w
    else Watch(t.now, if Says(t, Cancel) then Some(t.now) else None)
  }

  /** The memory on entering turn `i`, as a function of the turns before it. */
  ghost function WatchAt(lim: Limits, ticks: seq<Tick>, i: nat): Watch
    requires i <= |ticks|
  {
    if i == 0 then Watch(0, None) else Remember(lim, WatchAt(lim, ticks, i - 1), ticks[i - 1])
  }

  /** A turn that keeps the loop going. */
  predicate Stays(lim: Limits, w: Watch, t: Tick) {
    && Quiet(t)
    && !Passed(lim.deadline, t.now)
    && !WindowClosed(lim, w, t.now)
    && (PollDue(lim, w, t.now) ==> Says(t, Clear) || (Says(t, Cancel) && t.accepts))
  }

  /** The first `n` turns all keep the loop going. */
  ghost predicate KeepsGoing(lim: Limits, ticks: seq<Tick>, n: nat)
    requires n <= |ticks|
  {
    n == 0 || (KeepsGoing(lim, ticks, n - 1) && Stays(lim, WatchAt(lim, ticks, n - 1), ticks[n - 1]))
  }

  lemma {:induction false} KeptGoingAt(lim: Limits, ticks: seq<Tick>, n: nat, i: nat)
    requires i < n <= |ticks| && KeepsGoing(lim, ticks, n)
    ensures KeepsGoing(lim, ticks, i) && Stays(lim, WatchAt(lim, ticks, i), ticks[i])
  {
    if i < n - 1 { KeptGoingAt(lim, ticks, n - 1, i); }
  }

  /** `turn` is the first turn that does not keep the loop going. */
  ghost predicate Stops(lim: Limits, ticks: seq<Tick>, turn: nat) {
    && turn <= |ticks|
    && KeepsGoing(lim, ticks, turn)
    && (turn < |ticks| ==> !Stays(lim, WatchAt(lim, ticks, turn), ticks[turn]))
  }

  /** Control is consulted at a turn that the deadline and the cancel window let through. */
  predicate Consults(lim: Limits, w: Watch, t: Tick) {
    Quiet(t) && !Passed(lim.deadline, t.now) && PollDue(lim, w, t.now)
  }

  /** When a quiet turn terminates the child, and with which exit. */
  ghost predicate AbortsWith<R>(lim: Limits, w: Watch, t: Tick, exit: Exit<R>) {
    match exit
    case TotalTimeout => Passed(lim.deadline, t.now)
    case ForceStopped => Consults(lim, w, t) && Says(t, Force)
    case ControlFailed(f) => Consults(lim, w, t) && Faults(t.control, f)
    case CancelUnresponsive =>
      !Passed(lim.deadline, t.now) &&
      (WindowClosed(lim, w, t.now) || (Consults(lim, w, t) && Says(t, Cancel) && !t.accepts))
    case _ => false
  }

  /** The exit once the loop was left because the child ended or delivered: a result counts
      however late, a cancellation explains its absence, and so does the deadline. */
  ghost predicate DrainsTo<R>(lim: Limits, cancelled: bool, rec: Record<R>, exit: Exit<R>) {
    && (rec.outcome.Some? ==> exit == Delivered(rec.outcome.value))
    && (rec.outcome.None? && cancelled ==> exit == CancelUnresponsive)
    && (rec.outcome.None? && !cancelled && Passed(lim.deadline, rec.late) ==> exit == TotalTimeout)
    && (rec.outcome.None? && !cancelled && !Passed(lim.deadline, rec.late) ==> exit == Broken)
  }

  /** What an exception does to the end of a loop: closing raises last, so its exception wins;
      a control fault was settled before if the loop settles first. */
  lemma ExceptionsMean<R>(e: Ending, n: nat, turn: nat, interrupted: bool, seen: Exit<R>, settles: bool)
    requires turn <= n
    ensures var exit := Leaves(seen, RaisedBy(e, n, turn, interrupted), settles);
            && (turn == n && e.breaking.None? ==> exit == seen)
            && (Over(e, n, turn) && e.closing.Some? ==> exit.ProcessFailed? && exit.raised == e.closing.value)
            && (turn == n && e.breaking.Some? && e.closing.None? ==>
                  exit.ProcessFailed? && exit.raised == e.breaking.value)
            && (turn < n && e.closing.None? && interrupted && e.terminating.Some? ==>
                  exit.ProcessFailed? && exit.raised == e.terminating.value)
            && (turn < n && e.closing.None? && (!interrupted || e.terminating.None?) ==> exit == seen)
            && (exit.ProcessFailed? && exit != seen ==>
                  exit.settled == if settles && seen.ControlFailed? then Some(seen.fault) else None)
  {}

  /** What a child has been asked for while the loop kept going. */
  function Requested(w: Watch): seq<Command> { if w.cancelSince.Some? then [RequestCancel] else [] }

  /** One quiet turn of the loop body: the new memory, or the exit. */
  method Turn<R>(lim: Limits, w: Watch, t: Tick, process: Child) returns (next: Watch, exit: Option<Exit<R>>)
    requires Quiet(t)
    modifies process
    ensures exit.None? <==> Stays(lim, w, t)
    ensures exit.None? ==> next == Remember(lim, w, t)
    ensures exit.None? && Requested(w) == old(process.commands) ==> process.commands == Requested(next)
    ensures exit.Some? ==> AbortsWith(lim, w, t, exit.value) && process.commands == old(process.commands) + [Terminate]
  {
    next, exit := w, None;
    if Passed(lim.deadline, t.now) {
      process.Tell(Terminate);
      return next, Some(TotalTimeout);
    }
    if w.cancelSince.Some? {
      if t.now >= w.cancelSince.value + lim.cancelWait {
        process.Tell(Terminate);
        exit := Some(CancelUnresponsive);
      }
    } else if t.now - w.lastPoll >= lim.pollEvery {
      next := Watch(t.now, None);
      var demand := CheckControl(t.control);
      if demand.Raised? {
        process.Tell(Terminate);
        return next, Some(ControlFailed(demand.fault));
      }
      if demand.value == Force {
        process.Tell(Terminate);
        return next, Some(ForceStopped);
      }
      if demand.value == Cancel {
        if !t.accepts {
          process.Tell(Terminate);
          return next, Some(CancelUnresponsive);
        }
        process.Tell(RequestCancel);
        next := Watch(t.now, Some(t.now));
      }
    }
  }

  /** The loop stopped at a turn, and whether the child was then alive without a result. */
  predicate Interrupts(ticks: seq<Tick>, turn: nat) { turn < |ticks| && Quiet(ticks[turn]) }

  /** How the loop itself ends: `turn` is the first turn that does not keep it going, and what
      it sees there decides. */
  ghost predicate Sees<R>(lim: Limits, rec: Record<R>, turn: nat, seen: Exit<R>) {
    && Stops(lim, rec.ticks, turn)
    && (seen.StillRunning? <==> turn == |rec.ticks|)
    && (Interrupts(rec.ticks, turn) ==> AbortsWith(lim, WatchAt(lim, rec.ticks, turn), rec.ticks[turn], seen))
    && (turn < |rec.ticks| && !Interrupts(rec.ticks, turn) ==>
          DrainsTo(lim, WatchAt(lim, rec.ticks, turn).cancelSince.Some?, rec, seen))
  }

  /** Control made the watch settle the delivery with this fault, and then a method of the
      process handle raised. */
  ghost predicate Overran<R>(lim: Limits, rec: Record<R>, f: Fault) {
    && (rec.ending.terminating.Some? || rec.ending.closing.Some?)
    && exists turn :: Interrupts(rec.ticks, turn) && Sees(lim, rec, turn, ControlFailed(f))
  }

  /** The observations determine how the loop ends. */
  lemma SeesOne<R>(lim: Limits, rec: Record<R>, i: nat, a: Exit<R>, j: nat, b: Exit<R>)
    requires Sees(lim, rec, i, a) && Sees(lim, rec, j, b)
    ensures i == j && a == b
  {
    if i < j { KeptGoingAt(lim, rec.ticks, j, i); }
    if j < i { KeptGoingAt(lim, rec.ticks, i, j); }
  }

  /** It can happen: control fails at the first turn and terminating the child raises. */
  lemma OverrunHappens<R>(f: Fault, raised: Fault) returns (rec: Record<R>)
    ensures Overran(Limits(None, 0, 0), rec, f)
  {
    var t := Tick(true, false, 0, Raised(f), true);
    rec := Record([t], None, 0, Ending(None, Some(raised), None));
    assert WatchAt(Limits(None, 0, 0), rec.ticks, 0) == Watch(0, None);
    assert Interrupts(rec.ticks, 0) && Sees(Limits(None, 0, 0), rec, 0, ControlFailed(f));
  }

  /** `_execute_scenario_isolated`, `_execute_web_isolated` and the isolated branch of
      `_execute_performance_isolated`.  The child is asked to cancel at most once, told to
      terminate exactly when it is left alive without a result, and always closed: none
      outlives the loop unless closing it raised. */
  method Supervise<R>(lim: Limits, rec: Record<R>)
    returns (exit: Exit<R>, turn: nat, ghost seen: Exit<R>, ghost commands: seq<Command>, ghost outlives: bool)
    ensures Sees(lim, rec, turn, seen)
    ensures exit == Leaves(seen, RaisedBy(rec.ending, |rec.ticks|, turn, Interrupts(rec.ticks, turn)), true)
    ensures forall f :: Overran(lim, rec, f) <==> exit.ProcessFailed? && exit.settled == Some(f)
    ensures commands == Requested(WatchAt(lim, rec.ticks, turn)) +
                        (if Interrupts(rec.ticks, turn) then [Terminate] else []) +
                        (if Over(rec.ending, |rec.ticks|, turn) then [Close] else [])
    ensures outlives ==> exit.StillRunning? || rec.ending.closing.Some?
  {
    var process := new Child();
    var found;
    found, turn := WatchChild(lim, rec, process);
    seen, exit := found, found;
    if Over(rec.ending, |rec.ticks|, turn) {
      process.Shut(rec.ending.closing);
      exit := Leaves(found, RaisedBy(rec.ending, |rec.ticks|, turn, Interrupts(rec.ticks, turn)), true);
    }
    forall f, i | Interrupts(rec.ticks, i) && Sees(lim, rec, i, ControlFailed(f))
      ensures i == turn && seen == ControlFailed(f)
    {
      SeesOne(lim, rec, i, ControlFailed(f), turn, seen);
    }
    commands, outlives := process.commands, process.running;
  }

  /** The loop, without the `finally` that closes the child. */
  method WatchChild<R>(lim: Limits, rec: Record<R>, process: Child) returns (exit: Exit<R>, turn: nat)
    requires process.commands == []
    modifies process
    ensures Sees(lim, rec, turn, exit)
    ensures process.commands == Requested(WatchAt(lim, rec.ticks, turn)) +
                                (if Interrupts(rec.ticks, turn) then [Terminate] else [])
  {
    var w := Watch(0, None);
    turn := 0;
    while turn < |rec.ticks| && Quiet(rec.ticks[turn])
      invariant turn <= |rec.ticks|
      invariant w == WatchAt(lim, rec.ticks, turn)
      invariant KeepsGoing(lim, rec.ticks, turn)
      invariant process.commands == Requested(w)
    {
      var next, abort := Turn<R>(lim, w, rec.ticks[turn], process);
      if abort.Some? { return abort.value, turn; }
      w := next;
      turn := turn + 1;
    }
    exit := if turn == |rec.ticks| then StillRunning
            else if rec.outcome.Some? then Delivered(rec.outcome.value)
            else if w.cancelSince.Some? then CancelUnresponsive
            else if Passed(lim.deadline, rec.late) then TotalTimeout
            else Broken;
  }

  /** A pending cancellation was asked for by an earlier consulted turn and accepted there. */
  lemma {:induction false} CancelHasAnOrigin(lim: Limits, ticks: seq<Tick>, i: nat)
    requires i <= |ticks|
    requires KeepsGoing(lim, ticks, i)
    ensures WatchAt(lim, ticks, i).cancelSince.Some? ==>
              exists j :: 0 <= j < i && Says(ticks[j], Cancel) && ticks[j].accepts &&
                          ticks[j].now == WatchAt(lim, ticks, i).cancelSince.value
  {
    if i > 0 {
      CancelHasAnOrigin(lim, ticks, i - 1);
    }
  }

  /** A cancellation latches: it keeps its start time and control is never consulted again. */
  lemma {:induction false} CancelLatches(lim: Limits, ticks: seq<Tick>, i: nat, j: nat)
    requires i <= j <= |ticks|
    requires WatchAt(lim, ticks, i).cancelSince.Some?
    ensures WatchAt(lim, ticks, j) == WatchAt(lim, ticks, i)
    ensures j < |ticks| ==> !Consults(lim, WatchAt(lim, ticks, j), ticks[j])
    decreases j
  {
    if i < j {
      CancelLatches(lim, ticks, i, j - 1);
    }
  }

  /** The loop is left no later than the first turn at which the deadline has passed, or at
      which the window of an accepted cancellation is over. */
  lemma {:induction false} LeavesInTime(lim: Limits, ticks: seq<Tick>, turn: nat, late: nat)
    requires Stops(lim, ticks, turn)
    requires late < |ticks|
    requires (lim.deadline.Some? && ticks[late].now >= lim.deadline.value) ||
             exists j :: 0 <= j < late && Cancels(lim, ticks, j) && ticks[late].now >= ticks[j].now + lim.cancelWait
    ensures turn <= late
  {
    if late < turn {
      KeptGoingAt(lim, ticks, turn, late);
      var j :| 0 <= j < late && Cancels(lim, ticks, j) && ticks[late].now >= ticks[j].now + lim.cancelWait;
      assert WatchAt(lim, ticks, j + 1).cancelSince == Some(ticks[j].now);
      CancelLatches(lim, ticks, j + 1, late);
    }
  }

  /** A child that is gone or has delivered ends the loop, ... */
  lemma DoneEndsTheLoop(lim: Limits, ticks: seq<Tick>, turn: nat, i: nat)
    requires Stops(lim, ticks, turn) && i < |ticks| && (!ticks[i].alive || ticks[i].delivered)
    ensures turn <= i
  {
    if i < turn { KeptGoingAt(lim, ticks, turn, i); }
  }

  /** ... so what ends it otherwise is done to a child that is alive and has delivered nothing. */
  lemma InterruptsALiveChild(ticks: seq<Tick>, turn: nat)
    ensures Interrupts(ticks, turn) <==> turn < |ticks| && ticks[turn].alive && !ticks[turn].delivered
  {}

  /** What an overrun is: a control answer that settled the delivery, and an exception after it. */
  lemma OverrunMeans<R>(lim: Limits, rec: Record<R>, f: Fault) returns (turn: nat)
    requires Overran(lim, rec, f)
    ensures rec.ending.terminating.Some? || rec.ending.closing.Some?
    ensures turn < |rec.ticks| && rec.ticks[turn].alive && !rec.ticks[turn].delivered
    ensures rec.ticks[turn].control == Raised(f) || (rec.ticks[turn].control == Ok(Malformed) && f == Protocol)
  {
    turn :| Interrupts(rec.ticks, turn) && Sees(lim, rec, turn, ControlFailed(f));
  }

  /** A total timeout is real: some reading of the clock was at or past the deadline. */
  lemma TimeoutIsReal<R>(lim: Limits, rec: Record<R>, turn: nat)
    requires Sees(lim, rec, turn, TotalTimeout)
    ensures lim.deadline.Some? && turn < |rec.ticks|
    ensures rec.ticks[turn].now >= lim.deadline.value || rec.late >= lim.deadline.value
  {}

  /** A force stop was asked for at the turn that ended the loop ... */
  lemma ForceIsAsked<R>(lim: Limits, rec: Record<R>, turn: nat)
    requires Sees(lim, rec, turn, ForceStopped)
    ensures turn < |rec.ticks| && rec.ticks[turn].control.Ok?
    ensures var c := rec.ticks[turn].control.value; c.Flags? && c.force
  {}

  /** ... and ends it at once: a turn that reads the flag is the last one. */
  lemma ForceEndsTheLoop(lim: Limits, ticks: seq<Tick>, turn: nat, i: nat, stop: bool, cancel: bool)
    requires Stops(lim, ticks, turn) && i < |ticks| && Consults(lim, WatchAt(lim, ticks, i), ticks[i])
    requires ticks[i].control == Ok(Flags(stop, cancel, true))
    ensures turn <= i
  {
    if i < turn { KeptGoingAt(lim, ticks, turn, i); }
  }

  /** A cancel flag without force is passed on to a child that accepts it, and the loop waits. */
  lemma CancelIsTold(lim: Limits, ticks: seq<Tick>, i: nat, stop: bool)
    requires i < |ticks| && Consults(lim, WatchAt(lim, ticks, i), ticks[i])
    requires ticks[i].control == Ok(Flags(stop, true, false)) && ticks[i].accepts
    ensures Stays(lim, WatchAt(lim, ticks, i), ticks[i])
    ensures Requested(WatchAt(lim, ticks, i)) == [] && Requested(WatchAt(lim, ticks, i + 1)) == [RequestCancel]
    ensures WatchAt(lim, ticks, i + 1).cancelSince == Some(ticks[i].now)
  {}

  /** Clear flags change nothing but the time of the last reading. */
  lemma ClearChangesNothing(lim: Limits, ticks: seq<Tick>, i: nat, stop: bool)
    requires i < |ticks| && Consults(lim, WatchAt(lim, ticks, i), ticks[i])
    requires ticks[i].control == Ok(Flags(stop, false, false))
    ensures Stays(lim, WatchAt(lim, ticks, i), ticks[i])
    ensures WatchAt(lim, ticks, i + 1) == Watch(ticks[i].now, None)
  {}

  /** An unanswered or garbled reading ends the loop as that fault. */
  lemma FaultIsReported<R>(lim: Limits, rec: Record<R>, turn: nat, f: Fault)
    requires Sees(lim, rec, turn, ControlFailed(f))
    ensures turn < |rec.ticks|
    ensures rec.ticks[turn].control == Raised(f) || (rec.ticks[turn].control == Ok(Malformed) && f == Protocol)
  {}

  /** The loop took up a cancellation at turn `j`. */
  ghost predicate Cancels(lim: Limits, ticks: seq<Tick>, j: nat)
    requires j < |ticks|
  {
    PollDue(lim, WatchAt(lim, ticks, j), ticks[j].now) && Says(ticks[j], Cancel)
  }

  /** The clock starts at or after time zero and never goes back. */
  ghost predicate Forward(ticks: seq<Tick>) {
    && (ticks != [] ==> ticks[0].now >= 0)
    && forall i, j :: 0 <= i <= j < |ticks| ==> ticks[i].now <= ticks[j].now
  }

  /** Control is never remembered later than the turn before. */
  lemma {:induction false} PollIsPast(lim: Limits, ticks: seq<Tick>, i: nat)
    requires Forward(ticks) && i < |ticks|
    ensures WatchAt(lim, ticks, i + 1).lastPoll <= ticks[i].now
  {
    if i > 0 { PollIsPast(lim, ticks, i - 1); }
  }

  /** Between any two turns of an uncancelled loop that are at least one polling interval
      apart, control is consulted at least once: a force stop cannot be overlooked for longer. */
  lemma {:induction false} ControlIsConsulted(lim: Limits, ticks: seq<Tick>, turn: nat, i: nat, j: nat)
    requires Stops(lim, ticks, turn) && i < j < turn && Forward(ticks)
    requires ticks[j].now - ticks[i].now >= lim.pollEvery
    requires forall m :: i <= m <= j ==> WatchAt(lim, ticks, m).cancelSince.None?
    ensures exists m :: i < m <= j && Consults(lim, WatchAt(lim, ticks, m), ticks[m])
  {
    var n := i + 1;
    PollIsPast(lim, ticks, i);
    while n < j && !PollDue(lim, WatchAt(lim, ticks, n), ticks[n].now)
      invariant i < n <= j
      invariant WatchAt(lim, ticks, n).lastPoll <= ticks[i].now
    {
      n := n + 1;
    }
    assert WatchAt(lim, ticks, n).cancelSince.None?;
    KeptGoingAt(lim, ticks, turn, n);
    assert Consults(lim, WatchAt(lim, ticks, n), ticks[n]);
  }

  /** The API loop of `_execute_isolated`: cancellation does not interrupt the request, and
      the deadline is read again (`checked`) after control was consulted. */
  datatype ApiTick = ApiTick(alive: bool, delivered: bool, now: int, control: Reply<Control>, checked: int)

  datatype ApiRecord<R> = ApiRecord(ticks: seq<ApiTick>, outcome: Option<R>, late: int, ending: Ending)

  function ApiRemember(pollEvery: int, lastPoll: int, now: int): int {
    if now - lastPoll >= pollEvery then now else lastPoll
  }

  ghost function ApiPollAt(pollEvery: int, ticks: seq<ApiTick>, i: nat): int
    requires i <= |ticks|
  {
    if i == 0 then 0 else ApiRemember(pollEvery, ApiPollAt(pollEvery, ticks, i - 1), ticks[i - 1].now)
  }

  predicate ApiStays(lim: Limits, lastPoll: int, t: ApiTick) {
    && t.alive && !t.delivered
    && (t.now - lastPoll >= lim.pollEvery ==>
          Demands(t.control, Clear) || Demands(t.control, Cancel))
    && !Passed(lim.deadline, t.checked)
  }

  /** When a quiet turn terminates the child, and with which exit. */
  ghost predicate ApiAbortsWith<R>(lim: Limits, lastPoll: int, t: ApiTick, exit: Exit<R>) {
    var due := t.now - lastPoll >= lim.pollEvery;
    match exit
    case ControlFailed(f) => due && Faults(t.control, f)
    case ForceStopped => due && Demands(t.control, Force)
    case TotalTimeout =>
      && Passed(lim.deadline, t.checked)
      && (due ==> Demands(t.control, Clear) || Demands(t.control, Cancel))
    case _ => false
  }

  ghost predicate ApiKeepsGoing(lim: Limits, ticks: seq<ApiTick>, n: nat)
    requires n <= |ticks|
  {
    n == 0 || (ApiKeepsGoing(lim, ticks, n - 1) && ApiStays(lim, ApiPollAt(lim.pollEvery, ticks, n - 1), ticks[n - 1]))
  }

  method ApiTurn<R>(lim: Limits, lastPoll: int, t: ApiTick, process: Child)
    returns (polled: int, exit: Option<Exit<R>>)
    requires t.alive && !t.delivered
    modifies process
    ensures exit.None? <==> ApiStays(lim, lastPoll, t)
    ensures polled == ApiRemember(lim.pollEvery, lastPoll, t.now)
    ensures exit.None? ==> process.commands == old(process.commands)
    ensures exit.Some? ==>
              ApiAbortsWith(lim, lastPoll, t, exit.value) && process.commands == old(process.commands) + [Terminate]
  {
    polled, exit := lastPoll, None;
    if t.now - lastPoll >= lim.pollEvery {
      polled := t.now;
      var demand := CheckControl(t.control);
      if demand.Raised? {
        process.Tell(Terminate);
        return polled, Some(ControlFailed(demand.fault));
      }
      if demand.value == Force {
        process.Tell(Terminate);
        return polled, Some(ForceStopped);
      }
    }
    if Passed(lim.deadline, t.checked) {
      process.Tell(Terminate);
      exit := Some(TotalTimeout);
    }
  }

  predicate ApiInterrupts(ticks: seq<ApiTick>, turn: nat) {
    turn < |ticks| && ticks[turn].alive && !ticks[turn].delivered
  }

  /** How the API loop itself ends. */
  ghost predicate ApiSees<R>(lim: Limits, rec: ApiRecord<R>, turn: nat, seen: Exit<R>) {
    && turn <= |rec.ticks| && ApiKeepsGoing(lim, rec.ticks, turn)
    && (seen.StillRunning? <==> turn == |rec.ticks|)
    && (ApiInterrupts(rec.ticks, turn) ==>
          ApiAbortsWith(lim, ApiPollAt(lim.pollEvery, rec.ticks, turn), rec.ticks[turn], seen))
    && (turn < |rec.ticks| && !ApiInterrupts(rec.ticks, turn) ==>
          seen == if rec.outcome.Some? then Delivered(rec.outcome.value)
                  else if Passed(lim.deadline, rec.late) then TotalTimeout else Broken)
  }

  lemma {:induction false} ApiKeptGoingAt(lim: Limits, ticks: seq<ApiTick>, n: nat, i: nat)
    requires i < n <= |ticks| && ApiKeepsGoing(lim, ticks, n)
    ensures ApiStays(lim, ApiPollAt(lim.pollEvery, ticks, i), ticks[i])
  {
    if i < n - 1 { ApiKeptGoingAt(lim, ticks, n - 1, i); }
  }

  lemma ApiSeesOne<R>(lim: Limits, rec: ApiRecord<R>, i: nat, a: Exit<R>, j: nat, b: Exit<R>)
    requires ApiSees(lim, rec, i, a) && ApiSees(lim, rec, j, b)
    ensures i == j && a == b
  {
    if i < j { ApiKeptGoingAt(lim, rec.ticks, j, i); }
    if j < i { ApiKeptGoingAt(lim, rec.ticks, i, j); }
  }

  ghost predicate ApiOverran<R>(lim: Limits, rec: ApiRecord<R>, f: Fault) {
    && (rec.ending.terminating.Some? || rec.ending.closing.Some?)
    && exists turn :: ApiInterrupts(rec.ticks, turn) && ApiSees(lim, rec, turn, ControlFailed(f))
  }

  /** The isolated branch of `_execute_isolated`; again no child outlives the loop unless
      closing it raised. */
  method SuperviseApi<R>(lim: Limits, rec: ApiRecord<R>)
    returns (exit: Exit<R>, turn: nat, ghost seen: Exit<R>, ghost commands: seq<Command>, ghost outlives: bool)
    ensures ApiSees(lim, rec, turn, seen)
    ensures exit == Leaves(seen, RaisedBy(rec.ending, |rec.ticks|, turn, ApiInterrupts(rec.ticks, turn)), true)
    ensures forall f :: ApiOverran(lim, rec, f) <==> exit.ProcessFailed? && exit.settled == Some(f)
    ensures commands == (if ApiInterrupts(rec.ticks, turn) then [Terminate] else []) +
                        (if Over(rec.ending, |rec.ticks|, turn) then [Close] else [])
    ensures outlives ==> exit.StillRunning? || rec.ending.closing.Some?
  {
    var process := new Child();
    var found;
    found, turn := WatchApi(lim, rec, process);
    seen, exit := found, found;
    if Over(rec.ending, |rec.ticks|, turn) {
      process.Shut(rec.ending.closing);
      exit := Leaves(found, RaisedBy(rec.ending, |rec.ticks|, turn, ApiInterrupts(rec.ticks, turn)), true);
    }
    forall f, i | ApiInterrupts(rec.ticks, i) && ApiSees(lim, rec, i, ControlFailed(f))
      ensures i == turn && seen == ControlFailed(f)
    {
      ApiSeesOne(lim, rec, i, ControlFailed(f), turn, seen);
    }
    commands, outlives := process.commands, process.running;
  }

  method WatchApi<R>(lim: Limits, rec: ApiRecord<R>, process: Child) returns (exit: Exit<R>, turn: nat)
    requires process.commands == []
    modifies process
    ensures ApiSees(lim, rec, turn, exit)
    ensures process.commands == if ApiInterrupts(rec.ticks, turn) then [Terminate] else []
  {
    var lastPoll := 0;
    turn := 0;
    while turn < |rec.ticks| && rec.ticks[turn].alive && !rec.ticks[turn].delivered
      invariant turn <= |rec.ticks|
      invariant lastPoll == ApiPollAt(lim.pollEvery, rec.ticks, turn)
      invariant ApiKeepsGoing(lim, rec.ticks, turn)
      invariant process.commands == []
    {
      var polled, abort := ApiTurn<R>(lim, lastPoll, rec.ticks[turn], process);
      if abort.Some? { return abort.value, turn; }
      lastPoll := polled;
      turn := turn + 1;
    }
    exit := if turn == |rec.ticks| then StillRunning
            else if rec.outcome.Some? then Delivered(rec.outcome.value)
            else if Passed(lim.deadline, rec.late) then TotalTimeout else Broken;
  }

  /** One turn of the headed-recording loop, which has no deadline of its own: the local
      stop event, and whether the child understands stop and cancel requests. */
  datatype RecordingTick = RecordingTick(alive: bool, delivered: bool, now: int, stopEvent: bool,
                                         control: Reply<Control>, canStop: bool, canCancel: bool)

  datatype RecordingRecord<R> = RecordingRecord(ticks: seq<RecordingTick>, outcome: Option<R>, ending: Ending)

  datatype RecordingWatch = RecordingWatch(lastPoll: int, stopping: bool, cancelling: bool, giveUp: Option<int>)

  /** The local stop event is taken up before anything else in a turn. */
  function HeardStop(lim: Limits, w: RecordingWatch, t: RecordingTick): RecordingWatch {
    if t.stopEvent && !w.stopping && t.canStop
    then w.(stopping := true, giveUp := Some(t.now + lim.cancelWait)) else w
  }

  predicate RecordingConsults(lim: Limits, w: RecordingWatch, t: RecordingTick) {
    t.alive && !t.delivered && HeardStop(lim, w, t).giveUp.None? && t.now - w.lastPoll >= lim.pollEvery
  }

  function RecordingNext(lim: Limits, w: RecordingWatch, t: RecordingTick): RecordingWatch {
    var h := HeardStop(lim, w, t);
    if !RecordingConsults(lim, w, t) then h
    else if t.control.Ok? && t.control.value.Flags? && t.control.value.cancel then
      h.(lastPoll := t.now, cancelling := true, giveUp := Some(t.now + lim.cancelWait))
    else if t.control.Ok? && t.control.value.Flags? && t.control.value.stop then
      h.(lastPoll := t.now, stopping := true, giveUp := Some(t.now + lim.cancelWait))
    else h.(lastPoll := t.now)
  }

  ghost function RecordingWatchAt(lim: Limits, ticks: seq<RecordingTick>, i: nat): RecordingWatch
    requires i <= |ticks|
  {
    if i == 0 then RecordingWatch(0, false, false, None)
    else RecordingNext(lim, RecordingWatchAt(lim, ticks, i - 1), ticks[i - 1])
  }

  predicate RecordingStays(lim: Limits, w: RecordingWatch, t: RecordingTick) {
    var h := HeardStop(lim, w, t);
    && t.alive && !t.delivered
    && (h.giveUp.Some? ==> t.now < h.giveUp.value)
    && (RecordingConsults(lim, w, t) ==>
          t.control.Ok? && t.control.value.Flags? &&
          if t.control.value.cancel then t.canCancel else t.control.value.stop ==> t.canStop)
  }

  ghost predicate RecordingKeepsGoing(lim: Limits, ticks: seq<RecordingTick>, n: nat)
    requires n <= |ticks|
  {
    n == 0 || (RecordingKeepsGoing(lim, ticks, n - 1) &&
               RecordingStays(lim, RecordingWatchAt(lim, ticks, n - 1), ticks[n - 1]))
  }

  /** What a control answer without flags does: a recording reads its fields directly, so an
      answer of another type fails like any unknown error. */
  function RecordingFault(r: Reply<Control>): Option<Fault> {
    match r
    case Raised(f) => Some(f)
    case Ok(Malformed) => Some(Unknown)
    case Ok(_) => None
  }

  /** Why a turn ends the recording loop. */
  ghost predicate RecordingAborts<R>(lim: Limits, w: RecordingWatch, t: RecordingTick, exit: Exit<R>) {
    match exit
    case ControlFailed(f) => RecordingConsults(lim, w, t) && RecordingFault(t.control) == Some(f)
    case CancelUnresponsive => !RecordingStays(lim, w, t) && RecordingNext(lim, w, t).cancelling
    case StopUnresponsive =>
      !RecordingStays(lim, w, t) && RecordingNext(lim, w, t).stopping && !RecordingNext(lim, w, t).cancelling
    case _ => false
  }

  predicate WindowMatches(w: RecordingWatch) { w.giveUp.Some? <==> w.stopping || w.cancelling }

  /** The child was asked exactly for what the loop remembers, and not terminated. */
  predicate AskedFor(w: RecordingWatch, commands: seq<Command>) {
    && (RequestCancel in commands <==> w.cancelling)
    && (RequestStop in commands <==> w.stopping)
    && Terminate !in commands && Close !in commands
  }

  /** An unknown error passes the except clauses of the loop by: the child is not told to
      terminate there, closing it does that. */
  predicate Slips<R>(exit: Exit<R>) { exit.ControlFailed? && exit.fault.Unknown? }

  /** One turn of the loop body: the new memory, or the exit. */
  method RecordingTurn<R>(lim: Limits, w: RecordingWatch, t: RecordingTick, process: Child)
    returns (next: RecordingWatch, exit: Option<Exit<R>>)
    requires t.alive && !t.delivered && WindowMatches(w) && AskedFor(w, process.commands)
    modifies process
    ensures exit.None? <==> RecordingStays(lim, w, t)
    ensures exit.None? ==> next == RecordingNext(lim, w, t) && WindowMatches(next) && AskedFor(next, process.commands)
    ensures exit.Some? ==> RecordingAborts(lim, w, t, exit.value) && Close !in process.commands
    ensures exit.Some? ==> (Terminate in process.commands <==> !Slips(exit.value))
  {
    next, exit := w, None;
    if t.stopEvent && !w.stopping && t.canStop {
      process.Tell(RequestStop);
      next := w.(stopping := true, giveUp := Some(t.now + lim.cancelWait));
    }
    if next.giveUp.Some? {
      if t.now >= next.giveUp.value {
        process.Tell(Terminate);
        exit := Some(if next.cancelling then CancelUnresponsive else StopUnresponsive);
      }
    } else if t.now - next.lastPoll >= lim.pollEvery {
      next, exit := ConsultRecording(lim, next.(lastPoll := t.now), t, process);
    }
  }

  /** The control endpoint of a recording, and what it makes the parent do. */
  method ConsultRecording<R>(lim: Limits, w: RecordingWatch, t: RecordingTick, process: Child)
    returns (next: RecordingWatch, exit: Option<Exit<R>>)
    requires !w.stopping && !w.cancelling && AskedFor(w, process.commands)
    modifies process
    ensures var f := RecordingFault(t.control);
            if f.Some? then exit == Some(ControlFailed(f.value))
            else if t.control.value.cancel then
              if !t.canCancel then exit == Some(CancelUnresponsive)
              else exit.None? && next == w.(cancelling := true, giveUp := Some(t.now + lim.cancelWait))
            else if t.control.value.stop then
              if !t.canStop then exit == Some(StopUnresponsive)
              else exit.None? && next == w.(stopping := true, giveUp := Some(t.now + lim.cancelWait))
            else exit.None? && next == w
    ensures exit.None? ==> AskedFor(next, process.commands)
    ensures exit.Some? ==> Close !in process.commands && (Terminate in process.commands <==> !Slips(exit.value))
  {
    next, exit := w, None;
    if t.control.Raised? {
      if !t.control.fault.Unknown? { process.Tell(Terminate); }
      exit := Some(ControlFailed(t.control.fault));
    } else if t.control.value.Malformed? {
      exit := Some(ControlFailed(Unknown));
    } else if t.control.value.cancel {
      if !t.canCancel {
        process.Tell(Terminate);
        return next, Some(CancelUnresponsive);
      }
      process.Tell(RequestCancel);
      next := w.(cancelling := true, giveUp := Some(t.now + lim.cancelWait));
    } else if t.control.value.stop {
      if !t.canStop {
        process.Tell(Terminate);
        return next, Some(StopUnresponsive);
      }
      process.Tell(RequestStop);
      next := w.(stopping := true, giveUp := Some(t.now + lim.cancelWait));
    }
  }

  predicate RecordingInterrupts(ticks: seq<RecordingTick>, turn: nat) {
    turn < |ticks| && ticks[turn].alive && !ticks[turn].delivered
  }

  /** How the recording loop itself ends. */
  ghost predicate RecordingSees<R>(lim: Limits, rec: RecordingRecord<R>, turn: nat, seen: Exit<R>) {
    && turn <= |rec.ticks| && RecordingKeepsGoing(lim, rec.ticks, turn)
    && (seen.StillRunning? <==> turn == |rec.ticks|)
    && (RecordingInterrupts(rec.ticks, turn) ==>
          RecordingAborts(lim, RecordingWatchAt(lim, rec.ticks, turn), rec.ticks[turn], seen))
    && (turn < |rec.ticks| && !RecordingInterrupts(rec.ticks, turn) ==>
          seen == if rec.outcome.Some? then Delivered(rec.outcome.value) else Broken)
  }

  lemma {:induction false} RecordingKeptGoingAt(lim: Limits, ticks: seq<RecordingTick>, n: nat, i: nat)
    requires i < n <= |ticks| && RecordingKeepsGoing(lim, ticks, n)
    ensures RecordingStays(lim, RecordingWatchAt(lim, ticks, i), ticks[i])
  {
    if i < n - 1 { RecordingKeptGoingAt(lim, ticks, n - 1, i); }
  }

  lemma {:induction false} WindowMatchesAt(lim: Limits, ticks: seq<RecordingTick>, i: nat)
    requires i <= |ticks|
    ensures WindowMatches(RecordingWatchAt(lim, ticks, i))
  {
    if i > 0 { WindowMatchesAt(lim, ticks, i - 1); }
  }

  lemma RecordingSeesOne<R>(lim: Limits, rec: RecordingRecord<R>, i: nat, a: Exit<R>, j: nat, b: Exit<R>)
    requires RecordingSees(lim, rec, i, a) && RecordingSees(lim, rec, j, b)
    ensures i == j && a == b
  {
    if i < j { RecordingKeptGoingAt(lim, rec.ticks, j, i); }
    if j < i { RecordingKeptGoingAt(lim, rec.ticks, i, j); }
    WindowMatchesAt(lim, rec.ticks, i);
  }

  /** The child of an aborted recording was told to terminate before it is closed. */
  predicate Terminated<R>(ticks: seq<RecordingTick>, turn: nat, seen: Exit<R>) {
    RecordingInterrupts(ticks, turn) && !Slips(seen)
  }

  /** A recording settles after terminating, so only closing can raise after a settlement. */
  ghost predicate RecordingOverran<R>(lim: Limits, rec: RecordingRecord<R>, f: Fault) {
    && rec.ending.terminating.None? && rec.ending.closing.Some? && !f.Unknown?
    && exists turn :: RecordingInterrupts(rec.ticks, turn) && RecordingSees(lim, rec, turn, ControlFailed(f))
  }

  /** `_execute_web_recording_isolated`, which settles a control fault only after the child was
      terminated.  No child outlives the loop unless closing it raised. */
  method SuperviseRecording<R>(lim: Limits, rec: RecordingRecord<R>)
    returns (exit: Exit<R>, turn: nat, ghost seen: Exit<R>, ghost commands: seq<Command>, ghost outlives: bool)
    ensures RecordingSees(lim, rec, turn, seen)
    ensures exit == Leaves(seen, RaisedBy(rec.ending, |rec.ticks|, turn, Terminated(rec.ticks, turn, seen)),
                           rec.ending.terminating.None? && !Slips(seen))
    ensures forall f :: RecordingOverran(lim, rec, f) <==> exit.ProcessFailed? && exit.settled == Some(f)
    ensures Terminate in commands <==> Terminated(rec.ticks, turn, seen)
    ensures Close in commands <==> Over(rec.ending, |rec.ticks|, turn)
    ensures Close in commands ==> commands[|commands| - 1] == Close
    ensures outlives ==> exit.StillRunning? || rec.ending.closing.Some?
  {
    var process := new Child();
    var found;
    found, turn := WatchRecording(lim, rec, process);
    seen, exit := found, found;
    if Over(rec.ending, |rec.ticks|, turn) {
      process.Shut(rec.ending.closing);
      exit := Leaves(found, RaisedBy(rec.ending, |rec.ticks|, turn, Terminated(rec.ticks, turn, found)),
                     rec.ending.terminating.None? && !Slips(found));
    }
    forall f, i | RecordingInterrupts(rec.ticks, i) && RecordingSees(lim, rec, i, ControlFailed(f))
      ensures i == turn && seen == ControlFailed(f)
    {
      RecordingSeesOne(lim, rec, i, ControlFailed(f), turn, seen);
    }
    commands, outlives := process.commands, process.running;
  }

  method WatchRecording<R>(lim: Limits, rec: RecordingRecord<R>, process: Child) returns (exit: Exit<R>, turn: nat)
    requires process.commands == []
    modifies process
    ensures RecordingSees(lim, rec, turn, exit)
    ensures Close !in process.commands && (Terminate in process.commands <==> Terminated(rec.ticks, turn, exit))
  {
    var ticks := rec.ticks;
    var w := RecordingWatch(0, false, false, None);
    turn := 0;
    while turn < |ticks| && ticks[turn].alive && !ticks[turn].delivered
      invariant turn <= |ticks|
      invariant w == RecordingWatchAt(lim, ticks, turn) && WindowMatches(w)
      invariant RecordingKeepsGoing(lim, ticks, turn)
      invariant AskedFor(w, process.commands)
    {
      var next, abort := RecordingTurn<R>(lim, w, ticks[turn], process);
      if abort.Some? { return abort.value, turn; }
      w := next;
      turn := turn + 1;
    }
    exit := if turn == |ticks| then StillRunning
            else if rec.outcome.Some? then Delivered(rec.outcome.value) else Broken;
  }
}
