/** Runner, broker and backend composed for one web run.

    The Runner is any process that follows the web protocol of module Delivery on each
    delivery; one Runner consumes its own queue with prefetch one.  The backend is the state
    machine of the acceptance fixture.  The broker holds one message.  Every interleaving of
    disconnects, Runner restarts, lost requests, lost replies and redeliveries is a run.

    One client call may send its request several times (the HTTP client repeats a request
    after a transient failure), up to `sends` times; each copy may reach the backend, and the
    answer to the last one may be lost.  Where the network `lingers`, a copy may also reach the
    backend later, after its caller has given up. */
module Broker {
  import opened Wire
  import opened Delivery

  datatype Net = Net(sends: nat, lingers: bool)

  /** The backend's counters for the run; `conflicts` are claims refused because the run was
      terminal, `late...` count other requests served after it was. */
  datatype Backend = Backend(claims: nat, plans: nat, starts: nat, completions: nat, terminal: bool,
                             conflicts: nat, latePlans: nat, lateStarts: nat, lateCompletions: nat)

  /** Where the message is, as four counts. */
  datatype Queue = Queue(ready: nat, unacked: nat, acked: nat, dead: nat)

  /** The Runner between deliveries, or in one; `attached` while its channel still holds the
      delivery tag. */
  datatype Runner = Idle | Busy(t: seq<Event>, attached: bool)

  /** `flying` are requests on their way whose callers have given up. */
  datatype World = World(queue: Queue, backend: Backend, runner: Runner, flying: multiset<Event>)

  const START := World(Queue(1, 0, 0, 0), Backend(0, 0, 0, 0, false, 0, 0, 0, 0), Idle, multiset{})

  predicate Init(w: World) { w == START }

  // ---------------------------------------------------------------- backend

  function ServeClaims(b: Backend, n: nat): Backend {
    b.(claims := b.claims + n, conflicts := b.conflicts + if b.terminal then n else 0)
  }

  function ServePlans(b: Backend, n: nat): Backend {
    b.(plans := b.plans + n, latePlans := b.latePlans + if b.terminal then n else 0)
  }

  function ServeStarts(b: Backend, n: nat): Backend {
    b.(starts := b.starts + n, lateStarts := b.lateStarts + if b.terminal then n else 0)
  }

  /** The fixture accepts only an error-free SUCCESS; the first acceptance makes the run terminal. */
  predicate Acceptable(sent: Sent) { sent.Sent? && sent.outcome == SUCCESS && sent.why == NoError }

  function ServeCompletions(b: Backend, sent: Sent, n: nat): Backend {
    if n == 0 || !Acceptable(sent) then b
    else b.(completions := b.completions + n, terminal := true,
            lateCompletions := b.lateCompletions + if b.terminal then n else n - 1)
  }

  /** The backend after `n` copies of the request of event `e` reached it. */
  function Serve(b: Backend, e: Event, n: nat): Backend {
    match e
    case Claim(_) => ServeClaims(b, n)
    case Plan(_) => ServePlans(b, n)
    case Start(_, _) => ServeStarts(b, n)
    case Completion(sent, _) => ServeCompletions(b, sent, n)
    case _ => b
  }

  /** Could the Runner see this answer after `n` copies were served?  A positive answer is the
      backend's own.  A claim is answered with ASSIGNED or, by a terminal run, with a conflict,
      which reaches the Runner as a protocol error; any other fault is a reply that was lost or
      never given. */
  predicate Answers(b: Backend, e: Event, n: nat) {
    match e
    case Claim(Ok(v)) => n > 0 && !b.terminal && v.status == ASSIGNED
    case Claim(Raised(f)) => f == Protocol ==> n > 0
    case Plan(Ok(_)) => n > 0
    case Start(_, Ok(w)) => n > 0 && w == RUNNING
    case Asked(_, Ok(c)) => c == Flags(false, false, false)
    case Evaluated(_, Ok(_)) => false
    case Completion(sent, Ok(c)) => n > 0 && Acceptable(sent) && c == Completed(SUCCESS, SUCCESS, SUCCESS)
    case _ => true
  }

  // ---------------------------------------------------------------- steps

  predicate Deliver(w: World, w': World) {
    && w.runner == Idle && w.queue.ready > 0
    && w' == w.(queue := w.queue.(ready := w.queue.ready - 1, unacked := w.queue.unacked + 1),
                runner := Busy([Envelope(true), Slot(true)], true))
  }

  /** A step of the handler: a backend call of which `n` copies are served and `late` copies
      stay on their way, or work of its own. */
  ghost predicate Act(w: World, w': World, e: Event, n: nat, late: nat, net: Net) {
    && w.runner.Busy? && w.runner.t != [] && !e.Settle?
    && Follows(WEB, Last(w.runner.t), e)
    && n + late <= net.sends && (late > 0 ==> net.lingers)
    && Answers(w.backend, e, n)
    && w' == World(w.queue, Serve(w.backend, e, n), w.runner.(t := w.runner.t + [e]), w.flying + multiset{}[e := late])
  }

  /** A request whose caller has given up arrives. */
  predicate Arrive(w: World, w': World, e: Event) {
    e in w.flying && w' == w.(backend := Serve(w.backend, e, 1), flying := w.flying - multiset{e})
  }

  function Settled(q: Queue, s: Settlement): Queue
    requires q.unacked > 0
  {
    var rest := q.(unacked := q.unacked - 1);
    match s
    case Ack => rest.(acked := q.acked + 1)
    case NackRequeue => rest.(ready := q.ready + 1)
    case Reject => rest.(dead := q.dead + 1)
  }

  /** The settlement reaches the broker only while the delivery tag is valid. */
  ghost predicate Settling(w: World, w': World, o: Outcome) {
    && w.runner.Busy? && w.runner.t != [] && Follows(WEB, Last(w.runner.t), Settle(o))
    && (w.runner.attached ==> w.queue.unacked > 0)
    && w' == w.(queue := if w.runner.attached then Settled(w.queue, SettlementOf(o)) else w.queue, runner := Idle)
  }

  /** The broker drops the connection: an unacked message goes back to its queue while the
      handler keeps running without a valid tag. */
  predicate Disconnect(w: World, w': World) {
    && w.runner.Busy? && w.runner.attached && w.queue.unacked > 0
    && w' == w.(queue := w.queue.(unacked := w.queue.unacked - 1, ready := w.queue.ready + 1),
                runner := w.runner.(attached := false))
  }

  /** The Runner process dies. */
  predicate Crash(w: World, w': World) {
    && w.runner.Busy?
    && (w.runner.attached ==> w.queue.unacked > 0)
    && w' == w.(queue := if w.runner.attached
                         then w.queue.(unacked := w.queue.unacked - 1, ready := w.queue.ready + 1) else w.queue,
                runner := Idle)
  }

  ghost predicate Step(w: World, w': World, net: Net) {
    || Deliver(w, w')
    || (exists e, n, late :: Act(w, w', e, n, late, net))
    || (exists e :: Arrive(w, w', e))
    || (exists o :: Settling(w, w', o))
    || Disconnect(w, w')
    || Crash(w, w')
  }

  ghost predicate StepAt(ws: seq<World>, net: Net, i: nat)
    requires 0 < i < |ws|
  {
    Step(ws[i - 1], ws[i], net)
  }

  ghost predicate Run(ws: seq<World>, net: Net) {
    && ws != [] && Init(ws[0])
    && forall i :: 0 < i < |ws| ==> StepAt(ws, net, i)
  }

  // ---------------------------------------------------------------- invariant

  /** What holds on every network. */
  ghost predicate Core(w: World) {
    && w.queue.ready + w.queue.unacked + w.queue.acked + w.queue.dead == 1
    && (w.queue.unacked == 1 <==> w.runner.Busy? && w.runner.attached)
    && (w.runner.Busy? ==> Conforms(WEB, w.runner.t))
    && (w.backend.terminal <==> w.backend.completions > 0)
    && (w.runner.Busy? && Last(w.runner.t).Completion? && Last(w.runner.t).answer.Ok? ==> w.backend.terminal)
    && (w.runner.Busy? && Last(w.runner.t).Claim? && Last(w.runner.t).claim.Ok? ==>
          Last(w.runner.t).claim.value.status == ASSIGNED)
    && (w.queue.acked > 0 ==> w.backend.terminal)
  }

  /** A terminal run can only be met by a handler that has not claimed yet, whose claim
      failed, or that has just sent the completion. */
  predicate Harmless(e: Event) {
    e.Envelope? || e.Slot? || (e.Claim? && e.claim.Raised?) || e.Completion?
  }

  /** What also holds where no request outlives its call. */
  ghost predicate Prompt(w: World, sends: nat) {
    && w.flying == multiset{}
    && w.backend.completions <= sends
    && w.backend.latePlans == 0 && w.backend.lateStarts == 0
    && w.backend.lateCompletions == (if w.backend.completions == 0 then 0 else w.backend.completions - 1)
    && (w.backend.terminal && w.runner.Busy? ==> w.runner.t != [] && Harmless(Last(w.runner.t)))
  }

  /** No request can outlive its call. */
  predicate Calm(net: Net) { !net.lingers || net.sends == 0 }

  ghost predicate Inv(w: World, net: Net) { Core(w) && (Calm(net) ==> Prompt(w, net.sends)) }

  /** What may follow an event that a terminal run tolerates. */
  lemma HarmlessNext(a: Event, b: Event)
    requires Harmless(a) && Follows(WEB, a, b)
    ensures b.Slot? || b.Claim? || b.Settle?
    ensures a.Completion? || (a.Claim? && a.claim.Raised?) ==> b.Settle?
  {}

  lemma AckNeedsConfirmation(a: Event)
    requires Follows(WEB, a, Settle(Acked))
    ensures (a.Completion? && a.answer.Ok?) || (a.Claim? && a.claim.Ok? && a.claim.value.status == CANCELLED)
  {}

  lemma ActKeepsCore(w: World, w': World, e: Event, n: nat, late: nat, net: Net)
    requires Core(w) && Act(w, w', e, n, late, net)
    ensures Core(w')
  {
    Extend(RuleOf(WEB), w.runner.t, e);
  }

  lemma ActKeepsPrompt(w: World, w': World, e: Event, n: nat, late: nat, net: Net)
    requires Core(w) && Calm(net) && Prompt(w, net.sends) && Act(w, w', e, n, late, net)
    ensures Prompt(w', net.sends)
  {
    assert Last(w'.runner.t) == e;
    if w.backend.terminal { HarmlessNext(Last(w.runner.t), e); }
    assert multiset{}[e := 0] == multiset{};
  }

  lemma SettlingKeepsInv(w: World, w': World, o: Outcome, net: Net)
    requires Inv(w, net) && Settling(w, w', o)
    ensures Inv(w', net)
  {
    if o == Acked { AckNeedsConfirmation(Last(w.runner.t)); }
  }

  lemma StartsConforming()
    ensures Conforms(WEB, [Envelope(true), Slot(true)])
  {
    Extend(RuleOf(WEB), [], Envelope(true));
    Extend(RuleOf(WEB), [Envelope(true)], Slot(true));
    assert [] + [Envelope(true)] == [Envelope(true)];
    assert [Envelope(true)] + [Slot(true)] == [Envelope(true), Slot(true)];
  }

  lemma DeliverKeepsInv(w: World, w': World, net: Net)
    requires Inv(w, net) && Deliver(w, w')
    ensures Inv(w', net)
  {
    StartsConforming();
  }

  lemma ArriveKeepsInv(w: World, w': World, e: Event, net: Net)
    requires Inv(w, net) && Arrive(w, w', e)
    ensures Inv(w', net)
  {}

  lemma StepKeepsInv(w: World, w': World, net: Net)
    requires Inv(w, net) && Step(w, w', net)
    ensures Inv(w', net)
  {
    if Deliver(w, w') {
      DeliverKeepsInv(w, w', net);
    } else if e, n, late :| Act(w, w', e, n, late, net) {
      ActKeepsCore(w, w', e, n, late, net);
      if Calm(net) { ActKeepsPrompt(w, w', e, n, late, net); }
    } else if e :| Arrive(w, w', e) {
      ArriveKeepsInv(w, w', e, net);
    } else if o :| Settling(w, w', o) {
      SettlingKeepsInv(w, w', o, net);
    }
  }

  lemma InitHasInv(net: Net)
    ensures Inv(START, net)
  {}

  lemma TakesStep(ws: seq<World>, net: Net, i: nat)
    requires Run(ws, net) && 0 < i < |ws|
    ensures Step(ws[i - 1], ws[i], net)
  {
    assert StepAt(ws, net, i);
  }

  lemma NextHasInv(ws: seq<World>, net: Net, i: nat)
    requires Run(ws, net) && 0 < i < |ws| && Inv(ws[i - 1], net)
    ensures Inv(ws[i], net)
  {
    TakesStep(ws, net, i);
    StepKeepsInv(ws[i - 1], ws[i], net);
  }

  /** Every reachable state satisfies the invariant. */
  lemma {:induction false} Safety(ws: seq<World>, net: Net, i: nat)
    requires Run(ws, net) && i < |ws|
    ensures Inv(ws[i], net)
  {
    if i == 0 {
      InitHasInv(net);
    } else {
      Safety(ws, net, i - 1);
      NextHasInv(ws, net, i);
    }
  }

  // ---------------------------------------------------------------- a terminal run is final

  /** Nothing but claims was served after the run became terminal. */
  predicate Untouched(b: Backend) { b.latePlans == 0 && b.lateStarts == 0 && b.lateCompletions == 0 }

  /** The message is in exactly one place at any time, and acknowledged only if the run is
      terminal.  Where no request outlives its call, a terminal run is never planned or started
      again, and completed again only by copies of the very call that made it terminal. */
  lemma TerminalIsFinal(ws: seq<World>, net: Net, i: nat)
    requires Run(ws, net) && i < |ws|
    ensures var q := ws[i].queue; q.ready + q.unacked + q.acked + q.dead == 1
    ensures ws[i].queue.acked == 1 ==> ws[i].backend.terminal
    ensures Calm(net) ==> ws[i].backend.latePlans == 0 && ws[i].backend.lateStarts == 0
    ensures Calm(net) ==> ws[i].backend.lateCompletions <= (if net.sends == 0 then 0 else net.sends - 1)
  {
    Safety(ws, net, i);
  }

  /** Where no request outlives its call, the backend of a terminal run changes only by claims. */
  lemma TerminalStep(w: World, w': World, net: Net)
    requires Inv(w, net) && Calm(net) && w.backend.terminal && Step(w, w', net)
    ensures w'.backend == w.backend.(claims := w'.backend.claims, conflicts := w'.backend.conflicts)
  {
    if e, n, late :| Act(w, w', e, n, late, net) {
      HarmlessNext(Last(w.runner.t), e);
    }
  }

  lemma RunStep(ws: seq<World>, net: Net, j: nat)
    requires Run(ws, net) && 0 < j < |ws| && Calm(net)
    ensures ws[j - 1].backend.terminal ==>
              ws[j].backend == ws[j - 1].backend.(claims := ws[j].backend.claims, conflicts := ws[j].backend.conflicts)
  {
    Safety(ws, net, j - 1);
    TakesStep(ws, net, j);
    if ws[j - 1].backend.terminal { TerminalStep(ws[j - 1], ws[j], net); }
  }

  lemma {:induction false} NothingAfterTerminal(ws: seq<World>, net: Net, i: nat, j: nat)
    requires Run(ws, net) && i <= j < |ws| && ws[i].backend.terminal && Calm(net)
    ensures ws[j].backend == ws[i].backend.(claims := ws[j].backend.claims, conflicts := ws[j].backend.conflicts)
    decreases j
  {
    if i < j {
      NothingAfterTerminal(ws, net, i, j - 1);
      RunStep(ws, net, j);
    }
  }

  // ---------------------------------------------------------------- redelivery to a terminal run

  /** A handler that started at a terminal run: its claim is all it ever sends, and a protocol
      error is the conflict the backend has counted since. */
  predicate Turned(w: World, before: nat) {
    && w.backend.terminal && w.backend.conflicts >= before && w.runner.Busy?
    && (w.runner.t == [Envelope(true), Slot(true)]
        || (|w.runner.t| == 3 && w.runner.t[..2] == [Envelope(true), Slot(true)] &&
           RefusedBy(w, before, w.runner.t[2])))
  }

  predicate RefusedBy(w: World, before: nat, e: Event) {
    e.Claim? && e.claim.Raised? && (e.claim.fault == Protocol ==> w.backend.conflicts > before)
  }

  lemma ClaimIsNext(e: Event)
    requires Follows(WEB, Slot(true), e)
    ensures e.Claim?
  {}

  lemma RefusalSettles(f: Fault, e: Event)
    requires Follows(WEB, Claim(Raised(f)), e)
    ensures e == Settle(Strict(f))
  {}

  lemma ClaimTurns(w: World, w': World, e: Event, n: nat, late: nat, net: Net, before: nat)
    requires Turned(w, before) && Act(w, w', e, n, late, net) && |w.runner.t| == 2
    ensures Turned(w', before)
  {
    ClaimIsNext(e);
    assert w'.runner.t[..2] == w.runner.t;
    assert RefusedBy(w', before, w'.runner.t[2]);
  }

  lemma RefusedIsDone(w: World, w': World, e: Event, n: nat, late: nat, net: Net, before: nat)
    requires Turned(w, before) && |w.runner.t| == 3
    ensures !Act(w, w', e, n, late, net)
  {
    if Act(w, w', e, n, late, net) { RefusalSettles(w.runner.t[2].claim.fault, e); }
  }

  lemma ArrivalKeepsTurned(w: World, w': World, e: Event, before: nat)
    requires Turned(w, before) && Arrive(w, w', e)
    ensures Turned(w', before)
  {}

  lemma TurnedStays(w: World, w': World, net: Net, before: nat)
    requires Turned(w, before) && Step(w, w', net) && w'.runner.Busy?
    ensures Turned(w', before)
  {
    if e, n, late :| Act(w, w', e, n, late, net) {
      if |w.runner.t| == 2 {
        ClaimTurns(w, w', e, n, late, net, before);
      } else {
        RefusedIsDone(w, w', e, n, late, net, before);
      }
    } else if e :| Arrive(w, w', e) {
      ArrivalKeepsTurned(w, w', e, before);
    }
  }

  lemma TurnedAt(ws: seq<World>, net: Net, j: nat, before: nat)
    requires Run(ws, net) && 0 < j < |ws| && ws[j].runner.Busy? && Turned(ws[j - 1], before)
    ensures Turned(ws[j], before)
  {
    TakesStep(ws, net, j);
    TurnedStays(ws[j - 1], ws[j], net, before);
  }

  /** In every run: a delivery begun when the run is terminal has, as long as it lasts, done
      nothing but claim, and has seen the conflict or no answer at all. */
  lemma {:induction false} RedeliveryOnlyClaims(ws: seq<World>, net: Net, i: nat, j: nat)
    requires Run(ws, net) && i < j < |ws| && ws[i].backend.terminal && Deliver(ws[i], ws[i + 1])
    requires forall m :: i < m <= j ==> ws[m].runner.Busy?
    ensures Turned(ws[j], ws[i].backend.conflicts)
    decreases j
  {
    if i + 1 < j {
      RedeliveryOnlyClaims(ws, net, i, j - 1);
      TurnedAt(ws, net, j, ws[i].backend.conflicts);
    }
  }

  /** And when it settles: never with an acknowledgement; after the conflict the message is
      dead-lettered, after a lost reply it is requeued. */
  lemma RedeliveryIsRejected(ws: seq<World>, net: Net, i: nat, j: nat, o: Outcome)
    requires Run(ws, net) && i < j < |ws| - 1 && ws[i].backend.terminal && Deliver(ws[i], ws[i + 1])
    requires (forall m :: i < m <= j ==> ws[m].runner.Busy?) && Settling(ws[j], ws[j + 1], o)
    ensures |ws[j].runner.t| == 3 && ws[j].runner.t[2].Claim? && ws[j].runner.t[2].claim.Raised?
    ensures var f := ws[j].runner.t[2].claim.fault;
            && o == Strict(f) && o != Acked
            && (f == Protocol ==> o == Rejected && ws[j].backend.conflicts > ws[i].backend.conflicts)
            && (ws[j].runner.attached ==>
                  && (ws[j + 1].queue == Queue(0, 0, 0, 1) <==> f != Transport)
                  && (ws[j + 1].queue == Queue(1, 0, 0, 0) <==> f == Transport))
            && (!ws[j].runner.attached ==> ws[j + 1].queue == ws[j].queue)
  {
    RedeliveryOnlyClaims(ws, net, i, j);
    Safety(ws, net, j);
    TurnedSettles(ws[j], ws[j + 1], o, ws[i].backend.conflicts);
    if ws[j].runner.attached { SettledQueue(ws[j].queue, SettlementOf(o)); }
  }

  lemma TurnedSettles(w: World, w': World, o: Outcome, before: nat)
    requires Turned(w, before) && Settling(w, w', o)
    ensures |w.runner.t| == 3 && RefusedBy(w, before, w.runner.t[2]) && o == Strict(w.runner.t[2].claim.fault)
  {
    if |w.runner.t| == 2 {
      ClaimIsNext(Settle(o));
    } else {
      RefusalSettles(w.runner.t[2].claim.fault, Settle(o));
    }
  }

  /** Where a settlement puts the one message. */
  lemma SettledQueue(q: Queue, s: Settlement)
    requires q.ready + q.unacked + q.acked + q.dead == 1 && q.unacked == 1
    ensures Settled(q, s) == if s.Ack? then Queue(0, 0, 1, 0) else if s.NackRequeue? then Queue(1, 0, 0, 0)
                             else Queue(0, 0, 0, 1)
  {}

  // ---------------------------------------------------------------- exactly which networks are safe

  const QUIET := Flags(false, false, false)
  const PASSED := Result(Payload(SUCCESS, NoError, true, NoAi, true))

  /** The events of a delivery that ends with an unanswered completion. */
  function UnansweredEvent(n: nat): Event {
    if n == 0 then Envelope(true)
    else if n == 1 then Slot(true)
    else if n == 2 then Claim(Ok(ClaimView(ASSIGNED, false)))
    else if n == 3 then Plan(Ok(PlanView(true, false)))
    else if n == 4 then Start(true, Ok(RUNNING))
    else if n == 5 then Asked(Before, Ok(QUIET))
    else if n == 6 then Child(PASSED)
    else if n == 7 then Asked(AfterChild(PASSED), Ok(QUIET))
    else if n == 8 then Evidence(PASSED, Clear, Ok(true))
    else Completion(Plain(SUCCESS, NoError), Raised(Transport))
  }

  function UnansweredTrace(n: nat): seq<Event> {
    if n == 0 then [] else UnansweredTrace(n - 1) + [UnansweredEvent(n - 1)]
  }

  /** How often the request of the n-th event is sent: the completion `copies` times. */
  function Copies(n: nat, copies: nat): nat { if n == 9 then copies else 1 }

  /** The backend after the first `n` events of that delivery, `claims` claims before it. */
  function UnansweredBackend(n: nat, claims: nat, copies: nat): Backend
    requires copies >= 1
  {
    Backend(claims + (if n >= 3 then 1 else 0), if n >= 4 then 1 else 0, if n >= 5 then 1 else 0,
            if n == 10 then copies else 0, n == 10, 0, 0, 0, if n == 10 then copies - 1 else 0)
  }

  function UnansweredWorld(n: nat, claims: nat, copies: nat, flying: multiset<Event>): World
    requires copies >= 1
  {
    World(Queue(0, 1, 0, 0), UnansweredBackend(n, claims, copies), Busy(UnansweredTrace(n), true), flying)
  }

  lemma UnansweredFollows(n: nat)
    requires 2 <= n < 10
    ensures Follows(WEB, UnansweredEvent(n - 1), UnansweredEvent(n)) && !UnansweredEvent(n).Settle?
  {
    if n <= 5 { UnansweredOpens(n); } else { UnansweredReports(n); }
  }

  lemma UnansweredOpens(n: nat)
    requires 2 <= n <= 5
    ensures Follows(WEB, UnansweredEvent(n - 1), UnansweredEvent(n)) && !UnansweredEvent(n).Settle?
  {
    if n == 2 {} else if n == 3 {} else if n == 4 {} else {}
  }

  lemma UnansweredReports(n: nat)
    requires 6 <= n < 10
    ensures Follows(WEB, UnansweredEvent(n - 1), UnansweredEvent(n)) && !UnansweredEvent(n).Settle?
  {
    if n == 6 {} else if n == 7 {} else if n == 8 {} else {}
  }

  lemma UnansweredServed(n: nat, claims: nat, copies: nat)
    requires 2 <= n < 10 && copies >= 1
    ensures Serve(UnansweredBackend(n, claims, copies), UnansweredEvent(n), Copies(n, copies))
         == UnansweredBackend(n + 1, claims, copies)
    ensures Answers(UnansweredBackend(n, claims, copies), UnansweredEvent(n), Copies(n, copies))
  {
    if n == 2 {} else if n == 3 {} else if n == 4 {} else if n < 9 {} else {}
  }

  lemma Acts(w: World, e: Event, n: nat, late: nat, net: Net)
    requires w.runner.Busy? && w.runner.t != [] && !e.Settle? && Follows(WEB, Last(w.runner.t), e)
    requires n + late <= net.sends && (late > 0 ==> net.lingers) && Answers(w.backend, e, n)
    ensures Step(w, World(w.queue, Serve(w.backend, e, n), w.runner.(t := w.runner.t + [e]),
                          w.flying + multiset{}[e := late]), net)
  {
    assert Act(w, World(w.queue, Serve(w.backend, e, n), w.runner.(t := w.runner.t + [e]),
                        w.flying + multiset{}[e := late]), e, n, late, net);
  }

  lemma UnansweredStep(n: nat, claims: nat, copies: nat, flying: multiset<Event>, net: Net)
    requires 2 <= n < 10 && 1 <= copies <= net.sends
    ensures Step(UnansweredWorld(n, claims, copies, flying), UnansweredWorld(n + 1, claims, copies, flying), net)
  {
    UnansweredFollows(n);
    UnansweredServed(n, claims, copies);
    Acts(UnansweredWorld(n, claims, copies, flying), UnansweredEvent(n), Copies(n, copies), 0, net);
    assert flying + multiset{}[UnansweredEvent(n) := 0] == flying;
  }

  lemma RunExtends(ws: seq<World>, w: World, net: Net)
    requires Run(ws, net) && Step(ws[|ws| - 1], w, net)
    ensures Run(ws + [w], net)
  {
    forall i | 0 < i < |ws + [w]| ensures StepAt(ws + [w], net, i) {
      if i < |ws| { assert StepAt(ws, net, i); }
    }
  }

  /** Before a delivery of that kind. */
  function Waiting(claims: nat, flying: multiset<Event>): World {
    START.(backend := START.backend.(claims := claims), flying := flying)
  }

  lemma {:induction false} UnansweredRun(
      n: nat, before: seq<World>, claims: nat, copies: nat, flying: multiset<Event>, net: Net) returns (ws: seq<World>)
    requires 2 <= n <= 10 && 1 <= copies <= net.sends
    requires Run(before, net) && before[|before| - 1] == Waiting(claims, flying)
    ensures Run(ws, net) && ws[|ws| - 1] == UnansweredWorld(n, claims, copies, flying)
  {
    var next := UnansweredWorld(n, claims, copies, flying);
    if n == 2 {
      ws := before;
      assert UnansweredTrace(1) == [Envelope(true)] && UnansweredTrace(2) == [Envelope(true), Slot(true)];
      assert Deliver(Waiting(claims, flying), next);
    } else {
      ws := UnansweredRun(n - 1, before, claims, copies, flying, net);
      UnansweredStep(n - 1, claims, copies, flying, net);
    }
    RunExtends(ws, next, net);
    ws := ws + [next];
  }

  /** A client that repeats its request does complete a terminal run again, as often as it
      repeats: the bound of TerminalIsFinal is reached. */
  lemma ResentCompletion(net: Net) returns (ws: seq<World>)
    requires net.sends >= 1
    ensures Run(ws, net) && ws[|ws| - 1].backend.lateCompletions == net.sends - 1
  {
    assert Waiting(0, multiset{}) == START;
    ws := UnansweredRun(10, [START], 0, net.sends, multiset{}, net);
  }

  const LOST_PLAN := Plan(Raised(Transport))

  /** The first delivery asks for the plan, gives up on it and requeues; the request lingers. */
  lemma PlanLingers(net: Net) returns (ws: seq<World>)
    requires net.sends >= 1 && net.lingers
    ensures Run(ws, net) && ws[|ws| - 1] == Waiting(1, multiset{LOST_PLAN})
  {
    assert Waiting(0, multiset{}) == START;
    var w2 := UnansweredWorld(3, 0, 1, multiset{});
    ws := UnansweredRun(3, [START], 0, 1, multiset{}, net);
    assert Last(w2.runner.t) == UnansweredEvent(2);
    Acts(w2, LOST_PLAN, 0, 1, net);
    assert multiset{} + multiset{}[LOST_PLAN := 1] == multiset{LOST_PLAN};
    var w3 := World(w2.queue, w2.backend, w2.runner.(t := w2.runner.t + [LOST_PLAN]), multiset{LOST_PLAN});
    RunExtends(ws, w3, net);
    ws := ws + [w3];
    assert Settling(w3, Waiting(1, multiset{LOST_PLAN}), Requeued);
    RunExtends(ws, Waiting(1, multiset{LOST_PLAN}), net);
    ws := ws + [Waiting(1, multiset{LOST_PLAN})];
  }

  /** A request that outlives its call is served after the run is terminal. */
  lemma LingeringPlan(net: Net) returns (ws: seq<World>)
    requires net.sends >= 1 && net.lingers
    ensures Run(ws, net) && ws[|ws| - 1].backend.latePlans == 1
  {
    var before := PlanLingers(net);
    ws := UnansweredRun(10, before, 1, 1, multiset{LOST_PLAN}, net);
    var last := UnansweredWorld(10, 1, 1, multiset{LOST_PLAN});
    var end := last.(backend := Serve(last.backend, LOST_PLAN, 1), flying := last.flying - multiset{LOST_PLAN});
    assert Arrive(last, end, LOST_PLAN);
    RunExtends(ws, end, net);
    ws := ws + [end];
  }

  /** A terminal run is never planned, started or completed again exactly on networks where a
      call sends its request at most once and no request outlives its call (or where nothing is
      ever sent). */
  lemma FinalIff(net: Net)
    ensures (forall ws: seq<World>, i: int :: Run(ws, net) && 0 <= i < |ws| ==> Untouched(ws[i].backend))
       <==> net.sends == 0 || (net.sends == 1 && !net.lingers)
  {
    if net.sends == 0 || (net.sends == 1 && !net.lingers) {
      forall ws: seq<World>, i: int | Run(ws, net) && 0 <= i < |ws| ensures Untouched(ws[i].backend) {
        TerminalIsFinal(ws, net, i);
      }
    } else if net.lingers {
      var ws := LingeringPlan(net);
      assert !Untouched(ws[|ws| - 1].backend);
    } else {
      var ws := ResentCompletion(net);
      assert !Untouched(ws[|ws| - 1].backend);
    }
  }
}
