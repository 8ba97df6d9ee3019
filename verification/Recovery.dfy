/** The AI-call ledger and the one-shot recovery (deploy/p5e_live_acceptance.py and
    deploy/p5e_resume_failure_analysis.py), as a state machine of any number of processes.

    The receipt and the ledger file are shared and durable.  A process that has read the ledger
    holds its content in memory until it writes the file; then it sends its POST.  A process can
    end at any point, by a failed check or a crash, and processes interleave freely. */
module Recovery {
  import opened Wire
  import opened Crashes

  const AI_CALL_LIMIT := 6

  datatype Call = Call(acceptance: string, ordinal: nat, stage: string)

  datatype Ledger = Ledger(total: int, calls: seq<Call>)

  /** An attempt manifest, as far as the ledger can be rebuilt from it. */
  datatype Manifest = Manifest(acceptance: string, aiCalls: nat)

  // ---------------------------------------------------------------- the ledger

  predicate ValidLedger(l: Ledger) { l.total == |l.calls| && 0 <= l.total <= AI_CALL_LIMIT }

  /** What `_load_or_rebuild_ai_ledger` makes of the manifests of earlier attempts. */
  function Recovered(m: Manifest): seq<Call> {
    seq(m.aiCalls, i requires 0 <= i => Call(m.acceptance, i + 1, "RECOVERED_FROM_MANIFEST"))
  }

  function AllRecovered(ms: seq<Manifest>): seq<Call> {
    if ms == [] then [] else var n := |ms| - 1; AllRecovered(ms[..n]) + Recovered(ms[n])
  }

  function Attempted(ms: seq<Manifest>): nat {
    if ms == [] then 0 else var n := |ms| - 1; Attempted(ms[..n]) + ms[n].aiCalls
  }

  lemma {:induction false} RecoveredCounts(ms: seq<Manifest>)
    ensures |AllRecovered(ms)| == Attempted(ms)
  {
    if ms != [] { RecoveredCounts(ms[..|ms| - 1]); }
  }

  /** The rebuild loop: one call per counted attempt, in order, or no ledger over the limit. */
  method Rebuild(ms: seq<Manifest>) returns (l: Option<Ledger>)
    ensures l.Some? <==> Attempted(ms) <= 6
    ensures l.Some? ==> ValidLedger(l.value) && l.value == Ledger(Attempted(ms), AllRecovered(ms))
  {
    var calls: seq<Call> := [];
    for i := 0 to |ms|
      invariant calls == AllRecovered(ms[..i])
    {
      assert ms[..i + 1][..i] == ms[..i];
      ghost var before := calls;
      for k := 0 to ms[i].aiCalls
        invariant calls == before + Recovered(ms[i])[..k]
      {
        calls := calls + [Call(ms[i].acceptance, k + 1, "RECOVERED_FROM_MANIFEST")];
      }
    }
    assert ms[..|ms|] == ms;
    RecoveredCounts(ms);
    l := if |calls| > AI_CALL_LIMIT then None else Some(Ledger(|calls|, calls));
  }

  // ---------------------------------------------------------------- processes

  datatype Script = LiveRun | Resume

  /** Where a process is: it has read the ledger; it has also created the receipt; it has
      written the ledger and not yet sent its POST. */
  datatype Process =
    | Reader(script: Script, memory: Ledger)
    | Owner(memory: Ledger)
    | Booked(script: Script)

  predicate HasMemory(p: Process) { p.Reader? || p.Owner? }

  datatype World = World(
    receipt: bool, ledger: Option<Ledger>, manifests: seq<Manifest>, processes: map<nat, Process>,
    posts: nat, resumeWrites: nat, resumePosts: nat, owner: Option<nat>)

  const ACCEPTANCE := "V1P5E_20260909_F294AC1E"

  const EXPECTED_CALLS := [
    Call(ACCEPTANCE, 1, "generate_and_reject_healing"), Call(ACCEPTANCE, 2, "generate_and_reject_healing"),
    Call(ACCEPTANCE, 3, "generate_and_accept_healing"), Call(ACCEPTANCE, 4, "generate_failure_analysis")]

  /** The ledger the recovery expects to find, and the one it leaves. */
  const FOUR := Ledger(4, EXPECTED_CALLS)
  const FIVE := Ledger(5, EXPECTED_CALLS + [Call(ACCEPTANCE, 5, "generate_failure_analysis")])

  /** What a process that opens the ledger now gets: the file, else a rebuild. */
  function Current(w: World): Ledger {
    if w.ledger.Some? then w.ledger.value else Ledger(Attempted(w.manifests), AllRecovered(w.manifests))
  }

  function Without(w: World, p: nat): map<nat, Process> { w.processes - {p} }

  // ---------------------------------------------------------------- steps

  datatype Event =
    | ReadLedger(p: nat)
    | Check(p: nat)
    | Claim(p: nat)
    | BookLive(p: nat, call: Call)
    | BookResume(p: nat)
    | Post(p: nat)
    | End(p: nat)

  /** Can this event happen now? */
  predicate Enabled(w: World, e: Event) {
    match e
    case ReadLedger(p) => p !in w.processes && ValidLedger(Current(w)) && Current(w).total < AI_CALL_LIMIT
    case Check(p) => p !in w.processes && !w.receipt && w.ledger == Some(FOUR)
    case Claim(p) => p in w.processes && w.processes[p].Reader? && w.processes[p].script.Resume? && !w.receipt
    case BookLive(p, _) => p in w.processes && w.processes[p].Reader? && w.processes[p].script.LiveRun?
    case BookResume(p) => p in w.processes && w.processes[p].Owner? && w.processes[p].memory == FOUR
    case Post(p) => p in w.processes && w.processes[p].Booked?
    case End(p) => p in w.processes
  }

  function Next(w: World, e: Event): World
    requires Enabled(w, e)
  {
    match e
    case ReadLedger(p) => w.(processes := w.processes[p := Reader(LiveRun, Current(w))])
    case Check(p) => w.(processes := w.processes[p := Reader(Resume, FOUR)])
    case Claim(p) => w.(receipt := true, owner := Some(p), processes := w.processes[p := Owner(w.processes[p].memory)])
    case BookLive(p, call) =>
      var m := w.processes[p].memory;
      w.(ledger := Some(Ledger(m.total + 1, m.calls + [call])),
         processes := w.processes[p := Booked(LiveRun)])
    case BookResume(p) =>
      var m := w.processes[p].memory;
      w.(ledger := Some(Ledger(5, m.calls + [Call(ACCEPTANCE, 5, "generate_failure_analysis")])),
         resumeWrites := w.resumeWrites + 1, processes := w.processes[p := Booked(Resume)])
    case Post(p) =>
      w.(posts := w.posts + 1,
         resumePosts := w.resumePosts + (if w.processes[p].script.Resume? then 1 else 0), processes := Without(w, p))
    case End(p) => w.(processes := Without(w, p))
  }

  /** The world after some events, if they can all happen. */
  predicate Possible(w: World, es: seq<Event>) {
    es == [] || (var n := |es| - 1; Possible(w, es[..n]) && Enabled(After(w, es[..n]), es[n]))
  }

  function After(w: World, es: seq<Event>): World {
    if es == [] then w
    else
      var n := |es| - 1;
      var before := After(w, es[..n]);
      if Enabled(before, es[n]) then Next(before, es[n]) else before
  }

  predicate Init(w: World) {
    && !w.receipt && w.owner.None? && w.processes == map[] && w.resumeWrites == 0 && w.resumePosts == 0
    && ValidLedger(Current(w)) && w.posts <= Current(w).total
  }

  // ---------------------------------------------------------------- one shot

  /** Behind the receipt there is one process, at one point of its way. */
  ghost predicate OneShot(w: World) {
    && (w.receipt <==> w.owner.Some?)
    && w.resumePosts <= w.resumeWrites <= 1
    && (w.owner.None? ==> w.resumeWrites == 0)
    && (forall p :: p in w.processes ==> OneShotAt(w, p, w.processes[p]))
  }

  ghost predicate OneShotAt(w: World, p: nat, s: Process) {
    match s
    case Reader(script, m) => script.Resume? ==> m == FOUR
    case Owner(m) => w.owner == Some(p) && w.resumeWrites == 0 && m == FOUR
    case Booked(script) => script.Resume? ==> w.owner == Some(p) && w.resumeWrites == 1 && w.resumePosts == 0
  }

  lemma StepKeepsOneShot(w: World, e: Event)
    requires OneShot(w) && Enabled(w, e)
    ensures OneShot(Next(w, e))
    ensures Next(w, e).resumeWrites != w.resumeWrites ==> Next(w, e).ledger == Some(FIVE)
    ensures Next(w, e).resumePosts != w.resumePosts ==> w.resumeWrites == 1 && w.resumePosts == 0
  {
    var v := Next(w, e);
    forall p | p in v.processes ensures OneShotAt(v, p, v.processes[p]) {
      if p in w.processes { assert OneShotAt(w, p, w.processes[p]); }
      assert e.p in w.processes ==> OneShotAt(w, e.p, w.processes[e.p]);
    }
    assert e.p in w.processes ==> OneShotAt(w, e.p, w.processes[e.p]);
  }

  /** Whatever interleaves and crashes: at most one recovery writes the ledger, and at most one
      analysis POST is sent, after that write. */
  lemma {:induction false} RecoveryIsOneShot(w: World, es: seq<Event>)
    requires Init(w) && Possible(w, es)
    ensures OneShot(After(w, es))
    ensures After(w, es).resumePosts <= After(w, es).resumeWrites <= 1
  {
    if es != [] {
      var n := |es| - 1;
      RecoveryIsOneShot(w, es[..n]);
      StepKeepsOneShot(After(w, es[..n]), es[n]);
    }
  }

  /** With only recoveries at work the ledger is four calls before the write and five after it. */
  predicate OnlyResume(es: seq<Event>) {
    forall i :: 0 <= i < |es| ==> !es[i].ReadLedger? && !es[i].BookLive?
  }

  lemma {:induction false} LedgerMovesOnce(w: World, es: seq<Event>)
    requires Init(w) && w.ledger == Some(FOUR) && OnlyResume(es) && Possible(w, es)
    ensures After(w, es).ledger == Some(if After(w, es).resumeWrites == 0 then FOUR else FIVE)
    ensures After(w, es).posts - w.posts == After(w, es).resumePosts
    ensures forall p :: p in After(w, es).processes && !After(w, es).processes[p].Owner? ==>
            After(w, es).processes[p].script.Resume?
  {
    if es != [] {
      var n := |es| - 1;
      LedgerMovesOnce(w, es[..n]);
      RecoveryIsOneShot(w, es[..n]);
      var v := After(w, es[..n]);
      assert !es[n].ReadLedger? && !es[n].BookLive?;
      if es[n].p in v.processes { assert OneShotAt(v, es[n].p, v.processes[es[n].p]); }
    }
  }

  // ---------------------------------------------------------------- the budget

  /** At most one process holds a ledger it has read and not yet written back. */
  ghost predicate Exclusive(w: World) {
    forall p, q :: p in w.processes && q in w.processes && HasMemory(w.processes[p]) && HasMemory(w.processes[q]) ==>
        p == q
  }

  ghost predicate AlwaysExclusive(w: World, es: seq<Event>) {
    forall k :: 0 <= k <= |es| ==> Exclusive(After(w, es[..k]))
  }

  /** The processes that will send a POST next. */
  function Pending(ps: map<nat, Process>): set<nat> { set p | p in ps && ps[p].Booked? }

  lemma PendingSet(ps: map<nat, Process>, p: nat, s: Process)
    requires p in ps ==> !ps[p].Booked?
    ensures |Pending(ps[p := s])| == |Pending(ps)| + if s.Booked? then 1 else 0
  {
    assert Pending(ps[p := s]) == Pending(ps) + if s.Booked? then {p} else {};
  }

  lemma PendingRemoved(ps: map<nat, Process>, p: nat)
    requires p in ps
    ensures |Pending(ps - {p})| == |Pending(ps)| - if ps[p].Booked? then 1 else 0
  {
    assert Pending(ps - {p}) == Pending(ps) - {p};
  }

  /** Every POST sent or still to be sent is on the ledger. */
  ghost predicate Budget(w: World) {
    && ValidLedger(Current(w))
    && w.posts + |Pending(w.processes)| <= Current(w).total
    && (forall p :: p in w.processes && HasMemory(w.processes[p]) ==>
          w.processes[p].memory == Current(w) && w.processes[p].memory.total < AI_CALL_LIMIT)
  }

  lemma StepKeepsBudget(w: World, e: Event)
    requires Budget(w) && Exclusive(w) && Enabled(w, e)
    ensures Budget(Next(w, e))
  {
    var v := Next(w, e);
    if e.Post? || e.End? {
      PendingRemoved(w.processes, e.p);
    } else {
      PendingSet(w.processes, e.p, v.processes[e.p]);
    }
    if e.BookLive? || e.BookResume? {
      assert HasMemory(w.processes[e.p]) && w.processes[e.p].memory == Current(w);
    }
    forall p | p in v.processes && HasMemory(v.processes[p])
      ensures v.processes[p].memory == Current(v) && v.processes[p].memory.total < AI_CALL_LIMIT
    {
      if p != e.p { assert p in w.processes && HasMemory(w.processes[p]); }
    }
  }

  const EMPTY := World(false, None, [], map[], 0, 0, 0, None)
  const ZERO := Ledger(0, [])

  /** Two runs have read the empty ledger ... */
  lemma OverlapReads()
    ensures var es := [ReadLedger(1), ReadLedger(2)];
            && Init(EMPTY) && Possible(EMPTY, es)
            && After(EMPTY, es) == EMPTY.(processes := map[1 := Reader(LiveRun, ZERO), 2 := Reader(LiveRun, ZERO)])
  {
    Leads(EMPTY, [], ReadLedger(1));
    assert [] + [ReadLedger(1)] == [ReadLedger(1)];
    assert After(EMPTY, [ReadLedger(1)]) == EMPTY.(processes := map[1 := Reader(LiveRun, ZERO)]);
    Leads(EMPTY, [ReadLedger(1)], ReadLedger(2));
    assert [ReadLedger(1)] + [ReadLedger(2)] == [ReadLedger(1), ReadLedger(2)];
  }

  /** ... both book call one ... */
  lemma OverlapBooks(call: Call)
    ensures var es := [ReadLedger(1), ReadLedger(2), BookLive(1, call), BookLive(2, call)];
            && Init(EMPTY) && Possible(EMPTY, es)
            && After(EMPTY, es) == EMPTY.(ledger := Some(Ledger(1, [call])),
                                          processes := map[1 := Booked(LiveRun), 2 := Booked(LiveRun)])
  {
    var es := [ReadLedger(1), ReadLedger(2)];
    OverlapReads();
    assert ZERO.calls + [call] == [call];
    Leads(EMPTY, es, BookLive(1, call));
    assert After(EMPTY, es + [BookLive(1, call)]) ==
           EMPTY.(ledger := Some(Ledger(1, [call])),
                  processes := map[1 := Booked(LiveRun), 2 := Reader(LiveRun, ZERO)]);
    Leads(EMPTY, es + [BookLive(1, call)], BookLive(2, call));
    assert es + [BookLive(1, call)] + [BookLive(2, call)] ==
           [ReadLedger(1), ReadLedger(2), BookLive(1, call), BookLive(2, call)];
  }

  /** ... and send two POSTs: without any such condition the budget fails. */
  lemma OverlapBreaksBudget(call: Call)
    ensures var es := [ReadLedger(1), ReadLedger(2), BookLive(1, call), BookLive(2, call), Post(1), Post(2)];
            && Init(EMPTY) && Possible(EMPTY, es)
            && After(EMPTY, es).posts == 2 && Current(After(EMPTY, es)).total == 1
  {
    var es := [ReadLedger(1), ReadLedger(2), BookLive(1, call), BookLive(2, call)];
    OverlapBooks(call);
    Leads(EMPTY, es, Post(1));
    assert After(EMPTY, es + [Post(1)]) ==
           EMPTY.(ledger := Some(Ledger(1, [call])), posts := 1, processes := map[2 := Booked(LiveRun)]);
    Leads(EMPTY, es + [Post(1)], Post(2));
    assert es + [Post(1)] + [Post(2)] ==
           [ReadLedger(1), ReadLedger(2), BookLive(1, call), BookLive(2, call), Post(1), Post(2)];
  }

  lemma Leads(w: World, es: seq<Event>, e: Event)
    requires Possible(w, es) && Enabled(After(w, es), e)
    ensures Possible(w, es + [e]) && After(w, es + [e]) == Next(After(w, es), e)
  {
    assert (es + [e])[..|es|] == es;
  }

  // ---------------------------------------------------------------- exactly when the ledger counts

  predicate Books(e: Event) { e.BookLive? || e.BookResume? }

  function Bookings(es: seq<Event>): nat {
    if es == [] then 0 else var n := |es| - 1; Bookings(es[..n]) + if Books(es[n]) then 1 else 0
  }

  /** A process that writes the ledger now finds the total it has read before. */
  predicate TotalUnmoved(w: World, e: Event)
    requires Books(e) ==> Enabled(w, e)
  {
    Books(e) ==> w.processes[e.p].memory.total == Current(w).total
  }

  ghost predicate NeverStale(w: World, es: seq<Event>)
    requires Possible(w, es)
  {
    es == [] || (var n := |es| - 1; NeverStale(w, es[..n]) && TotalUnmoved(After(w, es[..n]), es[n]))
  }

  /** After every prefix the ledger has counted every booking. */
  ghost predicate CountsAll(w: World, es: seq<Event>) {
    es == [] || (var n := |es| - 1;
                 CountsAll(w, es[..n]) && Current(After(w, es)).total == Current(w).total + Bookings(es))
  }

  /** The ledger counts every booking, all along, exactly when no process writes it after the
      total has moved since that process read it. */
  lemma {:induction false} LedgerCountsIff(w: World, es: seq<Event>)
    requires Possible(w, es)
    ensures CountsAll(w, es) <==> NeverStale(w, es)
    ensures CountsAll(w, es) ==> Current(After(w, es)).total == Current(w).total + Bookings(es)
  {
    if es != [] {
      var n := |es| - 1;
      LedgerCountsIff(w, es[..n]);
    }
  }

  /** POSTs come from bookings. */
  lemma {:induction false} PostsAreBooked(w: World, es: seq<Event>)
    requires Possible(w, es)
    ensures var v := After(w, es);
            v.posts + |Pending(v.processes)| <= w.posts + |Pending(w.processes)| + Bookings(es)
  {
    if es != [] {
      var n := |es| - 1;
      PostsAreBooked(w, es[..n]);
      var v, e := After(w, es[..n]), es[n];
      if e.Post? || e.End? {
        PendingRemoved(v.processes, e.p);
      } else {
        PendingSet(v.processes, e.p, Next(v, e).processes[e.p]);
      }
    }
  }

  /** Whatever is written is a valid ledger, stale or not. */
  ghost predicate AllValid(w: World) {
    && ValidLedger(Current(w))
    && (forall p :: p in w.processes && HasMemory(w.processes[p]) ==>
          ValidLedger(w.processes[p].memory) && w.processes[p].memory.total < AI_CALL_LIMIT)
  }

  lemma {:induction false} LedgersStayValid(w: World, es: seq<Event>)
    requires Init(w) && Possible(w, es)
    ensures AllValid(After(w, es))
  {
    if es != [] {
      var n := |es| - 1;
      LedgersStayValid(w, es[..n]);
      var v, e := After(w, es[..n]), es[n];
      assert e.p in v.processes && HasMemory(v.processes[e.p]) ==> ValidLedger(v.processes[e.p].memory);
    }
  }

  /** Any interleaving of both scripts in which no process writes over a total that has moved:
      POSTs <= total = calls <= 6. */
  lemma BudgetHolds(w: World, es: seq<Event>)
    requires Init(w) && Possible(w, es) && NeverStale(w, es)
    ensures var l := Current(After(w, es)); After(w, es).posts <= l.total == |l.calls| <= 6
  {
    LedgerCountsIff(w, es);
    PostsAreBooked(w, es);
    LedgersStayValid(w, es);
    assert Pending(w.processes) == {};
  }

  /** One process at a time between reading and writing is enough for that. */
  lemma {:induction false} ExclusiveIsNeverStale(w: World, es: seq<Event>)
    requires Init(w) && Possible(w, es) && AlwaysExclusive(w, es)
    ensures Budget(After(w, es)) && NeverStale(w, es)
  {
    if es != [] {
      var n := |es| - 1;
      forall k | 0 <= k <= n ensures Exclusive(After(w, es[..n][..k])) {
        assert es[..n][..k] == es[..k];
      }
      ExclusiveIsNeverStale(w, es[..n]);
      StepKeepsBudget(After(w, es[..n]), es[n]);
    }
  }

  // ---------------------------------------------------------------- the scripts

  /** One process at a time on the shared files; `w` is the world of the state machine. */
  class Site {
    var receipt: bool
    var ledger: Option<Ledger>
    var manifests: seq<Manifest>
    ghost var w: World

    constructor (ledger: Option<Ledger>, manifests: seq<Manifest>, ghost start: World)
      requires Init(start) && start.ledger == ledger && start.manifests == manifests
      ensures Idle() && w == start
    {
      receipt, this.ledger, this.manifests, w := false, ledger, manifests, start;
    }

    ghost predicate Coupled() reads this {
      && w.receipt == receipt && w.ledger == ledger && w.manifests == manifests
      && Budget(w) && OneShot(w)
    }

    ghost predicate Idle() reads this { Coupled() && w.processes == map[] }

    /** Only `p` runs. */
    ghost predicate Alone(p: nat) reads this { forall q :: q in w.processes ==> q == p }

    /** The step just taken by the process is a step of the state machine. */
    ghost method Take(e: Event)
      requires Enabled(w, e) && Budget(w) && OneShot(w) && Alone(e.p)
      requires var v := Next(w, e); v.receipt == receipt && v.ledger == ledger && v.manifests == manifests
      modifies `w
      ensures Coupled() && w == Next(old(w), e) && Alone(e.p)
    {
      StepKeepsBudget(w, e);
      StepKeepsOneShot(w, e);
      w := Next(w, e);
    }

    /** The process raises, crashes, or goes on. */
    method Survives(p: nat) returns (op: Op)
      requires Coupled() && Alone(p) && p in w.processes
      modifies `w
      ensures if op.Fine? then w == old(w) else Idle() && w == Next(old(w), End(p))
      ensures Coupled() && Alone(p)
    {
      op := Arbitrary<Op>();
      if !op.Fine? { Take(End(p)); }
    }

    /** `_load_or_rebuild_ai_ledger` */
    method LoadOrRebuild() returns (l: Option<Ledger>)
      requires Coupled()
      ensures l.Some? <==> ValidLedger(Current(w))
      ensures l.Some? ==> l.value == Current(w)
    {
      RecoveredCounts(manifests);
      if ledger.Some? {
        l := if ValidLedger(ledger.value) then ledger else None;
      } else {
        l := Rebuild(manifests);
      }
    }

    /** `_count_ai_call` and the POST after it. */
    method LiveCall(p: nat, call: Call) returns (op: Op, ghost tried: bool)
      requires Idle()
      modifies this
      ensures Idle() && w.resumePosts == old(w).resumePosts && w.posts <= old(w).posts + 1
      ensures op.Fine? ==> w.posts == old(w).posts + 1 && Current(w).total == old(Current(w)).total + 1
      ensures old(Current(w)).total >= 6 ==> w == old(w) && !op.Fine?
      ensures tried <==> old(ValidLedger(Current(w)) && Current(w).total < 6)
    {
      tried := false;
      var l := LoadOrRebuild();
      if l.None? || l.value.total >= AI_CALL_LIMIT { return Threw, false; }
      tried := true;
      Take(ReadLedger(p));
      op := Survives(p);
      if !op.Fine? { return; }
      op := BookAndPost(p, call, l.value);
    }

    /** With the ledger read: write it, then POST. */
    method BookAndPost(p: nat, call: Call, l: Ledger) returns (op: Op)
      requires Coupled() && Alone(p) && p in w.processes && w.processes[p] == Reader(LiveRun, l)
      modifies this
      ensures Idle() && w.resumePosts == old(w).resumePosts && w.posts <= old(w).posts + 1
      ensures op.Fine? ==> w.posts == old(w).posts + 1 && Current(w).total == l.total + 1
    {
      ledger := Some(Ledger(l.total + 1, l.calls + [call]));
      Take(BookLive(p, call));
      op := Survives(p);
      if !op.Fine? { return; }
      Take(Post(p));
    }

    /** `run` of the recovery: checks, receipt, ledger, POST. */
    method Resume(p: nat) returns (op: Op)
      requires Idle()
      modifies this
      ensures Idle() && w.posts - old(w).posts == w.resumePosts - old(w).resumePosts
      ensures old(receipt) || old(ledger) != Some(FOUR) ==> w == old(w) && !op.Fine?
      ensures op.Fine? ==> w.resumePosts == old(w).resumePosts + 1 && ledger == Some(FIVE)
    {
      if receipt || ledger != Some(FOUR) { return Threw; }
      var mine := ledger.value;
      Take(Check(p));
      op := Survives(p);
      if !op.Fine? { return; }
      receipt := true;
      Take(Claim(p));
      op := Survives(p);
      if !op.Fine? { return; }
      op := WriteAndPost(p, mine);
    }

    /** Behind the receipt: write the ledger, then POST. */
    method WriteAndPost(p: nat, mine: Ledger) returns (op: Op)
      requires Coupled() && Alone(p) && p in w.processes && w.processes[p] == Owner(mine) && mine == FOUR
      modifies this
      ensures Idle() && w.posts - old(w).posts == w.resumePosts - old(w).resumePosts
      ensures op.Fine? ==> w.resumePosts == old(w).resumePosts + 1 && ledger == Some(FIVE)
    {
      ledger := Some(Ledger(5, mine.calls + [Call(ACCEPTANCE, 5, "generate_failure_analysis")]));
      Take(BookResume(p));
      op := Survives(p);
      if !op.Fine? { return; }
      Take(Post(p));
    }
  }

  datatype Job = Live(call: Call) | Recover

  /** Any number of runs of both scripts one after the other, each finished, stopped or crashed at
      any step: at most one recovery POST, and POSTs <= ledger total = ledger calls <= 6. */
  method Operate(site: Site, jobs: seq<Job>) returns (ends: seq<Op>)
    requires site.Idle()
    modifies site
    ensures site.Idle() && |ends| == |jobs|
    ensures site.w.resumePosts <= 1
    ensures var l := Current(site.w); site.w.posts <= l.total == |l.calls| <= 6
  {
    ends := [];
    for i := 0 to |jobs|
      invariant site.Idle() && |ends| == i
    {
      var op;
      match jobs[i] {
        case Live(call) =>
          ghost var tried;
          op, tried := site.LiveCall(i, call);
        case Recover => op := site.Resume(i);
      }
      ends := ends + [op];
    }
  }
}
