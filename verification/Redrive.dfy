/** Redriving one dead letter (deploy/p5e_redrive_run_dead_letter.py).

    The dead queue, the Runner's queue and the journal file outlive a process; deliveries that
    are held unacknowledged go back to the dead queue when their connection ends.  Every
    operation can raise, can end the connection, and can be the last one before a crash.
    A delivery tag stands for the letter it delivered. */
module Redrive {
  import opened Wire
  import opened Crashes

  type Body = string

  datatype Payload = Payload(runId: string, messageId: string, rest: string)

  /** One dead letter.  `copy` tells equal letters apart. */
  datatype Letter = Letter(copy: nat, body: Body, propertyId: string, rejected: bool, times: seq<string>)

  datatype Stage = IntentWritten | PublishConfirmed | SourceAcked

  datatype Journal = Journal(stage: Stage, messageId: string)

  datatype Preflight = Preflight(ready: bool, payload: Payload)

  datatype Args = Args(execute: bool, messageId: Option<string>, deathTime: Option<string>)

  datatype Report = Report(exitCode: nat, published: bool, confirmed: bool, ackSent: bool, preserved: bool)

  const TARGET := "run_15c59b0b27964dd8a6fec2fcca840f9c"
  const MAX_DEAD_LETTERS_TO_INSPECT := 20

  class Site {
    const decode: Body -> Option<Payload>

    // durable
    var dead: set<Letter>
    var tasks: set<Body>
    var journal: Option<Journal>

    // unacknowledged on the connection of the current process
    var held: set<Letter>

    // the current process
    var outstanding: set<Letter>
    var published: bool
    var confirmed: bool
    var ackSent: bool

    // history
    ghost var all: set<Letter>
    ghost var acked: set<Letter>
    ghost var publishes: seq<Body>
    ghost var confirms: set<Body>
    ghost var ackSends: set<Letter>

    constructor (decode: Body -> Option<Payload>, dead: set<Letter>)
      ensures this.decode == decode && this.dead == dead && all == dead && Idle() && publishes == [] && ackSends == {}
    {
      this.decode, this.dead, this.tasks, this.journal := decode, dead, {}, None;
      held, outstanding := {}, {};
      published, confirmed, ackSent := false, false, false;
      all, acked, publishes, confirms, ackSends := dead, {}, [], {}, {};
    }

    // -------------------------------------------------------------- invariants

    /** Every letter is in one place: ready, held, or acknowledged. */
    ghost predicate Placed() reads this {
      && (forall m :: m in all <==> m in dead || m in held || m in acked)
      && (forall m :: m in dead ==> m !in held && m !in acked)
      && (forall m :: m in held ==> m !in acked)
    }

    predicate IsTarget(b: Body) { decode(b).Some? && decode(b).value.runId == TARGET }

    /** At most one publish ever, only with a journal, only of the target; an acknowledgement is
        only sent for a letter whose body the broker has confirmed, and the journal says so. */
    ghost predicate Booked() reads this {
      && |publishes| <= 1
      && (publishes != [] ==> journal.Some? && IsTarget(publishes[0]))
      && (forall b :: b in confirms ==> publishes == [b] && b in tasks)
      && (forall m :: m in ackSends ==> m.body in confirms && journal.value.stage != IntentWritten)
      && (forall m :: m in acked ==> m in ackSends)
      && (forall m, k :: m in ackSends && k in ackSends ==> m == k)
    }

    ghost predicate Inv() reads this { Placed() && Booked() }

    /** Between two processes. */
    ghost predicate Idle() reads this { Inv() && held == {} }

    /** No letter is lost: it is ready, held by a process, or its body is in the Runner's queue. */
    lemma NothingIsLost(m: Letter)
      requires Inv() && m in all
      ensures m in dead || m in held || (m.body in tasks && publishes == [m.body])
    {
    }

    /** A confirmed body is the one published, and in the Runner's queue. */
    lemma ConfirmedIsQueued()
      requires Inv() && confirms != {}
      ensures publishes != [] && confirms == {publishes[0]} && publishes[0] in tasks
    {
      var b :| b in confirms;
      assert publishes == [b];
    }

    /** Letters only moved between ready and held. */
    twostate predicate Moved() reads this { forall m :: m in dead || m in held <==> m in old(dead) || m in old(held) }

    // -------------------------------------------------------------- the broker

    /** The connection ends: whatever is held becomes ready again. */
    method Disconnect()
      requires Inv()
      modifies `dead, `held
      ensures Inv() && held == {} && Moved()
    {
      dead, held := dead + held, {};
    }

    /** An operation that does not go through. */
    method Fails() returns (op: Op)
      requires Inv()
      modifies `dead, `held
      ensures Inv() && op != Fine && Moved()
      ensures op.Crashed? ==> held == {}
    {
      op := Arbitrary<Op>();
      if op.Fine? { op := Threw; }
      var lost := Arbitrary<bool>();
      if op.Crashed? || lost { Disconnect(); }
    }

    /** `basic_get` on the dead queue. */
    method Get() returns (op: Op, got: Option<Letter>)
      requires Inv()
      modifies `dead, `held
      ensures Inv() && Moved()
      ensures op.Crashed? ==> held == {}
      ensures got.Some? ==> op.Fine? && got.value in held && got.value in old(dead)
      ensures op.Fine? ==> forall m :: m in held <==> m in old(held) || got == Some(m)
    {
      got := None;
      var works := Arbitrary<bool>();
      if !works { op := Fails(); return; }
      op := Fine;
      var empty := Arbitrary<bool>();
      if empty || dead == {} { return; }
      var m :| m in dead;
      got := Some(m);
      dead, held := dead - {m}, held + {m};
    }

    /** `basic_nack` with requeue: a tag the broker does not know closes the channel. */
    method Nack(m: Letter) returns (op: Op)
      requires Inv()
      modifies `dead, `held
      ensures Inv() && Moved()
      ensures op.Crashed? ==> held == {}
      ensures op.Fine? ==> m !in held && forall k :: k in held ==> k in old(held)
    {
      var works := Arbitrary<bool>();
      if !works { op := Fails(); return; }
      op := Fine;
      if m in held {
        dead, held := dead + {m}, held - {m};
      } else {
        Disconnect();
      }
    }

    /** `basic_ack` is not confirmed: it may be lost although the call returns, and it may reach the
        broker although the call raises or the process dies. */
    method Ack(m: Letter) returns (op: Op)
      requires Inv() && ackSends == {} && m.body in confirms && journal.Some? && journal.value.stage != IntentWritten
      modifies `dead, `held, `acked, `ackSends
      ensures Inv() && ackSends == {m}
      ensures op.Crashed? ==> held == {}
      ensures forall k :: k in acked <==> k in old(acked) || (k == m && m in acked)
      ensures forall k :: k != m ==> (k in dead || k in held <==> k in old(dead) || k in old(held))
    {
      ackSends := {m};
      var reaches := Arbitrary<bool>();
      var works := Arbitrary<bool>();
      if reaches && m in held {
        held, acked := held - {m}, acked + {m};
      }
      if works { op := Fine; } else { op := Fails(); }
    }

    /** `basic_publish` with confirms: when it returns the message is in the Runner's queue; when it
        raises or the process dies it may be there all the same. */
    method Publish(b: Body) returns (op: Op)
      requires Inv() && publishes == [] && confirms == {} && journal.Some? && IsTarget(b)
      modifies `dead, `held, `tasks, `publishes, `confirms
      ensures Inv() && Moved() && publishes == [b]
      ensures op.Crashed? ==> held == {}
      ensures confirms == if op.Fine? then {b} else {}
      ensures forall c :: c in old(tasks) ==> c in tasks
      ensures op.Fine? ==> held == old(held)
    {
      publishes := [b];
      var works := Arbitrary<bool>();
      if works {
        tasks, confirms, op := tasks + {b}, {b}, Fine;
      } else {
        var reaches := Arbitrary<bool>();
        if reaches { tasks := tasks + {b}; }
        op := Fails();
      }
    }

    /** `_atomic_write_journal`: the file is the old one or the new one, never a part. */
    method WriteJournal(j: Journal) returns (op: Op)
      requires Inv() && (ackSends != {} ==> j.stage != IntentWritten)
      modifies `dead, `held, `journal
      ensures Inv() && Moved() && (journal == old(journal) || journal == Some(j))
      ensures op.Crashed? ==> held == {}
      ensures op.Fine? ==> journal == Some(j) && held == old(held)
    {
      var works := Arbitrary<bool>();
      var replaced := Arbitrary<bool>();
      if works || replaced { journal := Some(j); }
      if works { op := Fine; } else { op := Fails(); }
    }

    // -------------------------------------------------------------- the tool

    /** Fetch up to `count` ready letters and list those of the target run. */
    method Inspect(count: nat) returns (op: Op, matches: seq<Letter>, ghost fetched: nat)
      requires Inv() && outstanding == held
      modifies `dead, `held, `outstanding
      ensures Inv() && Moved()
      ensures op.Crashed? ==> held == {}
      ensures op.Fine? ==> forall m :: m in held ==> m in outstanding
      ensures forall m :: m in matches ==> m in outstanding && IsTarget(m.body)
      ensures op.Fine? ==> forall m :: m in matches ==> m in held
      ensures fetched <= count
    {
      matches, op, fetched := [], Fine, 0;
      var i := 0;
      while i < count
        invariant Inv() && Moved() && op.Fine? && fetched == i <= count
        invariant forall m :: m in held <==> m in outstanding
        invariant forall m :: m in matches ==> m in outstanding && IsTarget(m.body)
      {
        var got;
        op, got := Get();
        if !op.Fine? { return; }
        if got.None? { return; }
        var m := got.value;
        outstanding, fetched := outstanding + {m}, fetched + 1;
        if IsTarget(m.body) { matches := matches + [m]; }
        i := i + 1;
      }
    }

    /** Give the other letters back at once. */
    method ReturnOthers(matches: seq<Letter>) returns (op: Op)
      requires Inv()
      modifies `dead, `held, `outstanding
      ensures Inv() && Moved()
      ensures op.Crashed? ==> held == {}
      ensures forall m :: m in outstanding ==> m in old(outstanding)
      ensures op.Fine? ==> forall m :: m in outstanding ==> m in matches
      ensures op.Fine? && old(held) <= old(outstanding) ==> forall m :: m in held ==> m in matches
    {
      op := Fine;
      var rest := outstanding;
      while rest != {}
        invariant Inv() && Moved() && op.Fine?
        invariant forall m :: m in outstanding ==> m in old(outstanding)
        invariant forall m :: m in outstanding ==> m in rest || m in matches
        invariant forall m :: m in held ==> m in old(held)
        invariant forall m :: m in held && m in old(outstanding) ==> m in rest || m in matches
        decreases |rest|
      {
        var m :| m in rest;
        rest := rest - {m};
        if m !in matches {
          op := Nack(m);
          if !op.Fine? { return; }
          outstanding := outstanding - {m};
        }
      }
    }

    /** Intent, publish, confirmation: each recorded before the next step. */
    method Republish(m: Letter, messageId: string) returns (op: Op)
      requires Inv() && publishes == [] && confirms == {} && IsTarget(m.body)
      requires !published && !confirmed
      modifies `dead, `held, `tasks, `journal, `published, `confirmed, `publishes, `confirms
      ensures Inv() && Moved()
      ensures op.Crashed? ==> held == {}
      ensures published <==> publishes != []
      ensures !published ==> tasks == old(tasks)
      ensures confirmed ==> published && m.body in confirms
      ensures confirmed <==> confirms != {}
      ensures op.Fine? ==> confirmed && journal == Some(Journal(PublishConfirmed, messageId)) && held == old(held)
    {
      op := WriteJournal(Journal(IntentWritten, messageId));
      if !op.Fine? { return; }
      published := true;
      op := Publish(m.body);
      if !op.Fine? { return; }
      confirmed := true;
      op := WriteJournal(Journal(PublishConfirmed, messageId));
    }

    /** Acknowledge the source and record it. */
    method AckSource(m: Letter, messageId: string) returns (op: Op)
      requires Inv() && ackSends == {} && m.body in confirms && journal.Some? && journal.value.stage.PublishConfirmed?
      modifies `dead, `held, `journal, `outstanding, `ackSent, `acked, `ackSends
      ensures Inv() && ackSent && ackSends == {m}
      ensures op.Crashed? ==> held == {}
      ensures forall k :: k != m ==> (k in dead || k in held <==> k in old(dead) || k in old(held))
      ensures op.Fine? ==> journal == Some(Journal(SourceAcked, messageId))
    {
      ackSent := true;
      op := Ack(m);
      if !op.Fine? { return; }
      outstanding := outstanding - {m};
      op := WriteJournal(Journal(SourceAcked, messageId));
    }

    /** May this letter be redriven, as far as the database and its death record say? */
    predicate Ready(p: Preflight, m: Letter) {
      && p.ready && decode(m.body) == Some(p.payload) && m.propertyId == p.payload.messageId
      && m.rejected && |m.times| == 1
    }

    /** What must hold of the letter, the database and the operator's arguments before a publish. */
    ghost predicate Guarded(m: Letter, p: Preflight, args: Args) {
      && p.ready && decode(m.body) == Some(p.payload) && m.propertyId == p.payload.messageId
      && m.rejected && |m.times| == 1
      && args.messageId == Some(p.payload.messageId) && args.deathTime == Some(m.times[0])
    }

    /** Before anything is published. */
    ghost predicate Untried() reads this {
      publishes == [] && confirms == {} && ackSends == {} && acked == {} && !published && !confirmed && !ackSent
    }

    /** What one process can have done: letters it sent no acknowledgement for only moved. */
    twostate predicate Outcome() reads this {
      && (published <==> publishes != old(publishes)) && (!published ==> tasks == old(tasks))
      && (confirmed ==> published) && (ackSent ==> confirmed)
      && (confirmed <==> confirms != old(confirms))
      && (ackSent <==> ackSends != old(ackSends))
      && (!ackSent ==> Moved() && acked == old(acked))
      && (forall k :: k !in ackSends ==> (k in dead || k in held <==> k in old(dead) || k in old(held)))
    }

    /** The execute branch for the one match. */
    method Execute(m: Letter, p: Preflight, args: Args) returns (op: Op, again: Preflight)
      requires Inv() && Untried() && IsTarget(m.body)
      modifies `dead, `held, `tasks, `journal, `outstanding, `published, `confirmed, `ackSent,
               `acked, `publishes, `confirms, `ackSends
      ensures Inv() && Outcome()
      ensures op.Crashed? ==> held == {}
      ensures op.Fine? ==> ackSent && journal == Some(Journal(SourceAcked, p.payload.messageId))
      ensures published ==> Guarded(m, p, args) && again.ready && again.payload == p.payload
    {
      again := Arbitrary<Preflight>();
      if !Ready(p, m) || args.messageId != Some(p.payload.messageId) || args.deathTime != Some(m.times[0]) {
        return Threw, again;
      }
      if !again.ready || again.payload != p.payload { return Threw, again; }
      op := Republish(m, p.payload.messageId);
      if !op.Fine? { return; }
      op := AckSource(m, p.payload.messageId);
    }

    /** Look for the one letter of the target run, giving the others back. */
    method Find() returns (op: Op, p: Preflight, m: Letter, ghost fetched: nat)
      requires Idle() && outstanding == {}
      modifies `dead, `held, `outstanding
      ensures Inv() && Moved()
      ensures op.Crashed? ==> held == {}
      ensures op.Fine? ==> IsTarget(m.body) && forall k :: k in held ==> k == m
      ensures fetched <= 20
    {
      op, m, fetched := Threw, Letter(0, "", "", false, []), 0;
      p := Arbitrary<Preflight>();
      var connected := Arbitrary<bool>();
      var ready := Arbitrary<nat>();
      if !connected || ready > MAX_DEAD_LETTERS_TO_INSPECT { return; }
      var matches;
      op, matches, fetched := Inspect(ready);
      if !op.Fine? { return; }
      op := ReturnOthers(matches);
      if !op.Fine? { return; }
      if |matches| != 1 {
        op := Threw;
      } else {
        m := matches[0];
      }
    }

    /** The body of the `try` of `main`. */
    method Attempt(args: Args) returns (op: Op, code: nat, ghost source: Option<(Letter, Preflight)>)
      requires Idle() && outstanding == {} && !published && !confirmed && !ackSent
      requires args.execute ==> Untried()
      modifies `dead, `held, `tasks, `journal, `outstanding, `published, `confirmed, `ackSent,
               `acked, `publishes, `confirms, `ackSends
      ensures Inv() && Outcome()
      ensures op.Crashed? ==> held == {}
      ensures !args.execute ==> !published && journal == old(journal)
      ensures op.Fine? && args.execute ==> ackSent && journal.Some? && journal.value.stage.SourceAcked?
      ensures published <==> source.Some?
      ensures source.Some? ==> Guarded(source.value.0, source.value.1, args)
      ensures code == 0 || code == 2
    {
      code, source := 2, None;
      var p, m;
      ghost var fetched;
      op, p, m, fetched := Find();
      if !op.Fine? { return; }
      if args.execute {
        var again;
        op, again := Execute(m, p, args);
        source, code := if published then Some((m, p)) else None, 0;
      } else {
        op := Nack(m);
        if !op.Fine? { return; }
        outstanding := outstanding - {m};
        code := if Ready(p, m) then 0 else 2;
      }
    }

    /** The `finally` of `main`: every letter still outstanding is handed back. */
    method GiveBack() returns (op: Op)
      requires Inv()
      modifies `dead, `held
      ensures Inv() && Moved() && !op.Threw?
      ensures op.Crashed? ==> held == {}
    {
      op := Fine;
      var rest := outstanding;
      while rest != {}
        invariant Inv() && Moved() && op.Fine?
        decreases |rest|
      {
        var m :| m in rest;
        rest := rest - {m};
        op := Nack(m);
        if op.Crashed? { return; }
        op := Fine;
      }
    }

    /** The `try` and the `finally`. */
    method Work(args: Args) returns (op: Op, code: nat, ghost source: Option<(Letter, Preflight)>)
      requires Idle() && outstanding == {} && !published && !confirmed && !ackSent
      requires args.execute ==> Untried()
      modifies `dead, `held, `tasks, `journal, `outstanding, `published, `confirmed, `ackSent,
               `acked, `publishes, `confirms, `ackSends
      ensures Idle() && Outcome() && !op.Threw?
      ensures !args.execute ==> !published && journal == old(journal)
      ensures op.Fine? && args.execute && code == 0 ==> ackSent && journal.Some? && journal.value.stage.SourceAcked?
      ensures published <==> source.Some?
      ensures source.Some? ==> Guarded(source.value.0, source.value.1, args)
      ensures code == 0 || code == 2
    {
      op, code, source := Attempt(args);
      if op.Threw? { code := 2; }
      if !op.Crashed? { op := GiveBack(); }
      Disconnect();
    }

    /** `main`, one process from start to exit or crash (no report).  Whatever happens, the letters
        other than the source are where they were; a report that the source is preserved is true. */
    method Run(args: Args) returns (report: Option<Report>, ghost source: Option<(Letter, Preflight)>)
      requires Idle()
      modifies this
      ensures Idle() && all == old(all)
      ensures forall k :: k !in ackSends ==> (k in dead <==> k in old(dead))
      ensures ackSends == old(ackSends) ==> dead == old(dead)
      ensures old(journal).Some? || !args.execute ==>
              journal == old(journal) && publishes == old(publishes) && ackSends == old(ackSends)
      ensures old(publishes) <= publishes
      ensures report.Some? ==> (report.value.preserved <==> ackSends == old(ackSends))
      ensures report.Some? ==> report.value.exitCode == 0 || report.value.exitCode == 2
      ensures publishes != old(publishes) ==> source.Some? && Guarded(source.value.0, source.value.1, args)
      ensures report.Some? ==> (report.value.published <==> publishes != old(publishes))
      ensures report.Some? ==> (report.value.confirmed <==> confirms != old(confirms))
      ensures report.Some? ==> (report.value.ackSent <==> ackSends != old(ackSends))
      ensures report.Some? && args.execute && report.value.exitCode == 0 ==>
                ackSends != old(ackSends) && journal.Some? && journal.value.stage.SourceAcked?
    {
      if Refused(args, journal.Some?) { return Some(Report(2, false, false, false, true)), None; }
      report, source := RunAccepted(args);
    }

    /** Arguments that do not go together, or a journal in the way. */
    predicate Refused(args: Args, journalExists: bool) {
      || (args.execute && (Missing(args.messageId) || Missing(args.deathTime)))
      || (!args.execute && (args.messageId.Some? || args.deathTime.Some?))
      || (args.execute && journalExists)
    }

    /** Exactly these arguments are turned away before anything is touched. */
    lemma RefusedMeans(args: Args, journalExists: bool)
      ensures args.execute ==>
                (Refused(args, journalExists) <==>
                   journalExists || args.messageId in {None, Some("")} || args.deathTime in {None, Some("")})
      ensures !args.execute ==> (Refused(args, journalExists) <==> args.messageId != None || args.deathTime != None)
    {}

    method RunAccepted(args: Args) returns (report: Option<Report>, ghost source: Option<(Letter, Preflight)>)
      requires Idle() && !Refused(args, journal.Some?)
      modifies this
      ensures Idle() && all == old(all) && Outcome()
      ensures !args.execute ==> !published && journal == old(journal)
      ensures report.Some? ==> Reports(report.value)
      ensures report.Some? && args.execute && report.value.exitCode == 0 ==>
                ackSent && journal.Some? && journal.value.stage.SourceAcked?
      ensures published <==> source.Some?
      ensures source.Some? ==> Guarded(source.value.0, source.value.1, args)
      ensures report.Some? ==> report.value.exitCode == 0 || report.value.exitCode == 2
    {
      outstanding, published, confirmed, ackSent := {}, false, false, false;
      var op, code;
      op, code, source := Work(args);
      report := if op.Crashed? then None else Some(Report(code, published, confirmed, ackSent, !ackSent));
    }

    predicate Reports(r: Report) reads this {
      r.published == published && r.confirmed == confirmed && r.ackSent == ackSent && r.preserved == !ackSent
    }
  }

  predicate Missing(arg: Option<string>) { arg.None? || arg.value == "" }

  /** Any number of runs of the tool, whatever their arguments, each finished or crashed at any
      step: no letter is lost, and there is at most one publish and one acknowledgement. */
  method Operate(site: Site, runs: seq<Args>) returns (reports: seq<Option<Report>>)
    requires site.Idle() && site.publishes == [] && site.ackSends == {}
    modifies site
    ensures site.Idle() && |reports| == |runs|
    ensures |site.publishes| <= 1
    ensures forall b :: b in site.publishes ==> site.decode(b).Some? && site.decode(b).value.runId == TARGET
    ensures forall m :: m in old(site.dead) ==> m in site.dead || (m.body in site.tasks && site.publishes == [m.body])
    ensures forall m, k :: m in old(site.dead) && k in old(site.dead) && m !in site.dead && k !in site.dead ==> m == k
  {
    reports := [];
    var i := 0;
    while i < |runs|
      invariant 0 <= i <= |runs| == i + (|runs| - |reports|)
      invariant site.Idle() && site.all == old(site.all)
    {
      var report, _ := site.Run(runs[i]);
      reports := reports + [report];
      i := i + 1;
    }
    forall m | m in old(site.dead) ensures m in site.dead || (m.body in site.tasks && site.publishes == [m.body]) {
      site.NothingIsLost(m);
    }
  }
}
