/** What cleaning up after an API case means (`_run_cleanups` of runner/api_pipeline.py).

    A cleanup pass is a list of steps fixed before the first one runs: the registered
    resources, last registered first, then the plan cleanups no resource is bound to, last
    first.  `Play` takes the steps one after the other; an error in one step only shows in
    that step's result.  The HTTP or SQL work of a step is the deterministic function `run`
    over the Runtime Context and the outside world. */
module Cleanup {
  import opened Wire
  import opened Template

  datatype Policy = Always | OnSuccess | OnFailure | Never | OtherPolicy

  /** A JSON field that should be a boolean. */
  datatype Switch = On | Off | NotBoolean

  datatype CleanupSpec = CleanupSpec(id: Option<string>, policy: Policy, enabled: Switch, body: Json)

  datatype Outcome = SUCCESS | FAILURE | CANCELLED | TIMEOUT | OtherOutcome

  datatype Status = PENDING | CLEANED | FAILED | SKIPPED

  /** An exception, by its `error_type`. */
  datatype Problem = Problem(errorType: Option<string>)

  datatype Resource = Resource(
    sequence: nat, name: string, resourceType: string, id: string, cleanup: CleanupSpec,
    status: Status, attempts: nat, error: Option<string>)

  datatype State<W> = State(context: Context, world: W)

  datatype Effect<W> = Effect(state: State<W>, problem: Option<Problem>)

  type Runtime<!W> = (CleanupSpec, State<W>) -> Effect<W>

  // ---------------------------------------------------------------- one step

  datatype Decision = Refuse | Skip | Perform

  function Decide(c: CleanupSpec, o: Outcome): Decision {
    if c.enabled.NotBoolean? || c.policy.OtherPolicy? then Refuse
    else if c.enabled.Off? || c.policy.Never? then Skip
    else if c.policy.OnSuccess? && !o.SUCCESS? then Skip
    else if c.policy.OnFailure? && o.SUCCESS? then Skip
    else Perform
  }

  /** A well-formed cleanup is due when it is switched on and its policy names the outcome:
      every outcome but SUCCESS counts as a failure. */
  lemma DueMeans(c: CleanupSpec, o: Outcome)
    requires !c.enabled.NotBoolean? && !c.policy.OtherPolicy?
    ensures !Decide(c, o).Refuse?
    ensures Decide(c, o).Perform? <==> c.enabled.On? && match c.policy {
              case Always => true case OnSuccess => o == SUCCESS case OnFailure => o != SUCCESS case _ => false }
  {}

  /** A cleanup, with the resource it is for if there is one. */
  datatype Step = Step(cleanup: CleanupSpec, resource: Option<string>)

  datatype StepResult<W> = StepResult(state: State<W>, problem: Option<Problem>, status: Status)

  const RESOURCE_ID := "resource_id"

  /** `_run_one_cleanup` */
  function Attempt<W>(c: CleanupSpec, st: State<W>, o: Outcome, run: Runtime<W>): StepResult<W> {
    match Decide(c, o)
    case Refuse => StepResult(st, Some(Problem(None)), FAILED)
    case Skip => StepResult(st, None, SKIPPED)
    case Perform =>
      var e := run(c, st);
      StepResult(e.state, e.problem, if e.problem.Some? then FAILED else CLEANED)
  }

  function PutBack(ctx: Context, before: Context): Context {
    if RESOURCE_ID in before then ctx[RESOURCE_ID := before[RESOURCE_ID]] else ctx - {RESOURCE_ID}
  }

  function Take<W>(step: Step, st: State<W>, o: Outcome, run: Runtime<W>): StepResult<W> {
    match step.resource
    case None => Attempt(step.cleanup, st, o, run)
    case Some(id) =>
      var r := Attempt(step.cleanup, st.(context := st.context[RESOURCE_ID := Str(id)]), o, run);
      r.(state := r.state.(context := PutBack(r.state.context, st.context)))
  }

  // ---------------------------------------------------------------- a whole pass

  function Ended<W>(results: seq<StepResult<W>>, st: State<W>): State<W> {
    if results == [] then st else results[|results| - 1].state
  }

  function Play<W>(steps: seq<Step>, st: State<W>, o: Outcome, run: Runtime<W>): (results: seq<StepResult<W>>)
    ensures |results| == |steps|
  {
    if steps == [] then []
    else
      var n := |steps| - 1;
      var before := Play(steps[..n], st, o, run);
      before + [Take(steps[n], Ended(before, st), o, run)]
  }

  function FirstProblem<W>(results: seq<StepResult<W>>): Option<Problem> {
    if results == [] then None
    else
      var n := |results| - 1;
      var before := FirstProblem(results[..n]);
      if before.Some? then before else results[n].problem
  }

  function StepFor(r: Resource): Step { Step(r.cleanup, Some(r.id)) }

  function ResourceSteps(rs: seq<Resource>): seq<Step> {
    seq(|rs|, i requires 0 <= i < |rs| => StepFor(rs[|rs| - 1 - i]))
  }

  /** The cleanup ids some resource is bound to. */
  function Bound(rs: seq<Resource>): set<string> {
    set r | r in rs && r.cleanup.id.Some? :: r.cleanup.id.value
  }

  predicate IsBound(c: CleanupSpec, bound: set<string>) { c.id.Some? && c.id.value in bound }

  function PlanSteps(plan: seq<CleanupSpec>, bound: set<string>): seq<Step> {
    if plan == [] then []
    else
      var n := |plan| - 1;
      (if IsBound(plan[n], bound) then [] else [Step(plan[n], None)]) + PlanSteps(plan[..n], bound)
  }

  function Schedule(rs: seq<Resource>, plan: seq<CleanupSpec>): seq<Step> {
    ResourceSteps(rs) + PlanSteps(plan, Bound(rs))
  }

  /** What a step leaves in the record of its resource. */
  function Recorded<W>(r: Resource, s: StepResult<W>): Resource {
    r.(status := s.status,
       attempts := if s.status.SKIPPED? then r.attempts else 1,
       error := if s.problem.None? then r.error else Some(CodeOf(s.problem.value)))
  }

  function CodeOf(p: Problem): string {
    if p.errorType.Some? && p.errorType.value != "" then p.errorType.value else "CLEANUP_EXECUTION_ERROR"
  }

  datatype Cleaned<W> = Cleaned(resources: seq<Resource>, state: State<W>, problem: Option<Problem>)

  /** The result of cleaning up: resource `i` is the step `|rs| - 1 - i` of the schedule. */
  function CleanUp<W>(
      rs: seq<Resource>, plan: seq<CleanupSpec>, st: State<W>, o: Outcome, run: Runtime<W>): Cleaned<W>
  {
    var results := Play(Schedule(rs, plan), st, o, run);
    Cleaned(seq(|rs|, i requires 0 <= i < |rs| => Recorded(rs[i], results[|rs| - 1 - i])),
            Ended(results, st), FirstProblem(results))
  }

  /** A cleanup that is really sent, and the state it is sent in. */
  datatype CleanupCall<W> = CleanupCall(cleanup: CleanupSpec, state: State<W>)

  /** The state a step is tried in: a resource step has the id of its resource in the context. */
  function Entered<W>(step: Step, st: State<W>): State<W> {
    if step.resource.Some? then st.(context := st.context[RESOURCE_ID := Str(step.resource.value)]) else st
  }

  /** The cleanups that are sent, in order. */
  function Performed<W>(steps: seq<Step>, st: State<W>, o: Outcome, run: Runtime<W>): seq<CleanupCall<W>> {
    if steps == [] then []
    else
      var n := |steps| - 1;
      Performed(steps[..n], st, o, run) + CallsOf(steps[n], Ended(Play(steps[..n], st, o, run), st), o)
  }

  function CallsOf<W>(step: Step, st: State<W>, o: Outcome): seq<CleanupCall<W>> {
    if Decide(step.cleanup, o).Perform? then [CleanupCall(step.cleanup, Entered(step, st))] else []
  }

  // ---------------------------------------------------------------- what the pass covers

  lemma ResourceStepAt(rs: seq<Resource>, plan: seq<CleanupSpec>, k: nat)
    requires k < |rs|
    ensures Schedule(rs, plan)[k] == StepFor(rs[|rs| - 1 - k])
  {
  }

  /** Where in the plan the cleanups outside the resources come from. */
  function UnboundAt(plan: seq<CleanupSpec>, bound: set<string>): (at: seq<nat>)
    ensures forall k :: 0 <= k < |at| ==> at[k] < |plan|
  {
    if plan == [] then []
    else
      var n := |plan| - 1;
      (if IsBound(plan[n], bound) then [] else [n]) + UnboundAt(plan[..n], bound)
  }

  /** The plan cleanups of the pass are cleanups no resource is bound to, ... */
  lemma {:induction false} PlanStepIsUnbound(plan: seq<CleanupSpec>, bound: set<string>, k: nat)
    requires k < |UnboundAt(plan, bound)| || k < |PlanSteps(plan, bound)|
    ensures |PlanSteps(plan, bound)| == |UnboundAt(plan, bound)|
    ensures var j := UnboundAt(plan, bound)[k];
            PlanSteps(plan, bound)[k] == Step(plan[j], None) && !IsBound(plan[j], bound)
  {
    var n := |plan| - 1;
    if IsBound(plan[n], bound) {
      PlanStepIsUnbound(plan[..n], bound, k);
    } else if k > 0 {
      PlanStepIsUnbound(plan[..n], bound, k - 1);
    } else if n > 0 && (PlanSteps(plan[..n], bound) != [] || UnboundAt(plan[..n], bound) != []) {
      PlanStepIsUnbound(plan[..n], bound, 0);
    }
  }

  /** ... last first and so none twice, ... */
  lemma {:induction false} PlanStepsGoBackwards(plan: seq<CleanupSpec>, bound: set<string>, k: nat, l: nat)
    requires k < l < |UnboundAt(plan, bound)|
    ensures UnboundAt(plan, bound)[l] < UnboundAt(plan, bound)[k]
  {
    var n := |plan| - 1;
    if IsBound(plan[n], bound) {
      PlanStepsGoBackwards(plan[..n], bound, k, l);
    } else if k > 0 {
      PlanStepsGoBackwards(plan[..n], bound, k - 1, l - 1);
    }
  }

  /** ... and all of them. */
  lemma {:induction false} NoUnboundIsMissed(plan: seq<CleanupSpec>, bound: set<string>, j: nat)
    requires j < |plan| && !IsBound(plan[j], bound)
    ensures j in UnboundAt(plan, bound)
  {
    var n := |plan| - 1;
    if j == n {
      assert UnboundAt(plan, bound)[0] == n;
    } else {
      NoUnboundIsMissed(plan[..n], bound, j);
    }
  }

  lemma {:induction false} FirstProblemIsFirst<W>(results: seq<StepResult<W>>, k: nat)
    requires k < |results| && results[k].problem.Some?
    requires forall j :: 0 <= j < k ==> results[j].problem.None?
    ensures FirstProblem(results) == results[k].problem
    decreases |results|
  {
    var n := |results| - 1;
    if k < n {
      FirstProblemIsFirst(results[..n], k);
    } else {
      NoProblem(results[..n]);
    }
  }

  lemma {:induction false} NoProblem<W>(results: seq<StepResult<W>>)
    requires forall j :: 0 <= j < |results| ==> results[j].problem.None?
    ensures FirstProblem(results).None?
  {
    if results != [] { NoProblem(results[..|results| - 1]); }
  }

  lemma PlayPrefix<W>(steps: seq<Step>, k: nat, st: State<W>, o: Outcome, run: Runtime<W>)
    requires k <= |steps|
    ensures Play(steps[..k], st, o, run) == Play(steps, st, o, run)[..k]
  {
    if k < |steps| {
      PlayPrefix(steps[..|steps| - 1], k, st, o, run);
      assert steps[..|steps| - 1][..k] == steps[..k];
    } else {
      assert steps[..k] == steps;
    }
  }

  /** The k-th step starts where the step before it ended, whatever happened in it. */
  lemma StepAt<W>(steps: seq<Step>, k: nat, st: State<W>, o: Outcome, run: Runtime<W>)
    requires k < |steps|
    ensures var results := Play(steps, st, o, run);
            results[k] == Take(steps[k], Ended(results[..k], st), o, run)
  {
    PlayPrefix(steps, k + 1, st, o, run);
    PlayPrefix(steps, k, st, o, run);
    assert steps[..k + 1][..k] == steps[..k];
  }

  /** A registered resource ends with one attempt exactly when its cleanup was not skipped, and
      a failed one carries an error code. */
  lemma AttemptedOnce<W>(rs: seq<Resource>, plan: seq<CleanupSpec>, st: State<W>, o: Outcome, run: Runtime<W>, i: nat)
    requires i < |rs| && rs[i].status.PENDING? && rs[i].attempts == 0 && rs[i].error.None?
    ensures var r := CleanUp(rs, plan, st, o, run).resources[i];
            && r.status != PENDING
            && (r.attempts == 1 <==> r.status != SKIPPED)
            && (r.attempts == 0 <==> r.status == SKIPPED)
            && (r.status == SKIPPED <==> Decide(rs[i].cleanup, o).Skip?)
            && (r.error.Some? <==> r.status == FAILED)
            && (Decide(rs[i].cleanup, o).Refuse? ==> r.status == FAILED)
  {
    StepAt(Schedule(rs, plan), |rs| - 1 - i, st, o, run);
    ResourceStepAt(rs, plan, |rs| - 1 - i);
  }

  // ---------------------------------------------------------------- resource_id

  predicate SameId(a: Context, b: Context) {
    (RESOURCE_ID in a <==> RESOURCE_ID in b) && (RESOURCE_ID in a ==> a[RESOURCE_ID] == b[RESOURCE_ID])
  }

  /** After every resource step `resource_id` is again absent, or present with its old value. */
  lemma {:induction false} ResourceStepsPutBack<W>(
      rs: seq<Resource>, plan: seq<CleanupSpec>, st: State<W>, o: Outcome, run: Runtime<W>, k: nat)
    requires k < |rs|
    ensures SameId(Play(Schedule(rs, plan), st, o, run)[k].state.context, st.context)
    decreases k
  {
    StepAt(Schedule(rs, plan), k, st, o, run);
    ResourceStepAt(rs, plan, k);
    if k > 0 { ResourceStepsPutBack(rs, plan, st, o, run, k - 1); }
  }

  const AFFECTED_ROWS := "affected_rows"

  /** The two contexts differ at most in `affected_rows`. */
  ghost predicate OnlyRows(a: Context, b: Context) {
    forall k :: k != AFFECTED_ROWS ==> (k in a <==> k in b) && (k in a ==> a[k] == b[k])
  }

  /** What `run_embedded_cleanup` may do to the context: an API cleanup writes nothing, an SQL
      cleanup can only name its result `affected_rows`.  It may do so and still fail. */
  ghost predicate Modest<W(!new)>(run: Runtime<W>) {
    forall c: CleanupSpec, s: State<W> :: OnlyRows(s.context, run(c, s).state.context)
  }

  lemma StepKeepsContext<W(!new)>(step: Step, st: State<W>, o: Outcome, run: Runtime<W>)
    requires Modest(run)
    ensures OnlyRows(st.context, Take(step, st, o, run).state.context)
  {
    if step.resource.Some? {
      var entered := st.(context := st.context[RESOURCE_ID := Str(step.resource.value)]);
      assert OnlyRows(entered.context, Attempt(step.cleanup, entered, o, run).state.context);
    }
  }

  lemma {:induction false} StepsKeepContext<W(!new)>(steps: seq<Step>, st: State<W>, o: Outcome, run: Runtime<W>)
    requires Modest(run)
    ensures OnlyRows(st.context, Ended(Play(steps, st, o, run), st).context)
  {
    if steps != [] {
      var n := |steps| - 1;
      StepsKeepContext(steps[..n], st, o, run);
      StepKeepsContext(steps[n], Ended(Play(steps[..n], st, o, run), st), o, run);
    }
  }

  /** The whole pass, with all its failures, leaves the context as it was except for
      `affected_rows`; in particular `resource_id` keeps its presence and its value. */
  lemma PassKeepsContext<W(!new)>(rs: seq<Resource>, plan: seq<CleanupSpec>, st: State<W>, o: Outcome, run: Runtime<W>)
    requires Modest(run)
    ensures OnlyRows(st.context, CleanUp(rs, plan, st, o, run).state.context)
    ensures SameId(st.context, CleanUp(rs, plan, st, o, run).state.context)
  {
    StepsKeepContext(Schedule(rs, plan), st, o, run);
  }

  // ---------------------------------------------------------------- what every step does

  /** Switched on, and the policy names the outcome. */
  predicate IsDue(c: CleanupSpec, o: Outcome) {
    && c.enabled == On
    && (c.policy == Always || (c.policy == OnSuccess && o == SUCCESS) || (c.policy == OnFailure && o != SUCCESS))
  }

  /** Something about the cleanup is not well formed. */
  predicate IsMalformed(c: CleanupSpec) { c.enabled == NotBoolean || c.policy == OtherPolicy }

  /** The state the k-th step finds. */
  function Found<W>(results: seq<StepResult<W>>, st: State<W>, k: nat): State<W>
    requires k <= |results|
  {
    if k == 0 then st else results[k - 1].state
  }

  /** The context a resource's cleanup is sent with: as found, with the id of the resource. */
  ghost predicate HasId(found: Context, sent: Context, id: string) {
    && "resource_id" in sent && sent["resource_id"] == Str(id)
    && SameElsewhere(found, sent)
  }

  ghost predicate SameElsewhere(a: Context, b: Context) {
    forall key :: (key in a || key in b) && key != "resource_id" ==> key in a && key in b && a[key] == b[key]
  }

  /** What a cleanup that was sent leaves in the result of its step. */
  ghost predicate Reported<W>(e: Effect<W>, r: StepResult<W>) {
    && r.problem == e.problem && r.status == (if e.problem.Some? then FAILED else CLEANED)
    && r.state.world == e.state.world && SameElsewhere(e.state.context, r.state.context)
  }

  /** The k-th resource round, for the k-th resource from the end.  A cleanup that is due is sent
      in the state found with the id of its resource in the context, and its effect is the result;
      one that is not due changes nothing. */
  lemma ResourceRound<W>(
      rs: seq<Resource>, plan: seq<CleanupSpec>, st: State<W>, o: Outcome, run: Runtime<W>, k: nat)
    returns (sent: State<W>)
    requires k < |rs|
    ensures var results, r := Play(Schedule(rs, plan), st, o, run), rs[|rs| - 1 - k];
            var found := Found(results, st, k);
            && sent.world == found.world && HasId(found.context, sent.context, r.id)
            && (IsDue(r.cleanup, o) ==>
                  Reported(run(r.cleanup, sent), results[k]) &&
                  CleanupCall(r.cleanup, sent) in Performed(Schedule(rs, plan), st, o, run))
            && (!IsDue(r.cleanup, o) ==> results[k].state.world == found.world &&
                                         SameElsewhere(found.context, results[k].state.context))
            && (!IsDue(r.cleanup, o) && IsMalformed(r.cleanup) ==>
                  results[k].status == FAILED && results[k].problem == Some(Problem(None)))
            && (!IsDue(r.cleanup, o) && !IsMalformed(r.cleanup) ==>
                  results[k].status == SKIPPED && results[k].problem.None?)
  {
    var steps := Schedule(rs, plan);
    ResourceStepAt(rs, plan, k);
    StepAt(steps, k, st, o, run);
    var results := Play(steps, st, o, run);
    assert Ended(results[..k], st) == Found(results, st, k);
    sent := Entered(steps[k], Found(results, st, k));
    if IsDue(steps[k].cleanup, o) { SentAtStep(steps, k, st, o, run); }
  }

  /** A plan cleanup outside the resources is sent in the state found. */
  lemma PlanRound<W>(
      rs: seq<Resource>, plan: seq<CleanupSpec>, st: State<W>, o: Outcome, run: Runtime<W>, k: nat)
    requires |rs| <= k < |Schedule(rs, plan)|
    ensures var results, c := Play(Schedule(rs, plan), st, o, run), Schedule(rs, plan)[k].cleanup;
            var found := Found(results, st, k);
            && (IsDue(c, o) ==>
                  && results[k].state == run(c, found).state && results[k].problem == run(c, found).problem
                  && results[k].status == (if run(c, found).problem.Some? then FAILED else CLEANED)
                  && CleanupCall(c, found) in Performed(Schedule(rs, plan), st, o, run))
            && (!IsDue(c, o) ==> results[k].state == found)
            && (!IsDue(c, o) && IsMalformed(c) ==> results[k].problem == Some(Problem(None)))
            && (!IsDue(c, o) && !IsMalformed(c) ==> results[k].problem.None?)
  {
    var steps := Schedule(rs, plan);
    StepAt(steps, k, st, o, run);
    var results := Play(steps, st, o, run);
    assert Ended(results[..k], st) == Found(results, st, k);
    PlanStepIsUnbound(plan, Bound(rs), k - |rs|);
    if IsDue(steps[k].cleanup, o) { SentAtStep(steps, k, st, o, run); }
  }

  lemma {:induction false} SentAtStep<W>(steps: seq<Step>, k: nat, st: State<W>, o: Outcome, run: Runtime<W>)
    requires k < |steps| && Decide(steps[k].cleanup, o).Perform?
    ensures CleanupCall(steps[k].cleanup, Entered(steps[k], Ended(Play(steps, st, o, run)[..k], st)))
              in Performed(steps, st, o, run)
    decreases |steps|
  {
    var n := |steps| - 1;
    PlayPrefix(steps, n, st, o, run);
    if k < n {
      SentAtStep(steps[..n], k, st, o, run);
      assert Play(steps, st, o, run)[..n][..k] == Play(steps, st, o, run)[..k];
    }
  }

  /** The positions of the steps that are due. */
  function DueAt(steps: seq<Step>, o: Outcome): (at: seq<nat>)
    ensures forall j :: 0 <= j < |at| ==> at[j] < |steps| && IsDue(steps[at[j]].cleanup, o)
    ensures forall i, j :: 0 <= i < j < |at| ==> at[i] < at[j]
  {
    if steps == [] then []
    else
      var n := |steps| - 1;
      DueAt(steps[..n], o) + if IsDue(steps[n].cleanup, o) then [n] else []
  }

  lemma {:induction false} AsManySent<W>(steps: seq<Step>, st: State<W>, o: Outcome, run: Runtime<W>)
    ensures |Performed(steps, st, o, run)| == |DueAt(steps, o)|
  {
    if steps != [] { AsManySent(steps[..|steps| - 1], st, o, run); }
  }

  lemma {:induction false} SentAs<W>(steps: seq<Step>, st: State<W>, o: Outcome, run: Runtime<W>, j: nat)
    requires j < |DueAt(steps, o)| == |Performed(steps, st, o, run)|
    ensures var k := DueAt(steps, o)[j];
            Performed(steps, st, o, run)[j] ==
              CleanupCall(steps[k].cleanup, Entered(steps[k], Ended(Play(steps, st, o, run)[..k], st)))
    decreases |steps|
  {
    var n := |steps| - 1;
    AsManySent(steps[..n], st, o, run);
    PlayPrefix(steps, n, st, o, run);
    if j < |DueAt(steps[..n], o)| {
      SentAs(steps[..n], st, o, run, j);
      var k := DueAt(steps[..n], o)[j];
      assert Play(steps, st, o, run)[..k] == Play(steps[..n], st, o, run)[..k];
    }
  }

  /** What was sent is exactly the due steps, each once and in order, each in the state it found. */
  lemma SentInOrder<W>(steps: seq<Step>, st: State<W>, o: Outcome, run: Runtime<W>)
    ensures |Performed(steps, st, o, run)| == |DueAt(steps, o)|
    ensures forall j :: 0 <= j < |DueAt(steps, o)| ==>
              var k := DueAt(steps, o)[j];
              Performed(steps, st, o, run)[j] ==
                CleanupCall(steps[k].cleanup, Entered(steps[k], Ended(Play(steps, st, o, run)[..k], st)))
  {
    AsManySent(steps, st, o, run);
    forall j | 0 <= j < |DueAt(steps, o)|
      ensures var k := DueAt(steps, o)[j];
              Performed(steps, st, o, run)[j] ==
                CleanupCall(steps[k].cleanup, Entered(steps[k], Ended(Play(steps, st, o, run)[..k], st)))
    {
      SentAs(steps, st, o, run, j);
    }
  }

  /** What a step leaves in the record of its resource. */
  predicate RecordSays<W>(r: Resource, step: StepResult<W>, after: Resource) {
    && after.status == step.status
    && after.attempts == (if step.status == SKIPPED then r.attempts else 1)
    && (step.problem.None? ==> after.error == r.error)
    && (step.problem.Some? ==> after.error.Some? && SaysCode(step.problem.value.errorType, after.error.value))
    && after.id == r.id && after.sequence == r.sequence && after.cleanup == r.cleanup
  }

  predicate SaysCode(kind: Option<string>, code: string) {
    && (kind.Some? && kind.value != "" ==> code == kind.value)
    && (kind.None? || kind.value == "" ==> code == "CLEANUP_EXECUTION_ERROR")
  }

  lemma CodeMeans(p: Problem)
    ensures SaysCode(p.errorType, CodeOf(p))
  {}

  /** What the pass leaves in the record of a resource. */
  lemma {:induction false} RecordMeans<W>(
      rs: seq<Resource>, plan: seq<CleanupSpec>, st: State<W>, o: Outcome, run: Runtime<W>, i: nat)
    requires i < |rs|
    ensures RecordSays(rs[i], Play(Schedule(rs, plan), st, o, run)[|rs| - 1 - i],
                       CleanUp(rs, plan, st, o, run).resources[i])
  {
    var step := Play(Schedule(rs, plan), st, o, run)[|rs| - 1 - i];
    if step.problem.Some? { CodeMeans(step.problem.value); }
  }
}
