/** The API case executor (`ApiCasePipelineExecutor` of runner/api_pipeline.py): traced actions,
    the target request with its retries and its one token refresh, and cleanup now or later. */
module Pipeline {
  import opened Wire
  import opened Template
  import opened Cleanup

  const MAX_CONTEXT_BYTES := 64_000

  datatype Kind = SetVariable | Faker | PythonScript | SqlQuery | GetToken | ApiSetup
                | ExtractResponse | RegisterResource | OtherKind

  /** One configured action.  `fieldsOk` says the action has the field set its kind demands. */
  datatype Action = Action(
    kind: Kind, name: Option<string>, enabled: Switch, fieldsOk: bool, value: Json, request: Json,
    required: bool, fallback: Json, resourceType: Option<string>, metadata: Json,
    inlineCleanup: Option<CleanupSpec>, cleanupRef: Option<string>)

  datatype RetryPolicy = RetryPolicy(maxRetries: nat, retryOn: set<string>)

  datatype Plan = Plan(
    preActions: seq<Action>, extractors: seq<Action>, postActions: seq<Action>,
    cleanups: seq<CleanupSpec>, request: Json, policy: RetryPolicy, deferCleanup: bool)

  // ---------------------------------------------------------------- traces

  datatype Phase = PRE | AUTH_REFRESH | EXTRACTOR | POST

  /** SUCCESS, FAILED and SKIPPED of a trace. */
  datatype Mark = Succeeded | Broke | Disabled

  datatype Trace = Trace(phase: Phase, sequence: nat, kind: Kind, name: Option<string>, mark: Mark)

  /** An action about to be applied, with the Runtime Context it finds. */
  datatype Started = Started(phase: Phase, sequence: nat, context: Context)

  function Rank(p: Phase): nat {
    match p case PRE => 0 case AUTH_REFRESH => 1 case EXTRACTOR => 2 case POST => 3
  }

  function TokenActions(pre: seq<Action>): seq<Action> {
    if pre == [] then []
    else
      var n := |pre| - 1;
      TokenActions(pre[..n]) + if pre[n].kind.GetToken? && pre[n].enabled.On? then [pre[n]] else []
  }

  function ActionsOf(plan: Plan, p: Phase): seq<Action> {
    match p
    case PRE => plan.preActions
    case AUTH_REFRESH => TokenActions(plan.preActions)
    case EXTRACTOR => plan.extractors
    case POST => plan.postActions
  }

  /** May the action `sequence` of `phase` be the next one after these traces? */
  predicate Next(ts: seq<Trace>, phase: Phase, sequence: nat) {
    if ts == [] then sequence == 1
    else
      var last := ts[|ts| - 1];
      && !last.mark.Broke?
      && (if last.phase == phase then sequence == last.sequence + 1
          else Rank(last.phase) < Rank(phase) && sequence == 1)
  }

  /** The trace is that of the action with its number in its phase. */
  predicate Describes(t: Trace, plan: Plan) {
    var actions := ActionsOf(plan, t.phase);
    && 1 <= t.sequence <= |actions|
    && t.kind == actions[t.sequence - 1].kind
    && t.name == actions[t.sequence - 1].name
  }

  /** PRE*, AUTH_REFRESH*, EXTRACTOR*, POST*, each numbered from 1, and nothing after a failure. */
  predicate Ordered(ts: seq<Trace>, plan: Plan) {
    ts == [] || (var n := |ts| - 1;
                 Ordered(ts[..n], plan) && Next(ts[..n], ts[n].phase, ts[n].sequence) && Describes(ts[n], plan))
  }

  /** Nothing failed and nothing came after `phase`. */
  predicate Quiet(ts: seq<Trace>, phase: Phase) {
    ts == [] || (!ts[|ts| - 1].mark.Broke? && Rank(ts[|ts| - 1].phase) <= Rank(phase))
  }

  lemma OrderedExtends(ts: seq<Trace>, t: Trace, plan: Plan)
    requires Ordered(ts, plan) && Next(ts, t.phase, t.sequence) && Describes(t, plan)
    ensures Ordered(ts + [t], plan)
  {
    assert (ts + [t])[..|ts|] == ts;
  }

  /** In an ordered list any two traces keep order: same phase means consecutive numbers,
      a later phase comes later, and only the last trace can be a failure. */
  lemma {:induction false} OrderedMeans(ts: seq<Trace>, plan: Plan, i: nat, j: nat)
    requires Ordered(ts, plan) && i < j < |ts|
    ensures !ts[i].mark.Broke? && Rank(ts[i].phase) <= Rank(ts[j].phase)
    ensures ts[i].phase == ts[j].phase ==> ts[j].sequence - ts[i].sequence == j - i
    decreases |ts|
  {
    var n := |ts| - 1;
    if j < n {
      OrderedMeans(ts[..n], plan, i, j);
    } else if i < n - 1 {
      OrderedMeans(ts[..n], plan, i, n - 1);
    }
  }

  /** PRE before AUTH_REFRESH before EXTRACTOR before POST, each numbered from one. */
  lemma PhasesInOrder(ts: seq<Trace>, plan: Plan, i: nat, j: nat)
    requires Ordered(ts, plan) && i < j < |ts|
    ensures ts[j].phase == PRE ==> ts[i].phase == PRE
    ensures ts[j].phase == AUTH_REFRESH ==> ts[i].phase == PRE || ts[i].phase == AUTH_REFRESH
    ensures ts[i].phase == POST ==> ts[j].phase == POST
    ensures j == i + 1 && ts[i].phase != ts[j].phase ==> ts[j].sequence == 1
    decreases |ts|
  {
    OrderedMeans(ts, plan, i, j);
    var n := |ts| - 1;
    if j < n { PhasesInOrder(ts[..n], plan, i, j); }
  }

  /** A trace names the action of the plan it is about. */
  lemma {:induction false} TraceNamesItsAction(ts: seq<Trace>, plan: Plan, i: nat)
    requires Ordered(ts, plan) && i < |ts|
    ensures var t := ts[i];
            var actions := if t.phase == PRE then plan.preActions else if t.phase == EXTRACTOR then plan.extractors
                           else if t.phase == POST then plan.postActions else TokenActions(plan.preActions);
            && 1 <= t.sequence <= |actions|
            && t.kind == actions[t.sequence - 1].kind && t.name == actions[t.sequence - 1].name
    ensures i == 0 ==> ts[i].sequence == 1
    decreases |ts|
  {
    var n := |ts| - 1;
    if i < n { TraceNamesItsAction(ts[..n], plan, i); }
  }

  /** How many traces are of a phase. */
  function HowMany(ts: seq<Trace>, p: Phase): nat {
    if ts == [] then 0 else HowMany(ts[..|ts| - 1], p) + if ts[|ts| - 1].phase == p then 1 else 0
  }

  lemma {:induction false} CountMeans(ts: seq<Trace>)
    ensures Count(ts) == Tally(HowMany(ts, PRE), HowMany(ts, AUTH_REFRESH), HowMany(ts, EXTRACTOR), HowMany(ts, POST))
  {
    if ts != [] { CountMeans(ts[..|ts| - 1]); }
  }

  /** Every attempt has its own trace. */
  predicate Paired(started: seq<Started>, ts: seq<Trace>) {
    && |started| == |ts|
    && (ts == [] || (var n := |ts| - 1;
                     started[n].phase == ts[n].phase && started[n].sequence == ts[n].sequence &&
                         Paired(started[..n], ts[..n])))
  }

  lemma PairedExtends(started: seq<Started>, ts: seq<Trace>, s: Started, t: Trace)
    requires Paired(started, ts) && s.phase == t.phase && s.sequence == t.sequence
    ensures Paired(started + [s], ts + [t])
  {
    assert (started + [s])[..|ts|] == started && (ts + [t])[..|ts|] == ts;
  }

  lemma TraceExtends(started: seq<Started>, ts: seq<Trace>, s: Started, t: Trace, plan: Plan)
    requires Ordered(ts, plan) && Paired(started, ts) && Next(ts, t.phase, t.sequence) && Describes(t, plan)
    requires s.phase == t.phase && s.sequence == t.sequence
    ensures Ordered(ts + [t], plan) && Paired(started + [s], ts + [t])
    ensures !t.mark.Broke? ==> Next(ts + [t], t.phase, t.sequence + 1)
    ensures Count(ts + [t]) == Add(Count(ts), t.phase, 1)
  {
    OrderedExtends(ts, t, plan);
    PairedExtends(started, ts, s, t);
    assert (ts + [t])[..|ts|] == ts;
  }

  lemma {:induction false} PairedMeans(started: seq<Started>, ts: seq<Trace>, k: nat)
    requires Paired(started, ts) && k < |ts|
    ensures started[k].phase == ts[k].phase && started[k].sequence == ts[k].sequence
    decreases |ts|
  {
    var n := |ts| - 1;
    if k < n { PairedMeans(started[..n], ts[..n], k); }
  }

  /** How many traces each phase has. */
  datatype Tally = Tally(pre: nat, auth: nat, extractor: nat, post: nat)

  function Count(ts: seq<Trace>): Tally {
    if ts == [] then Tally(0, 0, 0, 0) else var n := |ts| - 1; Add(Count(ts[..n]), ts[n].phase, 1)
  }

  function Add(c: Tally, p: Phase, k: nat): Tally {
    match p
    case PRE => c.(pre := c.pre + k)
    case AUTH_REFRESH => c.(auth := c.auth + k)
    case EXTRACTOR => c.(extractor := c.extractor + k)
    case POST => c.(post := c.post + k)
  }

  // ---------------------------------------------------------------- target requests

  datatype Response = Response(status: int, body: Json)

  datatype HttpReply =
    Answer(response: Response) | TimedOut | NetworkError(errorType: string) | Refused(problem: Problem)

  datatype Sent = Sent(request: Json, reply: HttpReply)

  datatype TargetEnd = Answered(response: Response) | TargetFailed(reply: HttpReply) | Interrupted(problem: Problem)

  function EndOf(r: HttpReply): TargetEnd { if r.Answer? then Answered(r.response) else TargetFailed(r) }

  /** The exception a request without an answer raises. */
  function ProblemOf(r: HttpReply): Problem {
    match r
    case TimedOut => Problem(Some("TARGET_TIMEOUT"))
    case NetworkError(e) => Problem(Some(e))
    case Refused(p) => p
    case Answer(_) => Problem(None)
  }

  /** The retry reason of a reply, if it has one. */
  function ReasonOf(r: HttpReply): Option<string> {
    match r
    case TimedOut => Some("TARGET_TIMEOUT")
    case NetworkError(e) => Some(if e == "" then "TARGET_NETWORK_ERROR" else e)
    case Answer(a) => if 500 <= a.status <= 599 then Some("HTTP_5XX") else None
    case Refused(_) => None
  }

  predicate Retryable(r: HttpReply, policy: RetryPolicy) {
    ReasonOf(r).Some? && ReasonOf(r).value in policy.retryOn
  }

  predicate Unauthorized(r: HttpReply) { r.Answer? && r.response.status == 401 }

  /** How many of these replies were 401. */
  function Count401(ss: seq<Sent>): nat {
    if ss == [] then 0
    else var n := |ss| - 1; Count401(ss[..n]) + if Unauthorized(ss[n].reply) then 1 else 0
  }

  /** Each of these replies justified another request. */
  predicate AllJustified(ss: seq<Sent>, policy: RetryPolicy) {
    ss == [] || (var n := |ss| - 1;
                 AllJustified(ss[..n], policy) && (Unauthorized(ss[n].reply) || Retryable(ss[n].reply, policy)))
  }

  lemma JustifiedExtends(ss: seq<Sent>, s: Sent, policy: RetryPolicy)
    ensures AllJustified(ss + [s], policy)
       <==> AllJustified(ss, policy) && (Unauthorized(s.reply) || Retryable(s.reply, policy))
    ensures Count401(ss + [s]) == Count401(ss) + if Unauthorized(s.reply) then 1 else 0
  {
    assert (ss + [s])[..|ss|] == ss;
  }

  /** A reply the policy wants repeated, read off the reply itself. */
  predicate ListedReply(r: HttpReply, policy: RetryPolicy) {
    match r
    case Answer(a) => 500 <= a.status <= 599 && "HTTP_5XX" in policy.retryOn
    case TimedOut => "TARGET_TIMEOUT" in policy.retryOn
    case NetworkError(e) => (if e == "" then "TARGET_NETWORK_ERROR" else e) in policy.retryOn
    case Refused(_) => false
  }

  lemma RetryableMeans(r: HttpReply, policy: RetryPolicy)
    ensures Retryable(r, policy) <==> ListedReply(r, policy)
  {}

  /** Every earlier request was followed by another for a 401 or a listed reply, ... */
  lemma {:induction false} RepeatedReply(ss: seq<Sent>, policy: RetryPolicy, i: nat)
    requires AllJustified(ss, policy) && i < |ss|
    ensures (ss[i].reply.Answer? && ss[i].reply.response.status == 401) || ListedReply(ss[i].reply, policy)
  {
    var n := |ss| - 1;
    if i < n { RepeatedReply(ss[..n], policy, i); } else { RetryableMeans(ss[n].reply, policy); }
  }

  /** ... and not for more than one 401. */
  lemma {:induction false} AtMostOne401(ss: seq<Sent>, i: nat, j: nat)
    requires i < j < |ss| && ss[i].reply.Answer? && ss[i].reply.response.status == 401
    requires ss[j].reply.Answer? && ss[j].reply.response.status == 401
    ensures Count401(ss) >= 2
    decreases |ss|
  {
    var n := |ss| - 1;
    if j < n { AtMostOne401(ss[..n], i, j); } else { Some401(ss[..n], i); }
  }

  lemma {:induction false} Some401(ss: seq<Sent>, i: nat)
    requires i < |ss| && ss[i].reply.Answer? && ss[i].reply.response.status == 401
    ensures Count401(ss) >= 1
  {
    var n := |ss| - 1;
    if i < n { Some401(ss[..n], i); }
  }

  lemma {:induction false} No401(ss: seq<Sent>)
    requires forall i :: 0 <= i < |ss| ==> !(ss[i].reply.Answer? && ss[i].reply.response.status == 401)
    ensures Count401(ss) == 0
  {
    if ss != [] { No401(ss[..|ss| - 1]); }
  }

  /** What was sent, when the target phase ends with its own reply. */
  ghost predicate EndsWith(ss: seq<Sent>, end: TargetEnd, policy: RetryPolicy, retries: nat, exhausted: bool) {
    && |ss| > 0
    && var last := ss[|ss| - 1].reply;
    && var earlier := ss[..|ss| - 1];
    && (if end.Answered? then last == Answer(end.response) else end.TargetFailed? && last == end.reply && !last.Answer?)
    && (exhausted || !Retryable(last, policy))
    && AllJustified(earlier, policy)
    && Count401(earlier) <= 1
    && |earlier| == retries + Count401(earlier)
  }

  // ---------------------------------------------------------------- results

  datatype Execution =
    | Completed(response: Response, resources: seq<Resource>)
    | Deferred(response: Response, resources: seq<Resource>, context: Context)
    | PrimaryFailed(problem: Problem)
    | CleanupFailed(code: string)

  function OutcomeOf(p: Option<Problem>): Outcome {
    if p.None? then SUCCESS
    else if p.value.errorType == Some("TARGET_TIMEOUT") || p.value.errorType == Some("TOTAL_TIMEOUT") then TIMEOUT
    else FAILURE
  }

  /** The outcome cleanup policies look at: only an expired deadline counts as TIMEOUT. */
  lemma OutcomeMeans(p: Option<Problem>)
    ensures OutcomeOf(p) == SUCCESS <==> p == None
    ensures OutcomeOf(p) == TIMEOUT <==> p.Some? && p.value.errorType in {Some("TARGET_TIMEOUT"), Some("TOTAL_TIMEOUT")}
    ensures OutcomeOf(p) == FAILURE <==>
              p.Some? && p.value.errorType !in {Some("TARGET_TIMEOUT"), Some("TOTAL_TIMEOUT")}
  {}

  /** As `_register_resource` leaves them. */
  predicate Registered(rs: seq<Resource>) {
    rs == [] || (var n := |rs| - 1; Untouched(rs[n], |rs|) && Registered(rs[..n]))
  }

  predicate Untouched(r: Resource, sequence: nat) {
    r.sequence == sequence && r.status.PENDING? && r.attempts == 0 && r.error.None?
  }

  lemma RegisteredExtends(rs: seq<Resource>, r: Resource)
    requires Registered(rs) && Untouched(r, |rs| + 1)
    ensures Registered(rs + [r])
  {
    assert (rs + [r])[..|rs|] == rs;
  }

  lemma {:induction false} RegisteredMeans(rs: seq<Resource>, i: nat)
    requires Registered(rs) && i < |rs|
    ensures rs[i].sequence == i + 1 && rs[i].status == PENDING && rs[i].attempts == 0 && rs[i].error == None
  {
    var n := |rs| - 1;
    if i < n { RegisteredMeans(rs[..n], i); }
  }

  predicate Variable(name: Option<string>) { name.Some? && Name(name.value) && |name.value| <= 255 }

  function Matching(cleanups: seq<CleanupSpec>, id: string): seq<CleanupSpec> {
    if cleanups == [] then []
    else
      var n := |cleanups| - 1;
      Matching(cleanups[..n], id) + if cleanups[n].id == Some(id) then [cleanups[n]] else []
  }

  lemma {:induction false} MatchingHolds(cleanups: seq<CleanupSpec>, id: string, i: nat, j: nat)
    requires i < |cleanups| && cleanups[i].id == Some(id)
    ensures cleanups[i] in Matching(cleanups, id)
    ensures i < j < |cleanups| && cleanups[j].id == Some(id) ==> |Matching(cleanups, id)| >= 2
    decreases |cleanups|
  {
    var n := |cleanups| - 1;
    if i < n { MatchingHolds(cleanups[..n], id, i, j); }
  }

  function PutField(fields: seq<Field>, name: string, v: Json): seq<Field> {
    if fields == [] then [Field(name, v)]
    else if fields[0].key == name then [Field(name, v)] + fields[1..]
    else [fields[0]] + PutField(fields[1..], name, v)
  }

  /** The value of a field. */
  function Lookup(fields: seq<Field>, name: string): Option<Json> {
    if fields == [] then None else if fields[0].key == name then Some(fields[0].value) else Lookup(fields[1..], name)
  }

  /** A field that is put is found, and every other stays. */
  lemma {:induction false} PutFieldMeans(fields: seq<Field>, name: string, v: Json, other: string)
    ensures Lookup(PutField(fields, name, v), name) == Some(v)
    ensures other != name ==> Lookup(PutField(fields, name, v), other) == Lookup(fields, other)
  {
    if fields != [] && fields[0].key != name {
      PutFieldMeans(fields[1..], name, v, other);
      assert PutField(fields, name, v)[1..] == PutField(fields[1..], name, v);
    } else if fields == [] {
      assert [Field(name, v)][1..] == [];
    }
  }

  /** `__resources` of the context holds the resource under its name, next to what it held. */
  ghost predicate Listed(before: Context, after: Context, r: Resource) {
    && "__resources" in after && after["__resources"].Obj?
    && (forall k :: k != "__resources" ==> (k in after <==> k in before) && (k in after ==> after[k] == before[k]))
    && (exists metadata :: Lookup(after["__resources"].fields, r.name) ==
                           Some(Obj([Field("resource_type", Str(r.resourceType)), Field("resource_id", Str(r.id)),
                                     Field("metadata", metadata)])))
    && (forall name :: name != r.name ==>
          Lookup(after["__resources"].fields, name) ==
          if "__resources" in before && before["__resources"].Obj? then Lookup(before["__resources"].fields, name)
          else None)
  }

  lemma ListsIt(before: Context, known: seq<Field>, r: Resource, metadata: Json)
    requires if "__resources" in before then before["__resources"] == Obj(known) else known == []
    ensures var entry := Obj([Field("resource_type", Str(r.resourceType)), Field("resource_id", Str(r.id)),
                              Field("metadata", metadata)]);
            Listed(before, before["__resources" := Obj(PutField(known, r.name, entry))], r)
  {
    var entry := Obj([Field("resource_type", Str(r.resourceType)), Field("resource_id", Str(r.id)),
                      Field("metadata", metadata)]);
    PutFieldMeans(known, r.name, entry, r.name);
    forall name | name != r.name ensures Lookup(PutField(known, r.name, entry), name) == Lookup(known, name) {
      PutFieldMeans(known, r.name, entry, name);
    }
  }

  type Finder = (Action, Response) -> Reply<Option<Json>>

  lemma Assoc<T>(a: seq<T>, b: seq<T>, c: seq<T>)
    ensures (a + b) + c == a + (b + c)
  {
  }

  // ---------------------------------------------------------------- the executor

  class ApiCasePipelineExecutor<W(0, !new)> {
    const plan: Plan
    const run: Runtime<W>
    const show: Json -> string
    const bytes: Context -> Option<nat>
    /** What an extractor's source and expression find in a response; None is a missing value. */
    const find: Finder

    var context: Context
    var resources: seq<Resource>
    var traces: seq<Trace>
    var retryCount: nat
    var world: W

    ghost var started: seq<Started>
    ghost var sent: seq<Sent>
    ghost var performed: seq<CleanupCall<W>>

    constructor (plan: Plan, context: Context, world: W, run: Runtime<W>, show: Json -> string,
                 bytes: Context -> Option<nat>, find: Finder)
      ensures this.plan == plan && this.context == context && this.world == world && this.run == run
      ensures this.show == show && this.bytes == bytes && this.find == find
      ensures Fresh()
    {
      this.plan, this.context, this.world, this.run := plan, context, world, run;
      this.show, this.bytes, this.find := show, bytes, find;
      resources, traces, retryCount, started, sent, performed := [], [], 0, [], [], [];
    }

    ghost predicate Fresh() reads this {
      resources == [] && traces == [] && retryCount == 0 && started == [] && sent == [] && performed == []
    }

    ghost function Now(): State<W> reads this { State(context, world) }

    /** `_validate_context` accepts it. */
    predicate Fits(c: Context) { bytes(c).Some? && bytes(c).value <= MAX_CONTEXT_BYTES }

    /** Each of these attempts found a context of at most 64,000 bytes. */
    predicate AllFit(ss: seq<Started>) {
      ss == [] || (Fits(ss[|ss| - 1].context) && AllFit(ss[..|ss| - 1]))
    }

    lemma AllFitExtends(ss: seq<Started>, s: Started)
      requires AllFit(ss) && Fits(s.context)
      ensures AllFit(ss + [s])
    {
      assert (ss + [s])[..|ss|] == ss;
    }

    // -------------------------------------------------------------- cleanup

    /** `_run_one_cleanup` */
    method RunOneCleanup(c: CleanupSpec, outcome: Outcome) returns (problem: Option<Problem>, status: Status)
      modifies `context, `world, `performed
      ensures StepResult(Now(), problem, status) == Attempt(c, old(Now()), outcome, run)
      ensures performed == old(performed) + if Decide(c, outcome).Perform? then [CleanupCall(c, old(Now()))] else []
    {
      problem, status := None, SKIPPED;
      if c.enabled.NotBoolean? || c.policy.OtherPolicy? {
        return Some(Problem(None)), FAILED;
      }
      if c.enabled.Off? || c.policy.Never? { return; }
      if c.policy.OnSuccess? && !outcome.SUCCESS? { return; }
      if c.policy.OnFailure? && outcome.SUCCESS? { return; }
      performed := performed + [CleanupCall(c, Now())];
      var effect := run(c, State(context, world));
      context, world := effect.state.context, effect.state.world;
      problem := effect.problem;
      status := if problem.Some? then FAILED else CLEANED;
    }

    /** One round of the resource loop: `resource_id` is set for the cleanup and put back after it. */
    method CleanResource(r: Resource, outcome: Outcome) returns (after: Resource, problem: Option<Problem>)
      modifies `context, `world, `performed
      ensures var result := Take(StepFor(r), old(Now()), outcome, run);
              Now() == result.state && problem == result.problem && after == Recorded(r, result)
      ensures performed == old(performed) + CallsOf(StepFor(r), old(Now()), outcome)
    {
      var before := context;
      context := context[RESOURCE_ID := Str(r.id)];
      var status;
      problem, status := RunOneCleanup(r.cleanup, outcome);
      after := r.(status := status);
      if status.CLEANED? { after := after.(attempts := 1); }
      if problem.Some? { after := after.(attempts := 1, error := Some(CodeOf(problem.value))); }
      context := PutBack(context, before);
    }

    /** The resource loop with the resources from `i` on done. */
    ghost predicate CleaningFrom(i: nat, rs: seq<Resource>, st: State<W>, o: Outcome, start: seq<CleanupCall<W>>,
                                 marked: seq<Resource>, now: State<W>, first: Option<Problem>,
                                 done: seq<CleanupCall<W>>, bound: set<string>) {
      && i <= |rs| && bound == Bound(rs[i..])
      && PassSoFar(LastSteps(rs, i), st, o, now, first, done, start)
      && marked == MarkedFrom(rs, Play(LastSteps(rs, i), st, o, run), i)
    }

    lemma CleaningGoesOn(i: nat, rs: seq<Resource>, st: State<W>, o: Outcome, start: seq<CleanupCall<W>>,
                         marked: seq<Resource>, now: State<W>, first: Option<Problem>, done: seq<CleanupCall<W>>,
                         bound: set<string>)
      requires i < |rs| && CleaningFrom(i + 1, rs, st, o, start, marked, now, first, done, bound)
      ensures |marked| == |rs| && marked[i] == rs[i]
      ensures var r := Take(StepFor(rs[i]), now, o, run);
              CleaningFrom(i, rs, st, o, start, marked[i := Recorded(rs[i], r)], r.state,
                           if first.Some? then first else r.problem,
                           done + CallsOf(StepFor(rs[i]), now, o),
                           if rs[i].cleanup.id.Some? then bound + {rs[i].cleanup.id.value} else bound)
    {
      BoundGrows(rs, i);
      var steps, r := LastSteps(rs, i + 1), Take(StepFor(rs[i]), now, o, run);
      LastStepsGrow(rs, i);
      PassExtends(steps, StepFor(rs[i]), st, o, now, first, done, start);
      MarkedNext(rs, Play(steps, st, o, run), r, i);
    }

    /** The first loop of `_run_cleanups`: the resources, last registered first. */
    method CleanResources(outcome: Outcome) returns (first: Option<Problem>, bound: set<string>)
      modifies `context, `resources, `world, `performed
      ensures CleaningFrom(0, old(resources), old(Now()), outcome, old(performed), resources, Now(), first, performed,
              bound)
    {
      ghost var st, rs := Now(), resources;
      bound, first := {}, None;
      assert rs[|rs|..] == [] && LastSteps(rs, |rs|) == [];
      var i := |resources|;
      while i > 0
        invariant 0 <= i <= |rs| == |resources|
        invariant CleaningFrom(i, rs, st, outcome, old(performed), resources, Now(), first, performed, bound)
      {
        i := i - 1;
        first, bound := CleanAt(i, outcome, first, bound, rs, st, old(performed));
      }
    }

    /** One round of that loop. */
    method CleanAt(i: nat, outcome: Outcome, before: Option<Problem>, bound: set<string>,
                   ghost rs: seq<Resource>, ghost st: State<W>, ghost start: seq<CleanupCall<W>>)
        returns (first: Option<Problem>, more: set<string>)
      requires i < |rs| == |resources|
      requires CleaningFrom(i + 1, rs, st, outcome, start, resources, Now(), before, performed, bound)
      modifies `context, `resources, `world, `performed
      ensures |resources| == |rs|
      ensures CleaningFrom(i, rs, st, outcome, start, resources, Now(), first, performed, more)
    {
      var r := resources[i];
      CleaningGoesOn(i, rs, st, outcome, start, resources, Now(), before, performed, bound);
      more := if r.cleanup.id.Some? then bound + {r.cleanup.id.value} else bound;
      var after, problem := CleanResource(r, outcome);
      resources := resources[i := after];
      first := if before.Some? then before else problem;
    }

    /** The plan loop with the plan cleanups from `i` on done; `steps` are the steps taken. */
    ghost predicate PlanningFrom(i: nat, bound: set<string>, rs: seq<Resource>, st: State<W>, o: Outcome,
                                 start: seq<CleanupCall<W>>,
                                 steps: seq<Step>, now: State<W>, first: Option<Problem>, done: seq<CleanupCall<W>>) {
      && i <= |plan.cleanups| && |rs| <= |steps|
      && ResourceSteps(rs) + PlanSteps(plan.cleanups, bound) == steps + PlanSteps(plan.cleanups[..i], bound)
      && PassSoFar(steps, st, o, now, first, done, start)
      && MarkedFrom(rs, Play(steps, st, o, run), 0) == MarkedFrom(rs, Play(ResourceSteps(rs), st, o, run), 0)
    }

    lemma PlanningGoesOn(i: nat, bound: set<string>, rs: seq<Resource>, st: State<W>, o: Outcome,
                         start: seq<CleanupCall<W>>, steps: seq<Step>, now: State<W>, first: Option<Problem>,
                         done: seq<CleanupCall<W>>)
      requires i < |plan.cleanups| && PlanningFrom(i + 1, bound, rs, st, o, start, steps, now, first, done)
      ensures IsBound(plan.cleanups[i], bound) ==> PlanningFrom(i, bound, rs, st, o, start, steps, now, first, done)
      ensures !IsBound(plan.cleanups[i], bound) ==>
                var step := Step(plan.cleanups[i], None);
                var r := Take(step, now, o, run);
                PlanningFrom(i, bound, rs, st, o, start, steps + [step], r.state,
                             if first.Some? then first else r.problem,
                             done + CallsOf(step, now, o))
    {
      PlanStepsUnfold(plan.cleanups, i, bound, steps);
      if !IsBound(plan.cleanups[i], bound) {
        var step := Step(plan.cleanups[i], None);
        PassExtends(steps, step, st, o, now, first, done, start);
        MarkedKept(rs, Play(steps, st, o, run), Take(step, now, o, run));
      }
    }

    /** The second loop: the plan cleanups outside the resources, last first. */
    method CleanPlan(outcome: Outcome, bound: set<string>, before: Option<Problem>,
                     ghost rs: seq<Resource>, ghost st: State<W>, ghost start: seq<CleanupCall<W>>)
        returns (first: Option<Problem>, ghost steps: seq<Step>)
      requires PlanningFrom(|plan.cleanups|, bound, rs, st, outcome, start, ResourceSteps(rs), Now(), before, performed)
      modifies `context, `world, `performed
      ensures PlanningFrom(0, bound, rs, st, outcome, start, steps, Now(), first, performed)
    {
      first, steps := before, ResourceSteps(rs);
      var i := |plan.cleanups|;
      while i > 0
        invariant 0 <= i <= |plan.cleanups|
        invariant PlanningFrom(i, bound, rs, st, outcome, start, steps, Now(), first, performed)
      {
        i := i - 1;
        var c := plan.cleanups[i];
        PlanningGoesOn(i, bound, rs, st, outcome, start, steps, Now(), first, performed);
        if !IsBound(c, bound) {
          var problem, _ := RunOneCleanup(c, outcome);
          steps := steps + [Step(c, None)];
          first := if first.Some? then first else problem;
        }
      }
    }

    /** `_run_cleanups`: the whole pass, whatever fails on the way. */
    method RunCleanups(outcome: Outcome) returns (first: Option<Problem>)
      modifies `context, `resources, `world, `performed
      ensures Cleaned(resources, Now(), first) == CleanUp(old(resources), plan.cleanups, old(Now()), outcome, run)
      ensures performed == old(performed) + Performed(Schedule(old(resources), plan.cleanups), old(Now()), outcome, run)
      ensures Modest(run) ==> OnlyRows(old(context), context)
    {
      ghost var rs, st, start := resources, Now(), performed;
      var before, bound := CleanResources(outcome);
      PlanningStarts(rs, st, outcome, start, resources, Now(), before, performed, bound);
      ghost var steps;
      first, steps := CleanPlan(outcome, bound, before, rs, st, start);
      PlanningEnds(rs, st, outcome, start, steps, Now(), first, performed);
      if Modest(run) { PassKeepsContext(rs, plan.cleanups, st, outcome, run); }
    }

    lemma PlanningStarts(rs: seq<Resource>, st: State<W>, o: Outcome, start: seq<CleanupCall<W>>,
                         marked: seq<Resource>, now: State<W>, first: Option<Problem>, done: seq<CleanupCall<W>>,
                         bound: set<string>)
      requires CleaningFrom(0, rs, st, o, start, marked, now, first, done, bound)
      ensures bound == Bound(rs)
      ensures PlanningFrom(|plan.cleanups|, Bound(rs), rs, st, o, start, ResourceSteps(rs), now, first, done)
      ensures marked == MarkedFrom(rs, Play(ResourceSteps(rs), st, o, run), 0)
    {
      assert LastSteps(rs, 0) == ResourceSteps(rs) && rs[0..] == rs;
      assert plan.cleanups[..|plan.cleanups|] == plan.cleanups;
    }

    lemma PlanningEnds(rs: seq<Resource>, st: State<W>, o: Outcome, start: seq<CleanupCall<W>>,
                       steps: seq<Step>, now: State<W>, first: Option<Problem>, done: seq<CleanupCall<W>>)
      requires PlanningFrom(0, Bound(rs), rs, st, o, start, steps, now, first, done)
      ensures var all := CleanUp(rs, plan.cleanups, st, o, run);
              now == all.state && first == all.problem
              && MarkedFrom(rs, Play(ResourceSteps(rs), st, o, run), 0) == all.resources
      ensures done == start + Performed(Schedule(rs, plan.cleanups), st, o, run)
    {
      assert steps + [] == steps;
    }

    ghost predicate PassSoFar(steps: seq<Step>, st: State<W>, o: Outcome, now: State<W>, first: Option<Problem>,
                              done: seq<CleanupCall<W>>, before: seq<CleanupCall<W>>) {
      var results := Play(steps, st, o, run);
      now == Ended(results, st) && first == FirstProblem(results) && done == before + Performed(steps, st, o, run)
    }

    lemma PassExtends(steps: seq<Step>, step: Step, st: State<W>, o: Outcome, now: State<W>, first: Option<Problem>,
                      done: seq<CleanupCall<W>>, before: seq<CleanupCall<W>>)
      requires PassSoFar(steps, st, o, now, first, done, before)
      ensures Play(steps + [step], st, o, run) == Play(steps, st, o, run) + [Take(step, now, o, run)]
      ensures var r := Take(step, now, o, run);
              PassSoFar(steps + [step], st, o, r.state, if first.Some? then first else r.problem,
                        done + CallsOf(step, now, o), before)
    {
      assert (steps + [step])[..|steps|] == steps;
      var results := Play(steps, st, o, run);
      var r := Take(step, now, o, run);
      assert (results + [r])[..|results|] == results;
      Assoc(before, Performed(steps, st, o, run), CallsOf(step, now, o));
    }

    // -------------------------------------------------------------- actions

    /** Bind `name`, then validate: `self.context[name] = …; _validate_context(…)`. */
    method Bind(name: string, value: Json) returns (problem: Option<Problem>)
      modifies `context
      ensures context == old(context)[name := value]
      ensures problem.None? <==> Fits(context)
    {
      context := context[name := value];
      problem := Validate();
    }

    method Validate() returns (problem: Option<Problem>)
      ensures problem.None? <==> Fits(context)
      ensures problem.None? <==> bytes(context).Some? && bytes(context).value <= 64_000
    {
      var size := bytes(context);
      problem := if size.None? then Some(Problem(Some("RUNTIME_CONTEXT_INVALID")))
                 else if size.value > MAX_CONTEXT_BYTES then Some(Problem(Some("RUNTIME_CONTEXT_LIMIT")))
                 else None;
    }

    /** A Python script or an SQL query: any effect on the context, then validation. */
    method RunForeign() returns (problem: Option<Problem>)
      modifies `context, `world
      ensures problem.None? ==> Fits(context)
    {
      context := Arbitrary<Context>();
      world := Arbitrary<W>();
      problem := Arbitrary<Option<Problem>>();
      if problem.None? { problem := Validate(); }
    }

    /** The value an action takes from a response: what is found, or its default when that may be missing. */
    function ValueFrom(a: Action, response: Response): Option<Json> {
      match find(a, response)
      case Raised(_) => None
      case Ok(Some(v)) => Some(v)
      case Ok(None) => if a.required then None else Some(a.fallback)
    }

    /** `_apply_get_token`; `reply` is the answer to its own request. */
    method ApplyGetToken(a: Action) returns (problem: Option<Problem>, ghost reply: HttpReply)
      modifies `context, `world
      ensures problem.None? ==>
              Fits(context) && Variable(a.name) && reply.Answer? && 200 <= reply.response.status <= 299
      ensures problem.None? ==>
                ValueFrom(a, reply.response).Some?
                && context == old(context)[a.name.value := ValueFrom(a, reply.response).value]
      ensures problem.Some? ==> context == old(context) || !Fits(context)
    {
      reply := TimedOut;
      if !a.fieldsOk { problem := Some(Problem(None)); return; }
      var request := Resolve(a.request, context, show);
      if request.Failed? { problem := Some(Problem(Some("RUNTIME_TEMPLATE"))); return; }
      var answer := Arbitrary<HttpReply>();
      reply := answer;
      world := Arbitrary<W>();
      if !answer.Answer? { problem := Some(ProblemOf(answer)); return; }
      if !(200 <= answer.response.status <= 299) {
        problem := Some(Problem(Some(if a.kind.GetToken? then "AUTH_REQUEST_REJECTED" else "SETUP_REQUEST_REJECTED")));
        return;
      }
      if !Variable(a.name) { problem := Some(Problem(None)); return; }
      problem := BindResponseValue(a, answer.response, "TOKEN_VALUE_MISSING");
    }

    /** Bind the value an action takes from a response. */
    method BindResponseValue(a: Action, response: Response, missing: string) returns (problem: Option<Problem>)
      requires Variable(a.name)
      modifies `context
      ensures problem.None? ==>
                ValueFrom(a, response).Some? && Fits(context)
                && context == old(context)[a.name.value := ValueFrom(a, response).value]
      ensures problem.Some? ==> context == old(context) || !Fits(context)
      ensures ValueFrom(a, response).None? ==> problem.Some? && context == old(context)
      ensures ValueFrom(a, response).Some? && Fits(old(context)[a.name.value := ValueFrom(a, response).value]) ==>
                problem.None?
    {
      var found := find(a, response);
      if found.Raised? { return Some(Problem(None)); }
      if found.value.None? && a.required { return Some(Problem(Some(missing))); }
      problem := Bind(a.name.value, if found.value.Some? then found.value.value else a.fallback);
    }

    /** `_apply_pre_action` */
    method ApplyPreAction(a: Action) returns (problem: Option<Problem>)
      modifies `context, `world
      ensures problem.None? ==> if a.enabled.Off? then context == old(context) else Fits(context)
      ensures problem.None? && a.enabled.On? && a.kind.SetVariable? ==>
                Variable(a.name) && Resolve(a.value, old(context), show).Done?
                && context == old(context)[a.name.value := Resolve(a.value, old(context), show).value]
      ensures a.enabled.NotBoolean? ==> problem.Some?
      ensures a.enabled.Off? ==> problem.None?
      ensures a.enabled.On? && a.kind in {ExtractResponse, RegisterResource, OtherKind} ==> problem.Some?
      ensures !a.enabled.On? ==> world == old(world)
    {
      if a.enabled.NotBoolean? { return Some(Problem(None)); }
      if a.enabled.Off? { return None; }
      if !a.kind.PythonScript? && !a.kind.SqlQuery? && !Variable(a.name) { return Some(Problem(None)); }
      ghost var reply;
      match a.kind {
        case SetVariable => problem := ApplySet(a);
        case Faker =>
          var made := Arbitrary<Reply<Json>>();
          if !a.fieldsOk || made.Raised? { return Some(Problem(None)); }
          problem := Bind(a.name.value, made.value);
        case PythonScript => problem := ApplyScript(a);
        case SqlQuery => problem := RunForeign();
        case GetToken => problem, reply := ApplyGetToken(a);
        case ApiSetup => problem, reply := ApplyGetToken(a);
        case ExtractResponse => problem := Some(Problem(None));
        case RegisterResource => problem := Some(Problem(None));
        case OtherKind => problem := Some(Problem(None));
      }
    }

    method ApplySet(a: Action) returns (problem: Option<Problem>)
      modifies `context
      ensures problem.None? ==>
                Fits(context) && Variable(a.name) && Resolve(a.value, old(context), show).Done?
                && context == old(context)[a.name.value := Resolve(a.value, old(context), show).value]
      ensures a.fieldsOk && Variable(a.name) && Resolve(a.value, old(context), show).Done? ==>
                Fits(old(context)[a.name.value := Resolve(a.value, old(context), show).value]) ==> problem.None?
      ensures !a.fieldsOk ==> problem.Some? && context == old(context)
    {
      if !a.fieldsOk || !Variable(a.name) { return Some(Problem(None)); }
      var v := Resolve(a.value, context, show);
      if v.Failed? { return Some(Problem(Some("RUNTIME_TEMPLATE"))); }
      problem := Bind(a.name.value, v.value);
    }

    /** `_apply_script` */
    method ApplyScript(a: Action) returns (problem: Option<Problem>)
      modifies `context, `world
      ensures problem.None? ==> if a.enabled.Off? then context == old(context) else Fits(context)
      ensures !a.fieldsOk || a.enabled.NotBoolean? ==> problem.Some?
      ensures a.fieldsOk && a.enabled.Off? ==> problem.None?
      ensures !a.fieldsOk || !a.enabled.On? ==> context == old(context) && world == old(world)
    {
      if !a.fieldsOk || a.enabled.NotBoolean? { return Some(Problem(None)); }
      if a.enabled.Off? { return None; }
      problem := RunForeign();
    }

    /** `_apply_extractor` */
    method ApplyExtractor(a: Action, response: Response) returns (problem: Option<Problem>)
      modifies `context
      ensures problem.None? ==> if a.enabled.Off? then context == old(context) else Fits(context)
      ensures problem.None? && a.enabled.On? ==>
                Variable(a.name) && ValueFrom(a, response).Some?
                && context == old(context)[a.name.value := ValueFrom(a, response).value]
      ensures a.enabled.NotBoolean? ==> problem.Some?
      ensures a.enabled.Off? ==> problem.None?
      ensures a.enabled.On? && Variable(a.name) && ValueFrom(a, response).Some? ==>
                Fits(old(context)[a.name.value := ValueFrom(a, response).value]) ==> problem.None?
    {
      if a.enabled.NotBoolean? { return Some(Problem(None)); }
      if a.enabled.Off? { return None; }
      if !Variable(a.name) { return Some(Problem(None)); }
      problem := BindResponseValue(a, response, "RESPONSE_VALUE_MISSING");
    }

    /** `_apply_post_action` */
    method ApplyPostAction(a: Action, response: Response) returns (problem: Option<Problem>)
      requires Registered(resources)
      modifies `context, `resources, `world
      ensures problem.None? ==>
              if a.enabled.Off? then context == old(context) && resources == old(resources) else Fits(context)
      ensures Registered(resources) && old(resources) <= resources
      ensures a.kind in {Faker, SqlQuery, GetToken, ApiSetup, OtherKind} ==> problem.Some?
      ensures !a.kind.RegisterResource? ==> resources == old(resources)
      ensures problem.None? && a.enabled.On? && a.kind.SetVariable? ==>
                Variable(a.name) && Resolve(a.value, old(context), show).Done?
                && context == old(context)[a.name.value := Resolve(a.value, old(context), show).value]
    {
      ghost var added;
      match a.kind {
        case ExtractResponse => problem := ApplyExtractor(a, response);
        case PythonScript => problem := ApplyScript(a);
        case RegisterResource => problem, added := Register(a);
        case SetVariable =>
          if a.enabled.NotBoolean? { return Some(Problem(None)); }
          if a.enabled.Off? { return None; }
          problem := ApplySet(a);
        case Faker => problem := Some(Problem(None));
        case SqlQuery => problem := Some(Problem(None));
        case GetToken => problem := Some(Problem(None));
        case ApiSetup => problem := Some(Problem(None));
        case OtherKind => problem := Some(Problem(None));
      }
    }

    /** The cleanup a REGISTER_RESOURCE action binds: its own, or the one plan cleanup it names. */
    function CleanupOf(a: Action): Option<CleanupSpec> {
      if a.inlineCleanup.Some? && a.cleanupRef.Some? then None
      else if a.cleanupRef.Some? then
        var found := Matching(plan.cleanups, a.cleanupRef.value);
        if |found| == 1 then Some(found[0]) else None
      else a.inlineCleanup
    }

    /** A cleanup reference counts only if exactly one plan cleanup has that id, and not next to an
        inline cleanup. */
    lemma CleanupOfMeans(a: Action, i: nat, j: nat)
      requires a.cleanupRef.Some? && i < |plan.cleanups| && plan.cleanups[i].id == a.cleanupRef
      ensures a.inlineCleanup.Some? ==> CleanupOf(a).None?
      ensures i < j < |plan.cleanups| && plan.cleanups[j].id == a.cleanupRef ==> CleanupOf(a).None?
      ensures a.inlineCleanup.None? && CleanupOf(a).Some? ==> CleanupOf(a).value == plan.cleanups[i]
    {
      MatchingHolds(plan.cleanups, a.cleanupRef.value, i, j);
    }

    /** The checks of `_register_resource`: the resource and its metadata, or a problem. */
    method PrepareResource(a: Action) returns (problem: Option<Problem>, r: Resource, metadata: Json)
      ensures problem.None? ==> Untouched(r, |resources| + 1) && Some(r.cleanup) == CleanupOf(a) && 1 <= |r.id| <= 512
      ensures problem.None? ==> Variable(a.name) && r.name == a.name.value && metadata.Obj?
      ensures problem.None? ==>
              Resolve(a.value, context, show).Done? && r.id == Text(Resolve(a.value, context, show).value, show)
      ensures problem.None? ==> a.fieldsOk && a.resourceType == Some(r.resourceType) && Variable(a.resourceType)
      ensures problem.None? ==> Resolve(a.metadata, context, show) == Done(metadata)
    {
      r := Resource(|resources| + 1, "", "", "", CleanupSpec(None, Never, Off, Null), PENDING, 0, None);
      metadata := Null;
      problem := Some(Problem(None));
      if !a.fieldsOk || !Variable(a.name) || !Variable(a.resourceType) { return; }
      var cleanup := CleanupOf(a);
      if cleanup.None? { return; }
      var value := Resolve(a.value, context, show);
      if value.Failed? { problem := Some(Problem(Some("RUNTIME_TEMPLATE"))); return; }
      var id := Text(value.value, show);
      if !(1 <= |id| <= 512) { return; }
      var resolved := Resolve(a.metadata, context, show);
      if resolved.Failed? { problem := Some(Problem(Some("RUNTIME_TEMPLATE"))); return; }
      if !resolved.value.Obj? { return; }
      problem, metadata := None, resolved.value;
      r := r.(name := a.name.value, resourceType := a.resourceType.value, id := id, cleanup := cleanup.value);
    }

    /** `_register_resource`: the resource is recorded before the context is touched, so it is
        cleaned up even when recording it in the context fails. */
    method Register(a: Action) returns (problem: Option<Problem>, ghost added: seq<Resource>)
      requires Registered(resources)
      modifies `context, `resources
      ensures Registered(resources) && resources == old(resources) + added && |added| <= 1
      ensures added != [] ==> a.enabled.On? && Some(added[0].cleanup) == CleanupOf(a) && 1 <= |added[0].id| <= 512
      ensures problem.None? ==>
              if a.enabled.Off? then context == old(context) && added == [] else Fits(context) && added != []
      ensures added == [] ==> context == old(context)
      ensures added != [] && problem.None? ==> Listed(old(context), context, added[0])
    {
      added := [];
      if a.enabled.NotBoolean? { problem := Some(Problem(None)); return; }
      if a.enabled.Off? { problem := None; return; }
      var r, metadata;
      problem, r, metadata := PrepareResource(a);
      if problem.Some? { return; }
      RegisteredExtends(resources, r);
      resources, added := resources + [r], [r];
      var known := if "__resources" in context then context["__resources"] else Obj([]);
      if !known.Obj? { problem := Some(Problem(Some("RUNTIME_CONTEXT_INVALID"))); return; }
      ListsIt(context, known.fields, r, metadata);
      var entry := Obj([Field("resource_type", Str(r.resourceType)), Field("resource_id", Str(r.id)),
          Field("metadata", metadata)]);
      problem := Bind("__resources", Obj(PutField(known.fields, r.name, entry)));
    }

    method Apply(phase: Phase, a: Action, response: Option<Response>) returns (problem: Option<Problem>)
      requires Registered(resources)
      requires phase.AUTH_REFRESH? ==> a.enabled.On?
      modifies `context, `resources, `world
      ensures problem.None? ==>
              if a.enabled.Off? then context == old(context) && resources == old(resources) else Fits(context)
      ensures Registered(resources) && (!phase.POST? ==> resources == old(resources))
    {
      ghost var reply;
      match phase {
        case PRE => problem := ApplyPreAction(a);
        case AUTH_REFRESH => problem, reply := ApplyGetToken(a);
        case EXTRACTOR =>
          if response.None? { return Some(Problem(None)); }
          problem := ApplyExtractor(a, response.value);
        case POST =>
          if response.None? { return Some(Problem(None)); }
          problem := ApplyPostAction(a, response.value);
      }
    }

    /** The action with the status its trace will carry. */
    method ApplyMarked(phase: Phase, a: Action, response: Option<Response>)
        returns (problem: Option<Problem>, mark: Mark)
      requires Registered(resources)
      requires phase.AUTH_REFRESH? ==> a.enabled.On?
      modifies `context, `resources, `world
      ensures Registered(resources) && (!phase.POST? ==> resources == old(resources))
      ensures mark.Broke? <==> problem.Some?
      ensures mark.Disabled? ==> a.enabled.Off? && context == old(context) && resources == old(resources)
      ensures mark.Succeeded? ==> Fits(context)
    {
      problem := Apply(phase, a, response);
      mark := if problem.Some? then Broke else if a.enabled.Off? then Disabled else Succeeded;
    }

    /** What holds between actions. */
    ghost predicate Steady() reads this {
      Ordered(traces, plan) && Paired(started, traces) && Registered(resources)
    }

    /** Every action so far found a context within the limit, and so will the next one. */
    ghost predicate Fitting() reads this { AllFit(started) && Fits(context) }

    /** `_execute_traced_action`: exactly one trace for the attempt, FAILED when it raises. */
    method ExecuteTraced(phase: Phase, sequence: nat, a: Action, response: Option<Response>)
        returns (problem: Option<Problem>)
      requires Steady() && Next(traces, phase, sequence)
      requires 1 <= sequence <= |ActionsOf(plan, phase)| && a == ActionsOf(plan, phase)[sequence - 1]
      requires phase.AUTH_REFRESH? ==> a.enabled.On?
      modifies `context, `resources, `traces, `world, `started
      ensures Steady() && (!phase.POST? ==> resources == old(resources))
      ensures started == old(started) + [Started(phase, sequence, old(context))]
      ensures |traces| == |old(traces)| + 1 && Count(traces) == Add(old(Count(traces)), phase, 1)
      ensures problem.None? ==> Next(traces, phase, sequence + 1)
      ensures var t := traces[|traces| - 1];
              && traces == old(traces) + [t] && t.phase == phase && t.sequence == sequence
              && (t.mark.Broke? <==> problem.Some?)
              && (t.mark.Disabled? ==> a.enabled.Off? && context == old(context) && resources == old(resources))
              && (t.mark.Succeeded? ==> Fits(context))
      ensures old(Fitting()) ==> AllFit(started) && (problem.None? ==> Fits(context))
    {
      ghost var begun := Started(phase, sequence, context);
      if Fitting() { AllFitExtends(started, begun); }
      started := started + [begun];
      var mark;
      problem, mark := ApplyMarked(phase, a, response);
      var t := Trace(phase, sequence, a.kind, a.name, mark);
      TraceExtends(old(started), traces, begun, t, plan);
      traces := traces + [t];
    }

    /** The next action of a phase. */
    method ExecuteNext(phase: Phase, i: nat, response: Option<Response>) returns (problem: Option<Problem>)
      requires Steady() && Next(traces, phase, i + 1) && i < |ActionsOf(plan, phase)|
      modifies `context, `resources, `traces, `world, `started
      ensures Steady() && (!phase.POST? ==> resources == old(resources))
      ensures Count(traces) == Add(old(Count(traces)), phase, 1)
      ensures problem.None? ==> Next(traces, phase, i + 2)
      ensures problem.Some? ==> traces != [] && traces[|traces| - 1].mark.Broke?
      ensures old(Fitting()) ==> AllFit(started) && (problem.None? ==> Fits(context))
    {
      if phase.AUTH_REFRESH? { TokensAreEnabled(plan.preActions, i); }
      problem := ExecuteTraced(phase, i + 1, ActionsOf(plan, phase)[i], response);
    }

    /** The actions of one phase, until one fails. */
    method ExecutePhase(phase: Phase, response: Option<Response>) returns (problem: Option<Problem>, ghost did: nat)
      requires Steady() && Next(traces, phase, 1)
      modifies `context, `resources, `traces, `world, `started
      ensures Steady() && (!phase.POST? ==> resources == old(resources))
      ensures did <= |ActionsOf(plan, phase)| && Count(traces) == Add(old(Count(traces)), phase, did)
      ensures problem.None? ==> did == |ActionsOf(plan, phase)| && Quiet(traces, phase)
      ensures problem.Some? ==> traces != [] && traces[|traces| - 1].mark.Broke?
      ensures old(Fitting()) ==> AllFit(started) && (problem.None? ==> Fits(context))
    {
      var actions := ActionsOf(plan, phase);
      problem, did := None, 0;
      var i := 0;
      while i < |actions|
        invariant 0 <= i <= |actions| && Next(traces, phase, i + 1) && problem.None? && did == i
        invariant Steady() && (!phase.POST? ==> resources == old(resources))
        invariant Count(traces) == Add(old(Count(traces)), phase, i)
        invariant old(Fitting()) ==> Fitting()
      {
        problem := ExecuteNext(phase, i, response);
        i, did := i + 1, did + 1;
        if problem.Some? { return; }
      }
    }

    // -------------------------------------------------------------- target

    /** Render the target request from the context and send it. */
    method SendTarget() returns (r: Reply<HttpReply>, problem: Problem)
      modifies `world, `sent
      ensures r.Ok? ==> Resolve(plan.request, context, show).Done? && !r.value.Refused?
      ensures r.Ok? ==> sent == old(sent) + [Sent(Resolve(plan.request, context, show).value, r.value)]
      ensures |old(sent)| <= |sent| <= |old(sent)| + 1
    {
      problem := Problem(None);
      var request := Resolve(plan.request, context, show);
      if request.Failed? { return Raised(Runner), Problem(Some("RUNTIME_TEMPLATE")); }
      var accepted := Arbitrary<bool>();
      if !accepted { return Raised(Protocol), Problem(None); }
      var reply := Arbitrary<HttpReply>();
      world := Arbitrary<W>();
      sent := sent + [Sent(request.value, reply)];
      if reply.Refused? { return Raised(Runner), reply.problem; }
      r := Ok(reply);
    }

    /** The target loop between two requests: all the replies so far justified another one. */
    ghost predicate Sending(ss: seq<Sent>, refreshed: bool, retries: nat, auth: nat) {
      && AllJustified(ss, plan.policy)
      && Count401(ss) == (if refreshed then 1 else 0)
      && |ss| == retries + Count401(ss)
      && auth == (if refreshed then |TokenActions(plan.preActions)| else 0)
    }

    /** After the first 401 the token actions are replayed. */
    method RefreshTokens(ghost earlier: seq<Sent>) returns (failed: Option<Problem>)
      requires Steady() && Next(traces, AUTH_REFRESH, 1) && Next(traces, EXTRACTOR, 1)
      requires Sending(earlier, false, retryCount, Count(traces).auth)
      requires |sent| == |earlier| + 1 && sent == earlier + [sent[|earlier|]] && Unauthorized(sent[|earlier|].reply)
      modifies `context, `resources, `traces, `world, `started
      ensures Steady() && resources == old(resources)
      ensures Count(traces) == old(Count(traces)).(auth := Count(traces).auth)
      ensures Count(traces).auth <= |TokenActions(plan.preActions)|
      ensures old(Fitting()) ==> AllFit(started) && (failed.None? ==> Fits(context))
      ensures failed.None? ==> Next(traces, EXTRACTOR, 1) && Sending(sent, true, retryCount, Count(traces).auth)
    {
      JustifiedExtends(earlier, sent[|earlier|], plan.policy);
      ghost var did;
      failed, did := ExecutePhase(AUTH_REFRESH, None);
    }

    /** One round: a request, and after the first 401 the token actions and a second request. */
    method SendRound(refreshed: bool)
      returns (r: Reply<HttpReply>, problem: Problem, now: bool, ghost earlier: seq<Sent>)
      requires Steady() && (!refreshed ==> Next(traces, AUTH_REFRESH, 1)) && Next(traces, EXTRACTOR, 1)
      requires Sending(sent, refreshed, retryCount, Count(traces).auth)
      modifies `context, `resources, `traces, `world, `started, `sent
      ensures Steady() && resources == old(resources) && |sent| <= retryCount + 2
      ensures Count(traces) == old(Count(traces)).(auth := Count(traces).auth)
      ensures Count(traces).auth <= |TokenActions(plan.preActions)|
      ensures old(Fitting()) ==> AllFit(started) && (r.Ok? ==> Fits(context))
      ensures r.Ok? ==> (now || Next(traces, AUTH_REFRESH, 1)) && Next(traces, EXTRACTOR, 1)
      ensures r.Ok? ==> Resolve(plan.request, context, show).Done? && !r.value.Refused?
      ensures r.Ok? ==> sent == earlier + [Sent(Resolve(plan.request, context, show).value, r.value)]
      ensures r.Ok? ==> Sending(earlier, now, retryCount, Count(traces).auth)
      ensures r.Ok? && Unauthorized(r.value) ==> now || TokenActions(plan.preActions) == []
    {
      now, earlier := refreshed, sent;
      r, problem := SendTarget();
      if r.Raised? { return; }
      if Unauthorized(r.value) && TokenActions(plan.preActions) != [] && !refreshed {
        var failed := RefreshTokens(earlier);
        now, earlier := true, sent;
        if failed.Some? {
          r, problem := Raised(Runner), failed.value;
          return;
        }
        r, problem := SendTarget();
      }
    }

    /** What the target phase promises about its requests and its token refresh. */
    ghost predicate TargetDone(end: TargetEnd) reads this { Target(end, sent, retryCount, Count(traces).auth) }

    ghost predicate Target(end: TargetEnd, ss: seq<Sent>, retries: nat, auth: nat) {
      && EndsWith(ss, end, plan.policy, retries, retries >= plan.policy.maxRetries)
      && auth == if Count401(ss[..|ss| - 1]) == 1 then |TokenActions(plan.preActions)| else 0
    }

    lemma TargetEnds(earlier: seq<Sent>, last: Sent, refreshed: bool, retries: nat, auth: nat)
      requires Sending(earlier, refreshed, retries, auth)
      requires retries >= plan.policy.maxRetries || !Retryable(last.reply, plan.policy)
      ensures Target(EndOf(last.reply), earlier + [last], retries, auth)
    {
      assert (earlier + [last])[..|earlier|] == earlier;
    }

    lemma SendingGoesOn(earlier: seq<Sent>, last: Sent, refreshed: bool, retries: nat, auth: nat)
      requires Sending(earlier, refreshed, retries, auth) && Retryable(last.reply, plan.policy)
      ensures Sending(earlier + [last], refreshed, retries + 1, auth)
    {
      JustifiedExtends(earlier, last, plan.policy);
    }

    /** `_execute_target_with_retries` */
    method ExecuteTarget() returns (end: TargetEnd)
      requires Steady() && Next(traces, AUTH_REFRESH, 1) && Next(traces, EXTRACTOR, 1)
      requires sent == [] && retryCount == 0 && Count(traces).auth == 0
      modifies `context, `resources, `traces, `world, `started, `sent, `retryCount
      ensures Steady() && resources == old(resources)
      ensures retryCount <= plan.policy.maxRetries && |sent| <= plan.policy.maxRetries + 2
      ensures Count(traces) == old(Count(traces)).(auth := Count(traces).auth)
      ensures Count(traces).auth <= |TokenActions(plan.preActions)|
      ensures old(Fitting()) ==> AllFit(started) && (!end.Interrupted? ==> Fits(context))
      ensures !end.Interrupted? ==> TargetDone(end) && Next(traces, EXTRACTOR, 1)
      ensures !end.Interrupted? ==> Resolve(plan.request, context, show) == Done(sent[|sent| - 1].request)
    {
      var refreshed := false;
      while true
        invariant Steady() && resources == old(resources) && retryCount <= plan.policy.maxRetries
        invariant Sending(sent, refreshed, retryCount, Count(traces).auth)
        invariant Next(traces, EXTRACTOR, 1) && (!refreshed ==> Next(traces, AUTH_REFRESH, 1))
        invariant Count(traces) == old(Count(traces)).(auth := Count(traces).auth)
        invariant old(Fitting()) ==> Fitting()
        decreases plan.policy.maxRetries - retryCount
      {
        var reply, problem, now;
        ghost var earlier;
        reply, problem, now, earlier := SendRound(refreshed);
        if reply.Raised? { return Interrupted(problem); }
        refreshed := now;
        ghost var last := sent[|sent| - 1];
        if retryCount >= plan.policy.maxRetries || !Retryable(reply.value, plan.policy) {
          TargetEnds(earlier, last, refreshed, retryCount, Count(traces).auth);
          return EndOf(reply.value);
        }
        SendingGoesOn(earlier, last, refreshed, retryCount, Count(traces).auth);
        retryCount := retryCount + 1;
      }
    }

    // -------------------------------------------------------------- the whole case

    /** The primary part of `execute`: PRE, the target, EXTRACTOR, POST, until something raises. */
    method ExecutePrimary() returns (problem: Option<Problem>, response: Option<Response>)
      requires Fresh()
      modifies `context, `resources, `traces, `world, `started, `sent, `retryCount
      ensures Steady() && retryCount <= plan.policy.maxRetries && |sent| <= plan.policy.maxRetries + 2
      ensures Fits(old(context)) ==> AllFit(started)
      ensures problem.None? <==> response.Some?
      ensures problem.None? ==> TargetDone(Answered(response.value))
      ensures problem.None? ==>
              Count(traces) == Tally(|plan.preActions|, Count(traces).auth, |plan.extractors|, |plan.postActions|)
    {
      response := None;
      ghost var did;
      problem, did := ExecutePhase(PRE, None);
      if problem.Some? { return; }
      var end := ExecuteTarget();
      if !end.Answered? {
        problem := Some(if end.Interrupted? then end.problem else ProblemOf(end.reply));
        return;
      }
      problem := ExecuteRest(end.response);
      response := if problem.None? then Some(end.response) else None;
    }

    /** The extractors and the post actions. */
    method ExecuteRest(response: Response) returns (problem: Option<Problem>)
      requires Steady() && Next(traces, EXTRACTOR, 1)
      modifies `context, `resources, `traces, `world, `started
      ensures Steady() && Count(traces).auth == old(Count(traces)).auth
      ensures old(Fitting()) ==> AllFit(started)
      ensures problem.None? ==>
                Count(traces) == Add(Add(old(Count(traces)), EXTRACTOR, |plan.extractors|), POST, |plan.postActions|)
    {
      ghost var did;
      problem, did := ExecutePhase(EXTRACTOR, Some(response));
      if problem.Some? { return; }
      problem, did := ExecutePhase(POST, Some(response));
    }

    /** `execute`.  `registered` and `before` are the resources and the state the primary part left;
        cleanup follows every primary outcome at once, except a success whose cleanup is deferred. */
    method Execute()
      returns (r: Execution, ghost registered: seq<Resource>, ghost before: State<W>, ghost outcome: Outcome)
      requires Fresh()
      modifies this
      ensures Ordered(traces, plan) && Paired(started, traces) && Registered(registered)
      ensures retryCount <= plan.policy.maxRetries && |sent| <= plan.policy.maxRetries + 2
      ensures Fits(old(context)) ==> AllFit(started)
      ensures r.Completed? || r.Deferred? || r.CleanupFailed? ==>
                outcome == SUCCESS
                && Count(traces) == Tally(|plan.preActions|, Count(traces).auth, |plan.extractors|, |plan.postActions|)
      ensures r.Completed? || r.Deferred? ==> TargetDone(Answered(r.response)) && r.resources == resources
      ensures r.PrimaryFailed? ==> outcome == OutcomeOf(Some(r.problem))
      ensures r.Deferred? <==> outcome == SUCCESS && plan.deferCleanup
      ensures r.Deferred? ==> resources == registered && Now() == before && performed == [] && r.context == context
      ensures !r.Deferred? ==>
                var done := CleanUp(registered, plan.cleanups, before, outcome, run);
                && resources == done.resources && Now() == done.state
                && performed == Performed(Schedule(registered, plan.cleanups), before, outcome, run)
                && (r.Completed? <==> outcome == SUCCESS && done.problem.None?)
                && (r.CleanupFailed? <==> outcome == SUCCESS && done.problem.Some?)
      ensures Modest(run) ==> OnlyRows(before.context, context)
    {
      var problem, response := ExecutePrimary();
      registered, before, outcome := resources, Now(), OutcomeOf(problem);
      if problem.None? && plan.deferCleanup {
        return Deferred(response.value, resources, context), registered, before, outcome;
      }
      var cleanupProblem := RunCleanups(OutcomeOf(problem));
      if problem.Some? {
        r := PrimaryFailed(problem.value);
      } else if cleanupProblem.Some? {
        r := CleanupFailed(CodeOf(cleanupProblem.value));
      } else {
        r := Completed(response.value, resources);
      }
    }
  }

  // ---------------------------------------------------------------- deferred cleanup

  datatype CleanupTask = CleanupTask(plan: Plan, context: Context, resources: seq<Resource>, outcome: Outcome)

  datatype TaskResult = Released(resources: seq<Resource>) | TaskFailed(code: string) | BadOutcome

  /** `execute_cleanup_task`, in a process of its own: a new executor is given the snapshot. */
  method ExecuteCleanupTask<W(0, !new)>(task: CleanupTask, world: W, run: Runtime<W>, show: Json -> string,
                                           bytes: Context -> Option<nat>, find: Finder)
      returns (r: TaskResult, ghost after: Cleaned<W>, ghost performed: seq<CleanupCall<W>>)
    ensures r.BadOutcome? <==> task.outcome.OtherOutcome?
    ensures r.BadOutcome? ==> performed == []
    ensures !r.BadOutcome? ==>
              && after == CleanUp(task.resources, task.plan.cleanups, State(task.context, world), task.outcome, run)
              && performed == Performed(Schedule(task.resources, task.plan.cleanups), State(task.context, world),
                                        task.outcome, run)
              && r == (if after.problem.Some? then TaskFailed(CodeOf(after.problem.value))
                       else Released(after.resources))
    ensures Modest(run) ==> OnlyRows(task.context, after.state.context)
  {
    after, performed := Cleaned(task.resources, State(task.context, world), None), [];
    if task.outcome.OtherOutcome? { return BadOutcome, after, performed; }
    var runtime := new ApiCasePipelineExecutor<W>(task.plan, map[], world, run, show, bytes, find);
    runtime.context := task.context;
    runtime.resources := task.resources;
    var problem := runtime.RunCleanups(task.outcome);
    after, performed := Cleaned(runtime.resources, runtime.Now(), problem), runtime.performed;
    r := if problem.Some? then TaskFailed(CodeOf(problem.value)) else Released(runtime.resources);
  }

  /** Deferring the cleanup changes nothing: executing with deferral and then running the cleanup on
      the snapshot ends as `_run_cleanups(outcome)` would have ended in place, in the resources,
      the context, the world and the first error, and it performs the same cleanups. */
  method DeferThenClean<W(0, !new)>(e: ApiCasePipelineExecutor<W>, outcome: Outcome)
      returns (first: Execution, second: Option<TaskResult>,
               ghost after: Cleaned<W>, ghost performed: seq<CleanupCall<W>>)
    requires e.Fresh() && e.plan.deferCleanup && !outcome.OtherOutcome?
    modifies e
    ensures second.Some? <==> first.Deferred?
    ensures second.Some? ==>
              && after == CleanUp(e.resources, e.plan.cleanups, e.Now(), outcome, e.run)
              && performed == Performed(Schedule(e.resources, e.plan.cleanups), e.Now(), outcome, e.run)
              && second.value == (if after.problem.Some? then TaskFailed(CodeOf(after.problem.value))
                                  else Released(after.resources))
              && (Modest(e.run) ==> OnlyRows(e.context, after.state.context))
  {
    ghost var registered, before, primary;
    first, registered, before, primary := e.Execute();
    second, after, performed := None, Cleaned([], e.Now(), None), [];
    if first.Deferred? {
      var task := CleanupTask(e.plan, first.context, first.resources, outcome);
      var r;
      r, after, performed := ExecuteCleanupTask(task, e.world, e.run, e.show, e.bytes, e.find);
      second := Some(r);
    }
  }

  // ---------------------------------------------------------------- small facts

  lemma {:induction false} TokensAreEnabled(pre: seq<Action>, i: nat)
    requires i < |TokenActions(pre)|
    ensures TokenActions(pre)[i].enabled.On? && TokenActions(pre)[i].kind.GetToken?
  {
    var n := |pre| - 1;
    if i < |TokenActions(pre[..n])| { TokensAreEnabled(pre[..n], i); }
  }

  /** Where in the plan the token actions come from. */
  function TokenAt(pre: seq<Action>): seq<nat> {
    if pre == [] then []
    else
      var n := |pre| - 1;
      TokenAt(pre[..n]) + if pre[n].kind.GetToken? && pre[n].enabled.On? then [n] else []
  }

  lemma {:induction false} TokensCounted(pre: seq<Action>)
    ensures |TokenAt(pre)| == |TokenActions(pre)|
  {
    if pre != [] { TokensCounted(pre[..|pre| - 1]); }
  }

  /** The token actions are the enabled GET_TOKEN pre actions, each once and in plan order. */
  lemma {:induction false} TokensInPlanOrder(pre: seq<Action>, k: nat)
    requires k < |TokenActions(pre)|
    ensures |TokenAt(pre)| == |TokenActions(pre)|
    ensures TokenAt(pre)[k] < |pre| && pre[TokenAt(pre)[k]] == TokenActions(pre)[k]
    ensures k > 0 ==> TokenAt(pre)[k - 1] < TokenAt(pre)[k]
  {
    var n := |pre| - 1;
    TokensCounted(pre);
    TokensCounted(pre[..n]);
    var before := |TokenActions(pre[..n])|;
    if before > 0 { TokensInPlanOrder(pre[..n], if k < before then k else before - 1); }
  }

  lemma {:induction false} NoTokenIsMissed(pre: seq<Action>, j: nat)
    requires j < |pre| && pre[j].kind.GetToken? && pre[j].enabled.On?
    ensures j in TokenAt(pre)
  {
    var n := |pre| - 1;
    if j < n {
      NoTokenIsMissed(pre[..n], j);
    } else {
      assert TokenAt(pre)[|TokenAt(pre[..n])|] == n;
    }
  }

  /** The resources while the loop is at `i`: those from `i` on are done. */
  function MarkedFrom<W>(rs: seq<Resource>, results: seq<StepResult<W>>, i: nat): seq<Resource>
    requires i <= |rs| <= |results| + i
  {
    seq(|rs|, j requires 0 <= j < |rs| => if j < i then rs[j] else Recorded(rs[j], results[|rs| - 1 - j]))
  }

  lemma MarkedNext<W>(rs: seq<Resource>, results: seq<StepResult<W>>, r: StepResult<W>, i: nat)
    requires i < |rs| && |results| == |rs| - 1 - i
    ensures MarkedFrom(rs, results + [r], i) == MarkedFrom(rs, results, i + 1)[i := Recorded(rs[i], r)]
  {
  }

  lemma MarkedKept<W>(rs: seq<Resource>, results: seq<StepResult<W>>, r: StepResult<W>)
    requires |rs| <= |results|
    ensures MarkedFrom(rs, results + [r], 0) == MarkedFrom(rs, results, 0)
  {
  }

  lemma BoundGrows(rs: seq<Resource>, i: nat)
    requires i < |rs|
    ensures Bound(rs[i..]) == Bound(rs[i + 1..]) + if rs[i].cleanup.id.Some? then {rs[i].cleanup.id.value} else {}
  {
    assert rs[i..] == [rs[i]] + rs[i + 1..];
  }

  lemma PlanStepsUnfold(plan: seq<CleanupSpec>, i: nat, bound: set<string>, done: seq<Step>)
    requires i < |plan|
    ensures done + PlanSteps(plan[..i + 1], bound)
         == (if IsBound(plan[i], bound) then done else done + [Step(plan[i], None)]) + PlanSteps(plan[..i], bound)
  {
    assert plan[..i + 1][..i] == plan[..i];
  }

  /** The steps taken when the resources from `i` on are done. */
  function LastSteps(rs: seq<Resource>, i: nat): (steps: seq<Step>)
    requires i <= |rs|
    ensures |steps| == |rs| - i
  {
    ResourceSteps(rs)[..|rs| - i]
  }

  lemma LastStepsGrow(rs: seq<Resource>, i: nat)
    requires i < |rs|
    ensures LastSteps(rs, i) == LastSteps(rs, i + 1) + [StepFor(rs[i])]
  {
  }
}
