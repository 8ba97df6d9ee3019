/** Template resolution over JSON trees (`_resolve` of runner/api_pipeline.py).

    Text is scanned for `{{name}}` from left to right; a string that is one placeholder yields
    the context value itself, any other string gets the rendered text of each placeholder. */
module Template {
  import opened Wire

  datatype Json =
    | Null
    | Bool(b: bool)
    | Num(n: int)
    | Str(s: string)
    | Arr(items: seq<Json>)
    | Obj(fields: seq<Field>)

  datatype Field = Field(key: string, value: Json)

  type Context = map<string, Json>

  // ---------------------------------------------------------------- scanning

  predicate NameStart(c: char) { 'A' <= c <= 'Z' || 'a' <= c <= 'z' || c == '_' }

  predicate NamePart(c: char) { NameStart(c) || '0' <= c <= '9' || c == '.' || c == '-' }

  /** The end of the longest run of name characters from `i`. */
  function NameEnd(s: string, i: nat): (j: nat)
    requires i <= |s|
    ensures i <= j <= |s|
    decreases |s| - i
  {
    if i < |s| && NamePart(s[i]) then NameEnd(s, i + 1) else i
  }

  predicate TwoAt(s: string, i: nat, c: char) { i + 1 < |s| && s[i] == c && s[i + 1] == c }

  /** Where a placeholder starting at `i` ends, if there is one. */
  function PlaceholderAt(s: string, i: nat): (end: Option<nat>)
    requires i <= |s|
    ensures end.Some? ==> i + 5 <= end.value <= |s| && TwoAt(s, i, '{') && TwoAt(s, end.value - 2, '}')
  {
    if !TwoAt(s, i, '{') || i + 2 >= |s| || !NameStart(s[i + 2]) then None
    else
      var j := NameEnd(s, i + 3);
      if TwoAt(s, j, '}') then Some(j + 2) else None
  }

  datatype Segment = Char(c: char) | Hole(name: string)

  datatype Segments = End | Then(first: Segment, rest: Segments)

  function Scan(s: string, i: nat): Segments
    requires i <= |s|
    decreases |s| - i
  {
    if i == |s| then End
    else
      var p := PlaceholderAt(s, i);
      if p.Some? then Then(Hole(s[i + 2..p.value - 2]), Scan(s, p.value))
      else Then(Char(s[i]), Scan(s, i + 1))
  }

  /** `segs` is a reading of `s` from `i` on: its characters and `{{name}}`s, one after the other. */
  predicate Written(s: string, i: nat, segs: Segments)
    decreases segs
  {
    match segs
    case End => i == |s|
    case Then(Char(c), rest) => i < |s| && s[i] == c && Written(s, i + 1, rest)
    case Then(Hole(name), rest) => HoleAt(s, i, name) && Written(s, i + |name| + 4, rest)
  }

  predicate HoleAt(s: string, i: nat, name: string) {
    var end := i + 2 + |name|;
    end <= |s| && TwoAt(s, i, '{') && s[i + 2..end] == name && TwoAt(s, end, '}')
  }

  /** Scanning loses nothing. */
  lemma {:induction false} ScanIsFaithful(s: string, i: nat)
    requires i <= |s|
    ensures Written(s, i, Scan(s, i))
    decreases |s| - i
  {
    if i < |s| {
      var p := PlaceholderAt(s, i);
      ScanIsFaithful(s, if p.Some? then p.value else i + 1);
    }
  }

  predicate Name(s: string) {
    |s| > 0 && NameStart(s[0]) && forall i :: 0 <= i < |s| ==> NamePart(s[i])
  }

  /** Literal characters other than braces, and placeholders with proper names. */
  predicate Plain(segs: Segments) {
    match segs
    case End => true
    case Then(Char(c), rest) => c != '{' && c != '}' && Plain(rest)
    case Then(Hole(name), rest) => Name(name) && Plain(rest)
  }

  lemma {:induction false} NameEndOf(s: string, i: nat, j: nat)
    requires i <= j < |s| && (forall m :: i <= m < j ==> NamePart(s[m])) && !NamePart(s[j])
    ensures NameEnd(s, i) == j
    decreases j - i
  {
    if i < j { NameEndOf(s, i + 1, j); }
  }

  lemma PlaceholderFound(s: string, i: nat, name: string)
    requires Name(name) && HoleAt(s, i, name)
    ensures PlaceholderAt(s, i) == Some(i + |name| + 4)
  {
    var end := i + 2 + |name|;
    assert forall m :: i + 2 <= m < end ==> s[m] == s[i + 2..end][m - i - 2];
    NameEndOf(s, i + 3, end);
  }

  /** Every placeholder written in a template is found, wherever it stands. */
  lemma {:induction false} ScanFindsAll(s: string, i: nat, segs: Segments)
    requires i <= |s| && Written(s, i, segs) && Plain(segs)
    ensures Scan(s, i) == segs
    decreases segs
  {
    match segs {
      case End =>
      case Then(Char(_), rest) => ScanFindsAll(s, i + 1, rest);
      case Then(Hole(name), rest) =>
        PlaceholderFound(s, i, name);
        ScanFindsAll(s, i + |name| + 4, rest);
    }
  }

  // ---------------------------------------------------------------- resolving

  datatype Result<T> = Done(value: T) | Failed

  /** `_stringify`: a string is itself, everything else is shown by `show`. */
  function Text(v: Json, show: Json -> string): string { if v.Str? then v.s else show(v) }

  function Render(segs: Segments, ctx: Context, show: Json -> string): Result<string> {
    match segs
    case End => Done("")
    case Then(first, rest) =>
      var r := Render(rest, ctx, show);
      if r.Failed? || (first.Hole? && first.name !in ctx) then Failed
      else Done((if first.Char? then [first.c] else Text(ctx[first.name], show)) + r.value)
  }

  /** Some adjacent pair of equal braces. */
  predicate HasBraces(s: string) { exists i :: 0 <= i < |s| && (TwoAt(s, i, '{') || TwoAt(s, i, '}')) }

  function ResolveText(s: string, ctx: Context, show: Json -> string): Result<Json> {
    if PlaceholderAt(s, 0) == Some(|s|) then
      var name := s[2..|s| - 2];
      if name in ctx then Done(ctx[name]) else Failed
    else
      var r := Render(Scan(s, 0), ctx, show);
      if r.Failed? || HasBraces(r.value) then Failed else Done(Str(r.value))
  }

  /** `_resolve` */
  function Resolve(v: Json, ctx: Context, show: Json -> string): Result<Json>
    decreases v, 1
  {
    match v
    case Str(s) => ResolveText(s, ctx, show)
    case Arr(items) => var r := ResolveItems(items, ctx, show); if r.Failed? then Failed else Done(Arr(r.value))
    case Obj(fields) => var r := ResolveFields(fields, ctx, show); if r.Failed? then Failed else Done(Obj(r.value))
    case _ => Done(v)
  }

  function ResolveItems(items: seq<Json>, ctx: Context, show: Json -> string): Result<seq<Json>>
    decreases items, 0
  {
    if items == [] then Done([])
    else
      var first := Resolve(items[0], ctx, show);
      var rest := ResolveItems(items[1..], ctx, show);
      if first.Failed? || rest.Failed? then Failed else Done([first.value] + rest.value)
  }

  function ResolveFields(fields: seq<Field>, ctx: Context, show: Json -> string): Result<seq<Field>>
    decreases fields, 0
  {
    if fields == [] then Done([])
    else
      var first := Resolve(fields[0].value, ctx, show);
      var rest := ResolveFields(fields[1..], ctx, show);
      if first.Failed? || rest.Failed? then Failed else Done([Field(fields[0].key, first.value)] + rest.value)
  }

  // ---------------------------------------------------------------- brace-free values

  /** No string value at any depth has doubled braces; keys are not looked at. */
  predicate Clean(v: Json)
    decreases v, 1
  {
    match v
    case Str(s) => !HasBraces(s)
    case Arr(items) => CleanItems(items)
    case Obj(fields) => CleanFields(fields)
    case _ => true
  }

  predicate CleanItems(items: seq<Json>)
    decreases items, 0
  {
    items == [] || (Clean(items[0]) && CleanItems(items[1..]))
  }

  predicate CleanFields(fields: seq<Field>)
    decreases fields, 0
  {
    fields == [] || (Clean(fields[0].value) && CleanFields(fields[1..]))
  }

  ghost predicate CleanContext(ctx: Context) { forall k :: k in ctx ==> Clean(ctx[k]) }

  predicate NoPlaceholders(s: string, i: nat)
    requires i <= |s|
    decreases |s| - i
  {
    i == |s| || (PlaceholderAt(s, i).None? && NoPlaceholders(s, i + 1))
  }

  lemma {:induction false} CleanHasNone(s: string, i: nat)
    requires i <= |s| && !HasBraces(s)
    ensures NoPlaceholders(s, i)
    decreases |s| - i
  {
    if i < |s| {
      assert !TwoAt(s, i, '{');
      CleanHasNone(s, i + 1);
    }
  }

  /** Text without placeholders renders to itself. */
  lemma {:induction false} PlainTextRenders(s: string, i: nat, ctx: Context, show: Json -> string)
    requires i <= |s| && NoPlaceholders(s, i)
    ensures Render(Scan(s, i), ctx, show) == Done(s[i..])
    decreases |s| - i
  {
    if i == |s| {
      assert s[i..] == "";
    } else {
      PlainTextRenders(s, i + 1, ctx, show);
      assert s[i..] == [s[i]] + s[i + 1..];
    }
  }

  /** A brace-free value resolves to itself in every context. */
  lemma {:induction false} CleanIsFixed(v: Json, ctx: Context, show: Json -> string)
    requires Clean(v)
    ensures Resolve(v, ctx, show) == Done(v)
    decreases v, 1
  {
    match v {
      case Str(s) =>
        CleanHasNone(s, 0);
        PlainTextRenders(s, 0, ctx, show);
        assert s[0..] == s;
      case Arr(items) => CleanItemsFixed(items, ctx, show);
      case Obj(fields) => CleanFieldsFixed(fields, ctx, show);
      case _ =>
    }
  }

  lemma {:induction false} CleanItemsFixed(items: seq<Json>, ctx: Context, show: Json -> string)
    requires CleanItems(items)
    ensures ResolveItems(items, ctx, show) == Done(items)
    decreases items, 0
  {
    if items != [] {
      CleanIsFixed(items[0], ctx, show);
      CleanItemsFixed(items[1..], ctx, show);
      assert [items[0]] + items[1..] == items;
    }
  }

  lemma {:induction false} CleanFieldsFixed(fields: seq<Field>, ctx: Context, show: Json -> string)
    requires CleanFields(fields)
    ensures ResolveFields(fields, ctx, show) == Done(fields)
    decreases fields, 0
  {
    if fields != [] {
      CleanIsFixed(fields[0].value, ctx, show);
      CleanFieldsFixed(fields[1..], ctx, show);
      assert [fields[0]] + fields[1..] == fields;
    }
  }

  /** In a brace-free context whatever resolves, resolves to a brace-free value. */
  lemma {:induction false} ResolvedIsClean(v: Json, ctx: Context, show: Json -> string)
    requires CleanContext(ctx) && Resolve(v, ctx, show).Done?
    ensures Clean(Resolve(v, ctx, show).value)
    decreases v, 1
  {
    match v {
      case Arr(items) => ResolvedItemsClean(items, ctx, show);
      case Obj(fields) => ResolvedFieldsClean(fields, ctx, show);
      case _ =>
    }
  }

  lemma {:induction false} ResolvedItemsClean(items: seq<Json>, ctx: Context, show: Json -> string)
    requires CleanContext(ctx) && ResolveItems(items, ctx, show).Done?
    ensures CleanItems(ResolveItems(items, ctx, show).value)
    decreases items, 0
  {
    if items != [] {
      ResolvedIsClean(items[0], ctx, show);
      ResolvedItemsClean(items[1..], ctx, show);
      assert ResolveItems(items, ctx, show).value[1..] == ResolveItems(items[1..], ctx, show).value;
    }
  }

  lemma {:induction false} ResolvedFieldsClean(fields: seq<Field>, ctx: Context, show: Json -> string)
    requires CleanContext(ctx) && ResolveFields(fields, ctx, show).Done?
    ensures CleanFields(ResolveFields(fields, ctx, show).value)
    decreases fields, 0
  {
    if fields != [] {
      ResolvedIsClean(fields[0].value, ctx, show);
      ResolvedFieldsClean(fields[1..], ctx, show);
      assert ResolveFields(fields, ctx, show).value[1..] == ResolveFields(fields[1..], ctx, show).value;
    }
  }

  /** Resolving an object keeps its keys, in order. */
  lemma {:induction false} KeysUntouched(fields: seq<Field>, ctx: Context, show: Json -> string, i: nat)
    requires ResolveFields(fields, ctx, show).Done? && i < |fields|
    ensures |ResolveFields(fields, ctx, show).value| == |fields|
    ensures ResolveFields(fields, ctx, show).value[i].key == fields[i].key
    ensures Resolve(fields[i].value, ctx, show) == Done(ResolveFields(fields, ctx, show).value[i].value)
  {
    if |fields| > 1 { KeysUntouched(fields[1..], ctx, show, if i == 0 then 0 else i - 1); }
  }

  /** Resolution is idempotent in a brace-free context, whatever context comes second. */
  lemma ResolveIdempotent(v: Json, ctx: Context, later: Context, show: Json -> string)
    requires CleanContext(ctx) && Resolve(v, ctx, show).Done?
    ensures Resolve(Resolve(v, ctx, show).value, later, show) == Resolve(v, ctx, show)
  {
    ResolvedIsClean(v, ctx, show);
    CleanIsFixed(Resolve(v, ctx, show).value, later, show);
  }

  /** It is not idempotent in every context: a placeholder can bring in another one. */
  lemma NotIdempotentInGeneral(show: Json -> string)
    ensures var ctx: Context := map["x" := Str("{{y}}"), "y" := Num(1)];
            var once := Resolve(Str("{{x}}"), ctx, show);
            once == Done(Str("{{y}}")) && Resolve(once.value, ctx, show) == Done(Num(1))
  {
    var x, y := "{{x}}", "{{y}}";
    assert NameEnd(x, 3) == 3 && NameEnd(y, 3) == 3;
    assert x[2..3] == "x" && y[2..3] == "y";
  }

  // ---------------------------------------------------------------- exactly when it is idempotent

  ghost predicate Idempotent(ctx: Context, show: Json -> string) {
    forall v :: Resolve(v, ctx, show).Done? ==>
      Resolve(Resolve(v, ctx, show).value, ctx, show) == Resolve(v, ctx, show)
  }

  /** The values placeholders can name have nothing left to resolve. */
  ghost predicate NothingToResolve(ctx: Context, show: Json -> string) {
    forall name :: name in ctx && Name(name) ==> Resolve(ctx[name], ctx, show) == Done(ctx[name])
  }

  lemma {:induction false} NameInside(s: string, i: nat, m: nat)
    requires i <= |s| && i <= m < NameEnd(s, i)
    ensures NamePart(s[m])
    decreases |s| - i
  {
    if i < m { NameInside(s, i + 1, m); }
  }

  lemma PlaceholderIsName(s: string, i: nat, end: nat)
    requires i <= |s| && PlaceholderAt(s, i) == Some(end)
    ensures Name(s[i + 2..end - 2])
  {
    forall m | i + 3 <= m < end - 2 ensures NamePart(s[m]) { NameInside(s, i + 3, m); }
  }

  lemma TextIsFixed(s: string, ctx: Context, show: Json -> string)
    requires NothingToResolve(ctx, show) && ResolveText(s, ctx, show).Done?
    ensures Resolve(ResolveText(s, ctx, show).value, ctx, show) == ResolveText(s, ctx, show)
  {
    if PlaceholderAt(s, 0) == Some(|s|) {
      PlaceholderIsName(s, 0, |s|);
    } else {
      CleanIsFixed(ResolveText(s, ctx, show).value, ctx, show);
    }
  }

  lemma {:induction false} ResolvedIsFixed(v: Json, ctx: Context, show: Json -> string)
    requires NothingToResolve(ctx, show) && Resolve(v, ctx, show).Done?
    ensures Resolve(Resolve(v, ctx, show).value, ctx, show) == Resolve(v, ctx, show)
    decreases v, 1
  {
    match v {
      case Str(s) => TextIsFixed(s, ctx, show);
      case Arr(items) => ResolvedItemsFixed(items, ctx, show);
      case Obj(fields) => ResolvedFieldsFixed(fields, ctx, show);
      case _ =>
    }
  }

  lemma {:induction false} ResolvedItemsFixed(items: seq<Json>, ctx: Context, show: Json -> string)
    requires NothingToResolve(ctx, show) && ResolveItems(items, ctx, show).Done?
    ensures ResolveItems(ResolveItems(items, ctx, show).value, ctx, show) == ResolveItems(items, ctx, show)
    decreases items, 0
  {
    if items != [] {
      ResolvedIsFixed(items[0], ctx, show);
      ResolvedItemsFixed(items[1..], ctx, show);
      assert ResolveItems(items, ctx, show).value[1..] == ResolveItems(items[1..], ctx, show).value;
    }
  }

  lemma {:induction false} ResolvedFieldsFixed(fields: seq<Field>, ctx: Context, show: Json -> string)
    requires NothingToResolve(ctx, show) && ResolveFields(fields, ctx, show).Done?
    ensures ResolveFields(ResolveFields(fields, ctx, show).value, ctx, show) == ResolveFields(fields, ctx, show)
    decreases fields, 0
  {
    if fields != [] {
      ResolvedIsFixed(fields[0].value, ctx, show);
      ResolvedFieldsFixed(fields[1..], ctx, show);
      assert ResolveFields(fields, ctx, show).value[1..] == ResolveFields(fields[1..], ctx, show).value;
    }
  }

  /** Resolution in a context is idempotent exactly when no value a placeholder can name still
      changes under resolution; values under other keys do not matter. */
  lemma IdempotentIff(ctx: Context, show: Json -> string)
    ensures Idempotent(ctx, show) <==> NothingToResolve(ctx, show)
  {
    if NothingToResolve(ctx, show) {
      forall v | Resolve(v, ctx, show).Done?
        ensures Resolve(Resolve(v, ctx, show).value, ctx, show) == Resolve(v, ctx, show)
      {
        ResolvedIsFixed(v, ctx, show);
      }
    }
    if Idempotent(ctx, show) {
      forall name | name in ctx && Name(name) ensures Resolve(ctx[name], ctx, show) == Done(ctx[name]) {
        WholePlaceholderKeepsType(name, ctx, show);
      }
    }
  }

  /** A brace-free context is such a context. */
  lemma CleanContextIsIdempotent(ctx: Context, show: Json -> string)
    requires CleanContext(ctx)
    ensures Idempotent(ctx, show)
  {
    forall name | name in ctx && Name(name) ensures Resolve(ctx[name], ctx, show) == Done(ctx[name]) {
      CleanIsFixed(ctx[name], ctx, show);
    }
    IdempotentIff(ctx, show);
  }

  // ---------------------------------------------------------------- what is looked up

  /** The names a template asks for. */
  function Holes(segs: Segments): set<string> {
    match segs
    case End => {}
    case Then(first, rest) => (if first.Hole? then {first.name} else {}) + Holes(rest)
  }

  predicate Agree(names: set<string>, a: Context, b: Context) {
    forall n :: n in names ==> (n in a <==> n in b) && (n in a ==> a[n] == b[n])
  }

  lemma {:induction false} RenderLooksUpItsHoles(segs: Segments, a: Context, b: Context, show: Json -> string)
    requires Agree(Holes(segs), a, b)
    ensures Render(segs, a, show) == Render(segs, b, show)
  {
    if segs.Then? {
      RenderLooksUpItsHoles(segs.rest, a, b, show);
      if segs.first.Hole? { assert segs.first.name in Holes(segs); }
    }
  }

  function Append(a: Segments, b: Segments): Segments {
    match a case End => b case Then(first, rest) => Then(first, Append(rest, b))
  }

  /** Rendering goes piece by piece: what stands before a point does not matter after it. */
  lemma {:induction false} RenderJoins(a: Segments, b: Segments, ctx: Context, show: Json -> string)
    ensures Render(Append(a, b), ctx, show) == Joined(Render(a, ctx, show), Render(b, ctx, show))
  {
    match a {
      case End =>
        if Render(b, ctx, show).Done? { assert "" + Render(b, ctx, show).value == Render(b, ctx, show).value; }
      case Then(first, rest) =>
        RenderJoins(rest, b, ctx, show);
        var head := if first.Char? then [first.c] else if first.name in ctx then Text(ctx[first.name], show) else "";
        JoinAssoc(head, Render(rest, ctx, show), Render(b, ctx, show));
    }
  }

  function Joined(x: Result<string>, y: Result<string>): Result<string> {
    if x.Done? && y.Done? then Done(x.value + y.value) else Failed
  }

  lemma JoinAssoc(head: string, x: Result<string>, y: Result<string>)
    ensures x.Done? && y.Done? ==> head + (x.value + y.value) == (head + x.value) + y.value
  {
  }

  /** A placeholder renders as the text of its value, a character as itself. */
  lemma RenderPiece(seg: Segment, ctx: Context, show: Json -> string)
    ensures seg.Char? ==> Render(Then(seg, End), ctx, show) == Done([seg.c])
    ensures seg.Hole? && seg.name in ctx ==> Render(Then(seg, End), ctx, show) == Done(Text(ctx[seg.name], show))
  {
    if seg.Char? {
      assert [seg.c] + "" == [seg.c];
    } else if seg.name in ctx {
      assert Text(ctx[seg.name], show) + "" == Text(ctx[seg.name], show);
    }
  }

  /** Rendering fails exactly when a name is not defined. */
  lemma {:induction false} RenderFailsIff(segs: Segments, ctx: Context, show: Json -> string)
    ensures Render(segs, ctx, show).Failed? <==> exists name :: name in Holes(segs) && name !in ctx
  {
    if segs.Then? {
      RenderFailsIff(segs.rest, ctx, show);
      if segs.first.Hole? { assert segs.first.name in Holes(segs); }
      assert forall name :: name in Holes(segs.rest) ==> name in Holes(segs);
    }
  }

  /** Substituted text is never expanded again: the rendered string is the literal characters
      of the template with the text of each placeholder of the template in between, so only
      the names written in the template matter. */
  lemma {:induction false} SubstitutesOnce(s: string, a: Context, b: Context, show: Json -> string)
    requires PlaceholderAt(s, 0) != Some(|s|)
    requires Agree(Holes(Scan(s, 0)), a, b)
    ensures ResolveText(s, a, show) == ResolveText(s, b, show)
  {
    RenderLooksUpItsHoles(Scan(s, 0), a, b, show);
  }

  /** A string that is one placeholder keeps the type of the value it names. */
  lemma WholePlaceholderKeepsType(name: string, ctx: Context, show: Json -> string)
    requires Name(name)
    ensures Resolve(Str("{{" + name + "}}"), ctx, show) == if name in ctx then Done(ctx[name]) else Failed
  {
    var s := "{{" + name + "}}";
    assert s[2..2 + |name|] == name;
    PlaceholderFound(s, 0, name);
  }

  // ---------------------------------------------------------------- what a resolved text is

  /** A `{{name}}` with a proper name starts here. */
  ghost predicate StartsHole(s: string, i: nat) { exists name :: Name(name) && HoleAt(s, i, name) }

  /** `segs` is the reading of `s` from `i` on: every placeholder that can be taken is taken, from
      left to right, and everything else is a character. */
  ghost predicate Reading(s: string, i: nat, segs: Segments)
    decreases segs
  {
    match segs
    case End => i == |s|
    case Then(Char(c), rest) => i < |s| && s[i] == c && !StartsHole(s, i) && Reading(s, i + 1, rest)
    case Then(Hole(name), rest) => Name(name) && HoleAt(s, i, name) && Reading(s, i + |name| + 4, rest)
  }

  /** Every text has such a reading, ... */
  lemma {:induction false} ScanIsReading(s: string, i: nat)
    requires i <= |s|
    ensures Reading(s, i, Scan(s, i))
    decreases |s| - i
  {
    if i < |s| {
      var p := PlaceholderAt(s, i);
      if p.Some? {
        PlaceholderIsName(s, i, p.value);
        ScanIsReading(s, p.value);
      } else {
        if name :| Name(name) && HoleAt(s, i, name) { PlaceholderFound(s, i, name); }
        ScanIsReading(s, i + 1);
      }
    }
  }

  lemma HoleThere(s: string, i: nat)
    requires i <= |s| && PlaceholderAt(s, i).Some?
    ensures StartsHole(s, i)
  {
    var end := PlaceholderAt(s, i).value;
    PlaceholderIsName(s, i, end);
    assert HoleAt(s, i, s[i + 2..end - 2]);
  }

  /** ... and only one. */
  lemma {:induction false} ReadingIsScan(s: string, i: nat, segs: Segments)
    requires i <= |s| && Reading(s, i, segs)
    ensures Scan(s, i) == segs
    decreases segs
  {
    match segs {
      case End =>
      case Then(Char(_), rest) =>
        if PlaceholderAt(s, i).Some? { HoleThere(s, i); }
        ReadingIsScan(s, i + 1, rest);
      case Then(Hole(name), rest) =>
        PlaceholderFound(s, i, name);
        ReadingIsScan(s, i + |name| + 4, rest);
    }
  }

  /** `text` is the characters of the reading with the text of each named value in place: a
      string as it is, any other value as it is shown. */
  predicate SpellsOut(segs: Segments, ctx: Context, show: Json -> string, text: string)
    decreases segs
  {
    match segs
    case End => text == []
    case Then(Char(c), rest) => text != [] && text[0] == c && SpellsOut(rest, ctx, show, text[1..])
    case Then(Hole(name), rest) =>
      && name in ctx
      && var piece := match ctx[name] { case Str(x) => x case v => show(v) };
         piece <= text && SpellsOut(rest, ctx, show, text[|piece|..])
  }

  lemma {:induction false} RenderSpellsOut(segs: Segments, ctx: Context, show: Json -> string, text: string)
    requires SpellsOut(segs, ctx, show, text)
    ensures Render(segs, ctx, show) == Done(text)
    decreases segs
  {
    match segs {
      case End =>
      case Then(Char(c), rest) =>
        RenderSpellsOut(rest, ctx, show, text[1..]);
        assert text == [c] + text[1..];
      case Then(Hole(name), rest) =>
        var piece := Text(ctx[name], show);
        RenderSpellsOut(rest, ctx, show, text[|piece|..]);
        assert text == piece + text[|piece|..];
    }
  }

  /** Two equal braces next to each other. */
  predicate Doubled(text: string) {
    exists i :: 0 <= i && i + 1 < |text| && text[i] == text[i + 1] && (text[i] == '{' || text[i] == '}')
  }

  lemma DoubledBraces(text: string)
    ensures HasBraces(text) <==> Doubled(text)
  {
    if HasBraces(text) {
      var i :| 0 <= i < |text| && (TwoAt(text, i, '{') || TwoAt(text, i, '}'));
      assert text[i] == text[i + 1];
    }
    if i :| 0 <= i && i + 1 < |text| && text[i] == text[i + 1] && (text[i] == '{' || text[i] == '}') {
      assert TwoAt(text, i, '{') || TwoAt(text, i, '}');
    }
  }

  /** A text that is not one placeholder resolves to exactly its spelled-out text, unless that has
      doubled braces, ... */
  lemma TextIsSpelledOut(s: string, segs: Segments, ctx: Context, show: Json -> string, text: string)
    requires Reading(s, 0, segs) && !(segs.Then? && segs.first.Hole? && segs.rest.End?)
    requires SpellsOut(segs, ctx, show, text)
    ensures Resolve(Str(s), ctx, show) == if Doubled(text) then Failed else Done(Str(text))
  {
    ReadingIsScan(s, 0, segs);
    RenderSpellsOut(segs, ctx, show, text);
    DoubledBraces(text);
    NotOnePlaceholder(s, segs);
  }

  lemma NotOnePlaceholder(s: string, segs: Segments)
    requires Scan(s, 0) == segs && !(segs.Then? && segs.first.Hole? && segs.rest.End?)
    ensures PlaceholderAt(s, 0) != Some(|s|)
  {}

  /** The names a reading needs. */
  predicate Needs(segs: Segments, name: string)
    decreases segs
  {
    segs.Then? && (segs.first == Hole(name) || Needs(segs.rest, name))
  }

  lemma {:induction false} NeedsIsHole(segs: Segments, name: string)
    ensures Needs(segs, name) <==> name in Holes(segs)
    decreases segs
  {
    if segs.Then? { NeedsIsHole(segs.rest, name); }
  }

  /** ... fails if a name it needs is undefined, and can be spelled out if none is. */
  lemma TextNeedsItsNames(s: string, segs: Segments, ctx: Context, show: Json -> string)
    requires Reading(s, 0, segs)
    ensures (exists name :: Needs(segs, name) && name !in ctx) ==> Resolve(Str(s), ctx, show) == Failed
    ensures (forall name :: Needs(segs, name) ==> name in ctx) ==> exists text :: SpellsOut(segs, ctx, show, text)
  {
    ReadingIsScan(s, 0, segs);
    if name :| Needs(segs, name) && name !in ctx {
      NeedsIsHole(segs, name);
      RenderFailsIff(segs, ctx, show);
      if PlaceholderAt(s, 0) == Some(|s|) { assert segs == Then(Hole(s[2..|s| - 2]), End); }
    }
    if forall name :: Needs(segs, name) ==> name in ctx {
      var text := SpelledOut(segs, ctx, show);
    }
  }

  lemma {:induction false} SpelledOut(segs: Segments, ctx: Context, show: Json -> string) returns (text: string)
    requires forall name :: Needs(segs, name) ==> name in ctx
    ensures SpellsOut(segs, ctx, show, text)
    decreases segs
  {
    match segs {
      case End => text := [];
      case Then(first, rest) =>
        assert forall name :: Needs(rest, name) ==> Needs(segs, name);
        var tail := SpelledOut(rest, ctx, show);
        if first.Hole? { assert Needs(segs, first.name); }
        var piece := if first.Char? then [first.c] else Text(ctx[first.name], show);
        text := piece + tail;
        assert text[|piece|..] == tail;
    }
  }

  /** A list resolves item by item, and fails exactly when an item does. */
  lemma {:induction false} ItemsKept(items: seq<Json>, ctx: Context, show: Json -> string)
    ensures ResolveItems(items, ctx, show).Done? <==>
              forall i :: 0 <= i < |items| ==> Resolve(items[i], ctx, show).Done?
    ensures ResolveItems(items, ctx, show).Done? ==>
              && |ResolveItems(items, ctx, show).value| == |items|
              && forall i :: 0 <= i < |items| ==>
                   Resolve(items[i], ctx, show) == Done(ResolveItems(items, ctx, show).value[i])
  {
    if items != [] {
      ItemsKept(items[1..], ctx, show);
      assert forall i :: 0 < i < |items| ==> items[i] == items[1..][i - 1];
    }
  }

  /** So does an object, value by value. */
  lemma {:induction false} FieldsFailIff(fields: seq<Field>, ctx: Context, show: Json -> string)
    ensures ResolveFields(fields, ctx, show).Done? <==>
              forall i :: 0 <= i < |fields| ==> Resolve(fields[i].value, ctx, show).Done?
  {
    if fields != [] {
      FieldsFailIff(fields[1..], ctx, show);
      assert forall i :: 0 < i < |fields| ==> fields[i] == fields[1..][i - 1];
    }
  }

  /** Lists stay lists, objects objects, and everything that is no text stays as it is. */
  lemma ShapeIsKept(v: Json, ctx: Context, show: Json -> string)
    ensures v.Null? || v.Bool? || v.Num? ==> Resolve(v, ctx, show) == Done(v)
    ensures v.Arr? ==> Resolve(v, ctx, show) ==
                       match ResolveItems(v.items, ctx, show) {
                         case Failed => Failed
                         case Done(out) => Done(Arr(out))
                       }
    ensures v.Obj? ==> Resolve(v, ctx, show) ==
                       match ResolveFields(v.fields, ctx, show) {
                         case Failed => Failed
                         case Done(out) => Done(Obj(out))
                       }
  {}
}
