/** The two-phase renaming of requirement codes (backend/scripts/normalize_demo_requirements.py).

    Codes are unique within the project.  The script gives every listed requirement a temporary
    code and then its number; the database may apply the single-row updates of a phase in any
    order, so what matters is every state in which any part of the rows is updated. */
module Renaming {
  import opened Wire
  import opened Preorder

  // ---------------------------------------------------------------- codes

  function Digit(d: nat): char
    requires d < 10
  {
    ('0' as int + d) as char
  }

  /** Decimal digits, most significant first, at least `width` of them. */
  function Decimal(n: nat, width: nat): string
    decreases n, width
  {
    if n == 0 && width == 0 then []
    else Decimal(n / 10, if width == 0 then 0 else width - 1) + [Digit(n % 10)]
  }

  function ValueOf(s: string): int {
    if s == [] then 0 else 10 * ValueOf(s[..|s| - 1]) + (s[|s| - 1] as int - '0' as int)
  }

  /** Zero-padded digits can be read back, ... */
  lemma {:induction false} DecimalReadsBack(n: nat, width: nat)
    ensures ValueOf(Decimal(n, width)) == n
    decreases n, width
  {
    if n > 0 || width > 0 {
      var rest := Decimal(n / 10, if width == 0 then 0 else width - 1);
      DecimalReadsBack(n / 10, if width == 0 then 0 else width - 1);
      assert (rest + [Digit(n % 10)])[..|rest|] == rest;
    }
  }

  function RequirementCode(index: nat): string { "REQ-" + Decimal(index, 4) }

  function TemporaryCode(id: nat): string { "TEMP-REQ-" + Decimal(id, 1) }

  /** ... so different numbers give different codes, temporary or not. */
  lemma CodesDiffer(m: nat, n: nat)
    ensures RequirementCode(m) == RequirementCode(n) ==> m == n
    ensures TemporaryCode(m) == TemporaryCode(n) ==> m == n
    ensures RequirementCode(m) != TemporaryCode(n)
  {
    assert RequirementCode(m)[4..] == Decimal(m, 4) && RequirementCode(n)[4..] == Decimal(n, 4);
    assert TemporaryCode(m)[9..] == Decimal(m, 1) && TemporaryCode(n)[9..] == Decimal(n, 1);
    assert RequirementCode(m)[0] == 'R' && TemporaryCode(n)[0] == 'T';
    DecimalReadsBack(m, 4);
    DecimalReadsBack(n, 4);
    DecimalReadsBack(m, 1);
    DecimalReadsBack(n, 1);
  }

  // ---------------------------------------------------------------- states of the table

  /** The codes of all requirements of the project, by id. */
  type Table = map<nat, string>

  /** The unique constraint on (project, code). */
  ghost predicate Unique(t: Table) { forall a, b :: a in t && b in t && t[a] == t[b] ==> a == b }

  ghost predicate Listed(t: Table, ordered: seq<nat>) {
    && (forall i :: 0 <= i < |ordered| ==> ordered[i] in t)
    && (forall i, j :: 0 <= i < j < |ordered| ==> ordered[i] != ordered[j])
  }

  /** The position of a listed requirement. */
  function At(ordered: seq<nat>, id: nat): (i: nat)
    requires id in ordered
    ensures i < |ordered| && ordered[i] == id
  {
    if ordered[0] == id then 0 else 1 + At(ordered[1..], id)
  }

  function NumberOf(ordered: seq<nat>, id: nat): string
    requires id in ordered
  {
    RequirementCode(At(ordered, id) + 1)
  }

  function AllOf(ordered: seq<nat>): set<nat> { set id | id in ordered }

  /** The first phase with `rows` done. */
  function First(t: Table, ordered: seq<nat>, rows: set<nat>): Table {
    map id | id in t :: if id in rows then TemporaryCode(id) else t[id]
  }

  /** The second phase with `rows` done. */
  function Second(t: Table, ordered: seq<nat>, rows: set<nat>): Table {
    map id | id in t ::
      if id !in ordered then t[id] else if id in rows then NumberOf(ordered, id) else TemporaryCode(id)
  }

  /** Every state on the way, whatever rows were updated first, keeps codes unique. */
  ghost predicate AlwaysUnique(t: Table, ordered: seq<nat>) {
    forall rows :: rows <= AllOf(ordered) ==> Unique(First(t, ordered, rows)) && Unique(Second(t, ordered, rows))
  }

  /** No other row holds a temporary code, no row that stays holds a number to be given. */
  ghost predicate CodesAreFree(t: Table, ordered: seq<nat>) {
    && (forall a, id :: a in t && id in ordered && t[a] == TemporaryCode(id) ==> a == id)
    && (forall a, n :: a in t && a !in ordered && 1 <= n <= |ordered| ==> t[a] != RequirementCode(n))
  }

  lemma AtIsPosition(t: Table, ordered: seq<nat>, i: nat)
    requires Listed(t, ordered) && i < |ordered|
    ensures At(ordered, ordered[i]) == i
  {
  }

  lemma FirstPhaseIsUnique(t: Table, ordered: seq<nat>, rows: set<nat>)
    requires Unique(t) && CodesAreFree(t, ordered) && rows <= AllOf(ordered)
    ensures Unique(First(t, ordered, rows))
  {
    var u := First(t, ordered, rows);
    forall a, b | a in u && b in u && u[a] == u[b] ensures a == b {
      SharedFirst(t, ordered, rows, a, b);
    }
  }

  /** Two rows that share a code halfway through the first phase are the same row. */
  lemma SharedFirst(t: Table, ordered: seq<nat>, rows: set<nat>, a: nat, b: nat)
    requires Unique(t) && CodesAreFree(t, ordered) && rows <= AllOf(ordered) && a in t && b in t
    requires First(t, ordered, rows)[a] == First(t, ordered, rows)[b]
    ensures a == b
  {
    if a in rows && b in rows { CodesDiffer(a, b); }
  }

  lemma NumbersDiffer(ordered: seq<nat>, a: nat, b: nat)
    requires a in ordered
    ensures b in ordered && NumberOf(ordered, a) == NumberOf(ordered, b) ==> a == b
    ensures NumberOf(ordered, a) != TemporaryCode(b)
  {
    CodesDiffer(At(ordered, a) + 1, b);
    if b in ordered { CodesDiffer(At(ordered, a) + 1, At(ordered, b) + 1); }
  }

  /** Two rows that share a code halfway through the second phase are the same row. */
  lemma SharedCode(t: Table, ordered: seq<nat>, rows: set<nat>, a: nat, b: nat)
    requires Unique(t) && CodesAreFree(t, ordered) && a in t && b in t
    requires Second(t, ordered, rows)[a] == Second(t, ordered, rows)[b]
    ensures a == b
  {
    CodesDiffer(a, b);
    if a in ordered { NumbersDiffer(ordered, a, b); }
    if b in ordered { NumbersDiffer(ordered, b, a); }
  }

  lemma SecondPhaseIsUnique(t: Table, ordered: seq<nat>, rows: set<nat>)
    requires Unique(t) && CodesAreFree(t, ordered)
    ensures Unique(Second(t, ordered, rows))
  {
    var u := Second(t, ordered, rows);
    forall a, b | a in u && b in u && u[a] == u[b] ensures a == b {
      SharedCode(t, ordered, rows, a, b);
    }
  }

  lemma TakenTemporaryBreaks(t: Table, ordered: seq<nat>, a: nat, id: nat)
    requires Listed(t, ordered) && a in t && id in ordered && a != id && t[a] == TemporaryCode(id)
    ensures !Unique(First(t, ordered, {id}))
  {
    var u := First(t, ordered, {id});
    assert u[a] == u[id];
  }

  lemma TakenNumberBreaks(t: Table, ordered: seq<nat>, a: nat, n: nat)
    requires Listed(t, ordered) && a in t && a !in ordered && 1 <= n <= |ordered| && t[a] == RequirementCode(n)
    ensures !Unique(Second(t, ordered, {ordered[n - 1]}))
  {
    var id := ordered[n - 1];
    AtIsPosition(t, ordered, n - 1);
    var u := Second(t, ordered, {id});
    assert u[a] == u[id];
  }

  /** The renaming keeps codes unique after every single-row update, in any order, exactly when
      the codes it is going to use are free. */
  lemma RenamingIsSafeIff(t: Table, ordered: seq<nat>)
    requires Unique(t) && Listed(t, ordered)
    ensures AlwaysUnique(t, ordered) <==> CodesAreFree(t, ordered)
  {
    if CodesAreFree(t, ordered) {
      forall rows | rows <= AllOf(ordered) ensures Unique(First(t, ordered, rows)) && Unique(Second(t, ordered, rows)) {
        FirstPhaseIsUnique(t, ordered, rows);
        SecondPhaseIsUnique(t, ordered, rows);
      }
    } else {
      TakenCodesBreak(t, ordered);
    }
  }

  lemma TakenCodesBreak(t: Table, ordered: seq<nat>)
    requires Listed(t, ordered) && !CodesAreFree(t, ordered)
    ensures !AlwaysUnique(t, ordered)
  {
    if a, id :| a in t && id in ordered && t[a] == TemporaryCode(id) && a != id {
      TakenTemporaryBreaks(t, ordered, a, id);
      assert {id} <= AllOf(ordered);
    } else {
      var a, n :| a in t && a !in ordered && 1 <= n <= |ordered| && t[a] == RequirementCode(n);
      TakenNumberBreaks(t, ordered, a, n);
      assert {ordered[n - 1]} <= AllOf(ordered);
    }
  }

  // ---------------------------------------------------------------- the script

  class Project {
    var codes: Table
    var counter: Option<nat>

    constructor (codes: Table, counter: Option<nat>)
      ensures this.codes == codes && this.counter == counter
    {
      this.codes, this.counter := codes, counter;
    }

    /** One UPDATE under the unique constraint. */
    method Update(id: nat, code: string) returns (ok: bool)
      requires Unique(codes) && id in codes
      modifies `codes
      ensures Unique(codes)
      ensures ok <==> Unique(old(codes)[id := code])
      ensures codes == if ok then old(codes)[id := code] else old(codes)
    {
      ok := forall a :: a in codes && a != id ==> codes[a] != code;
      if ok { codes := codes[id := code]; }
      assert !ok ==> exists a :: a in old(codes) && a != id && old(codes)[id := code][a] == old(codes)[id := code][id];
    }

    /** The first flush, in the order the database gets the rows. */
    method FlushTemporary(ordered: seq<nat>, order: seq<nat>) returns (ok: bool)
      requires Unique(codes) && Listed(codes, ordered) && forall i :: 0 <= i < |order| ==> order[i] in ordered
      modifies `codes
      ensures Unique(codes)
      ensures ok ==> codes == First(old(codes), ordered, AllOf(order))
      ensures AlwaysUnique(old(codes), ordered) ==> ok
    {
      assert codes == First(codes, ordered, {});
      for i := 0 to |order|
        invariant Unique(codes) && codes == First(old(codes), ordered, AllOf(order[..i]))
      {
        FirstStep(old(codes), ordered, order, i);
        ok := Update(order[i], TemporaryCode(order[i]));
        if !ok { return; }
      }
      assert order[..|order|] == order;
      ok := true;
    }

    /** The second flush. */
    method FlushNumbers(ordered: seq<nat>, order: seq<nat>, ghost t: Table) returns (ok: bool)
      requires Unique(codes) && Listed(t, ordered) && forall i :: 0 <= i < |order| ==> order[i] in ordered
      requires codes == Second(t, ordered, {})
      modifies `codes
      ensures Unique(codes)
      ensures ok ==> codes == Second(t, ordered, AllOf(order))
      ensures AlwaysUnique(t, ordered) ==> ok
    {
      for i := 0 to |order|
        invariant Unique(codes) && codes == Second(t, ordered, AllOf(order[..i]))
      {
        SecondStep(t, ordered, order, i);
        ok := Update(order[i], NumberOf(ordered, order[i]));
        if !ok { return; }
      }
      assert order[..|order|] == order;
      ok := true;
    }

    lemma Grows(ordered: seq<nat>, order: seq<nat>, i: nat)
      requires i < |order| && forall k :: 0 <= k < |order| ==> order[k] in ordered
      ensures AllOf(order[..i + 1]) == AllOf(order[..i]) + {order[i]} && AllOf(order[..i + 1]) <= AllOf(ordered)
    {
      assert order[..i + 1] == order[..i] + [order[i]];
    }

    lemma FirstStep(t: Table, ordered: seq<nat>, order: seq<nat>, i: nat)
      requires Listed(t, ordered) && i < |order| && forall k :: 0 <= k < |order| ==> order[k] in ordered
      ensures var u := First(t, ordered, AllOf(order[..i]))[order[i] := TemporaryCode(order[i])];
              First(t, ordered, AllOf(order[..i + 1])) == u && (AlwaysUnique(t, ordered) ==> Unique(u))
    {
      Grows(ordered, order, i);
      assert order[i] in t;
    }

    lemma SecondStep(t: Table, ordered: seq<nat>, order: seq<nat>, i: nat)
      requires Listed(t, ordered) && i < |order| && forall k :: 0 <= k < |order| ==> order[k] in ordered
      ensures var u := Second(t, ordered, AllOf(order[..i]))[order[i] := NumberOf(ordered, order[i])];
              Second(t, ordered, AllOf(order[..i + 1])) == u && (AlwaysUnique(t, ordered) ==> Unique(u))
    {
      Grows(ordered, order, i);
      assert order[i] in t;
    }

    /** Both flushes. */
    method Flush(ordered: seq<nat>, first: seq<nat>, second: seq<nat>) returns (ok: bool)
      requires Unique(codes) && Listed(codes, ordered)
      requires AllOf(first) == AllOf(ordered) && AllOf(second) == AllOf(ordered)
      modifies `codes
      ensures Unique(codes)
      ensures ok ==> codes == Second(old(codes), ordered, AllOf(ordered))
      ensures AlwaysUnique(old(codes), ordered) ==> ok
    {
      ghost var before := codes;
      Within(first, ordered);
      Within(second, ordered);
      ok := FlushTemporary(ordered, first);
      if ok {
        PhasesMeet(before, ordered);
        ok := FlushNumbers(ordered, second, before);
      }
    }

    lemma PhasesMeet(t: Table, ordered: seq<nat>)
      ensures First(t, ordered, AllOf(ordered)) == Second(t, ordered, {})
    {}

    /** The execute part: two flushes and the counter, committed together or not at all. */
    method Renumber(ordered: seq<nat>, first: seq<nat>, second: seq<nat>) returns (ok: bool)
      requires Unique(codes) && Listed(codes, ordered)
      requires AllOf(first) == AllOf(ordered) && AllOf(second) == AllOf(ordered)
      modifies this
      ensures Unique(codes)
      ensures ok ==> ordered != [] && counter == Some(|ordered| + 1)
      ensures ok ==> codes == Second(old(codes), ordered, AllOf(ordered))
      ensures !ok ==> codes == old(codes) && counter == old(counter)
      ensures ordered != [] && CodesAreFree(old(codes), ordered) ==> ok
    {
      if ordered == [] { return false; }
      var before := codes;
      RenamingIsSafeIff(codes, ordered);
      ok := Flush(ordered, first, second);
      if !ok {
        codes := before;
        return;
      }
      counter := Some(|ordered| + 1);
    }

    lemma Within(order: seq<nat>, ordered: seq<nat>)
      requires AllOf(order) == AllOf(ordered)
      ensures forall i :: 0 <= i < |order| ==> order[i] in ordered
    {
      assert forall i :: 0 <= i < |order| ==> order[i] in AllOf(order);
    }
  }

  /** The result: REQ-0001 to REQ-n in the listed order, below the counter, and nothing else changed. */
  lemma FinalCodes(t: Table, ordered: seq<nat>)
    requires Listed(t, ordered)
    ensures var u := Second(t, ordered, AllOf(ordered));
            && u.Keys == t.Keys
            && (forall i :: 0 <= i < |ordered| ==> u[ordered[i]] == RequirementCode(i + 1))
            && (forall a :: a in t && a !in ordered ==> u[a] == t[a])
  {
    forall i | 0 <= i < |ordered| ensures Second(t, ordered, AllOf(ordered))[ordered[i]] == RequirementCode(i + 1) {
      AtIsPosition(t, ordered, i);
    }
  }

  // ---------------------------------------------------------------- the whole script

  /** The rows of one flush, in whatever order the database gets them. */
  method AnyOrder(ordered: seq<nat>) returns (order: seq<nat>)
    ensures AllOf(order) == AllOf(ordered)
  {
    order := [];
    var rest := AllOf(ordered);
    while rest != {}
      invariant rest <= AllOf(ordered) && AllOf(order) == AllOf(ordered) - rest
      decreases |rest|
    {
      var id :| id in rest;
      assert AllOf(order + [id]) == AllOf(order) + {id};
      rest, order := rest - {id}, order + [id];
    }
  }

  lemma ListingIsListed(g: Forest, out: seq<seq<nat>>, t: Table)
    requires Lists(g, out, []) && g.Keys <= t.Keys
    ensures Listed(t, Ends(out))
  {
    forall i, j | 0 <= i < j < |out| ensures Ends(out)[i] != Ends(out)[j] { NoneTwice(g, out, i, j); }
    forall i | 0 <= i < |out| ensures Ends(out)[i] in t { assert Chain(g, out[i]); }
  }

  /** What the numbering says about the forest: the listed requirements, and no others, are
      numbered from one in preorder. */
  ghost predicate Numbered(g: Forest, out: seq<seq<nat>>, before: Table, after: Table) {
    && Lists(g, out, []) && after.Keys == before.Keys && g.Keys <= after.Keys
    && (forall i :: 0 <= i < |out| ==> End(out[i]) in after && after[End(out[i])] == RequirementCode(i + 1))
    && (forall a :: a in before && a !in Ends(out) ==> after[a] == before[a])
  }

  /** `normalize_demo_requirements` in execute mode, from the rows of the current document:
      preorder, two flushes, counter. */
  method Normalize(project: Project, g: Forest, rows: seq<nat>) returns (ok: bool, ghost out: seq<seq<nat>>)
    requires Unique(project.codes) && g.Keys <= project.codes.Keys && AllRows(g, rows)
    modifies project
    ensures Unique(project.codes) && Lists(g, out, [])
    ensures ok ==> Numbered(g, out, old(project.codes), project.codes) && project.counter == Some(|out| + 1)
    ensures !ok ==> project.codes == old(project.codes) && project.counter == old(project.counter)
    ensures out != [] && CodesAreFree(old(project.codes), Ends(out)) ==> ok
  {
    var listing := new Listing(g);
    out := listing.Run(rows);
    var ordered := listing.ordered;
    ListingIsListed(g, out, project.codes);
    var first := AnyOrder(ordered);
    var second := AnyOrder(ordered);
    FinalCodes(project.codes, ordered);
    ok := project.Renumber(ordered, first, second);
    assert forall i :: 0 <= i < |out| ==> Ends(out)[i] == End(out[i]);
  }

  lemma NumberAt(g: Forest, out: seq<seq<nat>>, before: Table, after: Table, i: nat)
    requires Numbered(g, out, before, after) && i < |out|
    ensures Ends(out)[i] in after && after[Ends(out)[i]] == RequirementCode(i + 1)
  {
  }

  /** Two requirements with the numbers `m` and `n`. */
  predicate Bear(after: Table, a: nat, m: nat, b: nat, n: nat) {
    a in after && b in after && after[a] == RequirementCode(m) && after[b] == RequirementCode(n)
  }

  lemma NumbersAt(g: Forest, out: seq<seq<nat>>, before: Table, after: Table, i: nat, j: nat)
    requires Numbered(g, out, before, after) && i < |out| && j < |out|
    ensures Bear(after, Ends(out)[i], i + 1, Ends(out)[j], j + 1)
  {
    NumberAt(g, out, before, after, i);
    NumberAt(g, out, before, after, j);
  }

  /** The numbers follow the tree: a parent has a smaller number than its child, ... */
  lemma ParentsHaveSmallerNumbers(g: Forest, out: seq<seq<nat>>, before: Table, after: Table, j: nat)
    returns (i: nat)
    requires Numbered(g, out, before, after) && j < |out| && Parent(g, Ends(out)[j]).Some?
    ensures i < j && Bear(after, Parent(g, Ends(out)[j]).value, i + 1, Ends(out)[j], j + 1)
  {
    i := ParentsComeFirst(g, out, j);
    NumbersAt(g, out, before, after, i, j);
  }

  /** The requirement has the number of its place in the listing. */
  ghost predicate IsNumbered(out: seq<seq<nat>>, after: Table, id: nat)
    requires NonEmpty(out)
  {
    exists i :: 0 <= i < |out| && End(out[i]) == id && id in after && after[id] == RequirementCode(i + 1)
  }

  lemma NumberedIffListed(g: Forest, out: seq<seq<nat>>, before: Table, after: Table, id: nat)
    requires Numbered(g, out, before, after)
    ensures IsNumbered(out, after, id) <==> id in Ends(out)
  {
    if id in Ends(out) {
      var i :| 0 <= i < |out| && Ends(out)[i] == id;
      NumberAt(g, out, before, after, i);
      assert End(out[i]) == id;
    }
    if i :| 0 <= i < |out| && End(out[i]) == id { assert Ends(out)[i] == id; }
  }

  ghost predicate AllNumbered(g: Forest, out: seq<seq<nat>>, after: Table)
    requires NonEmpty(out)
  {
    forall id :: id in g ==> IsNumbered(out, after, id)
  }

  lemma AllNumberedIffListed(g: Forest, out: seq<seq<nat>>, before: Table, after: Table)
    requires Numbered(g, out, before, after)
    ensures AllNumbered(g, out, after) <==> AllListed(g, out)
  {
    forall id | id in g ensures IsNumbered(out, after, id) <==> id in Ends(out) {
      NumberedIffListed(g, out, before, after, id);
    }
  }

  /** ... and every requirement of the document is numbered exactly when its parent ids form no
      cycle. */
  lemma AllNumberedIffAcyclic(g: Forest, out: seq<seq<nat>>, before: Table, after: Table)
    requires Numbered(g, out, before, after)
    ensures AllNumbered(g, out, after) <==> !HasCycle(g)
  {
    AllNumberedIffListed(g, out, before, after);
    AllListedIffAcyclic(g, out);
  }
}
