/** The preorder listing of a forest of requirements given by parent ids
    (`_preorder` of backend/scripts/normalize_demo_requirements.py).

    A chain runs from a root to a requirement.  The listing is proved to be all chains, in the
    lexicographic order of their siblings' (order index, id) keys; everything else a reader
    expects of a preorder follows from that. */
module Preorder {
  import opened Wire

  datatype Requirement = Requirement(parent: Option<nat>, order: int)

  /** Requirements by id. */
  type Forest = map<nat, Requirement>

  /** A parent outside the forest counts as none. */
  function Parent(g: Forest, id: nat): Option<nat>
    requires id in g
  {
    if g[id].parent.Some? && g[id].parent.value in g then g[id].parent else None
  }

  /** The sort key (order_index, id). */
  predicate Less(g: Forest, a: nat, b: nat)
    requires a in g && b in g
  {
    g[a].order < g[b].order || (g[a].order == g[b].order && a < b)
  }

  // ---------------------------------------------------------------- chains

  predicate Chain(g: Forest, q: seq<nat>) {
    && |q| > 0
    && (forall i :: 0 <= i < |q| ==> q[i] in g)
    && Parent(g, q[0]).None?
    && (forall i :: 0 < i < |q| ==> Parent(g, q[i]) == Some(q[i - 1]))
  }

  function End(q: seq<nat>): nat
    requires q != []
  {
    q[|q| - 1]
  }

  lemma ChainExtends(g: Forest, q: seq<nat>, c: nat)
    requires Chain(g, q) && c in g && Parent(g, c) == Some(End(q))
    ensures Chain(g, q + [c])
  {
  }

  lemma ChainPrefix(g: Forest, q: seq<nat>, k: nat)
    requires Chain(g, q) && 0 < k <= |q|
    ensures Chain(g, q[..k])
  {
  }

  /** No requirement is its own ancestor on a chain, ... */
  lemma {:induction false} ChainDistinct(g: Forest, q: seq<nat>, i: nat, j: nat)
    requires Chain(g, q) && i < j < |q|
    ensures q[i] != q[j]
    decreases i
  {
    assert Parent(g, q[j]) == Some(q[j - 1]);
    if i > 0 {
      assert Parent(g, q[i]) == Some(q[i - 1]);
      ChainDistinct(g, q, i - 1, j - 1);
    }
  }

  /** ... so a chain is no longer than the forest is large. */
  lemma {:induction false} ChainBounded(g: Forest, q: seq<nat>, s: set<nat>)
    requires Chain(g, q) && (forall i :: 0 <= i < |q| ==> q[i] in s)
    ensures |q| <= |s|
    decreases |q|
  {
    var n := |q| - 1;
    if n > 0 {
      forall i | 0 <= i < n ensures q[..n][i] in s - {q[n]} { ChainDistinct(g, q, i, n); }
      ChainPrefix(g, q, n);
      ChainBounded(g, q[..n], s - {q[n]});
    } else {
      assert q[0] in s;
      assert |s| == |s - {q[0]}| + 1;
    }
  }

  /** A requirement has at most one chain. */
  lemma {:induction false} ChainUnique(g: Forest, p: seq<nat>, q: seq<nat>)
    requires Chain(g, p) && Chain(g, q) && End(p) == End(q)
    ensures p == q
    decreases |p|
  {
    var m, n := |p| - 1, |q| - 1;
    assert m > 0 ==> Parent(g, p[m]) == Some(p[m - 1]);
    assert n > 0 ==> Parent(g, q[n]) == Some(q[n - 1]);
    if m > 0 && n > 0 {
      ChainPrefix(g, p, m);
      ChainPrefix(g, q, n);
      ChainUnique(g, p[..m], q[..n]);
      assert p == p[..m] + [p[m]] && q == q[..n] + [q[n]];
    }
  }

  // ---------------------------------------------------------------- the order of chains

  /** A chain comes before its extensions, and otherwise as its first differing sibling does. */
  predicate Before(g: Forest, p: seq<nat>, q: seq<nat>)
    decreases |p|
  {
    if q == [] then false
    else if p == [] then true
    else if p[0] == q[0] then Before(g, p[1..], q[1..])
    else p[0] in g && q[0] in g && Less(g, p[0], q[0])
  }

  lemma {:induction false} PrefixIsBefore(g: Forest, p: seq<nat>, q: seq<nat>)
    requires p < q
    ensures Before(g, p, q)
    decreases |p|
  {
    if p != [] {
      assert p[0] == q[0];
      PrefixIsBefore(g, p[1..], q[1..]);
    }
  }

  lemma {:induction false} SiblingsDecide(g: Forest, common: seq<nat>, a: nat, b: nat, p: seq<nat>, q: seq<nat>)
    requires common + [a] <= p && common + [b] <= q && a in g && b in g && Less(g, a, b)
    ensures Before(g, p, q)
    decreases |common|
  {
    if common == [] {
      assert p[0] == a && q[0] == b;
    } else {
      assert p[0] == common[0] == q[0];
      assert common[1..] + [a] == (common + [a])[1..] <= p[1..];
      assert common[1..] + [b] == (common + [b])[1..] <= q[1..];
      SiblingsDecide(g, common[1..], a, b, p[1..], q[1..]);
    }
  }

  lemma {:induction false} BeforeIsStrict(g: Forest, p: seq<nat>, q: seq<nat>)
    requires Before(g, p, q)
    ensures !Before(g, q, p) && p != q
    decreases |p|
  {
    if p != [] && p[0] == q[0] { BeforeIsStrict(g, p[1..], q[1..]); }
  }

  /** Whatever lies between two extensions of a chain is an extension of it. */
  lemma {:induction false} ExtensionsAreContiguous(g: Forest, c: seq<nat>, p: seq<nat>, m: seq<nat>, q: seq<nat>)
    requires c <= p && c <= q && (p == m || Before(g, p, m)) && (m == q || Before(g, m, q))
    ensures c <= m
    decreases |c|
  {
    if c != [] && m != p && m != q {
      assert p[0] == c[0] == q[0];
      assert c[1..] <= p[1..] && c[1..] <= q[1..];
      if m != [] && m[0] == c[0] {
        ExtensionsAreContiguous(g, c[1..], p[1..], m[1..], q[1..]);
        assert c == [c[0]] + c[1..] && m == [m[0]] + m[1..];
      }
    }
  }

  // ---------------------------------------------------------------- listings

  /** `out` is the chains that extend `at`, in order. */
  ghost predicate Lists(g: Forest, out: seq<seq<nat>>, at: seq<nat>) {
    && (forall i :: 0 <= i < |out| ==> Chain(g, out[i]) && at <= out[i])
    && (forall q :: Chain(g, q) && at <= q ==> q in out)
    && Increasing(g, out)
  }

  ghost predicate Increasing(g: Forest, out: seq<seq<nat>>) {
    forall i, j :: 0 <= i < j < |out| ==> Before(g, out[i], out[j])
  }

  predicate NonEmpty(out: seq<seq<nat>>) { forall i :: 0 <= i < |out| ==> out[i] != [] }

  function Ends(out: seq<seq<nat>>): seq<nat>
    requires NonEmpty(out)
  {
    seq(|out|, i requires 0 <= i < |out| => End(out[i]))
  }

  lemma EndsJoin(before: seq<nat>, a: seq<seq<nat>>, b: seq<seq<nat>>)
    requires NonEmpty(a) && NonEmpty(b)
    ensures NonEmpty(a + b)
    ensures (before + Ends(a)) + Ends(b) == before + Ends(a + b)
  {
    assert Ends(a + b) == Ends(a) + Ends(b);
  }

  /** The ids of one list of siblings, sorted as `children.sort` leaves them. */
  ghost predicate Siblings(g: Forest, cs: seq<nat>, parent: Option<nat>) {
    && (forall i :: 0 <= i < |cs| ==> cs[i] in g && Parent(g, cs[i]) == parent)
    && (forall c :: c in g && Parent(g, c) == parent ==> c in cs)
    && (forall i, j :: 0 <= i < j < |cs| ==> Less(g, cs[i], cs[j]))
  }

  /** The children of `at` up to the k-th have been listed after `at` itself. */
  ghost predicate ListsUpTo(g: Forest, out: seq<seq<nat>>, at: seq<nat>, cs: seq<nat>, k: nat)
    requires k <= |cs|
  {
    && Increasing(g, out)
    && (forall i :: 0 <= i < |out| ==> Chain(g, out[i]) && (out[i] == at || Under(out[i], at, cs, k)))
    && (forall q :: Chain(g, q) && (q == at || Under(q, at, cs, k)) ==> q in out)
  }

  /** `q` goes through one of the first k children of `at`. */
  predicate Under(q: seq<nat>, at: seq<nat>, cs: seq<nat>, k: nat)
    requires k <= |cs|
  {
    |q| > |at| && at <= q && q[|at|] in cs[..k]
  }

  lemma ListingGoesOn(
      g: Forest, out: seq<seq<nat>>, sub: seq<seq<nat>>, at: seq<nat>, cs: seq<nat>, k: nat, parent: Option<nat>)
    requires Siblings(g, cs, parent) && k < |cs|
    requires ListsUpTo(g, out, at, cs, k) && Lists(g, sub, at + [cs[k]])
    ensures ListsUpTo(g, out + sub, at, cs, k + 1)
  {
    var c := cs[k];
    forall i, j | 0 <= i < j < |out + sub| ensures Before(g, (out + sub)[i], (out + sub)[j]) {
      if i < |out| <= j {
        var p, q := out[i], sub[j - |out|];
        assert at + [c] <= q;
        if p == at {
          PrefixIsBefore(g, p, q);
        } else {
          assert at + [p[|at|]] <= p;
          SiblingsDecide(g, at, p[|at|], c, p, q);
        }
      }
    }
    forall i | 0 <= i < |out + sub|
      ensures Chain(g, (out + sub)[i]) && ((out + sub)[i] == at || Under((out + sub)[i], at, cs, k + 1))
    {
      if i < |out| {
        assert out[i] == at || Under(out[i], at, cs, k);
      } else {
        assert at + [c] <= sub[i - |out|];
        assert sub[i - |out|][|at|] == c == cs[..k + 1][k];
      }
    }
    forall q | Chain(g, q) && (q == at || Under(q, at, cs, k + 1)) ensures q in out + sub {
      if q != at && !Under(q, at, cs, k) {
        assert cs[..k + 1] == cs[..k] + [c];
        assert at + [c] <= q;
      }
    }
  }

  lemma ListingIsDone(g: Forest, out: seq<seq<nat>>, at: seq<nat>, cs: seq<nat>)
    requires at == [] || Chain(g, at)
    requires Siblings(g, cs, if at == [] then None else Some(End(at)))
    requires ListsUpTo(g, out, at, cs, |cs|)
    ensures Lists(g, out, at)
  {
    forall q | Chain(g, q) && at <= q ensures q in out {
      if q != at {
        assert |q| > |at| && (|at| > 0 ==> q[|at| - 1] == End(at));
        assert cs[..|cs|] == cs && q[|at|] in cs;
      }
    }
  }

  // ---------------------------------------------------------------- the script

  ghost predicate Sorted(g: Forest, s: seq<nat>) {
    && (forall i :: 0 <= i < |s| ==> s[i] in g)
    && (forall i, j :: 0 <= i < j < |s| ==> Less(g, s[i], s[j]))
  }

  /** What `children.sort` does to one more element. */
  function Insert(g: Forest, s: seq<nat>, x: nat): (r: seq<nat>)
    requires Sorted(g, s) && x in g && x !in s
    ensures Sorted(g, r) && forall y :: y in r <==> y == x || y in s
  {
    if s == [] || Less(g, x, s[0]) then [x] + s
    else
      var rest := Insert(g, s[1..], x);
      assert forall j :: 0 <= j < |rest| ==> rest[j] == x || rest[j] in s[1..];
      [s[0]] + rest
  }

  ghost predicate Sortable(g: Forest, s: seq<nat>) {
    (forall i :: 0 <= i < |s| ==> s[i] in g) && (forall i, j :: 0 <= i < j < |s| ==> s[i] != s[j])
  }

  function Sort(g: Forest, s: seq<nat>): (r: seq<nat>)
    requires Sortable(g, s)
    ensures Sorted(g, r) && forall y :: y in r <==> y in s
  {
    if s == [] then []
    else
      var n := |s| - 1;
      assert forall y :: y in s <==> y in s[..n] || y == s[n];
      Insert(g, Sort(g, s[..n]), s[n])
  }

  /** The rows with one parent, in the order they came. */
  function WithParent(g: Forest, rows: seq<nat>, p: Option<nat>): seq<nat>
    requires forall i :: 0 <= i < |rows| ==> rows[i] in g
  {
    if rows == [] then []
    else
      var n := |rows| - 1;
      WithParent(g, rows[..n], p) + if Parent(g, rows[n]) == p then [rows[n]] else []
  }

  /** The rows of the query: every id once. */
  ghost predicate AllRows(g: Forest, rows: seq<nat>) {
    && (forall i :: 0 <= i < |rows| ==> rows[i] in g)
    && (forall i, j :: 0 <= i < j < |rows| ==> rows[i] != rows[j])
    && (forall id :: id in g ==> id in rows)
  }

  lemma {:induction false} WithParentMeans(g: Forest, rows: seq<nat>, p: Option<nat>)
    requires (forall i :: 0 <= i < |rows| ==> rows[i] in g) &&
             (forall i, j :: 0 <= i < j < |rows| ==> rows[i] != rows[j])
    ensures forall c :: c in WithParent(g, rows, p) <==> c in rows && Parent(g, c) == p
    ensures Sortable(g, WithParent(g, rows, p))
  {
    if rows != [] {
      var n := |rows| - 1;
      WithParentMeans(g, rows[..n], p);
      assert forall c :: c in rows <==> c in rows[..n] || c == rows[n];
      var before := WithParent(g, rows[..n], p);
      assert forall i :: 0 <= i < |before| ==> before[i] in before;
      assert rows[n] !in before;
      assert forall i, j :: 0 <= i < j < |before| ==> before[i] != before[j];
      assert WithParent(g, rows, p) == before + if Parent(g, rows[n]) == p then [rows[n]] else [];
    }
  }

  lemma SortedSiblings(g: Forest, rows: seq<nat>, p: Option<nat>)
    requires AllRows(g, rows)
    ensures var cs := WithParent(g, rows, p);
            Sortable(g, cs) && Siblings(g, Sort(g, cs), p)
  {
    WithParentMeans(g, rows, p);
    var cs := WithParent(g, rows, p);
    assert forall i :: 0 <= i < |cs| ==> cs[i] in cs;
    var sorted := Sort(g, cs);
    assert forall i :: 0 <= i < |sorted| ==> sorted[i] in sorted;
  }

  class Listing {
    const g: Forest
    var byParent: map<Option<nat>, seq<nat>>
    var ordered: seq<nat>

    constructor (g: Forest)
      ensures this.g == g && byParent == map[] && ordered == []
    {
      this.g, byParent, ordered := g, map[], [];
    }

    function Children(p: Option<nat>): seq<nat> reads `byParent { if p in byParent then byParent[p] else [] }

    ghost predicate Grouped() reads `byParent { forall p :: Siblings(g, Children(p), p) }

    /** The loop that fills `by_parent`. */
    method Fill(rows: seq<nat>)
      requires AllRows(g, rows) && byParent == map[]
      modifies `byParent
      ensures forall p :: Children(p) == WithParent(g, rows, p)
    {
      for i := 0 to |rows|
        invariant forall p :: Children(p) == WithParent(g, rows[..i], p)
      {
        assert rows[..i + 1][..i] == rows[..i];
        var p := Parent(g, rows[i]);
        byParent := byParent[p := Children(p) + [rows[i]]];
      }
      assert rows[..|rows|] == rows;
    }

    /** The loop that sorts each list in it. */
    method SortEach(ghost rows: seq<nat>)
      requires AllRows(g, rows) && forall p :: Children(p) == WithParent(g, rows, p)
      modifies `byParent
      ensures Grouped()
    {
      ghost var before := byParent;
      assert forall p :: (if p in before then before[p] else []) == Children(p);
      forall p | p in byParent ensures Sortable(g, byParent[p]) {
        assert byParent[p] == Children(p);
        SortedSiblings(g, rows, p);
      }
      byParent := map p | p in byParent :: Sort(g, byParent[p]);
      forall p ensures Siblings(g, Children(p), p) {
        SortedSiblings(g, rows, p);
        assert (if p in before then before[p] else []) == WithParent(g, rows, p);
        assert Children(p) == Sort(g, WithParent(g, rows, p));
      }
    }

    /** `visit`: appends the requirement and, child by child, everything under it. */
    method Visit(item: nat, ghost at: seq<nat>) returns (ghost out: seq<seq<nat>>)
      requires Grouped() && Chain(g, at) && item == End(at)
      modifies `ordered
      ensures Lists(g, out, at) && ordered == old(ordered) + Ends(out)
      decreases |g.Keys| - |at|, 1
    {
      ordered := ordered + [item];
      out := VisitAll(Children(Some(item)), at);
      assert Ends([at]) == [item];
      EndsJoin(old(ordered), [at], out);
      out := [at] + out;
      ListingIsDone(g, out, at, Children(Some(item)));
    }

    /** The loop over siblings: the children of the end of `at`, or the roots. */
    method VisitAll(cs: seq<nat>, ghost at: seq<nat>) returns (ghost out: seq<seq<nat>>)
      requires Grouped() && (at == [] || Chain(g, at)) && Siblings(g, cs, if at == [] then None else Some(End(at)))
      modifies `ordered
      ensures ListsUpTo(g, if at == [] then out else [at] + out, at, cs, |cs|)
      ensures NonEmpty(out)
      ensures ordered == old(ordered) + Ends(out)
      decreases |g.Keys| - |at|, 0
    {
      out := [];
      ghost var first := if at == [] then [] else [at];
      for k := 0 to |cs|
        invariant ListsUpTo(g, first + out, at, cs, k)
        invariant NonEmpty(out) && ordered == old(ordered) + Ends(out)
      {
        NextChain(at, cs, k);
        ghost var sub := Visit(cs[k], at + [cs[k]]);
        SiblingListed(old(ordered), first, out, sub, at, cs, k);
        out := out + sub;
      }
      assert [] + out == out;
    }

    lemma SiblingListed(
        before: seq<nat>, first: seq<seq<nat>>, out: seq<seq<nat>>, sub: seq<seq<nat>>,
        at: seq<nat>, cs: seq<nat>, k: nat)
      requires (at == [] || Chain(g, at)) && Siblings(g, cs, if at == [] then None else Some(End(at))) && k < |cs|
      requires NonEmpty(out) && ListsUpTo(g, first + out, at, cs, k) && Lists(g, sub, at + [cs[k]])
      ensures NonEmpty(sub) && NonEmpty(out + sub) && (before + Ends(out)) + Ends(sub) == before + Ends(out + sub)
      ensures ListsUpTo(g, first + (out + sub), at, cs, k + 1)
    {
      ListingGoesOn(g, first + out, sub, at, cs, k, if at == [] then None else Some(End(at)));
      assert first + out + sub == first + (out + sub);
      EndsJoin(before, out, sub);
    }

    lemma NextChain(at: seq<nat>, cs: seq<nat>, k: nat)
      requires (at == [] || Chain(g, at)) && Siblings(g, cs, if at == [] then None else Some(End(at))) && k < |cs|
      ensures Chain(g, at + [cs[k]]) && End(at + [cs[k]]) == cs[k] && |at| + 1 <= |g.Keys|
    {
      if at != [] {
        ChainExtends(g, at, cs[k]);
      } else {
        assert Chain(g, [cs[k]]) && at + [cs[k]] == [cs[k]];
      }
      ChainBounded(g, at + [cs[k]], g.Keys);
    }

    /** `_preorder`: it always ends, on any parent ids, and lists all chains in order. */
    method Run(rows: seq<nat>) returns (ghost out: seq<seq<nat>>)
      requires AllRows(g, rows) && byParent == map[] && ordered == []
      modifies this
      ensures Lists(g, out, []) && ordered == Ends(out)
    {
      Fill(rows);
      SortEach(rows);
      out := VisitAll(Children(None), []);
      ListingIsDone(g, out, [], Children(None));
    }
  }

  // ---------------------------------------------------------------- what the listing means

  /** It holds exactly the requirements whose parent ids lead to a root ... */
  lemma ListedIffRooted(g: Forest, out: seq<seq<nat>>, id: nat)
    requires Lists(g, out, [])
    ensures id in Ends(out) <==> exists q :: Chain(g, q) && End(q) == id
  {
    if id in Ends(out) {
      var i :| 0 <= i < |out| && Ends(out)[i] == id;
      assert Chain(g, out[i]) && End(out[i]) == id;
    }
    if q :| Chain(g, q) && End(q) == id {
      assert [] <= q && q in out;
      var i :| 0 <= i < |out| && out[i] == q;
      assert Ends(out)[i] == id;
    }
  }

  /** Following parent ids from one of these requirements leads back to it. */
  ghost predicate Cycle(g: Forest, c: seq<nat>) { Ascends(g, c) && Parent(g, c[0]) == Some(End(c)) }

  /** Each requirement of `p` is the parent of the next. */
  ghost predicate Ascends(g: Forest, p: seq<nat>) {
    && p != []
    && (forall i :: 0 <= i < |p| ==> p[i] in g)
    && (forall i :: 0 < i < |p| ==> Parent(g, p[i]) == Some(p[i - 1]))
  }

  function Members(p: seq<nat>): set<nat> { set i | 0 <= i < |p| :: p[i] }

  lemma AscendsOneMore(g: Forest, p: seq<nat>, above: nat)
    requires Ascends(g, p) && Parent(g, p[0]) == Some(above)
    ensures Ascends(g, [above] + p) && End([above] + p) == End(p)
  {
    var q := [above] + p;
    forall i | 0 < i < |q| ensures Parent(g, q[i]) == Some(q[i - 1]) {
      if i > 1 { assert Parent(g, p[i - 1]) == Some(p[i - 2]); }
    }
  }

  /** A path to a new requirement leaves fewer requirements outside. */
  lemma FewerOutside(all: set<nat>, p: seq<nat>, above: nat)
    requires above in all && above !in Members(p)
    ensures |all - Members([above] + p)| < |all - Members(p)|
  {
    MembersOneMore(p, above);
    var rest := all - Members(p);
    assert all - Members([above] + p) == rest - {above};
  }

  lemma MembersOneMore(p: seq<nat>, above: nat)
    ensures Members([above] + p) == Members(p) + {above}
  {
    var q := [above] + p;
    forall x ensures x in Members(q) <==> x in Members(p) + {above} {
      if i :| 0 <= i < |p| && p[i] == x { assert q[i + 1] == x; }
      assert q[0] == above;
    }
  }

  /** The part of a path that a parent inside it closes to a cycle. */
  lemma CycleInside(g: Forest, p: seq<nat>, k: nat)
    requires Ascends(g, p) && k < |p| && Parent(g, p[0]) == Some(p[k])
    ensures Cycle(g, p[..k + 1])
  {
    var c := p[..k + 1];
    forall i | 0 < i < |c| ensures Parent(g, c[i]) == Some(c[i - 1]) { assert c[i] == p[i]; }
  }

  /** Going up from the start of `p` ends at a root or in a cycle. */
  lemma {:induction false} RootOrCycle(g: Forest, p: seq<nat>) returns (found: seq<nat>)
    requires Ascends(g, p)
    ensures (Chain(g, found) && End(found) == End(p)) || Cycle(g, found)
    decreases |g.Keys - Members(p)|
  {
    var above := Parent(g, p[0]);
    if above.None? {
      found := p;
    } else if above.value in Members(p) {
      var k :| 0 <= k < |p| && p[k] == above.value;
      CycleInside(g, p, k);
      found := p[..k + 1];
    } else {
      AscendsOneMore(g, p, above.value);
      FewerOutside(g.Keys, p, above.value);
      found := RootOrCycle(g, [above.value] + p);
    }
  }

  /** A requirement on a cycle has no chain. */
  lemma {:induction false} CycleHasNoChain(g: Forest, c: seq<nat>, i: nat, q: seq<nat>)
    requires Cycle(g, c) && i < |c| && Chain(g, q)
    ensures End(q) != c[i]
    decreases |q|
  {
    assert i > 0 ==> Parent(g, c[i]) == Some(c[i - 1]);
    var n := |q| - 1;
    if End(q) == c[i] {
      assert Parent(g, q[n]) == Some(q[n - 1]);
      ChainPrefix(g, q, n);
      CycleHasNoChain(g, c, if i == 0 then |c| - 1 else i - 1, q[..n]);
    }
  }

  ghost predicate HasCycle(g: Forest) { exists c :: Cycle(g, c) }

  ghost predicate AllListed(g: Forest, out: seq<seq<nat>>)
    requires NonEmpty(out)
  {
    forall id :: id in g ==> id in Ends(out)
  }

  /** ... which is all of them exactly when the parent ids form no cycle. */
  lemma AllListedIffAcyclic(g: Forest, out: seq<seq<nat>>)
    requires Lists(g, out, [])
    ensures AllListed(g, out) <==> !HasCycle(g)
  {
    if HasCycle(g) {
      var c :| Cycle(g, c);
      if c[0] in Ends(out) {
        ListedIffRooted(g, out, c[0]);
        var q :| Chain(g, q) && End(q) == c[0];
        CycleHasNoChain(g, c, 0, q);
      }
    } else {
      forall id | id in g ensures id in Ends(out) {
        var q := RootOrCycle(g, [id]);
        ListedIffRooted(g, out, id);
      }
    }
  }

  lemma NoneTwice(g: Forest, out: seq<seq<nat>>, i: nat, j: nat)
    requires Lists(g, out, []) && i < j < |out|
    ensures Ends(out)[i] != Ends(out)[j]
  {
    assert Before(g, out[i], out[j]);
    BeforeIsStrict(g, out[i], out[j]);
    if Ends(out)[i] == Ends(out)[j] { ChainUnique(g, out[i], out[j]); }
  }

  /** The parent of a listed requirement is listed before it. */
  lemma ParentsComeFirst(g: Forest, out: seq<seq<nat>>, j: nat) returns (i: nat)
    requires Lists(g, out, []) && j < |out| && Parent(g, Ends(out)[j]).Some?
    ensures i < j && Some(Ends(out)[i]) == Parent(g, Ends(out)[j])
  {
    var q := out[j];
    var n := |q| - 1;
    assert Parent(g, q[n]) == Some(q[n - 1]);
    ChainPrefix(g, q, n);
    assert [] <= q[..n] && q[..n] in out;
    i :| 0 <= i < |out| && out[i] == q[..n];
    PrefixIsBefore(g, out[i], q);
    if j < i { BeforeIsStrict(g, out[i], out[j]); }
  }

  /** What is listed between two requirements under `c` is under `c` too. */
  lemma SubtreesAreContiguous(g: Forest, out: seq<seq<nat>>, c: seq<nat>, i: nat, j: nat, k: nat)
    requires Lists(g, out, []) && i <= j <= k < |out| && c <= out[i] && c <= out[k]
    ensures c <= out[j]
  {
    ExtensionsAreContiguous(g, c, out[i], out[j], out[k]);
  }

  /** Siblings are listed by (order index, id). */
  lemma SiblingsInOrder(g: Forest, out: seq<seq<nat>>, i: nat, j: nat)
    requires Lists(g, out, []) && i < j < |out| && Parent(g, Ends(out)[i]) == Parent(g, Ends(out)[j])
    ensures Less(g, Ends(out)[i], Ends(out)[j])
  {
    var p, q := out[i], out[j];
    var a, b := End(p), End(q);
    NoneTwice(g, out, i, j);
    if Less(g, b, a) {
      var common := p[..|p| - 1];
      assert |p| > 1 ==> Parent(g, a) == Some(p[|p| - 2]);
      assert |q| > 1 ==> Parent(g, b) == Some(q[|q| - 2]);
      if |p| > 1 {
        ChainPrefix(g, p, |p| - 1);
        ChainPrefix(g, q, |q| - 1);
        ChainUnique(g, common, q[..|q| - 1]);
      }
      assert common + [a] == p && common + [b] == q;
      SiblingsDecide(g, common, b, a, q, p);
      BeforeIsStrict(g, p, q);
    }
  }
}
