/** The process descendants of a pid (`descendants` of deploy/p5f_web_broker_acceptance.py). */
module Descendants {

  /** The parent of every process in the inventory; pids can be reused, so there may be cycles. */
  type Inventory = map<int, int>

  /** A walk along one or more child edges. */
  predicate Walk(parents: Inventory, path: seq<int>) {
    |path| >= 2 && forall i :: 0 < i < |path| ==> path[i] in parents && parents[path[i]] == path[i - 1]
  }

  ghost predicate Reachable(parents: Inventory, root: int, pid: int) {
    exists path :: Walk(parents, path) && path[0] == root && path[|path| - 1] == pid
  }

  function Children(parents: Inventory, parent: int): set<int> { set pid | pid in parents && parents[pid] == parent }

  lemma ChildIsReachable(parents: Inventory, root: int, parent: int, child: int)
    requires child in Children(parents, parent) && (parent == root || Reachable(parents, root, parent))
    ensures Reachable(parents, root, child)
  {
    if parent == root {
      assert Walk(parents, [root, child]);
    } else {
      var path :| Walk(parents, path) && path[0] == root && path[|path| - 1] == parent;
      var longer := path + [child];
      assert Walk(parents, longer) && longer[0] == root && longer[|longer| - 1] == child;
    }
  }

  /** Every child of the root and of the pids found is found. */
  ghost predicate Closed(parents: Inventory, root: int, found: set<int>) {
    forall pid :: pid in parents && (parents[pid] == root || parents[pid] in found) ==> pid in found
  }

  lemma {:induction false} WalksStayInside(parents: Inventory, root: int, found: set<int>, path: seq<int>)
    requires Closed(parents, root, found) && Walk(parents, path) && path[0] == root
    ensures path[|path| - 1] in found
    decreases |path|
  {
    var n := |path| - 1;
    var last := path[n];
    assert last in parents && parents[last] == path[n - 1];
    if n == 1 {
      assert parents[last] == root;
    } else {
      var shorter := path[..n];
      assert Walk(parents, shorter);
      WalksStayInside(parents, root, found, shorter);
      assert shorter[|shorter| - 1] == parents[last];
    }
  }

  lemma HasMember(s: set<int>)
    ensures s == {} || exists x :: x in s
  {
    if !exists x :: x in s { assert s == {}; }
  }

  /** `pending.extend(…)`, in some order. */
  method Extend(pending: seq<int>, more: set<int>) returns (longer: seq<int>)
    ensures forall pid :: pid in longer <==> pid in pending || pid in more
    ensures |longer| == |pending| + |more|
  {
    longer := pending;
    var rest := more;
    while rest != {}
      invariant forall pid :: pid in longer || pid in rest <==> pid in pending || pid in more
      invariant |longer| + |rest| == |pending| + |more|
      decreases |rest|
    {
      HasMember(rest);
      var pid :| pid in rest;
      longer, rest := longer + [pid], rest - {pid};
    }
  }

  /** Every child of the root and of the pids found is found, or its parent is still pending. */
  ghost predicate Explored(parents: Inventory, root: int, found: set<int>, pending: seq<int>) {
    forall pid :: pid in parents && (parents[pid] == root || parents[pid] in found) ==>
        pid in found || parents[pid] in pending
  }

  /** Ends on every parent map, cyclic or not, with exactly the pids below the root. */
  method Find(root: int, parents: Inventory) returns (result: set<int>)
    ensures forall pid :: pid in result <==> Reachable(parents, root, pid)
  {
    result := {};
    var pending := [root];
    while pending != []
      invariant forall pid :: pid in result ==> pid in parents && Reachable(parents, root, pid)
      invariant forall pid :: pid in pending ==> pid == root || pid in result
      invariant Explored(parents, root, result, pending)
      decreases |parents.Keys - result|, |pending|
    {
      var parent := pending[|pending| - 1];
      pending := pending[..|pending| - 1];
      var children := Children(parents, parent);
      forall pid | pid in children ensures Reachable(parents, root, pid) {
        ChildIsReachable(parents, root, parent, pid);
      }
      var news := children - result;
      Shrinks(parents.Keys, result, news);
      result := result + news;
      pending := Extend(pending, news);
    }
    forall pid | Reachable(parents, root, pid) ensures pid in result {
      var path :| Walk(parents, path) && path[0] == root && path[|path| - 1] == pid;
      WalksStayInside(parents, root, result, path);
    }
  }

  /** Finding new pids leaves fewer to find. */
  lemma Shrinks(all: set<int>, found: set<int>, news: set<int>)
    requires news <= all && news !! found
    ensures if news == {} then all - (found + news) == all - found else |all - (found + news)| < |all - found|
  {
    HasMember(news);
    if news != {} {
      var x :| x in news;
      assert x in all - found && x !in all - (found + news);
      Smaller(all - (found + news), all - found);
    }
  }

  lemma {:induction false} Smaller(a: set<int>, b: set<int>)
    requires a < b
    ensures |a| < |b|
  {
    HasMember(b - a);
    var x :| x in b - a;
    assert a <= b - {x};
    NotLarger(a, b - {x});
  }

  lemma {:induction false} NotLarger(a: set<int>, b: set<int>)
    requires a <= b
    ensures |a| <= |b|
    decreases a
  {
    if a != {} {
      HasMember(a);
      var x :| x in a;
      NotLarger(a - {x}, b - {x});
    }
  }
}
