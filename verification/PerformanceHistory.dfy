/** Performance load is not repeated: over any history of deliveries and Runner restarts that
    share a spool, a load whose samples were kept is not applied again until they were
    forgotten. */
module PerformanceHistory {
  import opened Wire
  import opened PerformanceStore
  import opened Observations
  import opened Consumer

  /** What happened to the samples of a key, over the life of all consumers of a spool. */
  datatype Mark = Loaded(key: Key) | Kept(key: Key, doc: Doc) | Forgot(key: Key)

  function Noted(marks: seq<Mark>, mark: Mark, when: bool): seq<Mark> { if when then marks + [mark] else marks }

  function Stored(marks: seq<Mark>, key: Key, doc: Option<Doc>): seq<Mark> {
    if doc.Some? then marks + [Kept(key, doc.value)] else marks
  }

  /** A history with what one delivery did: load, keep, forget. */
  function Recorded(marks: seq<Mark>, key: Key, did: Did): seq<Mark> {
    Noted(Stored(Noted(marks, Loaded(key), did.loaded), key, did.kept), Forgot(key), did.forgot)
  }

  /** The kept samples after one more mark. */
  function Marked(before: map<Key, Doc>, mark: Mark): map<Key, Doc> {
    match mark
    case Kept(k, doc) => before[k := doc]
    case Forgot(k) => before - {k}
    case Loaded(_) => before
  }

  /** The samples kept after a history of marks. */
  ghost function KeptAfter(marks: seq<Mark>): map<Key, Doc> {
    if marks == [] then map[] else
    Marked(KeptAfter(marks[..|marks| - 1]), marks[|marks| - 1])
  }

  /** No load of a key after its samples were kept, unless they were forgotten in between. */
  ghost predicate NeverReloads(marks: seq<Mark>) {
    forall i, j :: 0 <= i < j < |marks| && marks[i].Kept? && marks[j] == Loaded(marks[i].key) ==>
      exists m :: i < m < j && marks[m] == Forgot(marks[i].key)
  }

  /** A key that was kept and is no longer kept has been forgotten since. */
  lemma {:induction false} UnkeptWasForgotten(marks: seq<Mark>, i: nat)
    requires i < |marks| && marks[i].Kept? && marks[i].key !in KeptAfter(marks)
    ensures exists m :: i < m < |marks| && marks[m] == Forgot(marks[i].key)
  {
    var last := |marks| - 1;
    if i < last && marks[last] != Forgot(marks[i].key) {
      UnkeptWasForgotten(marks[..last], i);
      var m :| i < m < last && marks[..last][m] == Forgot(marks[i].key);
      assert marks[m] == Forgot(marks[i].key);
    }
  }

  /** Every load found its key not kept. */
  ghost predicate LoadsUnkept(marks: seq<Mark>) {
    marks == [] ||
    (LoadsUnkept(marks[..|marks| - 1]) &&
     (marks[|marks| - 1].Loaded? ==> marks[|marks| - 1].key !in KeptAfter(marks[..|marks| - 1])))
  }

  lemma {:induction false} ReloadWasForgotten(marks: seq<Mark>, i: nat, j: nat)
    requires LoadsUnkept(marks) && i < j < |marks| && marks[i].Kept? && marks[j] == Loaded(marks[i].key)
    ensures exists m :: i < m < j && marks[m] == Forgot(marks[i].key)
  {
    var last := |marks| - 1;
    var m: nat;
    if j < last {
      ReloadWasForgotten(marks[..last], i, j);
      m :| i < m < j && marks[..last][m] == Forgot(marks[i].key);
    } else {
      UnkeptWasForgotten(marks[..last], i);
      m :| i < m < last && marks[..last][m] == Forgot(marks[i].key);
    }
    assert marks[m] == Forgot(marks[i].key);
  }

  /** So none was repeated. */
  lemma LoadsAreNotRepeated(marks: seq<Mark>)
    requires LoadsUnkept(marks)
    ensures NeverReloads(marks)
  {
    forall i, j | 0 <= i < j < |marks| && marks[i].Kept? && marks[j] == Loaded(marks[i].key)
      ensures exists m :: i < m < j && marks[m] == Forgot(marks[i].key)
    {
      ReloadWasForgotten(marks, i, j);
    }
  }

  lemma ExtendHistory(marks: seq<Mark>, mark: Mark)
    requires LoadsUnkept(marks) && (mark.Loaded? ==> mark.key !in KeptAfter(marks))
    ensures LoadsUnkept(marks + [mark]) && KeptAfter(marks + [mark]) == Marked(KeptAfter(marks), mark)
  {
    assert (marks + [mark])[..|marks|] == marks;
  }

  lemma AddMark(marks: seq<Mark>, mark: Mark, when: bool)
    requires LoadsUnkept(marks) && (when && mark.Loaded? ==> mark.key !in KeptAfter(marks))
    ensures LoadsUnkept(Noted(marks, mark, when))
    ensures KeptAfter(Noted(marks, mark, when)) == if when then Marked(KeptAfter(marks), mark) else KeptAfter(marks)
  {
    if when { ExtendHistory(marks, mark); }
  }

  lemma StoreMark(marks: seq<Mark>, key: Key, doc: Option<Doc>)
    requires LoadsUnkept(marks)
    ensures LoadsUnkept(Stored(marks, key, doc))
    ensures KeptAfter(Stored(marks, key, doc)) ==
              if doc.Some? then KeptAfter(marks)[key := doc.value] else KeptAfter(marks)
  {
    if doc.Some? { ExtendHistory(marks, Kept(key, doc.value)); }
  }

  /** What a delivery leaves of the kept samples. */
  function Left(before: map<Key, Doc>, key: Key, did: Did): map<Key, Doc> {
    var kept := if did.kept.Some? then before[key := did.kept.value] else before;
    if did.forgot then kept - {key} else kept
  }

  lemma LeftMeans(before: map<Key, Doc>, key: Key, did: Did, after: map<Key, Doc>)
    requires forall k :: k != key ==> (k in after <==> k in before) && (k in after ==> after[k] == before[k])
    requires HeldIn(after, key) ==
               if did.forgot then None else if did.kept.Some? then did.kept else HeldIn(before, key)
    ensures Left(before, key, did) == after
  {
    forall k ensures HeldIn(Left(before, key, did), k) == HeldIn(after, k) {
      if k != key {}
    }
    SameHoldings(Left(before, key, did), after);
  }

  lemma SameHoldings(a: map<Key, Doc>, b: map<Key, Doc>)
    requires forall k :: HeldIn(a, k) == HeldIn(b, k)
    ensures a == b
  {
    forall k ensures (k in a <==> k in b) && (k in a ==> a[k] == b[k]) {
      assert HeldIn(a, k) == HeldIn(b, k);
    }
  }

  /** One more delivery keeps the history free of repeated loads. */
  lemma RecordDelivery(marks: seq<Mark>, key: Key, did: Did)
    requires LoadsUnkept(marks) && (did.loaded ==> key !in KeptAfter(marks))
    ensures LoadsUnkept(Recorded(marks, key, did))
    ensures KeptAfter(Recorded(marks, key, did)) == Left(KeptAfter(marks), key, did)
  {
    var a := Noted(marks, Loaded(key), did.loaded);
    AddMark(marks, Loaded(key), did.loaded);
    StoreMark(a, key, did.kept);
    AddMark(Stored(a, key, did.kept), Forgot(key), did.forgot);
  }

  /** What a delivery left of the kept samples is what the history says. */
  lemma ExtendByDelivery(marks: seq<Mark>, key: Key, did: Did, after: map<Key, Doc>)
    requires LoadsUnkept(marks) && (did.loaded ==> key !in KeptAfter(marks))
    requires forall k :: k != key ==>
               (k in after <==> k in KeptAfter(marks)) && (k in after ==> after[k] == KeptAfter(marks)[k])
    requires HeldIn(after, key) ==
               if did.forgot then None else if did.kept.Some? then did.kept else HeldIn(KeptAfter(marks), key)
    ensures LoadsUnkept(Recorded(marks, key, did)) && KeptAfter(Recorded(marks, key, did)) == after
  {
    RecordDelivery(marks, key, did);
    LeftMeans(KeptAfter(marks), key, did, after);
  }

  /** The samples held for a key are those of its last keeping, and nothing happened to them since. */
  lemma {:induction false} HeldWasKept(marks: seq<Mark>, key: Key) returns (i: nat)
    requires key in KeptAfter(marks)
    ensures i < |marks| && marks[i] == Kept(key, KeptAfter(marks)[key])
    ensures forall j :: i < j < |marks| ==> marks[j] != Forgot(key) && !(marks[j].Kept? && marks[j].key == key)
  {
    var last := |marks| - 1;
    if marks[last].Kept? && marks[last].key == key {
      i := last;
    } else {
      i := HeldWasKept(marks[..last], key);
      assert marks[i] == marks[..last][i];
      forall j | i < j < |marks| ensures marks[j] != Forgot(key) && !(marks[j].Kept? && marks[j].key == key) {
        if j < last { assert marks[j] == marks[..last][j]; }
      }
    }
  }

  datatype Op = Restart | Deliver(envelope: Envelope, observed: Observed)

  /** One delivery, and what it adds to the history.  Samples it reports again are those the
      history holds for its key. */
  method ServeOne(c: RunnerTaskConsumer, op: Op, ghost marks: seq<Mark>) returns (r: Call, ghost longer: seq<Mark>)
    requires op.Deliver? && op.envelope.key in c.keys && !c.limited && c.Spool() && c.Separated()
    requires LoadsUnkept(marks) && KeptAfter(marks) == c.kept
    modifies c, c.store
    ensures c.Spool()
    ensures marks <= longer && LoadsUnkept(longer) && KeptAfter(longer) == c.kept
    ensures c.Ruled(op.envelope.kind, op.observed, HeldIn(KeptAfter(marks), op.envelope.key))
  {
    ghost var before := c.kept;
    r := c.ProcessExecutionDelivery(op.envelope, op.observed);
    ExtendByDelivery(marks, op.envelope.key, c.did, c.kept);
    longer := Recorded(marks, op.envelope.key, c.did);
  }

  /** The spool tells envelopes apart by the hash of their identifiers. */
  lemma KeysSeparate(store: PerformanceResultStore, keys: set<Key>)
    requires CollisionFree(store.digest, set k | k in keys :: KeyText(k)) && forall k <- keys :: Identifier(k.run)
    ensures forall a, b :: a in keys && b in keys && store.Path(a) == store.Path(b) ==> a == b
  {
    forall a, b | a in keys && b in keys && store.Path(a) == store.Path(b) ensures a == b {
      assert KeyText(a) in (set k | k in keys :: KeyText(k)) && KeyText(b) in (set k | k in keys :: KeyText(k));
      PathsSeparate(store.digest, a, b);
    }
  }

  /** Any sequence of deliveries and restarts.  A call that never returns ends with a restart,
      wherever its process died: while loading, between saving and reporting, or between
      forgetting and settling.  Memory is lost then, the spool is not.  `marks` is the history of all samples. */
  method Serve(ops: seq<Op>, hasExecutor: bool, store: PerformanceResultStore, ghost keys: set<Key>)
    returns (ghost marks: seq<Mark>)
    requires CollisionFree(store.digest, set k | k in keys :: KeyText(k)) && forall k <- keys :: Identifier(k.run)
    requires forall op <- ops :: op.Deliver? ==> op.envelope.key in keys
    modifies store
    ensures NeverReloads(marks)
  {
    marks := [];
    KeysSeparate(store, keys);
    var c := new RunnerTaskConsumer(hasExecutor, false, map[], store, keys, map[]);
    for i := 0 to |ops|
      invariant c.store == store && c.keys == keys && !c.limited && fresh(c)
      invariant c.Spool()
      invariant LoadsUnkept(marks) && KeptAfter(marks) == c.kept
    {
      var restart := ops[i].Restart?;
      if ops[i].Deliver? {
        var r: Call;
        r, marks := ServeOne(c, ops[i], marks);
        restart := r.Unfinished?;
      }
      if restart {
        c := new RunnerTaskConsumer(hasExecutor, false, map[], store, keys, c.kept);
      }
    }
    LoadsAreNotRepeated(marks);
  }
}
