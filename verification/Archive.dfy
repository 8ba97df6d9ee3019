/** Archiving the acceptance assets (deploy/p5f_archive_acceptance_assets.py).

    The journal file outlives a process; the journal in memory does not.  A step can raise or
    be the last one before a crash, and the API may answer anything. */
module Archive {
  import opened Wire
  import opened Crashes

  datatype AssetType = CASE | ELEMENT | PAGE

  datatype Key = Key(assetType: AssetType, id: int)

  datatype Asset = Asset(caseId: int, elementId: int, pageId: int)

  datatype State =
    PlannedBeforePost | PostStarting | UnknownResult | ResponseReceived | ConfirmedArchived | SkippedAlreadyArchived

  /** One operation of the journal; `started` is the presence of `post_started_at_utc`. */
  datatype Entry = Entry(ordinal: nat, key: Key, state: State, started: bool)

  datatype Journal = Journal(operations: seq<Entry>, businessPosts: Option<nat>)

  datatype AssetStatus = ARCHIVED | LIVE | OTHER

  function KeyOf(t: AssetType, a: Asset): Key {
    match t case CASE => Key(CASE, a.caseId) case ELEMENT => Key(ELEMENT, a.elementId) case PAGE => Key(PAGE, a.pageId)
  }

  /** The index of the entry with this key, or the length. */
  function Find(es: seq<Entry>, k: Key): (i: nat)
    ensures i <= |es| && (i < |es| ==> es[i].key == k)
  {
    if es == [] then 0 else if es[0].key == k then 0 else 1 + Find(es[1..], k)
  }

  lemma {:induction false} FindIsFirst(es: seq<Entry>, k: Key, j: nat)
    requires j < Find(es, k)
    ensures es[j].key != k
  {
    if j > 0 { FindIsFirst(es[1..], k, j - 1); }
  }

  /** The entry of a key, if it has one. */
  function Look(es: seq<Entry>, k: Key): Option<Entry> {
    var i := Find(es, k);
    if i < |es| then Some(es[i]) else None
  }

  function CountStarted(es: seq<Entry>): nat {
    if es == [] then 0 else var n := |es| - 1; CountStarted(es[..n]) + if es[n].started then 1 else 0
  }

  lemma CountAppend(es: seq<Entry>, e: Entry)
    ensures CountStarted(es + [e]) == CountStarted(es) + if e.started then 1 else 0
  {
    assert (es + [e])[..|es|] == es;
  }

  lemma {:induction false} CountUpdate(es: seq<Entry>, i: nat, e: Entry)
    requires i < |es|
    ensures CountStarted(es[i := e]) + (if es[i].started then 1 else 0) ==
            CountStarted(es) + (if e.started then 1 else 0)
    decreases |es|
  {
    var n := |es| - 1;
    if i < n {
      CountUpdate(es[..n], i, e);
      assert es[i := e][..n] == es[..n][i := e];
    } else {
      assert es[i := e][..n] == es[..n];
    }
  }

  // ---------------------------------------------------------------- journals

  /** Distinct keys, and ordinals that are the positions. */
  ghost predicate WellFormed(es: seq<Entry>) {
    && (forall i :: 0 <= i < |es| ==> es[i].ordinal == i + 1)
    && (forall i, j :: 0 <= i < j < |es| ==> es[i].key != es[j].key)
  }

  /** Every POST has an entry that says it was started, and there are no more POSTs than such entries. */
  ghost predicate Covers(es: seq<Entry>, posts: seq<Key>) {
    && (forall k :: k in posts ==> Look(es, k).Some? && Look(es, k).value.started)
    && |posts| <= CountStarted(es)
  }

  ghost predicate Good(es: seq<Entry>, posts: seq<Key>) { WellFormed(es) && Covers(es, posts) }

  predicate NoRepeats(ks: seq<Key>) { forall i, j :: 0 <= i < j < |ks| ==> ks[i] != ks[j] }

  predicate Settled(e: Option<Entry>) {
    e.Some? && (e.value.state.ConfirmedArchived? || e.value.state.SkippedAlreadyArchived?)
  }

  ghost predicate AllSettled(es: seq<Entry>, ks: set<Key>) { forall k :: k in ks ==> Settled(Look(es, k)) }

  ghost predicate HasType(ks: set<Key>, t: AssetType, assets: seq<Asset>) {
    forall i :: 0 <= i < |assets| ==> KeyOf(t, assets[i]) in ks
  }

  /** Each of the three parts of every asset has a confirmed or skipped entry. */
  ghost predicate EverySettled(es: seq<Entry>, assets: seq<Asset>) {
    forall t: AssetType, i :: 0 <= i < |assets| ==> Settled(Look(es, KeyOf(t, assets[i])))
  }

  lemma AllTypes(es: seq<Entry>, ks: set<Key>, assets: seq<Asset>)
    requires AllSettled(es, ks) && HasType(ks, CASE, assets) && HasType(ks, ELEMENT, assets) &&
             HasType(ks, PAGE, assets)
    ensures EverySettled(es, assets)
  {
    forall t: AssetType, i | 0 <= i < |assets| ensures Settled(Look(es, KeyOf(t, assets[i]))) {
      assert HasType(ks, t, assets);
      assert KeyOf(t, assets[i]) in ks;
    }
  }

  /** Entries of other keys are the same. */
  ghost predicate OthersKept(before: seq<Entry>, after: seq<Entry>, k: Key) {
    forall j :: j != k ==> Look(after, j) == Look(before, j)
  }

  lemma {:induction false} FindAppend(es: seq<Entry>, e: Entry, k: Key)
    ensures Find(es + [e], k) == if Find(es, k) < |es| then Find(es, k) else if e.key == k then |es| else |es| + 1
  {
    if es == [] {
      assert es + [e] == [e] && [e][1..] == [];
    } else {
      assert (es + [e])[1..] == es[1..] + [e];
      FindAppend(es[1..], e, k);
    }
  }

  lemma {:induction false} FindUpdate(es: seq<Entry>, i: nat, e: Entry, k: Key)
    requires i < |es| && e.key == es[i].key
    ensures Find(es[i := e], k) == Find(es, k)
  {
    if es[0].key != k {
      if i == 0 {
        assert es[i := e][1..] == es[1..];
      } else {
        assert es[i := e][1..] == es[1..][i - 1 := e];
        FindUpdate(es[1..], i - 1, e, k);
      }
    }
  }

  lemma LookAppend(es: seq<Entry>, e: Entry, k: Key)
    ensures Look(es + [e], k) == if Look(es, k).Some? then Look(es, k) else if e.key == k then Some(e) else None
  {
    FindAppend(es, e, k);
  }

  lemma AppendWellFormed(es: seq<Entry>, e: Entry)
    requires WellFormed(es) && Look(es, e.key).None? && e.ordinal == |es| + 1
    ensures WellFormed(es + [e])
  {
    forall j | 0 <= j < |es| ensures es[j].key != e.key { FindIsFirst(es, e.key, j); }
  }

  lemma AppendCovers(es: seq<Entry>, e: Entry, posts: seq<Key>)
    requires Covers(es, posts)
    ensures Covers(es + [e], posts)
  {
    CountAppend(es, e);
    forall k | k in posts ensures Look(es + [e], k).Some? && Look(es + [e], k).value.started { LookAppend(es, e, k); }
  }

  /** Appending the entry of a new key. */
  lemma AppendKeeps(es: seq<Entry>, e: Entry, posts: seq<Key>)
    requires Good(es, posts) && Look(es, e.key).None? && e.ordinal == |es| + 1
    ensures Good(es + [e], posts) && OthersKept(es, es + [e], e.key) && Look(es + [e], e.key) == Some(e)
    ensures CountStarted(es + [e]) == CountStarted(es) + if e.started then 1 else 0
  {
    AppendWellFormed(es, e);
    AppendCovers(es, e, posts);
    AppendOthers(es, e);
    LookAppend(es, e, e.key);
    CountAppend(es, e);
  }

  lemma AppendOthers(es: seq<Entry>, e: Entry)
    ensures OthersKept(es, es + [e], e.key)
  {
    forall k | k != e.key ensures Look(es + [e], k) == Look(es, k) { LookAppend(es, e, k); }
  }

  lemma LookUpdate(es: seq<Entry>, i: nat, e: Entry, k: Key)
    requires i < |es| && Find(es, e.key) == i && e.key == es[i].key
    ensures Look(es[i := e], k) == if k == e.key then Some(e) else Look(es, k)
  {
    FindUpdate(es, i, e, k);
  }

  lemma UpdateCovers(es: seq<Entry>, i: nat, e: Entry, posts: seq<Key>)
    requires Covers(es, posts) && i < |es| && Find(es, e.key) == i
    requires e.key == es[i].key && (es[i].started ==> e.started)
    ensures Covers(es[i := e], posts)
  {
    CountUpdate(es, i, e);
    forall k | k in posts ensures Look(es[i := e], k).Some? && Look(es[i := e], k).value.started {
      LookUpdate(es, i, e, k);
    }
  }

  lemma UpdateOthers(es: seq<Entry>, i: nat, e: Entry)
    requires i < |es| && Find(es, e.key) == i && e.key == es[i].key
    ensures OthersKept(es, es[i := e], e.key)
  {
    forall k | k != e.key ensures Look(es[i := e], k) == Look(es, k) { LookUpdate(es, i, e, k); }
  }

  /** Changing the state of an entry; `started` is never taken back. */
  lemma UpdateKeeps(es: seq<Entry>, i: nat, e: Entry, posts: seq<Key>)
    requires Good(es, posts) && i < |es| && Find(es, e.key) == i
    requires e.key == es[i].key && e.ordinal == es[i].ordinal && (es[i].started ==> e.started)
    ensures Good(es[i := e], posts) && OthersKept(es, es[i := e], e.key) && Look(es[i := e], e.key) == Some(e)
    ensures CountStarted(es[i := e]) == CountStarted(es) + if e.started && !es[i].started then 1 else 0
  {
    UpdateCovers(es, i, e, posts);
    UpdateOthers(es, i, e);
    LookUpdate(es, i, e, e.key);
    CountUpdate(es, i, e);
  }

  // ---------------------------------------------------------------- the script

  class Archiver {
    var file: Option<Journal>
    var journal: Journal
    ghost var posts: seq<Key>

    constructor ()
      ensures Inv() && file.None? && posts == []
    {
      file, journal, posts := None, Journal([], None), [];
    }

    /** The entries on disk. */
    function Disk(): seq<Entry> reads this { if file.Some? then file.value.operations else [] }

    /** What holds after every step, and so after a crash at any step. */
    ghost predicate Durable() reads this { Good(Disk(), posts) && NoRepeats(posts) }

    ghost predicate Inv() reads this { Durable() && Good(journal.operations, posts) }

    method Interrupted() returns (op: Op)
      ensures op != Fine
    {
      var crash := Arbitrary<bool>();
      op := if crash then Crashed else Threw;
    }

    /** `_write_json_atomic` of the journal. */
    method Save() returns (op: Op)
      requires Inv()
      modifies `file
      ensures Inv() && (file == old(file) || file == Some(journal))
      ensures op.Fine? ==> file == Some(journal)
    {
      var works := Arbitrary<bool>();
      var replaced := Arbitrary<bool>();
      if works || replaced { file := Some(journal); }
      if works { op := Fine; } else { op := Interrupted(); }
    }

    /** `_get_api_asset`: any answer. */
    method GetAsset() returns (op: Op, status: AssetStatus)
    {
      status := Arbitrary<AssetStatus>();
      op := Arbitrary<Op>();
    }

    /** The archive POST: only for a key never posted before, with a started entry on disk. */
    method Post(k: Key) returns (op: Op)
      requires Inv() && k !in posts
      requires file == Some(journal) && |posts| + 1 <= CountStarted(Disk())
      requires Look(Disk(), k).Some? && Look(Disk(), k).value.state.PostStarting? && Look(Disk(), k).value.started
      modifies `posts
      ensures Inv() && posts == old(posts) + [k]
    {
      posts := posts + [k];
      op := Arbitrary<Op>();
    }

    /** Add an entry to the journal in memory and write the file. */
    method Append(e: Entry) returns (op: Op)
      requires Inv() && Look(journal.operations, e.key).None? && e.ordinal == |journal.operations| + 1
      modifies `file, `journal
      ensures Inv() && OthersKept(old(journal).operations, journal.operations, e.key)
      ensures Look(journal.operations, e.key) == Some(e)
      ensures CountStarted(journal.operations) == CountStarted(old(journal).operations) + if e.started then 1 else 0
      ensures op.Fine? ==> file == Some(journal)
    {
      AppendKeeps(journal.operations, e, posts);
      journal := journal.(operations := journal.operations + [e]);
      op := Save();
    }

    /** Change the entry of a key in memory and write the file. */
    method Change(k: Key, state: State, start: bool) returns (op: Op)
      requires Inv() && Look(journal.operations, k).Some?
      modifies `file, `journal
      ensures Inv() && OthersKept(old(journal).operations, journal.operations, k)
      ensures var was := Look(old(journal).operations, k).value;
              && Look(journal.operations, k) == Some(was.(state := state, started := was.started || start))
              && CountStarted(journal.operations) ==
                 CountStarted(old(journal).operations) + if start && !was.started then 1 else 0
      ensures op.Fine? ==> file == Some(journal)
    {
      var i := Find(journal.operations, k);
      var e := journal.operations[i].(state := state, started := journal.operations[i].started || start);
      UpdateKeeps(journal.operations, i, e, posts);
      journal := journal.(operations := journal.operations[i := e]);
      op := Save();
    }

    /** The POST and what the journal says about it. */
    method PostAndConfirm(k: Key) returns (op: Op)
      requires Inv() && k !in posts && file == Some(journal)
      requires var e := Look(journal.operations, k); e.Some? && e.value.state.PostStarting? && e.value.started
      requires |posts| + 1 <= CountStarted(journal.operations)
      modifies `file, `journal, `posts
      ensures Inv() && posts == old(posts) + [k]
      ensures !op.Crashed? ==>
              Look(journal.operations, k).Some? && !Look(journal.operations, k).value.state.PostStarting?
      ensures op.Fine? ==>
              Settled(Look(journal.operations, k)) && OthersKept(old(journal).operations, journal.operations, k)
      ensures op.Fine? ==> CountStarted(journal.operations) == CountStarted(old(journal).operations)
    {
      op := Post(k);
      if op.Crashed? { return; }
      if op.Threw? {
        op := Change(k, UnknownResult, false);
        if op.Fine? { op := Threw; }
        return;
      }
      op := Change(k, ResponseReceived, false);
      if !op.Fine? { return; }
      var status;
      op, status := GetAsset();
      if !op.Fine? { return; }
      if !status.ARCHIVED? { return Threw; }
      op := Change(k, ConfirmedArchived, false);
    }

    /** The POST of a key the journal does not know: planned, started, then sent. */
    method ArchiveNew(k: Key) returns (op: Op)
      requires Inv() && Look(journal.operations, k).None?
      modifies `file, `journal, `posts
      ensures Inv() && (posts == old(posts) || posts == old(posts) + [k])
      ensures op.Fine? ==>
                && posts == old(posts) + [k]
                && CountStarted(journal.operations) == CountStarted(old(journal).operations) + 1
                && Settled(Look(journal.operations, k))
                && OthersKept(old(journal).operations, journal.operations, k)
    {
      op := Append(Entry(|journal.operations| + 1, k, PlannedBeforePost, false));
      if !op.Fine? { return; }
      op := Change(k, PostStarting, true);
      if !op.Fine? { return; }
      op := PostAndConfirm(k);
    }

    /** `_archive_one` */
    method ArchiveOne(k: Key) returns (op: Op)
      requires Inv()
      modifies `file, `journal, `posts
      ensures Inv() && (posts == old(posts) || posts == old(posts) + [k])
      ensures posts != old(posts) ==> Look(old(journal).operations, k).None?
      ensures op.Fine? ==>
                CountStarted(journal.operations) == CountStarted(old(journal).operations) + (|posts| - |old(posts)|)
      ensures op.Fine? ==>
              Settled(Look(journal.operations, k)) && OthersKept(old(journal).operations, journal.operations, k)
    {
      var existing := Look(journal.operations, k);
      var status;
      op, status := GetAsset();
      if !op.Fine? { return; }
      if status.ARCHIVED? {
        if existing.None? {
          op := Append(Entry(|journal.operations| + 1, k, SkippedAlreadyArchived, false));
        } else {
          op := Change(k, ConfirmedArchived, false);
        }
        return;
      }
      if status.OTHER? || existing.Some? { return Threw; }
      op := ArchiveNew(k);
    }

    /** `_load_or_create_journal` */
    method LoadOrCreate() returns (op: Op)
      requires Durable()
      modifies `file, `journal
      ensures Durable() && (op.Fine? ==> Inv())
    {
      if file.Some? {
        journal := file.value;
        op := Fine;
      } else {
        journal := Journal([], None);
        op := Save();
      }
    }

    lemma SettledToo(es: seq<Entry>, later: seq<Entry>, done: set<Key>, k: Key)
      requires AllSettled(es, done) && OthersKept(es, later, k) && Settled(Look(later, k))
      ensures AllSettled(later, done + {k})
    {
      forall j | j in done + {k} ensures Settled(Look(later, j)) {
        if j != k { assert Look(later, j) == Look(es, j); }
      }
    }

    /** The inner loop: the assets of one type; what was settled before stays settled. */
    method ArchiveType(t: AssetType, assets: seq<Asset>, ghost before: set<Key>) returns (op: Op, ghost done: set<Key>)
      requires Inv() && AllSettled(journal.operations, before)
      modifies `file, `journal, `posts
      ensures Durable() && before <= done
      ensures op.Fine? ==> Inv() && AllSettled(journal.operations, done)
      ensures op.Fine? ==> HasType(done, t, assets)
    {
      op, done := Fine, before;
      for i := 0 to |assets|
        invariant Inv() && op.Fine? && before <= done && AllSettled(journal.operations, done)
        invariant forall j :: 0 <= j < i ==> KeyOf(t, assets[j]) in done
      {
        ghost var es := journal.operations;
        op := ArchiveOne(KeyOf(t, assets[i]));
        if !op.Fine? { return; }
        SettledToo(es, journal.operations, done, KeyOf(t, assets[i]));
        done := done + {KeyOf(t, assets[i])};
      }
    }

    /** The two nested loops: every case, then every element, then every page. */
    method ArchiveAll(assets: seq<Asset>) returns (op: Op)
      requires Inv()
      modifies `file, `journal, `posts
      ensures Durable()
      ensures op.Fine? ==> Inv() && EverySettled(journal.operations, assets)
      ensures op.Fine? ==>
                forall asset <- assets :: Settled(Look(journal.operations, KeyOf(CASE, asset))) &&
                                          Settled(Look(journal.operations, KeyOf(ELEMENT, asset))) &&
                                          Settled(Look(journal.operations, KeyOf(PAGE, asset)))
    {
      ghost var done;
      op, done := ArchiveType(CASE, assets, {});
      if !op.Fine? { return; }
      op, done := ArchiveType(ELEMENT, assets, done);
      if !op.Fine? { return; }
      op, done := ArchiveType(PAGE, assets, done);
      if !op.Fine? { return; }
      AllTypes(journal.operations, done, assets);
    }

    /** The check that ends `_execute`. */
    predicate Complete(es: seq<Entry>) {
      |es| == 6 && forall i :: 0 <= i < |es| ==> Settled(Some(es[i]))
    }

    /** `_execute`: `Fine` is success. */
    method Execute(assets: seq<Asset>) returns (op: Op)
      requires Durable()
      modifies this
      ensures Durable()
      ensures op.Fine? ==>
                && Complete(Disk()) && file.value.businessPosts == Some(CountStarted(Disk()))
                && |posts| <= CountStarted(Disk())
                && EverySettled(Disk(), assets)
    {
      var ready := Arbitrary<bool>();
      if !ready { op := Interrupted(); return; }
      op := LoadOrCreate();
      if !op.Fine? { return; }
      op := ArchiveAll(assets);
      if !op.Fine? { return; }
      var intact := Arbitrary<bool>();
      if !intact || !Complete(journal.operations) { op := Interrupted(); return; }
      journal := journal.(businessPosts := Some(CountStarted(journal.operations)));
      op := Save();
    }
  }

  /** Any number of executions, each successful, stopped or crashed at any step: no key is ever
      posted twice, and every POST is recorded on disk as started. */
  method Operate(archiver: Archiver, runs: seq<seq<Asset>>) returns (ends: seq<Op>)
    requires archiver.Durable()
    modifies archiver
    ensures archiver.Durable() && |ends| == |runs|
    ensures forall i, j :: 0 <= i < j < |archiver.posts| ==> archiver.posts[i] != archiver.posts[j]
    ensures WellFormed(archiver.Disk())
    ensures forall k :: k in archiver.posts ==> Look(archiver.Disk(), k).Some? && Look(archiver.Disk(), k).value.started
  {
    ends := [];
    for i := 0 to |runs|
      invariant archiver.Durable() && |ends| == i
    {
      var end := archiver.Execute(runs[i]);
      ends := ends + [end];
    }
  }
}
