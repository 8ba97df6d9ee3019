/** The spool of finished performance samples (runner/performance_store.py).

    A file is modelled by what parsing its bytes yields; the digest of the file name is an
    arbitrary function, so collisions are possible. */
module PerformanceStore {
  import opened Wire

  datatype Sample = Mapping(id: int) | NotAMapping

  /** The `result` object: its field names, and the two fields by type (None when absent or
      of another type). */
  datatype Doc = Doc(fields: set<string>, wall: Option<int>, samples: Option<seq<Sample>>)

  /** Can the samples be sent to the backend at all? */
  predicate Reportable(d: Doc) { d.wall.Some? && d.samples.Some? }

  /** The range a spooled result must be in to be read back. */
  predicate InRange(d: Doc) {
    && d.fields == {"wall_duration_ms", "samples"}
    && d.wall.Some? && 1 <= d.wall.value <= 86400000
    && d.samples.Some? && 1 <= |d.samples.value| <= 10000
    && forall i :: 0 <= i < |d.samples.value| ==> d.samples.value[i].Mapping?
  }

  /** Between a millisecond and a day, and between one and ten thousand samples, all mappings. */
  lemma RangeMeans(d: Doc)
    ensures InRange(d) <==>
              && (forall f :: f in d.fields <==> f == "wall_duration_ms" || f == "samples")
              && d.wall.Some? && 0 < d.wall.value <= 24 * 60 * 60 * 1000
              && d.samples.Some? && d.samples.value != [] && |d.samples.value| < 10_001
              && NotAMapping !in d.samples.value
  {
    if d.samples.Some? && NotAMapping !in d.samples.value {
      assert forall i :: 0 <= i < |d.samples.value| ==> d.samples.value[i] in d.samples.value;
    }
  }

  datatype Key = Key(run: string, message: string)

  datatype Content = NotJson | OtherJson | Spooled(version: int, run: string, message: string, doc: Option<Doc>)

  datatype File = File(size: nat, content: Content)

  const MAX_RESULT_BYTES: nat := 8000000

  /** The hashed text of a key. */
  function KeyText(k: Key): string { k.run + ['\0'] + k.message }

  predicate NulFree(s: string) { forall i :: 0 <= i < |s| ==> s[i] != '\0' }

  /** Envelope identifiers are non-empty words over letters, digits, underscore and hyphen. */
  predicate Identifier(s: string) {
    |s| > 0 && forall i :: 0 <= i < |s| ==>
      ('A' <= s[i] <= 'Z') || ('a' <= s[i] <= 'z') || ('0' <= s[i] <= '9') || s[i] == '_' || s[i] == '-'
  }

  lemma IdentifiersAreNulFree(s: string)
    requires Identifier(s)
    ensures NulFree(s)
  {}

  /** The separator makes the key text injective on identifiers. */
  lemma KeyTextInjective(a: Key, b: Key)
    requires NulFree(a.run) && NulFree(b.run)
    requires KeyText(a) == KeyText(b)
    ensures a == b
  {
    var t := KeyText(a);
    assert t[|a.run|] == '\0' && t[|b.run|] == '\0';
    assert forall i :: 0 <= i < |a.run| ==> t[i] == a.run[i] != '\0';
    assert forall i :: 0 <= i < |b.run| ==> t[i] == b.run[i] != '\0';
    assert |a.run| == |b.run|;
    assert a.run == t[..|a.run|] && b.run == t[..|b.run|];
    assert a.message == t[|a.run| + 1..] && b.message == t[|b.run| + 1..];
  }

  /** What reading a directory yields for a key stored at `path`, I/O errors aside. */
  function Read(files: map<string, File>, path: string, k: Key): Reply<Option<Doc>> {
    if path !in files then Ok(None) else
    var f := files[path];
    if f.size > MAX_RESULT_BYTES || !f.content.Spooled? then Raised(Runner)
    else if f.content.version != 1 || f.content.run != k.run || f.content.message != k.message ||
        f.content.doc.None? then
      Raised(Runner)
    else if !InRange(f.content.doc.value) then Raised(Runner)
    else Ok(f.content.doc)
  }

  /** A file over eight million bytes, of another version or of another key is never read as a result. */
  lemma ReadIsStrict(files: map<string, File>, path: string, k: Key)
    requires path in files && Read(files, path, k).Ok?
    ensures files[path].size <= 8_000_000 && Read(files, path, k).value.Some?
    ensures files[path].content == Spooled(1, k.run, k.message, Read(files, path, k).value)
  {}

  /** The digest has no collision among these texts. */
  ghost predicate CollisionFree(digest: string -> string, texts: set<string>) {
    forall s, t :: s in texts && t in texts && digest(s) == digest(t) ==> s == t
  }

  /** Envelopes with different identifiers are spooled in different files. */
  lemma PathsSeparate(digest: string -> string, a: Key, b: Key)
    requires CollisionFree(digest, {KeyText(a), KeyText(b)}) && Identifier(a.run) && Identifier(b.run)
    requires digest(KeyText(a)) == digest(KeyText(b))
    ensures a == b
  {
    IdentifiersAreNulFree(a.run);
    IdentifiersAreNulFree(b.run);
    KeyTextInjective(a, b);
  }

  /** What a saved result reads back as: itself exactly when it is in range, an error
      otherwise; and no key of an envelope is disturbed by a save under another. */
  lemma SaveReadsBack(files: map<string, File>, digest: string -> string, k: Key, d: Doc, size: nat, other: Key)
    requires size <= MAX_RESULT_BYTES
    requires CollisionFree(digest, {KeyText(k), KeyText(other)}) && NulFree(k.run) && NulFree(other.run)
    ensures var after := files[digest(KeyText(k)) := File(size, Spooled(1, k.run, k.message, Some(d)))];
            && Read(after, digest(KeyText(k)), k) == (if InRange(d) then Ok(Some(d)) else Raised(Runner))
            && (other != k ==> Read(after, digest(KeyText(other)), other) == Read(files, digest(KeyText(other)), other))
  {
    if digest(KeyText(k)) == digest(KeyText(other)) {
      KeyTextInjective(k, other);
    }
  }

  class PerformanceResultStore {
    const digest: string -> string
    const sizeOf: (Key, Doc) -> nat
    var files: map<string, File>

    constructor (digest: string -> string, sizeOf: (Key, Doc) -> nat, files: map<string, File>)
      ensures this.digest == digest && this.sizeOf == sizeOf && this.files == files
    {
      this.digest, this.sizeOf, this.files := digest, sizeOf, files;
    }

    function Path(k: Key): string { digest(KeyText(k)) }

    /** `load`; a failing read is a StateError. */
    method Load(k: Key) returns (r: Reply<Option<Doc>>, ghost io: bool)
      ensures r == if io && Path(k) in files then Raised(Runner) else Read(files, Path(k), k)
      ensures Path(k) in files ==> r != Ok(None)
      ensures r.Ok? && r.value.Some? ==>
                Path(k) in files && files[Path(k)].content == Spooled(1, k.run, k.message, r.value) &&
                    InRange(r.value.value)
    {
      var ioError: bool := *;
      r, io := Raised(Runner), ioError;
      if ioError && Path(k) in files { return; }
      if Path(k) !in files {
        r := Ok(None);
        return;
      }
      var f := files[Path(k)];
      if f.size > MAX_RESULT_BYTES { return; }
      match f.content {
        case Spooled(version, run, message, doc) =>
          if version != 1 || run != k.run || message != k.message || doc.None? { return; }
          if !InRange(doc.value) { return; }
          r := Ok(Some(doc.value));
        case _ =>
      }
    }

    function Encoded(k: Key, d: Doc): File { File(sizeOf(k, d), Spooled(1, k.run, k.message, Some(d))) }

    /** `save`.  The write replaces the file atomically; an error can be raised before the
        replacement or after it. */
    method Save(k: Key, d: Doc) returns (ok: bool, ghost io: bool)
      modifies this`files
      ensures !io ==> (ok <==> sizeOf(k, d) <= 8_000_000)
      ensures io ==> !ok
      ensures ok ==> sizeOf(k, d) <= MAX_RESULT_BYTES && files == old(files)[Path(k) := Encoded(k, d)]
      ensures !ok ==> files == old(files) || files == old(files)[Path(k) := Encoded(k, d)]
    {
      ok, io := false, false;
      if sizeOf(k, d) > MAX_RESULT_BYTES { return; }
      var failsBefore: bool := *;
      if failsBefore {
        io := true;
        return;
      }
      files := files[Path(k) := Encoded(k, d)];
      var failsAfter: bool := *;
      ok, io := !failsAfter, failsAfter;
    }

    /** `delete`: a missing file is fine, a failing unlink keeps the file. */
    method Delete(k: Key) returns (ok: bool)
      modifies this`files
      ensures files == if ok then old(files) - {Path(k)} else old(files)
    {
      var ioError: bool := *;
      if ioError { return false; }
      files := files - {Path(k)};
      ok := true;
    }
  }
}
