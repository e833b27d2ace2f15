/**
 * ingestion/ingest.py: collect the text and markdown files of the configured
 * directories, fingerprint them, and rebuild the index and its stored
 * fingerprint unless the fingerprint shows no drift.
 */
module Ingestion {
  import opened Wrappers
  import opened Text
  import opened Documents
  import opened Fingerprinting

  /** `DATA_DIRS`, scanned in this order. */
  const DataDirs: seq<string> := ["data/policies", "data/api_docs", "data/incidents"]

  /** A directory listing in `os.listdir` order: file name and file text. */
  datatype Entry = Entry(name: string, text: string)

  /** The directories that exist, with their listings. */
  type FileSystem = map<string, seq<Entry>>

  /** The text splitter (chunk size 700, overlap 100), left abstract. */
  type Splitter = seq<Doc> -> seq<Doc>

  datatype Outcome = NoDrift | Rebuilt

  datatype IngestError = NoDocumentsFound

  /** What ingestion persists: the built index and the `meta.json` fingerprint (None while the file is absent). */
  datatype Store = Store(index: Option<Snapshot>, meta: Option<Digest>)

  /** Persistent writes, in the order they happen. */
  datatype Write = IndexBuilt(snapshot: Snapshot) | MetaWritten(fingerprint: Digest)

  predicate IsTextFile(name: string) {
    EndsWith(name, ".txt") || EndsWith(name, ".md")
  }

  /** `os.path.join(directory, filename)`. */
  function PathJoin(dir: string, name: string): string {
    dir + "/" + name
  }

  /** The documents one listing contributes, in listing order. */
  function ListingDocs(dir: string, listing: seq<Entry>): seq<Doc> {
    if listing == [] then []
    else
      var e := listing[|listing| - 1];
      ListingDocs(dir, listing[..|listing| - 1])
        + (if IsTextFile(e.name) then [Doc(PathJoin(dir, e.name), e.text)] else [])
  }

  /** The documents of one directory; a missing directory contributes none. */
  function DirDocs(dir: string, fs: FileSystem): seq<Doc> {
    if dir in fs then ListingDocs(dir, fs[dir]) else []
  }

  /** The documents `ingest` collects from `dirs`, directory by directory. */
  function Corpus(dirs: seq<string>, fs: FileSystem): seq<Doc> {
    if dirs == [] then []
    else Corpus(dirs[..|dirs| - 1], fs) + DirDocs(dirs[|dirs| - 1], fs)
  }

  /** The effect of `ingest(force)` on the store, given the collected documents. */
  function IngestSpec(docs: seq<Doc>, store: Store, force: bool, hash: HashFn, split: Splitter): (Result<Outcome, IngestError>, Store) {
    if docs == [] then (Failure(NoDocumentsFound), store)
    else
      var fp := Fingerprint(docs, hash);
      if store.meta.Some? && !force && store.meta.value == fp then (Success(NoDrift), store)
      else (Success(Rebuilt), Store(Some(Snapshot(split(docs))), Some(fp)))
  }

  /** The writes `ingest` performs: the index first, then the fingerprint, and only on a rebuild. */
  function WritesOf(r: Result<Outcome, IngestError>, after: Store): seq<Write> {
    if r == Success(Rebuilt) && after.index.Some? && after.meta.Some?
    then [IndexBuilt(after.index.value), MetaWritten(after.meta.value)]
    else []
  }

  /** The document sources, the index and `meta.json`, as `ingest` reads and writes them. */
  class Ingestor {
    var fs: FileSystem
    var index: Option<Snapshot>
    var meta: Option<Digest>
    ghost var writes: seq<Write>
    const hash: HashFn
    const split: Splitter

    constructor (fs: FileSystem, index: Option<Snapshot>, meta: Option<Digest>, hash: HashFn, split: Splitter)
      ensures this.fs == fs && this.index == index && this.meta == meta && writes == []
      ensures this.hash == hash && this.split == split
    {
      this.fs := fs;
      this.index := index;
      this.meta := meta;
      this.hash := hash;
      this.split := split;
      writes := [];
    }

    /** The documents a run of `ingest` would collect now. */
    function Docs(): seq<Doc>
      reads this
    {
      Corpus(DataDirs, fs)
    }

    function CurrentStore(): Store
      reads this
    {
      Store(index, meta)
    }

    /** The nested loop of `ingest`: every `.txt`/`.md` file of every existing data directory. */
    method LoadDocuments() returns (docs: seq<Doc>)
      ensures docs == Docs()
    {
      docs := [];
      for i := 0 to |DataDirs|
        invariant docs == Corpus(DataDirs[..i], fs)
      {
        var directory := DataDirs[i];
        assert DataDirs[..i + 1][..i] == DataDirs[..i];
        if directory !in fs {
          continue;
        }
        var listing := fs[directory];
        var found: seq<Doc> := [];
        for j := 0 to |listing|
          invariant found == ListingDocs(directory, listing[..j])
        {
          assert listing[..j + 1][..j] == listing[..j];
          var filename := listing[j].name;
          if EndsWith(filename, ".txt") || EndsWith(filename, ".md") {
            found := found + [Doc(PathJoin(directory, filename), listing[j].text)];
          }
        }
        assert listing[..|listing|] == listing;
        docs := docs + found;
      }
      assert DataDirs[..|DataDirs|] == DataDirs;
    }

    /** `ingest(force)`: collect the documents, then fingerprint and rebuild as needed. */
    method Ingest(force: bool) returns (r: Result<Outcome, IngestError>)
      modifies this`index, this`meta, this`writes
      ensures (r, CurrentStore()) == IngestSpec(Docs(), old(CurrentStore()), force, hash, split)
      ensures writes == old(writes) + WritesOf(r, CurrentStore())
    {
      var docs := LoadDocuments();
      r := IngestDocuments(docs, force);
    }

    /** The rest of `ingest` once `docs` is collected: the empty-corpus error, the drift check, the rebuild and the meta write. */
    method IngestDocuments(docs: seq<Doc>, force: bool) returns (r: Result<Outcome, IngestError>)
      modifies this`index, this`meta, this`writes
      ensures (r, CurrentStore()) == IngestSpec(docs, old(CurrentStore()), force, hash, split)
      ensures writes == old(writes) + WritesOf(r, CurrentStore())
    {
      ghost var before := CurrentStore();
      if docs == [] {
        return Failure(NoDocumentsFound);
      }
      var fingerprint := FingerprintDocs(docs, hash);
      ghost var fp := Fingerprint(docs, hash);
      assert fingerprint == fp;
      if meta.Some? && !force {
        var oldFp := meta.value;
        if oldFp == fingerprint {
          assert IngestSpec(docs, before, force, hash, split) == (Success(NoDrift), before);
          return Success(NoDrift);
        }
      }
      assert IngestSpec(docs, before, force, hash, split) == (Success(Rebuilt), Store(Some(Snapshot(split(docs))), Some(fp)));
      var chunks := split(docs);
      index := Some(Snapshot(chunks));
      writes := writes + [IndexBuilt(Snapshot(chunks))];
      meta := Some(fingerprint);
      writes := writes + [MetaWritten(fingerprint)];
      r := Success(Rebuilt);
    }
  }

  /** No documents: the run fails and neither the index nor the fingerprint changes. */
  lemma EmptyCorpusFailsWithoutChange(store: Store, force: bool, hash: HashFn, split: Splitter)
    ensures IngestSpec([], store, force, hash, split) == (Failure(NoDocumentsFound), store)
  {
  }

  /** Unforced, with a stored fingerprint equal to the corpus's: nothing is rebuilt or written. */
  lemma NoDriftIsNoop(docs: seq<Doc>, store: Store, hash: HashFn, split: Splitter)
    requires docs != []
    requires store.meta == Some(Fingerprint(docs, hash))
    ensures IngestSpec(docs, store, false, hash, split) == (Success(NoDrift), store)
    ensures WritesOf(Success(NoDrift), store) == []
  {
  }

  /**
   * With documents present, the index is rebuilt from them exactly when the run
   * is forced, there is no stored fingerprint, or the stored one differs;
   * a rebuild stores the fingerprint of the documents just read.
   */
  lemma RebuildCondition(docs: seq<Doc>, store: Store, force: bool, hash: HashFn, split: Splitter)
    requires docs != []
    ensures var (r, after) := IngestSpec(docs, store, force, hash, split);
            && (r == Success(Rebuilt) <==> force || store.meta.None? || store.meta.value != Fingerprint(docs, hash))
            && (r == Success(Rebuilt) ==> after == Store(Some(Snapshot(split(docs))), Some(Fingerprint(docs, hash))))
            && (r == Success(Rebuilt) ==> WritesOf(r, after) == [IndexBuilt(Snapshot(split(docs))), MetaWritten(Fingerprint(docs, hash))])
  {
  }

  /** After any successful run, an unforced run over the same documents is a no-op. */
  lemma IngestIdempotent(docs: seq<Doc>, store: Store, force: bool, hash: HashFn, split: Splitter)
    requires IngestSpec(docs, store, force, hash, split).0.Success?
    ensures var after := IngestSpec(docs, store, force, hash, split).1;
            IngestSpec(docs, after, false, hash, split) == (Success(NoDrift), after)
  {
  }

  /** A listing contributes exactly its text and markdown files, each under its joined path. */
  lemma {:induction false} ListingDocsMembership(dir: string, listing: seq<Entry>, d: Doc)
    ensures d in ListingDocs(dir, listing) <==>
            exists e | e in listing :: IsTextFile(e.name) && d == Doc(PathJoin(dir, e.name), e.text)
  {
    if listing != [] {
      var init := listing[..|listing| - 1];
      ListingDocsMembership(dir, init, d);
      assert listing == init + [listing[|listing| - 1]];
    }
  }

  /** Missing directories are skipped; a document comes from a text file of an existing directory in the list. */
  lemma {:induction false} CorpusMembership(dirs: seq<string>, fs: FileSystem, d: Doc)
    ensures d in Corpus(dirs, fs) <==>
            exists dir | dir in dirs && dir in fs :: d in ListingDocs(dir, fs[dir])
  {
    if dirs != [] {
      var init := dirs[..|dirs| - 1];
      CorpusMembership(init, fs, d);
      assert dirs == init + [dirs[|dirs| - 1]];
    }
  }

  /** When none of the data directories exists there is nothing to ingest, so `ingest` fails. */
  lemma NoDirectoriesMeansNoDocuments(fs: FileSystem, store: Store, force: bool, hash: HashFn, split: Splitter)
    requires forall dir | dir in DataDirs :: dir !in fs
    ensures Corpus(DataDirs, fs) == []
    ensures IngestSpec(Corpus(DataDirs, fs), store, force, hash, split).0 == Failure(NoDocumentsFound)
  {
    if Corpus(DataDirs, fs) != [] {
      var d := Corpus(DataDirs, fs)[0];
      CorpusMembership(DataDirs, fs, d);
    }
  }
}
