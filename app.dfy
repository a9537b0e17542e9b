/**
 * The index-synchronisation gate of the web front end: the session state
 * that remembers which file was indexed, the upload and manual-reset events
 * that invalidate it, and the render pass that loads the records and
 * re-indexes only when something changed.  Widgets, downloads and file
 * writes are outside the model: an event arrives as its parameters, and
 * what the operating system reports about the current file is a `FileView`.
 */
module App {
  import opened Wrappers
  import PyText
  import FileProcessor
  import VectorStore

  /** `os.stat` of a file: modification time in nanoseconds and size in bytes. */
  datatype FileStat = FileStat(mtimeNs: nat, size: nat)

  /** What the operating system reports about the current source file. */
  datatype FileView = FileView(absPath: string, stat: Option<FileStat>, pathExists: bool, read: FileProcessor.ReadOutcome)

  /** `(abspath, round(mtime, 3), size, records_len)`, the modification time in milliseconds. */
  datatype Signature = Signature(absPath: string, mtimeMs: int, size: nat, recordsLen: nat)

  /** Nanoseconds to the nearest millisecond, halves to the even one, as `round(x, 3)` does. */
  function RoundToMs(ns: nat): (ms: nat)
    ensures -500000 <= ms * 1000000 - ns <= 500000
    ensures (ms * 1000000 - ns == 500000 || ms * 1000000 - ns == -500000) ==> ms % 2 == 0
  {
    var q, r := ns / 1000000, ns % 1000000;
    if r < 500000 then q
    else if r > 500000 then q + 1
    else if q % 2 == 0 then q else q + 1
  }

  /** `file_signature`: an unreadable file counts as modified at time 0 with size 0. */
  function FileSignature(absPath: string, stat: Option<FileStat>, recordsLen: nat): (sig: Signature)
    ensures sig.absPath == absPath && sig.recordsLen == recordsLen
    ensures stat.None? ==> sig.mtimeMs == 0 && sig.size == 0
    ensures stat.Some? ==> sig.size == stat.value.size && -500000 <= sig.mtimeMs * 1000000 - stat.value.mtimeNs <= 500000
  {
    match stat
    case None => Signature(absPath, 0, 0, recordsLen)
    case Some(s) => Signature(absPath, RoundToMs(s.mtimeNs), s.size, recordsLen)
  }

  // ------------------------------------------------------------ paths

  /** The position of the last `c` in `s`, or -1 (`str.rfind`). */
  function LastIndex(s: string, c: char): (i: int)
    ensures -1 <= i < |s|
    ensures i >= 0 ==> s[i] == c
    ensures forall k :: i < k < |s| ==> s[k] != c
  {
    if s == [] then -1
    else if s[|s| - 1] == c then |s| - 1
    else LastIndex(s[..|s| - 1], c)
  }

  predicate HasNonDot(s: string, lo: int, hi: int)
    requires 0 <= lo && hi <= |s|
  {
    exists k :: lo <= k < hi && s[k] != '.'
  }

  /**
   * `os.path.splitext` on a POSIX path: the extension runs from the last dot
   * of the last path component, unless that component has only dots before it.
   */
  function SplitExt(p: string): (parts: (string, string))
    ensures parts.0 + parts.1 == p
    ensures parts.1 != [] ==> parts.1[0] == '.' && forall k :: 1 <= k < |parts.1| ==> parts.1[k] != '.' && parts.1[k] != '/'
    ensures parts.1 != [] <==>
      var sep, dot := LastIndex(p, '/'), LastIndex(p, '.');
      dot > sep && HasNonDot(p, sep + 1, dot)
  {
    var sep, dot := LastIndex(p, '/'), LastIndex(p, '.');
    if dot > sep && HasNonDot(p, sep + 1, dot) then (p[..dot], p[dot..]) else (p, "")
  }

  /** `os.path.join(dir, name)` for a relative `name`. */
  function Join(dir: string, name: string): string
  {
    if dir == [] || dir[|dir| - 1] == '/' then dir + name else dir + "/" + name
  }

  /** `url.split("?")[0]`: everything before the first question mark. */
  function BeforeQuery(url: string): (r: string)
    ensures r <= url && '?' !in r
    ensures r == url || url[|r|] == '?'
  {
    if url == [] || url[0] == '?' then [] else [url[0]] + BeforeQuery(url[1..])
  }

  const AllowedExts: seq<string> := [".csv", ".xlsx", ".xls"]

  /** The lower-cased extension of a URL without its query, or `.csv` when it is not an allowed one. */
  function UrlExt(url: string): (e: string)
    ensures e in AllowedExts
    ensures PyText.Lower(SplitExt(BeforeQuery(url)).1) in AllowedExts ==> e == PyText.Lower(SplitExt(BeforeQuery(url)).1)
    ensures PyText.Lower(SplitExt(BeforeQuery(url)).1) !in AllowedExts ==> e == ".csv"
  {
    var e := PyText.Lower(SplitExt(BeforeQuery(url)).1);
    if e in AllowedExts then e else ".csv"
  }

  /** The query string of a URL plays no part in its extension. */
  lemma {:induction false} QueryIgnored(url: string, query: string)
    requires '?' !in url
    ensures UrlExt(url + "?" + query) == UrlExt(url)
  {
    BeforeQueryStops(url, query);
    BeforeQueryWhole(url);
  }

  lemma {:induction false} BeforeQueryStops(url: string, query: string)
    requires '?' !in url
    ensures BeforeQuery(url + "?" + query) == url
  {
    if url != [] {
      assert (url + "?" + query)[1..] == url[1..] + "?" + query;
      BeforeQueryStops(url[1..], query);
    }
  }

  lemma {:induction false} BeforeQueryWhole(url: string)
    requires '?' !in url
    ensures BeforeQuery(url) == url
  {
    if url != [] {
      BeforeQueryWhole(url[1..]);
    }
  }

  /**
   * The file an upload is saved to: `Resume` plus its lower-cased extension,
   * `.csv` when it has none.  Whatever the upload is called, the file stays
   * directly inside the data directory.
   */
  function UploadTarget(dataDir: string, fileName: string): (t: string)
    ensures exists e :: t == Join(dataDir, "Resume" + e) && e != [] && e[0] == '.' && '/' !in e
    ensures SplitExt(fileName).1 == [] ==> t == Join(dataDir, "Resume.csv")
    ensures SplitExt(fileName).1 != [] ==> t == Join(dataDir, "Resume" + PyText.Lower(SplitExt(fileName).1))
  {
    var ext := SplitExt(fileName).1;
    var e := PyText.Lower(ext);
    if e == [] then
      assert "Resume" + ".csv" == "Resume.csv";
      Join(dataDir, "Resume.csv")
    else
      assert e[0] == '.' && '/' !in e by {
        forall k | 0 <= k < |e|
          ensures e[k] != '/'
        {
          assert k == 0 || ext[k] != '/';
        }
      }
      Join(dataDir, "Resume" + e)
  }

  /** The file a downloaded link is saved to: always `Resume.csv`, `Resume.xlsx` or `Resume.xls`. */
  function UrlTarget(dataDir: string, url: string): (t: string)
    ensures exists e :: e in AllowedExts && t == Join(dataDir, "Resume" + e)
  {
    Join(dataDir, "Resume" + UrlExt(url))
  }

  lemma SplitExtExamples()
    ensures SplitExt("resumes/Data.XLSX") == ("resumes/Data", ".XLSX")
    ensures SplitExt(".hidden") == (".hidden", "")
    ensures SplitExt("dir.d/plain") == ("dir.d/plain", "")
  {
    LastIndexAt("resumes/Data.XLSX", '/', 7);
    LastIndexAt("resumes/Data.XLSX", '.', 12);
    assert "resumes/Data.XLSX"[8] != '.';
    assert HasNonDot("resumes/Data.XLSX", 8, 12);
    assert "resumes/Data.XLSX"[..12] == "resumes/Data";
    assert "resumes/Data.XLSX"[12..] == ".XLSX";
    LastIndexAt(".hidden", '/', -1);
    LastIndexAt(".hidden", '.', 0);
    LastIndexAt("dir.d/plain", '/', 5);
    LastIndexAt("dir.d/plain", '.', 3);
  }

  lemma LastIndexAt(s: string, c: char, i: int)
    requires -1 <= i < |s| && (i >= 0 ==> s[i] == c)
    requires forall k :: i < k < |s| ==> s[k] != c
    ensures LastIndex(s, c) == i
  {
  }

  // ------------------------------------------------------------ the gate

  /** `need_index`: re-index when asked to, when the collection is empty, or when the file changed. */
  predicate NeedIndex(pending: bool, count: nat, indexed: Option<Signature>, sig: Signature)
  {
    pending || count == 0 || indexed != Some(sig)
  }

  /** What indexing starts from: an emptied collection after a reset, else the entries already there. */
  function StartFrom(reset: bool, collections: map<string, map<string, VectorStore.Entry>>): map<string, VectorStore.Entry>
  {
    if reset then map[] else VectorStore.Current(collections)
  }

  datatype IndexOutcome = UpToDate | Indexed(total: nat) | IndexFailed(error: VectorStore.IndexError)

  datatype RenderOutcome = Stopped(stats: FileProcessor.Stats) | Ran(index: IndexOutcome)

  const IndexBatch: nat := 1000

  /** Empty the collection first when `reset`, then index the records in chunks of `IndexBatch`. */
  method Reindex(records: seq<FileProcessor.Record>, embeddings: seq<seq<real>>, store: VectorStore.Store, reset: bool)
    returns (r: Result<nat, VectorStore.IndexError>)
    modifies store
    ensures var bs := VectorStore.BatchesFrom(records, embeddings, IndexBatch, 0);
      var k := VectorStore.Accepted(bs);
      var entries := VectorStore.AddBatches(StartFrom(reset, old(store.collections)), bs[..k], store.policy);
      && store.collections == old(store.collections)[VectorStore.CollectionName := entries]
      && (r.Ok? <==> k == |bs|)
      && (r.Ok? ==> r.value == |entries|)
  {
    ghost var before := store.collections;
    ghost var start := StartFrom(reset, before);
    if reset {
      var _ := VectorStore.ResetCollection(store);
    }
    ghost var mid := store.collections;
    assert VectorStore.Current(mid) == start;
    ghost var bs := VectorStore.BatchesFrom(records, embeddings, IndexBatch, 0);
    ghost var entries := VectorStore.AddBatches(start, bs[..VectorStore.Accepted(bs)], store.policy);
    r := VectorStore.IndexRecords(records, embeddings, store, IndexBatch);
    if reset {
      VectorStore.UpdateTwice(before, VectorStore.CollectionName, map[], entries);
    }
  }

  /**
   * What one index pass did, from the store and session state before it to
   * the state after it: the gate decides between skipping and indexing; a
   * skip changes nothing; indexing empties the collection first when nothing
   * was pending and it held entries, then adds the accepted prefix of the
   * chunks, and only a complete pass records the signature and clears the
   * pending flag.
   */
  ghost predicate PassDone(outcome: IndexOutcome, records: seq<FileProcessor.Record>, view: FileView, countFails: bool,
                           embeddings: seq<seq<real>>, policy: VectorStore.DuplicatePolicy,
                           before: map<string, map<string, VectorStore.Entry>>, pendingBefore: bool, sigBefore: Option<Signature>,
                           after: map<string, map<string, VectorStore.Entry>>, pendingAfter: bool, sigAfter: Option<Signature>)
  {
    var count := if countFails then 0 else |VectorStore.Current(before)|;
    var sig := FileSignature(view.absPath, view.stat, |records|);
    var start := StartFrom(!pendingBefore && count > 0, before);
    var bs := VectorStore.BatchesFrom(records, embeddings, IndexBatch, 0);
    && (outcome.UpToDate? <==> !NeedIndex(pendingBefore, count, sigBefore, sig))
    && (outcome.UpToDate? ==> after == before)
    && (outcome.UpToDate? || outcome.IndexFailed? ==> sigAfter == sigBefore && pendingAfter == pendingBefore)
    && (outcome.Indexed? ==> sigAfter == Some(sig) && !pendingAfter)
    && (!outcome.UpToDate? ==>
          var k := VectorStore.Accepted(bs);
          && after == before[VectorStore.CollectionName := VectorStore.AddBatches(start, bs[..k], policy)]
          && (outcome.Indexed? <==> k == |bs|)
          && (outcome.Indexed? ==> outcome.total == |after[VectorStore.CollectionName]|))
  }

  /** The keys of `st.session_state` this part of the page keeps. */
  class Session {
    const dataDir: string
    var resumesReload: bool
    var currentSource: string
    var indexedSig: Option<Signature>
    var pendingReindex: bool

    /** The defaults of a new session: the bundled `Resume.csv`, nothing indexed. */
    constructor (dataDir: string)
      ensures this.dataDir == dataDir && currentSource == Join(dataDir, "Resume.csv")
      ensures !resumesReload && indexedSig == None && !pendingReindex
    {
      this.dataDir := dataDir;
      resumesReload := false;
      currentSource := Join(dataDir, "Resume.csv");
      indexedSig := None;
      pendingReindex := false;
    }

    /** The manual reset button: an empty collection and no indexed signature. */
    method ManualReset(store: VectorStore.Store)
      modifies this, store
      ensures indexedSig == None
      ensures pendingReindex == old(pendingReindex) && resumesReload == old(resumesReload)
      ensures currentSource == old(currentSource)
      ensures store.collections == old(store.collections)[VectorStore.CollectionName := map[]]
    {
      var _ := VectorStore.ResetCollection(store);
      indexedSig := None;
    }

    /** Point the session at a new file, empty the collection and ask for a reload and a re-index. */
    method Switch(target: string, store: VectorStore.Store)
      modifies this, store
      ensures currentSource == target && resumesReload && indexedSig == None && pendingReindex
      ensures store.collections == old(store.collections)[VectorStore.CollectionName := map[]]
    {
      currentSource := target;
      resumesReload := true;
      var _ := VectorStore.ResetCollection(store);
      indexedSig := None;
      pendingReindex := true;
    }

    /**
     * The upload events: a chosen file wins over a link; a link is followed
     * only when it is non-empty and its button was pressed, and a failed
     * download (`downloaded` false) changes nothing.
     */
    method Upload(file: Option<string>, url: string, button: bool, downloaded: bool, store: VectorStore.Store)
      modifies this, store
      ensures var target :=
        if file.Some? then Some(UploadTarget(dataDir, file.value))
        else if url != [] && button && downloaded then Some(UrlTarget(dataDir, url))
        else None;
        if target.Some? then
          && currentSource == target.value && resumesReload && indexedSig == None && pendingReindex
          && store.collections == old(store.collections)[VectorStore.CollectionName := map[]]
        else
          && currentSource == old(currentSource) && resumesReload == old(resumesReload)
          && indexedSig == old(indexedSig) && pendingReindex == old(pendingReindex)
          && store.collections == old(store.collections)
    {
      if file.Some? {
        Switch(UploadTarget(dataDir, file.value), store);
      } else if url != [] && button && downloaded {
        Switch(UrlTarget(dataDir, url), store);
      }
    }

    /** Load the current file; a pending reload (or a forced one) is consumed. */
    method LoadPass(forceFresh: bool, view: FileView, extract: string -> Option<string>)
      returns (records: seq<FileProcessor.Record>, stats: FileProcessor.Stats)
      modifies this
      ensures records == FileProcessor.LoadedRecords(view.pathExists, view.read, extract)
      ensures stats == FileProcessor.LoadedStats(currentSource, view.pathExists, view.read, extract)
      ensures !resumesReload
      ensures currentSource == old(currentSource) && indexedSig == old(indexedSig) && pendingReindex == old(pendingReindex)
    {
      if resumesReload || forceFresh {
        records, stats := FileProcessor.LoadResumesWithStats(currentSource, view.pathExists, view.read, extract);
        resumesReload := false;
      } else {
        records := FileProcessor.LoadResumes(currentSource, view.pathExists, view.read, extract);
        var _, s := FileProcessor.LoadResumesWithStats(currentSource, view.pathExists, view.read, extract);
        stats := s;
      }
    }

    /**
     * The index pass: count the collection (a failed count reads as 0), and
     * when re-indexing is needed, empty the collection unless a re-index was
     * already pending or it is empty, index the records, and remember the
     * file's signature.  `embeddings` are the vectors for the records' texts.
     */
    method IndexPass(records: seq<FileProcessor.Record>, view: FileView, countFails: bool,
                     embeddings: seq<seq<real>>, store: VectorStore.Store)
      returns (outcome: IndexOutcome)
      modifies this, store
      ensures currentSource == old(currentSource) && resumesReload == old(resumesReload)
      ensures PassDone(outcome, records, view, countFails, embeddings, store.policy,
                       old(store.collections), old(pendingReindex), old(indexedSig),
                       store.collections, pendingReindex, indexedSig)
    {
      ghost var before := store.collections;
      var count: nat := 0;
      if !countFails {
        count := VectorStore.Count(store);
      }
      ghost var counted := store.collections;
      assert VectorStore.Current(counted) == VectorStore.Current(before);
      var sig := FileSignature(view.absPath, view.stat, |records|);
      if !NeedIndex(pendingReindex, count, indexedSig, sig) {
        VectorStore.UpdateSame(before, VectorStore.CollectionName);
        return UpToDate;
      }
      var reset := !pendingReindex && count > 0;
      var total := Reindex(records, embeddings, store, reset);
      ghost var bs := VectorStore.BatchesFrom(records, embeddings, IndexBatch, 0);
      ghost var entries := VectorStore.AddBatches(StartFrom(reset, before), bs[..VectorStore.Accepted(bs)], store.policy);
      VectorStore.UpdateTwice(before, VectorStore.CollectionName, VectorStore.Current(before), entries);
      if total.Err? {
        return IndexFailed(total.error);
      }
      indexedSig := Some(sig);
      pendingReindex := false;
      outcome := Indexed(total.value);
    }

    /** One run of the page below the upload area: load, stop when nothing is usable, else the index pass. */
    method Render(forceFresh: bool, view: FileView, extract: string -> Option<string>, countFails: bool,
                  embeddings: seq<seq<real>>, store: VectorStore.Store)
      returns (outcome: RenderOutcome)
      modifies this, store
      ensures !resumesReload && currentSource == old(currentSource)
      ensures var records := FileProcessor.LoadedRecords(view.pathExists, view.read, extract);
        && (outcome.Stopped? <==> records == [])
        && (outcome.Stopped? ==>
              && outcome.stats == FileProcessor.LoadedStats(currentSource, view.pathExists, view.read, extract)
              && indexedSig == old(indexedSig) && pendingReindex == old(pendingReindex)
              && store.collections == old(store.collections))
        && (outcome.Ran? ==>
              PassDone(outcome.index, records, view, countFails, embeddings, store.policy,
                       old(store.collections), old(pendingReindex), old(indexedSig),
                       store.collections, pendingReindex, indexedSig))
    {
      var records, stats := LoadPass(forceFresh, view, extract);
      if records == [] {
        return Stopped(stats);
      }
      var index := IndexPass(records, view, countFails, embeddings, store);
      outcome := Ran(index);
    }
  }

  /**
   * After an index pass that wrote every record, the next run over the same
   * file finds a non-empty collection and a matching signature, so it does
   * not index again.
   */
  lemma IndexedThenUpToDate(start: map<string, VectorStore.Entry>, records: seq<FileProcessor.Record>,
                            embeddings: seq<seq<real>>, policy: VectorStore.DuplicatePolicy, sig: Signature)
    requires records != [] && |embeddings| >= |records|
    ensures var bs := VectorStore.BatchesFrom(records, embeddings, IndexBatch, 0);
      && VectorStore.Accepted(bs) == |bs|
      && var after := VectorStore.AddBatches(start, bs, policy);
         |after| > 0 && !NeedIndex(false, |after|, Some(sig), sig)
  {
    var bs := VectorStore.BatchesFrom(records, embeddings, IndexBatch, 0);
    VectorStore.IndexedKeys(start, records, embeddings, IndexBatch, policy);
    var after := VectorStore.AddBatches(start, bs, policy);
    var ids := VectorStore.RecordIds(records);
    assert ids[0] in VectorStore.IdSet(ids);
    assert ids[0] in after.Keys;
    VectorStore.MapCardIsKeysCard(after);
  }
}
