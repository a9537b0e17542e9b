/**
 * The vector-store adapter over an abstract persistent store.  The store
 * holds named collections, each a map from id to entry; what it does with an
 * id it already holds is not known, so it is a parameter (`policy`) and every
 * property below holds for both choices.  Nearest-neighbour search is the
 * store's business: its column-oriented answer is an oracle.
 */
module VectorStore {
  import opened Wrappers
  import FileProcessor

  const CollectionName: string := "cv_embeddings"

  datatype Entry = Entry(document: string, category: string, embedding: seq<real>)

  /** How the store treats an `add` of an id it already holds. */
  datatype DuplicatePolicy = Overwrite | KeepExisting

  /** The columns of one `col.add(ids=…, documents=…, metadatas=…, embeddings=…)` call. */
  datatype Batch = Batch(ids: seq<string>, documents: seq<string>, categories: seq<string>, embeddings: seq<seq<real>>)

  datatype StoreError = NoSuchCollection | CollectionExists | UnequalColumns

  /** Why `index_records` stopped: a zero step for `range`, or an `add` the store refused. */
  datatype IndexError = ZeroBatchSize | AddRefused(error: StoreError)

  predicate WellFormed(b: Batch)
  {
    |b.documents| == |b.ids| && |b.categories| == |b.ids| && |b.embeddings| == |b.ids|
  }

  /** One entry added under the store's policy. */
  function Put(entries: map<string, Entry>, id: string, e: Entry, policy: DuplicatePolicy): map<string, Entry>
  {
    if id in entries && policy == KeepExisting then entries else entries[id := e]
  }

  /** The entries after adding a well-formed batch, one item after the other. */
  function AddAll(entries: map<string, Entry>, b: Batch, policy: DuplicatePolicy): map<string, Entry>
    requires WellFormed(b)
    decreases |b.ids|
  {
    if b.ids == [] then entries
    else
      var last := |b.ids| - 1;
      Put(AddAll(entries, Batch(b.ids[..last], b.documents[..last], b.categories[..last], b.embeddings[..last]), policy),
          b.ids[last], Entry(b.documents[last], b.categories[last], b.embeddings[last]), policy)
  }

  /** The store: its collections by name, and (for the proofs) the log of accepted batches. */
  class Store {
    const policy: DuplicatePolicy
    var collections: map<string, map<string, Entry>>
    ghost var log: seq<Batch>

    constructor (policy: DuplicatePolicy, collections: map<string, map<string, Entry>>)
      ensures this.policy == policy && this.collections == collections && log == []
    {
      this.policy := policy;
      this.collections := collections;
      log := [];
    }

    /** `client.get_collection(name)`: fails when there is no such collection. */
    method Get(name: string) returns (r: Result<string, StoreError>)
      ensures r == if name in collections then Ok(name) else Err(NoSuchCollection)
    {
      r := if name in collections then Ok(name) else Err(NoSuchCollection);
    }

    /** `client.create_collection(name)`: a new, empty collection; fails when it exists. */
    method Create(name: string) returns (r: Result<string, StoreError>)
      modifies this
      ensures log == old(log)
      ensures name in old(collections) ==> r == Err(CollectionExists) && collections == old(collections)
      ensures name !in old(collections) ==> r == Ok(name) && collections == old(collections)[name := map[]]
    {
      if name in collections {
        return Err(CollectionExists);
      }
      collections := collections[name := map[]];
      r := Ok(name);
    }

    /** `client.delete_collection(name)`: fails when there is no such collection. */
    method Delete(name: string) returns (r: Result<(), StoreError>)
      modifies this
      ensures log == old(log)
      ensures r.Ok? <==> name in old(collections)
      ensures collections == old(collections) - {name}
    {
      if name !in collections {
        return Err(NoSuchCollection);
      }
      collections := collections - {name};
      r := Ok(());
    }

    /** `col.add(...)`: refuses columns of different lengths, else adds every item. */
    method Add(name: string, b: Batch) returns (r: Result<(), StoreError>)
      requires name in collections
      modifies this
      ensures r.Ok? <==> WellFormed(b)
      ensures r.Ok? ==> collections == old(collections)[name := AddAll(old(collections)[name], b, policy)]
                        && log == old(log) + [b]
      ensures r.Err? ==> r.error == UnequalColumns && collections == old(collections) && log == old(log)
    {
      if !WellFormed(b) {
        return Err(UnequalColumns);
      }
      collections := collections[name := AddAll(collections[name], b, policy)];
      log := log + [b];
      r := Ok(());
    }

    /** `col.count()`. */
    method Count(name: string) returns (n: nat)
      requires name in collections
      ensures n == |collections[name]|
    {
      n := |collections[name]|;
    }
  }

  // ------------------------------------------------------------ lifecycle

  /** `get_collection`: the existing collection, or a newly created one; never an error. */
  method GetCollection(client: Store) returns (col: string)
    modifies client
    ensures col == CollectionName && CollectionName in client.collections
    ensures client.collections ==
      if CollectionName in old(client.collections) then old(client.collections)
      else old(client.collections)[CollectionName := map[]]
    ensures client.collections == old(client.collections)[CollectionName := Current(old(client.collections))]
    ensures client.log == old(client.log)
  {
    var got := client.Get(CollectionName);
    if got.Ok? {
      UpdateSame(client.collections, CollectionName);
      return got.value;
    }
    var created := client.Create(CollectionName);
    col := created.value;
  }

  /** The entries of the collection, or none when it does not exist yet. */
  function Current(collections: map<string, map<string, Entry>>): map<string, Entry>
  {
    if CollectionName in collections then collections[CollectionName] else map[]
  }

  /** `reset_collection`: delete (ignoring a missing collection) and create it again, empty. */
  method ResetCollection(client: Store) returns (col: string)
    modifies client
    ensures col == CollectionName
    ensures client.collections == old(client.collections)[CollectionName := map[]]
    ensures client.log == old(client.log)
  {
    var _ := client.Delete(CollectionName);
    var created := client.Create(CollectionName);
    col := created.value;
  }

  /** `count`: the number of entries of the collection (created if missing). */
  method Count(client: Store) returns (n: nat)
    modifies client
    ensures CollectionName in client.collections && n == |client.collections[CollectionName]|
    ensures client.collections ==
      if CollectionName in old(client.collections) then old(client.collections)
      else old(client.collections)[CollectionName := map[]]
    ensures client.collections == old(client.collections)[CollectionName := Current(old(client.collections))]
    ensures n == |Current(old(client.collections))|
    ensures client.log == old(client.log)
  {
    var col := GetCollection(client);
    n := client.Count(col);
  }

  // ------------------------------------------------------------ indexing

  /** The `add` columns for the records `recs` and the vectors `embs`. */
  function MakeBatch(recs: seq<FileProcessor.Record>, embs: seq<seq<real>>): (b: Batch)
    ensures |b.ids| == |b.documents| == |b.categories| == |recs| && b.embeddings == embs
    ensures forall j :: 0 <= j < |recs| ==>
      b.ids[j] == FileProcessor.CellStr(recs[j].id) && b.documents[j] == recs[j].text && b.categories[j] == recs[j].category
  {
    Batch(seq(|recs|, j requires 0 <= j < |recs| => FileProcessor.CellStr(recs[j].id)),
          seq(|recs|, j requires 0 <= j < |recs| => recs[j].text),
          seq(|recs|, j requires 0 <= j < |recs| => recs[j].category),
          embs)
  }

  /** `embeddings[start:end]`: Python slicing clamps both bounds to the length. */
  function Slice<T>(s: seq<T>, start: nat, end: nat): seq<T>
  {
    if start >= |s| || end <= start then [] else s[start..Min(end, |s|)]
  }

  /** The batches `index_records` sends from offset `start` on. */
  function BatchesFrom(records: seq<FileProcessor.Record>, embeddings: seq<seq<real>>, size: nat, start: nat): seq<Batch>
    requires size >= 1
    decreases |records| - start
  {
    if start >= |records| then []
    else
      [ChunkAt(records, embeddings, size, start)] + BatchesFrom(records, embeddings, size, start + size)
  }

  /** How many of the batches the store accepts before the first one it refuses. */
  function Accepted(bs: seq<Batch>): (k: nat)
    ensures k <= |bs| && (forall j :: 0 <= j < k ==> WellFormed(bs[j])) && (k < |bs| ==> !WellFormed(bs[k]))
  {
    if bs == [] || !WellFormed(bs[0]) then 0 else 1 + Accepted(bs[1..])
  }

  function AddBatches(entries: map<string, Entry>, bs: seq<Batch>, policy: DuplicatePolicy): map<string, Entry>
    requires forall j :: 0 <= j < |bs| ==> WellFormed(bs[j])
    decreases |bs|
  {
    if bs == [] then entries else AddBatches(AddAll(entries, bs[0], policy), bs[1..], policy)
  }

  lemma {:induction false} AddBatchesSnoc(entries: map<string, Entry>, pre: seq<Batch>, b: Batch, policy: DuplicatePolicy)
    requires forall j :: 0 <= j < |pre| ==> WellFormed(pre[j])
    requires WellFormed(b)
    ensures forall j :: 0 <= j < |pre + [b]| ==> WellFormed((pre + [b])[j])
    ensures AddBatches(entries, pre + [b], policy) == AddAll(AddBatches(entries, pre, policy), b, policy)
    decreases |pre|
  {
    if pre != [] {
      assert (pre + [b])[1..] == pre[1..] + [b];
      AddBatchesSnoc(AddAll(entries, pre[0], policy), pre[1..], b, policy);
    }
  }

  lemma {:induction false} AcceptedAfter(pre: seq<Batch>, rest: seq<Batch>)
    requires forall j :: 0 <= j < |pre| ==> WellFormed(pre[j])
    ensures Accepted(pre + rest) == |pre| + Accepted(rest)
    decreases |pre|
  {
    if pre != [] {
      assert (pre + rest)[0] == pre[0] && WellFormed(pre[0]);
      assert (pre + rest)[1..] == pre[1..] + rest;
      AcceptedAfter(pre[1..], rest);
    } else {
      assert pre + rest == rest;
    }
  }

  lemma {:induction false} BatchesStep(records: seq<FileProcessor.Record>, embeddings: seq<seq<real>>, size: nat, start: nat, next: nat)
    requires size >= 1 && start < |records| && next == start + size
    ensures BatchesFrom(records, embeddings, size, start) == [ChunkAt(records, embeddings, size, start)] + BatchesFrom(records, embeddings, size, next)
  {
    var rest := BatchesFrom(records, embeddings, size, next);
    assert BatchesFrom(records, embeddings, size, start) == [ChunkAt(records, embeddings, size, start)] + rest;
  }

  /** Map facts the frame proofs of the store methods call on. */
  lemma UpdateSame<K, V>(m: map<K, V>, k: K)
    requires k in m
    ensures m[k := m[k]] == m
  {
  }

  lemma UpdateTwice<K, V>(m: map<K, V>, k: K, a: V, b: V)
    ensures m[k := a][k := b] == m[k := b]
  {
  }

  lemma AppendAssoc<T>(a: seq<T>, b: seq<T>, c: seq<T>)
    ensures a + b + c == a + (b + c)
  {
  }

  predicate AllWellFormed(bs: seq<Batch>)
  {
    forall j :: 0 <= j < |bs| ==> WellFormed(bs[j])
  }

  /** What one more chunk does to the bookkeeping of the chunk loop. */
  lemma {:induction false} ChunkStep(pre: seq<Batch>, todo: seq<Batch>, bs: seq<Batch>, chunk: Batch, rest: seq<Batch>)
    requires AllWellFormed(pre) && pre + todo == bs && todo == [chunk] + rest
    ensures WellFormed(chunk) ==> (pre + [chunk]) + rest == bs
    ensures !WellFormed(chunk) ==> Accepted(bs) == |pre| && bs[..|pre|] == pre
  {
    if WellFormed(chunk) {
      AppendAssoc(pre, [chunk], rest);
    } else {
      AcceptedAfter(pre, todo);
    }
  }

  lemma {:induction false} ChunksDone(pre: seq<Batch>, bs: seq<Batch>)
    requires AllWellFormed(pre) && pre + [] == bs
    ensures Accepted(bs) == |bs| && bs[..|bs|] == pre
  {
    AcceptedAfter(pre, []);
    assert pre == bs;
  }

  /** The chunk of `index_records` that starts at `start`. */
  function ChunkAt(records: seq<FileProcessor.Record>, embeddings: seq<seq<real>>, size: nat, start: nat): Batch
    requires start < |records|
  {
    var end := Min(start + size, |records|);
    MakeBatch(records[start..end], Slice(embeddings, start, end))
  }

  /** One `col.add` of the chunk loop. */
  method SendChunk(records: seq<FileProcessor.Record>, embeddings: seq<seq<real>>, client: Store, size: nat, start: nat)
    returns (ok: bool)
    requires start < |records| && CollectionName in client.collections
    modifies client
    ensures var chunk := ChunkAt(records, embeddings, size, start);
      && ok == WellFormed(chunk)
      && (ok ==> client.log == old(client.log) + [chunk]
                 && client.collections == old(client.collections)[CollectionName := AddAll(old(client.collections)[CollectionName], chunk, client.policy)])
      && (!ok ==> client.log == old(client.log) && client.collections == old(client.collections))
  {
    var end := Min(start + size, |records|);
    var added := client.Add(CollectionName, MakeBatch(records[start..end], Slice(embeddings, start, end)));
    ok := added.Ok?;
  }

  /** The store after the chunks `sent` were added to the collection, starting from `start` and `startLog`. */
  ghost predicate Sent(start: map<string, map<string, Entry>>, startLog: seq<Batch>,
                       now: map<string, map<string, Entry>>, nowLog: seq<Batch>, sent: seq<Batch>, policy: DuplicatePolicy)
    requires CollectionName in start && AllWellFormed(sent)
  {
    && now == start[CollectionName := AddBatches(start[CollectionName], sent, policy)]
    && nowLog == startLog + sent
  }

  lemma {:induction false} SentNothing(start: map<string, map<string, Entry>>, log: seq<Batch>, policy: DuplicatePolicy)
    requires CollectionName in start
    ensures AllWellFormed([]) && Sent(start, log, start, log, [], policy)
  {
    UpdateSame(start, CollectionName);
  }

  lemma {:induction false} SentOneMore(start: map<string, map<string, Entry>>, startLog: seq<Batch>,
                    mid: map<string, map<string, Entry>>, midLog: seq<Batch>,
                    now: map<string, map<string, Entry>>, nowLog: seq<Batch>,
                    sent: seq<Batch>, chunk: Batch, policy: DuplicatePolicy)
    requires CollectionName in start && AllWellFormed(sent) && WellFormed(chunk)
    requires Sent(start, startLog, mid, midLog, sent, policy)
    requires now == mid[CollectionName := AddAll(mid[CollectionName], chunk, policy)] && nowLog == midLog + [chunk]
    ensures AllWellFormed(sent + [chunk]) && Sent(start, startLog, now, nowLog, sent + [chunk], policy)
  {
    var entries := AddBatches(start[CollectionName], sent, policy);
    AddBatchesSnoc(start[CollectionName], sent, chunk, policy);
    UpdateTwice(start, CollectionName, entries, AddAll(entries, chunk, policy));
  }

  /** The loop of `index_records`: send each chunk, stop at the first one the store refuses. */
  method AddChunks(records: seq<FileProcessor.Record>, embeddings: seq<seq<real>>, client: Store, batch: nat)
    returns (ok: bool)
    requires batch >= 1 && CollectionName in client.collections
    modifies client
    ensures var bs := BatchesFrom(records, embeddings, batch, 0);
      var k := Accepted(bs);
      && ok == (k == |bs|)
      && client.log == old(client.log) + bs[..k]
      && client.collections ==
           old(client.collections)[CollectionName := AddBatches(old(client.collections)[CollectionName], bs[..k], client.policy)]
  {
    ghost var bs := BatchesFrom(records, embeddings, batch, 0);
    ghost var pre: seq<Batch> := [];
    ghost var todo := bs;
    SentNothing(client.collections, client.log, client.policy);
    assert pre + todo == bs;
    var start: nat := 0;
    while start < |records|
      invariant CollectionName in client.collections
      invariant AllWellFormed(pre) && pre + todo == bs
      invariant todo == BatchesFrom(records, embeddings, batch, start)
      invariant Sent(old(client.collections), old(client.log), client.collections, client.log, pre, client.policy)
      decreases |records| - start
    {
      var next := start + batch;
      ghost var chunk := ChunkAt(records, embeddings, batch, start);
      ghost var rest := BatchesFrom(records, embeddings, batch, next);
      BatchesStep(records, embeddings, batch, start, next);
      ChunkStep(pre, todo, bs, chunk, rest);
      ghost var mid, midLog := client.collections, client.log;
      var sent := SendChunk(records, embeddings, client, batch, start);
      if !sent {
        return false;
      }
      SentOneMore(old(client.collections), old(client.log), mid, midLog, client.collections, client.log, pre, chunk, client.policy);
      pre, todo := pre + [chunk], rest;
      start := next;
    }
    ChunksDone(pre, bs);
    ok := true;
  }

  /**
   * `index_records`: make sure the collection exists, send the records and
   * their vectors in chunks `[start, min(start + batch, N))` for `start` in
   * `range(0, N, batch)`, and return the collection's count.  Nothing checks
   * that there are as many vectors as records: a short chunk is refused by
   * the store, after the earlier chunks were written.
   */
  method IndexRecords(records: seq<FileProcessor.Record>, embeddings: seq<seq<real>>, client: Store, batch: int)
    returns (r: Result<nat, IndexError>)
    modifies client
    ensures CollectionName in client.collections
    ensures var before := Current(old(client.collections));
      && (batch == 0 ==>
            (r == Err(ZeroBatchSize)
             && client.collections == old(client.collections)[CollectionName := before] && client.log == old(client.log)))
      && (batch < 0 ==>
            (r == Ok(|before|)
             && client.collections == old(client.collections)[CollectionName := before] && client.log == old(client.log)))
      && (batch > 0 ==>
            var bs := BatchesFrom(records, embeddings, batch, 0);
            var k := Accepted(bs);
            && client.log == old(client.log) + bs[..k]
            && client.collections == old(client.collections)[CollectionName := AddBatches(before, bs[..k], client.policy)]
            && r == if k < |bs| then Err(AddRefused(UnequalColumns)) else Ok(|client.collections[CollectionName]|))
  {
    ghost var start := client.collections;
    ghost var before := Current(start);
    var col := GetCollection(client);
    if batch == 0 {
      return Err(ZeroBatchSize);
    }
    if batch > 0 {
      ghost var bs := BatchesFrom(records, embeddings, batch, 0);
      ghost var k := Accepted(bs);
      var ok := AddChunks(records, embeddings, client, batch);
      UpdateTwice(start, CollectionName, before, AddBatches(before, bs[..k], client.policy));
      if !ok {
        return Err(AddRefused(UnequalColumns));
      }
    }
    var count := client.Count(col);
    r := Ok(count);
  }

  // ------------------------------------------------------------ what indexing covers

  /** The four columns of several batches laid end to end. */
  function Concat(a: Batch, b: Batch): Batch
  {
    Batch(a.ids + b.ids, a.documents + b.documents, a.categories + b.categories, a.embeddings + b.embeddings)
  }

  function Flat(bs: seq<Batch>): Batch
  {
    if bs == [] then Batch([], [], [], []) else Concat(bs[0], Flat(bs[1..]))
  }

  lemma {:induction false} SliceSplit<T>(s: seq<T>, lo: nat, mid: nat, hi: nat)
    requires lo <= mid <= hi
    ensures Slice(s, lo, mid) + Slice(s, mid, hi) == Slice(s, lo, hi)
  {
  }

  lemma {:induction false} FlatCons(b: Batch, rest: seq<Batch>)
    ensures Flat([b] + rest) == Concat(b, Flat(rest))
  {
    assert ([b] + rest)[1..] == rest;
  }

  /** A batch built from records `start..n` is the chunk up to `end` followed by the rest. */
  lemma {:induction false} ChunkThenTail(records: seq<FileProcessor.Record>, embeddings: seq<seq<real>>, start: nat, end: nat)
    requires start <= end <= |records|
    ensures MakeBatch(records[start..], Slice(embeddings, start, |records|))
      == Concat(MakeBatch(records[start..end], Slice(embeddings, start, end)),
                MakeBatch(records[end..], Slice(embeddings, end, |records|)))
  {
    var n := |records|;
    var e1, e2 := Slice(embeddings, start, end), Slice(embeddings, end, n);
    assert e1 + e2 == Slice(embeddings, start, n) by {
      SliceSplit(embeddings, start, end, n);
    }
    var whole := MakeBatch(records[start..], e1 + e2);
    var left, right := MakeBatch(records[start..end], e1), MakeBatch(records[end..], e2);
    var m := end - start;
    forall j | 0 <= j < n - start
      ensures whole.ids[j] == (left.ids + right.ids)[j]
      ensures whole.documents[j] == (left.documents + right.documents)[j]
      ensures whole.categories[j] == (left.categories + right.categories)[j]
    {
      assert records[start..][j] == records[start + j];
      if j < m {
        assert records[start..end][j] == records[start + j];
      } else {
        assert records[end..][j - m] == records[start + j];
      }
    }
    assert whole.ids == left.ids + right.ids;
    assert whole.documents == left.documents + right.documents;
    assert whole.categories == left.categories + right.categories;
  }

  /**
   * The chunks cover the records exactly once and in order, record j travelling
   * with the vector at the same position (when there is one).
   */
  lemma {:induction false} BatchesCover(records: seq<FileProcessor.Record>, embeddings: seq<seq<real>>, size: nat, start: nat)
    requires size >= 1 && start <= |records|
    ensures Flat(BatchesFrom(records, embeddings, size, start)) == MakeBatch(records[start..], Slice(embeddings, start, |records|))
    decreases |records| - start
  {
    var n := |records|;
    if start < n {
      var next := start + size;
      var end := Min(next, n);
      BatchesStep(records, embeddings, size, start, next);
      var rest := BatchesFrom(records, embeddings, size, next);
      if next < n {
        BatchesCover(records, embeddings, size, next);
      } else {
        assert rest == [];
        assert records[end..] == [];
      }
      assert Flat(rest) == MakeBatch(records[end..], Slice(embeddings, end, n));
      FlatCons(ChunkAt(records, embeddings, size, start), rest);
      ChunkThenTail(records, embeddings, start, end);
    } else {
      assert MakeBatch(records[start..], Slice(embeddings, start, n)) == Batch([], [], [], []);
    }
  }

  /** Each chunk holds between one and `size` records. */
  lemma {:induction false} BatchSizes(records: seq<FileProcessor.Record>, embeddings: seq<seq<real>>, size: nat, start: nat)
    requires size >= 1
    ensures var bs := BatchesFrom(records, embeddings, size, start);
      forall k :: 0 <= k < |bs| ==> 1 <= |bs[k].ids| <= size
    decreases |records| - start
  {
    if start < |records| {
      var next := start + size;
      BatchesStep(records, embeddings, size, start, next);
      BatchSizes(records, embeddings, size, next);
    }
  }

  /**
   * The store accepts every chunk exactly when there is a vector for every
   * record; otherwise it refuses the first chunk that runs short.
   */
  lemma {:induction false} AllAcceptedIffEnoughVectors(records: seq<FileProcessor.Record>, embeddings: seq<seq<real>>, size: nat, start: nat)
    requires size >= 1 && start < |records|
    ensures var bs := BatchesFrom(records, embeddings, size, start);
      Accepted(bs) == |bs| <==> |embeddings| >= |records|
    decreases |records| - start
  {
    var n := |records|;
    var next := start + size;
    var end := Min(next, n);
    BatchesStep(records, embeddings, size, start, next);
    var rest := BatchesFrom(records, embeddings, size, next);
    var chunk := MakeBatch(records[start..end], Slice(embeddings, start, end));
    var bs := [chunk] + rest;
    assert bs[1..] == rest;
    assert WellFormed(chunk) <==> |embeddings| >= end;
    if next < n {
      AllAcceptedIffEnoughVectors(records, embeddings, size, next);
    } else {
      assert rest == [];
    }
  }

  function IdSet(ids: seq<string>): set<string>
  {
    set j | 0 <= j < |ids| :: ids[j]
  }

  lemma {:induction false} AddAllKeys(entries: map<string, Entry>, b: Batch, policy: DuplicatePolicy)
    requires WellFormed(b)
    ensures AddAll(entries, b, policy).Keys == entries.Keys + IdSet(b.ids)
    decreases |b.ids|
  {
    if b.ids != [] {
      var last := |b.ids| - 1;
      var front := Batch(b.ids[..last], b.documents[..last], b.categories[..last], b.embeddings[..last]);
      AddAllKeys(entries, front, policy);
      assert IdSet(b.ids) == IdSet(front.ids) + {b.ids[last]};
    }
  }

  lemma {:induction false} AddBatchesKeys(entries: map<string, Entry>, bs: seq<Batch>, policy: DuplicatePolicy)
    requires forall j :: 0 <= j < |bs| ==> WellFormed(bs[j])
    ensures AddBatches(entries, bs, policy).Keys == entries.Keys + IdSet(Flat(bs).ids)
    decreases |bs|
  {
    if bs != [] {
      AddAllKeys(entries, bs[0], policy);
      AddBatchesKeys(AddAll(entries, bs[0], policy), bs[1..], policy);
      IdSetAppend(bs[0].ids, Flat(bs[1..]).ids);
    }
  }

  lemma {:induction false} IdSetAppend(a: seq<string>, b: seq<string>)
    ensures IdSet(a + b) == IdSet(a) + IdSet(b)
  {
    forall x | x in IdSet(a) ensures x in IdSet(a + b) {
      var j :| 0 <= j < |a| && a[j] == x;
      assert (a + b)[j] == x;
    }
    forall x | x in IdSet(a + b) ensures x in IdSet(a) + IdSet(b) {
      var j :| 0 <= j < |a + b| && (a + b)[j] == x;
      if j >= |a| {
        assert b[j - |a|] == x;
      }
    }
    forall x | x in IdSet(b) ensures x in IdSet(a + b) {
      var j :| 0 <= j < |b| && b[j] == x;
      assert (a + b)[|a| + j] == x;
    }
  }

  /** The ids `index_records` writes for these records: `str(ID)` of each, in order. */
  function RecordIds(records: seq<FileProcessor.Record>): seq<string>
  {
    MakeBatch(records, []).ids
  }

  /**
   * When every chunk is accepted, the collection then holds exactly its
   * earlier ids and the ids of the records, whatever the store does with
   * an id it already holds.
   */
  lemma IndexedKeys(before: map<string, Entry>, records: seq<FileProcessor.Record>, embeddings: seq<seq<real>>, size: nat, policy: DuplicatePolicy)
    requires size >= 1 && |embeddings| >= |records|
    ensures var bs := BatchesFrom(records, embeddings, size, 0);
      && Accepted(bs) == |bs|
      && AddBatches(before, bs, policy).Keys == before.Keys + IdSet(RecordIds(records))
  {
    var bs := BatchesFrom(records, embeddings, size, 0);
    if |records| > 0 {
      AllAcceptedIffEnoughVectors(records, embeddings, size, 0);
    }
    BatchesCover(records, embeddings, size, 0);
    AddBatchesKeys(before, bs, policy);
    assert records[0..] == records;
  }

  /** Indexing the same records a second time leaves the count where the first pass left it. */
  lemma ReindexKeepsCount(before: map<string, Entry>, records: seq<FileProcessor.Record>, embeddings: seq<seq<real>>, size: nat, policy: DuplicatePolicy)
    requires size >= 1 && |embeddings| >= |records|
    ensures var bs := BatchesFrom(records, embeddings, size, 0);
      && Accepted(bs) == |bs|
      && |AddBatches(AddBatches(before, bs, policy), bs, policy)| == |AddBatches(before, bs, policy)|
  {
    var bs := BatchesFrom(records, embeddings, size, 0);
    IndexedKeys(before, records, embeddings, size, policy);
    var once := AddBatches(before, bs, policy);
    IndexedKeys(once, records, embeddings, size, policy);
    assert AddBatches(once, bs, policy).Keys == once.Keys;
    MapCardIsKeysCard(once);
    MapCardIsKeysCard(AddBatches(once, bs, policy));
  }

  lemma MapCardIsKeysCard<K, V>(m: map<K, V>)
    ensures |m| == |m.Keys|
  {
  }

  predicate Distinct(ids: seq<string>)
  {
    forall i, j :: 0 <= i < j < |ids| ==> ids[i] != ids[j]
  }

  lemma {:induction false} DistinctCard(ids: seq<string>)
    requires Distinct(ids)
    ensures |IdSet(ids)| == |ids|
    decreases |ids|
  {
    if ids != [] {
      var last := |ids| - 1;
      DistinctCard(ids[..last]);
      IdSetAppend(ids[..last], [ids[last]]);
      assert ids[..last] + [ids[last]] == ids;
      assert IdSet([ids[last]]) == {ids[last]};
      assert ids[last] !in IdSet(ids[..last]);
    }
  }

  /** Records with distinct ids that are new to the collection raise its count by their number. */
  lemma FreshIdsAddUp(before: map<string, Entry>, records: seq<FileProcessor.Record>, embeddings: seq<seq<real>>, size: nat, policy: DuplicatePolicy)
    requires size >= 1 && |embeddings| >= |records|
    requires Distinct(RecordIds(records))
    requires forall j :: 0 <= j < |records| ==> RecordIds(records)[j] !in before
    ensures var bs := BatchesFrom(records, embeddings, size, 0);
      && Accepted(bs) == |bs|
      && |AddBatches(before, bs, policy)| == |before| + |records|
  {
    var ids := RecordIds(records);
    IndexedKeys(before, records, embeddings, size, policy);
    DistinctCard(ids);
    assert before.Keys !! IdSet(ids);
    MapCardIsKeysCard(before);
    MapCardIsKeysCard(AddBatches(before, BatchesFrom(records, embeddings, size, 0), policy));
  }

  // ------------------------------------------------------------ query

  datatype QueryRequest = QueryRequest(queryEmbeddings: seq<seq<real>>, nResults: int, where: Option<map<string, string>>)

  /** The store's column-oriented answer: one row per query vector. */
  datatype QueryResult = QueryResult(
    ids: seq<seq<string>>,
    documents: seq<seq<Option<string>>>,
    metadatas: seq<seq<Option<map<string, string>>>>,
    distances: Option<seq<seq<real>>>)

  datatype Hit = Hit(id: string, document: Option<string>, metadata: Option<map<string, string>>, distance: Option<real>)

  /** A lookup `res[...][0][i]` past the end of a list. */
  datatype QueryError = IndexOutOfRange

  /** The keyword arguments of `col.query`: a filter is passed only when it is non-empty. */
  function Request(embedding: seq<real>, topK: int, where: Option<map<string, string>>): (q: QueryRequest)
    ensures q.queryEmbeddings == [embedding] && q.nResults == topK
    ensures q.where.Some? <==> where.Some? && where.value != map[]
    ensures q.where.Some? ==> q.where == where
  {
    QueryRequest([embedding], topK, if where.Some? && where.value != map[] then where else None)
  }

  /**
   * Every lookup of the hit loop lands inside its list.  The loop runs over
   * the first id row, so when that row is empty nothing else is looked at.
   */
  predicate Answers(res: QueryResult)
  {
    && |res.ids| >= 1
    && (|res.ids[0]| > 0 ==>
          && |res.documents| >= 1 && |res.metadatas| >= 1
          && |res.documents[0]| >= |res.ids[0]| && |res.metadatas[0]| >= |res.ids[0]|
          && (res.distances.Some? ==> |res.distances.value| >= 1 && |res.distances.value[0]| >= |res.ids[0]|))
  }

  /** Hit i takes the i-th id, document, metadata and distance of the first row. */
  predicate HitsFor(res: QueryResult, hits: seq<Hit>)
    requires Answers(res)
  {
    && |hits| == |res.ids[0]|
    && forall i :: 0 <= i < |hits| ==>
         hits[i] == Hit(res.ids[0][i], res.documents[0][i], res.metadatas[0][i],
                        if res.distances.None? then None else Some(res.distances.value[0][i]))
  }

  /** The hit loop of `query`, with no distance when the answer carries none. */
  method AssembleHits(res: QueryResult) returns (r: Result<seq<Hit>, QueryError>)
    ensures r.Ok? <==> Answers(res)
    ensures r.Ok? ==> HitsFor(res, r.value)
  {
    if |res.ids| == 0 {
      return Err(IndexOutOfRange);
    }
    var ids := res.ids[0];
    if ids == [] {
      return Ok([]);
    }
    if |res.documents| == 0 || |res.metadatas| == 0 || (res.distances.Some? && |res.distances.value| == 0) {
      return Err(IndexOutOfRange);
    }
    var hits: seq<Hit> := [];
    var i := 0;
    while i < |ids|
      invariant 0 <= i <= |ids| && |hits| == i
      invariant i <= |res.documents[0]| && i <= |res.metadatas[0]|
      invariant res.distances.Some? ==> i <= |res.distances.value[0]|
      invariant forall k :: 0 <= k < i ==>
        hits[k] == Hit(ids[k], res.documents[0][k], res.metadatas[0][k],
                       if res.distances.None? then None else Some(res.distances.value[0][k]))
    {
      if i >= |res.documents[0]| || i >= |res.metadatas[0]|
         || (res.distances.Some? && i >= |res.distances.value[0]|) {
        return Err(IndexOutOfRange);
      }
      var distance := if res.distances.None? then None else Some(res.distances.value[0][i]);
      hits := hits + [Hit(ids[i], res.documents[0][i], res.metadatas[0][i], distance)];
      i := i + 1;
    }
    r := Ok(hits);
  }

  /**
   * `query`: ask the collection (created if missing) for the `topK` nearest
   * entries to one vector, then turn the answer's first row into hits.
   */
  method Query(client: Store, queryText: string, embedding: seq<real>, topK: int, where: Option<map<string, string>>,
               answer: (map<string, Entry>, QueryRequest) -> QueryResult)
    returns (r: Result<seq<Hit>, QueryError>)
    modifies client
    ensures CollectionName in client.collections
    ensures client.collections ==
      if CollectionName in old(client.collections) then old(client.collections)
      else old(client.collections)[CollectionName := map[]]
    ensures var res := answer(client.collections[CollectionName], Request(embedding, topK, where));
      && (r.Ok? <==> Answers(res))
      && (r.Ok? ==> HitsFor(res, r.value))
  {
    var col := GetCollection(client);
    var res := answer(client.collections[col], Request(embedding, topK, where));
    r := AssembleHits(res);
  }

  /**
   * The distance lookup as written: a missing `distances` entry falls back to
   * `[[None]]`, a list of ONE element, so only hit 0 finds its distance.
   */
  function DistanceAsWritten(res: QueryResult, i: nat): Result<Option<real>, QueryError>
  {
    match res.distances
    case None => if i == 0 then Ok(None) else Err(IndexOutOfRange)
    case Some(d) => if |d| >= 1 && i < |d[0]| then Ok(Some(d[0][i])) else Err(IndexOutOfRange)
  }

  /** An answer with an empty id row gives no hits, whatever its other columns hold. */
  lemma EmptyRowNoHits(res: QueryResult)
    requires |res.ids| >= 1 && res.ids[0] == []
    ensures Answers(res) && HitsFor(res, [])
  {
  }

  /**
   * An answer without distances and with two ids: the lookup as written fails
   * on the second hit, where the hit loop above yields both hits with no distance.
   */
  lemma DistanceAsWrittenFailsOnSecondHit()
    ensures var res := QueryResult([["a", "b"]], [[Some("x"), Some("y")]], [[None, None]], None);
      && DistanceAsWritten(res, 1) == Err(IndexOutOfRange)
      && Answers(res)
      && HitsFor(res, [Hit("a", Some("x"), None, None), Hit("b", Some("y"), None, None)])
  {
  }
}
