# CV analyser core in Dafny

A model of the resume-ingestion and retrieval core of a CV analyser, with
proofs about it. The analyser:

- loads a CSV/XLSX export of resumes;
- normalises its columns through alias lists;
- derives one text per resume, from the plain-text column or, failing that,
  from the HTML;
- embeds the texts through a corporate embedding service, with batching,
  retries and exponential backoff, or through a local TF-IDF embedder;
- writes them into a vector-store collection;
- re-indexes when a re-index is pending, when the collection is empty or
  cannot be counted, or when the file's signature (path, modification time,
  size, record count) differs from the one last indexed;
- packs the retrieved hits into a bounded context for a chat model.

| file | module | what it models |
|---|---|---|
| `wrappers.dfy` | `Wrappers` | `Option` and `Result` |
| `pytext.dfy` | `PyText` | Python's `str.strip`, `str.split()` / `" ".join` whitespace collapse, ASCII `lower` |
| `file_processor.dfy` | `FileProcessor` | `_normalize_cols`, `html_to_text`, `_row_to_record`, `load_resumes_with_stats`, `load_resumes` |
| `corp_embeddings.dfy` | `CorpEmbeddings` | `CorporateEmbeddingClient`: construction, `_post_once`, `embed_texts`, `embed_query` |
| `embeddings.dfy` | `Embeddings` | `OfflineEmbedder` (a class: `fit` updates its fields, `embed` reads them) |
| `vector_store.dfy` | `VectorStore` | the store as a class over a map of collections; `get_collection`, `reset_collection`, `index_records`, `query`, `count` |
| `app.dfy` | `App` | the session state of the front end (a class), `file_signature`, the upload and manual-reset events, the load pass and the `need_index` gate |
| `summarizer.dfy` | `Summarizer` | `build_context_snippets` |

## How the outside world is modelled

- **Files and tables.** Reading a file is outside the model. The loader takes:
  - the answer of `os.path.exists`;
  - a `ReadOutcome`, which is either the table `_read_any` produced (column names, and rows of cells that are `NaN` or a text) or the failure message.
- **HTML parsing.** The HTML parser is a function `extract: string -> Option<string>`. It stands for BeautifulSoup's `get_text` after script and style elements are dropped; `None` stands for an exception. Only the whitespace collapse that follows it is modelled.
- **Embedding HTTP service.** The service is an oracle `(payload, n) -> Reply`, the reply to the run's n-th POST. A reply is:
  - `Failed`, for a transport error, an HTTP error status or an unparsable body;
  - or a JSON body.
- **Sleeps.** Sleeps are not performed. They are recorded as a sequence of delays in half-second units, so 0.5 s is 1 and 8 s is 16.
- **Vector store.**
  - The store is a class whose `collections` field maps a name to a map from id to entry.
  - What the store does with an id it already holds is not known, so it is a constant of the store (`Overwrite` or `KeepExisting`). Every property of indexing below holds for both.
  - Nearest-neighbour search is an oracle from the collection's entries and the request to the store's column-oriented answer.
  - The store refuses an `add` whose columns differ in length. This is the only store failure modelled.
- **Front end.** The Streamlit session state is a `Session` object:
  - events arrive as parameters (the chosen file, the link, the button, whether the download succeeded);
  - what the operating system says about the current file is a `FileView`.

## Model

| member | source | states |
|---|---|---|
| PyText.StripEmptyIffBlank | backend/file_processor.py:98 | `str(s).strip()` is empty exactly when every character of `s` is Python whitespace |
| PyText.Strip | backend/file_processor.py:98-101 | `strip()` leaves no whitespace at either end |
| PyText.StripIsMiddle | backend/file_processor.py:98-101 | `s.strip()` is the slice of `s` that starts after its leading whitespace and is followed only by whitespace |
| PyText.Collapse | backend/file_processor.py:16 | `" ".join(text.split())` has the same words as `text`, in the same order |
| PyText.CollapseIsCollapsed | backend/file_processor.py:16 | `" ".join(text.split())` has no leading or trailing whitespace, and its only whitespace is single spaces between words |
| PyText.CollapseIdempotent | backend/file_processor.py:16 | collapsing twice is the same as collapsing once |
| PyText.CollapseFixedIffCollapsed | backend/file_processor.py:16 | a text is left unchanged by the collapse exactly when it is already collapsed |
| PyText.CollapsedIsFixed | backend/file_processor.py:16 | collapsing text that is already collapsed gives it back |
| PyText.SplitJoinSpace | backend/file_processor.py:16 | splitting a space-joined list of words gives the words back |
| FileProcessor.FindCol | backend/file_processor.py:76-80 | `find_col` gives nothing exactly when no candidate is a column name; otherwise it gives the first candidate, in list order, that is one |
| FileProcessor.NormalizeCols | backend/file_processor.py:65-92 | each canonical column (ID, Resume_html, Resume_str, Category) is present exactly when one of its aliases matches a lower-cased input name; a present column's cells are read from the column of the earliest alias in its list that is present; an absent column reads as NaN; the frame has the input's rows when some column resolved and none otherwise |
| FileProcessor.HtmlToText | backend/file_processor.py:10-18 | the text derived from HTML has the parser's words, in order, and is whitespace-collapsed; it is "" when the parser raises |
| FileProcessor.HtmlToTextStable | backend/file_processor.py:15-16 | collapsing the derived text again changes nothing |
| FileProcessor.DerivedText | backend/file_processor.py:98-101 | a non-blank Resume_str gives its stripped form, which is non-empty; otherwise the text is the one derived from the HTML; either way it has no whitespace at either end |
| FileProcessor.RowToRecord | backend/file_processor.py:94-108 | the ID is passed through; a non-blank Resume_str gives its stripped form (non-empty); otherwise the text derived from the HTML, or from "" when the HTML is NaN; the text has no whitespace at either end; Category and Resume_html become "" when NaN |
| FileProcessor.CountBounds | backend/file_processor.py:172-178 | the missing-ID and any-text counts are at most the row count; the HTML and Resume_str counts are at most any-text, which is at most their sum |
| FileProcessor.SelectBound | backend/file_processor.py:180-190 | no more records than rows with any text |
| FileProcessor.FilterIndicesExact | backend/file_processor.py:181-190 | the positions kept by a filter are in range, strictly increasing, and are exactly those that pass it |
| FileProcessor.KeptIndicesExact | backend/file_processor.py:181-190 | the kept positions are exactly the rows whose ID is not NaN, that have a non-blank text column, and whose derived text is non-empty |
| FileProcessor.SelectIsOrderedSubsequence | backend/file_processor.py:180-190 | the records are the kept rows, each exactly once and in row order, with no deduplication |
| FileProcessor.BlankIdCountedMissingButUsed | backend/file_processor.py:172-190 | a whitespace-only ID is counted as missing and still yields a record, so missing-ID rows and used rows can overlap |
| FileProcessor.LoadedStatsConsistent | backend/file_processor.py:110-202 | on every path: rows with and without text add up to the total; missing IDs are at most the total; rows used equal the records returned and are at most the rows with text; any-text lies between each per-column count and their sum; per-column counts appear only on the normal path; an error appears exactly on a read failure or missing columns |
| FileProcessor.LoadResumesWithStats | backend/file_processor.py:110-202 | the counting pass and the record pass yield exactly the records and statistics the load specification gives, early exits included |
| FileProcessor.LoadFrame | backend/file_processor.py:138-202 | once the frame is normalised, the records and statistics are those of the load specification: an empty frame and missing columns exit early with no records |
| FileProcessor.CountRows | backend/file_processor.py:164-178 | the counting loop's four counters equal the missing-ID, HTML, Resume_str and any-text counts of the rows |
| FileProcessor.BuildRecords | backend/file_processor.py:180-190 | the record loop appends exactly the records of the kept rows, in order |
| FileProcessor.LoadResumes | backend/file_processor.py:204-205 | `load_resumes` gives the same records as `load_resumes_with_stats` |
| CorpEmbeddings.RStripSlash | backend/corp_embeddings.py:21 | `rstrip("/")` is the longest prefix that does not end in "/", and only slashes were removed |
| CorpEmbeddings.NewClient | backend/corp_embeddings.py:21-35 | an empty key is refused before the base is looked at; an empty base (after stripping slashes) is refused next; on success retries is `max(0, retries)`, the batch size is `max(1, batch_size)` and the URL is the stripped base plus "/embeddings" |
| CorpEmbeddings.PostOnceShapes | backend/corp_embeddings.py:42-62 | the three response shapes in order (an object with a list `data`, giving each row's `embedding` or null; a non-empty list whose first element is a list, returned as is; an object with `embeddings`), and a refusal for anything else, including a failed request |
| CorpEmbeddings.EmptyListRefused | backend/corp_embeddings.py:56-62 | an empty JSON list is not an accepted answer |
| CorpEmbeddings.Attempt | backend/corp_embeddings.py:77-79 | an attempt succeeds exactly when the response is accepted and has one vector per input |
| CorpEmbeddings.TryOnce | backend/corp_embeddings.py:77-80 | the body of the `try` yields the outcome of one attempt: the response's vectors when there is one per input, else the refusal or the count-mismatch error |
| CorpEmbeddings.PostWithRetry | backend/corp_embeddings.py:73-87 | the retry loop for one batch yields the result, post count and delays of the retry specification |
| CorpEmbeddings.EmbedTexts | backend/corp_embeddings.py:64-88 | the batch loop yields the vectors or error, every payload posted in order, and every delay slept, as the run specification gives them |
| CorpEmbeddings.EmbedQuery | backend/corp_embeddings.py:90-92 | `embed_query(t)` is the first vector of `embed_texts([t])` and fails when that fails |
| CorpEmbeddings.DelayValues | backend/corp_embeddings.py:74-87 | the delays of one batch are 0.5, 1, 2, 4 and then 8 seconds forever |
| CorpEmbeddings.RunChunkAttempts | backend/corp_embeddings.py:73-87 | a batch is posted at least once and at most `retries + 1` times; every attempt before the last failed; the result is the last attempt's; an error means every attempt was used; the k-th delay is 0.5 s doubled k times, capped at 8 s, starting afresh for each batch |
| CorpEmbeddings.RunFromSucceeds | backend/corp_embeddings.py:78-88 | a successful run returns exactly one vector per input text |
| CorpEmbeddings.NumChunksIsCeiling | backend/corp_embeddings.py:66 | the number of batches is the ceiling of the text count over the batch size |
| CorpEmbeddings.ChunksCover | backend/corp_embeddings.py:66-67 | the batches are consecutive slices that, laid end to end, give the texts back; there are ceiling(n / batch size) of them |
| CorpEmbeddings.RunFromPostCount | backend/corp_embeddings.py:66-87 | a run posts at most `(retries + 1)` times the number of batches |
| CorpEmbeddings.RunFromPayloads | backend/corp_embeddings.py:68-72 | every payload posted carries the client's provider and model and a non-empty slice of at most the batch size |
| CorpEmbeddings.RunFromAllAnswered | backend/corp_embeddings.py:64-88 | when every attempt succeeds, each batch is posted once, in order, with no delay |
| CorpEmbeddings.FailTwiceThenSucceed | backend/corp_embeddings.py:73-87 | two failures and then a success give three posts, delays of 0.5 s and 1 s, and the vectors |
| CorpEmbeddings.AlwaysMismatched | backend/corp_embeddings.py:78-85 | an answer of the wrong length is retried until the attempts run out, then the count-mismatch error is raised |
| Embeddings.Pad | backend/embeddings.py:21-23 | a vector is kept as its prefix and followed by zeros up to the width; a longer vector is left as it is |
| Embeddings.OfflineEmbedder.constructor | backend/embeddings.py:7-10 | a new embedder is unfitted and has no matrix |
| Embeddings.OfflineEmbedder.Fit | backend/embeddings.py:12-14 | `fit` succeeds exactly when the vectoriser does; the embedder is then fitted and holds the matrix the vectoriser returned; when the vectoriser raises (an empty corpus or no terms), the embedder is left as it was |
| Embeddings.OfflineEmbedder.Embed | backend/embeddings.py:16-24 | `embed` fails exactly when the embedder is unfitted or has no matrix; otherwise it gives the transformed vector zero-padded to the matrix's column count; it changes nothing |
| Embeddings.OfflineEmbedder.EmbedBatch | backend/embeddings.py:26-27 | one row per text, in order, each the text's embedding; an unfitted embedder fails; stacking refuses an empty list and rows of different lengths |
| VectorStore.GetCollection | backend/vector_store.py:19-24 | the existing collection, or a new empty one when it is missing; never an error |
| VectorStore.ResetCollection | backend/vector_store.py:26-31 | the collection is empty afterwards, whether or not it existed; the delete error is ignored |
| VectorStore.Count | backend/vector_store.py:81-84 | the number of entries of the collection, which is created when missing |
| VectorStore.IndexRecords | backend/vector_store.py:33-50 | the collection is made to exist; a zero batch size is an error before any add; a negative one adds nothing; otherwise the chunks are added in order until the store refuses one; the count is returned when every chunk was accepted |
| VectorStore.SendChunk | backend/vector_store.py:42-49 | one `col.add` is accepted exactly when the chunk's columns have equal lengths; an accepted one adds the chunk's entries and is logged, a refused one changes nothing |
| VectorStore.AddChunks | backend/vector_store.py:42-49 | the chunk loop sends exactly the accepted prefix of the chunk sequence, and the collection gains exactly those chunks' entries |
| VectorStore.MakeBatch | backend/vector_store.py:44-48 | the ids are `str(ID)`, the documents are the texts and the categories are the records' categories, position by position |
| VectorStore.BatchesCover | backend/vector_store.py:41-49 | the chunks cover the records exactly once and in order, and record j goes with the vector at position j when there is one |
| VectorStore.BatchSizes | backend/vector_store.py:42-43 | each chunk holds between one and `batch` records |
| VectorStore.AllAcceptedIffEnoughVectors | backend/vector_store.py:45-49 | nothing compares the two lengths: every chunk is accepted exactly when there are at least as many vectors as records |
| VectorStore.AddAllKeys | backend/vector_store.py:49 | after an add, the collection holds its earlier ids plus the batch's, under either duplicate policy |
| VectorStore.IndexedKeys | backend/vector_store.py:41-50 | with a vector for every record, the collection ends with exactly its earlier ids and the records' ids |
| VectorStore.ReindexKeepsCount | backend/vector_store.py:41-50 | indexing the same records a second time leaves the count unchanged |
| VectorStore.FreshIdsAddUp | backend/vector_store.py:41-50 | records with distinct ids that are new to the collection raise the count by their number |
| VectorStore.Request | backend/vector_store.py:62-67 | one query vector and `n_results = top_k`; the filter is passed exactly when it is present and non-empty |
| VectorStore.AssembleHits | backend/vector_store.py:71-79 | one hit per id of the first row; hit i takes the i-th id, document, metadata and distance, with no distance when the answer has none; an error exactly when a lookup falls outside its list, so an empty id row gives no hits without looking at the other columns |
| VectorStore.EmptyRowNoHits | backend/vector_store.py:71 | an answer whose first id row is empty is answered by no hits, whatever its other columns hold |
| VectorStore.Query | backend/vector_store.py:52-79 | the hits are those of the store's answer to the request above, for the collection, which is created when missing |
| VectorStore.DistanceAsWrittenFailsOnSecondHit | backend/vector_store.py:77 | with no `distances` in the answer, the lookup as written fails for the second hit, while the corrected hits for the same answer are both hits with no distance |
| App.RoundToMs | frontend/app.py:44 | the modification time is rounded to the nearest millisecond, ties to even |
| App.FileSignature | frontend/app.py:38-44 | the signature holds the absolute path, the rounded modification time, the size and the record count; an unreadable file gives time 0 and size 0 |
| App.SplitExt | frontend/app.py:65-81 | `os.path.splitext` splits a path into two parts that give it back; the extension is empty or a dot followed by no dot or slash; it is non-empty exactly when the last component has a dot that follows some other character |
| App.SplitExtExamples | frontend/app.py:65 | the extension of `resumes/Data.XLSX` is `.XLSX`; `.hidden` and `dir.d/plain` have none |
| App.BeforeQuery | frontend/app.py:81 | `url.split("?")[0]` is the longest prefix without a question mark |
| App.UrlExt | frontend/app.py:81-83 | the extension of a link is always one of `.csv`, `.xlsx` and `.xls`: the link's own lower-cased extension when that is one of them, `.csv` otherwise |
| App.QueryIgnored | frontend/app.py:81 | a link's query string plays no part in its extension |
| App.UploadTarget | frontend/app.py:65-66 | an upload is saved as `Resume` plus the uploaded name's own extension lower-cased (`splitext(name)[1].lower()`), or as `Resume.csv` when the name has no extension; the extension starts with a dot and holds no slash, so the file stays directly inside the data directory |
| App.UrlTarget | frontend/app.py:81-84 | a downloaded link is saved as `Resume.csv`, `Resume.xlsx` or `Resume.xls` inside the data directory |
| App.Session.constructor | frontend/app.py:29-36 | a new session reads the default file, with no pending reload, no indexed signature and no pending re-index |
| App.Reindex | frontend/app.py:159-162 | after an optional reset, the collection starts from nothing (or from its current entries) and gains the accepted prefix of the 1000-record chunks; success exactly when every chunk was accepted, returning the new count |
| App.Session.ManualReset | frontend/app.py:58-60 | the collection is emptied and the indexed signature cleared; the pending re-index flag, the reload flag and the source are unchanged |
| App.Session.Upload | frontend/app.py:64-95 | a chosen file wins over a link; either switches the source to `Resume` plus the extension, sets the reload and re-index flags, clears the signature and empties the collection; a link without its button, or a failed download, changes nothing |
| App.Session.Switch | frontend/app.py:64-93 | the new source is set, the reload and re-index flags raised, the signature cleared and the collection emptied |
| App.Session.LoadPass | frontend/app.py:116-121 | the records and statistics of the current file; the reload flag is false afterwards |
| App.Session.IndexPass | frontend/app.py:149-164 | re-index exactly when a re-index is pending, the count is 0 (a failed count reads as 0) or the signature differs; a skipped pass leaves the store unchanged; the collection is emptied first only when nothing was pending and the count was positive; after a successful pass the signature is remembered and the pending flag cleared; a skipped or failed pass leaves both unchanged |
| App.Session.Render | frontend/app.py:116-164 | the run stops, with the load statistics and no change to the index state or the store, exactly when there are no records; otherwise the index pass runs over the loaded records with the outcome, store and session state stated for `IndexPass`; the reload flag is false afterwards |
| App.IndexedThenUpToDate | frontend/app.py:155-164 | after a pass that wrote every record, the next run over the same file finds a non-empty collection and a matching signature, so it does not index again |
| Summarizer.Snippet | backend/summarizer.py:14-18 | a snippet is 25 characters plus the id, category and document |
| Summarizer.SnippetFrame | backend/summarizer.py:17-18 | a snippet opens with `[ID: ` and the id, and ends with the `---` line |
| Summarizer.Category | backend/summarizer.py:16 | the category is "" when the metadata or its Category entry is missing |
| Summarizer.PackWithinBudget | backend/summarizer.py:19-22 | the packed context never exceeds `max_chars`, and a negative budget packs nothing |
| Summarizer.PackIsGreedyPrefix | backend/summarizer.py:13-22 | the packed snippets are those of a prefix of the hits; the first hit left out is one whose snippet would overflow the budget, and no later hit is tried |
| Summarizer.PackAllWhenFits | backend/summarizer.py:13-23 | every hit is packed when all the snippets together fit |
| Summarizer.BuildContextSnippets | backend/summarizer.py:11-23 | the loop with its early break gives the packed snippets joined together; the result is within the budget, and "" for no hits |

## Left out

- `_read_any` (backend/file_processor.py:20-63) is outside the model. It covers encodings, delimiters, `on_bad_lines` and Excel reading. The loader takes the table it yields, or its failure, as a parameter.
- HTML parsing: BeautifulSoup and the removal of script and style elements are the `extract` parameter. Only the whitespace collapse is modelled.
- Column lower-casing is ASCII-only (`PyText.Lower`). Python's `str.lower` also folds non-ASCII letters.
- Duplicate columns after lower-casing resolve to the first such column. pandas would return a frame for `df[col]`.
- Cells are NaN or a text. `str()` of a non-text cell (a number, for instance) is taken to be already in the cell's text. The same holds for `str(r["ID"])`, which the model writes as `"nan"` for a NaN ID.
- The default path `CSV_PATH` used when `path` is None: the model always takes an explicit path.
- CorpEmbeddings.NewClient: the `timeout` setting, the authorisation headers and the HTTP session are not modelled, because they only shape the HTTP exchange, which is an oracle here. The `CORP_*` configuration defaults are also left out; every setting is a parameter.
- CorpEmbeddings.PostOnce: a value under `embeddings` that is not a list is treated as a failed attempt. In Python, `len()` of a string or object would still succeed, and the elements that reach `out.extend` would be keys or characters.
- The elements of a response are opaque JSON values. Whether each is a list of floats is not checked, just as the source does not check it.
- TF-IDF numerics are not modelled (backend/embeddings.py:8, 13, 19-20). The vectoriser is a pair of functions fixed at construction, and vector entries are opaque reals.
- The store's own behaviour is outside the model:
  - Chroma's persistence, `PersistentClient` and the creation of the data directory (backend/vector_store.py:7-17).
  - How the store treats an id it already holds. It is a parameter, not asserted.
  - Chroma's rejection of duplicate ids within one `add`, which is not modelled.
  - Nearest-neighbour search.
- VectorStore.IndexRecords: the only store failure modelled is the refusal of columns of unequal length. Other failures of `add` (a dimension mismatch with earlier vectors, for instance) are not.
- `query_text` is accepted by `VectorStore.Query` and, as in the source, not used.
- App.RoundToMs: the modification time is taken as whole nanoseconds, and `round(x, 3)` is modelled on that integer. Rounding of the binary float `os.path.getmtime` returns is not modelled.
- `os.path.abspath` is a field of `FileView` rather than computed from the working directory.
- The download (`requests.get`), the file writes and every widget, caption and status message of frontend/app.py are not modelled. The download's success is the `downloaded` parameter.
- The call at frontend/app.py:162 passes `embed_client=` to `index_records`, whose signature takes `embeddings` (backend/vector_store.py:33-38). The model's index pass takes the vectors for the records as a parameter and passes them as `embeddings`.
- `answer_query` and the system prompt (backend/summarizer.py:5-9, 25-39) are not modelled: they are prompt text plus a remote call.
- Summarizer: hits are the `Hit` values `query` builds, whose id is always present. The `None` id a hand-made dict could carry is not modelled.

## Findings

| source | as written | input that shows it | evidently intended | confidence | as-written member | corrected member |
|---|---|---|---|---|---|---|
| backend/vector_store.py:77 | `res.get("distances", [[None]])[0][i]`: the fallback list has one element | an answer with ids `[["a", "b"]]` and no `distances` entry: the lookup for the second hit raises `IndexError` | every hit gets distance `None` when the answer carries no distances | medium, not executed; Chroma's default `include` always returns distances, so the fallback is only reached by an answer without that key | VectorStore.DistanceAsWrittenFailsOnSecondHit | VectorStore.AssembleHits |
