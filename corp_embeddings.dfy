/**
 * The remote embedding client: construction-time validation and clamping,
 * the three accepted response shapes, and the batch loop that retries each
 * batch with exponential backoff.  The HTTP service is an oracle
 * `service(payload, n)` giving the reply to the n-th POST of a run; sleeping
 * is recorded as a delay in half-second units (1 = 0.5 s, 16 = 8 s).
 */
module CorpEmbeddings {
  import opened Wrappers

  /** A decoded JSON value; numbers are opaque reals. */
  datatype Json = JNull | JBool(b: bool) | JNum(n: real) | JStr(s: string) | JArr(items: seq<Json>) | JObj(fields: map<string, Json>)

  /** The settings of a constructed client. */
  datatype Client = Client(base: string, key: string, provider: string, model: string,
                           verifyTls: bool, retries: nat, batchSize: nat, url: string)

  datatype ConfigError = MissingApiKey | MissingBaseUrl

  /** The JSON body of one request. */
  datatype Payload = Payload(provider: string, model: string, input: seq<string>)

  /** What one POST gave: a transport, HTTP-status or JSON-decoding failure, or a decoded body. */
  datatype Reply = Failed | Body(data: Json)

  /** Why an attempt failed; the last one is what `embed_texts` re-raises. */
  datatype EmbedError =
    | RequestFailed
    | RowWithoutGet
    | EmbeddingsNotAList
    | UnexpectedShape
    | CountMismatch(got: nat, expected: nat)

  // ------------------------------------------------------------ construction

  /** `s.rstrip("/")`. */
  function RStripSlash(s: string): (r: string)
    ensures |r| <= |s| && r == s[..|r|]
    ensures r == [] || r[|r| - 1] != '/'
    ensures forall i :: |r| <= i < |s| ==> s[i] == '/'
  {
    if s != [] && s[|s| - 1] == '/' then RStripSlash(s[..|s| - 1]) else s
  }

  /**
   * `CorporateEmbeddingClient.__init__` with every setting given explicitly:
   * clamp the retry count and batch size, strip trailing slashes from the base
   * URL, then refuse an empty key before an empty base.
   */
  function NewClient(baseUrl: string, apiKey: string, provider: string, model: string,
                     verifyTls: bool, retries: int, batchSize: int): (r: Result<Client, ConfigError>)
    ensures apiKey == [] ==> r == Err(MissingApiKey)
    ensures apiKey != [] && (forall i :: 0 <= i < |baseUrl| ==> baseUrl[i] == '/') ==> r == Err(MissingBaseUrl)
    ensures r.Ok? ==> var c := r.value;
      && c.key == apiKey && c.key != []
      && c.base == RStripSlash(baseUrl) && c.base != [] && c.base[|c.base| - 1] != '/'
      && c.url == c.base + "/embeddings"
      && c.retries == Max(0, retries) && c.batchSize == Max(1, batchSize) && c.batchSize >= 1
      && c.provider == provider && c.model == model && c.verifyTls == verifyTls
    ensures r.Err? <==> apiKey == [] || forall i :: 0 <= i < |baseUrl| ==> baseUrl[i] == '/'
  {
    var base := RStripSlash(baseUrl);
    var c := Client(base, apiKey, provider, model, verifyTls, Max(0, retries), Max(1, batchSize), base + "/embeddings");
    if apiKey == [] then Err(MissingApiKey)
    else if base == [] then Err(MissingBaseUrl)
    else
      assert base == [] <== forall i :: 0 <= i < |baseUrl| ==> baseUrl[i] == '/';
      Ok(c)
  }

  /** A valid client: what `NewClient` guarantees of the settings the batch loop uses. */
  predicate Valid(c: Client)
  {
    c.batchSize >= 1
  }

  // ------------------------------------------------------------ one request

  function GetOrNull(fields: map<string, Json>, key: string): Json
  {
    if key in fields then fields[key] else JNull
  }

  predicate IsList(j: Json) { j.JArr? }

  /**
   * `_post_once` after the POST: the shapes are tried in order — an object
   * whose `data` is a list (each row's `embedding`, null when absent), a
   * non-empty list whose first element is a list, an object with
   * `embeddings` — and anything else is refused.
   */
  function PostOnce(reply: Reply): Result<seq<Json>, EmbedError>
  {
    match reply
    case Failed => Err(RequestFailed)
    case Body(data) =>
      if data.JObj? && "data" in data.fields && IsList(data.fields["data"]) then
        var rows := data.fields["data"].items;
        if forall i :: 0 <= i < |rows| ==> rows[i].JObj? then
          Ok(seq(|rows|, i requires 0 <= i < |rows| => GetOrNull(rows[i].fields, "embedding")))
        else Err(RowWithoutGet)
      else if data.JArr? && data.items != [] && IsList(data.items[0]) then
        Ok(data.items)
      else if data.JObj? && "embeddings" in data.fields then
        if IsList(data.fields["embeddings"]) then Ok(data.fields["embeddings"].items) else Err(EmbeddingsNotAList)
      else Err(UnexpectedShape)
  }

  /** What `_post_once` accepts, shape by shape, and what it refuses. */
  lemma PostOnceShapes(reply: Reply)
    ensures reply.Failed? ==> PostOnce(reply) == Err(RequestFailed)
    ensures reply.Body? && reply.data.JArr? ==>
      PostOnce(reply) == (if reply.data.items != [] && IsList(reply.data.items[0]) then Ok(reply.data.items) else Err(UnexpectedShape))
    ensures reply.Body? && reply.data.JObj? && "data" in reply.data.fields && IsList(reply.data.fields["data"]) ==>
      var rows := reply.data.fields["data"].items;
      if forall i :: 0 <= i < |rows| ==> rows[i].JObj? then
        PostOnce(reply).Ok? && |PostOnce(reply).value| == |rows| && forall i :: 0 <= i < |rows| ==> PostOnce(reply).value[i] == GetOrNull(rows[i].fields, "embedding")
      else PostOnce(reply) == Err(RowWithoutGet)
    ensures reply.Body? && reply.data.JObj? && !("data" in reply.data.fields && IsList(reply.data.fields["data"])) ==>
      PostOnce(reply) == (if "embeddings" !in reply.data.fields then Err(UnexpectedShape)
            else if IsList(reply.data.fields["embeddings"]) then Ok(reply.data.fields["embeddings"].items)
            else Err(EmbeddingsNotAList))
    ensures reply.Body? && !reply.data.JArr? && !reply.data.JObj? ==> PostOnce(reply) == Err(UnexpectedShape)
  {
  }

  /** The empty list is not an accepted response: a batch can never be answered by `[]`. */
  lemma EmptyListRefused()
    ensures PostOnce(Body(JArr([]))) == Err(UnexpectedShape)
  {
  }

  /** One attempt: the POST, then the count check that makes a short or long answer a failure. */
  function Attempt(reply: Reply, expected: nat): (r: Result<seq<Json>, EmbedError>)
    ensures r.Ok? ==> |r.value| == expected
    ensures r.Ok? <==> PostOnce(reply).Ok? && |PostOnce(reply).value| == expected
  {
    match PostOnce(reply)
    case Err(e) => Err(e)
    case Ok(vecs) => if |vecs| != expected then Err(CountMismatch(|vecs|, expected)) else Ok(vecs)
  }

  /** The attempt made by the run's n-th request for `payload`. */
  function AttemptAt(payload: Payload, service: (Payload, nat) -> Reply, n: nat): Result<seq<Json>, EmbedError>
  {
    Attempt(service(payload, n), |payload.input|)
  }

  // ------------------------------------------------------------ retry loop

  /** The backoff after a failure: doubled, at most 8 s (16 half-seconds). */
  function NextBackoff(backoff: nat): nat
  {
    if backoff * 2 < 16 then backoff * 2 else 16
  }

  /** The k-th delay of a batch (from 0): 0.5 s doubled k times, capped at 8 s. */
  function Delay(k: nat): nat
  {
    if k == 0 then 1 else NextBackoff(Delay(k - 1))
  }

  /** The outcome of the retry loop for one batch: the vectors or the last error, posts made, delays slept. */
  datatype ChunkRun = ChunkRun(result: Result<seq<Json>, EmbedError>, posts: nat, delays: seq<nat>)

  /**
   * The retry loop from attempt number `attempt` on, whose next POST is the
   * run's `call`-th and whose next sleep is `backoff`.
   */
  function RunChunk(c: Client, payload: Payload, service: (Payload, nat) -> Reply, call: nat, attempt: nat, backoff: nat): ChunkRun
    requires attempt <= c.retries
    decreases c.retries - attempt
  {
    match Attempt(service(payload, call), |payload.input|)
    case Ok(vecs) => ChunkRun(Ok(vecs), 1, [])
    case Err(e) =>
      if attempt + 1 > c.retries then ChunkRun(Err(e), 1, [])
      else
        var rest := RunChunk(c, payload, service, call + 1, attempt + 1, NextBackoff(backoff));
        ChunkRun(rest.result, rest.posts + 1, [backoff] + rest.delays)
  }

  /** The outcome of a whole `embed_texts` run: the vectors or the error, every payload posted, every delay slept. */
  datatype Run = Run(result: Result<seq<Json>, EmbedError>, posts: seq<Payload>, delays: seq<nat>)

  function Repeat(p: Payload, n: nat): (r: seq<Payload>)
    ensures |r| == n && forall k :: 0 <= k < n ==> r[k] == p
  {
    if n == 0 then [] else Repeat(p, n - 1) + [p]
  }

  /** The batch starting at offset `i`: `texts[i:i + batch_size]`. */
  function ChunkAt(c: Client, texts: seq<string>, i: nat): seq<string>
    requires i <= |texts|
  {
    texts[i..Min(i + c.batchSize, |texts|)]
  }

  /** Runs after a successful prefix of batches: append its vectors, posts and delays. */
  function After(out: seq<Json>, posts: seq<Payload>, delays: seq<nat>, rest: Run): Run
  {
    Run(if rest.result.Ok? then Ok(out + rest.result.value) else rest.result, posts + rest.posts, delays + rest.delays)
  }

  lemma {:induction false} AfterNothing(r: Run)
    ensures After([], [], [], r) == r
  {
    assert [] + r.posts == r.posts && [] + r.delays == r.delays;
    if r.result.Ok? {
      assert [] + r.result.value == r.result.value;
    }
  }

  lemma {:induction false} AfterEnd(out: seq<Json>, posts: seq<Payload>, delays: seq<nat>)
    ensures After(out, posts, delays, Run(Ok([]), [], [])) == Run(Ok(out), posts, delays)
  {
    assert out + [] == out && posts + [] == posts && delays + [] == delays;
  }

  lemma {:induction false} AfterFails(out: seq<Json>, posts: seq<Payload>, delays: seq<nat>, rest: Run)
    requires rest.result.Err?
    ensures After(out, posts, delays, rest) == Run(rest.result, posts + rest.posts, delays + rest.delays)
  {
  }

  lemma {:induction false} AfterAfter(out: seq<Json>, posts: seq<Payload>, delays: seq<nat>,
                   out2: seq<Json>, posts2: seq<Payload>, delays2: seq<nat>, rest: Run)
    ensures After(out, posts, delays, After(out2, posts2, delays2, rest))
         == After(out + out2, posts + posts2, delays + delays2, rest)
  {
    assert posts + (posts2 + rest.posts) == posts + posts2 + rest.posts;
    assert delays + (delays2 + rest.delays) == delays + delays2 + rest.delays;
    if rest.result.Ok? {
      assert out + (out2 + rest.result.value) == out + out2 + rest.result.value;
    }
  }

  /** The batches from offset `i` on, the first of them posted as the run's `call`-th request. */
  function RunFrom(c: Client, texts: seq<string>, service: (Payload, nat) -> Reply, i: nat, call: nat): Run
    requires Valid(c)
    decreases |texts| - i
  {
    if i >= |texts| then Run(Ok([]), [], [])
    else
      var payload := Payload(c.provider, c.model, ChunkAt(c, texts, i));
      var cr := RunChunk(c, payload, service, call, 0, 1);
      match cr.result
      case Err(e) => Run(Err(e), Repeat(payload, cr.posts), cr.delays)
      case Ok(vecs) => After(vecs, Repeat(payload, cr.posts), cr.delays, RunFrom(c, texts, service, i + c.batchSize, call + cr.posts))
  }

  /** The batch loop ends at the first batch whose retry loop fails. */
  lemma {:induction false} RunFromFails(c: Client, texts: seq<string>, service: (Payload, nat) -> Reply, i: nat, call: nat,
                     payload: Payload, cr: ChunkRun)
    requires Valid(c) && i < |texts| && payload == Payload(c.provider, c.model, ChunkAt(c, texts, i))
    requires cr == RunChunk(c, payload, service, call, 0, 1) && cr.result.Err?
    ensures RunFrom(c, texts, service, i, call) == Run(cr.result, Repeat(payload, cr.posts), cr.delays)
  {
  }

  /** Otherwise it goes on with the next batch, numbering its POSTs after this one's. */
  lemma {:induction false} RunFromGoesOn(c: Client, texts: seq<string>, service: (Payload, nat) -> Reply, i: nat, call: nat,
                      payload: Payload, cr: ChunkRun, next: nat, nextCall: nat)
    requires Valid(c) && i < |texts| && payload == Payload(c.provider, c.model, ChunkAt(c, texts, i))
    requires cr == RunChunk(c, payload, service, call, 0, 1) && cr.result.Ok?
    requires next == i + c.batchSize && nextCall == call + cr.posts
    ensures RunFrom(c, texts, service, i, call)
         == After(cr.result.value, Repeat(payload, cr.posts), cr.delays, RunFrom(c, texts, service, next, nextCall))
  {
    assert !(i >= |texts|);
  }

  /** The retry loop ends at an attempt that succeeds or is the last one allowed. */
  lemma {:induction false} RunChunkStops(c: Client, payload: Payload, service: (Payload, nat) -> Reply, n: nat, attempt: nat, backoff: nat)
    requires attempt <= c.retries
    requires AttemptAt(payload, service, n).Ok? || attempt + 1 > c.retries
    ensures RunChunk(c, payload, service, n, attempt, backoff) == ChunkRun(AttemptAt(payload, service, n), 1, [])
  {
  }

  /** Otherwise it sleeps `backoff` and goes on with the next attempt. */
  lemma {:induction false} RunChunkRetries(c: Client, payload: Payload, service: (Payload, nat) -> Reply, n: nat, attempt: nat, backoff: nat,
                        rest: ChunkRun, next: nat, nextAttempt: nat)
    requires nextAttempt == attempt + 1 && next == n + 1
    requires nextAttempt <= c.retries && AttemptAt(payload, service, n).Err?
    requires rest == RunChunk(c, payload, service, next, nextAttempt, NextBackoff(backoff))
    ensures RunChunk(c, payload, service, n, attempt, backoff) == ChunkRun(rest.result, rest.posts + 1, [backoff] + rest.delays)
  {
  }

  /** A retry loop resumed after `attempt` failed attempts that slept `delays`. */
  function Resumed(cr: ChunkRun, attempt: nat, delays: seq<nat>): ChunkRun
  {
    ChunkRun(cr.result, cr.posts + attempt, delays + cr.delays)
  }

  lemma {:induction false} ResumedStep(cr: ChunkRun, rest: ChunkRun, attempt: nat, delays: seq<nat>, backoff: nat)
    requires cr == ChunkRun(rest.result, rest.posts + 1, [backoff] + rest.delays)
    ensures Resumed(cr, attempt, delays) == Resumed(rest, attempt + 1, delays + [backoff])
  {
    assert delays + ([backoff] + rest.delays) == (delays + [backoff]) + rest.delays;
  }

  /** The body of the `try`: one POST, then the count check. */
  method TryOnce(reply: Reply, expected: nat) returns (vecs: Result<seq<Json>, EmbedError>)
    ensures vecs == Attempt(reply, expected)
    ensures vecs.Ok? ==> |vecs.value| == expected
  {
    vecs := PostOnce(reply);
    if vecs.Ok? && |vecs.value| != expected {
      vecs := Err(CountMismatch(|vecs.value|, expected));
    }
  }

  /**
   * The `while True` loop of `embed_texts` for one batch: post, check the
   * count, and on failure either re-raise (attempts exceed `retries`) or sleep
   * and double the backoff.  `call` numbers the first POST within the run.
   */
  method PostWithRetry(c: Client, payload: Payload, service: (Payload, nat) -> Reply, call: nat)
    returns (result: Result<seq<Json>, EmbedError>, posted: nat, delays: seq<nat>)
    ensures ChunkRun(result, posted, delays) == RunChunk(c, payload, service, call, 0, 1)
  {
    var attempt: nat, backoff: nat := 0, 1;
    var n: nat := call;
    delays := [];
    ghost var whole := RunChunk(c, payload, service, call, 0, 1);
    ghost var cr := whole;
    assert whole == Resumed(cr, 0, []);
    while true
      invariant attempt <= c.retries && n == call + attempt
      invariant cr == RunChunk(c, payload, service, n, attempt, backoff)
      invariant whole == Resumed(cr, attempt, delays)
      decreases c.retries - attempt
    {
      var vecs := TryOnce(service(payload, n), |payload.input|);
      if vecs.Ok? {
        RunChunkStops(c, payload, service, n, attempt, backoff);
        return vecs, attempt + 1, delays;
      }
      var failed := attempt;
      attempt := attempt + 1;
      if attempt > c.retries {
        RunChunkStops(c, payload, service, n, failed, backoff);
        return vecs, attempt, delays;
      }
      var next, nextBackoff := n + 1, NextBackoff(backoff);
      ghost var rest := RunChunk(c, payload, service, next, attempt, nextBackoff);
      RunChunkRetries(c, payload, service, n, failed, backoff, rest, next, attempt);
      ResumedStep(cr, rest, failed, delays, backoff);
      delays := delays + [backoff];
      backoff, n := nextBackoff, next;
      cr := rest;
    }
  }

  /**
   * `embed_texts`: the batches `texts[i:i + batch_size]` for `i` in
   * `range(0, len(texts), batch_size)`, each through the retry loop; the first
   * batch that exhausts its attempts ends the run with its last error.
   */
  method EmbedTexts(c: Client, texts: seq<string>, service: (Payload, nat) -> Reply)
    returns (result: Result<seq<Json>, EmbedError>, posts: seq<Payload>, delays: seq<nat>)
    requires Valid(c)
    ensures Run(result, posts, delays) == RunFrom(c, texts, service, 0, 0)
  {
    var out: seq<Json> := [];
    posts, delays := [], [];
    var call: nat := 0;
    var i: nat := 0;
    ghost var whole := RunFrom(c, texts, service, 0, 0);
    ghost var rest := whole;
    AfterNothing(whole);
    while i < |texts|
      invariant rest == RunFrom(c, texts, service, i, call)
      invariant whole == After(out, posts, delays, rest)
      decreases |texts| - i
    {
      var chunk := texts[i..Min(i + c.batchSize, |texts|)];
      var payload := Payload(c.provider, c.model, chunk);
      var vecs, posted, slept := PostWithRetry(c, payload, service, call);
      ghost var cr := ChunkRun(vecs, posted, slept);
      if vecs.Err? {
        RunFromFails(c, texts, service, i, call, payload, cr);
        AfterFails(out, posts, delays, rest);
        return vecs, posts + Repeat(payload, posted), delays + slept;
      }
      var next, nextCall := i + c.batchSize, call + posted;
      RunFromGoesOn(c, texts, service, i, call, payload, cr, next, nextCall);
      ghost var later := RunFrom(c, texts, service, next, nextCall);
      AfterAfter(out, posts, delays, vecs.value, Repeat(payload, posted), slept, later);
      posts := posts + Repeat(payload, posted);
      delays := delays + slept;
      out := out + vecs.value;
      i, call := next, nextCall;
      rest := later;
    }
    AfterEnd(out, posts, delays);
    result := Ok(out);
  }

  /** `embed_query`: the single vector of a one-text run. */
  method EmbedQuery(c: Client, text: string, service: (Payload, nat) -> Reply)
    returns (result: Result<Json, EmbedError>, posts: seq<Payload>, delays: seq<nat>)
    requires Valid(c)
    ensures var run := RunFrom(c, [text], service, 0, 0);
      && posts == run.posts && delays == run.delays
      && (run.result.Err? ==> result == Err(run.result.error))
      && (run.result.Ok? ==> |run.result.value| == 1 && result == Ok(run.result.value[0]))
  {
    var vecs;
    vecs, posts, delays := EmbedTexts(c, [text], service);
    if vecs.Err? {
      return Err(vecs.error), posts, delays;
    }
    RunFromSucceeds(c, [text], service, 0, 0);
    result := Ok(vecs.value[0]);
  }

  // ------------------------------------------------------------ properties

  /** The delays of one batch are 0.5, 1, 2, 4, 8, 8, ... seconds. */
  lemma {:induction false} DelayValues(k: nat)
    ensures Delay(k) == if k == 0 then 1 else if k == 1 then 2 else if k == 2 then 4 else if k == 3 then 8 else 16
  {
    if k > 0 {
      DelayValues(k - 1);
    }
  }

  /**
   * The retry loop for a batch, entered at attempt `attempt` with the backoff
   * that attempt number implies: it posts at least once and at most
   * `retries + 1 - attempt` times, every attempt but the last failed, the
   * result is the last attempt's (so a failure is reported only once all
   * attempts are used), and it sleeps `Delay(attempt)`, `Delay(attempt + 1)`,
   * ... once between consecutive attempts.
   */
  lemma {:induction false} RunChunkAttempts(c: Client, payload: Payload, service: (Payload, nat) -> Reply,
                                            call: nat, attempt: nat)
    requires attempt <= c.retries
    ensures var cr := RunChunk(c, payload, service, call, attempt, Delay(attempt));
      && 1 <= cr.posts <= c.retries + 1 - attempt
      && cr.result == AttemptAt(payload, service, call + cr.posts - 1)
      && (forall n :: call <= n < call + cr.posts - 1 ==> AttemptAt(payload, service, n).Err?)
      && (cr.result.Err? ==> cr.posts == c.retries + 1 - attempt)
      && |cr.delays| == cr.posts - 1
      && (forall k :: 0 <= k < |cr.delays| ==> cr.delays[k] == Delay(attempt + k))
    decreases c.retries - attempt
  {
    var cr := RunChunk(c, payload, service, call, attempt, Delay(attempt));
    var next, nextAttempt := call + 1, attempt + 1;
    if AttemptAt(payload, service, call).Err? && nextAttempt <= c.retries {
      RunChunkAttempts(c, payload, service, next, nextAttempt);
      var rest := RunChunk(c, payload, service, next, nextAttempt, Delay(nextAttempt));
      assert Delay(nextAttempt) == NextBackoff(Delay(attempt));
      RunChunkRetries(c, payload, service, call, attempt, Delay(attempt), rest, next, nextAttempt);
      assert cr.delays == [Delay(attempt)] + rest.delays;
    } else {
      RunChunkStops(c, payload, service, call, attempt, Delay(attempt));
    }
  }

  /** A successful run returns one vector per text, in order of the batches. */
  lemma {:induction false} RunFromSucceeds(c: Client, texts: seq<string>, service: (Payload, nat) -> Reply, i: nat, call: nat)
    requires Valid(c)
    ensures var r := RunFrom(c, texts, service, i, call);
      r.result.Ok? ==> |r.result.value| == if i < |texts| then |texts| - i else 0
    decreases |texts| - i
  {
    if i < |texts| {
      var payload := Payload(c.provider, c.model, ChunkAt(c, texts, i));
      var cr := RunChunk(c, payload, service, call, 0, 1);
      if cr.result.Ok? {
        RunChunkAttempts(c, payload, service, call, 0);
        var next, nextCall := i + c.batchSize, call + cr.posts;
        RunFromGoesOn(c, texts, service, i, call, payload, cr, next, nextCall);
        RunFromSucceeds(c, texts, service, next, nextCall);
      } else {
        RunFromFails(c, texts, service, i, call, payload, cr);
      }
    }
  }

  /** The number of batches of `n` texts: ceil(n / batch). */
  function NumChunks(n: nat, batch: nat): nat
    requires batch >= 1
  {
    if n == 0 then 0 else 1 + NumChunks(if n < batch then 0 else n - batch, batch)
  }

  lemma {:induction false} MulAtLeast(a: int, b: int)
    requires a >= 1 && b >= 1
    ensures a * b >= b
    decreases a
  {
    if a > 1 {
      MulAtLeast(a - 1, b);
      assert a * b == (a - 1) * b + b;
    }
  }

  lemma DivUnique(x: int, b: int, q: int, r: int)
    requires b >= 1 && 0 <= r < b && x == q * b + r
    ensures x / b == q
  {
    var d, m := x / b, x % b;
    assert d * b + m == q * b + r;
    if d > q {
      MulAtLeast(d - q, b);
    } else if d < q {
      MulAtLeast(q - d, b);
    }
  }

  lemma {:induction false} NumChunksIsCeiling(n: nat, batch: nat)
    requires batch >= 1
    ensures NumChunks(n, batch) == (n + batch - 1) / batch
    decreases n
  {
    if n == 0 {
      DivUnique(batch - 1, batch, 0, batch - 1);
    } else if n < batch {
      DivUnique(n + batch - 1, batch, 1, n - 1);
    } else {
      var m := n - batch;
      NumChunksIsCeiling(m, batch);
      var q, r := (m + batch - 1) / batch, (m + batch - 1) % batch;
      assert n + batch - 1 == (q + 1) * batch + r;
      DivUnique(n + batch - 1, batch, q + 1, r);
    }
  }

  lemma {:induction false} PostsAddUp(perBatch: nat, first: nat, later: nat, more: nat, chunks: nat)
    requires first <= perBatch && later <= perBatch * more && chunks == 1 + more
    ensures first + later <= perBatch * chunks
  {
    assert perBatch * (1 + more) == perBatch + perBatch * more;
  }

  /** A run makes at most `retries + 1` requests per batch. */
  lemma {:induction false} RunFromPostCount(c: Client, texts: seq<string>, service: (Payload, nat) -> Reply, i: nat, call: nat)
    requires Valid(c)
    ensures |RunFrom(c, texts, service, i, call).posts|
         <= (c.retries + 1) * NumChunks(if i < |texts| then |texts| - i else 0, c.batchSize)
    decreases |texts| - i
  {
    if i < |texts| {
      var payload := Payload(c.provider, c.model, ChunkAt(c, texts, i));
      var cr := RunChunk(c, payload, service, call, 0, 1);
      RunChunkAttempts(c, payload, service, call, 0);
      var n := |texts| - i;
      var left := if n < c.batchSize then 0 else n - c.batchSize;
      var m := NumChunks(left, c.batchSize);
      var chunks := NumChunks(n, c.batchSize);
      assert chunks == 1 + m;
      assert (if i < |texts| then |texts| - i else 0) == n;
      var posts := |RunFrom(c, texts, service, i, call).posts|;
      if cr.result.Ok? {
        var next, nextCall := i + c.batchSize, call + cr.posts;
        RunFromGoesOn(c, texts, service, i, call, payload, cr, next, nextCall);
        RunFromPostCount(c, texts, service, next, nextCall);
        assert (if next < |texts| then |texts| - next else 0) == left;
        var later := |RunFrom(c, texts, service, next, nextCall).posts|;
        assert posts == cr.posts + later;
        PostsAddUp(c.retries + 1, cr.posts, later, m, chunks);
      } else {
        RunFromFails(c, texts, service, i, call, payload, cr);
        assert posts == cr.posts + 0;
        PostsAddUp(c.retries + 1, cr.posts, 0, m, chunks);
      }
    } else {
      assert RunFrom(c, texts, service, i, call).posts == [];
    }
  }

  /**
   * Every request carries the client's provider and model and a non-empty
   * batch of at most `batch_size` texts.
   */
  lemma {:induction false} RunFromPayloads(c: Client, texts: seq<string>, service: (Payload, nat) -> Reply, i: nat, call: nat)
    requires Valid(c)
    ensures forall p :: p in RunFrom(c, texts, service, i, call).posts ==>
      p.provider == c.provider && p.model == c.model && 1 <= |p.input| <= c.batchSize
    decreases |texts| - i
  {
    if i < |texts| {
      var payload := Payload(c.provider, c.model, ChunkAt(c, texts, i));
      var cr := RunChunk(c, payload, service, call, 0, 1);
      assert 1 <= |payload.input| <= c.batchSize;
      assert forall p :: p in Repeat(payload, cr.posts) ==> p == payload;
      if cr.result.Ok? {
        var next, nextCall := i + c.batchSize, call + cr.posts;
        RunFromGoesOn(c, texts, service, i, call, payload, cr, next, nextCall);
        RunFromPayloads(c, texts, service, next, nextCall);
      } else {
        RunFromFails(c, texts, service, i, call, payload, cr);
      }
    }
  }

  /** The batches `texts[i:i + batch_size]` for `i` in `range(start, len(texts), batch_size)`. */
  function ChunksFrom(c: Client, texts: seq<string>, i: nat): seq<seq<string>>
    requires Valid(c)
    decreases |texts| - i
  {
    if i >= |texts| then [] else [ChunkAt(c, texts, i)] + ChunksFrom(c, texts, i + c.batchSize)
  }

  function Flatten(chunks: seq<seq<string>>): seq<string>
  {
    if chunks == [] then [] else chunks[0] + Flatten(chunks[1..])
  }

  /** The batches cover the texts exactly once, in order: there are ceil(n / batch) of them and they concatenate back to the input. */
  lemma {:induction false} ChunksCover(c: Client, texts: seq<string>, i: nat)
    requires Valid(c) && i <= |texts|
    ensures Flatten(ChunksFrom(c, texts, i)) == texts[i..]
    ensures |ChunksFrom(c, texts, i)| == NumChunks(|texts| - i, c.batchSize)
    decreases |texts| - i
  {
    if i < |texts| {
      var j := Min(i + c.batchSize, |texts|);
      ChunksCover(c, texts, j);
      assert ChunksFrom(c, texts, i + c.batchSize) == ChunksFrom(c, texts, j);
      assert texts[i..] == texts[i..j] + texts[j..];
    }
  }

  /**
   * When every request is answered with the right number of vectors, the
   * run succeeds, each batch is posted exactly once, in order, and nothing
   * sleeps.
   */
  lemma {:induction false} RunFromAllAnswered(c: Client, texts: seq<string>, service: (Payload, nat) -> Reply, i: nat, call: nat)
    requires Valid(c)
    requires forall p: Payload, k: nat :: Attempt(service(p, k), |p.input|).Ok?
    ensures var r := RunFrom(c, texts, service, i, call);
      && r.result.Ok? && r.delays == []
      && r.posts == seq(|ChunksFrom(c, texts, i)|, k requires 0 <= k < |ChunksFrom(c, texts, i)| =>
                          Payload(c.provider, c.model, ChunksFrom(c, texts, i)[k]))
    decreases |texts| - i
  {
    var chunks := ChunksFrom(c, texts, i);
    if i < |texts| {
      var payload := Payload(c.provider, c.model, ChunkAt(c, texts, i));
      assert AttemptAt(payload, service, call).Ok?;
      RunChunkStops(c, payload, service, call, 0, 1);
      var cr := RunChunk(c, payload, service, call, 0, 1);
      var next, nextCall := i + c.batchSize, call + 1;
      RunFromGoesOn(c, texts, service, i, call, payload, cr, next, nextCall);
      RunFromAllAnswered(c, texts, service, next, nextCall);
      var rest := RunFrom(c, texts, service, next, nextCall);
      assert chunks == [ChunkAt(c, texts, i)] + ChunksFrom(c, texts, next);
      assert Repeat(payload, 1) == [payload];
      assert rest.delays == [] && [] + rest.delays == [];
    }
  }

  /** A batch answered by two failures and then the right vectors: three requests, sleeps of 0.5 s and 1 s. */
  lemma FailTwiceThenSucceed(c: Client, texts: seq<string>, service: (Payload, nat) -> Reply, vecs: seq<Json>)
    requires Valid(c) && c.retries >= 2 && 0 < |texts| <= c.batchSize
    requires forall p: Payload :: service(p, 0) == Failed && service(p, 1) == Failed
    requires |vecs| == |texts| && IsList(vecs[0])
    requires service(Payload(c.provider, c.model, texts), 2) == Body(JArr(vecs))
    ensures var p := Payload(c.provider, c.model, texts);
      RunFrom(c, texts, service, 0, 0) == Run(Ok(vecs), [p, p, p], [1, 2])
  {
    var p := Payload(c.provider, c.model, texts);
    assert ChunkAt(c, texts, 0) == texts;
    assert RunChunk(c, p, service, 2, 2, 4) == ChunkRun(Ok(vecs), 1, []);
    assert RunChunk(c, p, service, 1, 1, 2) == ChunkRun(Ok(vecs), 2, [2]);
    assert RunChunk(c, p, service, 0, 0, 1) == ChunkRun(Ok(vecs), 3, [1, 2]);
    assert Repeat(p, 3) == [p, p, p];
    AfterEnd(vecs, [p, p, p], [1, 2]);
  }

  /**
   * A batch whose every answer has the wrong count is posted exactly
   * `retries + 1` times, and the run fails with the count mismatch and
   * returns no vectors.
   */
  lemma AlwaysMismatched(c: Client, texts: seq<string>, service: (Payload, nat) -> Reply, vecs: seq<Json>)
    requires Valid(c) && 0 < |texts| <= c.batchSize
    requires |vecs| != |texts| && vecs != [] && IsList(vecs[0])
    requires forall k: nat :: service(Payload(c.provider, c.model, texts), k) == Body(JArr(vecs))
    ensures var r := RunFrom(c, texts, service, 0, 0);
      && r.result == Err(CountMismatch(|vecs|, |texts|))
      && |r.posts| == c.retries + 1
      && |r.delays| == c.retries
  {
    var p := Payload(c.provider, c.model, texts);
    assert ChunkAt(c, texts, 0) == texts;
    RunChunkAttempts(c, p, service, 0, 0);
  }
}
