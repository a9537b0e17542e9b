/**
 * Packing retrieved hits into the context handed to the chat model: one
 * snippet per hit, taken greedily in rank order while the running length
 * stays within a character budget.
 */
module Summarizer {
  import opened Wrappers
  import VectorStore

  /** `h.get("document") or ""`: a missing or empty document reads as "". */
  function Doc(h: VectorStore.Hit): (d: string)
    ensures h.document.Some? ==> d == h.document.value
    ensures h.document.None? ==> d == ""
  {
    if h.document.Some? then h.document.value else ""
  }

  /** `(h.get("metadata") or {}).get("Category", "")`. */
  function Category(h: VectorStore.Hit): (c: string)
    ensures h.metadata.Some? && "Category" in h.metadata.value ==> c == h.metadata.value["Category"]
    ensures h.metadata.None? || "Category" !in h.metadata.value ==> c == ""
  {
    if h.metadata.Some? && "Category" in h.metadata.value then h.metadata.value["Category"] else ""
  }

  /** `[ID: {id} | Category: {cat}]`, a newline, the document, and a `---` separator line. */
  function Snippet(h: VectorStore.Hit): (s: string)
    ensures |s| == 25 + |h.id| + |Category(h)| + |Doc(h)|
  {
    "[ID: " + h.id + " | Category: " + Category(h) + "]\n" + Doc(h) + "\n---\n"
  }

  /** Every snippet opens with its ID tag and closes with the separator line. */
  lemma SnippetFrame(h: VectorStore.Hit)
    ensures var s := Snippet(h);
      s[..5] == "[ID: " && s[5..5 + |h.id|] == h.id && s[|s| - 5..] == "\n---\n"
  {
  }

  function Concat(parts: seq<string>): string
  {
    if parts == [] then "" else parts[0] + Concat(parts[1..])
  }

  function Snippets(hits: seq<VectorStore.Hit>): (ss: seq<string>)
    ensures |ss| == |hits| && forall i :: 0 <= i < |hits| ==> ss[i] == Snippet(hits[i])
  {
    seq(|hits|, i requires 0 <= i < |hits| => Snippet(hits[i]))
  }

  /** The snippets that fit in `room` characters, taken in order until the first that does not. */
  function Pack(hits: seq<VectorStore.Hit>, room: int): seq<string>
  {
    if hits == [] || |Snippet(hits[0])| > room then []
    else [Snippet(hits[0])] + Pack(hits[1..], room - |Snippet(hits[0])|)
  }

  lemma {:induction false} ConcatAppend(a: seq<string>, b: seq<string>)
    ensures Concat(a + b) == Concat(a) + Concat(b)
  {
    if a != [] {
      assert (a + b)[0] == a[0];
      assert (a + b)[1..] == a[1..] + b;
      ConcatAppend(a[1..], b);
      assert Concat(a + b) == a[0] + (Concat(a[1..]) + Concat(b));
    } else {
      assert a + b == b;
    }
  }

  /** The packed text never exceeds the budget, and a negative budget packs nothing. */
  lemma {:induction false} PackWithinBudget(hits: seq<VectorStore.Hit>, room: int)
    ensures |Concat(Pack(hits, room))| <= if room < 0 then 0 else room
  {
    if hits != [] && |Snippet(hits[0])| <= room {
      var s := Snippet(hits[0]);
      PackWithinBudget(hits[1..], room - |s|);
      assert Concat(Pack(hits, room)) == s + Concat(Pack(hits[1..], room - |s|));
    }
  }

  lemma {:induction false} ConcatCons(s: string, parts: seq<string>)
    ensures Concat([s] + parts) == s + Concat(parts)
  {
    assert ([s] + parts)[1..] == parts;
  }

  lemma {:induction false} SnippetsCons(hits: seq<VectorStore.Hit>, n: nat)
    requires 1 <= n <= |hits|
    ensures Snippets(hits[..n]) == [Snippet(hits[0])] + Snippets(hits[1..][..n - 1])
  {
    assert hits[1..][..n - 1] == hits[..n][1..];
  }

  /**
   * The packed snippets are those of a prefix of the hits, and when a hit is
   * left out it is because its snippet would overflow the budget on top of
   * the prefix: a later, shorter snippet is never tried.
   */
  lemma {:induction false} PackIsGreedyPrefix(hits: seq<VectorStore.Hit>, room: int)
    ensures var n := |Pack(hits, room)|;
      && n <= |hits|
      && Pack(hits, room) == Snippets(hits[..n])
      && (n < |hits| ==> |Concat(Snippets(hits[..n]))| + |Snippet(hits[n])| > room)
  {
    if hits != [] && |Snippet(hits[0])| <= room {
      var s, tail := Snippet(hits[0]), hits[1..];
      var left := room - |s|;
      PackIsGreedyPrefix(tail, left);
      var rest := Pack(tail, left);
      assert Pack(hits, room) == [s] + rest;
      var n := |rest| + 1;
      SnippetsCons(hits, n);
      ConcatCons(s, Snippets(tail[..n - 1]));
      if n < |hits| {
        assert tail[n - 1] == hits[n];
      }
    } else {
      assert Pack(hits, room) == [];
      assert hits[..0] == [];
    }
  }

  /** Every hit is packed when all the snippets together fit. */
  lemma {:induction false} PackAllWhenFits(hits: seq<VectorStore.Hit>, room: int)
    requires |Concat(Snippets(hits))| <= room
    ensures Pack(hits, room) == Snippets(hits)
  {
    if hits != [] {
      var s := Snippet(hits[0]);
      assert Snippets(hits) == [s] + Snippets(hits[1..]);
      assert Concat(Snippets(hits)) == s + Concat(Snippets(hits[1..]));
      PackAllWhenFits(hits[1..], room - |s|);
    }
  }

  lemma {:induction false} PackStep(hits: seq<VectorStore.Hit>, i: nat, room: int, next: nat, left: int)
    requires i < |hits| && |Snippet(hits[i])| <= room
    requires next == i + 1 && left == room - |Snippet(hits[i])|
    ensures Pack(hits[i..], room) == [Snippet(hits[i])] + Pack(hits[next..], left)
  {
    assert hits[i..][1..] == hits[next..];
  }

  lemma {:induction false} PackStops(hits: seq<VectorStore.Hit>, i: nat, room: int)
    requires i < |hits| && |Snippet(hits[i])| > room
    ensures Pack(hits[i..], room) == []
  {
    assert hits[i..][0] == hits[i];
  }

  lemma {:induction false} PackedSoFar(parts: seq<string>, snippet: string, rest: seq<string>)
    ensures parts + ([snippet] + rest) == (parts + [snippet]) + rest
    ensures Concat(parts + [snippet]) == Concat(parts) + snippet
  {
    ConcatAppend(parts, [snippet]);
    assert Concat([snippet]) == snippet + Concat([]);
  }

  /** `build_context_snippets`. */
  method BuildContextSnippets(hits: seq<VectorStore.Hit>, maxChars: int) returns (r: string)
    ensures r == Concat(Pack(hits, maxChars))
    ensures |r| <= if maxChars < 0 then 0 else maxChars
    ensures hits == [] ==> r == ""
  {
    var parts: seq<string> := [];
    var length := 0;
    var i: nat := 0;
    ghost var rest := Pack(hits, maxChars);
    assert hits[0..] == hits;
    while i < |hits|
      invariant i <= |hits|
      invariant rest == Pack(hits[i..], maxChars - length)
      invariant Pack(hits, maxChars) == parts + rest
      invariant length == |Concat(parts)|
    {
      var snippet := Snippet(hits[i]);
      if length + |snippet| > maxChars {
        PackStops(hits, i, maxChars - length);
        break;
      }
      var next, total := i + 1, length + |snippet|;
      ghost var later := Pack(hits[next..], maxChars - total);
      PackStep(hits, i, maxChars - length, next, maxChars - total);
      PackedSoFar(parts, snippet, later);
      parts := parts + [snippet];
      length, i := total, next;
      rest := later;
    }
    if i == |hits| {
      assert hits[i..] == [];
    }
    assert parts == Pack(hits, maxChars);
    r := Concat(parts);
    PackWithinBudget(hits, maxChars);
  }
}
