/**
 * The parts of Python's `str` semantics that the ingestion code relies on:
 * `str.isspace`, `str.strip`, `str.split()` with no separator, `" ".join`
 * and `str.lower`.  Strings are sequences of Unicode scalar values, as a
 * Python `str` is a sequence of code points.
 */
module PyText {

  /** Python's whitespace: the characters for which `str.isspace()` holds. */
  predicate IsSpace(c: char)
  {
    c == ' ' || ('\U{9}' <= c <= '\U{D}') || ('\U{1C}' <= c <= '\U{1F}')
    || c == '\U{85}' || c == '\U{A0}' || c == '\U{1680}'
    || ('\U{2000}' <= c <= '\U{200A}')
    || c == '\U{2028}' || c == '\U{2029}' || c == '\U{202F}' || c == '\U{205F}' || c == '\U{3000}'
  }

  /** Every character is whitespace (this includes the empty string). */
  predicate IsBlank(s: string)
  {
    forall i :: 0 <= i < |s| ==> IsSpace(s[i])
  }

  /** `s.lstrip()`: the longest suffix of `s` that does not start with whitespace. */
  function TrimLeft(s: string): (r: string)
    ensures |r| <= |s| && r == s[|s| - |r|..]
    ensures r == [] || !IsSpace(r[0])
    ensures IsBlank(s[..|s| - |r|])
  {
    if s != [] && IsSpace(s[0]) then
      var r := TrimLeft(s[1..]);
      assert s[1..][|s| - 1 - |r|..] == s[|s| - |r|..];
      assert forall i :: 1 <= i < |s| - |r| ==> s[i] == s[1..][..|s| - 1 - |r|][i - 1];
      r
    else s
  }

  /** `s.rstrip()`: the longest prefix of `s` that does not end with whitespace. */
  function TrimRight(s: string): (r: string)
    ensures |r| <= |s| && r == s[..|r|]
    ensures r == [] || !IsSpace(r[|r| - 1])
    ensures IsBlank(s[|r|..])
  {
    if s != [] && IsSpace(s[|s| - 1]) then
      var r := TrimRight(s[..|s| - 1]);
      assert s[..|s| - 1][..|r|] == s[..|r|];
      assert forall i :: |r| <= i < |s| - 1 ==> s[i] == s[..|s| - 1][|r|..][i - |r|];
      r
    else s
  }

  /** `s.strip()`. */
  function Strip(s: string): (r: string)
    ensures r == [] || (!IsSpace(r[0]) && !IsSpace(r[|r| - 1]))
  {
    TrimRight(TrimLeft(s))
  }

  /** `r` is `s` from position `a` on, with only whitespace before and after it. */
  predicate MiddleOf(s: string, r: string, a: nat)
  {
    && a + |r| <= |s|
    && (forall k :: 0 <= k < |r| ==> r[k] == s[a + k])
    && (forall i :: 0 <= i < a ==> IsSpace(s[i]))
    && (forall i :: a + |r| <= i < |s| ==> IsSpace(s[i]))
  }

  /**
   * `s.strip()` is the slice of `s` after its leading whitespace, with only
   * whitespace after it; with its ends not whitespace (above), it is the
   * longest such slice.
   */
  lemma StripIsMiddle(s: string)
    ensures MiddleOf(s, Strip(s), |s| - |TrimLeft(s)|)
  {
    var l := TrimLeft(s);
    var r := TrimRight(l);
    var a := |s| - |l|;
    TrimmedIsMiddle(s, l, r, a);
  }

  lemma TrimmedIsMiddle(s: string, l: string, r: string, a: nat)
    requires a <= |s| && IsBlank(s[..a]) && l == s[a..]
    requires |r| <= |l| && r == l[..|r|] && IsBlank(l[|r|..])
    ensures MiddleOf(s, r, a)
  {
    LeadingBlank(s, a);
    KeptSlice(s, l, r, a);
    TrailingBlank(s, l, r, a);
  }

  lemma LeadingBlank(s: string, a: nat)
    requires a <= |s| && IsBlank(s[..a])
    ensures forall i :: 0 <= i < a ==> IsSpace(s[i])
  {
    forall i | 0 <= i < a
      ensures IsSpace(s[i])
    {
      assert s[i] == s[..a][i];
    }
  }

  lemma KeptSlice(s: string, l: string, r: string, a: nat)
    requires a <= |s| && l == s[a..] && |r| <= |l| && r == l[..|r|]
    ensures forall k :: 0 <= k < |r| ==> r[k] == s[a + k]
  {
  }

  lemma TrailingBlank(s: string, l: string, r: string, a: nat)
    requires a <= |s| && l == s[a..] && |r| <= |l| && IsBlank(l[|r|..])
    ensures forall i :: a + |r| <= i < |s| ==> IsSpace(s[i])
  {
    var tail := l[|r|..];
    forall i | a + |r| <= i < |s|
      ensures IsSpace(s[i])
    {
      assert s[i] == tail[i - a - |r|];
    }
  }

  /** `s.strip()` is empty exactly when `s` is all whitespace, so `not s.strip()` tests blankness. */
  lemma StripEmptyIffBlank(s: string)
    ensures Strip(s) == [] <==> IsBlank(s)
  {
    var l := TrimLeft(s);
    if l != [] {
      assert TrimRight(l) != [] by {
        assert IsBlank(l[|TrimRight(l)|..]);
        assert !IsSpace(l[0]);
      }
      assert s[|s| - |l|] == l[0];
    } else {
      assert s[..|s|] == s;
    }
  }

  /** The text of a non-blank string survives stripping: its first non-space character is kept. */
  lemma StripKeepsText(s: string, i: nat)
    requires i < |s| && !IsSpace(s[i])
    ensures Strip(s) != []
  {
    StripEmptyIffBlank(s);
  }

  /** A word of `str.split()`: non-empty and free of whitespace. */
  predicate IsWord(w: string)
  {
    w != [] && forall i :: 0 <= i < |w| ==> !IsSpace(w[i])
  }

  /** Length of the leading run of non-whitespace characters. */
  function WordLen(s: string): (n: nat)
    ensures n <= |s|
    ensures forall i :: 0 <= i < n ==> !IsSpace(s[i])
    ensures n == |s| || IsSpace(s[n])
  {
    if s == [] || IsSpace(s[0]) then 0 else 1 + WordLen(s[1..])
  }

  /** `s.split()`: the maximal runs of non-whitespace characters, in order. */
  function Split(s: string): (ws: seq<string>)
    ensures forall k :: 0 <= k < |ws| ==> IsWord(ws[k])
    decreases |s|
  {
    if s == [] then []
    else if IsSpace(s[0]) then Split(s[1..])
    else
      var n := WordLen(s);
      [s[..n]] + Split(s[n..])
  }

  /** `" ".join(ws)`. */
  function JoinSpace(ws: seq<string>): string
  {
    if ws == [] then []
    else if |ws| == 1 then ws[0]
    else ws[0] + " " + JoinSpace(ws[1..])
  }

  /**
   * Whitespace-collapsed text: every whitespace character is a single ' '
   * standing between two non-whitespace characters, so there is no leading
   * or trailing whitespace and no run of it.
   */
  ghost predicate IsCollapsed(r: string)
  {
    && (forall i :: 0 <= i < |r| && IsSpace(r[i]) ==> r[i] == ' ' && 0 < i < |r| - 1)
    && (forall i, j :: 0 <= i && j == i + 1 && j < |r| ==> !IsSpace(r[i]) || !IsSpace(r[j]))
  }

  /** Collapsed text neither starts nor ends with whitespace. */
  lemma CollapsedHasNoEdgeSpace(r: string)
    requires IsCollapsed(r)
    ensures r == [] || (!IsSpace(r[0]) && !IsSpace(r[|r| - 1]))
  {
    if r != [] {
      var first, last := 0, |r| - 1;
      assert IsSpace(r[first]) ==> 0 < first;
      assert IsSpace(r[last]) ==> last < |r| - 1;
    }
  }

  /** `" ".join(s.split())`. */
  function Collapse(s: string): (r: string)
    ensures Split(r) == Split(s)
  {
    SplitJoinSpace(Split(s));
    JoinSpace(Split(s))
  }

  lemma {:induction false} JoinSpaceCollapsed(ws: seq<string>)
    requires forall k :: 0 <= k < |ws| ==> IsWord(ws[k])
    ensures IsCollapsed(JoinSpace(ws))
    ensures ws != [] ==> JoinSpace(ws) != []
  {
    if |ws| > 1 {
      JoinSpaceCollapsed(ws[1..]);
      var w, t := ws[0], JoinSpace(ws[1..]);
      var r := w + " " + t;
      assert r == JoinSpace(ws);
      forall i | 0 <= i < |r| && IsSpace(r[i])
        ensures r[i] == ' ' && 0 < i < |r| - 1 && !IsSpace(r[i - 1]) && !IsSpace(r[i + 1])
      {
        if i < |w| {
          assert false;
        } else if i > |w| {
          assert r[i] == t[i - |w| - 1];
          if i - |w| - 1 > 0 {
            assert r[i - 1] == t[i - |w| - 2];
          }
          assert r[i + 1] == t[i - |w|];
        }
      }
    }
  }

  /** The result of `" ".join(s.split())` is whitespace-collapsed. */
  lemma CollapseIsCollapsed(s: string)
    ensures IsCollapsed(Collapse(s))
  {
    JoinSpaceCollapsed(Split(s));
  }

  lemma {:induction false} WordLenOfWord(w: string, t: string)
    requires forall i :: 0 <= i < |w| ==> !IsSpace(w[i])
    requires t == [] || IsSpace(t[0])
    ensures WordLen(w + t) == |w|
  {
    if w != [] {
      assert (w + t)[1..] == w[1..] + t;
      WordLenOfWord(w[1..], t);
    } else {
      assert w + t == t;
    }
  }

  /** Splitting a space-joined list of words gives the words back. */
  lemma {:induction false} SplitJoinSpace(ws: seq<string>)
    requires forall k :: 0 <= k < |ws| ==> IsWord(ws[k])
    ensures Split(JoinSpace(ws)) == ws
  {
    if ws == [] {
    } else if |ws| == 1 {
      var w := ws[0];
      WordLenOfWord(w, []);
      assert w + [] == w;
      assert w[|w|..] == [];
    } else {
      var w, t := ws[0], JoinSpace(ws[1..]);
      var s := w + " " + t;
      assert s == w + (" " + t);
      WordLenOfWord(w, " " + t);
      assert s[..|w|] == w;
      assert s[|w|..] == " " + t;
      assert (" " + t)[1..] == t;
      SplitJoinSpace(ws[1..]);
    }
  }

  /** Collapsing whitespace twice is the same as collapsing it once. */
  lemma CollapseIdempotent(s: string)
    ensures Collapse(Collapse(s)) == Collapse(s)
  {
    SplitJoinSpace(Split(s));
  }

  /** Collapsing changes nothing exactly when the text is already collapsed. */
  lemma CollapseFixedIffCollapsed(r: string)
    ensures Collapse(r) == r <==> IsCollapsed(r)
  {
    CollapseIsCollapsed(r);
    if IsCollapsed(r) {
      CollapsedIsFixed(r);
    }
  }

  /** After the first word of collapsed text come one space and more collapsed text. */
  lemma {:induction false} CollapsedTail(r: string, n: nat, rest: string)
    requires IsCollapsed(r) && r != [] && n == WordLen(r) < |r| && rest == r[n + 1..]
    ensures r[n] == ' ' && rest != [] && IsCollapsed(rest)
    ensures r == r[..n] + " " + rest
  {
    assert IsSpace(r[n]);
    var after := n + 1;
    assert !IsSpace(r[after]);
    CollapsedSuffix(r, after);
    assert r == r[..n] + [r[n]] + rest;
  }

  /** Collapsed text stays collapsed from any non-whitespace character on. */
  lemma {:induction false} CollapsedSuffix(r: string, k: nat)
    requires IsCollapsed(r) && k < |r| && !IsSpace(r[k])
    ensures IsCollapsed(r[k..])
  {
    var rest := r[k..];
    forall i | 0 <= i < |rest| && IsSpace(rest[i])
      ensures rest[i] == ' ' && 0 < i < |rest| - 1
    {
      assert rest[i] == r[k + i];
    }
    forall i, j | 0 <= i && j == i + 1 && j < |rest|
      ensures !IsSpace(rest[i]) || !IsSpace(rest[j])
    {
      assert rest[i] == r[k + i] && rest[j] == r[k + j];
    }
  }

  /** `split` of a word, a space and more text. */
  lemma {:induction false} SplitAfterWord(r: string, n: nat, rest: string)
    requires r != [] && !IsSpace(r[0]) && n == WordLen(r) < |r| && rest == r[n + 1..]
    ensures Split(r) == [r[..n]] + Split(rest)
  {
    assert r[n..][1..] == rest;
  }

  lemma {:induction false} JoinSpaceCons(w: string, ws: seq<string>)
    requires ws != []
    ensures JoinSpace([w] + ws) == w + " " + JoinSpace(ws)
  {
    assert ([w] + ws)[1..] == ws;
  }

  lemma {:induction false} CollapsedIsFixed(r: string)
    requires IsCollapsed(r)
    ensures Collapse(r) == r
    decreases |r|
  {
    if r != [] {
      assert !IsSpace(r[0]);
      var n := WordLen(r);
      if n == |r| {
        assert r[..n] == r && r[n..] == [];
        assert Split(r) == [r] + Split([]);
        assert Split(r) == [r];
      } else {
        var rest := r[n + 1..];
        CollapsedTail(r, n, rest);
        CollapsedIsFixed(rest);
        SplitAfterWord(r, n, rest);
        var ws := Split(rest);
        assert ws != [];
        JoinSpaceCons(r[..n], ws);
      }
    }
  }

  /** Python's `str.lower()` on the ASCII letters. */
  function LowerChar(c: char): (d: char)
    ensures 'A' <= c <= 'Z' ==> 'a' <= d <= 'z'
    ensures !('A' <= c <= 'Z') ==> d == c
  {
    if 'A' <= c <= 'Z' then (c as int - 'A' as int + 'a' as int) as char else c
  }

  function Lower(s: string): (r: string)
    ensures |r| == |s|
    ensures forall i :: 0 <= i < |s| ==> r[i] == LowerChar(s[i])
  {
    seq(|s|, i requires 0 <= i < |s| => LowerChar(s[i]))
  }
}
