/**
 * The local embedder: a TF-IDF vectoriser that must be fitted on the corpus
 * before it can embed.  The vectoriser itself is a pair of functions given at
 * construction: `fitTransform` (learn a vocabulary of at most `dimension`
 * terms and return the corpus matrix, or None when it raises because the
 * corpus is empty or yields no terms) and `transform` (project a text onto a
 * vocabulary).  Vector entries are opaque reals.
 */
module Embeddings {
  import opened Wrappers

  /** The fitted state of the vectoriser. */
  type Vocabulary = seq<string>

  /** A dense matrix and its number of columns. */
  datatype Matrix = Matrix(rows: seq<seq<real>>, cols: nat)

  datatype EmbedError =
    | FitFailed        // `fit_transform` raised: an empty corpus or an empty vocabulary
    | NotFitted        // "Call fit() with all texts first!"
    | NothingToStack   // np.vstack of an empty list
    | RaggedRows       // np.vstack of rows of different lengths

  /** `vec` followed by zeros up to `width` entries; a longer vector is left as it is. */
  function Pad(vec: seq<real>, width: nat): (r: seq<real>)
    ensures |r| == Max(|vec|, width)
    ensures r[..|vec|] == vec
    ensures forall i :: |vec| <= i < |r| ==> r[i] == 0.0
  {
    if |vec| < width then vec + seq(width - |vec|, _ => 0.0) else vec
  }

  class OfflineEmbedder {
    const dimension: nat
    const fitTransform: (nat, seq<string>) -> Option<(Vocabulary, Matrix)>
    const transform: (Vocabulary, string) -> seq<real>
    var vocabulary: Vocabulary
    var fitted: bool
    var matrix: Option<Matrix>

    /** A new embedder is unfitted and has no matrix. */
    constructor (dimension: nat, fitTransform: (nat, seq<string>) -> Option<(Vocabulary, Matrix)>,
                 transform: (Vocabulary, string) -> seq<real>)
      ensures this.dimension == dimension && this.fitTransform == fitTransform && this.transform == transform
      ensures !fitted && matrix == None && vocabulary == []
    {
      this.dimension := dimension;
      this.fitTransform := fitTransform;
      this.transform := transform;
      vocabulary := [];
      fitted := false;
      matrix := None;
    }

    /** Whether `embed` will succeed: fitted and holding a matrix. */
    predicate Ready()
      reads this
    {
      fitted && matrix.Some?
    }

    /**
     * `fit`: learn the vocabulary from the corpus and keep its matrix.  When
     * the vectoriser raises, the exception propagates before either field is
     * assigned, so the embedder is left as it was.
     */
    method Fit(texts: seq<string>) returns (r: Result<(), EmbedError>)
      modifies this
      ensures r.Ok? <==> fitTransform(dimension, texts).Some?
      ensures r.Ok? ==> Ready() && (vocabulary, matrix.value) == fitTransform(dimension, texts).value
      ensures r.Err? ==> r.error == FitFailed && vocabulary == old(vocabulary)
                         && fitted == old(fitted) && matrix == old(matrix)
    {
      var fit := fitTransform(dimension, texts);
      if fit.None? {
        return Err(FitFailed);
      }
      vocabulary := fit.value.0;
      matrix := Some(fit.value.1);
      fitted := true;
      r := Ok(());
    }

    /**
     * `embed`: refuse while unfitted; otherwise the text's vector, padded with
     * zeros to the fitted matrix's column count.  Nothing about the embedder
     * changes.
     */
    method Embed(text: string) returns (r: Result<seq<real>, EmbedError>)
      ensures !Ready() <==> r == Err(NotFitted)
      ensures Ready() ==> (
        && r.Ok?
        && |r.value| == Max(|transform(vocabulary, text)|, matrix.value.cols)
        && r.value[..|transform(vocabulary, text)|] == transform(vocabulary, text)
        && (forall i :: |transform(vocabulary, text)| <= i < |r.value| ==> r.value[i] == 0.0))
    {
      if !fitted || matrix.None? {
        return Err(NotFitted);
      }
      var vec := transform(vocabulary, text);
      if |vec| < matrix.value.cols {
        vec := vec + seq(matrix.value.cols - |vec|, _ => 0.0);
      }
      r := Ok(vec);
    }

    /** The vector `embed` gives once the embedder is ready. */
    function Embedded(text: string): seq<real>
      reads this
      requires Ready()
    {
      Pad(transform(vocabulary, text), matrix.value.cols)
    }

    /** Whether all the texts' vectors have one length, as stacking them needs. */
    predicate SameWidth(texts: seq<string>)
      reads this
      requires Ready()
    {
      forall i :: 0 <= i < |texts| ==> |Embedded(texts[i])| == |Embedded(texts[0])|
    }

    /**
     * `embed_batch`: embed every text, in order, and stack the vectors into one
     * row per text.  Stacking refuses an empty list and rows of different
     * lengths; an unfitted embedder fails on the first text.
     */
    method EmbedBatch(texts: seq<string>) returns (r: Result<seq<seq<real>>, EmbedError>)
      ensures texts != [] && !Ready() ==> r == Err(NotFitted)
      ensures texts == [] ==> r == Err(NothingToStack)
      ensures texts != [] && Ready() && !SameWidth(texts) ==> r == Err(RaggedRows)
      ensures texts != [] && Ready() && SameWidth(texts) ==> (
        && r.Ok?
        && |r.value| == |texts|
        && forall i :: 0 <= i < |texts| ==> r.value[i] == Embedded(texts[i]) && |r.value[i]| >= matrix.value.cols)
    {
      var rows: seq<seq<real>> := [];
      for i := 0 to |texts|
        invariant |rows| == i
        invariant i > 0 ==> Ready()
        invariant forall k :: 0 <= k < i ==> rows[k] == Embedded(texts[k])
      {
        var v := Embed(texts[i]);
        if v.Err? {
          return Err(v.error);
        }
        rows := rows + [v.value];
      }
      if rows == [] {
        return Err(NothingToStack);
      }
      for i := 0 to |rows|
        invariant forall k :: 0 <= k < i ==> |rows[k]| == |rows[0]|
      {
        if |rows[i]| != |rows[0]| {
          return Err(RaggedRows);
        }
      }
      r := Ok(rows);
    }
  }

  /**
   * Once every text's vector has the fitted width (the vectoriser projects
   * onto its own vocabulary), stacking never fails on shape: each row has
   * exactly the matrix's column count.
   */
  lemma UniformWidth(e: OfflineEmbedder, texts: seq<string>)
    requires e.Ready()
    requires forall i :: 0 <= i < |texts| ==> |e.transform(e.vocabulary, texts[i])| <= e.matrix.value.cols
    ensures e.SameWidth(texts)
    ensures forall i :: 0 <= i < |texts| ==> |e.Embedded(texts[i])| == e.matrix.value.cols
  {
  }
}
