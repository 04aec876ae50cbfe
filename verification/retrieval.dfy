/**
 The retrieval accept/reject decision (`retrieve_context_with_score`). The
 embedding model and the FAISS index are replaced by a search function from
 (query, k) to the hits the index returns, nearest first.
 */
module Retrieval {
  import opened Wrappers
  import opened Text

  /** A returned passage and its distance from the query (lower is closer). */
  datatype Hit = Hit(content: string, distance: real)

  /** The persisted index: either the file is absent, or it answers nearest-neighbour searches. */
  datatype VectorIndex = Missing | Loaded(search: (string, nat) -> seq<Hit>)

  /** The pair `(context, score)`: `context` is `None` when local retrieval abstains. */
  datatype Retrieved = Retrieved(context: Option<string>, score: real)

  const DefaultTopK: nat := 3

  /** Passages of an accepted result are separated by a blank line. */
  const PassageSeparator: string := "\n\n"

  /** The contents of `hits`, in the order the index returned them. */
  function Contents(hits: seq<Hit>): (cs: seq<string>)
    ensures |cs| == |hits|
    ensures forall i :: 0 <= i < |hits| ==> cs[i] == hits[i].content
  {
    seq(|hits|, i requires 0 <= i < |hits| => hits[i].content)
  }

  /**
   `retrieve_context_with_score`: abstains with score 0 when the index is
   missing or returns nothing; otherwise the score is the first hit's distance,
   the result abstains exactly when that distance exceeds the threshold, and an
   accepted context joins every returned passage.
   */
  function RetrieveContextWithScore(query: string, index: VectorIndex, topK: nat, threshold: real)
    : (r: Retrieved)
    ensures index.Missing? ==> r == Retrieved(None, 0.0)
    ensures index.Loaded? && |index.search(query, topK)| == 0 ==> r == Retrieved(None, 0.0)
    ensures index.Loaded? && |index.search(query, topK)| > 0 ==>
              && r.score == index.search(query, topK)[0].distance
              && (r.context.None? <==> r.score > threshold)
              && (r.context.Some? ==> r.context.value == Join(Contents(index.search(query, topK)), PassageSeparator))
  {
    match index
    case Missing => Retrieved(None, 0.0)
    case Loaded(search) =>
      var results := search(query, topK);
      if |results| == 0 then Retrieved(None, 0.0)
      else
        var best := results[0].distance;
        if best > threshold then Retrieved(None, best)
        else Retrieved(Some(Join(Contents(results), PassageSeparator)), best)
  }

  /** An accepted result never reports a distance above the threshold. */
  lemma AcceptedWithinThreshold(query: string, index: VectorIndex, topK: nat, threshold: real)
    requires RetrieveContextWithScore(query, index, topK, threshold).context.Some?
    ensures RetrieveContextWithScore(query, index, topK, threshold).score <= threshold
  {
  }

  /**
   Raising the threshold never turns an acceptance into an abstention, and the
   accepted result is unchanged.
   */
  lemma ThresholdMonotone(query: string, index: VectorIndex, topK: nat, low: real, high: real)
    requires low <= high
    requires RetrieveContextWithScore(query, index, topK, low).context.Some?
    ensures RetrieveContextWithScore(query, index, topK, high) == RetrieveContextWithScore(query, index, topK, low)
  {
  }

  /**
   An accepted context holds every returned passage at its place, whatever
   that passage's own distance: passage `i` starts at `Offset(..., i)`.
   */
  lemma AcceptedContextHoldsEveryPassage(query: string, index: VectorIndex, topK: nat, threshold: real, i: nat)
    requires RetrieveContextWithScore(query, index, topK, threshold).context.Some?
    requires index.Loaded? && i < |index.search(query, topK)|
    ensures var hits := index.search(query, topK);
            var ctx := RetrieveContextWithScore(query, index, topK, threshold).context.value;
            var at := Offset(Contents(hits), PassageSeparator, i);
            && at + |hits[i].content| <= |ctx|
            && ctx[at..at + |hits[i].content|] == hits[i].content
  {
    JoinPart(Contents(index.search(query, topK)), PassageSeparator, i);
  }
}
