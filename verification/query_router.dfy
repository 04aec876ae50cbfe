/**
 The front end's handling of one question (app.py): one retrieval, then
 either local generation when the returned context is non-empty, or the web
 fallback chain otherwise. The local model is a generator function from
 (query, context) to its outcome; widgets and rendering are reduced to the
 screen the handler ends on and the trace of collaborator calls it made.
 */
module QueryRouter {
  import opened Wrappers
  import opened Text
  import opened Retrieval
  import SerpApi
  import DuckDuckGo
  import FallbackChain

  /** The displayed relevance of a local context. */
  datatype Band = High | Medium | Low

  /** Better bands rank higher. */
  function Rank(b: Band): nat {
    match b
    case High => 2
    case Medium => 1
    case Low => 0
  }

  /** The quality band shown for a retrieval distance. */
  function QualityBand(distance: real): (b: Band)
    ensures b == High <==> distance < 0.7
    ensures b == Medium <==> 0.7 <= distance < 1.2
    ensures b == Low <==> 1.2 <= distance
  {
    if distance < 0.7 then High else if distance < 1.2 then Medium else Low
  }

  /** A smaller distance never gets a worse band. */
  lemma BandMonotone(closer: real, farther: real)
    requires closer <= farther
    ensures Rank(QualityBand(closer)) >= Rank(QualityBand(farther))
  {
  }

  /** The relevance-threshold slider's range. */
  const SliderMin: real := 0.5
  const SliderMax: real := 2.0

  predicate SliderValue(threshold: real) {
    SliderMin <= threshold <= SliderMax
  }

  /** What the local model produced, or the exception it raised. */
  datatype GenOutcome = Generated(text: string) | GenerationFailed(message: string)

  /** A call the handler makes on a collaborator. */
  datatype Call =
    | Retrieve(query: string, threshold: real)
    | Generate(query: string, context: string)
    | WebSearch(query: string, apiKey: Option<string>)

  /** The screen a question ends on. */
  datatype Screen =
    | Idle
    | LocalAnswer(band: Band, score: real, answer: string, context: string)
    | LocalFailure(band: Band, score: real, message: string)
    | WebResults(score: real, report: FallbackChain.SearchReport)

  datatype Session = Session(screen: Screen, calls: seq<Call>)

  /** `st.secrets.get("SERPAPI_API_KEY") or None`: an empty secret counts as no key. */
  function ApiKeyOf(secret: Option<string>): (k: Option<string>)
    ensures Truthy(k) <==> Truthy(secret)
    ensures k.Some? ==> k == secret
    ensures !Truthy(secret) ==> k == None
  {
    if Truthy(secret) then secret else None
  }

  /**
   The handling of one question. An empty question does nothing. Otherwise
   retrieval runs exactly once, first; generation runs iff the returned
   context is non-empty, and the web chain (with the same question and the
   normalised key) runs iff it is not; the band shown with a local context is
   the band of the retrieval score.
   */
  function HandleQuery(query: string, threshold: real, index: VectorIndex, secret: Option<string>,
                       generate: (string, string) -> GenOutcome,
                       serp: SerpApi.SerpRequest -> SerpApi.SerpResponse,
                       ddg: DuckDuckGo.DdgRequest -> DuckDuckGo.DdgResponse)
    : (s: Session)
    ensures query == "" <==> s.screen.Idle?
    ensures query == "" ==> s.calls == []
    ensures query != "" ==>
              var got := RetrieveContextWithScore(query, index, DefaultTopK, threshold);
              && |s.calls| == 2
              && s.calls[0] == Retrieve(query, threshold)
              && (s.calls[1].Generate? <==> Truthy(got.context))
              && (s.calls[1].WebSearch? <==> !Truthy(got.context))
              && s.screen.score == got.score
              && (Truthy(got.context) ==>
                    && s.calls[1] == Generate(query, got.context.value)
                    && (s.screen.LocalAnswer? || s.screen.LocalFailure?)
                    && s.screen.band == QualityBand(got.score)
                    && (s.screen.LocalAnswer? <==> generate(query, got.context.value).Generated?)
                    && (s.screen.LocalAnswer? ==>
                          && s.screen.answer == generate(query, got.context.value).text
                          && s.screen.context == got.context.value)
                    && (s.screen.LocalFailure? ==>
                          s.screen.message == generate(query, got.context.value).message))
              && (!Truthy(got.context) ==>
                    && s.calls[1] == WebSearch(query, ApiKeyOf(secret))
                    && s.screen == WebResults(got.score,
                         FallbackChain.ComprehensiveFallbackSearch(query, ApiKeyOf(secret), serp, ddg)))
  {
    if query == "" then Session(Idle, [])
    else
      var got := RetrieveContextWithScore(query, index, DefaultTopK, threshold);
      if Truthy(got.context) then
        var context := got.context.value;
        var band := QualityBand(got.score);
        var calls := [Retrieve(query, threshold), Generate(query, context)];
        match generate(query, context)
        case Generated(answer) => Session(LocalAnswer(band, got.score, answer, context), calls)
        case GenerationFailed(m) => Session(LocalFailure(band, got.score, m), calls)
      else
        var apiKey := ApiKeyOf(secret);
        var report := FallbackChain.ComprehensiveFallbackSearch(query, apiKey, serp, ddg);
        Session(WebResults(got.score, report), [Retrieve(query, threshold), WebSearch(query, apiKey)])
  }

  /**
   With a slider threshold below 1.2, a question answered from local context
   is never shown with the Low band: the accepted score is at most the
   threshold.
   */
  lemma LocalContextNotLowBelowBoundary(query: string, threshold: real, index: VectorIndex,
                                        secret: Option<string>,
                                        generate: (string, string) -> GenOutcome,
                                        serp: SerpApi.SerpRequest -> SerpApi.SerpResponse,
                                        ddg: DuckDuckGo.DdgRequest -> DuckDuckGo.DdgResponse)
    requires SliderValue(threshold) && threshold < 1.2
    requires query != ""
    requires HandleQuery(query, threshold, index, secret, generate, serp, ddg).calls[1].Generate?
    ensures HandleQuery(query, threshold, index, secret, generate, serp, ddg).screen.band != Low
  {
    AcceptedWithinThreshold(query, index, DefaultTopK, threshold);
  }

  /** An index whose every search returns the given hits. */
  function FixedIndex(hits: seq<Hit>): VectorIndex {
    Loaded((q: string, k: nat) => hits)
  }

  /**
   At the boundary the bound fails: with the slider at 1.2 and a nearest
   distance of exactly 1.2, retrieval accepts (the threshold test is strict)
   but the band test is strict too, so the local context is shown as Low.
   */
  lemma BoundaryAcceptedContextIsLow(generate: (string, string) -> GenOutcome,
                                     serp: SerpApi.SerpRequest -> SerpApi.SerpResponse,
                                     ddg: DuckDuckGo.DdgRequest -> DuckDuckGo.DdgResponse)
    ensures var s := HandleQuery("q", 1.2, FixedIndex([Hit("passage", 1.2)]), None, generate, serp, ddg);
            s.calls[1].Generate? && s.screen.band == Low
  {
    var got := RetrieveContextWithScore("q", FixedIndex([Hit("passage", 1.2)]), DefaultTopK, 1.2);
    assert got.context == Some("passage");
  }

  /**
   An accepted retrieval whose joined context is empty is not truthy, so the
   question goes to the web chain although retrieval accepted it.
   */
  lemma EmptyAcceptedContextFallsBack(generate: (string, string) -> GenOutcome,
                                      serp: SerpApi.SerpRequest -> SerpApi.SerpResponse,
                                      ddg: DuckDuckGo.DdgRequest -> DuckDuckGo.DdgResponse)
    ensures RetrieveContextWithScore("q", FixedIndex([Hit("", 0.1)]), DefaultTopK, 1.0).context == Some("")
    ensures HandleQuery("q", 1.0, FixedIndex([Hit("", 0.1)]), None, generate, serp, ddg).calls[1].WebSearch?
  {
  }

  /** A close match (distance 0.4, threshold 1.0) is answered locally with the High band. */
  lemma CloseMatchAnsweredLocally(query: string, content: string, secret: Option<string>,
                                  generate: (string, string) -> GenOutcome,
                                  serp: SerpApi.SerpRequest -> SerpApi.SerpResponse,
                                  ddg: DuckDuckGo.DdgRequest -> DuckDuckGo.DdgResponse)
    requires query != "" && content != ""
    ensures var s := HandleQuery(query, 1.0, FixedIndex([Hit(content, 0.4)]), secret, generate, serp, ddg);
            s.calls == [Retrieve(query, 1.0), Generate(query, content)] && s.screen.band == High
  {
  }

  /** A distant match (distance 1.8, threshold 1.0) goes to the web chain and reports 1.8. */
  lemma DistantMatchFallsBack(query: string, content: string, secret: Option<string>,
                              generate: (string, string) -> GenOutcome,
                              serp: SerpApi.SerpRequest -> SerpApi.SerpResponse,
                              ddg: DuckDuckGo.DdgRequest -> DuckDuckGo.DdgResponse)
    requires query != ""
    ensures var s := HandleQuery(query, 1.0, FixedIndex([Hit(content, 1.8)]), secret, generate, serp, ddg);
            s.calls[1].WebSearch? && s.screen.score == 1.8
  {
  }
}
