/**
 The provider fallback chain (`comprehensive_fallback_search`). SerpAPI is
 tried only when a key is present; DuckDuckGo is tried next unless SerpAPI's
 reply was accepted. A reply is judged by its prefix alone, so a "no
 results" reply from either provider counts as a success. The result records
 which providers were consulted, in order, so that the short circuit can be
 stated.
 */
module FallbackChain {
  import opened Wrappers
  import opened Text
  import SerpApi
  import DuckDuckGo

  datatype Provider = SerpApiProvider | DuckDuckGoProvider

  /** The text handed back to the caller and the providers consulted to produce it. */
  datatype SearchReport = SearchReport(text: string, consulted: seq<Provider>)

  /** The magnifier icon of the headers, kept as the byte-garbled text the program carries. */
  const SearchIcon: string := "\U{F8FF}\U{FC}\U{EE}\U{E7}"
  /** The prohibition icon of the all-failed message, likewise garbled. */
  const BlockedIcon: string := "\U{F8FF}\U{FC}\U{F6}\U{B4}"

  const SerpHeader: string := SearchIcon + " **Live Internet Search Results:**\n\n"
  const DdgHeader: string := SearchIcon + " **Live Internet Search Results (via DuckDuckGo):**\n\n"
  const AllFailedMessage: string :=
    BlockedIcon + " **Live search currently unavailable.**\n\n"
    + "Please check your internet connection or API key configuration. "
    + "You can try rephrasing your query or ask about topics covered in the local KCC dataset."

  /** The chain accepts a SerpAPI reply unless it announces unavailability. */
  predicate SerpAccepted(reply: string) {
    !(SerpApi.UnavailablePrefix <= reply)
  }

  /** The chain accepts a DuckDuckGo reply unless it announces unavailability. */
  predicate DdgAccepted(reply: string) {
    !(DuckDuckGo.UnavailablePrefix <= reply)
  }

  /**
   The structural outcome under which the chain takes SerpAPI's reply: a key
   is present and the HTTP exchange produced a parsed body.
   */
  predicate SerpSucceeds(query: string, apiKey: Option<string>, serp: SerpApi.SerpRequest -> SerpApi.SerpResponse) {
    Truthy(apiKey) && serp(SerpApi.RequestFor(query, apiKey.value)).Parsed?
  }

  /**
   `comprehensive_fallback_search`. The chain's prefix tests agree with the
   providers' structural outcomes: SerpAPI's reply wins exactly when a key is
   present and its exchange produced a parsed body (even with no usable
   result); otherwise DuckDuckGo's reply wins exactly when the library
   returned a hit list (even an empty one); otherwise the fixed all-failed
   message is returned. SerpAPI is consulted iff the key is truthy, and
   DuckDuckGo iff SerpAPI did not win.
   */
  function ComprehensiveFallbackSearch(query: string, apiKey: Option<string>,
                                       serp: SerpApi.SerpRequest -> SerpApi.SerpResponse,
                                       ddg: DuckDuckGo.DdgRequest -> DuckDuckGo.DdgResponse)
    : (r: SearchReport)
    ensures SerpApiProvider in r.consulted <==> Truthy(apiKey)
    ensures DuckDuckGoProvider in r.consulted <==> !SerpSucceeds(query, apiKey, serp)
    ensures r.consulted == [SerpApiProvider]
         || r.consulted == [SerpApiProvider, DuckDuckGoProvider]
         || r.consulted == [DuckDuckGoProvider]
    ensures SerpSucceeds(query, apiKey, serp) ==>
              r.text == SerpHeader + SerpApi.FallbackLiveSearch(query, apiKey, serp)
    ensures !SerpSucceeds(query, apiKey, serp) && ddg(DuckDuckGo.RequestFor(query)).Hits? ==>
              r.text == DdgHeader + DuckDuckGo.FallbackSearchAlternative(query, ddg)
    ensures !SerpSucceeds(query, apiKey, serp) && !ddg(DuckDuckGo.RequestFor(query)).Hits? ==>
              r.text == AllFailedMessage
  {
    var tried: seq<Provider> := if Truthy(apiKey) then [SerpApiProvider] else [];
    var serpReply := if Truthy(apiKey) then SerpApi.FallbackLiveSearch(query, apiKey, serp) else "";
    if Truthy(apiKey) && SerpAccepted(serpReply) then
      SearchReport(SerpHeader + serpReply, tried)
    else
      var ddgReply := DuckDuckGo.FallbackSearchAlternative(query, ddg);
      if DdgAccepted(ddgReply) then
        SearchReport(DdgHeader + ddgReply, tried + [DuckDuckGoProvider])
      else
        SearchReport(AllFailedMessage, tried + [DuckDuckGoProvider])
  }

  /**
   Neither provider's no-results reply announces unavailability, so the chain
   accepts both as successes.
   */
  lemma NoResultsRepliesAccepted()
    ensures SerpAccepted(SerpApi.NoResultsMessage)
    ensures DdgAccepted(DuckDuckGo.NoResultsMessage)
  {
    assert SerpApi.NoResultsMessage[0] == 'N';
    assert DuckDuckGo.NoResultsMessage[0] == 'N';
  }

  /**
   A SerpAPI response with no usable result ends the chain: its no-results
   reply is returned under the SerpAPI header and DuckDuckGo is never asked.
   */
  lemma SerpNoResultsShortCircuits(query: string, apiKey: Option<string>,
                                   serp: SerpApi.SerpRequest -> SerpApi.SerpResponse,
                                   ddg: DuckDuckGo.DdgRequest -> DuckDuckGo.DdgResponse)
    requires Truthy(apiKey)
    requires serp(SerpApi.RequestFor(query, apiKey.value)).Parsed?
    requires |SerpApi.CollectItems(serp(SerpApi.RequestFor(query, apiKey.value)).data)| == 0
    ensures ComprehensiveFallbackSearch(query, apiKey, serp, ddg)
         == SearchReport(SerpHeader + SerpApi.NoResultsMessage, [SerpApiProvider])
  {
  }

  /** Without a key the chain goes straight to DuckDuckGo, whatever SerpAPI would have answered. */
  lemma NoKeySkipsSerpApi(query: string, apiKey: Option<string>,
                          serp: SerpApi.SerpRequest -> SerpApi.SerpResponse,
                          ddg: DuckDuckGo.DdgRequest -> DuckDuckGo.DdgResponse)
    requires !Truthy(apiKey)
    ensures ComprehensiveFallbackSearch(query, apiKey, serp, ddg).consulted == [DuckDuckGoProvider]
    ensures ddg(DuckDuckGo.RequestFor(query)).Hits? ==>
              DdgHeader <= ComprehensiveFallbackSearch(query, apiKey, serp, ddg).text
  {
  }

  /** When both providers fail, both were consulted and the fixed message is returned. */
  lemma BothFailed(query: string, apiKey: Option<string>,
                   serp: SerpApi.SerpRequest -> SerpApi.SerpResponse,
                   ddg: DuckDuckGo.DdgRequest -> DuckDuckGo.DdgResponse)
    requires Truthy(apiKey)
    requires !serp(SerpApi.RequestFor(query, apiKey.value)).Parsed?
    requires !ddg(DuckDuckGo.RequestFor(query)).Hits?
    ensures ComprehensiveFallbackSearch(query, apiKey, serp, ddg)
         == SearchReport(AllFailedMessage, [SerpApiProvider, DuckDuckGoProvider])
  {
  }
}
