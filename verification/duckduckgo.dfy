/**
 The key-free alternative provider (`fallback_search_alternative`). The
 DuckDuckGo client library is replaced by a fetch function from the request
 to its outcome: the list of hits, the library being absent, or an exception.
 */
module DuckDuckGo {
  import opened Text
  import opened Listing

  /** One hit as the client library returns it. */
  datatype DdgHit = DdgHit(title: string, body: string, href: string)

  /** The keywords and result count handed to the client library. */
  datatype DdgRequest = DdgRequest(keywords: string, maxResults: nat)

  datatype DdgResponse =
    | Hits(hits: seq<DdgHit>)
    | NotInstalled
    | Failed(message: string)

  const UnavailablePrefix: string := "Alternative search unavailable"
  const NotInstalledMessage: string := UnavailablePrefix + ": duckduckgo-search not installed."
  const NoResultsMessage: string := "No relevant " + "search results found."
  const MaxResults: nat := 3

  /** The qualifiers wrapped around the user's question before it is sent. */
  const QueryLead: string := "agricultural advice "
  const QueryTrail: string := " farming"

  /** The keywords actually sent: the user's question wrapped in an agricultural qualifier. */
  function EnhancedQuery(query: string): string {
    QueryLead + query + QueryTrail
  }

  /** The request carries the question unchanged between the two qualifiers and asks for three hits. */
  function RequestFor(query: string): (req: DdgRequest)
    ensures |req.keywords| == |QueryLead| + |query| + |QueryTrail|
    ensures req.keywords[..|QueryLead|] == QueryLead
    ensures req.keywords[|QueryLead|..|QueryLead| + |query|] == query
    ensures req.keywords[|QueryLead| + |query|..] == QueryTrail
    ensures req.maxResults == MaxResults
  {
    var req := DdgRequest(EnhancedQuery(query), MaxResults);
    assert req.keywords == QueryLead + (query + QueryTrail);
    req
  }

  /** Distinct questions are sent as distinct keywords. */
  lemma RequestDeterminesQuery(q1: string, q2: string)
    requires RequestFor(q1).keywords == RequestFor(q2).keywords
    ensures q1 == q2
  {
    var s := RequestFor(q1).keywords;
    assert |q1| == |q2|;
    assert q1 == s[|QueryLead|..|QueryLead| + |q1|] == q2;
  }

  function ToItems(hits: seq<DdgHit>): (items: seq<Item>)
    ensures |items| == |hits|
    ensures forall k :: 0 <= k < |hits| ==> items[k] == Item(hits[k].title, hits[k].body, hits[k].href)
  {
    seq(|hits|, k requires 0 <= k < |hits| => Item(hits[k].title, hits[k].body, hits[k].href))
  }

  /**
   `fallback_search_alternative`: a reply prefixed "Alternative search
   unavailable" exactly when the library is missing or raised, the
   no-results message for an empty hit list, and otherwise the listing of
   every hit the library returned, with no further cap.
   */
  function FallbackSearchAlternative(query: string, fetch: DdgRequest -> DdgResponse): (r: string)
    ensures UnavailablePrefix <= r <==> !fetch(RequestFor(query)).Hits?
    ensures fetch(RequestFor(query)).NotInstalled? ==> r == NotInstalledMessage
    ensures fetch(RequestFor(query)).Failed? ==> r == UnavailablePrefix + ": " + fetch(RequestFor(query)).message
    ensures fetch(RequestFor(query)).Hits? ==>
              var hits := fetch(RequestFor(query)).hits;
              && (|hits| == 0 ==> r == NoResultsMessage)
              && (|hits| > 0 ==> r == FormatListing(ToItems(hits)) && FirstHeading <= r)
  {
    match fetch(RequestFor(query))
    case NotInstalled => NotInstalledMessage
    case Failed(m) => UnavailablePrefix + ": " + m
    case Hits(hits) =>
      if |hits| > 0 then
        var r := FormatListing(ToItems(hits));
        assert r[0] == '*';
        r
      else
        assert NoResultsMessage[0] == 'N';
        NoResultsMessage
  }

  /**
   Every hit has its block in the reply: block `k` shows hit `k`'s title, body
   and href, numbered `k + 1`.
   */
  lemma ReplyListsEveryHit(query: string, fetch: DdgRequest -> DdgResponse, k: nat)
    requires fetch(RequestFor(query)).Hits? && k < |fetch(RequestFor(query)).hits|
    ensures var hits := fetch(RequestFor(query)).hits;
            var e := FormatEntry(k + 1, Item(hits[k].title, hits[k].body, hits[k].href));
            var r := FallbackSearchAlternative(query, fetch);
            var at := BlockStart(ToItems(hits), k);
            at + |e| <= |r| && r[at..at + |e|] == e
  {
    ListingBlock(ToItems(fetch(RequestFor(query)).hits), k);
  }

  /** The block of the last hit, numbered with the hit count, ends the reply: no hit is cut off. */
  lemma ReplyEndsWithLastHit(query: string, fetch: DdgRequest -> DdgResponse)
    requires fetch(RequestFor(query)).Hits? && |fetch(RequestFor(query)).hits| > 0
    ensures var hits := fetch(RequestFor(query)).hits;
            var n := |hits|;
            var e := FormatEntry(n, Item(hits[n - 1].title, hits[n - 1].body, hits[n - 1].href));
            BlockStart(ToItems(hits), n - 1) + |e| == |FallbackSearchAlternative(query, fetch)|
  {
    ListingLast(ToItems(fetch(RequestFor(query)).hits));
  }
}
