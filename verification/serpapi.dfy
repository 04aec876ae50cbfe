/**
 Live web search through SerpAPI (`fallback_live_search`). The HTTP request
 is replaced by a fetch function from the request to its outcome: the parsed
 JSON body, or the exception that the call, the status check or the JSON
 decoding raised.
 */
module SerpApi {
  import opened Wrappers
  import opened Text
  import opened Listing

  /** One entry of `organic_results`; `None` is a missing key. */
  datatype Organic = Organic(title: Option<string>, snippet: Option<string>, link: Option<string>)

  /** The `answer_box` object; `snippet` is `None` exactly when the key is absent. */
  datatype AnswerBox = AnswerBox(snippet: Option<string>, link: Option<string>)

  /** The parsed response body; each field is `None` when its key is absent. */
  datatype SerpData = SerpData(organicResults: Option<seq<Organic>>, answerBox: Option<AnswerBox>)

  /** The query parameters sent to the search endpoint. */
  datatype SerpRequest = SerpRequest(engine: string, q: string, apiKey: string, num: nat, hl: string, gl: string)

  /** What the HTTP exchange produced; the exception messages are opaque. */
  datatype SerpResponse =
    | Parsed(data: SerpData)
    | RequestFailed(message: string)
    | KeyMissing(message: string)
    | OtherFailure(message: string)

  const UnavailablePrefix: string := "Live search unavailable"
  const NoApiKeyMessage: string := UnavailablePrefix + ": No API key provided."
  const NoResultsMessage: string := "No relevant " + "search results found for your agricultural query."
  const FeaturedTitle: string := "Featured Answer"
  const NumResults: nat := 5
  const MaxShown: nat := 3

  /** The qualifiers wrapped around the user's question before it is sent. */
  const QueryLead: string := "agricultural advice "
  const QueryTrail: string := " farming tips"

  /** The query actually sent: the user's question wrapped in an agricultural qualifier. */
  function EnhancedQuery(query: string): string {
    QueryLead + query + QueryTrail
  }

  /**
   The request carries the question unchanged between the two qualifiers,
   together with the caller's key and a result count of five.
   */
  function RequestFor(query: string, apiKey: string): (req: SerpRequest)
    ensures |req.q| == |QueryLead| + |query| + |QueryTrail|
    ensures req.q[..|QueryLead|] == QueryLead
    ensures req.q[|QueryLead|..|QueryLead| + |query|] == query
    ensures req.q[|QueryLead| + |query|..] == QueryTrail
    ensures req.apiKey == apiKey && req.num == NumResults
  {
    var req := SerpRequest("google", EnhancedQuery(query), apiKey, NumResults, "en", "us");
    assert req.q == QueryLead + (query + QueryTrail);
    req
  }

  /** Distinct questions are sent as distinct search strings. */
  lemma RequestDeterminesQuery(q1: string, k1: string, q2: string, k2: string)
    requires RequestFor(q1, k1).q == RequestFor(q2, k2).q
    ensures q1 == q2
  {
    var s := RequestFor(q1, k1).q;
    assert |q1| == |q2|;
    assert q1 == s[|QueryLead|..|QueryLead| + |q1|] == q2;
  }

  /** Python truthiness of `result.get("snippet", "")`. */
  predicate HasSnippet(o: Organic) {
    o.snippet.GetOr("") != ""
  }

  function ToItem(o: Organic): Item {
    Item(o.title.GetOr(""), o.snippet.GetOr(""), o.link.GetOr(""))
  }

  /** The organic results that carry a non-empty snippet, in their original order. */
  function UsableOrganics(os: seq<Organic>): (items: seq<Item>)
    ensures |items| <= |os|
    ensures forall k :: 0 <= k < |items| ==> items[k].snippet != ""
    ensures forall o :: o in os && HasSnippet(o) ==> ToItem(o) in items
    ensures forall it :: it in items ==> exists o :: o in os && HasSnippet(o) && ToItem(o) == it
  {
    if |os| == 0 then []
    else (if HasSnippet(os[0]) then [ToItem(os[0])] else []) + UsableOrganics(os[1..])
  }

  /** Filtering distributes over concatenation, so the kept results keep their relative order. */
  lemma {:induction false} UsableOrganicsAppend(a: seq<Organic>, b: seq<Organic>)
    ensures UsableOrganics(a + b) == UsableOrganics(a) + UsableOrganics(b)
  {
    if |a| > 0 {
      assert (a + b)[1..] == a[1..] + b;
      UsableOrganicsAppend(a[1..], b);
    } else {
      assert a + b == b;
    }
  }

  /** The answer box counts when it has a `snippet` key, whatever its value. */
  predicate HasFeatured(data: SerpData) {
    data.answerBox.Some? && data.answerBox.value.snippet.Some?
  }

  /**
   All usable results of a response: the featured answer first when the
   answer box has a snippet key, then the organic results with snippets.
   */
  function CollectItems(data: SerpData): (items: seq<Item>)
    ensures HasFeatured(data) ==>
              && |items| > 0
              && items[0] == Item(FeaturedTitle, data.answerBox.value.snippet.value, data.answerBox.value.link.GetOr(""))
              && items[1..] == UsableOrganics(data.organicResults.GetOr([]))
    ensures !HasFeatured(data) ==> items == UsableOrganics(data.organicResults.GetOr([]))
  {
    var organics := if data.organicResults.Some? then UsableOrganics(data.organicResults.value) else [];
    match data.answerBox
    case Some(box) =>
      if box.snippet.Some? then [Item(FeaturedTitle, box.snippet.value, box.link.GetOr(""))] + organics
      else organics
    case None => organics
  }

  /** `results[:3]`. */
  function Shown(items: seq<Item>): (shown: seq<Item>)
    ensures |shown| == if |items| < MaxShown then |items| else MaxShown
    ensures shown == items[..|shown|]
  {
    if |items| < MaxShown then items else items[..MaxShown]
  }

  /**
   `fallback_live_search`: a message when there is no key, a message prefixed
   "Live search unavailable" exactly when the exchange failed, the no-results
   message when nothing usable came back, and otherwise the listing of at
   most three results.
   */
  function FallbackLiveSearch(query: string, apiKey: Option<string>, fetch: SerpRequest -> SerpResponse)
    : (r: string)
    ensures !Truthy(apiKey) ==> r == NoApiKeyMessage
    ensures Truthy(apiKey) ==>
              (UnavailablePrefix <= r <==> !fetch(RequestFor(query, apiKey.value)).Parsed?)
    ensures Truthy(apiKey) && !fetch(RequestFor(query, apiKey.value)).Parsed? ==>
              UnavailablePrefix + ": " <= r
    ensures Truthy(apiKey) && fetch(RequestFor(query, apiKey.value)).Parsed? ==>
              var items := CollectItems(fetch(RequestFor(query, apiKey.value)).data);
              && (|items| == 0 ==> r == NoResultsMessage)
              && (|items| > 0 ==> r == FormatListing(Shown(items)) && FirstHeading <= r)
  {
    if !Truthy(apiKey) then NoApiKeyMessage
    else
      match fetch(RequestFor(query, apiKey.value))
      case RequestFailed(m) => UnavailablePrefix + ": Network error (" + m + ")"
      case KeyMissing(m) => UnavailablePrefix + ": Invalid API response (" + m + ")"
      case OtherFailure(m) => UnavailablePrefix + ": " + m
      case Parsed(data) =>
        var items := CollectItems(data);
        if |items| > 0 then
          var r := FormatListing(Shown(items));
          assert r[0] == '*';
          r
        else
          assert NoResultsMessage[0] == 'N';
          NoResultsMessage
  }

  /**
   With a featured answer, the reply opens with it as result 1: the title
   "Featured Answer", the answer box's snippet, and its link.
   */
  lemma FeaturedAnswerLeads(query: string, apiKey: Option<string>, fetch: SerpRequest -> SerpResponse)
    requires Truthy(apiKey)
    requires fetch(RequestFor(query, apiKey.value)).Parsed?
    requires HasFeatured(fetch(RequestFor(query, apiKey.value)).data)
    ensures var box := fetch(RequestFor(query, apiKey.value)).data.answerBox.value;
            var e := FormatEntry(1, Item(FeaturedTitle, box.snippet.value, box.link.GetOr("")));
            var r := FallbackLiveSearch(query, apiKey, fetch);
            |e| <= |r| && r[..|e|] == e
  {
    var items := CollectItems(fetch(RequestFor(query, apiKey.value)).data);
    var shown := Shown(items);
    assert shown[0] == items[0];
    ListingBlock(shown, 0);
  }

  /**
   Block `k` of a reply with results is the `k`-th collected item, numbered
   `k + 1`; only the first three items have a block.
   */
  lemma LiveSearchBlock(query: string, apiKey: Option<string>, fetch: SerpRequest -> SerpResponse, k: nat)
    requires Truthy(apiKey)
    requires fetch(RequestFor(query, apiKey.value)).Parsed?
    requires k < |CollectItems(fetch(RequestFor(query, apiKey.value)).data)| && k < MaxShown
    ensures var items := CollectItems(fetch(RequestFor(query, apiKey.value)).data);
            var e := FormatEntry(k + 1, items[k]);
            var r := FallbackLiveSearch(query, apiKey, fetch);
            var at := BlockStart(Shown(items), k);
            at + |e| <= |r| && r[at..at + |e|] == e
  {
    var items := CollectItems(fetch(RequestFor(query, apiKey.value)).data);
    var shown := Shown(items);
    assert shown[k] == items[k];
    ListingBlock(shown, k);
  }
}
