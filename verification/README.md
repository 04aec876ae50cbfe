# KCC Query Assistant — decision and formatting core in Dafny

This project models the deterministic core of the Kisan Call Centre (KCC)
query assistant: a question-answering front end over farmer queries and
expert answers that falls back to live web search when local retrieval is
not close enough. The model covers five parts:

- **Record normalisation** (`preprocess_kcc`), in module `Preprocess`. A corpus
  row becomes a document only when both its query and its answer are present.
  The document's content follows a fixed three-line template. Its id is the
  row's original position, rendered in decimal.
- **Retrieval accept/reject** (`retrieve_context_with_score`), in module
  `Retrieval`. The FAISS index is a search function returning `(content,
  distance)` hits, nearest first. Only the first hit's distance is compared
  with the threshold. An accepted context joins every returned passage with a
  blank line.
- **Web result shaping**. Module `SerpApi` models `fallback_live_search` and
  module `DuckDuckGo` models `fallback_search_alternative`. Both print the
  numbered listing of module `Listing`.
- **Provider fallback chain** (`comprehensive_fallback_search`), in module
  `FallbackChain`. Provider replies are classified by string prefix.
- **Front-end routing and quality banding** (app.py), in module `QueryRouter`.

Every external collaborator is a function-valued parameter:

- the vector search: `(query, k) -> hits`;
- the SerpAPI HTTP exchange: `request -> parsed body or exception`;
- the DuckDuckGo client: `request -> hits, missing library, or exception`;
- the local language model: `(query, context) -> text or exception`.

Two facts cannot be seen in a return value: which providers the chain
consulted, and which collaborators the front end called. The model therefore
records them in explicit traces: `SearchReport.consulted` and `Session.calls`.

Notes on the behaviour the proofs pin down:

- The chain accepts a reply when it does not start with "Live search
  unavailable" (or "Alternative search unavailable" for DuckDuckGo). So a
  provider that answers "No relevant search results found…" counts as a
  success. A SerpAPI reply of that kind ends the chain: DuckDuckGo is never
  asked (`FallbackChain.SerpNoResultsShortCircuits`).
- The DuckDuckGo listing prints every hit the library returns. It is capped
  only by the `max_results=3` request argument (utils.py:155). The SerpAPI
  listing slices to three after putting the answer box first (utils.py:126).
- An answer box counts when it has a `snippet` key, even with an empty
  value. Organic results count only with a non-empty snippet.
- Retrieval accepts a distance equal to the threshold, but the band test is
  strict (`< 1.2` for Medium). So "an accepted context is never Low" holds
  for every slider value below 1.2 (`QueryRouter.LocalContextNotLowBelowBoundary`).
  It fails at exactly 1.2 with a nearest distance of 1.2
  (`QueryRouter.BoundaryAcceptedContextIsLow`). The band is display-only, so
  this is recorded as a boundary fact, not a defect.
- The front end tests the truthiness of the context, not whether retrieval
  accepted. An accepted retrieval whose joined context is empty therefore
  goes to the web chain (`QueryRouter.EmptyAcceptedContextFallsBack`).

## Model

| member | source | states |
|---|---|---|
| Text.Join | utils.py:53 | `str.join`: empty for no parts; otherwise the joined string starts with the first part |
| Text.JoinLength | utils.py:53 | a join is as long as all parts together plus one separator between each pair of adjacent parts |
| Text.JoinPart | utils.py:53 | the i-th part of a join occurs, unchanged, at the offset given by the earlier parts plus one separator each |
| Text.JoinSeparator | utils.py:132 | between part i and part i+1 of a join there stands exactly one separator |
| Text.JoinLast | utils.py:53 | the last part of a join ends the joined string, so nothing follows it |
| Text.Decimal | utils.py:27 | `str(idx)` is a non-empty digit string with no leading zero, one digit exactly for numbers below ten |
| Text.DecimalRoundTrip | utils.py:27 | reading the decimal rendering of a row position back gives that position |
| Text.DecimalInjective | utils.py:27 | distinct row positions get distinct id strings |
| Preprocess.Content | utils.py:23-26 | a document's content is non-empty and begins with the query line followed by the answer label |
| Preprocess.Kept | utils.py:20 | the kept positions are strictly increasing, in range, and are exactly the positions of rows with both query and answer present |
| Preprocess.PreprocessKcc | utils.py:18-27 | one document per complete row, in row order; document k carries the decimal id and templated content of the k-th complete row |
| Preprocess.RowProducesDocIff | utils.py:20-22 | a row produces a document if and only if both its query and its answer are present |
| Preprocess.DocIdsIdentifyRows | utils.py:22-27 | document ids are pairwise distinct and strictly increasing when read back, and each reads back as the position of a complete row whose content the document carries |
| Retrieval.RetrieveContextWithScore | utils.py:41-54 | missing index or no hits gives no context and score 0; otherwise the score is the first hit's distance, the context is absent exactly when that distance exceeds the threshold, and an accepted context is the blank-line join of all hits' contents in order |
| Retrieval.AcceptedWithinThreshold | utils.py:50-52 | an accepted result never reports a distance above the threshold (equality is accepted) |
| Retrieval.ThresholdMonotone | utils.py:51-52 | raising the threshold never turns an acceptance into an abstention and leaves the accepted result unchanged |
| Retrieval.AcceptedContextHoldsEveryPassage | utils.py:53 | every returned passage, whatever its own distance, appears unchanged at its place in the accepted context |
| Listing.EntryStartsWithHeading | utils.py:127-129 | every result block opens with the heading `**Result i:** ` carrying its own number |
| Listing.Numbered | utils.py:126-130 | one block per item, in order; block k is the block of item k numbered from the given start plus k |
| Listing.FormatListing | utils.py:124-132 | a listing of no items is empty; a listing of at least one item begins with `**Result 1:** ` |
| Listing.ListingBlock | utils.py:126-132 | block k of a listing is item k under the heading `**Result k+1:** `, unchanged, at the offset of the earlier blocks plus one rule each |
| Listing.ListingSeparator | utils.py:132 | exactly one `\n\n---\n\n` rule stands between consecutive blocks |
| Listing.ListingLast | utils.py:132 | the last block, numbered with the item count, ends the listing |
| SerpApi.RequestFor | utils.py:76-88 | the search string is "agricultural advice ", then the question unchanged, then " farming tips"; the request carries the caller's key and a result count of 5 |
| SerpApi.RequestDeterminesQuery | utils.py:76 | distinct questions are sent as distinct search strings |
| SerpApi.UsableOrganics | utils.py:100-111 | kept results all have non-empty snippets, every organic result with a snippet is kept, every kept item comes from such a result, and none is invented |
| SerpApi.UsableOrganicsAppend | utils.py:101-111 | filtering distributes over concatenation, so kept results keep their relative order |
| SerpApi.CollectItems | utils.py:113-121 | an answer box with a snippet key is placed first, titled "Featured Answer" with its snippet and link; the rest are exactly the usable organic results |
| SerpApi.Shown | utils.py:126 | at most three items are shown; they are the first ones, and all of them when there are fewer than three |
| SerpApi.FeaturedAnswerLeads | utils.py:113-132 | with an answer box that has a snippet, the reply opens with it as result 1, titled "Featured Answer" with the box's snippet and link |
| SerpApi.LiveSearchBlock | utils.py:124-132 | block k of a reply (k below three) is the k-th collected item numbered k+1 |
| SerpApi.FallbackLiveSearch | utils.py:67-141 | no truthy key gives the fixed no-key message; with a key the reply starts with "Live search unavailable" exactly when the exchange failed (then followed by ": "), a parsed body with no usable item gives the no-results message, and otherwise the listing of the first three items, which begins with `**Result 1:** ` |
| DuckDuckGo.RequestFor | utils.py:152-155 | the keywords are "agricultural advice ", then the question unchanged, then " farming"; at most three results are asked for |
| DuckDuckGo.RequestDeterminesQuery | utils.py:152 | distinct questions are sent as distinct keywords |
| DuckDuckGo.ReplyListsEveryHit | utils.py:157-165 | for a non-empty hit list, block k of the reply shows hit k's title, body and href under `**Result k+1:** ` |
| DuckDuckGo.ReplyEndsWithLastHit | utils.py:159-165 | the last hit's block, numbered with the hit count, ends the reply, so no hit is cut off |
| DuckDuckGo.FallbackSearchAlternative | utils.py:143-172 | the reply starts with "Alternative search unavailable" exactly when the library is missing or raised; an empty hit list gives the no-results message; otherwise every hit is listed, starting with `**Result 1:** ` |
| FallbackChain.ComprehensiveFallbackSearch | utils.py:175-193 | SerpAPI is consulted iff the key is truthy, and DuckDuckGo iff SerpAPI did not succeed, always in that order; SerpAPI's reply wins iff the key is truthy and its exchange was parsed, then DuckDuckGo's iff it returned a hit list, else the fixed all-failed message; each winning reply carries its provider's header |
| FallbackChain.NoResultsRepliesAccepted | utils.py:182-187 | neither provider's no-results reply starts with its unavailability prefix, so the chain accepts both |
| FallbackChain.SerpNoResultsShortCircuits | utils.py:180-183 | a parsed SerpAPI response without usable results returns the SerpAPI-headed no-results reply and never consults DuckDuckGo |
| FallbackChain.NoKeySkipsSerpApi | utils.py:180-188 | without a truthy key only DuckDuckGo is consulted, and its reply is returned under the DuckDuckGo header when it returned hits |
| FallbackChain.BothFailed | utils.py:186-193 | when both providers fail, both were consulted in order and the fixed all-failed message is returned |
| QueryRouter.QualityBand | app.py:95 | High iff distance < 0.7, Medium iff 0.7 ≤ distance < 1.2, Low iff distance ≥ 1.2 |
| QueryRouter.BandMonotone | app.py:95 | a smaller distance never gets a worse band |
| QueryRouter.ApiKeyOf | app.py:124 | the key passed on is truthy iff the secret is; it is the secret itself when the secret is truthy, and None otherwise (an empty secret becomes None) |
| QueryRouter.HandleQuery | app.py:80-127 | an empty question makes no call; otherwise retrieval runs once and first with the slider threshold, then exactly one of generation (iff the context is non-empty, with that context, showing the band of the score) or the web chain (with the same question and the normalised key); with a local context the answer screen is shown iff generation succeeded, carrying the generated text and the retrieved context, and otherwise the failure screen carries the exception's message; the screen always reports the retrieval score |
| QueryRouter.LocalContextNotLowBelowBoundary | app.py:85-95 | with a slider threshold below 1.2, a locally answered question is never shown as Low |
| QueryRouter.BoundaryAcceptedContextIsLow | app.py:85-95 | at threshold 1.2 with a nearest distance of 1.2 the context is accepted yet shown as Low |
| QueryRouter.EmptyAcceptedContextFallsBack | app.py:90-127 | an accepted retrieval with an empty joined context goes to the web chain |
| QueryRouter.CloseMatchAnsweredLocally | app.py:85-101 | a nearest distance of 0.4 under threshold 1.0 leads to retrieval then generation with that passage, shown as High |
| QueryRouter.DistantMatchFallsBack | app.py:85-127 | a nearest distance of 1.8 under threshold 1.0 leads to the web chain, with 1.8 reported |

## Left out

- Reading the CSV with pandas and writing the JSON document file (utils.py:19, 28-30): file I/O. Rows are given as values. A missing cell is `None`. Metadata cells are given as the text Python renders for them.
- `build_vector_store`, the HuggingFace embedding model, FAISS and pickle (utils.py:32-39, 42, 45-47): an opaque ML library. The index is a search function from `(query, k)` to hits, nearest first.
- Retrieval.RetrieveContextWithScore: exceptions are not modelled. utils.py:42 builds the embedding model before the existence check at utils.py:43, and that construction, `pickle.load` (utils.py:46) and the search (utils.py:47) can each raise; an unloadable embedding model raises even when the index file is missing. The model's missing index always gives `(None, 0)` and a loaded index always returns hits.
- QueryRouter.HandleQuery: app.py:85 calls retrieval outside any `try`, so a raising retrieval ends the question with neither generation nor web search. The model does not have that outcome: every non-empty question makes exactly two calls.
- `ask_gemma` (utils.py:56-65): its prompt template, the `ollama` subprocess and the stripping of its output. It is a generator function from `(query, context)` to text or to the exception it raised.
- `requests.get`, `raise_for_status`, `response.json()` and `DDGS` (utils.py:91-94, 150-155): network and foreign calls. Their outcomes are input values, and exception messages are opaque strings.
- SerpApi.FallbackLiveSearch: JSON values of unexpected types are not modelled. Examples are a `null` title, a non-list `organic_results`, or an answer box that is not an object. The model's fields are strings or absent.
- DuckDuckGo.FallbackSearchAlternative: a hit lacking `title`, `body` or `href` would raise `KeyError` inside the try block and become an "Alternative search unavailable" reply. The model's hits always carry the three fields, so that path is reached only through the library's own `Failed` outcome.
- DuckDuckGo.FallbackSearchAlternative: the library import happens before the request. The model folds a missing library into the fetch outcome `NotInstalled`.
- Float semantics of distances and thresholds: they are `real`, and only comparisons are used. In particular, the 0.1 slider step and binary rounding of 0.7, 1.2 and slider values are not modelled.
- The emoji header strings (utils.py:183, 188, 191) are kept as constants, and no property depends on their characters.
- The `except` around the web chain in app.py (app.py:139-147) is not modelled: every path of the modelled chain returns a string. Rendering the distance with three decimals is not modelled either.
- Streamlit widgets, spinners, sample-query buttons, the preprocessing and build buttons, and the sidebar status checks (app.py:10-83, 149-198): UI only.
