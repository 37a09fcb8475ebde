# Halfway meetup: compute transition, venue pipeline and client display rules

This project models the core of a meetup planner. Two people each drop a pin. The backend then
computes a fair midpoint, searches for good cafes and restaurants near it, asks a language model
to analyse each venue's reviews and to write short descriptions and tags, and stores one venue
row per venue found. After that it moves the session to voting. The client shows the session's
status (with travel times and a warning) and one card per venue.

Modules, one per source file with two shared ones:

- `Wrappers`: an `Option` type.
- `Text`: Python's `str.strip`, `lstrip`, `rstrip` and `removeprefix`, and decimal printing of integers.
- `LlmReply`: the reply handling that both language-model services share. It takes the first
  text block and strips a Markdown code fence. `backend/app/services/venue_enrichment.py:65-72`
  repeats `backend/app/services/review_analysis.py:98-106` word for word.
- `Models`: the `sessions`, `venues` and `votes` records. The session is a class whose fields the
  compute transition updates in place.
- `Places`: the venue search. It filters on rating and review count and widens the radius
  800 → 1200 → 1800 → 2700. If too few venues qualify, it makes one relaxed pass at 3000. It then
  ranks by score and keeps the top eight.
- `ReviewAnalysis` and `VenueEnrichment`: the request each service builds, the map it fills from
  the parsed reply, and its two-attempt retry.
- `Schemas`: the snake_case → camelCase alias generator, and the request and response shapes.
- `Compute`: `compute_midpoint`. It models:
  - the guards;
  - the `computing` → `voting` transition;
  - each stage's fallback;
  - the construction of each venue row;
  - the reset to `ready_to_compute` when storing fails.
- `SessionStatus` and `VenueCard`: display rules of the client.

External services are parameters of the model:

- the place search is a function from centre and radius to a list of places, or `None` when the
  call raises;
- each model call is a function from request and attempt number to a reply;
- `json.loads` and `JSON.parse` are functions from text to a parsed value, or `None` when they raise;
- the midpoint solver's result and the geographic midpoint are inputs;
- `math.log10` is a function parameter;
- the clock is the three values `int(time.time())` returns in one request (`Clock`);
- `generate_id` is a function of the row's position.

Every method is proved against a specification function. `SearchVenues` is proved against
`Resolve`, `AnalyzeReviews` against `AnalyzeSpec`, `EnrichVenues` against `EnrichSpec`, and
`StoreRows` against `BuildRows`. `ComputeMidpoint` is proved against `Check`, `PlanFor`,
`Completed` and `Reset`. The lemmas then state the properties of those functions.

## Model

| member | source | states |
|---|---|---|
| Compute.Check | backend/app/routers/compute.py:37-51 | the guards run in order. Expired exactly when the session is older than 86400 s, whatever its status. NotReady exactly when it is not expired and its status is not `ready_to_compute`. MissingB exactly when it is not expired, ready, and lacks B's latitude or longitude. None (proceed) exactly when all three guards pass |
| Compute.ExactTtlNotExpired | backend/app/routers/compute.py:37-38 | a session exactly 86400 s old is not expired, and it proceeds when it is ready and has both B coordinates |
| Compute.ChooseMidpoint | backend/app/routers/compute.py:60-74 | if the solver raised, the result is the geographic midpoint with both travel times null and the fixed fallback warning. Otherwise it is exactly the solver's result |
| Compute.RowFor | backend/app/routers/compute.py:100-153 | a venue gets a row exactly when it has a location. The row carries the new id and session id, the place id (or `""`), the display name (or `""`), the address, price level, maps link and editorial summary as given, the location, and rating and count defaulting to 0. The types, and every tag, dish and highlight list, are null exactly when missing or empty and otherwise that list. The review cache is null exactly when there are no reviews, otherwise the first min(n, 5) reviews. With an enrichment, the description and signature dish are copied; without one, every enrichment column is null. With an analysis, the sentiment is null exactly for `{}` and the summary is copied; without one, every analysis column is null |
| Compute.BuildRows | backend/app/routers/compute.py:99-155 | the storing loop adds one row per venue, in order, each equal to that venue's row. It raises exactly when some venue lacks a location. It then stops at the first such venue, with one row for each venue before it |
| Compute.StoreRows | backend/app/routers/compute.py:99-155 | the loop appends exactly `BuildRows(...).rows` to the venue table and reports the failure `BuildRows` predicts |
| Compute.MarkComputing | backend/app/routers/compute.py:53-55 | the session becomes `computing` at the given time, no other column changes, and exactly that row is committed |
| Compute.MarkCompleted | backend/app/routers/compute.py:157-165 | the session becomes `voting` with the midpoint, both travel times and the warning of the stage result, no other column changes, and exactly that row is committed |
| Compute.MarkReset | backend/app/routers/compute.py:172-178 | the session goes back to `ready_to_compute` at the given time, no other column changes, and exactly that row is committed |
| Compute.RunSearchStages | backend/app/routers/compute.py:57-96 | stages 1 to 4 produce the planned midpoint and venues, the analyses of `AnalyzeSpec` and the enrichments of `EnrichSpec` on those venues, from which the storing loop builds the planned rows |
| Compute.RunStages | backend/app/routers/compute.py:53-178 | after the guards, exactly two session rows are committed: first the session marked `computing` at the second clock read, then the final one. The venue table gains the planned rows. The final row is `Completed` (in `voting`), or `Reset` if storing failed, both at the third clock read |
| Compute.ComputeMidpoint | backend/app/routers/compute.py:26-183 | an unknown id gives NotFound and changes and commits nothing. A failed guard, judged at the first clock read, gives its error and changes and commits nothing. Otherwise the commits are the session marked `computing`, then the session `Completed` (in `voting`) or `Reset` (in `ready_to_compute`). The rows of `PlanFor` are added in both cases |
| Compute.BuildRowsFailedStable | backend/app/routers/compute.py:99-115 | once the storing loop has raised, further venues change neither the rows nor the failure |
| Compute.RowsFailurePersists | backend/app/routers/compute.py:99-115 | if venue `i` has no location and every venue before it has one, the rows are exactly those of the first `i` venues, and the loop fails |
| Compute.SearchFailureStillVotes | backend/app/routers/compute.py:77-81 | a venue search that raised leaves no venues and no rows, and the run does not fail, so it still ends in `voting` |
| Compute.AllLocatedAllStored | backend/app/routers/compute.py:99-118 | when every venue found has a location, each one gets a row in order. Every row has this session's id and the id generated for its position |
| Places.FilterVenues | backend/app/services/places.py:66-74 | every venue kept has a rating (or 0) and a count (or 0) at least the thresholds, and no more venues come out than went in |
| Places.FilterVenuesExact | backend/app/services/places.py:66-74 | a venue is kept exactly when it is in the input and qualifies. It keeps its multiplicity, and the input order is kept |
| Places.SortDesc | backend/app/services/places.py:77-83 | the result is in descending score order and is a permutation of the input |
| Places.SortStable | backend/app/services/places.py:83 | venues with equal scores keep their input order, like Python's stable `sorted(..., reverse=True)` |
| Places.RankSpec | backend/app/services/places.py:77-103 | the ranking holds min(n, 8) venues, in descending score, taken from the input. Every venue left out scores no higher than any venue kept |
| Places.NextRadius | backend/app/services/places.py:96 | `round(r * 1.5)` lies within half a metre of 1.5·r, and a tie goes to the even neighbour. It strictly grows every positive radius |
| Places.NextRadiusUnique | backend/app/services/places.py:96 | that rounding is the only whole number within half a metre of 1.5·r that breaks ties to even |
| Places.PassRadii | backend/app/services/places.py:11-13 | the loop searches at 800, 1200, 1800 and 2700. The next radius, 4050, exceeds 3000 and ends the loop |
| Places.SearchVenues | backend/app/services/places.py:86-103 | the loop with its relaxed retry returns exactly the venues and searched radii of `Resolve` |
| Places.ShapedPrepend | backend/app/services/places.py:90-95 | a strict pass that falls short is followed by the rest of the schedule |
| Places.ResolveFromShape | backend/app/services/places.py:90-100 | from the `k`-th strict pass on, the radii follow the schedule, and each pass but the last fell short |
| Places.ResolveShape | backend/app/services/places.py:86-100 | the search makes 1 to 5 calls, at a prefix of 800, 1200, 1800, 2700, 3000. Every call but the last fell short of five strict venues. The relaxed pass at 3000 happens exactly when all four strict passes fell short, and its ranking is the result. Otherwise the last strict call raised or produced the result |
| Places.RankedFilterQuality | backend/app/services/places.py:17-20 | ranking a filter at least as strict as the relaxed one yields at most 8 venues, in descending score, each rated at least 3.8 with at least 30 ratings, all from the raw list |
| Places.ResolveQuality | backend/app/services/places.py:86-103 | whatever the search returns is at most 8 venues, in descending score, each rated at least 3.8 with at least 30 ratings, all from the result of its last call |
| ReviewAnalysis.TopOf | backend/app/services/review_analysis.py:41 | `reviews[:5]` is the prefix of length min(n, 5) |
| ReviewAnalysis.ReviewLines | backend/app/services/review_analysis.py:42-47 | the texts are empty exactly when no review has text. Each text is the formatted line of a review with text. Its partner lemmas give the exact list |
| ReviewAnalysis.ReviewLinesAppend | backend/app/services/review_analysis.py:42-47 | the lines of a concatenation of reviews are the concatenation of their lines, so review order is kept |
| ReviewAnalysis.ReviewLinesSingle | backend/app/services/review_analysis.py:43-47 | one review contributes its formatted line exactly when its text is present and non-empty |
| ReviewAnalysis.VenueEntry | backend/app/services/review_analysis.py:36-55 | a venue is left out exactly when none of its first five reviews has text. Otherwise its entry carries its display name (or `""`) and 1 to 5 texts, exactly the lines of its first five reviews |
| ReviewAnalysis.ReviewTexts | backend/app/services/review_analysis.py:42-47 | the inner loop computes exactly `ReviewLines` |
| ReviewAnalysis.BuildReviewMessage | backend/app/services/review_analysis.py:32-57 | the outer loop computes exactly `ReviewMessage` |
| ReviewAnalysis.ReviewMessageAppend | backend/app/services/review_analysis.py:35-55 | the message for a concatenation of venues is the concatenation of the messages, so venue order is kept |
| ReviewAnalysis.ReviewMessageSingle | backend/app/services/review_analysis.py:35-55 | one venue contributes its entry, or nothing |
| ReviewAnalysis.WithReviews | backend/app/services/review_analysis.py:77 | the venues kept are exactly those whose reviews are non-empty |
| ReviewAnalysis.ReviewMessageWithReviews | backend/app/services/review_analysis.py:36-38 | filtering out venues without reviews before building the message changes nothing |
| ReviewAnalysis.ReviewMessageEmpty | backend/app/services/review_analysis.py:49-57 | the message is empty exactly when no venue has review text among its first five reviews |
| ReviewAnalysis.ApplyItems | backend/app/services/review_analysis.py:110-118 | the pass completes exactly when every parsed item is an object. It keeps the earlier keys, and every new key is the venue name of some record |
| ReviewAnalysis.ApplyItemsEntries | backend/app/services/review_analysis.py:110-118 | after a complete pass, a key is present exactly when it was present before or some record names it. The last record with that name wins, and other keys keep their value |
| ReviewAnalysis.RetryFrom | backend/app/services/review_analysis.py:89-129 | the retry loop makes at most two calls and never drops a key |
| ReviewAnalysis.AnalyzeSpec | backend/app/services/review_analysis.py:74-129 | the service makes at most two calls. It makes none exactly when no venue has reviews or the API key is empty, and then returns an empty map |
| ReviewAnalysis.FillAnalyses | backend/app/services/review_analysis.py:110-118 | the in-place loop over the items computes exactly `ApplyItems` |
| ReviewAnalysis.AnalysisAttempt | backend/app/services/review_analysis.py:91-118 | one pass of the loop body computes exactly `Attempt`: a reply without a payload or an unparsable one leaves the map unchanged and fails |
| ReviewAnalysis.RetryAnalysis | backend/app/services/review_analysis.py:89-129 | the while loop over the attempts computes exactly `RetryFrom` from an empty map |
| ReviewAnalysis.AnalyzeReviews | backend/app/services/review_analysis.py:60-129 | the service returns exactly the map and call count of `AnalyzeSpec` |
| ReviewAnalysis.AnalyzeKeys | backend/app/services/review_analysis.py:110-113 | every key of the result is a non-empty venue name carried by a record of some reply |
| ReviewAnalysis.FirstAttemptResult | backend/app/services/review_analysis.py:89-121 | when the first reply parses into objects only, exactly one call is made. A name is then present exactly when some record carries it, and it holds the analysis of the last such record |
| ReviewAnalysis.NoReviewsNoCall | backend/app/services/review_analysis.py:76-80 | with no reviews anywhere, nothing is sent and the map is empty |
| ReviewAnalysis.BothAttemptsFail | backend/app/services/review_analysis.py:123-129 | when neither attempt reaches a parsed list, both calls are made and the map is empty |
| ReviewAnalysis.FailedAttemptLeaks | backend/app/services/review_analysis.py:110-129 | a first attempt that stores "Cafe" and then hits a non-object, followed by a failed second call, returns the map holding "Cafe" |
| VenueEnrichment.BuildUserMessage | backend/app/services/venue_enrichment.py:25-37 | one request entry per venue, in venue order |
| VenueEnrichment.RequestDefaults | backend/app/services/venue_enrichment.py:28-33 | a missing name or address becomes `""` and a missing price level `"UNKNOWN"`. A missing rating or count stays null, and the types are passed through |
| VenueEnrichment.ApplyEnrichments | backend/app/services/venue_enrichment.py:76-77 | the pass completes exactly when every item is an object with a name. It keeps the earlier keys, and every new key is the name of some item |
| VenueEnrichment.ApplyEnrichmentsEntries | backend/app/services/venue_enrichment.py:76-77 | after a complete pass, a key is present exactly when it was present before or some item names it. The last item with that name wins, stored whole, and other keys keep their value |
| VenueEnrichment.RetryFrom | backend/app/services/venue_enrichment.py:56-85 | the retry loop makes at most two calls and never drops a key |
| VenueEnrichment.EnrichSpec | backend/app/services/venue_enrichment.py:44-87 | the service makes at most two calls. It makes none exactly when there are no venues or the API key is empty, and then returns an empty map |
| VenueEnrichment.FillEnrichments | backend/app/services/venue_enrichment.py:76-77 | the in-place loop over the items computes exactly `ApplyEnrichments` |
| VenueEnrichment.EnrichmentAttempt | backend/app/services/venue_enrichment.py:58-77 | one pass of the loop body computes exactly `Attempt`: a reply without a payload or an unparsable one leaves the map unchanged and fails |
| VenueEnrichment.RetryEnrichment | backend/app/services/venue_enrichment.py:56-87 | the while loop over the attempts computes exactly `RetryFrom` from an empty map |
| VenueEnrichment.EnrichVenues | backend/app/services/venue_enrichment.py:40-87 | the service returns exactly the map and call count of `EnrichSpec` |
| VenueEnrichment.EnrichKeys | backend/app/services/venue_enrichment.py:76-77 | every key of the result is the name of an item of some reply |
| VenueEnrichment.FirstAttemptResult | backend/app/services/venue_enrichment.py:56-79 | when the first reply parses into named objects only, exactly one call is made. A name is then present exactly when some object carries it, and it holds the last such object |
| VenueEnrichment.BothAttemptsFail | backend/app/services/venue_enrichment.py:81-87 | when neither attempt reaches a parsed list, both calls are made and the map is empty |
| VenueEnrichment.FailedAttemptLeaks | backend/app/services/venue_enrichment.py:56-87 | a first reply `[{"name": "A"}, {}]` stores "A" and then raises on the unnamed object; after a failed second call the map returned holds "A" |
| LlmReply.FirstText | backend/app/services/review_analysis.py:98-100 | there is no text exactly when no block is a text block. Otherwise the text is that of the first text block |
| LlmReply.StripCodeFence | backend/app/services/review_analysis.py:102-106 | the result has no surrounding whitespace, and unfenced text is only stripped |
| LlmReply.ReplyPayload | backend/app/services/review_analysis.py:98-106 | a failed call or a reply without text yields nothing to parse. Otherwise the payload is the fence-stripped first text |
| LlmReply.UnfencedUnchanged | backend/app/services/review_analysis.py:102-104 | stripped text that does not start with a fence is passed on unchanged |
| LlmReply.FenceRoundTrip | backend/app/services/review_analysis.py:102-106 | a stripped body wrapped in a ```` ``` ```` or ```` ```json ```` fence comes back exactly |
| Text.NatToStringRoundTrip | backend/app/services/review_analysis.py:47 | the decimal digits printed for a rating read back as the same number |
| Models.ParseStatus | backend/app/models.py:13 | a stored status string reads back as the status that writes it, and only the five status names do |
| Models.ParseName | backend/app/models.py:13 | every status reads back from its own name |
| Models.Session.constructor | backend/app/models.py:9-29 | a new session is `waiting_for_b` with travel mode `transit` and every nullable column null |
| Schemas.Split | backend/app/schemas.py:8 | `split("_")` gives at least one piece; `SplitJoin` and `SplitPiecesNoUnderscore` state what the pieces are |
| Schemas.SplitJoin | backend/app/schemas.py:8 | joining the pieces with underscores gives the name back |
| Schemas.Capitalize | backend/app/schemas.py:9 | on ASCII text, a leading letter becomes upper case and no later character is upper case. Every character stays the same letter up to case, anything but a letter is kept, and the length is kept |
| Schemas.ToCamelAppend | backend/app/schemas.py:7-9 | a further snake_case piece appends that piece capitalised |
| Schemas.ToCamelNoUnderscore | backend/app/schemas.py:7-9 | an alias never contains an underscore |
| Schemas.ToCamelIdentity | backend/app/schemas.py:7-9 | a name without underscores is its own alias |
| Schemas.ToCamelIdempotent | backend/app/schemas.py:7-9 | converting an alias again changes nothing |
| Schemas.ToCamelLength | backend/app/schemas.py:7-9 | the alias is as long as the name less its underscores |
| Schemas.SplitPiecesNoUnderscore | backend/app/schemas.py:8 | no piece of `name.split("_")` contains an underscore |
| Schemas.ToCamelTwo | backend/app/schemas.py:7-9 | for two underscore-free pieces, the alias is the first piece followed by the second capitalised |
| Schemas.ToCamelThree | backend/app/schemas.py:7-9 | for three underscore-free pieces, the alias is the first piece followed by the later two capitalised |
| Schemas.ToCamelUserALat | backend/app/schemas.py:105 | `user_a_lat` is sent as `userALat` |
| Schemas.ToCamelSessionId | backend/app/schemas.py:63 | `session_id` is sent as `sessionId` |
| SessionStatus.RoundedMinutes | frontend/src/components/SessionStatus.tsx:11 | `Math.round(seconds / 60)` lies within half a minute of the time, a half rounding up |
| SessionStatus.RoundedMinutesUnique | frontend/src/components/SessionStatus.tsx:11 | it is the only whole number of minutes that does |
| SessionStatus.FormatTime | frontend/src/components/SessionStatus.tsx:10-14 | the text is "< 1 min walk" exactly when the time is under 30 s. Otherwise it ends in " min walk" |
| SessionStatus.FormatTimeMinutes | frontend/src/components/SessionStatus.tsx:11-13 | from 30 s on, the digits before " min walk" read back as the rounded minutes, which are at least 1 |
| SessionStatus.StatusTableKeys | frontend/src/components/SessionStatus.tsx:22-51 | the config table has an entry for exactly the five statuses the backend stores |
| SessionStatus.ConfigFor | frontend/src/components/SessionStatus.tsx:53 | a known status shows its own entry. Any other string shows the `waiting_for_b` entry |
| SessionStatus.ConfigLabelsDistinct | frontend/src/components/SessionStatus.tsx:26-50 | no two statuses share a label |
| SessionStatus.Render | frontend/src/components/SessionStatus.tsx:53-90 | the panel has these parts:<br>• the notice shows exactly in `computing`;<br>• the travel times show exactly in `voting` or `completed` when both are non-null, formatted by `FormatTime`;<br>• the warning shows exactly when it is non-empty |
| SessionStatus.FallbackWarningShown | frontend/src/components/SessionStatus.tsx:86-90 | after a run whose midpoint solver raised, the panel reads "Vote" and shows no travel times. It shows the fallback warning that `compute_midpoint` stored |
| VenueCard.PriceLevelDisplay | frontend/src/components/VenueCard.tsx:31-44 | the i-th of the four price levels shows i+1 dollar signs. Anything else, null included, shows `""` |
| VenueCard.PriceLevelDisplayInjective | frontend/src/components/VenueCard.tsx:31-44 | two levels with the same non-empty display are the same level |
| VenueCard.ParseJSON | frontend/src/components/VenueCard.tsx:22-29 | a null or empty column, or text that does not parse, gives the fallback. Otherwise the result is the parsed value |
| VenueCard.ParseTags | frontend/src/components/VenueCard.tsx:13-20 | a null or empty column, or text that does not parse, gives `[]`. Otherwise the result is the parsed list |
| VenueCard.ParseTagsIsParseJSON | frontend/src/components/VenueCard.tsx:13-29 | `parseTags` is `parseJSON` with fallback `[]` |
| VenueCard.SentimentBadge | frontend/src/components/VenueCard.tsx:100-108 | there is no badge exactly when the positive share is missing or at most 0. It is "Loved" above 0.6, "Mixed" in (0.4, 0.6] and "Some concerns" in (0, 0.4] |
| VenueCard.SentimentBadgeMonotone | frontend/src/components/VenueCard.tsx:100-108 | a higher positive share never gets a worse badge |
| VenueCard.PositiveShare | frontend/src/components/VenueCard.tsx:65 | the share is present exactly when the object has a `positive` key, and it is then that key's value |
| VenueCard.MissingSentimentNoBadge | frontend/src/components/VenueCard.tsx:59-65 | a null, empty or unparsable sentiment column shows no badge |
| VenueCard.SignatureDishShown | frontend/src/components/VenueCard.tsx:145 | the signature dish shows exactly when there are no standout dishes and the dish is non-empty |
| VenueCard.OnClick | frontend/src/components/VenueCard.tsx:69 | a click selects the venue's id exactly when the card is not disabled |
| VenueCard.BorderExactlyOne | frontend/src/components/VenueCard.tsx:72-74 | exactly one of the three style pieces is non-empty. It is the winner style for a winner, selected or not |
| VenueCard.Card | frontend/src/components/VenueCard.tsx:53-216 | the card has these parts:<br>• the ribbon shows exactly for the winner;<br>• the border is the intended style;<br>• the price shows exactly for a known level, as its dollar signs;<br>• the badge is `SentimentBadge` of the parsed sentiment's positive share, and absent for a falsy column;<br>• the standout dishes and highlights are `ParseJSON` of their columns with fallback `[]`, and the cuisine, vibe and best-for tags are `ParseTags` of theirs;<br>• the signature dish shows exactly when there are no standout dishes and the dish is truthy;<br>• the description, summary, address and maps link show exactly when truthy, as given |

## Left out

- I/O is outside the model. This covers the FastAPI routing, the HTTP status codes and response
  bodies, logging, and the SQLAlchemy session. The database is a map of session objects plus a
  sequence of venue rows. A commit is recorded as the session row it writes, in a proof-only
  log (`Database.commits`); the venue rows it writes are the venue table at that point.
- Failure paths other than a venue without a location are not modelled. These are a database
  error, a malformed location without a latitude, an error in the reset path,
  `geographic_midpoint` raising at `backend/app/routers/compute.py:61` (outside the stage-1 `try`),
  and a solver midpoint without `lat`/`lng`, which raises at
  `backend/app/routers/compute.py:158-159` after the rows were added. The last two depend on
  `app/services/midpoint.py`, which is not part of this model.
  `ComputeMidpoint` models only the KeyError at `backend/app/routers/compute.py:115`.
- `ComputeMidpoint`: on the failure path the model keeps the rows added before the failing venue,
  since the reset path's commit flushes and commits the pending rows.
- `app/services/midpoint.py` is not part of this model. The geographic midpoint and the solver's
  result (or its failure) are inputs.
- The place-search HTTP call, the language-model client and `json.loads` / `JSON.parse`
  are oracle parameters. The JSON text of requests and columns is represented by the value it
  encodes, and a text column's `json.dumps` is its list or map.
- JSON nulls and wrongly typed JSON values are not modelled: a parsed item is an object with
  optionally present keys, or not an object (`NotAnObject`).
- Floating point is not modelled. Ratings and shares are reals, coordinates are never computed
  with, and `math.log10` is a function parameter.
- `toFixed(1)`, `toLocaleString()` and the rest of the JSX markup are left out. `VenueCard.Card`
  keeps each section's content and whether it is shown, but not the name, rating and count line,
  the class names of the badge or the disabled cursor style.
- `Schemas.Capitalize`: the case mapping covers ASCII letters only; Python's Unicode
  `str.capitalize` is not modelled.
- `SessionStatus.ConfigFor`: keys inherited from JavaScript's object prototype (such as
  `"constructor"`) are treated like any other unknown status.
- The `datetime` ISO serialisation of the response schemas is left out.
- The create, join and vote endpoints, PIN generation, vote tie-breaks and `generate_id` are not
  part of this model. Row ids come from a function of the row's position.
- The `status` column is modelled as the five values the backend writes. Other strings exist
  only on the client side (`SessionStatus.ConfigFor`).
- `VenueEnrichment.EnrichVenues` ignores its `review_analyses` argument, as the source does.
- `ReviewAnalysis.BothAttemptsFail`: "both attempts fail gives an empty map" is proved only when
  neither attempt reaches a parsed list. The map is shared across attempts, so entries written
  by an attempt that then raised survive (`ReviewAnalysis.FailedAttemptLeaks`).
- `VenueEnrichment.BothAttemptsFail`: likewise proved only when neither attempt reaches a parsed
  list. Items stored before an unnamed item raises survive a failed retry
  (`VenueEnrichment.FailedAttemptLeaks`).
- Concurrency is not modelled. In particular, two concurrent compute requests racing on the
  status write are not.
