# Instagram crawler normalisation, modelled in Dafny

This project models the core of `konnco/laravel-instagram-crawler`. That is the
layer that turns Instagram's decoded JSON responses into domain values:

- **`loadMedia`** maps one post node to a `Photo` or a `Video`. It applies the
  `??` defaults, and fails with a `TypeError` where a required value is
  missing or has the wrong type. The PHP file runs under
  `declare(strict_types=1)`.
- **The listing fetches** unwrap edge lists into node lists and normalise
  them in a loop. The asynchronous variant filters the settled outcomes down
  to the fulfilled ones first. Both replace the crawler's held result set
  (`$this->result`).
- **`loadSearch`** builds three ordered lists: tags, locations and users.
- **The two projections** are `returnSimpleResult` (one row per held post)
  and `returnFullResult`.
- **The factories** cover:
  - `MediaFactory::createPhoto` and `createVideo`;
  - hashtag extraction: a hand-written scanner for the pattern
    `\S*#((?:\[[^\]]+\]|\S+))`, then `array_unique`;
  - `LocationFactory::create`, which adds a coordinate only when both
    ordinates are truthy;
  - `TagFactory::create`, whose count defaults to 0.
- **The endpoint templates** and the public post URL.

A decoded response is the `PhpJson.Json` datatype. Reading a key that is
absent gives `JNull`, as PHP's array access does (with a warning). A hard
failure is `Err(TypeError(parameter))`: a value of the wrong type that
reaches a typed parameter. Missing required keys arrive there as `null`.

The crawler is the class `Crawler.InstagramCrawler`. Its `result` field is
`None` until a listing fetch succeeds. `getMedias`, the settle loop of
`getMediaAsync`, the edge unwrapping, `loadSearch` and `returnSimpleResult`
are loop methods. Each one is proved against a specification function
(`LoadAll`, `LoadSettled`, `EdgeNodes`, `SearchOf`, `SimpleRow`). The
specification functions are related to independent characterisations by
lemmas.

Three consequences of the code are easy to miss, and the model keeps each:

- **A fulfilled response whose node fails to normalise fails the whole
  asynchronous batch.** `loadMedia` throws inside the settle loop
  (src/InstagramCrawler.php:151-152), so the fetch fails and the held set
  is left as it was; the response is not skipped (`Crawler.SettleFailure`).
- **`loadSearch` passes `follower_count` as the seventh positional argument**
  of the user factory (line 369). `getUser` fills that slot with the
  biography (line 269). So a searched user's `biography` holds the follower
  count, and its `followerCount` is absent (`TopSearch.SearchUserSlots`).
- **The search request's own `query` option** (lines 328-333) replaces the
  client's default query (lines 47-50) instead of being merged with it, so
  `__a=1` is not sent with it (`Endpoints.SearchRequest`).

## Model

| member | source | states |
|---|---|---|
| Basics.MapAll | src/InstagramCrawler.php:171-173 | a loop that may throw at each element yields, on success, one result per element, the last being the last element's own result; `MapAllOk` lines up every element |
| Basics.MapAllOk | src/InstagramCrawler.php:170-175 | a loop that may throw at each element yields a list exactly when every element succeeds, and then it has one result per element, in order |
| Basics.MapAllFirstError | src/InstagramCrawler.php:171-173 | when the loop fails, the failure is that of the first failing element |
| Basics.MapAllSnoc | src/InstagramCrawler.php:171-173 | one more iteration after a successful prefix either appends its result or turns the outcome into its failure |
| Basics.MapAllErrAppend | src/InstagramCrawler.php:171-173 | once an element has thrown, later elements do not change the outcome |
| Basics.MapAllErrAt | src/InstagramCrawler.php:171-173 | an element that throws after a successful prefix is the failure of the whole loop, whatever follows |
| Basics.MapAllStep | src/InstagramCrawler.php:171-173 | iteration i of the loop, after a successful prefix, appends the element's result, or its failure is the failure of the whole loop |
| PhpJson.Field | src/InstagramCrawler.php:203-205 | array access gives the stored value, or null for a missing key or a non-array |
| PhpJson.HasKey | src/InstagramCrawler.php:201 | `array_key_exists` holds whenever a read gives a non-null value, and also for a key stored with null; the value read is then the stored one |
| PhpJson.Truthy | src/InstagramCrawler.php:215 | a value is truthy exactly when it is none of null, false, 0, 0.0, "", "0", the empty list and the empty object; so any string longer than one character (even "00") is truthy, and an integer or a list is truthy iff it is non-zero or non-empty |
| PhpJson.ToInt | src/InstagramCrawler.php:217 | `(int)` keeps an integer, gives 0 for null and false and 1 for true, truncates a real toward zero, and reads a string by `StringToInt` |
| PhpJson.StringToInt | src/InstagramCrawler.php:203 | a string of digits reads as its decimal value; a string that starts with a character that is not a blank, a sign or a digit reads as 0 |
| PhpJson.Elements | src/InstagramCrawler.php:349 | `foreach` over a list visits its items in order, and over any other value visits nothing |
| PhpJson.Coalesce | src/InstagramCrawler.php:204-205 | `??` keeps a non-null value and gives the default for null |
| PhpJson.Index | src/InstagramCrawler.php:228 | `[0]` on a list is its first item, and null on an empty list (an uncaptioned post); on an object it is the entry under key "0"; on anything else it is null |
| PhpJson.IntToStringRoundTrip | src/InstagramCrawler.php:26 | the `%d` spelling of an id reads back, through the `(int)` cast, as the same id |
| PhpJson.IntToString | src/InstagramCrawler.php:26 | `%d` writes `-` exactly for a negative number, followed by the decimal digits of its magnitude with no leading zero |
| PhpJson.Column | src/InstagramCrawler.php:73 | `array_column` yields the values of exactly the rows that carry the key, in row order: the k-th value is that of the k-th such row; with every row keyed, one value per row |
| PhpJson.ColumnLengths | src/InstagramCrawler.php:73 | a column is never longer than its rows, and exactly as long when every row carries the key |
| PhpJson.KeyedRows | src/InstagramCrawler.php:73 | the positions of the rows that carry the key: increasing, each row keyed, and every keyed row included |
| PhpJson.ColumnKeepsKeyedRows | src/InstagramCrawler.php:73 | every row that has the key contributes its value |
| TagFactory.Create | src/Factory/TagFactory.php:9-11 | the tag carries exactly the given name and count; any name is accepted |
| TagFactory.DefaultCount | src/Factory/TagFactory.php:9 | leaving the count out gives count 0 |
| LocationFactory.Create | src/Factory/LocationFactory.php:21-34 | id, name and slug pass through; a coordinate exists iff both ordinates are truthy, and then it holds (latitude, longitude) in that order |
| LocationFactory.ThreeArgumentsNoCoordinate | src/Factory/LocationFactory.php:25-29 | called with three arguments, the location has no coordinate |
| LocationFactory.NeverPartial | src/Factory/LocationFactory.php:28-31 | an ordinate that is null or zero suppresses the whole coordinate |
| Hashtags.RunEnd | src/Factory/MediaFactory.php:113 | the run of non-blank characters from a position ends at the next blank or at the end |
| Hashtags.IsSpace | src/Factory/MediaFactory.php:113 | `\s` matches exactly the space and the control characters from tab to carriage return (tab, newline, vertical tab, form feed, carriage return); `#`, `[` and `]` are never blanks |
| Hashtags.CloseBracket | src/Factory/MediaFactory.php:113 | finds the first `]` from a position, or reports that there is none |
| Hashtags.GroupAt | src/Factory/MediaFactory.php:113 | the group after a `#` matches iff a non-blank character follows, capturing the text right after the `#`; unless it opens with `[` it runs to the end of the run; after `#[` with a `]` at least one character later it ends at the first `]`, across blanks; `#[` with no `]` or with `[]` falls back to the rest of the run |
| Hashtags.HashFrom | src/Factory/MediaFactory.php:113 | greedy `\S*` backtracking picks the rightmost usable `#` of the run, and no `#` after it is usable |
| Hashtags.Scan | src/Factory/MediaFactory.php:113 | every match is a `#` followed by its capture; matches are in text order and do not overlap |
| Hashtags.RunEndUnique | src/Factory/MediaFactory.php:113 | a run's end is determined by where it starts |
| Hashtags.LoneHashRun | src/Factory/MediaFactory.php:113 | a run whose only `#` is its first character, not followed by `[`, yields the rest of the run as one match |
| Hashtags.Captures | src/Factory/MediaFactory.php:113 | `$matches[1]` has one captured group per match, in match order |
| Hashtags.ScanNonEmptyIff | src/Factory/MediaFactory.php:113 | there is a match iff some `#` is directly followed by a non-blank character |
| Hashtags.ScanFindsHash | src/Factory/MediaFactory.php:113 | a `#` followed by a non-blank character guarantees at least one match |
| Hashtags.CapturesAreHashtags | src/Factory/MediaFactory.php:113 | every capture is non-empty and is the text right after some `#` |
| Hashtags.BracketExample | src/Factory/MediaFactory.php:113 | `#[a b] c` captures `[a b]`: the bracket alternative spans the blank |
| Hashtags.EmptyBracketExample | src/Factory/MediaFactory.php:113 | `#[]x` captures `[]x`: an empty bracket pair falls back to `\S+` |
| Hashtags.Dedup | src/Factory/MediaFactory.php:116 | `array_unique` leaves no duplicates, the same set of strings, and never more entries |
| Hashtags.FirstIndex | src/Factory/MediaFactory.php:116 | gives the first position of a string in a list |
| Hashtags.FirstIndexInPrefix | src/Factory/MediaFactory.php:116 | an element's first position is the same in the whole list and in any prefix that contains it |
| Hashtags.DedupKeepsFirstOccurrenceOrder | src/Factory/MediaFactory.php:116 | survivors are ordered by their first occurrence |
| Hashtags.DedupPosition | src/Factory/MediaFactory.php:116 | a first occurrence survives, at the position given by the distinct strings seen before it |
| MediaFactory.TagNames | src/InstagramCrawler.php:394-396 | the names of a tag list, one per tag, in order |
| MediaFactory.ExtractHashtags | src/Factory/MediaFactory.php:110-120 | the tag names are the deduplicated captures, and every tag is `TagFactory::create(name)` |
| MediaFactory.CaptionTags | src/Factory/MediaFactory.php:51 | a falsy caption (null, "", "0") gives no tags; a string caption gives its extracted tags; a truthy non-string caption fails |
| MediaFactory.CreatePhoto | src/Factory/MediaFactory.php:31-58 | a Photo that passes id, code, url, user, likes, comments, ad, caption and location through; its Dimension comes from width and height and takenAt is the epoch integer; it fails only when the caption tags fail |
| MediaFactory.CreateVideo | src/Factory/MediaFactory.php:77-108 | the same as a photo, plus the thumbnail and view count, as a Video |
| MediaFactory.ExtractedTagsWellFormed | src/Factory/MediaFactory.php:113-116 | tag names are distinct and non-empty, each follows a `#` in the caption, and every count is 0 |
| MediaFactory.ExtractedTagsCoverMatches | src/Factory/MediaFactory.php:113-116 | the tag names are exactly the captured names, in order of first occurrence |
| MediaFactory.ExtractedTagsEmptyIff | src/Factory/MediaFactory.php:112-119 | a caption gets no tags iff no `#` in it is followed by a non-blank character, so a caption without `#` has none |
| MediaFactory.GreedyRunExample | src/Factory/MediaFactory.php:113 | `#a#b` yields only the tag `b` |
| MediaFactory.CaseSensitiveExample | src/Factory/MediaFactory.php:116 | `#x #X #x` yields `x` and `X`: comparison is exact and case-sensitive |
| MediaFactory.ThreeWordCaptures | src/Factory/MediaFactory.php:113 | the pattern finds all three words of `#x #X #x`, in order |
| MediaFactory.PhotoAndVideoShareTags | src/Factory/MediaFactory.php:101 | a photo and a video built from the same caption both fail or carry the same tags |
| Endpoints.TagPath | src/InstagramCrawler.php:25 | the tag path is the prefix followed by the name |
| Endpoints.LocationPath | src/InstagramCrawler.php:26 | the location path is the prefix followed by the `%d` spelling of the id (an optional `-`, then its digits with no leading zero), which reads back as the id |
| Endpoints.UserPath | src/InstagramCrawler.php:27 | the user path is `/` followed by the username |
| Endpoints.MediaPath | src/InstagramCrawler.php:28 | the post path is `/p/` followed by the code |
| Endpoints.PostUrl | src/InstagramCrawler.php:388 | a post's public URL is `BASE_URI`, then `/p/`, then the code |
| Endpoints.PostCodeOf | src/InstagramCrawler.php:388 | a code read out of an address rebuilds that address |
| Endpoints.PostUrlRoundTrip | src/InstagramCrawler.php:388 | the code can be read back out of a post's public URL |
| Endpoints.PostUrlInjective | src/InstagramCrawler.php:388 | different codes give different URLs |
| Endpoints.GetRequest | src/InstagramCrawler.php:47-50 | listing and detail requests carry the default query `__a=1` |
| Endpoints.SearchRequest | src/InstagramCrawler.php:328-333 | the search request sends exactly `query` and `context=blended`, and no `__a` |
| Normalizer.AsString | src/InstagramCrawler.php:3 | under strict types a string parameter accepts a string only, and otherwise fails naming the parameter |
| Normalizer.AsInt | src/InstagramCrawler.php:3 | an int parameter accepts an integer only, with no coercion |
| Normalizer.AsBool | src/InstagramCrawler.php:3 | a bool parameter accepts a boolean only |
| Normalizer.LikeCount | src/InstagramCrawler.php:225 | the like count is read with no default: it is the stored `edge_media_preview_like.count` when that exists, null when `edge_media_preview_like` is missing, and non-null only when both keys exist |
| Normalizer.CommentCount | src/InstagramCrawler.php:226 | the comment count is never null: 0 when `edge_media_to_comment` or its `count` is missing or null, and otherwise the stored count |
| Normalizer.IsAd | src/InstagramCrawler.php:227 | the advertisement flag is never null: false when `is_ad` is missing or null, and otherwise the stored value |
| Normalizer.CaptionText | src/InstagramCrawler.php:228 | the caption is the `node.text` of the first entry of `edge_media_to_caption.edges` when that exists; an empty edge list gives null, and a non-null caption means the whole chain exists |
| Normalizer.VideoUrl | src/InstagramCrawler.php:219 | the video address is never null: "" when `video_url` is missing or null, and otherwise the stored value |
| Normalizer.LoadLocation | src/InstagramCrawler.php:200-207 | a location exists iff the node has a `location` key; it has no coordinate; name and slug default to ""; it fails iff a present name or slug is not a string |
| Normalizer.LoadOwner | src/InstagramCrawler.php:208-214 | the owner's id is the cast id; username, picture, full name and is_private are the owner's values when present and "", "", "", false when null or missing; all six optional slots are empty |
| Normalizer.LoadMedia | src/InstagramCrawler.php:197-246 | the result is a Video iff `is_video` is truthy; it fails for a non-array node and when shortcode, display_url, dimensions, taken_at_timestamp or the like count is missing or mistyped, and for a video when video_view_count is not an integer |
| Normalizer.LoadMediaCommonFields | src/InstagramCrawler.php:233-245 | id, code, owner, dimension, takenAt, likes, comments (default 0), isAd (default false), the caption (first caption edge, else null), its tags and the location are read from the node |
| Normalizer.LoadMediaKindFields | src/InstagramCrawler.php:216-221 | a video's url is video_url (default ""), its thumb the display_url and views the view count; a photo's url is the display_url |
| Normalizer.LoadMediaSucceeds | src/InstagramCrawler.php:197-246 | a node that meets every type demand is normalised, so the failure cases of LoadMedia are the only ones |
| TopSearch.SearchTag | src/InstagramCrawler.php:350 | a searched hashtag becomes a Tag iff its name is a string and its media count an integer, and carries both |
| TopSearch.SearchPlace | src/InstagramCrawler.php:353-359 | a place becomes a Location iff pk is an integer and title and slug are strings, carrying all three; the coordinate exists iff lat and lng are truthy, and then holds (lat, lng) |
| TopSearch.SearchUser | src/InstagramCrawler.php:362-370 | a searched user has the cast pk as id; username, picture, full name and is_private pass through; is_verified fills the sixth slot and the follower count the seventh (the biography slot); the other four slots are empty |
| TopSearch.SearchUsers | src/InstagramCrawler.php:361-371 | one user per entry, in order, each with its own entry's username |
| TopSearch.SearchOf | src/InstagramCrawler.php:346-374 | a non-array response fails; a successful search has one tag, location and user per entry of the matching response list |
| TopSearch.LoadTags | src/InstagramCrawler.php:349-351 | the hashtag loop yields every tag in order or the first failure |
| TopSearch.LoadPlaces | src/InstagramCrawler.php:352-360 | the place loop yields every location in order or the first failure |
| TopSearch.LoadUsers | src/InstagramCrawler.php:361-371 | the user loop yields one user per entry, in order |
| TopSearch.LoadSearch | src/InstagramCrawler.php:346-374 | the three loops together compute `SearchOf(response)` |
| TopSearch.SearchShape | src/InstagramCrawler.php:348-373 | a search succeeds iff the response is an array and every hashtag and place is well typed; then each list has one entry per response entry, in order |
| TopSearch.EmptyResponse | src/InstagramCrawler.php:348 | a response with none of the three lists gives three empty lists |
| TopSearch.SearchUserSlots | src/InstagramCrawler.php:369 | every searched user has the follower count as biography and no follower count |
| Crawler.DetailNode | src/InstagramCrawler.php:192 | the detail node is the stored `graphql.shortcode_media` when it exists, and a non-null detail node means both keys exist |
| Crawler.TagEdges | src/InstagramCrawler.php:68 | the edge list is the stored `graphql.hashtag.edge_hashtag_to_media.edges` when it exists, and a non-null list means the whole chain exists |
| Crawler.LocationEdges | src/InstagramCrawler.php:98 | the edge list is the stored `graphql.location.edge_location_to_media.edges` when it exists, and a non-null list means the whole chain exists |
| Crawler.UserEdges | src/InstagramCrawler.php:120 | the edge list is the stored `graphql.user.edge_owner_to_timeline_media.edges` when it exists, and a non-null list means the whole chain exists |
| Crawler.EdgeNodes | src/InstagramCrawler.php:68-70 | one node per edge, in order: the edge's `node` entry, or null when it has none |
| Crawler.UnwrapEdges | src/InstagramCrawler.php:67-70 | the nodes are `$edge['node']` of every edge, in order |
| Crawler.LocationAsyncCodes | src/InstagramCrawler.php:94 | the asynchronous location fetch takes the `code` column of `location.media.nodes`, and fails when that is not an array |
| Crawler.LoadAll | src/InstagramCrawler.php:170-175 | the list succeeds iff every node normalises, and then holds one post per node, in order |
| Crawler.FulfilledNodes | src/InstagramCrawler.php:145-153 | the settle loop keeps at most one node per outcome |
| Crawler.FulfilledIndices | src/InstagramCrawler.php:147-149 | the positions of the fulfilled outcomes, increasing, including every fulfilled one |
| Crawler.FulfilledNodesByIndex | src/InstagramCrawler.php:145-153 | the k-th node the settle loop normalises is the detail node of the k-th fulfilled outcome: rejected ones are dropped and order is kept |
| Crawler.FulfilledLastOutcome | src/InstagramCrawler.php:146-153 | a last fulfilled outcome adds its position and its detail node to what the loop collected before it; a last rejected one adds neither |
| Crawler.FulfilledNodesAppend | src/InstagramCrawler.php:146-153 | the settle loop distributes over concatenation of outcome lists |
| Crawler.FulfilledNodesLast | src/InstagramCrawler.php:146-153 | after an iteration the loop has collected one more detail node for a fulfilled outcome and none for a rejected one |
| Crawler.SettleStep | src/InstagramCrawler.php:146-153 | one settle iteration: a rejected outcome adds nothing, and a fulfilled one appends its normalised detail node |
| Crawler.SettleFailure | src/InstagramCrawler.php:151-152 | a fulfilled outcome whose node fails to normalise fails the whole batch |
| Crawler.FulfilledNodesSplit | src/InstagramCrawler.php:146-153 | around a fulfilled outcome, the loop's nodes are those before it, its own detail node, then those after it |
| Crawler.LoadSettled | src/InstagramCrawler.php:145-155 | the batch succeeds iff every fulfilled outcome's detail node normalises, and then holds one post per fulfilled outcome, the k-th being the k-th fulfilled outcome's detail node, normalised |
| Crawler.LoadStep | src/InstagramCrawler.php:171-173 | one `getMedias` iteration appends the node's post, or its failure fails the whole list |
| Crawler.AllRejected | src/InstagramCrawler.php:145-155 | when every request failed the batch yields the empty list, not the previous set |
| Crawler.MissingNodeFails | src/InstagramCrawler.php:68-69 | an edge without `node` makes the whole listing fail |
| Crawler.SimpleRow | src/InstagramCrawler.php:384-405 | a row holds the owner's id and username, the post's url, comments and likes, and its tag names in order; `url` is the post's public URL, from which the code reads back; type is "video" and thumb present iff the post is a video |
| Crawler.RowUrlDeterminesCode | src/InstagramCrawler.php:388 | rows with the same url come from posts with the same code |
| Crawler.GetMedia | src/InstagramCrawler.php:189-195 | a single post is exactly `loadMedia` of the detail node: a video iff `is_video` is truthy, and a failure when the detail node is not an array |
| Crawler.GetUser | src/InstagramCrawler.php:257-275 | a profile fills every user slot from its own key: the cast id, username, picture, full name, is_private, is_verified, biography, external_url, and the follower, following and post counts |
| Crawler.GetLocation | src/InstagramCrawler.php:286-298 | a location page succeeds iff name and slug are strings, with no defaults; the coordinate exists iff lat and lng are truthy, and then holds (lat, lng) |
| Crawler.GetTag | src/InstagramCrawler.php:309-315 | a tag page succeeds iff the name is a string and the count an integer, and carries both |
| Crawler.SeventhSlotDiffers | src/InstagramCrawler.php:369 | the search fills the seventh user slot with the follower count where a profile puts the biography |
| Crawler.ListingOf | src/InstagramCrawler.php:62-77 | a synchronous listing succeeds iff every edge's node normalises, with one post per edge; an asynchronous one has one post per fulfilled outcome |
| Crawler.LocationListingOf | src/InstagramCrawler.php:88-103 | the asynchronous branch fails when `location.media.nodes` is not an array and otherwise has one post per fulfilled outcome; the other branch succeeds iff every edge's node normalises, with one post per edge |
| Crawler.InstagramCrawler.constructor | src/InstagramCrawler.php:45-51 | a new crawler holds no result |
| Crawler.InstagramCrawler.GetMedias | src/InstagramCrawler.php:168-178 | on success the held set is replaced by one normalised post per node, in order; on failure it is unchanged and the first failure is reported |
| Crawler.InstagramCrawler.GetMediaAsync | src/InstagramCrawler.php:138-158 | on success the held set is replaced by the normalised detail nodes of exactly the fulfilled outcomes, in order; a failing node fails the whole batch and leaves the held set unchanged |
| Crawler.InstagramCrawler.GetMediaByTag | src/InstagramCrawler.php:62-77 | requests the tag path; then either normalises the unwrapped edges or runs the settle loop, replacing the held set only on success |
| Crawler.InstagramCrawler.GetMediaByLocation | src/InstagramCrawler.php:88-103 | requests the location path; the asynchronous branch reads `location.media.nodes` and the other the edge list |
| Crawler.InstagramCrawler.GetMediaByUser | src/InstagramCrawler.php:114-129 | requests the user path; then normalises the timeline edges or runs the settle loop |
| Crawler.InstagramCrawler.Search | src/InstagramCrawler.php:326-337 | sends the search request and returns `loadSearch` of the body, leaving the held set alone |
| Crawler.InstagramCrawler.ReturnSimpleResult | src/InstagramCrawler.php:381-409 | one row per held post, in order, each the post's `SimpleRow`; no rows before the first fetch |
| Crawler.InstagramCrawler.Held | src/InstagramCrawler.php:384 | `foreach` over the held result visits nothing before the first fetch and the held posts afterwards |
| Crawler.InstagramCrawler.ReturnFullResult | src/InstagramCrawler.php:416-419 | the held set unchanged, or a TypeError before the first successful fetch |

## Left out

- HTTP transport. The Guzzle client, `request` and `requestAsync` are
  replaced by parameters: each fetch receives its decoded response body.
- Concurrency. `Promise\settle(...)->wait()` becomes an input sequence of
  `Fulfilled(body)` and `Rejected` outcomes, one per requested code.
- Crawler.InstagramCrawler.GetMediaAsync: does not state the per-code
  request paths of the fan-out (`/p/%s` for each code). A code's `%s`
  conversion of an arbitrary JSON value is not modelled.
- `config('instagram.async', false) === true` is a boolean parameter.
- `json_decode` is not modelled. A body that does not decode is the value
  `JNull`.
- `new \DateTime("@...")`: takenAt stays the epoch integer.
- Floating point. Coordinates and other JSON values are held as decoded.
  A JSON real is a mathematical `real`, truncated by the `(int)` cast.
- PhpJson.ToInt: the `(int)` cast of a string leaves out exponent notation
  ("1e3") and saturation at the 64-bit limits. Integers are unbounded.
- PhpJson.Elements: a `foreach` over a JSON object is modelled as visiting
  nothing, because objects are unordered maps here. Only JSON lists are
  iterated.
- PhpJson.Field: indexing a string by a string key is modelled as null. The
  string-offset warnings and errors of PHP are not modelled.
- UserFactory and the model classes (`User`, `Photo`, `Video`, `Location`,
  `Coordinate`, `Dimension`, `Tag`) are not part of this model. Values
  passed to constructors whose types are unknown are kept as given. So
  `UserFactory::create` is taken never to throw, and `new Tag` to take
  (string, int).
- Notices and warnings (undefined index, invalid `foreach` argument) are
  taken as non-fatal. An error handler that turns them into exceptions is
  not modelled.
- The PCRE engine in general. Only the single pattern of `extractHashtags`
  is modelled, as a scanner over characters. Without the `u` flag PCRE
  works on bytes, but every non-ASCII character is non-blank either way,
  so the captures coincide.
- `src/InstagramCrawlerServiceProvider.php`: Laravel configuration
  publishing, outside the normalisation layer.
- `tests/InstagramCrawlerTest.php` makes live network calls only.
