# twitch-searcher backend core, modelled in Dafny

The backend takes three inputs:

- an app access token, obtained from the Twitch client-credentials endpoint and cached;
- game and video listings from the Helix API;
- the video records it caches in a MongoDB `videos` collection.

It answers filtered, sorted and paged reads from that collection. The project models the four pieces of logic inside that glue:

- **Video cleaning** (`Models`): `Video.to_mongo_dict`. This covers the aliased pydantic dictionary, the dropping of `_id`, `None` and `""`, and the `%{width}`/`%{height}` rewrite of `thumbnail_url`. `Strings` supplies Python's `str.replace`: left to right, over non-overlapping occurrences.
- **Video store** (`Store`, `Queries`):
  - The collection is a map from the unique `id` to its document, plus an insertion order, which the model takes as the natural order of an unsorted `find`.
  - `save_video` and `save_multiple_videos` are methods of the class `VideoCollection`. They are proved against the `$set` upsert function `Upsert` and the batch function `SaveAll`.
  - `get_videos` and `get_videos_from_db` are functions over the documents in natural order: filter, sort, skip/limit, count, and the single-id lookup.
- **Token cache** (`Twitch`):
  - The class `TwitchService` holds `access_token` and `token_expiry`.
  - Each method is proved against a pure function of the old cache, the clock readings and the network's answers. `AccessToken`, `ApiGet`, `GameId` and `SearchVideos` are those functions.
  - A ghost log records the requests sent.
- **Error taxonomy** (`Errors`): the five exception constructors, as functions that return status, detail, error code and headers.

`Wrappers` holds `Option` and `Result`. `Json` holds the JSON-like `Value` and Python truthiness.

Modelling choices:

- Timestamps are integers of seconds (`Value.Time`). The source compares fixed-width UTC ISO strings, which order the same way.
- `now` and the two clock readings of `get_access_token` are parameters. One reading is taken for the freshness check and one after the POST.
- A raising `update_one` inside the batch is given by a set `failed` of batch indices.
- Every HTTP request is answered by an `HttpResult` parameter.

Where the specification and the code disagree, the model follows the code:

- `save_video` writes pydantic's `dict()`, not the cleaned document. That dictionary has the ObjectId under `mongo_id`, `None` values as nulls, and the thumbnail URL unresolved (`Store.SaveVideoDocument`).
- `get_videos_by_game_id` asks for 10 videos, not 50.
- HTTP and connection errors propagate as the raw `requests` exceptions. The service does not wrap them into `ExternalServiceException`.
- The batch upsert returns nothing. It has no success or error counts and never raises.
- A truthy `video_id` makes `get_videos_from_db` return a single document, or nothing, instead of a page.
- A negative `skip` makes it raise (pymongo's `ValueError`).

## Model

| member | source | states |
|---|---|---|
| `Strings.ReplaceIdentity` | backend/app/models/models.py:40-41 | `str.replace` on a string without the pattern returns it unchanged |
| `Strings.Replace` | backend/app/models/models.py:41 | `str.replace` introduces no character that is in neither the string nor the replacement; its full behaviour is stated by `ReplaceIdentity`, `ReplaceSplits` and `ReplaceRemoves` |
| `Strings.ReplaceRemoves` | backend/app/models/models.py:41 | after replacing a pattern by text that shares no character with it, the pattern occurs nowhere in the result |
| `Strings.ReplaceKeepsAbsent` | backend/app/models/models.py:41 | replacing one placeholder cannot create the other one when the replacement shares no character with it |
| `Strings.NoMatchBefore` | backend/app/models/models.py:41 | before the leftmost occurrence the scan finds no match at the current position and no occurrence in the rest of the prefix |
| `Strings.ReplaceSplits` | backend/app/models/models.py:41 | the first occurrence is replaced and the text before it is kept verbatim |
| `Strings.PrefixUnchanged` | backend/app/models/models.py:41 | the output of `replace` agrees with its input up to the first character of the replacement text |
| `Strings.StartPreserved` | backend/app/models/models.py:41 | a pattern free of the replacement's characters at the start of the output was already at the start of the input |
| `Models.Video.Fields` | backend/app/models/models.py:8-28 | the record's dictionary has `id`, `thumbnail_url`, `view_count` and `game_id` under their field names and no ObjectId key |
| `Models.Video.ByAlias` | backend/app/models/models.py:8-35 | `dict(by_alias=True)` holds the ObjectId under `_id` and never under `mongo_id`, with `id`, `thumbnail_url`, `view_count` and `game_id` as given |
| `Models.Video.ByName` | backend/app/models/models.py:8-28 | `dict()` holds the ObjectId under `mongo_id` and never under `_id`, with `id` and `thumbnail_url` as given |
| `Models.Video.ToMongoDict` | backend/app/models/models.py:34-43 | no `_id` or `mongo_id`; `view_count` always kept; `id`, `game_id` and `thumbnail_url` present exactly when non-empty; the stored thumbnail has no placeholder left |
| `Models.FillDims` | backend/app/models/models.py:41 | the width-then-height rewrite leaves neither placeholder and leaves a non-empty URL non-empty |
| `Models.ResolveThumbnail` | backend/app/models/models.py:40-41 | the conditional rewrite changes only `thumbnail_url`, keeps every key, and keeps non-empty values non-empty |
| `Models.PlaceholderHasMarker` | backend/app/models/models.py:40 | a URL without `%{` contains neither placeholder, so skipping the rewrite leaves none behind |
| `Models.CleanDict` | backend/app/models/models.py:35-41 | `_id` dropped; no `None` or `""` value left; a key is kept exactly when it is not `_id` and its value is non-empty; every kept key other than the thumbnail has its value unchanged; a string thumbnail has no placeholder |
| `Models.DropEmpty` | backend/app/models/models.py:35-38 | `_id` is gone and every value left is non-empty and as it was; `CleanDict` states that every other key is kept |
| `Models.FillDimsNoop` | backend/app/models/models.py:40-41 | a URL without placeholders is unchanged by the rewrite |
| `Models.FillDimsIdempotent` | backend/app/models/models.py:40-41 | rewriting a rewritten URL changes nothing |
| `Models.WidthPassSkipsHeight` | backend/app/models/models.py:41 | the width pass leaves a height placeholder in place |
| `Models.FillDimsTemplate` | backend/app/models/models.py:41 | a URL `prefix%{width}mid%{height}suffix` becomes `prefix1920mid1080suffix` |
| `Models.ResolveThumbnailIdempotent` | backend/app/models/models.py:40-41 | applying the conditional rewrite twice equals applying it once |
| `Models.ResolveThumbnailAfterClean` | backend/app/services/mongo_services.py:20-21 | the batch loop's second rewrite of a cleaned document changes nothing |
| `Models.CleanDictIdempotent` | backend/app/models/models.py:34-43 | cleaning a cleaned dictionary changes nothing |
| `Models.ThumbnailResolved` | backend/app/models/models.py:40-41 | a thumbnail containing `%{` is stored with every `%{width}` replaced by 1920 and every `%{height}` by 1080 |
| `Models.ThumbnailCopied` | backend/app/models/models.py:40 | a non-empty thumbnail without `%{` is copied unchanged |
| `Store.Snapshot` | backend/app/services/mongo_services.py:14 | the documents in insertion order, one per listed id |
| `Store.SnapshotIdsUnique` | backend/app/db/mongo.py:10 | the unique index: two documents of the collection with the same `id` are the same document |
| `Store.Base` | backend/app/services/mongo_services.py:11 | an upsert starts from the stored document, or from a new one holding the filter's `id` |
| `Store.Upsert` | backend/app/services/mongo_services.py:25-29 | the id is stored afterwards; every other id is untouched; a new id is appended to the order, an existing one keeps its place |
| `Store.UpsertMerge` | backend/app/services/mongo_services.py:25-29 | `$set` merge: every written field takes the new value; every other field of the starting document is kept; no other field appears |
| `Store.UpsertAt` | backend/app/services/mongo_services.py:25-29 | after an upsert, a key is stored exactly when it was stored or is the written id; the written id holds its starting document merged with the fields; every other stored document is unchanged |
| `Store.UpsertValid` | backend/app/db/mongo.py:10 | an upsert whose fields do not move `id` keeps the unique index |
| `Store.BatchWrites` | backend/app/services/mongo_services.py:17-18 | one write per video, none of them moving `id` |
| `Store.BatchWritesAt` | backend/app/services/mongo_services.py:17-25 | write `i` is video `i`'s `to_mongo_dict()` under video `i`'s id |
| `Store.BatchWritesSnoc` | backend/app/services/mongo_services.py:17-25 | the writes for one more video are the earlier writes followed by that video's cleaned document under its id |
| `Store.SaveAllStep` | backend/app/services/mongo_services.py:17-33 | each batch item either applies its upsert (no exception) or leaves the collection as it was (exception caught) |
| `Store.Writes` | backend/app/services/mongo_services.py:25-29 | an id that no successful write touches gets no fields from the batch |
| `Store.SaveAllValid` | backend/app/services/mongo_services.py:16-33 | a batch keeps the unique index, whichever items fail |
| `Store.TouchedStep` | backend/app/services/mongo_services.py:17-33 | a batch has a successful write to an id exactly when its prefix has one or its last item is a successful write to that id |
| `Store.MergeLast` | backend/app/services/mongo_services.py:25-29 | merging one more write onto a document built from the starting one equals merging the combined writes onto the starting one |
| `Store.SaveAllAt` | backend/app/services/mongo_services.py:16-33 | after a batch, an id is stored exactly when it was stored before or some write to it succeeded; its document is its starting document overridden by the successful writes to it, later ones winning |
| `Store.SaveAll` | backend/app/services/mongo_services.py:16-33 | a batch never removes a stored id and only appends to the insertion order; `SaveAllAt` and `SaveAllStep` state the full effect |
| `Store.SaveAllKeepsOrder` | backend/app/services/mongo_services.py:16-33 | a batch that writes only stored ids keeps the insertion order |
| `Store.SaveAllIdempotent` | backend/app/services/mongo_services.py:16-29 | saving the same batch twice, with the same items failing, gives the same collection as saving it once |
| `Store.SaveAllWritesItem` | backend/app/services/mongo_services.py:23-33 | a successful item's fields are all stored, whatever fails before or after it, unless a later successful write to the same id overrides them |
| `Store.SaveVideoDocument` | backend/app/services/mongo_services.py:9-11 | `save_video` stores the ObjectId under `mongo_id`, a missing description as null, and the thumbnail URL as given |
| `Store.CleanData` | backend/app/services/mongo_services.py:18-21 | the document the loop writes equals `to_mongo_dict()`: its own second rewrite changes nothing |
| `Store.VideoCollection.constructor` | backend/app/db/mongo.py:9-10 | the collection starts empty with the unique index satisfied |
| `Store.VideoCollection.UpdateOne` | backend/app/services/mongo_services.py:25-29 | the new state is `Upsert` of the old one; the unique index is kept when `id` is not moved |
| `Store.VideoCollection.SaveVideo` | backend/app/services/mongo_services.py:9-11 | the new state is the upsert of `dict()` under the video's id; the unique index is kept |
| `Store.VideoCollection.SaveCleaned` | backend/app/services/mongo_services.py:18-33 | one item of the loop: the new state is the batch so far extended by this video's cleaned document, applied unless its upsert raises |
| `Store.VideoCollection.SaveNext` | backend/app/services/mongo_services.py:17-33 | after item `i` the state is `SaveAll` over the writes of the first `i + 1` videos |
| `Store.VideoCollection.SaveMultipleVideos` | backend/app/services/mongo_services.py:16-33 | the new state is `SaveAll` of the old one over the cleaned writes, skipping the failed items and never stopping early; the unique index is kept |
| `Queries.Project` | backend/app/services/mongo_services.py:14 | the projection `{"_id": 0}` removes `_id` and keeps every other field |
| `Queries.GetVideos` | backend/app/services/mongo_services.py:13-14 | every document, in natural order, projected |
| `Queries.FindOne` | backend/app/services/mongo_services.py:62 | none exactly when no document has the id; otherwise the first document with that id, projected |
| `Queries.FindOneStored` | backend/app/services/mongo_services.py:62 | on the stored collection the lookup returns exactly the document upserted under that id, or none when the id was never saved |
| `Queries.PeriodWindow` | backend/app/services/mongo_services.py:72-79 | day, week and month reach back 1, 7 and 30 days; any other value gives no window |
| `Queries.BuildFilter` | backend/app/services/mongo_services.py:59-83 | a truthy `game_id` or `language` becomes an equality constraint; a truthy `period` with a window becomes the bound `now - window`; nothing else is constrained |
| `Queries.Matches` | backend/app/services/mongo_services.py:59-83 | a filter with no constraint matches every document; `BuildFilter` and `WeekWindow` state which constraints the parameters make |
| `Queries.FilterDocs` | backend/app/services/mongo_services.py:93-95 | every document kept matches the filter, and none is invented; `FilterDocsAppend` states that the kept documents stay in natural order |
| `Queries.FilterDocsCount` | backend/app/services/mongo_services.py:93-95 | filtering keeps each matching document as often as it is stored and drops every other |
| `Queries.FilterDocsSingle` | backend/app/services/mongo_services.py:93-95 | one document is kept exactly when it matches |
| `Queries.FilterDocsAppend` | backend/app/services/mongo_services.py:93-95 | filtering distributes over concatenation, so the matches come out in the order they are stored |
| `Queries.SortKeys` | backend/app/services/mongo_services.py:85-91 | `time` sorts on `created_at`, `views` on `view_count`, and `trending` on `view_count` then `created_at`; any other value sorts on nothing |
| `Queries.KeyOf` | backend/app/services/mongo_services.py:97-98 | a missing field sorts lowest; integers sort by value; timestamps sort by instant, above numbers |
| `Queries.BeforeTotal` | backend/app/services/mongo_services.py:97-98 | any two documents are ordered one way or the other |
| `Queries.BeforeTransitive` | backend/app/services/mongo_services.py:97-98 | the descending key order is transitive |
| `Queries.Insert` | backend/app/services/mongo_services.py:97-98 | insertion adds exactly the one document |
| `Queries.SortDocs` | backend/app/services/mongo_services.py:97-98 | the sort is a permutation of the matching documents |
| `Queries.InsertSorted` | backend/app/services/mongo_services.py:97-98 | inserting into a sorted sequence keeps it sorted |
| `Queries.SortDocsSorted` | backend/app/services/mongo_services.py:97-98 | the result is sorted descending on the chosen keys |
| `Queries.SortDocsNoKeys` | backend/app/services/mongo_services.py:97 | sorting on no key keeps the natural order |
| `Queries.TrendingTieBreak` | backend/app/services/mongo_services.py:90-91 | under `trending`, of two videos with equal views the newer comes strictly first |
| `Queries.ViewsOrder` | backend/app/services/mongo_services.py:88-89 | under `views`, the more viewed video comes strictly first |
| `Queries.Slice` | backend/app/services/mongo_services.py:100 | `skip(skip).limit(limit)` returns `s[skip + i]` in order, at most `abs(limit)` of them (all of them for limit 0), and nothing past the end |
| `Queries.SlicePages` | backend/app/services/mongo_services.py:100 | two consecutive pages of size n join into one page of size 2n |
| `Queries.Ordered` | backend/app/services/mongo_services.py:95-98 | the cursor yields a permutation of the matching documents, sorted when keys were chosen and in natural order otherwise |
| `Queries.GetVideosFromDb` | backend/app/services/mongo_services.py:35-105 | a truthy `video_id` returns the single lookup; otherwise a negative skip raises, and any other skip returns the projected skip/limit window of the sorted matches with `total_count` the number of matches |
| `Queries.Projected` | backend/app/services/mongo_services.py:95-100 | the window from `skip` on holds `Project(o[skip + i])` at position i, `min(remaining, abs(limit))` of them for a non-zero limit, all remaining ones for limit 0, and none past the end |
| `Queries.OrderedMatches` | backend/app/services/mongo_services.py:93-98 | sorting matching documents leaves only matching documents |
| `Queries.ProjectedPage` | backend/app/services/mongo_services.py:95-100 | the skip/limit window of sorted matches stays sorted and matching once `_id` is projected away |
| `Queries.PageOf` | backend/app/services/mongo_services.py:93-100 | the page cut from the sorted matches has the window's length and contents, matches the filter, lacks `_id` and is sorted |
| `Queries.PageProperties` | backend/app/services/mongo_services.py:93-105 | `total_count` is the number of matches whatever the paging; the page has at most `total_count` videos and at most `abs(limit)` for a non-zero limit, and all of them after `skip` when the limit is 0; every video matches the filter and lacks `_id`; the page is sorted on the chosen keys; its length is `min(matches - skip, abs(limit))` for a non-zero limit, it is empty when skip reaches the end, and video i is the projection of the sorted match at `skip + i` |
| `Queries.ProjectKeepsBefore` | backend/app/services/mongo_services.py:95-98 | projecting `_id` away does not change the sort order |
| `Queries.ByIdIgnoresRest` | backend/app/services/mongo_services.py:61-62 | with a truthy `video_id` the result does not depend on any filter, the sort, paging or the clock |
| `Queries.GetVideosIsUnfilteredQuery` | backend/app/services/mongo_services.py:13-14 | `get_videos` equals the query with no parameter and limit 0, with every document counted |
| `Queries.FilterAll` | backend/app/services/mongo_services.py:59 | the empty filter matches every document |
| `Queries.WeekWindow` | backend/app/services/mongo_services.py:74-83 | with `period=week` a video is kept exactly when created at most 7 days before now: 8 days ago is excluded, 3 days ago kept |
| `Queries.UnknownPeriodUnbounded` | backend/app/services/mongo_services.py:78-83 | a period other than day, week or month (such as `all`) imposes no bound |
| `Twitch.TokenRequest` | backend/app/services/twitch.py:22-28 | the POST goes to the token URL with exactly client id, client secret and `grant_type=client_credentials` |
| `Twitch.Refresh` | backend/app/services/twitch.py:28-33 | a successful refresh stores the returned token with an expiry set; the expiry only changes on success |
| `Twitch.AccessToken` | backend/app/services/twitch.py:17-34 | no request exactly when the cached token is fresh, otherwise one token POST; every failure except a bad `expires_in` leaves the cache as it was |
| `Twitch.FreshTokenReused` | backend/app/services/twitch.py:19-20 | a truthy token with an expiry after now is returned, with no request and no state change |
| `Twitch.RefreshStoresToken` | backend/app/services/twitch.py:28-34 | otherwise a good answer stores the new token with expiry `clock + expires_in` (0 when absent) and returns it |
| `Twitch.AbsentLifetimeRefreshesAgain` | backend/app/services/twitch.py:19-33 | with `expires_in` absent, the next call at the same or a later clock refreshes again |
| `Twitch.FailedRefreshKeepsCache` | backend/app/services/twitch.py:28-31 | no connection, an error status, a non-JSON or non-object body, or a missing `access_token` raise and keep both cached fields |
| `Twitch.BadLifetimeReplacesTokenOnly` | backend/app/services/twitch.py:31-33 | a non-numeric `expires_in` raises after the token was replaced; the expiry is kept |
| `Twitch.EmptyTokenNotReused` | backend/app/services/twitch.py:19 | a missing or empty token is never reused, whatever the expiry |
| `Twitch.DataOf` | backend/app/services/twitch.py:47-48 | a reply gives a value exactly when it is a non-error JSON object; that value is its `data`, or `[]` when `data` is missing |
| `Twitch.ApiGetSendsToken` | backend/app/services/twitch.py:36-48 | every call obtains the token first; a token failure propagates with no GET; otherwise exactly one GET goes to the base URL plus the path with the given parameters and headers `Client-ID` and `Authorization: Bearer <token>` |
| `Twitch.ApiGet` | backend/app/services/twitch.py:36-48 | the cache is the one the token step leaves; a token failure is the result, otherwise the reply's `data`; `ApiGetSendsToken` states the requests |
| `Twitch.Autocomplete` | backend/app/services/twitch.py:36-48 | every GET goes to `/search/categories` with exactly the parameter `query` |
| `Twitch.VideosByGameId` | backend/app/services/twitch.py:69-84 | the listing GET asks for `game_id` and `first = 10` |
| `Twitch.FirstId` | backend/app/services/twitch.py:62-67 | falsy `data` gives None; a list whose first element is an object with `id` gives that id; any other success needs exactly that shape |
| `Twitch.GameId` | backend/app/services/twitch.py:50-67 | `get_game_id` is the `/games` call followed by first-or-None on its data |
| `Twitch.NoGameWithoutData` | backend/app/services/twitch.py:62-65 | an empty or missing `data` gives no game id |
| `Twitch.SearchVideos` | backend/app/services/twitch.py:86-91 | a failed game lookup propagates; a falsy game id returns `[]` with no further request |
| `Twitch.SearchDelegates` | backend/app/services/twitch.py:86-91 | a truthy game id returns exactly the listing for it; after a falsy one, the only GET sent is the `/games` lookup |
| `Twitch.TwitchService.constructor` | backend/app/services/twitch.py:9-15 | the service starts with neither token nor expiry |
| `Twitch.TwitchService.GetAccessToken` | backend/app/services/twitch.py:17-34 | the new fields, the result and the requests sent are those of `AccessToken` |
| `Twitch.TwitchService.AuthorisedGet` | backend/app/services/twitch.py:38-48 | the new fields, result and requests are those of `ApiGet` |
| `Twitch.TwitchService.AutocompleteGames` | backend/app/services/twitch.py:36-48 | the `/search/categories` call with `query`, as `ApiGet` |
| `Twitch.TwitchService.GetGameId` | backend/app/services/twitch.py:50-67 | the new fields, result and requests are those of `GameId` |
| `Twitch.TwitchService.GetVideosByGameId` | backend/app/services/twitch.py:69-84 | the new fields, result and requests are those of `VideosByGameId` |
| `Twitch.TwitchService.SearchVideosByGameName` | backend/app/services/twitch.py:86-91 | the new fields, result and requests are those of `SearchVideos` |
| `Errors.OrUnknown` | backend/app/core/errors/exceptions.py:30 | `detail or 'Unknown error'`: the detail when truthy, otherwise `Unknown error`; never empty |
| `Errors.AppException` | backend/app/core/errors/exceptions.py:4-13 | status, detail, error code and headers are stored as given |
| `Errors.ResourceNotFound` | backend/app/core/errors/exceptions.py:15-24 | 404, `RESOURCE_NOT_FOUND`; the detail is `<name> not found`, with ` with id: <id>` appended only for a truthy id |
| `Errors.ResourceNotFoundRoundTrip` | backend/app/core/errors/exceptions.py:17-19 | the id read back from the detail is the truthy id given, and none otherwise |
| `Errors.ExternalService` | backend/app/core/errors/exceptions.py:26-32 | 503, `EXTERNAL_SERVICE_ERROR`; the detail is `<service> service unavailable: <detail or Unknown error>` |
| `Errors.ExternalServiceRoundTrip` | backend/app/core/errors/exceptions.py:30 | the reason read back after the prefix is the given detail, or `Unknown error` when it was None or empty |
| `Errors.Validation` | backend/app/core/errors/exceptions.py:34-40 | 422, `VALIDATION_ERROR`; the detail passes through unchanged |
| `Errors.Database` | backend/app/core/errors/exceptions.py:42-48 | 500, `DATABASE_ERROR`; the detail is `Database <op> failed: <detail or Unknown error>` |
| `Errors.DatabaseRoundTrip` | backend/app/core/errors/exceptions.py:46 | the reason read back after the prefix is the given detail, or `Unknown error` when falsy |
| `Errors.KindsDistinct` | backend/app/core/errors/exceptions.py:15-48 | the four subclasses have pairwise different status codes and error codes |

## Left out

- HTTP and MongoDB I/O. `requests.post`/`get`, the MongoDB client and pymongo's engine are replaced by parameters (`HttpResult`, `failed`) and by the functions above. Settings loading (backend/app/core/config.py) is reduced to the `Config` value.
- The clock. `datetime.now`/`utcnow` are parameters. Dates are whole seconds; the `strftime` formatting of the bound is not modelled.
- The random ObjectId default of `mongo_id`. It is an `Option<string>` field of `Video`. MongoDB's own automatic `_id` on stored documents is not modelled; the projection removes `_id` all the same.
- Logging (`print`) and concurrency. The token cache has no lock, and concurrent requests are not modelled.
- JSON booleans and floats. `Value` has no such case, so a boolean or fractional `expires_in` is not modelled.
- `Twitch.Refresh`: an `access_token` that is neither a string nor null is refused with a type error here. The source would store it.
- `Twitch.Refresh`: `timedelta` overflow on a huge `expires_in` is not modelled.
- `Queries.KeyOf`: a `created_at` or `view_count` holding a string that is not a timestamp maps to `SortKey(2, 0)`, the key of the timestamp 0, so it sorts below every later timestamp; MongoDB would sort strings in their own group. Lists and objects all share one key. `Queries.Matches` never lets such a string pass a `created_at` bound, whereas `$gte` would compare strings lexicographically.
- `Store.Snapshot`, `Queries.GetVideos`, `Queries.Ordered`: the model fixes the natural order of an unsorted `find` to the insertion order. MongoDB guarantees no order for an unsorted `find` and none among ties of a sort, so properties that mention that order hold for this choice only.
- `Queries.SortDocs`: MongoDB leaves the order of ties unspecified. The model uses a stable sort, and the properties proved are "sorted" and "a permutation", not a tie order.
- `Errors.ResourceNotFound`: only string ids (or none) are modelled. The source formats any value with `str()`.
- `Models.Video.Fields`: the rendering of `muted_segments` and `tag_ids` is simplified to JSON lists.
- Route wiring, exception handlers, request schemas and the frontend. They hold no logic of this core.
- Behaviours described for the system but absent from the code are not modelled:
  - success and error counts, or a store error, from the batch upsert;
  - page validation and in-memory pagination of search results;
  - forwarding of sort and period upstream;
  - `game_id` injection during normalisation;
  - an upstream page size of 50.
