# Episode aggregation, selection and error classification, in Dafny

This project models the core of a small axum/sqlx web backend. The backend
serves metadata about podcast episodes. Each episode has its YouTube details
and a timeline of events. Episodes are keyed by a fractional episode number.

The model covers four things:

- **Error classification.** `ApiError` is the closed set of failures. Each
  failure has a display text and is converted from sqlx's error.
  `UserError::new` picks the label. `into_response` maps every failure to an
  HTTP status and a JSON body `{timestamp, status, error, message}`.
- **Episode queries.** These cover `find_with_all`, `latest_number` and
  `random_number`.
  - The database is an in-memory value: three tables held as row
    sequences, plus a record of which tables fail to read.
  - `fetch_one` is "first row, or `RowNotFound`".
  - `ORDER BY` is a stable sort. It is proved sorted and proved to permute
    the rows.
  - `?` is Dafny's `:-`. The sqlx error converts into `ApiError` on the
    way.
- **The watch handler.** `watch_pka_episode` repeats the three queries
  inline and wraps the aggregate in `JsonResponse::success`. The model proves
  it agrees with `find_with_all`. It also derives the reply the client sees,
  on success and on every failure.
- **Serialised shapes.** serde's `#[derive(Serialize)]` is modelled as it
  works:
  - fields are written in declaration order;
  - a field marked `#[serde(skip_serializing)]` is dropped;
  - `rename_all = "camelCase"` applies serde's PascalCase-then-lower-first
    rule to each name.

  From this, each record's JSON object is derived, and so is the set of keys
  it can ever mention.

Modules, one per source unit:

| module | file | models |
|---|---|---|
| `Results` | results.dfy | `Option`, `Result` with `:-` support and `map_err` |
| `RustTypes` | rust_types.dfy | the integer widths the records use; `f32` as `real` |
| `JsonValue` | json_value.dfy | JSON documents, member lookup, "mentions key anywhere" |
| `Serde` | serde.dfy | serde's derive: field order, `skip_serializing`, camelCase |
| `RecordKeys` | record_keys.dfy | the camelCase keys of the records' snake_case names |
| `Http` | http.dfy | status codes, the `http` crate's canonical reason phrases, replies |
| `Sql` | sql.dfy | `WHERE`, `ORDER BY` (stable sort), `fetch_one`, sqlx's error |
| `EpisodeModel`, `EventModel`, `YoutubeDetailsModel` | pka_episode.dfy, pka_event.dfy, pka_youtube_details.dfy | the three records, constructors, serialised objects |
| `AggregateModel` | pka_episode_with_all.dfy | the episode with its details and events |
| `EnvelopeModel` | json_response.dfy | `JsonResponse`: `success`, `with_status`, serialisation, `into_response` |
| `Errors` | error.dfy | `ApiError`, `UserError`, `into_response`, `From<sqlx::Error>` |
| `Store` | store.dfy | the three tables and the SQL statements the queries run |
| `Conduit` | conduit.dfy | `find_with_all`, `latest_number`, `random_number` |
| `EpisodeHandler` | handler.dfy | `CustomPath` and `watch_pka_episode`, and the reply it produces |

Some behaviours are worth knowing before reading the table.

- **Success replies are always 200.** `JsonResponse::into_response` passes
  the envelope to axum's `Json`, so the HTTP status is 200 whatever the
  envelope's `status` field says. `EnvelopeModel.BodyStatusAgreesIff` states
  when the two agree: exactly when the envelope says 200. That always holds
  for `success`, but not for `with_status`.
- **Path rejection message.** A rejected path parameter gets the rejection's
  own text as its message, not the `#[error]` text "This path is invalid.".
  That text is used only by `Display`.
- **Not-found message.** A lookup that finds no row is answered 404 with the
  message "This data was not found in the database.".
- **Latest number on an empty store.** `latest_number` fails with
  `RowNotFound` there, and that is answered 404
  (`Conduit.LatestNumberFailures`).
- **Logging.** Only `InternalServerError` is logged. Logging is not modelled.
- **Random selection.** The generator's draw is a parameter, and every
  stored number can be drawn (`Conduit.RandomNumberReachesAll`). On an empty
  store the result is the 0.0 fallback.

## Model

| member | source | states |
|---|---|---|
| `Errors.Display` | src/error.rs:10-22 | every variant's `#[error]` text is a full sentence ending in a period |
| `Errors.DisplayDistinguishesVariants` | src/error.rs:12-21 | two failures display the same text exactly when they are the same variant, whatever they carry |
| `Errors.RejectionStatus` | src/error.rs:97-109 | a path rejection gets 400 or 500, and 400 exactly when it is a deserialisation failure whose kind is not an unsupported type |
| `Errors.FromDbError` | src/error.rs:119-123 | every sqlx error converts into `DatabaseError` carrying that same error |
| `Errors.NewUserError` | src/error.rs:32-56 | the status and message are kept and the timestamp is the clock reading; the label is the caller's when given, else the status's canonical reason phrase, else "Unknown Error" |
| `Errors.UserErrorDerived` | src/error.rs:24-30 | the derived serialisation writes `timestamp`, `status`, `error`, `message` in that order under their own names |
| `Errors.UserErrorLookups` | src/error.rs:24-30 | each of the four fields is found under its own name in the JSON body |
| `Errors.UserErrorKeys` | src/error.rs:24-30 | an error body mentions exactly the keys `timestamp`, `status`, `error`, `message` |
| `Errors.Classify` | src/error.rs:61-113 | every failure gets 400, 404, 408 or 500; the body's status is the reply's; the label is that status's reason phrase; the timestamp is the clock reading; a path rejection's message is the rejection's own text |
| `Errors.IntoResponse` | src/error.rs:59-116 | the reply's status is the classified one, and its JSON body carries the timestamp, a `status` equal to the reply's, the label and the message |
| `Errors.ResponseTable` | src/error.rs:61-93 | route not found → 404 "This route was not found."; timeout → 408 "Your request timed out."; internal error → 500 "An internal error has occurred."; no row → 404 "This data was not found in the database."; any other database error → 500 "A database error occurred."; each with its reason-phrase label |
| `Errors.PathRejectionResponse` | src/error.rs:94-111 | a deserialisation failure other than an unsupported type → 400 "Bad Request"; an unsupported type or any other rejection → 500; the message is the rejection's text |
| `Errors.NotFoundIff` | src/error.rs:62-87 | 404 is answered exactly to an unmatched route and to a lookup that found no row |
| `Errors.BadRequestIff` | src/error.rs:97-107 | 400 is answered exactly to a path deserialisation failure whose kind is not an unsupported type |
| `Errors.RequestTimeoutIff` | src/error.rs:67-71 | 408 is answered exactly to a timed-out request |
| `Errors.ServerErrorIff` | src/error.rs:72-109 | 500 is answered exactly to internal errors, database errors other than "no row", missing path parameters and unsupported path types |
| `Errors.OpaqueCausesNeverShown` | src/error.rs:72-92 | the reply to an internal error, or to a database error other than "no row", is the same whatever its cause or detail |
| `Errors.ConvertedDbErrorStatus` | src/error.rs:79-123 | a converted database error is answered 404 when no row was found and 500 otherwise |
| `EnvelopeModel.Success` | src/models/json_response.rs:12-14 | `success` sets status 200 and keeps the data unchanged |
| `EnvelopeModel.WithStatus` | src/models/json_response.rs:16-18 | `with_status` keeps the status and the data unchanged |
| `EnvelopeModel.SerdeDerived` | src/models/json_response.rs:5-9 | the derived serialisation writes exactly `status` then `data` |
| `EnvelopeModel.IntoResponse` | src/models/json_response.rs:21-25 | the reply is 200, and its body carries the envelope's status and the serialised data |
| `EnvelopeModel.BodyStatusAgreesIff` | src/models/json_response.rs:11-25 | the body's `status` equals the reply's status exactly when the envelope's status is 200 |
| `EpisodeModel.NewEpisode` | src/models/pka_episode.rs:13-21 | `new` stores each argument in its field unchanged |
| `EpisodeModel.SerdeDerived` | src/models/pka_episode.rs:3-11 | serde's derive, with the declared markings and camelCase, writes exactly `number`, `name`, `uploadDate` in that order |
| `EpisodeModel.MentionedKeys` | src/models/pka_episode.rs:3-11 | a serialised episode mentions a key exactly when it is `number`, `name` or `uploadDate` |
| `EpisodeModel.LinkNeverSerialized` | src/models/pka_episode.rs:8-9 | the YouTube link neither changes the serialised episode nor appears as a key in it |
| `EventModel.NewEvent` | src/models/pka_event.rs:16-34 | `new` stores each argument in its field unchanged |
| `EventModel.SerdeDerived` | src/models/pka_event.rs:3-14 | serde's derive writes exactly `timestamp`, `description`, `lengthSeconds`, `uploadDate` in that order |
| `EventModel.MentionedKeys` | src/models/pka_event.rs:3-14 | a serialised event mentions a key exactly when it is one of those four |
| `EventModel.HiddenFieldsNeverSerialized` | src/models/pka_event.rs:6-9 | the event id and the episode number neither change the serialised event nor appear as keys in it |
| `YoutubeDetailsModel.NewYoutubeDetails` | src/models/pka_youtube_details.rs:13-21 | `new` stores each argument in its field unchanged |
| `YoutubeDetailsModel.SerdeDerived` | src/models/pka_youtube_details.rs:3-11 | serde's derive writes exactly `videoId`, `title`, `lengthSeconds` in that order |
| `YoutubeDetailsModel.MentionedKeys` | src/models/pka_youtube_details.rs:3-11 | serialised details mention a key exactly when it is one of those three |
| `YoutubeDetailsModel.EpisodeNumberNeverSerialized` | src/models/pka_youtube_details.rs:7-8 | the episode number neither changes the serialised details nor appears as a key in them |
| `Serde.DeriveIgnoresSkipped` | src/models/pka_event.rs:6-9 | under serde's derive, what a `skip_serializing` field holds never changes the written object |
| `Serde.SnakeToCamel` | src/models/pka_event.rs:4-13 | camelCase renaming drops the underscore of `a_b` and upper-cases the letter after it |
| `RecordKeys.SkippedFieldKeys` | src/models/pka_event.rs:4-9 | the hidden keys `youtubeLink`, `eventId`, `episodeNumber` are exactly the camelCase keys of the skipped fields `youtube_link`, `event_id`, `episode_number` |
| `Sql.Where` | src/conduit/pka_episode.rs:12 | `WHERE` keeps exactly the rows satisfying the condition, each as often as it is stored |
| `Sql.OrderBy` | src/conduit/pka_episode.rs:30 | `ORDER BY` yields the same rows, each as often, in order of the key |
| `Sql.FetchOne` | src/conduit/pka_episode.rs:15-16 | `fetch_one` yields the first row of a successful query, "no row found" when it has none, and passes the driver's error on unchanged |
| `Sql.WhereLeadsWith` | src/conduit/pka_episode.rs:12-15 | the row `WHERE` puts first, which `fetch_one` returns, is the first stored row satisfying the condition |
| `Store.EpisodesNumbered` | src/conduit/pka_episode.rs:10-14 | the episode rows whose number is `n`, led by the first stored one; the driver's error when the table fails |
| `Store.DetailsNumbered` | src/conduit/pka_episode.rs:19-23 | the details rows of episode `n`, led by the first stored one; the driver's error when the table fails |
| `Store.EventsNumbered` | src/conduit/pka_episode.rs:28-33 | every stored event of episode `n`, as often as stored and no other, in non-decreasing timestamp order |
| `Store.NumbersDescending` | src/conduit/pka_episode.rs:42 | the stored episode numbers, one per row, largest first |
| `Conduit.FindWithAll` | src/conduit/pka_episode.rs:9-39 | on success: the first stored episode numbered `n`, the first stored details of episode `n`, and exactly episode `n`'s events, earliest first |
| `Conduit.FindWithAllFailsIff` | src/conduit/pka_episode.rs:9-34 | the lookup fails exactly when a table it reads fails or the episode or its details are missing, and with the first such failure's error in read order |
| `Conduit.FindWithAllNoEvents` | src/conduit/pka_episode.rs:28-38 | an episode with no events is still found, with an empty event list |
| `Conduit.LatestNumber` | src/conduit/pka_episode.rs:41-47 | the latest number is a stored number no stored number exceeds |
| `Conduit.LatestNumberFailures` | src/conduit/pka_episode.rs:41-47 | it fails exactly when the table fails or is empty, with "no row found" when empty |
| `Conduit.Choose` | src/conduit/pka_episode.rs:54 | `choose` yields nothing on an empty slice and otherwise an element of it |
| `Conduit.RandomNumber` | src/conduit/pka_episode.rs:49-61 | fails only with the table; a stored number when there are episodes; 0.0 when there are none |
| `Conduit.RandomNumberReachesAll` | src/conduit/pka_episode.rs:54-58 | every stored number is the result of some draw |
| `EpisodeHandler.CustomPath` | src/models/custom_path.rs:24-29 | an extracted parameter passes through; a rejection becomes `ApiError::PathRejection` unchanged |
| `EpisodeHandler.WatchPkaEpisode` | src/handler/episode.rs:20-53 | a rejected path fails with that rejection; a success is a 200 envelope around the first episode numbered `n`, the first details of `n` and exactly its events in timestamp order |
| `EpisodeHandler.WatchReply` | src/handler/episode.rs:20-53 | the reply is 200 exactly when the handler succeeds, otherwise 400, 404, 408 or 500, and its body's `status` always equals the reply's status |
| `EpisodeHandler.WatchAgreesWithFindWithAll` | src/handler/episode.rs:20-53 | a rejected path fails with that rejection; otherwise the handler succeeds exactly when `find_with_all` does, with its aggregate in a 200 envelope, and fails with the same error |
| `EpisodeHandler.WatchFailsIff` | src/handler/episode.rs:24-48 | the handler fails exactly when a read fails or the episode or details are missing, with the first failure's error |
| `EpisodeHandler.WatchResultContents` | src/handler/episode.rs:42-52 | a successful answer has status 200, the first episode numbered `n`, the first details of episode `n`, and exactly its events in timestamp order |
| `EpisodeHandler.WatchReplyFound` | src/handler/episode.rs:50-52 | a found episode is answered 200 with body `status` 200 and `data` the serialised aggregate |
| `EpisodeHandler.WatchReplyMissingEpisode` | src/handler/episode.rs:24-30 | a missing episode is answered 404 "Not Found" with "This data was not found in the database." |
| `EpisodeHandler.WatchReplyBadPath` | src/handler/episode.rs:20-23 | a rejected path is answered with the rejection's status and its own text |
| `EpisodeHandler.WatchReplyHidesSkippedFields` | src/handler/episode.rs:20-53 | whatever the store and the path, the reply never mentions `youtubeLink`, `eventId` or `episodeNumber` |

## Left out

- `src/main.rs` is not part of this model. It holds server start-up, logging set-up and a second, stale `ApiError` and `UserError` that the core does not use.
- `src/setup.rs` is not part of this model: connection-pool construction, reading `DATABASE_URL` and migrations are I/O and configuration.
- `src/models/sqlx_types.rs` is not part of this model: it is a transparent newtype with no behaviour.
- `episode_routes` in `src/handler/episode.rs` is not modelled: routing is framework wiring.
- Some failures come from layers that are not modelled: the fallback route that raises `RouteNotFound`, and the timeout layer that raises `RequestTimeout`. Only their classification is modelled.
- The clock is not modelled. `Utc::now().to_rfc3339()` is the parameter `now`.
- The random generator is not modelled. `rand::thread_rng` is the parameter `pick`, so uniformity is not stated; `Conduit.RandomNumberReachesAll` states that every number can be drawn.
- The `error!` log line for internal errors is a side effect and is not modelled.
- JSON byte encoding is not modelled, and neither is the failure of serialisation, which cannot happen for these records. Replies carry JSON trees.
- `f32` episode numbers are modelled as `real`. IEEE rounding, NaN and the driver's float comparison in `WHERE number = ?` are not modelled.
- The timestamp column is compared as an integer, as the `i32` column is.
- axum composes the text of a path rejection, and that composition is not modelled. A rejection carries its text, and the kinds of deserialisation failure are kept only as far as the classification needs them.
- The declaration of `PkaEpisodeWithAll` is not part of this model. It is taken to be a plain record of the episode, its details and its events, serialised with camelCase keys like its siblings.
- SQL leaves the order of rows without `ORDER BY` unspecified. The model reads tables in storage order. Ties in `ORDER BY` keep storage order, since the sort is stable.
- The `http` crate's canonical reason phrases appear in `Http.CanonicalReason` as that crate lists them. Codes it does not list have no phrase.
- Both `fetch_one` lookups, the episode and its details, are read in storage order, so each returns the first stored match. A real database may deliver another matching row first, and the model does not cover that choice.
- Conduit.RandomNumber: it states that the result is one of the stored numbers, not that the draw is uniform. The generator is a parameter, and its distribution is outside the model.
