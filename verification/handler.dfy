/** The `GET /episode/watch/:number` handler: the episode with its details and
    events, in the success envelope, or the error reply. */
module EpisodeHandler {
  import opened Results
  import opened RustTypes
  import opened JsonValue
  import opened Http
  import opened Sql
  import opened Errors
  import opened EpisodeModel
  import opened EventModel
  import opened YoutubeDetailsModel
  import opened AggregateModel
  import opened EnvelopeModel
  import opened Store
  import opened Conduit
  import RecordKeys

  /** `CustomPath`: the path parameter axum extracted, or its rejection turned
      into an `ApiError`. What axum's own extraction yields is the parameter `path`. */
  function CustomPath(path: Result<Float, Rejection>): (r: Result<Float, ApiError>)
    ensures path.Ok? ==> r == Ok(path.value)
    ensures path.Err? ==> r == Err(PathRejection(path.error))
  {
    match path
    case Ok(number) => Ok(number)
    case Err(rejection) => Err(PathRejection(rejection))
  }

  /** `watch_pka_episode`: the same three reads as `find_with_all`, written out
      again in the handler, with the aggregate wrapped by `JsonResponse::success`. */
  function WatchPkaEpisode(db: Db, path: Result<Float, Rejection>): (r: Result<JsonResponse<PkaEpisodeWithAll>, ApiError>)
    ensures path.Err? ==> r == Err(PathRejection(path.error))
    ensures r.Ok? ==> path.Ok? && r.value.status == 200
    ensures r.Ok? ==> FirstNumbered(db.episodes, path.value, r.value.data.episode)
    ensures r.Ok? ==> FirstDetailsOf(db.youtubeDetails, path.value, r.value.data.youtubeDetails)
    ensures r.Ok? ==> EventsOf(db, path.value, r.value.data.events)
  {
    var number :- CustomPath(path);
    var episode :- FetchOne(EpisodesNumbered(db, number)).MapErr(FromDbError);
    var youtubeDetails :- FetchOne(DetailsNumbered(db, number)).MapErr(FromDbError);
    var events :- EventsNumbered(db, number).MapErr(FromDbError);
    Ok(Success(NewEpisodeWithAll(episode, youtubeDetails, events)))
  }

  /** The handler's result is `find_with_all`'s, in the success envelope; a
      rejected path never reaches the store. */
  lemma WatchAgreesWithFindWithAll(db: Db, path: Result<Float, Rejection>)
    ensures path.Err? ==> WatchPkaEpisode(db, path) == Err(PathRejection(path.error))
    ensures path.Ok? ==> (WatchPkaEpisode(db, path).Ok? <==> FindWithAll(db, path.value).Ok?)
    ensures path.Ok? && FindWithAll(db, path.value).Ok? ==>
      WatchPkaEpisode(db, path) == Ok(JsonResponse(200, FindWithAll(db, path.value).value))
    ensures path.Ok? && FindWithAll(db, path.value).Err? ==>
      WatchPkaEpisode(db, path) == Err(FindWithAll(db, path.value).error)
  {
    if path.Ok? {
      var n := path.value;
      var episode := FetchOne(EpisodesNumbered(db, n)).MapErr(FromDbError);
      var youtubeDetails := FetchOne(DetailsNumbered(db, n)).MapErr(FromDbError);
      var events := EventsNumbered(db, n).MapErr(FromDbError);
      if episode.Ok? && youtubeDetails.Ok? && events.Ok? {
        var a := NewEpisodeWithAll(episode.value, youtubeDetails.value, events.value);
        assert FindWithAll(db, n) == Ok(a);
        assert WatchPkaEpisode(db, path) == Ok(Success(a));
      }
    }
  }

  /** The handler fails exactly when the store says the lookup should, and with that error. */
  lemma WatchFailsIff(db: Db, n: Float)
    ensures WatchPkaEpisode(db, Ok(n)).Err? <==> ExpectedFailure(db, n).Some?
    ensures WatchPkaEpisode(db, Ok(n)).Err? ==> WatchPkaEpisode(db, Ok(n)).error == ExpectedFailure(db, n).value
  {
    WatchAgreesWithFindWithAll(db, Ok(n));
    FindWithAllFailsIff(db, n);
  }

  /** A successful answer is the envelope with status 200 around the first
      episode numbered `n`, the first details of episode `n` and its events,
      earliest first. */
  lemma WatchResultContents(db: Db, n: Float)
    requires WatchPkaEpisode(db, Ok(n)).Ok?
    ensures WatchPkaEpisode(db, Ok(n)).value.status == 200
    ensures FirstNumbered(db.episodes, n, WatchPkaEpisode(db, Ok(n)).value.data.episode)
    ensures FirstDetailsOf(db.youtubeDetails, n, WatchPkaEpisode(db, Ok(n)).value.data.youtubeDetails)
    ensures WatchPkaEpisode(db, Ok(n)).value.data.youtubeDetails in db.youtubeDetails
    ensures WatchPkaEpisode(db, Ok(n)).value.data.youtubeDetails.episodeNumber == n
    ensures EventsOf(db, n, WatchPkaEpisode(db, Ok(n)).value.data.events)
  {
    WatchAgreesWithFindWithAll(db, Ok(n));
  }

  /** The reply the client receives: the envelope as JSON with status 200, or
      the error's reply. `now` is the clock reading an error reply stamps. */
  function WatchReply(db: Db, path: Result<Float, Rejection>, now: string): (r: Reply)
    ensures r.status == 200 <==> WatchPkaEpisode(db, path).Ok?
    ensures r.status in {200, 400, 404, 408, 500}
    ensures Lookup(r.body, "status") == Some(JInt(r.status))
  {
    match WatchPkaEpisode(db, path)
    case Ok(response) => EnvelopeModel.IntoResponse(response, AggregateModel.Serialize)
    case Err(e) => Errors.IntoResponse(e, now)
  }

  /** A found episode is answered 200 with the envelope `{status: 200, data}`,
      the data being the aggregate `find_with_all` returns. */
  lemma WatchReplyFound(db: Db, n: Float, now: string)
    requires FindWithAll(db, n).Ok?
    ensures WatchReply(db, Ok(n), now).status == 200
    ensures Lookup(WatchReply(db, Ok(n), now).body, "status") == Some(JInt(200))
    ensures Lookup(WatchReply(db, Ok(n), now).body, "data") == Some(AggregateModel.Serialize(FindWithAll(db, n).value))
  {
    WatchAgreesWithFindWithAll(db, Ok(n));
  }

  /** A number with no stored episode is answered 404 "This data was not found
      in the database.", unless the episode table's read fails. */
  lemma WatchReplyMissingEpisode(db: Db, n: Float, now: string)
    requires EpisodeTable !in db.outages && !HasEpisode(db, n)
    ensures WatchReply(db, Ok(n), now).status == 404
    ensures Lookup(WatchReply(db, Ok(n), now).body, "error") == Some(JStr("Not Found"))
    ensures Lookup(WatchReply(db, Ok(n), now).body, "message") == Some(JStr("This data was not found in the database."))
  {
    WatchAgreesWithFindWithAll(db, Ok(n));
    FindWithAllFailsIff(db, n);
    ResponseTable(DatabaseError(RowNotFound), now);
  }

  /** A path that does not deserialise into a number is answered with the
      rejection's status and its own text. */
  lemma WatchReplyBadPath(db: Db, r: Rejection, now: string)
    ensures WatchReply(db, Err(r), now).status == RejectionStatus(r)
    ensures Lookup(WatchReply(db, Err(r), now).body, "message") == Some(JStr(r.text))
  {
    assert WatchPkaEpisode(db, Err(r)) == Err(PathRejection(r));
    assert WatchReply(db, Err(r), now) == Errors.IntoResponse(PathRejection(r), now);
  }

  /** Whatever the store holds and whatever the path, the reply never mentions
      the key of a field the records skip. */
  lemma WatchReplyHidesSkippedFields(db: Db, path: Result<Float, Rejection>, now: string, k: string)
    requires k in RecordKeys.HiddenKeys
    ensures !MentionsKey(WatchReply(db, path, now).body, k)
  {
    match WatchPkaEpisode(db, path)
    case Ok(response) =>
      assert WatchReply(db, path, now).body == EnvelopeModel.Serialize(response, AggregateModel.Serialize);
      EnvelopeHidesSkippedFields(response, k);
    case Err(e) =>
      assert WatchReply(db, path, now).body == SerializeUserError(Classify(e, now).body);
      UserErrorKeys(Classify(e, now).body, k);
  }

  /** The success envelope around an aggregate mentions no key of a skipped field. */
  lemma EnvelopeHidesSkippedFields(response: JsonResponse<PkaEpisodeWithAll>, k: string)
    requires k in RecordKeys.HiddenKeys
    ensures !MentionsKey(EnvelopeModel.Serialize(response, AggregateModel.Serialize), k)
  {
    HidesSkippedFields(response.data, k);
    ObjectWithoutKey(EnvelopeModel.Serialize(response, AggregateModel.Serialize).members, k);
  }
}
