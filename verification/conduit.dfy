/** The episode queries of the data layer: an episode with everything about it,
    the latest episode number, and a random episode number. Each query's driver
    error is converted into an `ApiError` as it propagates. */
module Conduit {
  import opened Results
  import opened RustTypes
  import opened Sql
  import opened Errors
  import opened EpisodeModel
  import opened EventModel
  import opened YoutubeDetailsModel
  import opened AggregateModel
  import opened Store

  /** `find_with_all`: the first stored episode numbered `n`, the first stored
      YouTube details of episode `n` and its events, earliest first. The three reads run in turn and the first that
      fails ends the lookup with its error. */
  function FindWithAll(db: Db, n: Float): (r: Result<PkaEpisodeWithAll, ApiError>)
    ensures r.Ok? ==> FirstNumbered(db.episodes, n, r.value.episode)
    ensures r.Ok? ==> FirstDetailsOf(db.youtubeDetails, n, r.value.youtubeDetails)
    ensures r.Ok? ==> r.value.youtubeDetails in db.youtubeDetails && r.value.youtubeDetails.episodeNumber == n
    ensures r.Ok? ==> EventsOf(db, n, r.value.events)
  {
    var episode :- FetchOne(EpisodesNumbered(db, n)).MapErr(FromDbError);
    var youtubeDetails :- FetchOne(DetailsNumbered(db, n)).MapErr(FromDbError);
    var events :- EventsNumbered(db, n).MapErr(FromDbError);
    Ok(NewEpisodeWithAll(episode, youtubeDetails, events))
  }

  /** Some stored episode is numbered `n`. */
  predicate HasEpisode(db: Db, n: Float)
  {
    exists i :: 0 <= i < |db.episodes| && db.episodes[i].number == n
  }

  /** Some stored YouTube details belong to episode `n`. */
  predicate HasDetails(db: Db, n: Float)
  {
    exists i :: 0 <= i < |db.youtubeDetails| && db.youtubeDetails[i].episodeNumber == n
  }

  /** The error the lookup should end with, read off the store in the order
      the reads run, or `None` when every read succeeds: a failing table gives
      the driver's error, a missing episode or missing details "no row found";
      having no events is no failure. */
  function ExpectedFailure(db: Db, n: Float): Option<ApiError>
  {
    if EpisodeTable in db.outages then Some(DatabaseError(Backend(db.outages[EpisodeTable])))
    else if !HasEpisode(db, n) then Some(DatabaseError(RowNotFound))
    else if YoutubeDetailsTable in db.outages then Some(DatabaseError(Backend(db.outages[YoutubeDetailsTable])))
    else if !HasDetails(db, n) then Some(DatabaseError(RowNotFound))
    else if EventTable in db.outages then Some(DatabaseError(Backend(db.outages[EventTable])))
    else None
  }

  /** The lookup fails exactly when the store says it should, and with that error. */
  lemma FindWithAllFailsIff(db: Db, n: Float)
    ensures FindWithAll(db, n).Err? <==> ExpectedFailure(db, n).Some?
    ensures FindWithAll(db, n).Err? ==> FindWithAll(db, n).error == ExpectedFailure(db, n).value
  {
    EpisodeFetched(db, n);
    DetailsFetched(db, n);
  }

  /** An episode without events is still found, with an empty event list. */
  lemma FindWithAllNoEvents(db: Db, n: Float)
    requires ExpectedFailure(db, n).None?
    requires forall i :: 0 <= i < |db.events| ==> db.events[i].episodeNumber != n
    ensures FindWithAll(db, n).Ok? && FindWithAll(db, n).value.events == []
  {
    FindWithAllFailsIff(db, n);
    var events := FindWithAll(db, n).value.events;
    forall ev: PkaEvent
      ensures multiset(events)[ev] == 0
    {
      if ev.episodeNumber == n {
        assert forall i :: 0 <= i < |db.events| ==> db.events[i] != ev;
        assert ev !in db.events;
      }
    }
    assert multiset(events) == multiset{};
  }

  lemma EpisodeFetched(db: Db, n: Float)
    ensures FetchOne(EpisodesNumbered(db, n)).Ok? <==> EpisodeTable !in db.outages && HasEpisode(db, n)
  {
    if HasEpisode(db, n) && EpisodeTable !in db.outages {
      var i :| 0 <= i < |db.episodes| && db.episodes[i].number == n;
      assert db.episodes[i] in EpisodesNumbered(db, n).value;
    }
  }

  lemma DetailsFetched(db: Db, n: Float)
    ensures FetchOne(DetailsNumbered(db, n)).Ok? <==> YoutubeDetailsTable !in db.outages && HasDetails(db, n)
  {
    if HasDetails(db, n) && YoutubeDetailsTable !in db.outages {
      var i :| 0 <= i < |db.youtubeDetails| && db.youtubeDetails[i].episodeNumber == n;
      assert db.youtubeDetails[i] in DetailsNumbered(db, n).value;
    }
  }

  /** `latest_number`: the number on the first row of the episodes sorted by
      number, largest first; "no row found" when there are no episodes. */
  function LatestNumber(db: Db): (r: Result<Float, ApiError>)
    ensures r.Ok? ==> r.value in NumberColumn(db.episodes)
    ensures r.Ok? ==> forall i :: 0 <= i < |db.episodes| ==> db.episodes[i].number <= r.value
  {
    var rows :- NumbersDescending(db).MapErr(FromDbError);
    if |rows| == 0 then Err(FromDbError(RowNotFound))
    else
      LeadingIsLargest(db, rows);
      Ok(rows[0])
  }

  /** The first of the numbers sorted largest first is the largest stored number. */
  lemma LeadingIsLargest(db: Db, rows: seq<Float>)
    requires NumbersDescending(db) == Ok(rows) && |rows| > 0
    ensures rows[0] in NumberColumn(db.episodes)
    ensures forall i :: 0 <= i < |db.episodes| ==> db.episodes[i].number <= rows[0]
  {
    var col := NumberColumn(db.episodes);
    assert rows[0] in multiset(rows);
    forall i | 0 <= i < |db.episodes|
      ensures db.episodes[i].number <= rows[0]
    {
      assert col[i] in multiset(col);
      var k :| 0 <= k < |rows| && rows[k] == col[i];
      if k > 0 {
        assert rows[k] <= rows[0];
      }
    }
  }

  /** The failures of `latest_number`: a failing episode table, and an empty one. */
  lemma LatestNumberFailures(db: Db)
    ensures EpisodeTable in db.outages ==> LatestNumber(db) == Err(DatabaseError(Backend(db.outages[EpisodeTable])))
    ensures EpisodeTable !in db.outages ==> (LatestNumber(db).Err? <==> |db.episodes| == 0)
    ensures EpisodeTable !in db.outages && |db.episodes| == 0 ==> LatestNumber(db) == Err(DatabaseError(RowNotFound))
  {
    if EpisodeTable !in db.outages {
      var rows := NumbersDescending(db).value;
      assert |rows| == |multiset(rows)| == |multiset(NumberColumn(db.episodes))| == |db.episodes|;
    }
  }

  /** rand's `SliceRandom::choose`: no element of an empty slice, else the
      element the generator lands on. The generator's draw is `pick`. */
  function Choose<T>(s: seq<T>, pick: nat): (r: Option<T>)
    ensures r.None? <==> |s| == 0
    ensures r.Some? ==> r.value in s
    ensures pick < |s| ==> r == Some(s[pick])
  {
    if |s| == 0 then None else Some(s[pick % |s|])
  }

  /** `random_number`: a number drawn from the stored episodes' numbers, or 0.0
      when there are none. */
  function RandomNumber(db: Db, pick: nat): (r: Result<Float, ApiError>)
    ensures r.Err? <==> EpisodeTable in db.outages
    ensures r.Err? ==> r.error == DatabaseError(Backend(db.outages[EpisodeTable]))
    ensures r.Ok? && |db.episodes| == 0 ==> r.value == 0.0
    ensures r.Ok? && |db.episodes| > 0 ==> r.value in NumberColumn(db.episodes)
  {
    var rows :- NumbersDescending(db).MapErr(FromDbError);
    assert |rows| == |multiset(rows)| == |db.episodes|;
    match Choose(rows, pick)
    case Some(number) =>
      assert number in multiset(rows);
      Ok(number)
    case None => Ok(0.0)
  }

  /** Every stored number is drawn by some draw of the generator. */
  lemma RandomNumberReachesAll(db: Db, x: Float)
    requires EpisodeTable !in db.outages && x in NumberColumn(db.episodes)
    ensures exists pick :: RandomNumber(db, pick) == Ok(x)
  {
    var rows := NumbersDescending(db).value;
    assert x in multiset(NumberColumn(db.episodes));
    assert x in multiset(rows);
    var k :| 0 <= k < |rows| && rows[k] == x;
    assert RandomNumber(db, k) == Ok(x);
  }
}
