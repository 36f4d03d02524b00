/** The three tables the episode queries read, and the queries themselves.
    A store is a value: each table is a sequence of rows in storage order,
    and `outages` names the tables whose reads fail in the database driver
    (a dropped connection, an exhausted pool, a row that does not decode),
    with the description the driver gives. */
module Store {
  import opened Results
  import opened RustTypes
  import opened Sql
  import opened EpisodeModel
  import opened EventModel
  import opened YoutubeDetailsModel

  datatype Table = EpisodeTable | YoutubeDetailsTable | EventTable

  datatype Db = Db(
    episodes: seq<PkaEpisode>,
    youtubeDetails: seq<PkaYoutubeDetails>,
    events: seq<PkaEvent>,
    outages: map<Table, string>)

  /** Reads a whole table: its rows, or the driver's failure. */
  function Scan<R>(db: Db, t: Table, rows: seq<R>): (r: Result<seq<R>, DbError>)
    ensures r.Err? <==> t in db.outages
    ensures r.Err? ==> r.error == Backend(db.outages[t])
    ensures r.Ok? ==> r.value == rows
  {
    if t in db.outages then Err(Backend(db.outages[t])) else Ok(rows)
  }

  /** `SELECT * FROM pka_episode WHERE number = ?`. */
  function EpisodesNumbered(db: Db, n: Float): (r: Result<seq<PkaEpisode>, DbError>)
    ensures r.Err? <==> EpisodeTable in db.outages
    ensures r.Err? ==> r.error == Backend(db.outages[EpisodeTable])
    ensures r.Ok? ==> forall e :: e in r.value <==> e in db.episodes && e.number == n
    ensures r.Ok? && |r.value| > 0 ==> FirstNumbered(db.episodes, n, r.value[0])
  {
    var rows :- Scan(db, EpisodeTable, db.episodes);
    var hits := Where(rows, Numbered(n));
    if |hits| > 0 then WhereLeadsWith(rows, Numbered(n)); Ok(hits) else Ok(hits)
  }

  /** The `WHERE number = n` filter. */
  function Numbered(n: Float): PkaEpisode -> bool
  {
    (e: PkaEpisode) => e.number == n
  }

  /** `e` is the first episode in storage order whose number is `n`. */
  ghost predicate FirstNumbered(episodes: seq<PkaEpisode>, n: Float, e: PkaEpisode)
  {
    LeadsWith(episodes, Numbered(n), e)
  }

  /** `SELECT * FROM pka_youtube_details WHERE episode_number = ?`. */
  function DetailsNumbered(db: Db, n: Float): (r: Result<seq<PkaYoutubeDetails>, DbError>)
    ensures r.Err? <==> YoutubeDetailsTable in db.outages
    ensures r.Err? ==> r.error == Backend(db.outages[YoutubeDetailsTable])
    ensures r.Ok? ==> forall d :: d in r.value <==> d in db.youtubeDetails && d.episodeNumber == n
    ensures r.Ok? && |r.value| > 0 ==> FirstDetailsOf(db.youtubeDetails, n, r.value[0])
  {
    var rows :- Scan(db, YoutubeDetailsTable, db.youtubeDetails);
    var hits := Where(rows, OfEpisode(n));
    if |hits| > 0 then WhereLeadsWith(rows, OfEpisode(n)); Ok(hits) else Ok(hits)
  }

  /** The `WHERE episode_number = n` filter. */
  function OfEpisode(n: Float): PkaYoutubeDetails -> bool
  {
    (d: PkaYoutubeDetails) => d.episodeNumber == n
  }

  /** `d` is the first YouTube details row in storage order of episode `n`. */
  ghost predicate FirstDetailsOf(details: seq<PkaYoutubeDetails>, n: Float, d: PkaYoutubeDetails)
  {
    LeadsWith(details, OfEpisode(n), d)
  }

  /** The column `ORDER BY timestamp` sorts on. */
  function ByTimestamp(ev: PkaEvent): real
  {
    ev.timestamp as real
  }

  /** `events` are the stored events of episode `n`, each as often as it is
      stored and no other, earliest first. */
  ghost predicate EventsOf(db: Db, n: Float, events: seq<PkaEvent>)
  {
    && (forall ev :: multiset(events)[ev] == if ev.episodeNumber == n then multiset(db.events)[ev] else 0)
    && (forall i, j :: 0 <= i < j < |events| ==> events[i].timestamp <= events[j].timestamp)
  }

  /** `SELECT * FROM pka_event WHERE episode_number = ? ORDER BY timestamp ASC`:
      every stored event of episode `n`, each as often as it is stored, and no
      other, earliest first. */
  function EventsNumbered(db: Db, n: Float): (r: Result<seq<PkaEvent>, DbError>)
    ensures r.Err? <==> EventTable in db.outages
    ensures r.Err? ==> r.error == Backend(db.outages[EventTable])
    ensures r.Ok? ==> EventsOf(db, n, r.value)
  {
    var rows :- Scan(db, EventTable, db.events);
    var hits := Where(rows, (ev: PkaEvent) => ev.episodeNumber == n);
    var sorted := OrderBy(hits, ByTimestamp, Asc);
    assert forall i, j :: 0 <= i < j < |sorted| ==> InOrder(Asc, ByTimestamp(sorted[i]), ByTimestamp(sorted[j]));
    Ok(sorted)
  }

  /** Every episode number in the store, in storage order. */
  function NumberColumn(episodes: seq<PkaEpisode>): (ns: seq<Float>)
    ensures |ns| == |episodes|
    ensures forall i :: 0 <= i < |episodes| ==> ns[i] == episodes[i].number
  {
    seq(|episodes|, i requires 0 <= i < |episodes| => episodes[i].number)
  }

  function Identity(x: real): real
  {
    x
  }

  /** `SELECT (number) FROM pka_episode ORDER BY number DESC`: the stored
      numbers, one per row, largest first. */
  function NumbersDescending(db: Db): (r: Result<seq<Float>, DbError>)
    ensures r.Err? <==> EpisodeTable in db.outages
    ensures r.Err? ==> r.error == Backend(db.outages[EpisodeTable])
    ensures r.Ok? ==> multiset(r.value) == multiset(NumberColumn(db.episodes))
    ensures r.Ok? ==> forall i, j :: 0 <= i < j < |r.value| ==> r.value[j] <= r.value[i]
  {
    var rows :- Scan(db, EpisodeTable, db.episodes);
    var sorted := OrderBy(NumberColumn(rows), Identity, Desc);
    assert forall i, j :: 0 <= i < j < |sorted| ==> InOrder(Desc, Identity(sorted[i]), Identity(sorted[j]));
    Ok(sorted)
  }
}
