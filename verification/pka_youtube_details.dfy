/** `PkaYoutubeDetails`: the video-hosting metadata of one episode. Serialised
    with camelCase keys; the episode number is marked `skip_serializing`. */
module YoutubeDetailsModel {
  import opened RustTypes
  import opened JsonValue
  import opened Serde
  import RecordKeys

  datatype PkaYoutubeDetails = PkaYoutubeDetails(
    videoId: string,
    episodeNumber: Float,
    title: string,
    lengthSeconds: Int32)

  /** `PkaYoutubeDetails::new`. */
  function NewYoutubeDetails(videoId: string, episodeNumber: Float, title: string, lengthSeconds: Int32)
    : (d: PkaYoutubeDetails)
    ensures d.videoId == videoId && d.episodeNumber == episodeNumber
    ensures d.title == title && d.lengthSeconds == lengthSeconds
  {
    PkaYoutubeDetails(videoId, episodeNumber, title, lengthSeconds)
  }

  /** The struct's fields as declared, with their serde markings. */
  const Fields: seq<FieldDecl> := [
    FieldDecl("video_id", false),
    FieldDecl("episode_number", true),
    FieldDecl("title", false),
    FieldDecl("length_seconds", false)
  ]

  function FieldValues(d: PkaYoutubeDetails): seq<Json>
  {
    [JStr(d.videoId), JNum(d.episodeNumber), JStr(d.title), JInt(d.lengthSeconds)]
  }

  /** The JSON object written for the details: the written fields in declaration order, under camelCase keys. */
  function Serialize(d: PkaYoutubeDetails): Json
  {
    JObj([Member("videoId", JStr(d.videoId)), Member("title", JStr(d.title)),
          Member("lengthSeconds", JInt(d.lengthSeconds))])
  }

  /** What serde's derive writes, from the declared fields and their markings, is `Serialize`. */
  lemma SerdeDerived(d: PkaYoutubeDetails)
    ensures DeriveObject(CamelCase, Fields, FieldValues(d)) == Serialize(d)
  {
    var vs := FieldValues(d);
    assert Fields == [Fields[0], Fields[1], Fields[2], Fields[3]];
    VideoIdWritten(vs[0]);
    EpisodeNumberUnwritten(vs[1]);
    TitleWritten(vs[2]);
    LengthSecondsWritten(vs[3]);
    Assemble(Fields[0], Fields[1], Fields[2], Fields[3], "videoId", "title", "lengthSeconds", vs[0], vs[1], vs[2], vs[3]);
  }

  lemma VideoIdWritten(v: Json)
    ensures Written(CamelCase, Fields[0], v) == [Member("videoId", v)]
  {
    RecordKeys.VideoIdKey();
  }

  lemma EpisodeNumberUnwritten(v: Json)
    ensures Written(CamelCase, Fields[1], v) == []
  {
  }

  lemma TitleWritten(v: Json)
    ensures Written(CamelCase, Fields[2], v) == [Member("title", v)]
  {
    CamelOfPlain("title");
  }

  lemma LengthSecondsWritten(v: Json)
    ensures Written(CamelCase, Fields[3], v) == [Member("lengthSeconds", v)]
  {
    RecordKeys.LengthSecondsKey();
  }

  /** A written field, a skipped one and two written ones give three members, in order. */
  lemma Assemble(d0: FieldDecl, d1: FieldDecl, d2: FieldDecl, d3: FieldDecl, k0: string, k2: string, k3: string,
                 v0: Json, v1: Json, v2: Json, v3: Json)
    requires Written(CamelCase, d0, v0) == [Member(k0, v0)] && Written(CamelCase, d1, v1) == []
    requires Written(CamelCase, d2, v2) == [Member(k2, v2)] && Written(CamelCase, d3, v3) == [Member(k3, v3)]
    ensures DeriveObject(CamelCase, [d0, d1, d2, d3], [v0, v1, v2, v3])
         == JObj([Member(k0, v0), Member(k2, v2), Member(k3, v3)])
  {
    DeriveMembers4(CamelCase, d0, d1, d2, d3, v0, v1, v2, v3);
  }

  /** The serialised object mentions exactly the keys of its written fields. */
  lemma MentionedKeys(d: PkaYoutubeDetails, k: string)
    ensures MentionsKey(Serialize(d), k) <==> k == "videoId" || k == "title" || k == "lengthSeconds"
  {
    var ms := Serialize(d).members;
    FlatObjectMentions(ms, k);
    if k == "videoId" {
      assert ms[0].key == k;
    } else if k == "title" {
      assert ms[1].key == k;
    } else if k == "lengthSeconds" {
      assert ms[2].key == k;
    }
  }

  /** The episode number never reaches the written object. */
  lemma EpisodeNumberNeverSerialized(d: PkaYoutubeDetails, n: Float)
    ensures Serialize(d.(episodeNumber := n)) == Serialize(d)
    ensures !MentionsKey(Serialize(d), "episodeNumber")
  {
    MentionedKeys(d, "episodeNumber");
  }
}
