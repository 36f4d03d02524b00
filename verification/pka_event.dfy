/** `PkaEvent`: one timestamped entry in an episode's timeline. Serialised with
    camelCase keys; its id and its episode number are marked `skip_serializing`. */
module EventModel {
  import opened RustTypes
  import opened JsonValue
  import opened Serde
  import RecordKeys

  datatype PkaEvent = PkaEvent(
    eventId: string,
    episodeNumber: Float,
    timestamp: Int32,
    description: string,
    lengthSeconds: Int32,
    uploadDate: Int64)

  /** `PkaEvent::new`. */
  function NewEvent(eventId: string, episodeNumber: Float, timestamp: Int32, description: string,
                    lengthSeconds: Int32, uploadDate: Int64): (ev: PkaEvent)
    ensures ev.eventId == eventId && ev.episodeNumber == episodeNumber
    ensures ev.timestamp == timestamp && ev.description == description
    ensures ev.lengthSeconds == lengthSeconds && ev.uploadDate == uploadDate
  {
    PkaEvent(eventId, episodeNumber, timestamp, description, lengthSeconds, uploadDate)
  }

  /** The struct's fields as declared, with their serde markings. */
  const Fields: seq<FieldDecl> := [
    FieldDecl("event_id", true),
    FieldDecl("episode_number", true),
    FieldDecl("timestamp", false),
    FieldDecl("description", false),
    FieldDecl("length_seconds", false),
    FieldDecl("upload_date", false)
  ]

  function FieldValues(ev: PkaEvent): seq<Json>
  {
    [JStr(ev.eventId), JNum(ev.episodeNumber), JInt(ev.timestamp), JStr(ev.description),
     JInt(ev.lengthSeconds), JInt(ev.uploadDate)]
  }

  /** The JSON object written for an event: the written fields in declaration order, under camelCase keys. */
  function Serialize(ev: PkaEvent): Json
  {
    JObj([Member("timestamp", JInt(ev.timestamp)), Member("description", JStr(ev.description)),
          Member("lengthSeconds", JInt(ev.lengthSeconds)), Member("uploadDate", JInt(ev.uploadDate))])
  }

  /** What serde's derive writes, from the declared fields and their markings, is `Serialize`. */
  lemma SerdeDerived(ev: PkaEvent)
    ensures DeriveObject(CamelCase, Fields, FieldValues(ev)) == Serialize(ev)
  {
    var vs := FieldValues(ev);
    assert Fields == [Fields[0], Fields[1], Fields[2], Fields[3], Fields[4], Fields[5]];
    HiddenUnwritten(vs[0], vs[1]);
    TimestampWritten(vs[2]);
    DescriptionWritten(vs[3]);
    LengthSecondsWritten(vs[4]);
    UploadDateWritten(vs[5]);
    Assemble(Fields[0], Fields[1], Fields[2], Fields[3], Fields[4], Fields[5],
             "timestamp", "description", "lengthSeconds", "uploadDate",
             vs[0], vs[1], vs[2], vs[3], vs[4], vs[5]);
  }

  lemma HiddenUnwritten(v0: Json, v1: Json)
    ensures Written(CamelCase, Fields[0], v0) == [] && Written(CamelCase, Fields[1], v1) == []
  {
  }

  lemma TimestampWritten(v: Json)
    ensures Written(CamelCase, Fields[2], v) == [Member("timestamp", v)]
  {
    CamelOfPlain("timestamp");
  }

  lemma DescriptionWritten(v: Json)
    ensures Written(CamelCase, Fields[3], v) == [Member("description", v)]
  {
    CamelOfPlain("description");
  }

  lemma LengthSecondsWritten(v: Json)
    ensures Written(CamelCase, Fields[4], v) == [Member("lengthSeconds", v)]
  {
    RecordKeys.LengthSecondsKey();
  }

  lemma UploadDateWritten(v: Json)
    ensures Written(CamelCase, Fields[5], v) == [Member("uploadDate", v)]
  {
    RecordKeys.UploadDateKey();
  }

  /** Two skipped fields followed by four written ones give the four members, in order. */
  lemma Assemble(d0: FieldDecl, d1: FieldDecl, d2: FieldDecl, d3: FieldDecl, d4: FieldDecl, d5: FieldDecl,
                 k2: string, k3: string, k4: string, k5: string,
                 v0: Json, v1: Json, v2: Json, v3: Json, v4: Json, v5: Json)
    requires Written(CamelCase, d0, v0) == [] && Written(CamelCase, d1, v1) == []
    requires Written(CamelCase, d2, v2) == [Member(k2, v2)] && Written(CamelCase, d3, v3) == [Member(k3, v3)]
    requires Written(CamelCase, d4, v4) == [Member(k4, v4)] && Written(CamelCase, d5, v5) == [Member(k5, v5)]
    ensures DeriveObject(CamelCase, [d0, d1, d2, d3, d4, d5], [v0, v1, v2, v3, v4, v5])
         == JObj([Member(k2, v2), Member(k3, v3), Member(k4, v4), Member(k5, v5)])
  {
    DeriveMembers6(CamelCase, d0, d1, d2, d3, d4, d5, v0, v1, v2, v3, v4, v5);
  }

  /** The serialised object mentions exactly the keys of its written fields. */
  lemma MentionedKeys(ev: PkaEvent, k: string)
    ensures MentionsKey(Serialize(ev), k) <==> k == "timestamp" || k == "description" || k == "lengthSeconds" || k == "uploadDate"
  {
    var ms := Serialize(ev).members;
    FlatObjectMentions(ms, k);
    if k == "timestamp" {
      assert ms[0].key == k;
    } else if k == "description" {
      assert ms[1].key == k;
    } else if k == "lengthSeconds" {
      assert ms[2].key == k;
    } else if k == "uploadDate" {
      assert ms[3].key == k;
    }
  }

  /** Neither the event's id nor its episode number reaches the written object. */
  lemma HiddenFieldsNeverSerialized(ev: PkaEvent, id: string, n: Float)
    ensures Serialize(ev.(eventId := id, episodeNumber := n)) == Serialize(ev)
    ensures !MentionsKey(Serialize(ev), "eventId")
    ensures !MentionsKey(Serialize(ev), "episodeNumber")
  {
    MentionedKeys(ev, "eventId");
    MentionedKeys(ev, "episodeNumber");
  }
}
