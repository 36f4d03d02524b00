/** `PkaEpisode`: one catalogue entry. Serialised with camelCase keys; the raw
    YouTube link is marked `skip_serializing`. */
module EpisodeModel {
  import opened RustTypes
  import opened JsonValue
  import opened Serde
  import RecordKeys

  datatype PkaEpisode = PkaEpisode(number: Float, name: string, youtubeLink: string, uploadDate: Int64)

  /** `PkaEpisode::new`. */
  function NewEpisode(number: Float, name: string, youtubeLink: string, uploadDate: Int64): (e: PkaEpisode)
    ensures e.number == number && e.name == name
    ensures e.youtubeLink == youtubeLink && e.uploadDate == uploadDate
  {
    PkaEpisode(number, name, youtubeLink, uploadDate)
  }

  /** The struct's fields as declared, with their serde markings. */
  const Fields: seq<FieldDecl> := [
    FieldDecl("number", false),
    FieldDecl("name", false),
    FieldDecl("youtube_link", true),
    FieldDecl("upload_date", false)
  ]

  function FieldValues(e: PkaEpisode): seq<Json>
  {
    [JNum(e.number), JStr(e.name), JStr(e.youtubeLink), JInt(e.uploadDate)]
  }

  /** The JSON object written for an episode: the written fields in declaration order, under camelCase keys. */
  function Serialize(e: PkaEpisode): Json
  {
    JObj([Member("number", JNum(e.number)), Member("name", JStr(e.name)),
          Member("uploadDate", JInt(e.uploadDate))])
  }

  /** What serde's derive writes, from the declared fields and their markings, is `Serialize`. */
  lemma SerdeDerived(e: PkaEpisode)
    ensures DeriveObject(CamelCase, Fields, FieldValues(e)) == Serialize(e)
  {
    var vs := FieldValues(e);
    assert Fields == [Fields[0], Fields[1], Fields[2], Fields[3]];
    NumberWritten(vs[0]);
    NameWritten(vs[1]);
    LinkUnwritten(vs[2]);
    UploadDateWritten(vs[3]);
    Assemble(Fields[0], Fields[1], Fields[2], Fields[3], "number", "name", "uploadDate", vs[0], vs[1], vs[2], vs[3]);
  }

  lemma NumberWritten(v: Json)
    ensures Written(CamelCase, Fields[0], v) == [Member("number", v)]
  {
    CamelOfPlain("number");
  }

  lemma NameWritten(v: Json)
    ensures Written(CamelCase, Fields[1], v) == [Member("name", v)]
  {
    CamelOfPlain("name");
  }

  lemma LinkUnwritten(v: Json)
    ensures Written(CamelCase, Fields[2], v) == []
  {
  }

  lemma UploadDateWritten(v: Json)
    ensures Written(CamelCase, Fields[3], v) == [Member("uploadDate", v)]
  {
    RecordKeys.UploadDateKey();
  }

  /** Two written fields, a skipped one and a written one give three members, in order. */
  lemma Assemble(d0: FieldDecl, d1: FieldDecl, d2: FieldDecl, d3: FieldDecl, k0: string, k1: string, k3: string,
                 v0: Json, v1: Json, v2: Json, v3: Json)
    requires Written(CamelCase, d0, v0) == [Member(k0, v0)] && Written(CamelCase, d1, v1) == [Member(k1, v1)]
    requires Written(CamelCase, d2, v2) == [] && Written(CamelCase, d3, v3) == [Member(k3, v3)]
    ensures DeriveObject(CamelCase, [d0, d1, d2, d3], [v0, v1, v2, v3])
         == JObj([Member(k0, v0), Member(k1, v1), Member(k3, v3)])
  {
    DeriveMembers4(CamelCase, d0, d1, d2, d3, v0, v1, v2, v3);
  }

  /** The serialised object mentions exactly the keys of its written fields. */
  lemma MentionedKeys(e: PkaEpisode, k: string)
    ensures MentionsKey(Serialize(e), k) <==> k == "number" || k == "name" || k == "uploadDate"
  {
    var ms := Serialize(e).members;
    FlatObjectMentions(ms, k);
    if k == "number" {
      assert ms[0].key == k;
    } else if k == "name" {
      assert ms[1].key == k;
    } else if k == "uploadDate" {
      assert ms[2].key == k;
    }
  }

  /** The link never reaches the written object: neither its key nor its value. */
  lemma LinkNeverSerialized(e: PkaEpisode, link: string)
    ensures Serialize(e.(youtubeLink := link)) == Serialize(e)
    ensures !MentionsKey(Serialize(e), "youtubeLink")
  {
    MentionedKeys(e, "youtubeLink");
  }
}
