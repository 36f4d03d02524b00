/** The camelCase keys of the records' snake_case field names. */
module RecordKeys {
  import opened Serde

  lemma UploadDateKey()
    ensures FieldKey(CamelCase, "upload_date") == "uploadDate"
  {
    SnakeToCamel("upload", "date");
    assert "upload" + "_" + "date" == "upload_date";
    assert "upload" + [AsciiUpper('d')] + "ate" == "uploadDate";
  }

  lemma LengthSecondsKey()
    ensures FieldKey(CamelCase, "length_seconds") == "lengthSeconds"
  {
    SnakeToCamel("length", "seconds");
    assert "length" + "_" + "seconds" == "length_seconds";
    assert "length" + [AsciiUpper('s')] + "econds" == "lengthSeconds";
  }

  lemma VideoIdKey()
    ensures FieldKey(CamelCase, "video_id") == "videoId"
  {
    SnakeToCamel("video", "id");
    assert "video" + "_" + "id" == "video_id";
    assert "video" + [AsciiUpper('i')] + "d" == "videoId";
  }

  lemma YoutubeDetailsKey()
    ensures FieldKey(CamelCase, "youtube_details") == "youtubeDetails"
  {
    SnakeToCamel("youtube", "details");
    assert "youtube" + "_" + "details" == "youtube_details";
    assert "youtube" + [AsciiUpper('d')] + "etails" == "youtubeDetails";
  }

  /** The keys the fields marked `skip_serializing` would have had under
      camelCase: the keys no reply may mention. */
  const HiddenKeys: set<string> := {"youtubeLink", "eventId", "episodeNumber"}

  /** `HiddenKeys` are exactly the camelCase keys of `youtube_link`, `event_id`
      and `episode_number`, the skipped fields of the three records. */
  lemma SkippedFieldKeys()
    ensures HiddenKeys == {FieldKey(CamelCase, "youtube_link"), FieldKey(CamelCase, "event_id"),
                           FieldKey(CamelCase, "episode_number")}
  {
    YoutubeLinkKey();
    EventIdKey();
    EpisodeNumberKey();
  }

  lemma YoutubeLinkKey()
    ensures FieldKey(CamelCase, "youtube_link") == "youtubeLink"
  {
    SnakeToCamel("youtube", "link");
    assert "youtube" + "_" + "link" == "youtube_link";
    assert "youtube" + [AsciiUpper('l')] + "ink" == "youtubeLink";
  }

  lemma EventIdKey()
    ensures FieldKey(CamelCase, "event_id") == "eventId"
  {
    SnakeToCamel("event", "id");
    assert "event" + "_" + "id" == "event_id";
    assert "event" + [AsciiUpper('i')] + "d" == "eventId";
  }

  lemma EpisodeNumberKey()
    ensures FieldKey(CamelCase, "episode_number") == "episodeNumber"
  {
    SnakeToCamel("episode", "number");
    assert "episode" + "_" + "number" == "episode_number";
    assert "episode" + [AsciiUpper('n')] + "umber" == "episodeNumber";
  }
}
