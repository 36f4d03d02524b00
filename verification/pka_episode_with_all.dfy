/** `PkaEpisodeWithAll`: an episode together with its details and its events,
    the payload of a watch reply. Its declaration is not part of this model; it
    is taken to be a plain record of the three, serialised like its siblings
    with camelCase keys. */
module AggregateModel {
  import opened JsonValue
  import opened Serde
  import opened EpisodeModel
  import opened EventModel
  import opened YoutubeDetailsModel
  import RecordKeys

  datatype PkaEpisodeWithAll = PkaEpisodeWithAll(
    episode: PkaEpisode,
    youtubeDetails: PkaYoutubeDetails,
    events: seq<PkaEvent>)

  /** `PkaEpisodeWithAll::new`. */
  function NewEpisodeWithAll(episode: PkaEpisode, youtubeDetails: PkaYoutubeDetails, events: seq<PkaEvent>)
    : (a: PkaEpisodeWithAll)
    ensures a.episode == episode && a.youtubeDetails == youtubeDetails && a.events == events
  {
    PkaEpisodeWithAll(episode, youtubeDetails, events)
  }

  const Fields: seq<FieldDecl> := [
    FieldDecl("episode", false),
    FieldDecl("youtube_details", false),
    FieldDecl("events", false)
  ]

  /** A sequence of events serialises to the array of their objects. */
  function SerializeEvents(events: seq<PkaEvent>): (j: Json)
    ensures j.JArr? && |j.items| == |events|
    ensures forall i :: 0 <= i < |events| ==> j.items[i] == EventModel.Serialize(events[i])
  {
    JArr(seq(|events|, i requires 0 <= i < |events| => EventModel.Serialize(events[i])))
  }

  function FieldValues(a: PkaEpisodeWithAll): seq<Json>
  {
    [EpisodeModel.Serialize(a.episode), YoutubeDetailsModel.Serialize(a.youtubeDetails), SerializeEvents(a.events)]
  }

  /** The JSON object written for an aggregate: the written fields in declaration order, under camelCase keys. */
  function Serialize(a: PkaEpisodeWithAll): Json
  {
    JObj([Member("episode", EpisodeModel.Serialize(a.episode)),
          Member("youtubeDetails", YoutubeDetailsModel.Serialize(a.youtubeDetails)),
          Member("events", SerializeEvents(a.events))])
  }

  /** What serde's derive writes, from the declared fields and their markings, is `Serialize`. */
  lemma SerdeDerived(a: PkaEpisodeWithAll)
    ensures DeriveObject(CamelCase, Fields, FieldValues(a)) == Serialize(a)
  {
    var vs := FieldValues(a);
    assert Fields == [Fields[0], Fields[1], Fields[2]];
    EpisodeWritten(vs[0]);
    YoutubeDetailsWritten(vs[1]);
    EventsWritten(vs[2]);
    Assemble(Fields[0], Fields[1], Fields[2], "episode", "youtubeDetails", "events", vs[0], vs[1], vs[2]);
  }

  lemma EpisodeWritten(v: Json)
    ensures Written(CamelCase, Fields[0], v) == [Member("episode", v)]
  {
    CamelOfPlain("episode");
  }

  lemma YoutubeDetailsWritten(v: Json)
    ensures Written(CamelCase, Fields[1], v) == [Member("youtubeDetails", v)]
  {
    RecordKeys.YoutubeDetailsKey();
  }

  lemma EventsWritten(v: Json)
    ensures Written(CamelCase, Fields[2], v) == [Member("events", v)]
  {
    CamelOfPlain("events");
  }

  /** Three written fields give three members, in order. */
  lemma Assemble(d0: FieldDecl, d1: FieldDecl, d2: FieldDecl, k0: string, k1: string, k2: string,
                 v0: Json, v1: Json, v2: Json)
    requires Written(CamelCase, d0, v0) == [Member(k0, v0)] && Written(CamelCase, d1, v1) == [Member(k1, v1)]
    requires Written(CamelCase, d2, v2) == [Member(k2, v2)]
    ensures DeriveObject(CamelCase, [d0, d1, d2], [v0, v1, v2]) == JObj([Member(k0, v0), Member(k1, v1), Member(k2, v2)])
  {
    DeriveMembers3(CamelCase, d0, d1, d2, v0, v1, v2);
  }

  /** No key of a skipped field appears anywhere in a serialised aggregate. */
  lemma {:induction false} HidesSkippedFields(a: PkaEpisodeWithAll, k: string)
    requires k in RecordKeys.HiddenKeys
    ensures !MentionsKey(Serialize(a), k)
  {
    var ms := Serialize(a).members;
    assert |ms| == 3;
    assert !MentionsKey(ms[0].value, k) by {
      EpisodeModel.MentionedKeys(a.episode, k);
    }
    assert !MentionsKey(ms[1].value, k) by {
      YoutubeDetailsModel.MentionedKeys(a.youtubeDetails, k);
    }
    assert !MentionsKey(ms[2].value, k) by {
      EventsHideSkippedFields(a.events, k);
    }
    assert ms[0].key != k && ms[1].key != k && ms[2].key != k;
    ObjectWithoutKey(ms, k);
  }

  lemma {:induction false} EventsHideSkippedFields(events: seq<PkaEvent>, k: string)
    requires k in RecordKeys.HiddenKeys
    ensures !MentionsKey(SerializeEvents(events), k)
  {
    var j := SerializeEvents(events);
    forall i | 0 <= i < |j.items|
      ensures !MentionsKey(j.items[i], k)
    {
      EventModel.MentionedKeys(events[i], k);
    }
  }
}
