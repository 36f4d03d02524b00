/** `JsonResponse<T>`: the envelope `{status, data}` every successful reply carries. */
module EnvelopeModel {
  import opened Results
  import opened RustTypes
  import opened JsonValue
  import opened Serde
  import opened Http

  datatype JsonResponse<T> = JsonResponse(status: Uint16, data: T)

  /** `JsonResponse::success`. */
  function Success<T>(data: T): (r: JsonResponse<T>)
    ensures r.status == 200 && r.data == data
  {
    JsonResponse(200, data)
  }

  /** `JsonResponse::with_status`. */
  function WithStatus<T>(status: Uint16, data: T): (r: JsonResponse<T>)
    ensures r.status == status && r.data == data
  {
    JsonResponse(status, data)
  }

  const Fields: seq<FieldDecl> := [FieldDecl("status", false), FieldDecl("data", false)]

  /** The JSON object written for an envelope, given how the payload serialises:
      `status` then `data`, under their own names. */
  function Serialize<T>(r: JsonResponse<T>, serializeData: T -> Json): Json
  {
    JObj([Member("status", JInt(r.status)), Member("data", serializeData(r.data))])
  }

  /** What serde's derive writes for an envelope, from its declared fields, is `Serialize`. */
  lemma SerdeDerived<T>(r: JsonResponse<T>, serializeData: T -> Json)
    ensures DeriveObject(AsDeclared, Fields, [JInt(r.status), serializeData(r.data)]) == Serialize(r, serializeData)
  {
    DeriveMembers2(AsDeclared, Fields[0], Fields[1], JInt(r.status), serializeData(r.data));
    assert [Fields[0], Fields[1]] == Fields;
    assert Written(AsDeclared, Fields[0], JInt(r.status)) == [Member("status", JInt(r.status))];
    assert Written(AsDeclared, Fields[1], serializeData(r.data)) == [Member("data", serializeData(r.data))];
  }

  /** `JsonResponse::into_response`, which hands the envelope to axum's `Json`:
      the reply's status is 200 whatever the envelope's `status` field says,
      and the body carries the envelope's status and the serialised payload. */
  function IntoResponse<T>(r: JsonResponse<T>, serializeData: T -> Json): (reply: Reply)
    ensures reply.status == 200
    ensures Lookup(reply.body, "status") == Some(JInt(r.status))
    ensures Lookup(reply.body, "data") == Some(serializeData(r.data))
  {
    var body := Serialize(r, serializeData);
    assert LookupIn(body.members, "data") == LookupIn(body.members[1..], "data");
    Reply(OK, body)
  }

  /** The body's `status` agrees with the reply's HTTP status exactly when the envelope says 200,
      so it always does for `success`. */
  lemma BodyStatusAgreesIff<T>(r: JsonResponse<T>, serializeData: T -> Json)
    ensures Lookup(IntoResponse(r, serializeData).body, "status") == Some(JInt(IntoResponse(r, serializeData).status))
        <==> r.status == 200
  {
  }
}
