/** `ApiError`, the closed set of ways a request can fail, and how each becomes
    an HTTP reply whose body is a `UserError`. */
module Errors {
  import opened Results
  import opened RustTypes
  import opened JsonValue
  import opened Serde
  import opened Http
  import opened Sql

  /** axum's path `ErrorKind`: why a path parameter could not be deserialised. */
  datatype PathErrorKind =
    | WrongNumberOfParameters(got: nat, expected: nat)
    | ParseErrorAtKey(key: string, value: string, expectedType: string)
    | ParseErrorAtIndex(index: nat, value: string, expectedType: string)
    | ParseError(value: string, expectedType: string)
    | InvalidUtf8InPathParam(key: string)
    | UnsupportedType(name: string)
    | Message(text: string)

  /** axum's `PathRejection`; `text` is what the rejection displays as, which axum composes. */
  datatype Rejection =
    | FailedToDeserializePathParams(kind: PathErrorKind, text: string)
    | MissingPathParams(text: string)

  datatype ApiError =
    | RouteNotFound
    | RequestTimeout
    | InternalServerError(cause: string)
    | DatabaseError(db: DbError)
    | PathRejection(rejection: Rejection)

  /** The `#[error(...)]` text of each variant, which `to_string` returns. */
  function Display(e: ApiError): (s: string)
    ensures |s| > 0 && s[|s| - 1] == '.'
  {
    match e
    case RouteNotFound => "This route was not found."
    case RequestTimeout => "Your request timed out."
    case InternalServerError(_) => "An internal error has occurred."
    case DatabaseError(_) => "A database error occurred."
    case PathRejection(_) => "This path is invalid."
  }

  /** Each variant displays its own text, whatever it carries. */
  lemma DisplayDistinguishesVariants(a: ApiError, b: ApiError)
    ensures Display(a) == Display(b) <==>
      && a.RouteNotFound? == b.RouteNotFound?
      && a.RequestTimeout? == b.RequestTimeout?
      && a.InternalServerError? == b.InternalServerError?
      && a.DatabaseError? == b.DatabaseError?
  {
  }

  /** `From<sqlx::Error>`, which `?` applies to every failed query. */
  function FromDbError(e: DbError): (r: ApiError)
    ensures r.DatabaseError? && r.db == e
  {
    DatabaseError(e)
  }

  datatype UserError = UserError(timestamp: string, status: Uint16, error: string, message: string)

  /** `UserError::new`. The clock read is the parameter `now`, the RFC 3339 text of the current time. */
  function NewUserError(code: StatusCode, customError: Option<string>, message: string, now: string): (u: UserError)
    ensures u.status == code && u.message == message && u.timestamp == now
    ensures customError.Some? ==> u.error == customError.value
    ensures customError.None? && CanonicalReason(code).Some? ==> u.error == CanonicalReason(code).value
    ensures customError.None? && CanonicalReason(code).None? ==> u.error == "Unknown Error"
  {
    var error :=
      if customError.Some? then customError.value
      else if CanonicalReason(code).Some? then CanonicalReason(code).value
      else "Unknown Error";
    UserError(now, code, error, message)
  }

  const UserErrorFields: seq<FieldDecl> := [
    FieldDecl("timestamp", false),
    FieldDecl("status", false),
    FieldDecl("error", false),
    FieldDecl("message", false)
  ]

  function UserErrorValues(u: UserError): seq<Json>
  {
    [JStr(u.timestamp), JInt(u.status), JStr(u.error), JStr(u.message)]
  }

  /** The JSON object written for a user error: its four fields in declaration order, under their own names. */
  function SerializeUserError(u: UserError): Json
  {
    JObj([Member("timestamp", JStr(u.timestamp)), Member("status", JInt(u.status)),
          Member("error", JStr(u.error)), Member("message", JStr(u.message))])
  }

  /** What serde's derive writes for a user error, from its declared fields, is `SerializeUserError`. */
  lemma UserErrorDerived(u: UserError)
    ensures DeriveObject(AsDeclared, UserErrorFields, UserErrorValues(u)) == SerializeUserError(u)
  {
    var fs := UserErrorFields;
    var vs := UserErrorValues(u);
    DeriveMembers4(AsDeclared, fs[0], fs[1], fs[2], fs[3], vs[0], vs[1], vs[2], vs[3]);
    assert [fs[0], fs[1], fs[2], fs[3]] == fs;
    assert Written(AsDeclared, fs[0], vs[0]) == [Member("timestamp", vs[0])];
    assert Written(AsDeclared, fs[3], vs[3]) == [Member("message", vs[3])];
  }

  /** The status a path rejection is answered with: a type the route cannot
      deserialise into is the server's fault, any other deserialisation failure
      the client's, and every other rejection the server's. */
  function RejectionStatus(r: Rejection): (status: StatusCode)
    ensures status in {BAD_REQUEST, INTERNAL_SERVER_ERROR}
    ensures status == BAD_REQUEST <==> r.FailedToDeserializePathParams? && !r.kind.UnsupportedType?
  {
    match r
    case FailedToDeserializePathParams(kind, _) =>
      if kind.UnsupportedType? then INTERNAL_SERVER_ERROR else BAD_REQUEST
    case MissingPathParams(_) => INTERNAL_SERVER_ERROR
  }

  datatype ErrorResponse = ErrorResponse(status: StatusCode, body: UserError)

  /** The status and user error `ApiError::into_response` answers `e` with. */
  function Classify(e: ApiError, now: string): (r: ErrorResponse)
    ensures r.body.status == r.status
    ensures r.status in {400, 404, 408, 500}
    ensures CanonicalReason(r.status).Some? && r.body.error == CanonicalReason(r.status).value
    ensures r.body.timestamp == now
    ensures e.PathRejection? ==> r.body.message == e.rejection.text
  {
    match e
    case RouteNotFound =>
      ErrorResponse(NOT_FOUND, NewUserError(NOT_FOUND, None, Display(e), now))
    case RequestTimeout =>
      ErrorResponse(REQUEST_TIMEOUT, NewUserError(REQUEST_TIMEOUT, None, Display(e), now))
    case InternalServerError(_) =>
      ErrorResponse(INTERNAL_SERVER_ERROR, NewUserError(INTERNAL_SERVER_ERROR, None, Display(e), now))
    case DatabaseError(RowNotFound) =>
      ErrorResponse(NOT_FOUND, NewUserError(NOT_FOUND, None, "This data was not found in the database.", now))
    case DatabaseError(Backend(_)) =>
      ErrorResponse(INTERNAL_SERVER_ERROR, NewUserError(INTERNAL_SERVER_ERROR, None, Display(e), now))
    case PathRejection(rej) =>
      var status := RejectionStatus(rej);
      ErrorResponse(status, NewUserError(status, None, rej.text, now))
  }

  /** `ApiError::into_response`: the classified status, with the user error as
      JSON body, so the body's `status` always agrees with the reply's. */
  function IntoResponse(e: ApiError, now: string): (r: Reply)
    ensures r.status == Classify(e, now).status
    ensures Lookup(r.body, "timestamp") == Some(JStr(now))
    ensures Lookup(r.body, "status") == Some(JInt(r.status))
    ensures Lookup(r.body, "error") == Some(JStr(Classify(e, now).body.error))
    ensures Lookup(r.body, "message") == Some(JStr(Classify(e, now).body.message))
  {
    var c := Classify(e, now);
    var body := SerializeUserError(c.body);
    UserErrorLookups(c.body);
    Reply(c.status, body)
  }

  /** Each of a user error's fields is found under its own name in its JSON object. */
  lemma UserErrorLookups(u: UserError)
    ensures Lookup(SerializeUserError(u), "timestamp") == Some(JStr(u.timestamp))
    ensures Lookup(SerializeUserError(u), "status") == Some(JInt(u.status))
    ensures Lookup(SerializeUserError(u), "error") == Some(JStr(u.error))
    ensures Lookup(SerializeUserError(u), "message") == Some(JStr(u.message))
  {
    var ms := SerializeUserError(u).members;
    assert LookupIn(ms, "status") == LookupIn(ms[1..], "status");
    assert LookupIn(ms, "error") == LookupIn(ms[1..], "error") == LookupIn(ms[2..], "error");
    assert LookupIn(ms, "message") == LookupIn(ms[1..], "message") == LookupIn(ms[2..], "message")
        == LookupIn(ms[3..], "message");
  }

  /** A user error's JSON object mentions exactly its four keys. */
  lemma UserErrorKeys(u: UserError, k: string)
    ensures MentionsKey(SerializeUserError(u), k) <==>
      k == "timestamp" || k == "status" || k == "error" || k == "message"
  {
    var ms := SerializeUserError(u).members;
    FlatObjectMentions(ms, k);
    if k == "timestamp" {
      assert ms[0].key == k;
    } else if k == "status" {
      assert ms[1].key == k;
    } else if k == "error" {
      assert ms[2].key == k;
    } else if k == "message" {
      assert ms[3].key == k;
    }
  }

  /** The documented table: the status, label and message each kind of failure gets. */
  lemma ResponseTable(e: ApiError, now: string)
    ensures e == RouteNotFound ==>
      Classify(e, now).body == UserError(now, 404, "Not Found", "This route was not found.")
    ensures e == RequestTimeout ==>
      Classify(e, now).body == UserError(now, 408, "Request Timeout", "Your request timed out.")
    ensures e.InternalServerError? ==>
      Classify(e, now).body == UserError(now, 500, "Internal Server Error", "An internal error has occurred.")
    ensures e == DatabaseError(RowNotFound) ==>
      Classify(e, now).body == UserError(now, 404, "Not Found", "This data was not found in the database.")
    ensures e.DatabaseError? && e.db.Backend? ==>
      Classify(e, now).body == UserError(now, 500, "Internal Server Error", "A database error occurred.")
  {
  }

  /** A path rejection is answered with its own text, under the label of the status it gets. */
  lemma PathRejectionResponse(r: Rejection, now: string)
    ensures r.FailedToDeserializePathParams? && !r.kind.UnsupportedType? ==>
      Classify(PathRejection(r), now).body == UserError(now, 400, "Bad Request", r.text)
    ensures r.MissingPathParams? || r.kind.UnsupportedType? ==>
      Classify(PathRejection(r), now).body == UserError(now, 500, "Internal Server Error", r.text)
  {
  }

  /** 404 answers exactly an unmatched route and a lookup that found no row. */
  lemma NotFoundIff(e: ApiError, now: string)
    ensures Classify(e, now).status == 404 <==> e == RouteNotFound || e == DatabaseError(RowNotFound)
  {
  }

  /** 400 answers exactly a path parameter that failed to deserialise for a reason other than an unsupported type. */
  lemma BadRequestIff(e: ApiError, now: string)
    ensures Classify(e, now).status == 400 <==>
      e.PathRejection? && e.rejection.FailedToDeserializePathParams? && !e.rejection.kind.UnsupportedType?
  {
  }

  /** 408 answers exactly a timed-out request. */
  lemma RequestTimeoutIff(e: ApiError, now: string)
    ensures Classify(e, now).status == 408 <==> e == RequestTimeout
  {
  }

  /** 500 answers exactly the failures that are the server's fault. */
  lemma ServerErrorIff(e: ApiError, now: string)
    ensures Classify(e, now).status == 500 <==>
      || e.InternalServerError?
      || (e.DatabaseError? && e.db.Backend?)
      || (e.PathRejection? && (e.rejection.MissingPathParams? || e.rejection.kind.UnsupportedType?))
  {
  }

  /** An internal cause or a database failure's detail never reaches the client:
      the reply is the same whatever it is. */
  lemma OpaqueCausesNeverShown(c1: string, c2: string, d1: string, d2: string, now: string)
    ensures IntoResponse(InternalServerError(c1), now) == IntoResponse(InternalServerError(c2), now)
    ensures IntoResponse(DatabaseError(Backend(d1)), now) == IntoResponse(DatabaseError(Backend(d2)), now)
  {
    assert Classify(InternalServerError(c1), now) == Classify(InternalServerError(c2), now);
    assert Classify(DatabaseError(Backend(d1)), now) == Classify(DatabaseError(Backend(d2)), now);
  }

  /** A database error, once converted, answers 404 when no row was found and 500 otherwise. */
  lemma ConvertedDbErrorStatus(e: DbError, now: string)
    ensures Classify(FromDbError(e), now).status == if e == RowNotFound then 404 else 500
  {
  }
}
