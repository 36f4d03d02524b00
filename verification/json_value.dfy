/** JSON documents as trees; objects keep their members in serialisation order. */
module JsonValue {
  import opened Results

  datatype Json =
    | JNull
    | JBool(b: bool)
    | JInt(i: int)
    | JNum(n: real)
    | JStr(s: string)
    | JArr(items: seq<Json>)
    | JObj(members: seq<Member>)

  datatype Member = Member(key: string, value: Json)

  /** The value of the first member of `ms` whose key is `k`. */
  function LookupIn(ms: seq<Member>, k: string): (r: Option<Json>)
    ensures r.Some? <==> exists i :: 0 <= i < |ms| && ms[i].key == k
  {
    if |ms| == 0 then None
    else if ms[0].key == k then Some(ms[0].value)
    else LookupIn(ms[1..], k)
  }

  /** The value under key `k` of an object; nothing for any other document. */
  function Lookup(j: Json, k: string): Option<Json>
  {
    if j.JObj? then LookupIn(j.members, k) else None
  }

  /** `k` is the key of a member of some object anywhere inside `j`. */
  predicate MentionsKey(j: Json, k: string)
    decreases j
  {
    match j
    case JArr(items) => exists i :: 0 <= i < |items| && MentionsKey(items[i], k)
    case JObj(ms) => exists i :: 0 <= i < |ms| && (ms[i].key == k || MentionsKey(ms[i].value, k))
    case _ => false
  }

  /** A document with no members or items of its own. */
  predicate Scalar(j: Json)
  {
    !j.JArr? && !j.JObj?
  }

  /** An object whose values are all scalars mentions exactly its own keys. */
  lemma FlatObjectMentions(ms: seq<Member>, k: string)
    requires forall i :: 0 <= i < |ms| ==> Scalar(ms[i].value)
    ensures MentionsKey(JObj(ms), k) <==> exists i :: 0 <= i < |ms| && ms[i].key == k
  {
  }

  /** An object mentions `k` only through one of its members. */
  lemma ObjectWithoutKey(ms: seq<Member>, k: string)
    requires forall i :: 0 <= i < |ms| ==> ms[i].key != k && !MentionsKey(ms[i].value, k)
    ensures !MentionsKey(JObj(ms), k)
  {
  }
}
