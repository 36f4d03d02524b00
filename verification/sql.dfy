/** The slice of SQL and sqlx the queries use: `WHERE` on one column, `ORDER BY`
    one column, and sqlx's `fetch_one`, over tables held as row sequences. */
module Sql {
  import opened Results

  /** `sqlx::Error`. `RowNotFound` is the one variant the program tells apart;
      `Backend` stands for every other variant (I/O, protocol, pool, decoding, ...)
      and carries that error's description. */
  datatype DbError = RowNotFound | Backend(detail: string)

  datatype Direction = Asc | Desc

  predicate InOrder(dir: Direction, a: real, b: real)
  {
    match dir
    case Asc => a <= b
    case Desc => b <= a
  }

  ghost predicate SortedBy<R>(rows: seq<R>, key: R -> real, dir: Direction)
  {
    forall i, j :: 0 <= i < j < |rows| ==> InOrder(dir, key(rows[i]), key(rows[j]))
  }

  /** `WHERE p`: the rows satisfying `p`, in storage order. */
  function Where<R(!new)>(rows: seq<R>, p: R -> bool): (r: seq<R>)
    ensures |r| <= |rows|
    ensures forall x :: multiset(r)[x] == if p(x) then multiset(rows)[x] else 0
    ensures forall x :: x in r <==> x in rows && p(x)
  {
    if |rows| == 0 then []
    else
      assert rows == [rows[0]] + rows[1..];
      (if p(rows[0]) then [rows[0]] else []) + Where(rows[1..], p)
  }

  /** The position of the first row satisfying `p`; `|rows|` when there is none. */
  function FirstMatch<R>(rows: seq<R>, p: R -> bool): (i: nat)
    ensures i <= |rows|
    ensures i < |rows| ==> p(rows[i])
    ensures forall j :: 0 <= j < i ==> !p(rows[j])
  {
    if |rows| == 0 then 0
    else if p(rows[0]) then 0
    else
      var k := FirstMatch(rows[1..], p);
      assert forall j :: 0 < j < k + 1 ==> rows[j] == rows[1..][j - 1];
      1 + k
  }

  /** The first row `WHERE p` keeps is the first stored row satisfying `p`. */
  lemma {:induction false} WhereFirst<R(!new)>(rows: seq<R>, p: R -> bool)
    requires |Where(rows, p)| > 0
    ensures FirstMatch(rows, p) < |rows| && Where(rows, p)[0] == rows[FirstMatch(rows, p)]
  {
    if !p(rows[0]) {
      assert Where(rows, p) == [] + Where(rows[1..], p);
      WhereFirst(rows[1..], p);
    }
  }

  /** `x` is the first stored row satisfying `p`. */
  ghost predicate LeadsWith<R>(rows: seq<R>, p: R -> bool, x: R)
  {
    exists i :: 0 <= i < |rows| && rows[i] == x && p(x) && forall j :: 0 <= j < i ==> !p(rows[j])
  }

  /** The row `WHERE p` puts first is the first stored row satisfying `p`. */
  lemma WhereLeadsWith<R(!new)>(rows: seq<R>, p: R -> bool)
    requires |Where(rows, p)| > 0
    ensures LeadsWith(rows, p, Where(rows, p)[0])
  {
    WhereFirst(rows, p);
    var i := FirstMatch(rows, p);
    assert rows[i] == Where(rows, p)[0];
  }

  lemma {:induction false} InsertBelow<R>(x: R, rows: seq<R>, rest: seq<R>, key: R -> real, dir: Direction)
    requires |rows| > 0 && SortedBy(rows, key, dir)
    requires !InOrder(dir, key(x), key(rows[0]))
    requires multiset(rest) == multiset(rows[1..]) + multiset{x}
    ensures forall y :: y in rest ==> InOrder(dir, key(rows[0]), key(y))
  {
    forall y | y in rest
      ensures InOrder(dir, key(rows[0]), key(y))
    {
      assert y in multiset(rest);
      if y != x {
        assert y in multiset(rows[1..]);
        var k :| 0 <= k < |rows[1..]| && rows[1..][k] == y;
        assert rows[k + 1] == y;
      }
    }
  }

  /** Inserts `x` into sorted `rows` after every row it does not precede. */
  function Insert<R>(x: R, rows: seq<R>, key: R -> real, dir: Direction): (r: seq<R>)
    requires SortedBy(rows, key, dir)
    ensures SortedBy(r, key, dir)
    ensures multiset(r) == multiset(rows) + multiset{x}
  {
    if |rows| == 0 then [x]
    else if InOrder(dir, key(x), key(rows[0])) then [x] + rows
    else
      assert rows == [rows[0]] + rows[1..];
      var rest := Insert(x, rows[1..], key, dir);
      InsertBelow(x, rows, rest, key, dir);
      [rows[0]] + rest
  }

  /** `ORDER BY key dir`: the rows rearranged into order (stably; SQL leaves ties unordered). */
  function OrderBy<R>(rows: seq<R>, key: R -> real, dir: Direction): (r: seq<R>)
    ensures SortedBy(r, key, dir)
    ensures multiset(r) == multiset(rows)
    ensures |r| == |rows|
  {
    if |rows| == 0 then []
    else
      assert rows == [rows[0]] + rows[1..];
      Insert(rows[0], OrderBy(rows[1..], key, dir), key, dir)
  }

  /** sqlx's `fetch_one`: the first row of the result set, or `RowNotFound`
      when it is empty; a query that failed passes its error on. */
  function FetchOne<R>(q: Result<seq<R>, DbError>): (r: Result<R, DbError>)
    ensures q.Err? ==> r == Err(q.error)
    ensures q.Ok? && |q.value| == 0 ==> r == Err(RowNotFound)
    ensures q.Ok? && |q.value| > 0 ==> r == Ok(q.value[0])
  {
    match q
    case Err(e) => Err(e)
    case Ok(rows) => if |rows| == 0 then Err(RowNotFound) else Ok(rows[0])
  }
}
