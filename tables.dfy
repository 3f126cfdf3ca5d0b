/** Results shared by the scheduling and registration model, and the two ORM queries the
    views run against a table: `.get()` and `.filter()`. A table is a sequence of rows. */
module Tables {

  datatype Option<+T> = None | Some(value: T)

  /** What a view reports: a value, or the reason the request was turned away. */
  datatype Result<+T, +E> = Ok(value: T) | Err(error: E)

  /** The three outcomes of an ORM `.get()`: no row (DoesNotExist), exactly one row,
      or several rows (MultipleObjectsReturned). */
  datatype Lookup<+T> = Missing | Unique(value: T) | Ambiguous

  /** `.get()` over a table: the one row that matches, or why there is not exactly one. */
  function Get<T>(rows: seq<T>, matches: T -> bool): (r: Lookup<T>)
    ensures r.Missing? <==> forall i :: 0 <= i < |rows| ==> !matches(rows[i])
    ensures r.Unique? ==> exists i :: 0 <= i < |rows| && rows[i] == r.value && matches(rows[i])
    ensures r.Unique? ==> forall i, j :: 0 <= i < j < |rows| ==> !(matches(rows[i]) && matches(rows[j]))
    ensures r.Ambiguous? <==> exists i, j :: 0 <= i < j < |rows| && matches(rows[i]) && matches(rows[j])
    decreases |rows|
  {
    if rows == [] then Missing
    else
      var rest := Get(rows[1..], matches);
      assert forall i :: 1 <= i < |rows| ==> rows[i] == rows[1..][i - 1];
      if !matches(rows[0]) then rest
      else if rest.Missing? then Unique(rows[0])
      else
        assert exists j :: 0 < j < |rows| && matches(rows[j]) by {
          assert exists j' :: 0 <= j' < |rows[1..]| && matches(rows[1..][j']);
        }
        Ambiguous
  }

  /** `.filter()` over a table: the rows that match. */
  function Filter<T(!new)>(rows: seq<T>, keep: T -> bool): (r: seq<T>)
    ensures |r| <= |rows|
    ensures forall x :: x in r <==> x in rows && keep(x)
    decreases |rows|
  {
    if rows == [] then []
    else
      assert forall x :: x in rows <==> x == rows[0] || x in rows[1..];
      (if keep(rows[0]) then [rows[0]] else []) + Filter(rows[1..], keep)
  }

  /** Filtering a table with one more row at its end. */
  lemma {:induction false} FilterAppend<T(!new)>(rows: seq<T>, x: T, keep: T -> bool)
    ensures Filter(rows + [x], keep) == Filter(rows, keep) + (if keep(x) then [x] else [])
    decreases |rows|
  {
    if rows != [] {
      assert (rows + [x])[1..] == rows[1..] + [x];
      FilterAppend(rows[1..], x, keep);
    }
  }

  /** A filter that every row passes leaves the table as it was. */
  lemma {:induction false} FilterKeepsAll<T(!new)>(rows: seq<T>, keep: T -> bool)
    requires forall i :: 0 <= i < |rows| ==> keep(rows[i])
    ensures Filter(rows, keep) == rows
    decreases |rows|
  {
    if rows != [] {
      FilterKeepsAll(rows[1..], keep);
    }
  }
}
