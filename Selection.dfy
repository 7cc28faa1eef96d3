/** The table filter the recorder relies on, `df[df[column] == value]`: keep,
    in order, the rows whose key column equals a value exactly. The reference
    lookups take the first row of such a filter; the per-user partition is
    such a filter on the user column. */
module Selection {

  datatype Option<+T> = None | Some(value: T)

  /** The rows of `rows` whose key equals `k`, in their original order. */
  function Select<R, K(==)>(rows: seq<R>, key: R -> K, k: K): (r: seq<R>)
    ensures |r| <= |rows|
    ensures forall x :: x in r ==> x in rows && key(x) == k
    ensures forall x :: x in rows && key(x) == k ==> x in r
  {
    if |rows| == 0 then []
    else
      var rest := Select(rows[1..], key, k);
      assert forall x :: x in rows ==> x == rows[0] || x in rows[1..];
      if key(rows[0]) == k then [rows[0]] + rest else rest
  }

  /** Filtering is taken row by row: filtering a concatenation is the
      concatenation of the filtered parts, so the order of rows is kept. */
  lemma {:induction false} SelectAppend<R, K>(a: seq<R>, b: seq<R>, key: R -> K, k: K)
    ensures Select(a + b, key, k) == Select(a, key, k) + Select(b, key, k)
  {
    if |a| == 0 {
      assert a + b == b;
    } else {
      assert (a + b)[1..] == a[1..] + b;
      SelectAppend(a[1..], b, key, k);
    }
  }

  /** Filtering a table extended by one row extends the filtered table by
      that row exactly when the row's key matches. */
  lemma SelectSnoc<R, K>(rows: seq<R>, x: R, key: R -> K, k: K)
    ensures Select(rows + [x], key, k) == if key(x) == k then Select(rows, key, k) + [x] else Select(rows, key, k)
  {
    SelectAppend(rows, [x], key, k);
    assert [x][1..] == [];
  }

  /** The first row of a non-empty filter is the first row of the table whose
      key matches. */
  lemma {:induction false} SelectHead<R, K>(rows: seq<R>, key: R -> K, k: K)
    requires |Select(rows, key, k)| > 0
    ensures exists i :: 0 <= i < |rows| && rows[i] == Select(rows, key, k)[0] && key(rows[i]) == k
                        && forall j :: 0 <= j < i ==> key(rows[j]) != k
  {
    if key(rows[0]) != k {
      SelectHead(rows[1..], key, k);
      var i :| 0 <= i < |rows[1..]| && rows[1..][i] == Select(rows[1..], key, k)[0] && key(rows[1..][i]) == k
               && forall j :: 0 <= j < i ==> key(rows[1..][j]) != k;
      assert forall j :: 1 <= j < i + 1 ==> rows[j] == rows[1..][j - 1];
      assert rows[i + 1] == Select(rows, key, k)[0];
    }
  }

  /** The lookup of the recorder: filter by exact equality and take the
      first row (`values[0]`, `iloc[0]`), or nothing when no row matches. */
  function FirstMatch<R, K(==)>(rows: seq<R>, key: R -> K, k: K): (r: Option<R>)
    ensures r.None? <==> forall i :: 0 <= i < |rows| ==> key(rows[i]) != k
    ensures r.Some? ==> exists i :: 0 <= i < |rows| && rows[i] == r.value && key(rows[i]) == k
                                    && forall j :: 0 <= j < i ==> key(rows[j]) != k
  {
    var matching := Select(rows, key, k);
    if |matching| == 0 then None
    else
      SelectHead(rows, key, k);
      Some(matching[0])
  }

  /** Keys are unique in a table: no two rows share a key. */
  ghost predicate UniqueKeys<R, K>(rows: seq<R>, key: R -> K)
  {
    forall i, j :: 0 <= i < j < |rows| ==> key(rows[i]) != key(rows[j])
  }

  /** When the reference table is keyed uniquely, the lookup finds the one row
      with that key, wherever it stands. */
  lemma FirstMatchUnique<R, K>(rows: seq<R>, key: R -> K, i: nat)
    requires UniqueKeys(rows, key)
    requires i < |rows|
    ensures FirstMatch(rows, key, key(rows[i])) == Some(rows[i])
  {
    var r := FirstMatch(rows, key, key(rows[i]));
    var j :| 0 <= j < |rows| && rows[j] == r.value && key(rows[j]) == key(rows[i])
             && forall l :: 0 <= l < j ==> key(rows[l]) != key(rows[i]);
    assert j == i;
  }
}
