/** The outcome of an operation that can fail, as pandas raises. */
module Results {

  datatype Result<+T, +E> = Ok(value: T) | Err(error: E)

  /** A cell that may be missing (pandas fills it with NaN). */
  datatype Option<+T> = None | Some(value: T)
}

/** Row-level table operations over `seq<R>`: a boolean-mask selection and a
    sort by an integer column. */
module Tables {

  /** The rows of `rows` that satisfy `keep`, in their original order, as a
      boolean mask `df[mask]` selects them. */
  function Filter<R(==,!new)>(rows: seq<R>, keep: R -> bool): (r: seq<R>)
    ensures |r| <= |rows|
    ensures forall i :: 0 <= i < |r| ==> keep(r[i])
  {
    if rows == [] then []
    else if keep(rows[0]) then [rows[0]] + Filter(rows[1..], keep)
      else Filter(rows[1..], keep)
  }

  /** The selection holds every row that passes, as often as the input
      does, and no other row. */
  lemma {:induction false} FilterMultiset<R(!new)>(rows: seq<R>, keep: R -> bool)
    ensures forall x :: multiset(Filter(rows, keep))[x] == if keep(x) then multiset(rows)[x] else 0
    ensures forall x :: x in Filter(rows, keep) <==> x in rows && keep(x)
  {
    if rows != [] {
      FilterMultiset(rows[1..], keep);
      assert rows == [rows[0]] + rows[1..];
    }
  }

  /** Selection distributes over concatenation: the kept rows of the first
      part all come before the kept rows of the second part. */
  lemma {:induction false} FilterAppend<R(!new)>(a: seq<R>, b: seq<R>, keep: R -> bool)
    ensures Filter(a + b, keep) == Filter(a, keep) + Filter(b, keep)
  {
    if a == [] {
      assert a + b == b;
    } else {
      var ab := a + b;
      assert ab[0] == a[0] && ab[1..] == a[1..] + b;
      FilterAppend(a[1..], b, keep);
      if keep(a[0]) {
        assert Filter(ab, keep) == [a[0]] + Filter(a[1..] + b, keep);
        assert Filter(a, keep) == [a[0]] + Filter(a[1..], keep);
      } else {
        assert Filter(ab, keep) == Filter(a[1..] + b, keep);
        assert Filter(a, keep) == Filter(a[1..], keep);
      }
    }
  }

  /** Non-decreasing order of `key` along the whole sequence. */
  predicate SortedBy<R>(rows: seq<R>, key: R -> int)
  {
    forall i, j :: 0 <= i < j < |rows| ==> key(rows[i]) <= key(rows[j])
  }

  /** Puts `x` into the sorted `rows` before the first row whose key is not
      smaller, so it goes ahead of the rows with an equal key. */
  function InsertBy<R(==,!new)>(x: R, rows: seq<R>, key: R -> int): (r: seq<R>)
    requires SortedBy(rows, key)
    ensures SortedBy(r, key)
    ensures multiset(r) == multiset(rows) + multiset{x}
  {
    if rows == [] then [x]
    else if key(x) <= key(rows[0]) then [x] + rows
    else
      var rest := InsertBy(x, rows[1..], key);
      assert rows == [rows[0]] + rows[1..];
      assert forall y :: y in rest ==> key(rows[0]) <= key(y) by {
        forall y | y in rest ensures key(rows[0]) <= key(y) {
          assert y in multiset(rest);
          assert y == x || y in rows[1..];
        }
      }
      [rows[0]] + rest
  }

  /** An ascending sort on `key`: the result is ordered and holds exactly
      the input rows, each as often as in the input. */
  function SortBy<R(==,!new)>(rows: seq<R>, key: R -> int): (r: seq<R>)
    ensures SortedBy(r, key)
    ensures multiset(r) == multiset(rows)
    ensures |r| == |rows|
  {
    if rows == [] then []
    else
      assert rows == [rows[0]] + rows[1..];
      InsertBy(rows[0], SortBy(rows[1..], key), key)
  }
}
