/** A table as an ordered sequence of rows, and the two row-level queries the
    goal store issues: `SELECT ... WHERE column = value` (first match) and
    `DELETE FROM ... WHERE column = value`. A column is a function from row to
    integer value. */
module Table {
  import opened Wrappers

  /** Some row of `rows` has `value` in `column`. */
  predicate Exists<T(==)>(rows: seq<T>, column: T -> int, value: int) {
    exists x :: x in rows && column(x) == value
  }

  /** `key` strictly increases along `rows`, so no two rows share a key. */
  predicate StrictlyIncreasing<T>(rows: seq<T>, key: T -> int) {
    forall i, j :: 0 <= i < j < |rows| ==> key(rows[i]) < key(rows[j])
  }

  /** The first row with `value` in `column`, if any. */
  function FindWhere<T(==)>(rows: seq<T>, column: T -> int, value: int): (r: Option<T>)
    ensures r.Some? <==> Exists(rows, column, value)
    ensures r.Some? ==> r.value in rows && column(r.value) == value
  {
    if rows == [] then None
    else if column(rows[0]) == value then Some(rows[0])
    else FindWhere(rows[1..], column, value)
  }

  /** The rows whose `column` is not `value`. DeleteWhereSplits shows that each
      survivor is kept as often as it occurs, in the original order. */
  function DeleteWhere<T(==,!new)>(rows: seq<T>, column: T -> int, value: int): (r: seq<T>)
    ensures |r| <= |rows|
    ensures forall x :: x in r <==> x in rows && column(x) != value
  {
    if rows == [] then []
    else if column(rows[0]) == value then DeleteWhere(rows[1..], column, value)
    else [rows[0]] + DeleteWhere(rows[1..], column, value)
  }

  /** Deleting distributes over concatenation: the table is filtered row by
      row, so survivors keep their relative order and their repetitions. */
  lemma {:induction false} DeleteWhereSplits<T(!new)>(a: seq<T>, b: seq<T>, column: T -> int, value: int)
    ensures DeleteWhere(a + b, column, value) == DeleteWhere(a, column, value) + DeleteWhere(b, column, value)
  {
    if a != [] {
      assert (a + b)[1..] == a[1..] + b;
      DeleteWhereSplits(a[1..], b, column, value);
    } else {
      assert a + b == b;
    }
  }

  /** With unique keys, the row found is the one row holding that key. */
  lemma FindWhereUnique<T>(rows: seq<T>, key: T -> int, x: T)
    requires StrictlyIncreasing(rows, key)
    requires x in rows
    ensures FindWhere(rows, key, key(x)) == Some(x)
  {
    var r := FindWhere(rows, key, key(x));
    var i :| 0 <= i < |rows| && rows[i] == x;
    var j :| 0 <= j < |rows| && rows[j] == r.value;
    assert !(i < j) && !(j < i);
  }

  /** Deleting a value no row holds leaves the table as it was. */
  lemma {:induction false} DeleteWhereAbsent<T(!new)>(rows: seq<T>, column: T -> int, value: int)
    requires !Exists(rows, column, value)
    ensures DeleteWhere(rows, column, value) == rows
  {
    if rows != [] {
      assert rows[0] in rows;
      assert !Exists(rows[1..], column, value) by {
        forall x | x in rows[1..] ensures column(x) != value {
          assert x in rows;
        }
      }
      DeleteWhereAbsent(rows[1..], column, value);
      assert [rows[0]] + rows[1..] == rows;
    }
  }

  /** Deleting twice is deleting once. */
  lemma DeleteWhereIdempotent<T(!new)>(rows: seq<T>, column: T -> int, value: int)
    ensures DeleteWhere(DeleteWhere(rows, column, value), column, value) == DeleteWhere(rows, column, value)
  {
    DeleteWhereAbsent(DeleteWhere(rows, column, value), column, value);
  }

  /** Deleting keeps the surviving rows in their order, by any key. */
  lemma {:induction false} DeleteWhereKeepsOrder<T(!new)>(rows: seq<T>, key: T -> int, column: T -> int, value: int)
    requires StrictlyIncreasing(rows, key)
    ensures StrictlyIncreasing(DeleteWhere(rows, column, value), key)
  {
    if rows != [] {
      var tail := rows[1..];
      assert StrictlyIncreasing(tail, key) by {
        forall i, j | 0 <= i < j < |tail| ensures key(tail[i]) < key(tail[j]) {
          assert tail[i] == rows[i + 1] && tail[j] == rows[j + 1];
        }
      }
      DeleteWhereKeepsOrder(tail, key, column, value);
      var rest := DeleteWhere(tail, column, value);
      if column(rows[0]) != value {
        var r := [rows[0]] + rest;
        forall i, j | 0 <= i < j < |r| ensures key(r[i]) < key(r[j]) {
          if i == 0 {
            assert r[j] in tail;
            var k :| 0 <= k < |tail| && tail[k] == r[j];
            assert rows[k + 1] == r[j];
          } else {
            assert r[i] == rest[i - 1] && r[j] == rest[j - 1];
          }
        }
      }
    }
  }

  /** Appending a row whose key exceeds every key keeps the keys increasing. */
  lemma AppendKeepsOrder<T>(rows: seq<T>, key: T -> int, x: T)
    requires StrictlyIncreasing(rows, key)
    requires forall y :: y in rows ==> key(y) < key(x)
    ensures StrictlyIncreasing(rows + [x], key)
  {
    var r := rows + [x];
    forall i, j | 0 <= i < j < |r| ensures key(r[i]) < key(r[j]) {
      if j == |rows| {
        assert r[i] in rows;
      } else {
        assert r[i] == rows[i] && r[j] == rows[j];
      }
    }
  }
}
