/** Database tables as sequences of rows.  A row's id is its index, so ids are fresh
    by construction; the text of an id is only needed where the program builds keys. */
module Tables {

  datatype Option<+T> = None | Some(value: T)

  /** SELECT SUM(f(row)). */
  function Sum<T>(rows: seq<T>, f: T -> int): int {
    if rows == [] then 0 else Sum(rows[..|rows| - 1], f) + f(rows[|rows| - 1])
  }

  /** SELECT ... WHERE key(row) = k, in insertion order. */
  function Where<T>(rows: seq<T>, key: T -> nat, k: nat): seq<T> {
    if rows == [] then []
    else
      var last := rows[|rows| - 1];
      Where(rows[..|rows| - 1], key, k) + if key(last) == k then [last] else []
  }

  /** SELECT ... WHERE key(row) = k ORDER BY ... DESC LIMIT 1: the id of the latest such row. */
  function Last<T, K(==)>(rows: seq<T>, key: T -> K, k: K): (r: Option<nat>)
    ensures r.Some? ==> r.value < |rows| && key(rows[r.value]) == k
    ensures r.None? ==> forall i :: 0 <= i < |rows| ==> key(rows[i]) != k
  {
    if rows == [] then None
    else if key(rows[|rows| - 1]) == k then Some(|rows| - 1)
    else Last(rows[..|rows| - 1], key, k)
  }

  lemma LastAppend<T, K>(rows: seq<T>, x: T, key: T -> K, k: K)
    ensures Last(rows + [x], key, k) == if key(x) == k then Some(|rows|) else Last(rows, key, k)
  {
    assert (rows + [x])[..|rows|] == rows;
  }

  lemma SumAppend<T>(rows: seq<T>, x: T, f: T -> int)
    ensures Sum(rows + [x], f) == Sum(rows, f) + f(x)
  {
    assert (rows + [x])[..|rows|] == rows;
  }

  lemma {:induction false} SumConcat<T>(a: seq<T>, b: seq<T>, f: T -> int)
    ensures Sum(a + b, f) == Sum(a, f) + Sum(b, f)
  {
    if b == [] {
      assert a + b == a;
    } else {
      SumConcat(a, b[..|b| - 1], f);
      assert (a + b)[..|a + b| - 1] == a + b[..|b| - 1];
    }
  }

  lemma {:induction false} SumUpdate<T>(rows: seq<T>, i: nat, x: T, f: T -> int)
    requires i < |rows|
    ensures Sum(rows[i := x], f) == Sum(rows, f) - f(rows[i]) + f(x)
  {
    var n := |rows| - 1;
    if i == n {
      assert rows[i := x][..n] == rows[..n];
    } else {
      assert rows[i := x][..n] == rows[..n][i := x];
      SumUpdate(rows[..n], i, x, f);
    }
  }

  lemma {:induction false} SumSame<T>(a: seq<T>, b: seq<T>, f: T -> int)
    requires |a| == |b| && forall i :: 0 <= i < |a| ==> f(a[i]) == f(b[i])
    ensures Sum(a, f) == Sum(b, f)
  {
    if a != [] {
      SumSame(a[..|a| - 1], b[..|b| - 1], f);
    }
  }

  lemma WhereAppend<T>(rows: seq<T>, x: T, key: T -> nat, k: nat)
    ensures Where(rows + [x], key, k) == Where(rows, key, k) + if key(x) == k then [x] else []
  {
    assert (rows + [x])[..|rows|] == rows;
  }

  lemma {:induction false} WhereNone<T>(rows: seq<T>, key: T -> nat, k: nat)
    requires forall r :: r in rows ==> key(r) != k
    ensures Where(rows, key, k) == []
  {
    if rows != [] {
      WhereNone(rows[..|rows| - 1], key, k);
    }
  }

  function Min(a: int, b: int): int { if a <= b then a else b }

  function Max(a: int, b: int): int { if a >= b then a else b }
}
