/**
 * The read window both cache reads ask the database for:
 * `SELECT * FROM (... ORDER BY created_at DESC LIMIT n) ORDER BY weather_time ASC`,
 * that is, the `n` most recently created rows, re-ordered by the time they
 * describe. Rows are generic; `created` and `described` project the two keys.
 * SQL leaves the order among equal keys open; this model fixes one choice.
 */
module Windows {

  function Min(a: int, b: int): int {
    if a <= b then a else b
  }

  /** `rows` is ordered ascending by `key`. */
  predicate SortedBy<T>(rows: seq<T>, key: T -> int) {
    forall i, j :: 0 <= i < j < |rows| ==> key(rows[i]) <= key(rows[j])
  }

  /** Every row of `rest` is no newer than every row of `kept`. */
  predicate NoNewerThan<T>(rest: seq<T>, kept: seq<T>, key: T -> int) {
    forall a, b :: 0 <= a < |rest| && 0 <= b < |kept| ==> key(rest[a]) <= key(kept[b])
  }

  /** The position of a row with the greatest key. */
  function NewestIndex<T>(rows: seq<T>, key: T -> int): (i: nat)
    requires |rows| > 0
    ensures i < |rows|
    ensures forall j :: 0 <= j < |rows| ==> key(rows[j]) <= key(rows[i])
  {
    if |rows| == 1 then 0
    else
      var i := NewestIndex(rows[1..], key);
      if key(rows[0]) >= key(rows[1..][i]) then 0 else i + 1
  }

  /** `rows` with the entry at `i` removed. */
  function Without<T>(rows: seq<T>, i: nat): (r: seq<T>)
    requires i < |rows|
    ensures multiset(r) + multiset{rows[i]} == multiset(rows)
  {
    assert rows == rows[..i] + [rows[i]] + rows[i + 1..];
    rows[..i] + rows[i + 1..]
  }

  /** Rows with no key below `b`. */
  predicate AllAtLeast<T>(rows: seq<T>, key: T -> int, b: int) {
    forall i :: 0 <= i < |rows| ==> b <= key(rows[i])
  }

  /** Rows with no key above `b`. */
  predicate AllAtMost<T>(rows: seq<T>, key: T -> int, b: int) {
    forall i :: 0 <= i < |rows| ==> key(rows[i]) <= b
  }

  /**
   * `ORDER BY key DESC LIMIT n`, split into the rows it returns (the `n`
   * with the greatest keys, newest first) and the rows it leaves out.
   */
  function Partition<T>(rows: seq<T>, key: T -> int, n: nat): (p: (seq<T>, seq<T>))
    ensures |p.0| == Min(n, |rows|)
    ensures multiset(p.0) + multiset(p.1) == multiset(rows)
    decreases n
  {
    if n == 0 || |rows| == 0 then ([], rows)
    else
      var i := NewestIndex(rows, key);
      var p := Partition(Without(rows, i), key, n - 1);
      assert multiset([rows[i]] + p.0) == multiset{rows[i]} + multiset(p.0);
      ([rows[i]] + p.0, p.1)
  }

  /** The rows `ORDER BY key DESC LIMIT n` returns. */
  function TakeNewest<T>(rows: seq<T>, key: T -> int, n: nat): seq<T> {
    Partition(rows, key, n).0
  }

  /** The rows `ORDER BY key DESC LIMIT n` leaves out. */
  function LeftOut<T>(rows: seq<T>, key: T -> int, n: nat): seq<T> {
    Partition(rows, key, n).1
  }

  /** A row drawn from a table whose keys are all at most `b` has a key at most `b`. */
  lemma MemberBelow<T>(rows: seq<T>, key: T -> int, b: int, x: T)
    requires AllAtMost(rows, key, b)
    requires x in multiset(rows)
    ensures key(x) <= b
  {
    assert x in rows;
    var j :| 0 <= j < |rows| && rows[j] == x;
  }

  /** Every row drawn from a table whose keys are all at most `b` has a key at most `b`. */
  lemma SubBelow<T>(rows: seq<T>, sub: seq<T>, key: T -> int, b: int)
    requires AllAtMost(rows, key, b)
    requires multiset(sub) <= multiset(rows)
    ensures AllAtMost(sub, key, b)
  {
    forall a | 0 <= a < |sub|
      ensures key(sub[a]) <= b
    {
      assert sub[a] in multiset(sub);
      MemberBelow(rows, key, b, sub[a]);
    }
  }

  /** Putting a row no older than everything left out in front of the kept rows keeps them the newest. */
  lemma ConsNewest<T>(top: T, kept: seq<T>, rest: seq<T>, key: T -> int)
    requires AllAtMost(rest, key, key(top))
    requires NoNewerThan(rest, kept, key)
    ensures NoNewerThan(rest, [top] + kept, key)
  {
    forall a, b | 0 <= a < |rest| && 0 <= b < |[top] + kept|
      ensures key(rest[a]) <= key(([top] + kept)[b])
    {
      if b > 0 {
        assert ([top] + kept)[b] == kept[b - 1];
      }
    }
  }

  /** Every row `ORDER BY key DESC LIMIT n` leaves out is no newer than every row it returns. */
  lemma {:induction false} TakeNewestKeepsNewest<T>(rows: seq<T>, key: T -> int, n: nat)
    ensures NoNewerThan(LeftOut(rows, key, n), TakeNewest(rows, key, n), key)
    decreases n
  {
    if n > 0 && |rows| > 0 {
      var i := NewestIndex(rows, key);
      var rest := Without(rows, i);
      var p := Partition(rest, key, n - 1);
      assert NoNewerThan(p.1, p.0, key) by {
        TakeNewestKeepsNewest(rest, key, n - 1);
      }
      assert AllAtMost(p.1, key, key(rows[i])) by {
        assert multiset(p.1) <= multiset(rest);
        assert multiset(rest) <= multiset(rows);
        SubBelow(rows, p.1, key, key(rows[i]));
      }
      ConsNewest(rows[i], p.0, p.1, key);
      assert Partition(rows, key, n) == ([rows[i]] + p.0, p.1);
    }
  }

  /** Insert `x` into an ascending sequence, after every row with a key no greater than its own. */
  function Insert<T>(x: T, rows: seq<T>, key: T -> int): (r: seq<T>)
    ensures multiset(r) == multiset(rows) + multiset{x}
  {
    if |rows| == 0 then [x]
    else if key(x) < key(rows[0]) then [x] + rows
    else
      assert rows == [rows[0]] + rows[1..];
      [rows[0]] + Insert(x, rows[1..], key)
  }

  /** Inserting into an ascending sequence keeps it ascending and keeps every lower bound. */
  lemma {:induction false} InsertSorted<T>(x: T, rows: seq<T>, key: T -> int)
    requires SortedBy(rows, key)
    ensures SortedBy(Insert(x, rows, key), key)
    ensures forall b :: AllAtLeast(rows, key, b) && b <= key(x) ==> AllAtLeast(Insert(x, rows, key), key, b)
  {
    if |rows| == 0 {
      ConsSorted(x, [], key);
    } else if key(x) < key(rows[0]) {
      assert AllAtLeast(rows, key, key(x)) by {
        assert forall i :: 0 <= i < |rows| ==> key(rows[0]) <= key(rows[i]);
      }
      ConsSorted(x, rows, key);
    } else {
      var tail := Insert(x, rows[1..], key);
      assert SortedBy(tail, key) && forall b :: AllAtLeast(rows[1..], key, b) && b <= key(x) ==> AllAtLeast(tail, key, b) by {
        assert SortedBy(rows[1..], key);
        InsertSorted(x, rows[1..], key);
      }
      assert AllAtLeast(rows[1..], key, key(rows[0]));
      ConsSorted(rows[0], tail, key);
      forall b | AllAtLeast(rows, key, b) && b <= key(x)
        ensures AllAtLeast(Insert(x, rows, key), key, b)
      {
        assert AllAtLeast(rows[1..], key, b);
        assert b <= key(rows[0]);
      }
    }
  }

  /** A row no greater than every row of a sorted sequence can go in front of it. */
  lemma ConsSorted<T>(h: T, t: seq<T>, key: T -> int)
    requires SortedBy(t, key) && AllAtLeast(t, key, key(h))
    ensures SortedBy([h] + t, key)
    ensures forall b :: b <= key(h) && AllAtLeast(t, key, b) ==> AllAtLeast([h] + t, key, b)
  {
    var r := [h] + t;
    forall i, j | 0 <= i < j < |r| ensures key(r[i]) <= key(r[j]) {
      assert r[j] == t[j - 1];
      if i > 0 {
        assert r[i] == t[i - 1];
      }
    }
    forall b | b <= key(h) && AllAtLeast(t, key, b)
      ensures AllAtLeast(r, key, b)
    {
      forall i | 0 <= i < |r| ensures b <= key(r[i]) {
        if i > 0 {
          assert r[i] == t[i - 1];
        }
      }
    }
  }


  /** `ORDER BY key ASC`, as an insertion sort. */
  function SortBy<T>(rows: seq<T>, key: T -> int): (r: seq<T>)
    ensures SortedBy(r, key)
    ensures multiset(r) == multiset(rows)
  {
    if |rows| == 0 then []
    else
      assert rows == [rows[0]] + rows[1..];
      var sorted := SortBy(rows[1..], key);
      InsertSorted(rows[0], sorted, key);
      Insert(rows[0], sorted, key)
  }

  /** Every element of a sub-multiset of a table is one of the table's rows. */
  lemma FromRows<T>(sub: seq<T>, rows: seq<T>)
    requires multiset(sub) <= multiset(rows)
    ensures forall i :: 0 <= i < |sub| ==> sub[i] in rows
  {
    forall i | 0 <= i < |sub|
      ensures sub[i] in rows
    {
      assert sub[i] in multiset(sub);
    }
  }

  /** The read window: the `n` newest rows by `created`, ascending by `described`. */
  function Recent<T>(rows: seq<T>, created: T -> int, described: T -> int, n: nat): seq<T> {
    SortBy(TakeNewest(rows, created, n), described)
  }

  /**
   * The window holds `min(n, |rows|)` rows of the table, ordered by the
   * time they describe; together with the rows it leaves out it is the
   * whole table; and every row left out is no newer than every row kept.
   */
  lemma RecentWindow<T>(rows: seq<T>, created: T -> int, described: T -> int, n: nat)
    ensures var w := Recent(rows, created, described, n);
      var rest := LeftOut(rows, created, n);
      && |w| == Min(n, |rows|)
      && multiset(w) + multiset(rest) == multiset(rows)
      && SortedBy(w, described)
      && NoNewerThan(rest, w, created)
  {
    var top := TakeNewest(rows, created, n);
    var rest := LeftOut(rows, created, n);
    var w := SortBy(top, described);
    TakeNewestKeepsNewest(rows, created, n);
    assert |w| == |multiset(w)| == |multiset(top)| == |top|;
    forall a, b | 0 <= a < |rest| && 0 <= b < |w|
      ensures created(rest[a]) <= created(w[b])
    {
      assert w[b] in multiset(top) by {
        assert w[b] in multiset(w);
      }
      assert top == TakeNewest(rows, created, n);
      var j :| 0 <= j < |top| && top[j] == w[b];
    }
  }
}
