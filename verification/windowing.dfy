/** The SQL the metrics are written in: ORDER BY, ROW_NUMBER and LAG over one partition.
    Rows with equal keys are ordered by their position in the partition, one fixed total
    order for the live queries and the batch queries alike. */
module Windowing {
  import opened Prelude

  datatype Keyed<T> = Keyed(key: int, pos: nat, row: T)

  predicate Less<T>(a: Keyed<T>, b: Keyed<T>) {
    a.key < b.key || (a.key == b.key && a.pos < b.pos)
  }

  /** The rows of a partition with their sort keys and positions. */
  function Number<T>(rows: seq<T>, key: T -> int): (s: seq<Keyed<T>>)
    ensures |s| == |rows|
    ensures forall i :: 0 <= i < |rows| ==> s[i] == Keyed(key(rows[i]), i, rows[i])
  {
    seq(|rows|, i requires 0 <= i < |rows| => Keyed(key(rows[i]), i, rows[i]))
  }

  ghost predicate Distinct<T>(s: seq<Keyed<T>>) {
    forall i, j :: 0 <= i < j < |s| ==> s[i].pos != s[j].pos
  }

  ghost predicate Ascending<T>(s: seq<Keyed<T>>) {
    forall i, j :: 0 <= i < j < |s| ==> Less(s[i], s[j])
  }

  // ---- ORDER BY

  function Insert<T>(s: seq<Keyed<T>>, x: Keyed<T>): seq<Keyed<T>> {
    if s == [] || Less(s[|s| - 1], x) then s + [x]
    else Insert(s[..|s| - 1], x) + [s[|s| - 1]]
  }

  function OrderBy<T>(s: seq<Keyed<T>>): seq<Keyed<T>> {
    if s == [] then [] else Insert(OrderBy(s[..|s| - 1]), s[|s| - 1])
  }

  lemma {:induction false} InsertPermutes<T>(s: seq<Keyed<T>>, x: Keyed<T>)
    ensures multiset(Insert(s, x)) == multiset(s) + multiset{x}
  {
    if s != [] && !Less(s[|s| - 1], x) {
      InsertPermutes(s[..|s| - 1], x);
      assert s == s[..|s| - 1] + [s[|s| - 1]];
    }
  }

  lemma {:induction false} OrderByPermutes<T>(s: seq<Keyed<T>>)
    ensures multiset(OrderBy(s)) == multiset(s)
    ensures |OrderBy(s)| == |s|
  {
    if s != [] {
      OrderByPermutes(s[..|s| - 1]);
      InsertPermutes(OrderBy(s[..|s| - 1]), s[|s| - 1]);
      assert s == s[..|s| - 1] + [s[|s| - 1]];
    }
    assert |multiset(OrderBy(s))| == |multiset(s)|;
  }

  lemma {:induction false} InsertAscends<T>(s: seq<Keyed<T>>, x: Keyed<T>)
    requires Ascending(s)
    requires forall y :: y in s ==> y.pos != x.pos
    ensures Ascending(Insert(s, x))
  {
    if s != [] && !Less(s[|s| - 1], x) {
      var front := s[..|s| - 1];
      InsertAscends(front, x);
      InsertPermutes(front, x);
      var r := Insert(front, x);
      forall i | 0 <= i < |r|
        ensures Less(r[i], s[|s| - 1])
      {
        assert r[i] in multiset(r);
        assert r[i] in front || r[i] == x;
      }
    }
  }

  lemma {:induction false} OrderByAscends<T>(s: seq<Keyed<T>>)
    requires Distinct(s)
    ensures Ascending(OrderBy(s))
  {
    if s != [] {
      var front := s[..|s| - 1];
      OrderByAscends(front);
      OrderByPermutes(front);
      forall y | y in OrderBy(front)
        ensures y.pos != s[|s| - 1].pos
      {
        assert y in multiset(OrderBy(front));
        assert y in front;
      }
      InsertAscends(OrderBy(front), s[|s| - 1]);
    }
  }

  /** The first row in order belongs to the partition and no row of it has a smaller key. */
  lemma {:induction false} FirstIsLeast<T>(s: seq<Keyed<T>>)
    requires Distinct(s) && s != []
    ensures |OrderBy(s)| == |s| && OrderBy(s)[0] in s
    ensures forall i :: 0 <= i < |s| ==> OrderBy(s)[0].key <= s[i].key
  {
    OrderByPermutes(s);
    OrderByAscends(s);
    var o := OrderBy(s);
    assert o[0] in multiset(s);
    forall i | 0 <= i < |s|
      ensures o[0].key <= s[i].key
    {
      assert s[i] in multiset(o);
      var j :| 0 <= j < |o| && o[j] == s[i];
    }
  }

  // ---- ROW_NUMBER: one more than the number of rows that come before.

  function Precedes<T>(x: Keyed<T>): Keyed<T> -> int {
    y => if Less(y, x) then 1 else 0
  }

  function RowNumber<T>(s: seq<Keyed<T>>, x: Keyed<T>): int {
    1 + Sum(s, Precedes(x))
  }

  lemma {:induction false} NonePrecede<T>(s: seq<Keyed<T>>, x: Keyed<T>)
    requires forall y :: y in s ==> !Less(y, x)
    ensures Sum(s, Precedes(x)) == 0
  {
    if s != [] {
      NonePrecede(s[..|s| - 1], x);
    }
  }

  lemma {:induction false} AllPrecede<T>(s: seq<Keyed<T>>, x: Keyed<T>)
    requires forall y :: y in s ==> Less(y, x)
    ensures Sum(s, Precedes(x)) == |s|
  {
    if s != [] {
      AllPrecede(s[..|s| - 1], x);
    }
  }

  lemma {:induction false} CountBefore<T>(o: seq<Keyed<T>>, i: nat)
    requires Ascending(o) && i < |o|
    ensures Sum(o, Precedes(o[i])) == i
  {
    var a, b := o[..i], o[i..];
    assert o == a + b;
    SumAppend(a, b, Precedes(o[i]));
    AllPrecede(a, o[i]);
    forall y | y in b
      ensures !Less(y, o[i])
    {
      var j :| 0 <= j < |b| && b[j] == y;
      assert o[i + j] == y;
    }
    NonePrecede(b, o[i]);
  }

  /** The row that ORDER BY puts at index `i` is the row whose ROW_NUMBER is `i + 1`. */
  lemma {:induction false} RowNumberOfOrdered<T>(s: seq<Keyed<T>>, i: nat)
    requires Distinct(s) && i < |s|
    ensures |OrderBy(s)| == |s| && RowNumber(s, OrderBy(s)[i]) == i + 1
  {
    OrderByPermutes(s);
    OrderByAscends(s);
    SumPermuted(s, OrderBy(s), Precedes(OrderBy(s)[i]));
    CountBefore(OrderBy(s), i);
  }

  // ---- LAG: the last of the rows that come before.

  function Lag<T>(s: seq<Keyed<T>>, x: Keyed<T>): (p: Option<Keyed<T>>)
    ensures p == None ==> forall y :: y in s ==> !Less(y, x)
    ensures p.Some? ==> p.value in s && Less(p.value, x)
    ensures p.Some? ==> forall y :: y in s && Less(y, x) ==> !Less(p.value, y)
  {
    if s == [] then None
    else
      var before := Lag(s[..|s| - 1], x);
      var y := s[|s| - 1];
      assert s == s[..|s| - 1] + [y];
      if Less(y, x) && (before == None || Less(before.value, y)) then Some(y) else before
  }

  /** In a partition with one row per position, LAG of the row that ORDER BY puts at
      index `i` is the row it puts at index `i - 1`, and nothing for the first row. */
  lemma {:induction false} LagOfOrdered<T>(s: seq<Keyed<T>>, i: nat)
    requires Distinct(s) && i < |s|
    ensures |OrderBy(s)| == |s|
    ensures Lag(s, OrderBy(s)[i]) == if i == 0 then None else Some(OrderBy(s)[i - 1])
  {
    OrderByPermutes(s);
    OrderByAscends(s);
    var o := OrderBy(s);
    var p := Lag(s, o[i]);
    if i > 0 {
      assert o[i - 1] in multiset(s);
      assert Less(o[i - 1], o[i]);
    }
    if p.Some? {
      assert p.value in multiset(o);
      var j :| 0 <= j < |o| && o[j] == p.value;
      assert j < i;
      assert !Less(o[j], o[i - 1]);
    }
  }
}
