/** Plan adherence: the average rating of a user's last ten closed trades. */
module PlanAdherence {
  import opened Prelude
  import opened Codec
  import opened Trades
  import opened Windowing

  const WINDOW := 10

  datatype Score = Score(average: real, window: nat)

  function Rated(u: Uuid): Trade -> bool {
    (t: Trade) => t.ClosedBy(u) && t.input.plan.Some?
  }

  /** Latest exit first. A closed row always has an exit time, so where NULLs sort does not matter. */
  function ExitKey(): Trade -> int {
    (t: Trade) => if t.input.exitAt.Some? then -t.input.exitAt.value else 0
  }

  function Rating(): Keyed<Trade> -> int {
    (x: Keyed<Trade>) => if x.row.input.plan.Some? then x.row.input.plan.value else 0
  }

  function Partition(ts: seq<Trade>, u: Uuid): (s: seq<Keyed<Trade>>)
    ensures Distinct(s)
  {
    Number(Filter(ts, Rated(u)), ExitKey())
  }

  /** ORDER BY exit_at DESC LIMIT 10. */
  function LastTen(ts: seq<Trade>, u: Uuid): seq<Keyed<Trade>> {
    var o := OrderBy(Partition(ts, u));
    if |o| <= WINDOW then o else o[..WINDOW]
  }

  function ScoreOf(sum: int, count: nat): Option<Score> {
    if count == 0 then None else Some(Score(sum as real / count as real, count))
  }

  /** The score that one event's recomputation stores. */
  function Live(ts: seq<Trade>, u: Uuid): Option<Score> {
    ScoreOf(Sum(LastTen(ts, u), Rating()), |LastTen(ts, u)|)
  }

  function TopRating(s: seq<Keyed<Trade>>): Keyed<Trade> -> int {
    (x: Keyed<Trade>) => if RowNumber(s, x) <= WINDOW then Rating()(x) else 0
  }

  function TopCount(s: seq<Keyed<Trade>>): Keyed<Trade> -> int {
    (x: Keyed<Trade>) => if RowNumber(s, x) <= WINDOW then 1 else 0
  }

  function One(): Keyed<Trade> -> int {
    _ => 1
  }

  /** The score that the batch stores: the average over the rows of the user's partition,
      in no particular order, whose ROW_NUMBER is at most ten. */
  function Batch(ts: seq<Trade>, u: Uuid): Option<Score> {
    var s := Partition(ts, u);
    var count := Sum(s, TopCount(s));
    ScoreOf(Sum(s, TopRating(s)), if count < 0 then 0 else count)
  }

  lemma {:induction false} SumOne(s: seq<Keyed<Trade>>)
    ensures Sum(s, One()) == |s|
  {
    if s != [] {
      SumOne(s[..|s| - 1]);
    }
  }

  function FirstTen(k: nat): nat {
    if k <= WINDOW then k else WINDOW
  }

  /** A sum over the rows numbered at most ten is the sum over the first ten in order. */
  lemma {:induction false} TopOfOrdered(s: seq<Keyed<Trade>>, top: Keyed<Trade> -> int,
                                        all: Keyed<Trade> -> int, k: nat)
    requires Distinct(s) && |OrderBy(s)| == |s| && k <= |s|
    requires forall x :: top(x) == if RowNumber(s, x) <= WINDOW then all(x) else 0
    ensures Sum(OrderBy(s)[..k], top) == Sum(OrderBy(s)[..FirstTen(k)], all)
  {
    if k > 0 {
      var o := OrderBy(s);
      TopOfOrdered(s, top, all, k - 1);
      RowNumberOfOrdered(s, k - 1);
      assert o[..k][..k - 1] == o[..k - 1];
    }
  }

  lemma {:induction false} TopIsPrefix(s: seq<Keyed<Trade>>, top: Keyed<Trade> -> int, all: Keyed<Trade> -> int)
    requires Distinct(s)
    requires forall x :: top(x) == if RowNumber(s, x) <= WINDOW then all(x) else 0
    ensures Sum(s, top) == Sum(if |OrderBy(s)| <= WINDOW then OrderBy(s) else OrderBy(s)[..WINDOW], all)
  {
    OrderByPermutes(s);
    SumPermuted(s, OrderBy(s), top);
    TopOfOrdered(s, top, all, |s|);
    assert OrderBy(s)[..|s|] == OrderBy(s);
  }

  /** The per-event recomputation and the batch recomputation give every user the same score. */
  lemma {:induction false} LiveIsBatch(ts: seq<Trade>, u: Uuid)
    ensures Live(ts, u) == Batch(ts, u)
  {
    var s := Partition(ts, u);
    TopIsPrefix(s, TopRating(s), Rating());
    TopIsPrefix(s, TopCount(s), One());
    SumOne(LastTen(ts, u));
  }

  lemma {:induction false} EmptyScore(ts: seq<Trade>, u: Uuid)
    ensures Live(ts, u) == None <==> Filter(ts, Rated(u)) == []
  {
    OrderByPermutes(Partition(ts, u));
  }

  /** Rows that are not rated closed trades of the user do not matter. */
  lemma {:induction false} OthersDoNotMatter(ts: seq<Trade>, more: seq<Trade>, u: Uuid)
    requires forall t :: t in more ==> !Rated(u)(t)
    ensures Live(ts + more, u) == Live(ts, u)
  {
    FilterAppend(ts, more, Rated(u));
    FilterNone(more, Rated(u));
    assert Filter(ts, Rated(u)) + [] == Filter(ts, Rated(u));
  }

  lemma {:induction false} SumBetween(s: seq<Keyed<Trade>>, lo: int, hi: int)
    requires forall x :: x in s ==> lo <= Rating()(x) <= hi
    ensures lo * |s| <= Sum(s, Rating()) <= hi * |s|
  {
    if s != [] {
      SumBetween(s[..|s| - 1], lo, hi);
    }
  }

  /** Ratings lie between 1 and 5, so a score does too, and its window is the number of
      rated trades, at most ten. */
  lemma {:induction false} ScoreRange(ts: seq<Trade>, u: Uuid)
    requires forall t :: t in ts && t.input.plan.Some? ==> 1 <= t.input.plan.value <= 5
    ensures var n := |Filter(ts, Rated(u))|;
      match Live(ts, u)
      case None => n == 0
      case Some(sc) => 1.0 <= sc.average <= 5.0 && sc.window == if n <= WINDOW then n else WINDOW
  {
    var s, o := Partition(ts, u), LastTen(ts, u);
    OrderByPermutes(s);
    forall x | x in o
      ensures 1 <= Rating()(x) <= 5
    {
      assert x in OrderBy(s);
      assert x in multiset(s);
      var i :| 0 <= i < |s| && s[i] == x;
      FilterMember(ts, Rated(u), x.row);
    }
    SumBetween(o, 1, 5);
    if o != [] {
      Quotient(Sum(o, Rating()) as real, |o| as real);
    }
  }

  lemma {:induction false} FactorSign(x: real, n: real)
    requires n > 0.0 && x * n >= 0.0
    ensures x >= 0.0
  {
  }

  lemma {:induction false} Quotient(sum: real, n: real)
    requires n > 0.0 && n <= sum <= 5.0 * n
    ensures 1.0 <= sum / n <= 5.0
  {
    var q := sum / n;
    assert q * n == sum;
    assert (q - 1.0) * n == q * n - n;
    assert (5.0 - q) * n == 5.0 * n - q * n;
    FactorSign(q - 1.0, n);
    FactorSign(5.0 - q, n);
  }
}
