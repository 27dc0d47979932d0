/** Session tilt: the share of a session's closed trades that follow a losing one. */
module SessionTilt {
  import opened Prelude
  import opened Codec
  import opened Trades
  import opened Windowing

  /** What the tilt statement yields for one session. Grouping is by session and user, and an
      upsert that meets the same session twice is an error, so two users make it fail. */
  datatype Tilt = NoRow | Row(user: Uuid, total: nat, following: nat) | Conflict
  {
    function Index(): real
      requires Row?
    {
      if total == 0 then 0.0 else following as real / total as real
    }
  }

  function InSession(s: Uuid): Trade -> bool {
    (t: Trade) => t.input.status == Shut && t.input.session == s
  }

  function EntryKey(): Trade -> int {
    (t: Trade) => t.input.entryAt
  }

  function Lost(): Keyed<Trade> -> int {
    (x: Keyed<Trade>) => if x.row.outcome == Some(Loss) then 1 else 0
  }

  function Partition(ts: seq<Trade>, s: Uuid): (p: seq<Keyed<Trade>>)
    ensures Distinct(p)
  {
    Number(Filter(ts, InSession(s)), EntryKey())
  }

  predicate OneUser(rows: seq<Trade>) {
    forall t :: t in rows ==> t.input.user == rows[0].input.user
  }

  function TiltRow(rows: seq<Trade>, following: int): Tilt {
    if rows == [] then NoRow
    else if !OneUser(rows) then Conflict
    else Row(rows[0].input.user, |rows|, if following < 0 then 0 else following)
  }

  /** Losses that some later row of `o` follows directly, with `o` in entry order. */
  function AdjacentLosses(o: seq<Keyed<Trade>>): int {
    if |o| <= 1 then 0 else AdjacentLosses(o[..|o| - 1]) + Lost()(o[|o| - 2])
  }

  /** The single-session recomputation of one event: LAG over the session in entry order. */
  function Live(ts: seq<Trade>, s: Uuid): Tilt {
    TiltRow(Filter(ts, InSession(s)), AdjacentLosses(OrderBy(Partition(ts, s))))
  }

  function FollowsLoss(p: seq<Keyed<Trade>>): Keyed<Trade> -> int {
    (x: Keyed<Trade>) => match Lag(p, x) case None => 0 case Some(y) => Lost()(y)
  }

  /** The batch: every row of the session's partition is asked for the outcome of its LAG. */
  function Batch(ts: seq<Trade>, s: Uuid): Tilt {
    var p := Partition(ts, s);
    TiltRow(Filter(ts, InSession(s)), Sum(p, FollowsLoss(p)))
  }

  lemma {:induction false} FollowingOfOrdered(p: seq<Keyed<Trade>>, k: nat)
    requires Distinct(p) && |OrderBy(p)| == |p| && k <= |p|
    ensures Sum(OrderBy(p)[..k], FollowsLoss(p)) == AdjacentLosses(OrderBy(p)[..k])
  {
    if k > 0 {
      FollowingOfOrdered(p, k - 1);
      LagOfOrdered(p, k - 1);
      assert OrderBy(p)[..k][..k - 1] == OrderBy(p)[..k - 1];
    }
  }

  /** The query for one session and the partitioned batch query give the same row. */
  lemma {:induction false} LiveIsBatch(ts: seq<Trade>, s: Uuid)
    ensures Live(ts, s) == Batch(ts, s)
  {
    var p := Partition(ts, s);
    OrderByPermutes(p);
    SumPermuted(p, OrderBy(p), FollowsLoss(p));
    FollowingOfOrdered(p, |p|);
    assert OrderBy(p)[..|p|] == OrderBy(p);
  }

  lemma {:induction false} AdjacentClosedForm(o: seq<Keyed<Trade>>)
    ensures o == [] ==> AdjacentLosses(o) == 0
    ensures o != [] ==> AdjacentLosses(o) == Sum(o, Lost()) - Lost()(o[|o| - 1])
  {
    if |o| > 1 {
      AdjacentClosedForm(o[..|o| - 1]);
    }
  }

  lemma {:induction false} LossesAtMost(o: seq<Keyed<Trade>>)
    ensures 0 <= Sum(o, Lost()) <= |o|
  {
    if o != [] {
      LossesAtMost(o[..|o| - 1]);
    }
  }

  /** Closed form: the loss-following trades are the losses, less one when the last trade in
      entry order is a loss. Outcomes may be missing; only losses count. */
  lemma {:induction false} TiltClosedForm(ts: seq<Trade>, s: Uuid)
    requires Live(ts, s).Row?
    ensures var p := Partition(ts, s);
      && |OrderBy(p)| == |p| == Live(ts, s).total > 0
      && Live(ts, s).following == Sum(p, Lost()) - Lost()(OrderBy(p)[|p| - 1])
      && Live(ts, s).following < Live(ts, s).total
  {
    var p := Partition(ts, s);
    OrderByPermutes(p);
    SumPermuted(p, OrderBy(p), Lost());
    AdjacentClosedForm(OrderBy(p));
    LossesAtMost(OrderBy(p)[..|p| - 1]);
    assert OrderBy(p) == OrderBy(p)[..|p| - 1] + [OrderBy(p)[|p| - 1]];
  }

  /** Before storage rounding the index lies between 0 and (n - 1)/n. */
  lemma {:induction false} TiltRange(ts: seq<Trade>, s: Uuid)
    requires Live(ts, s).Row?
    ensures 0.0 <= Live(ts, s).Index() <= 1.0 - 1.0 / Live(ts, s).total as real
  {
    TiltClosedForm(ts, s);
    var n, f := Live(ts, s).total as real, Live(ts, s).following as real;
    assert f <= n - 1.0;
    Ratio(f, n);
  }

  lemma {:induction false} Ratio(f: real, n: real)
    requires 0.0 <= f <= n - 1.0
    ensures 0.0 <= f / n <= 1.0 - 1.0 / n
  {
    assert 1.0 - 1.0 / n == (n - 1.0) / n;
    assert (n - 1.0) / n - f / n == (n - 1.0 - f) / n;
    assert (n - 1.0 - f) / n >= 0.0;
    assert f / n >= 0.0;
  }

  /** Rows outside the session, and rows that are not closed, do not matter. */
  lemma {:induction false} OthersDoNotMatter(ts: seq<Trade>, more: seq<Trade>, s: Uuid)
    requires forall t :: t in more ==> !InSession(s)(t)
    ensures Live(ts + more, s) == Live(ts, s)
  {
    FilterAppend(ts, more, InSession(s));
    FilterNone(more, InSession(s));
    assert Filter(ts, InSession(s)) + [] == Filter(ts, InSession(s));
  }

  /** The statement meets a conflict exactly when two users have closed trades in the session. */
  lemma {:induction false} ConflictExactly(ts: seq<Trade>, s: Uuid)
    ensures Live(ts, s).Conflict? <==>
      exists a, b :: a in ts && b in ts && InSession(s)(a) && InSession(s)(b) && a.input.user != b.input.user
  {
    var rows := Filter(ts, InSession(s));
    forall t: Trade
      ensures t in rows <==> t in ts && InSession(s)(t)
    {
      FilterMember(ts, InSession(s), t);
    }
    if rows != [] && !OneUser(rows) {
      var t :| t in rows && t.input.user != rows[0].input.user;
      assert rows[0] in rows;
    }
    if a, b :| a in ts && b in ts && InSession(s)(a) && InSession(s)(b) && a.input.user != b.input.user {
      assert a in rows && b in rows;
    }
  }

  /** Once two users have closed trades in one session, its tilt can never be stored again. */
  lemma {:induction false} ConflictIsForever(ts: seq<Trade>, more: seq<Trade>, s: Uuid)
    requires Live(ts, s).Conflict?
    ensures Live(ts + more, s).Conflict?
  {
    var a, b := Filter(ts, InSession(s)), Filter(more, InSession(s));
    FilterAppend(ts, more, InSession(s));
    var t :| t in a && t.input.user != a[0].input.user;
    assert t in a + b && (a + b)[0] == a[0];
  }
}
