/** PARTITION BY over the whole table: the batch queries rank and look back among the rows of all
    users and sessions at once. Restricting the table to one of them first gives the same result. */
module Partitions {
  import opened Prelude
  import opened Codec
  import opened Trades
  import opened Windowing
  import PlanAdherence
  import SessionTilt

  function OfRow<T>(p: T -> bool): Keyed<T> -> bool {
    (x: Keyed<T>) => p(x.row)
  }

  function If<T>(p: T -> bool, f: T -> int): T -> int {
    (x: T) => if p(x) then f(x) else 0
  }

  lemma {:induction false} SumIf<T>(s: seq<T>, p: T -> bool, f: T -> int)
    ensures Sum(s, If(p, f)) == Sum(Filter(s, p), f)
  {
    if s != [] {
      SumIf(s[..|s| - 1], p, f);
    }
  }

  lemma {:induction false} FilterTwice<T>(s: seq<T>, p: T -> bool, q: T -> bool, both: T -> bool)
    requires forall x :: x in s ==> both(x) == (p(x) && q(x))
    ensures Filter(Filter(s, p), q) == Filter(s, both)
  {
    if s != [] {
      FilterTwice(s[..|s| - 1], p, q, both);
    }
  }

  /** Two sums over sequences of one length, term by term equal. */
  lemma {:induction false} SumPointwise<T>(a: seq<T>, b: seq<T>, f: T -> int, g: T -> int)
    requires |a| == |b| && forall i :: 0 <= i < |a| ==> f(a[i]) == g(b[i])
    ensures Sum(a, f) == Sum(b, g)
  {
    if a != [] {
      SumPointwise(a[..|a| - 1], b[..|b| - 1], f, g);
    }
  }

  // ---- A partition inside the whole table, and the table restricted to it.

  /** The same rows with the same keys in the same order, whatever their positions. */
  ghost predicate Matches<T>(a: seq<Keyed<T>>, b: seq<Keyed<T>>) {
    && |a| == |b|
    && (forall i :: 0 <= i < |a| ==> a[i].key == b[i].key && a[i].row == b[i].row)
    && (forall i, j :: 0 <= i < j < |a| ==> a[i].pos < a[j].pos && b[i].pos < b[j].pos)
  }

  lemma {:induction false} PartitionMatches<T>(rows: seq<T>, key: T -> int, p: T -> bool)
    ensures Matches(Filter(Number(rows, key), OfRow(p)), Number(Filter(rows, p), key))
    ensures forall x :: x in Filter(Number(rows, key), OfRow(p)) ==> x.pos < |rows|
  {
    if rows != [] {
      var front, last := rows[..|rows| - 1], rows[|rows| - 1];
      PartitionMatches(front, key, p);
      assert Number(rows, key)[..|rows| - 1] == Number(front, key);
      var a, b := Filter(Number(front, key), OfRow(p)), Number(Filter(front, p), key);
      if p(last) {
        assert Number(Filter(front, p) + [last], key) == b + [Keyed(key(last), |b|, last)];
        assert forall i :: 0 <= i < |a| ==> a[i] in a;
      }
    }
  }

  lemma {:induction false} MatchingLess<T>(a: seq<Keyed<T>>, b: seq<Keyed<T>>, i: nat, j: nat)
    requires Matches(a, b) && i < |a| && j < |a|
    ensures Less(a[i], a[j]) == Less(b[i], b[j])
  {
  }

  lemma {:induction false} MatchingRowNumber<T>(a: seq<Keyed<T>>, b: seq<Keyed<T>>, i: nat)
    requires Matches(a, b) && i < |a|
    ensures RowNumber(a, a[i]) == RowNumber(b, b[i])
  {
    forall j | 0 <= j < |a|
      ensures Precedes(a[i])(a[j]) == Precedes(b[i])(b[j])
    {
      MatchingLess(a, b, j, i);
    }
    SumPointwise(a, b, Precedes(a[i]), Precedes(b[i]));
  }

  // ---- ROW_NUMBER() OVER (PARTITION BY user_id ORDER BY exit_at DESC).

  predicate RatedClose(t: Trade) {
    t.input.status == Shut && t.input.plan.Some?
  }

  /** All rated closed trades of all users. */
  function AllRated(ts: seq<Trade>): seq<Keyed<Trade>> {
    Filter(Number(ts, PlanAdherence.ExitKey()), OfRow(RatedClose))
  }

  function OfUser(u: Uuid): Keyed<Trade> -> bool {
    (x: Keyed<Trade>) => x.row.input.user == u
  }

  /** The rank of a row among the rows of its own user. */
  function RankIn(s: seq<Keyed<Trade>>, x: Keyed<Trade>): int {
    1 + Sum(s, If(OfUser(x.row.input.user), Precedes(x)))
  }

  function TopOf(s: seq<Keyed<Trade>>, f: Keyed<Trade> -> int): Keyed<Trade> -> int {
    (x: Keyed<Trade>) => if RankIn(s, x) <= PlanAdherence.WINDOW then f(x) else 0
  }

  /** AVG and COUNT of the rows with rank at most ten, GROUP BY user_id. */
  function WholeBatch(ts: seq<Trade>, u: Uuid): Option<PlanAdherence.Score> {
    var s := AllRated(ts);
    var count := Sum(s, If(OfUser(u), TopOf(s, PlanAdherence.One())));
    PlanAdherence.ScoreOf(Sum(s, If(OfUser(u), TopOf(s, PlanAdherence.Rating()))), if count < 0 then 0 else count)
  }

  lemma {:induction false} PartOfUser(ts: seq<Trade>, u: Uuid)
    ensures Matches(Filter(AllRated(ts), OfUser(u)), PlanAdherence.Partition(ts, u))
  {
    var w := Number(ts, PlanAdherence.ExitKey());
    forall x | x in w
      ensures OfRow(PlanAdherence.Rated(u))(x) == (OfRow(RatedClose)(x) && OfUser(u)(x))
    {
      assert PlanAdherence.Rated(u)(x.row) == (RatedClose(x.row) && x.row.input.user == u);
    }
    FilterTwice(w, OfRow(RatedClose), OfUser(u), OfRow(PlanAdherence.Rated(u)));
    PartitionMatches(ts, PlanAdherence.ExitKey(), PlanAdherence.Rated(u));
  }

  /** Ranking among all users' rows and summing one user's is ranking and summing that user's. */
  lemma {:induction false} TopOfPartition(ts: seq<Trade>, u: Uuid, f: Keyed<Trade> -> int, top: Keyed<Trade> -> int)
    requires forall x: Keyed<Trade> ::
      top(x) == if RowNumber(PlanAdherence.Partition(ts, u), x) <= PlanAdherence.WINDOW then f(x) else 0
    requires forall x: Keyed<Trade>, y: Keyed<Trade> :: x.row == y.row ==> f(x) == f(y)
    ensures Sum(AllRated(ts), If(OfUser(u), TopOf(AllRated(ts), f))) == Sum(PlanAdherence.Partition(ts, u), top)
  {
    var s := AllRated(ts);
    var a, b := Filter(s, OfUser(u)), PlanAdherence.Partition(ts, u);
    SumIf(s, OfUser(u), TopOf(s, f));
    PartOfUser(ts, u);
    forall i | 0 <= i < |a|
      ensures TopOf(s, f)(a[i]) == top(b[i])
    {
      FilterMember(s, OfUser(u), a[i]);
      SumIf(s, OfUser(u), Precedes(a[i]));
      MatchingRowNumber(a, b, i);
    }
    SumPointwise(a, b, TopOf(s, f), top);
  }

  /** The batch over the whole table gives every user the score of the batch over that user's rows. */
  lemma {:induction false} WholeScoreIsBatch(ts: seq<Trade>, u: Uuid)
    ensures WholeBatch(ts, u) == PlanAdherence.Batch(ts, u)
  {
    var b := PlanAdherence.Partition(ts, u);
    TopOfPartition(ts, u, PlanAdherence.Rating(), PlanAdherence.TopRating(b));
    TopOfPartition(ts, u, PlanAdherence.One(), PlanAdherence.TopCount(b));
  }

  // ---- LAG(outcome) OVER (PARTITION BY session_id ORDER BY entry_at).

  predicate Closed(t: Trade) {
    t.input.status == Shut
  }

  /** All closed trades of all sessions. */
  function AllClosed(ts: seq<Trade>): seq<Keyed<Trade>> {
    Filter(Number(ts, SessionTilt.EntryKey()), OfRow(Closed))
  }

  function OfSession(s: Uuid): Keyed<Trade> -> bool {
    (x: Keyed<Trade>) => x.row.input.session == s
  }

  /** The row before `x` among the rows of its own session. */
  function LagIn(s: seq<Keyed<Trade>>, x: Keyed<Trade>): Option<Keyed<Trade>> {
    if s == [] then None
    else
      var before, y := LagIn(s[..|s| - 1], x), s[|s| - 1];
      if y.row.input.session == x.row.input.session && Less(y, x) && (before == None || Less(before.value, y))
      then Some(y) else before
  }

  lemma {:induction false} LagOfPartition(s: seq<Keyed<Trade>>, x: Keyed<Trade>)
    ensures LagIn(s, x) == Lag(Filter(s, OfSession(x.row.input.session)), x)
  {
    if s != [] {
      LagOfPartition(s[..|s| - 1], x);
    }
  }

  function AfterLossIn(s: seq<Keyed<Trade>>): Keyed<Trade> -> int {
    (x: Keyed<Trade>) => match LagIn(s, x) case None => 0 case Some(y) => SessionTilt.Lost()(y)
  }

  /** COUNT(*) FILTER (WHERE prev_outcome = 'loss'), GROUP BY session_id and user_id. */
  function WholeTilt(ts: seq<Trade>, s: Uuid): SessionTilt.Tilt {
    var all := AllClosed(ts);
    SessionTilt.TiltRow(Filter(ts, SessionTilt.InSession(s)), Sum(all, If(OfSession(s), AfterLossIn(all))))
  }

  lemma {:induction false} PartOfSession(ts: seq<Trade>, s: Uuid)
    ensures Matches(Filter(AllClosed(ts), OfSession(s)), SessionTilt.Partition(ts, s))
  {
    var w := Number(ts, SessionTilt.EntryKey());
    forall x | x in w
      ensures OfRow(SessionTilt.InSession(s))(x) == (OfRow(Closed)(x) && OfSession(s)(x))
    {
      assert SessionTilt.InSession(s)(x.row) == (Closed(x.row) && x.row.input.session == s);
    }
    FilterTwice(w, OfRow(Closed), OfSession(s), OfRow(SessionTilt.InSession(s)));
    PartitionMatches(ts, SessionTilt.EntryKey(), SessionTilt.InSession(s));
  }

  /** LAG finds the same row in both. */
  lemma {:induction false} MatchingLag(a: seq<Keyed<Trade>>, b: seq<Keyed<Trade>>, i: nat)
    requires Matches(a, b) && i < |a|
    ensures Lag(a, a[i]).Some? <==> Lag(b, b[i]).Some?
    ensures Lag(a, a[i]).Some? ==> Lag(a, a[i]).value.row == Lag(b, b[i]).value.row
  {
    var p, q := Lag(a, a[i]), Lag(b, b[i]);
    if p.Some? {
      var j :| 0 <= j < |a| && a[j] == p.value;
      MatchingLess(a, b, j, i);
      assert b[j] in b;
    }
    if q.Some? {
      var k :| 0 <= k < |b| && b[k] == q.value;
      MatchingLess(a, b, k, i);
      assert a[k] in a;
    }
    if p.Some? && q.Some? {
      var j :| 0 <= j < |a| && a[j] == p.value;
      var k :| 0 <= k < |b| && b[k] == q.value;
      SameMaximum(a, b, j, k);
    }
  }

  lemma {:induction false} SameMaximum(a: seq<Keyed<Trade>>, b: seq<Keyed<Trade>>, j: nat, k: nat)
    requires Matches(a, b) && j < |a| && k < |a| && !Less(a[j], a[k]) && !Less(b[k], b[j])
    ensures j == k
  {
    MatchingLess(a, b, j, k);
  }

  lemma {:induction false} LagOfMember(all: seq<Keyed<Trade>>, s: Uuid, i: nat)
    requires i < |Filter(all, OfSession(s))|
    ensures var a := Filter(all, OfSession(s)); LagIn(all, a[i]) == Lag(a, a[i])
  {
    var x := Filter(all, OfSession(s))[i];
    FilterMember(all, OfSession(s), x);
    assert x.row.input.session == s;
    LagOfPartition(all, x);
  }

  lemma {:induction false} MatchingLosses(all: seq<Keyed<Trade>>, a: seq<Keyed<Trade>>, b: seq<Keyed<Trade>>, i: nat)
    requires Matches(a, b) && i < |a| && LagIn(all, a[i]) == Lag(a, a[i])
    ensures AfterLossIn(all)(a[i]) == SessionTilt.FollowsLoss(b)(b[i])
  {
    MatchingLag(a, b, i);
    var p, q := Lag(a, a[i]), Lag(b, b[i]);
    assert p.Some? ==> SessionTilt.Lost()(p.value) == SessionTilt.Lost()(q.value);
  }

  /** The batch over the whole table gives every session the tilt of the batch over that session's rows. */
  lemma {:induction false} WholeTiltIsBatch(ts: seq<Trade>, s: Uuid)
    ensures WholeTilt(ts, s) == SessionTilt.Batch(ts, s)
  {
    var all := AllClosed(ts);
    var a, b := Filter(all, OfSession(s)), SessionTilt.Partition(ts, s);
    SumIf(all, OfSession(s), AfterLossIn(all));
    PartOfSession(ts, s);
    forall i | 0 <= i < |a|
      ensures AfterLossIn(all)(a[i]) == SessionTilt.FollowsLoss(b)(b[i])
    {
      LagOfMember(all, s, i);
      MatchingLosses(all, a, b, i);
    }
    SumPointwise(a, b, AfterLossIn(all), SessionTilt.FollowsLoss(b));
  }
}
