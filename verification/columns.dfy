/** Each metric read off the columns of the trades table, without the functions that its queries are
    modelled by: which rows it looks at, what it takes from them, and the numbers in its definition. */
module Columns {
  import opened Prelude
  import opened Codec
  import opened Trades
  import opened Windowing
  import opened Store
  import PlanAdherence
  import SessionTilt
  import Revenge
  import EmotionStats
  import Overtrading
  import Ledger
  import Detection
  import Backfill

  // ---- Rows by position.

  /** The positions of the elements that satisfy `p`, ascending. */
  function Positions<T>(s: seq<T>, p: T -> bool): seq<nat> {
    if s == [] then []
    else Positions(s[..|s| - 1], p) + if p(s[|s| - 1]) then [|s| - 1] else []
  }

  /** A filter lists the elements at those positions. */
  lemma {:induction false} FilteredAt<T>(s: seq<T>, p: T -> bool)
    ensures |Positions(s, p)| == |Filter(s, p)|
    ensures forall k :: 0 <= k < |Filter(s, p)| ==> Positions(s, p)[k] < |s| && Filter(s, p)[k] == s[Positions(s, p)[k]]
    ensures forall j, k :: 0 <= j < k < |Filter(s, p)| ==> Positions(s, p)[j] < Positions(s, p)[k]
    ensures forall i :: i in Positions(s, p) <==> 0 <= i < |s| && p(s[i])
  {
    if s != [] {
      FilteredAt(s[..|s| - 1], p);
    }
  }

  /** The length of a filter is a number of positions. */
  lemma {:induction false} CountFiltered<T>(s: seq<T>, p: T -> bool)
    ensures |Filter(s, p)| == |set i | 0 <= i < |s| && p(s[i])|
  {
    var all := set i | 0 <= i < |s| && p(s[i]);
    if s == [] {
      assert all == {};
    } else {
      var n := |s| - 1;
      CountFiltered(s[..n], p);
      var front := set i | 0 <= i < |s[..n]| && p(s[..n][i]);
      assert all == front + if p(s[n]) then {n} else {};
    }
  }

  lemma {:induction false} CountIs<T>(s: seq<T>, p: T -> bool, positions: set<int>)
    requires forall i :: i in positions <==> 0 <= i < |s| && p(s[i])
    ensures |Filter(s, p)| == |positions|
  {
    CountFiltered(s, p);
    assert positions == set i | 0 <= i < |s| && p(s[i]);
  }

  // ---- Plan adherence.

  /** The ratings of the rows, added up. */
  function RatingsOf(rows: seq<Trade>): int
    requires forall t :: t in rows ==> t.input.plan.Some?
  {
    if rows == [] then 0 else RatingsOf(rows[..|rows| - 1]) + rows[|rows| - 1].input.plan.value
  }

  function RowsIn(o: seq<Keyed<Trade>>): seq<Trade> {
    seq(|o|, i requires 0 <= i < |o| => o[i].row)
  }

  lemma {:induction false} RatingsAreSummed(o: seq<Keyed<Trade>>)
    requires forall x :: x in o ==> x.row.input.plan.Some?
    ensures forall t :: t in RowsIn(o) ==> t.input.plan.Some?
    ensures RatingsOf(RowsIn(o)) == Sum(o, PlanAdherence.Rating())
  {
    if o != [] {
      RatingsAreSummed(o[..|o| - 1]);
      assert RowsIn(o)[..|o| - 1] == RowsIn(o[..|o| - 1]);
      assert o[|o| - 1] in o;
    }
  }

  /** ORDER BY lists every row of a partition once, by ascending key. */
  lemma {:induction false} OrderedOnce<T>(rows: seq<T>, key: T -> int)
    ensures var o := OrderBy(Windowing.Number(rows, key));
      && |o| == |rows|
      && (forall i :: 0 <= i < |o| ==> o[i].pos < |rows| && o[i].row == rows[o[i].pos] && o[i].key == key(o[i].row))
      && (forall i, j :: 0 <= i < j < |o| ==> o[i].key <= o[j].key && o[i].pos != o[j].pos)
      && (forall k :: 0 <= k < |rows| ==> exists j :: 0 <= j < |o| && o[j].row == rows[k])
  {
    var s := Windowing.Number(rows, key);
    var o := OrderBy(s);
    OrderByPermutes(s);
    OrderByAscends(s);
    forall i | 0 <= i < |o|
      ensures o[i].pos < |rows| && o[i] == s[o[i].pos]
    {
      assert o[i] in multiset(s);
    }
    forall i, j | 0 <= i < j < |o|
      ensures o[i].key <= o[j].key && o[i].pos != o[j].pos
    {
      assert Less(o[i], o[j]);
    }
    forall k | 0 <= k < |rows|
      ensures exists j :: 0 <= j < |o| && o[j].row == rows[k]
    {
      assert s[k] in multiset(o);
      var j :| 0 <= j < |o| && o[j] == s[k];
    }
  }

  /** Filtering keeps the ids apart. */
  lemma {:induction false} FilteredIds(ts: seq<Trade>, p: Trade -> bool, j: nat, k: nat)
    requires UniqueIds(ts) && j < |Filter(ts, p)| && k < |Filter(ts, p)| && j != k
    ensures Filter(ts, p)[j].input.id != Filter(ts, p)[k].input.id
  {
    FilteredAt(ts, p);
    var at := Positions(ts, p);
    assert at[j] != at[k];
  }

  predicate RatedBy(t: Trade, u: Uuid) {
    t.input.user == u && t.input.status == Shut && t.input.plan.Some?
  }

  predicate ExitsNoLater(t: Trade, c: Trade) {
    t.input.exitAt.Some? && c.input.exitAt.Some? && t.input.exitAt.value <= c.input.exitAt.value
  }

  /** The rows of a user's score: as many of the user's rated closed rows as there are, at most ten,
      and no row left out exits later than one that was chosen. */
  ghost predicate LatestRated(ts: seq<Trade>, u: Uuid, chosen: seq<Trade>) {
    && (forall t :: t in chosen ==> t in ts && RatedBy(t, u))
    && (forall i, j :: 0 <= i < j < |chosen| ==> chosen[i].input.id != chosen[j].input.id)
    && (var n := |set i | 0 <= i < |ts| && RatedBy(ts[i], u)|; |chosen| == if n <= 10 then n else 10)
    && (forall t, c | t in ts && RatedBy(t, u) && t !in chosen && c in chosen :: ExitsNoLater(t, c))
  }

  lemma {:induction false} RatedRows(ts: seq<Trade>, u: Uuid)
    ensures |Filter(ts, PlanAdherence.Rated(u))| == |set i | 0 <= i < |ts| && RatedBy(ts[i], u)|
    ensures forall t :: t in Filter(ts, PlanAdherence.Rated(u)) <==> t in ts && RatedBy(t, u)
  {
    CountIs(ts, PlanAdherence.Rated(u), set i | 0 <= i < |ts| && RatedBy(ts[i], u));
    forall t: Trade
      ensures t in Filter(ts, PlanAdherence.Rated(u)) <==> t in ts && RatedBy(t, u)
    {
      FilterMember(ts, PlanAdherence.Rated(u), t);
    }
  }

  lemma {:induction false} LastTenIsPrefix(ts: seq<Trade>, u: Uuid)
    ensures var rows, last := Filter(ts, PlanAdherence.Rated(u)), PlanAdherence.LastTen(ts, u);
      && last <= OrderBy(Windowing.Number(rows, PlanAdherence.ExitKey()))
      && |last| == if |rows| <= 10 then |rows| else 10
  {
    OrderByPermutes(PlanAdherence.Partition(ts, u));
  }

  /** The first rows of the ordered partition. */
  lemma {:induction false} FirstOfOrdered(ts: seq<Trade>, u: Uuid, last: seq<Keyed<Trade>>)
    requires UniqueIds(ts)
    requires last <= OrderBy(Windowing.Number(Filter(ts, PlanAdherence.Rated(u)), PlanAdherence.ExitKey()))
    ensures forall i :: 0 <= i < |last| ==> last[i].row in Filter(ts, PlanAdherence.Rated(u))
    ensures forall i, j :: 0 <= i < j < |last| ==> last[i].row.input.id != last[j].row.input.id
  {
    OrderedOnce(Filter(ts, PlanAdherence.Rated(u)), PlanAdherence.ExitKey());
    forall i, j | 0 <= i < j < |last|
      ensures last[i].row.input.id != last[j].row.input.id
    {
      FilteredIds(ts, PlanAdherence.Rated(u), last[i].pos, last[j].pos);
    }
  }

  /** A row that is not among the first of the ordered rows has a key at least as great as theirs. */
  lemma {:induction false} FirstHaveLeastKeys<T>(rows: seq<T>, key: T -> int, n: nat, t: T, i: nat)
    requires n <= |OrderBy(Windowing.Number(rows, key))| && i < n && t in rows
    requires forall m :: 0 <= m < n ==> OrderBy(Windowing.Number(rows, key))[m].row != t
    ensures key(OrderBy(Windowing.Number(rows, key))[i].row) <= key(t)
  {
    var o := OrderBy(Windowing.Number(rows, key));
    OrderedOnce(rows, key);
    var k :| 0 <= k < |rows| && rows[k] == t;
    var j :| 0 <= j < |o| && o[j].row == rows[k];
    assert o[i].key <= o[j].key;
  }

  lemma {:induction false} LaterIsChosen(ts: seq<Trade>, u: Uuid, t: Trade, c: Trade)
    requires t in Filter(ts, PlanAdherence.Rated(u)) && t !in RowsIn(PlanAdherence.LastTen(ts, u))
    requires c in RowsIn(PlanAdherence.LastTen(ts, u)) && t.input.exitAt.Some? && c.input.exitAt.Some?
    ensures t.input.exitAt.value <= c.input.exitAt.value
  {
    var last := PlanAdherence.LastTen(ts, u);
    var i :| 0 <= i < |last| && RowsIn(last)[i] == c;
    forall m | 0 <= m < |last|
      ensures last[m].row != t
    {
      assert RowsIn(last)[m] == last[m].row;
    }
    FirstHaveLeastKeys(Filter(ts, PlanAdherence.Rated(u)), PlanAdherence.ExitKey(), |last|, t, i);
  }

  lemma {:induction false} LastTenAreRows(ts: seq<Trade>, u: Uuid)
    requires UniqueIds(ts)
    ensures var chosen := RowsIn(PlanAdherence.LastTen(ts, u));
      && (forall t :: t in chosen ==> t in Filter(ts, PlanAdherence.Rated(u)))
      && forall i, j :: 0 <= i < j < |chosen| ==> chosen[i].input.id != chosen[j].input.id
  {
    var last := PlanAdherence.LastTen(ts, u);
    LastTenIsPrefix(ts, u);
    FirstOfOrdered(ts, u, last);
    assert forall i :: 0 <= i < |last| ==> RowsIn(last)[i] == last[i].row;
  }

  lemma {:induction false} LastTenAreLatest(ts: seq<Trade>, u: Uuid)
    requires TableOk(ts)
    ensures LatestRated(ts, u, RowsIn(PlanAdherence.LastTen(ts, u)))
  {
    var chosen := RowsIn(PlanAdherence.LastTen(ts, u));
    RatedRows(ts, u);
    LastTenIsPrefix(ts, u);
    LastTenAreRows(ts, u);
    forall t, c | t in ts && RatedBy(t, u) && t !in chosen && c in chosen
      ensures ExitsNoLater(t, c)
    {
      LaterIsChosen(ts, u, t, c);
    }
  }

  lemma {:induction false} LastTenHaveRatings(ts: seq<Trade>, u: Uuid)
    ensures var last := PlanAdherence.LastTen(ts, u);
      (forall x :: x in last ==> x.row.input.plan.Some?)
      && (forall t :: t in RowsIn(last) ==> t.input.plan.Some?)
      && RatingsOf(RowsIn(last)) == Sum(last, PlanAdherence.Rating())
  {
    var last := PlanAdherence.LastTen(ts, u);
    LastTenIsPrefix(ts, u);
    OrderedOnce(Filter(ts, PlanAdherence.Rated(u)), PlanAdherence.ExitKey());
    forall x | x in last
      ensures x.row.input.plan.Some?
    {
      var i :| 0 <= i < |last| && last[i] == x;
      assert x.row in Filter(ts, PlanAdherence.Rated(u));
      FilterMember(ts, PlanAdherence.Rated(u), x.row);
    }
    RatingsAreSummed(last);
  }

  lemma {:induction false} ScoreOfRows(o: seq<Keyed<Trade>>)
    requires forall t :: t in RowsIn(o) ==> t.input.plan.Some?
    ensures match PlanAdherence.ScoreOf(Sum(o, PlanAdherence.Rating()), |o|)
      case None => o == []
      case Some(score) => && score.window == |o| > 0
                          && score.average * score.window as real == RatingsOf(RowsIn(o)) as real
  {
    forall x | x in o
      ensures x.row.input.plan.Some?
    {
      var i :| 0 <= i < |o| && o[i] == x;
      assert RowsIn(o)[i] in RowsIn(o);
    }
    RatingsAreSummed(o);
  }

  /** What a stored score is: the average rating of the user's latest rated closed rows, and how
      many they are. Without such rows there is none. */
  lemma {:induction false} ScoreOfLatest(ts: seq<Trade>, u: Uuid) returns (chosen: seq<Trade>)
    requires TableOk(ts)
    ensures LatestRated(ts, u, chosen)
    ensures match PlanAdherence.Live(ts, u)
      case None => chosen == []
      case Some(score) => && score.window == |chosen| > 0
                          && score.average * score.window as real == RatingsOf(chosen) as real
  {
    chosen := RowsIn(PlanAdherence.LastTen(ts, u));
    LastTenAreLatest(ts, u);
    ScoreOfRows(PlanAdherence.LastTen(ts, u));
  }

  // ---- Session tilt.

  /** The last row in entry order of a partition, by its position in the table. */
  lemma {:induction false} LastOfSession(ts: seq<Trade>, s: Uuid) returns (last: nat)
    requires Filter(ts, SessionTilt.InSession(s)) != []
    ensures last < |ts| && ts[last].input.status == Shut && ts[last].input.session == s
    ensures forall i :: 0 <= i < |ts| && ts[i].input.status == Shut && ts[i].input.session == s && i != last ==>
      ts[i].input.entryAt < ts[last].input.entryAt || (ts[i].input.entryAt == ts[last].input.entryAt && i < last)
    ensures var o := OrderBy(SessionTilt.Partition(ts, s)); o != [] && o[|o| - 1].row == ts[last]
  {
    var f := SessionTilt.InSession(s);
    var rows, p, at := Filter(ts, f), SessionTilt.Partition(ts, s), Positions(ts, f);
    var o := OrderBy(p);
    OrderByPermutes(p);
    OrderByAscends(p);
    FilteredAt(ts, f);
    var x := o[|o| - 1];
    assert x in multiset(p);
    last := at[x.pos];
    assert last in at;
    forall i | 0 <= i < |ts| && ts[i].input.status == Shut && ts[i].input.session == s && i != last
      ensures || ts[i].input.entryAt < ts[last].input.entryAt
              || (ts[i].input.entryAt == ts[last].input.entryAt && i < last)
    {
      assert i in at;
      var k :| 0 <= k < |at| && at[k] == i;
      assert p[k] in multiset(o);
      var j :| 0 <= j < |o| && o[j] == p[k];
      assert Less(o[j], x);
    }
  }

  function LossIn(s: Uuid): Trade -> bool {
    (t: Trade) => t.input.status == Shut && t.input.session == s && t.outcome == Some(Loss)
  }

  lemma {:induction false} LossesOfPartition(ts: seq<Trade>, s: Uuid)
    ensures Sum(SessionTilt.Partition(ts, s), SessionTilt.Lost()) == |Filter(ts, LossIn(s))|
  {
    if ts != [] {
      var front, last := ts[..|ts| - 1], ts[|ts| - 1];
      LossesOfPartition(front, s);
      var p := SessionTilt.Partition(ts, s);
      if SessionTilt.InSession(s)(last) {
        assert p[..|p| - 1] == SessionTilt.Partition(front, s);
      }
    }
  }

  /** The two numbers of a tilt as numbers of rows. */
  lemma {:induction false} SessionCounts(ts: seq<Trade>, s: Uuid)
    ensures |Filter(ts, SessionTilt.InSession(s))| ==
      |set i | 0 <= i < |ts| && ts[i].input.status == Shut && ts[i].input.session == s|
    ensures Sum(SessionTilt.Partition(ts, s), SessionTilt.Lost()) ==
      |set i | 0 <= i < |ts| && ts[i].input.status == Shut && ts[i].input.session == s && ts[i].outcome == Some(Loss)|
  {
    LossesOfPartition(ts, s);
    CountIs(ts, SessionTilt.InSession(s),
            set i | 0 <= i < |ts| && ts[i].input.status == Shut && ts[i].input.session == s);
    CountIs(ts, LossIn(s), set i | 0 <= i < |ts| && ts[i].input.status == Shut && ts[i].input.session == s
                                   && ts[i].outcome == Some(Loss));
  }

  /** What a stored tilt is: the number of closed rows of the session, and of those how many directly
      follow a losing one in entry order, which is the number of losing rows, less one when the row
      that comes last by entry and position is one of them. The index is their ratio. */
  lemma {:induction false} TiltOfLosses(ts: seq<Trade>, s: Uuid) returns (last: nat)
    requires SessionTilt.Live(ts, s).Row?
    ensures last < |ts| && ts[last].input.status == Shut && ts[last].input.session == s
    ensures forall i :: 0 <= i < |ts| && ts[i].input.status == Shut && ts[i].input.session == s && i != last ==>
      ts[i].input.entryAt < ts[last].input.entryAt || (ts[i].input.entryAt == ts[last].input.entryAt && i < last)
    ensures var row := SessionTilt.Live(ts, s);
      && row.user == ts[last].input.user
      && row.total == |set i | 0 <= i < |ts| && ts[i].input.status == Shut && ts[i].input.session == s|
      && row.following == |set i | 0 <= i < |ts| && ts[i].input.status == Shut && ts[i].input.session == s
                                   && ts[i].outcome == Some(Loss)| - (if ts[last].outcome == Some(Loss) then 1 else 0)
      && row.Index() * row.total as real == row.following as real
      && row == SessionTilt.Batch(ts, s)
  {
    FirstRowInSession(ts, s);
    last := LastOfSession(ts, s);
    SessionTilt.TiltClosedForm(ts, s);
    SessionTilt.LiveIsBatch(ts, s);
    SessionCounts(ts, s);
    UserOfSession(ts, s, last);
  }

  lemma {:induction false} FirstRowInSession(ts: seq<Trade>, s: Uuid)
    ensures SessionTilt.Live(ts, s).Row? ==> Filter(ts, SessionTilt.InSession(s)) != []
  {
  }

  lemma {:induction false} UserOfSession(ts: seq<Trade>, s: Uuid, i: nat)
    requires SessionTilt.Live(ts, s).Row? && i < |ts| && ts[i].input.status == Shut && ts[i].input.session == s
    ensures SessionTilt.Live(ts, s).user == ts[i].input.user
    ensures var row := SessionTilt.Live(ts, s); row.Index() * row.total as real == row.following as real
  {
    FilterMember(ts, SessionTilt.InSession(s), ts[i]);
  }

  /** No tilt is stored exactly for a session without closed rows, or with closed rows of two users. */
  lemma {:induction false} TiltIsStored(ts: seq<Trade>, s: Uuid)
    ensures SessionTilt.Live(ts, s).NoRow? <==>
      forall i :: 0 <= i < |ts| && ts[i].input.status == Shut ==> ts[i].input.session != s
    ensures SessionTilt.Live(ts, s).Conflict? <==> SharedSession(ts, s)
    ensures Backfill.TiltsConflict(ts) <==> exists x :: SharedSession(ts, x)
  {
    FilteredAt(ts, SessionTilt.InSession(s));
    SharedExactly(ts, s);
    forall x | SharedSession(ts, x)
      ensures x in Backfill.Sessions(ts)
    {
      var i, j :| SharedAt(ts, x, i, j);
      assert ts[i] in ts;
    }
    forall x: Uuid
      ensures SessionTilt.Batch(ts, x).Conflict? <==> SharedSession(ts, x)
    {
      SharedExactly(ts, x);
      SessionTilt.LiveIsBatch(ts, x);
    }
  }

  /** Two closed rows of the session belong to different users. */
  predicate SharedAt(ts: seq<Trade>, s: Uuid, i: int, j: int) {
    && 0 <= i < |ts| && 0 <= j < |ts| && ts[i].input.status == ts[j].input.status == Shut
    && ts[i].input.session == ts[j].input.session == s && ts[i].input.user != ts[j].input.user
  }

  ghost predicate SharedSession(ts: seq<Trade>, s: Uuid) {
    exists i, j :: SharedAt(ts, s, i, j)
  }

  lemma {:induction false} SharedExactly(ts: seq<Trade>, s: Uuid)
    ensures SessionTilt.Live(ts, s).Conflict? <==> SharedSession(ts, s)
  {
    SessionTilt.ConflictExactly(ts, s);
    if a, b :| a in ts && b in ts && SessionTilt.InSession(s)(a) && SessionTilt.InSession(s)(b)
               && a.input.user != b.input.user {
      var i :| 0 <= i < |ts| && ts[i] == a;
      var j :| 0 <= j < |ts| && ts[j] == b;
      assert SharedAt(ts, s, i, j);
    }
    if i, j :| SharedAt(ts, s, i, j) {
      assert ts[i] in ts && ts[j] in ts;
    }
  }

  // ---- The revenge flag.

  /** Row `p` is a losing close of the user at most ninety seconds before the instant. */
  predicate RecentLoss(p: Trade, u: Uuid, at: int) {
    && p.input.user == u && p.input.status == Shut && p.outcome == Some(Loss)
    && p.input.exitAt.Some? && 0 <= at - p.input.exitAt.value <= 90_000_000_000
  }

  /** What each of the two flag predicates is: an anxious or fearful trade, and a losing close of the
      user in the ninety seconds up to its entry, of another trade for the batch. */
  lemma {:induction false} FlagOfLoss(ts: seq<Trade>, t: Trade, u: Uuid)
    ensures Revenge.BatchFlag(ts, t) <==>
      && (t.input.emotion == Some(Anxious) || t.input.emotion == Some(Fearful))
      && exists p :: p in ts && p.input.id != t.input.id && RecentLoss(p, t.input.user, t.input.entryAt)
    ensures Revenge.LiveFlag(ts, u, t) <==>
      && (t.input.emotion == Some(Anxious) || t.input.emotion == Some(Fearful))
      && exists p :: p in ts && RecentLoss(p, u, t.input.entryAt)
  {
    Revenge.BatchIsInWindow(ts, t);
    forall p
      ensures Revenge.InWindow(t, p) <==> p.input.id != t.input.id && RecentLoss(p, t.input.user, t.input.entryAt)
    {
    }
    var mine := t.(input := t.input.(user := u));
    Revenge.LiveIsAfterLoss(ts, mine);
  }

  // ---- Wins and losses by emotion.

  /** What the backfill stores for a bucket, side by side, and what one closed event adds to it. */
  lemma {:induction false} CellOfOutcomes(t: Tables, found: seq<Ledger.Found>, u: Uuid, e: Emotion)
    requires exists i :: 0 <= i < |t.trades| && t.trades[i].input.user == u && t.trades[i].input.status == Shut
                         && t.trades[i].input.emotion == Some(e) && t.trades[i].outcome.Some?
    ensures var cells := Backfill.Backfilled(t, found).cells;
      var b, ts := EmotionStats.Bucket(u, e), t.trades;
      && b in cells
      && cells[b].wins == |set i | 0 <= i < |ts| && ts[i].input.user == u && ts[i].input.status == Shut
                                   && ts[i].input.emotion == Some(e) && ts[i].outcome == Some(Win)|
      && cells[b].losses == |set i | 0 <= i < |ts| && ts[i].input.user == u && ts[i].input.status == Shut
                                     && ts[i].input.emotion == Some(e) && ts[i].outcome == Some(Loss)|
  {
    var b, ts := EmotionStats.Bucket(u, e), t.trades;
    var i :| 0 <= i < |ts| && ts[i].input.user == u && ts[i].input.status == Shut && ts[i].input.emotion == Some(e)
             && ts[i].outcome.Some?;
    assert ts[i] in ts && b in Backfill.Buckets(ts);
    Backfill.FilledColumns(t, Backfill.STATEMENTS);
    BucketCounts(ts, u, e);
  }

  lemma {:induction false} BucketCounts(ts: seq<Trade>, u: Uuid, e: Emotion)
    ensures EmotionStats.Batch(ts, EmotionStats.Bucket(u, e), true) ==
      |set i | 0 <= i < |ts| && ts[i].input.user == u && ts[i].input.status == Shut
               && ts[i].input.emotion == Some(e) && ts[i].outcome == Some(Win)|
    ensures EmotionStats.Batch(ts, EmotionStats.Bucket(u, e), false) ==
      |set i | 0 <= i < |ts| && ts[i].input.user == u && ts[i].input.status == Shut
               && ts[i].input.emotion == Some(e) && ts[i].outcome == Some(Loss)|
  {
    forall t: Trade
      ensures EmotionStats.InBucket(EmotionStats.Bucket(u, e), false)(t) <==>
        t.input.user == u && t.input.status == Shut && t.input.emotion == Some(e) && t.outcome == Some(Loss)
    {
      match t.outcome {
        case Some(Win) =>
        case Some(Loss) =>
        case None =>
      }
    }
    CountIs(ts, EmotionStats.InBucket(EmotionStats.Bucket(u, e), true),
            set i | 0 <= i < |ts| && ts[i].input.user == u && ts[i].input.status == Shut
                    && ts[i].input.emotion == Some(e) && ts[i].outcome == Some(Win));
    CountIs(ts, EmotionStats.InBucket(EmotionStats.Bucket(u, e), false),
            set i | 0 <= i < |ts| && ts[i].input.user == u && ts[i].input.status == Shut
                    && ts[i].input.emotion == Some(e) && ts[i].outcome == Some(Loss));
  }

  lemma {:induction false} CellOfEvent(cells: EmotionStats.Cells, u: Uuid, t: Trade, b: EmotionStats.Bucket)
    ensures var after := EmotionStats.At(EmotionStats.Record(cells, u, t), b);
      var mine := b.user == u && t.input.emotion == Some(b.emotion);
      && after.wins == EmotionStats.At(cells, b).wins + (if mine && t.outcome == Some(Win) then 1 else 0)
      && after.losses == EmotionStats.At(cells, b).losses + (if mine && t.outcome == Some(Loss) then 1 else 0)
  {
    EmotionStats.RecordCounts(cells, u, t, b, true);
    EmotionStats.RecordCounts(cells, u, t, b, false);
  }

  // ---- Overtrading.

  /** How many trades the user entered in the closed interval of that length. */
  function EnteredIn(ts: seq<Trade>, u: Uuid, from: int, length: int): nat {
    |set i | 0 <= i < |ts| && ts[i].input.user == u && from <= ts[i].input.entryAt <= from + length|
  }

  function Within(u: Uuid, from: int, to: int): Trade -> bool {
    (t: Trade) => t.input.user == u && from <= t.input.entryAt <= to
  }

  lemma {:induction false} EntriesFiltered(rows: seq<Trade>, p: int -> bool, q: Trade -> bool)
    requires forall t :: t in rows ==> p(t.input.entryAt) == q(t)
    ensures |Filter(seq(|rows|, i requires 0 <= i < |rows| => rows[i].input.entryAt), p)| == |Filter(rows, q)|
  {
    if rows != [] {
      var n := |rows| - 1;
      EntriesFiltered(rows[..n], p, q);
      assert seq(|rows|, i requires 0 <= i < |rows| => rows[i].input.entryAt)[..n]
          == seq(n, i requires 0 <= i < n => rows[..n][i].input.entryAt);
    }
  }

  lemma {:induction false} FilterOfFilter(ts: seq<Trade>, u: Uuid, from: int, to: int)
    ensures Filter(Filter(ts, Store.ByUser(u)), Within(u, from, to)) == Filter(ts, Within(u, from, to))
  {
    if ts != [] {
      FilterOfFilter(ts[..|ts| - 1], u, from, to);
    }
  }

  lemma {:induction false} EntriesCounted(ts: seq<Trade>, u: Uuid, p: int -> bool, from: int, length: int)
    requires forall x :: p(x) <==> from <= x <= from + length
    ensures |Filter(EntriesOf(ts, u), p)| == EnteredIn(ts, u, from, length)
  {
    var to := from + length;
    var mine := Filter(ts, Store.ByUser(u));
    forall t | t in mine
      ensures p(t.input.entryAt) == Within(u, from, to)(t)
    {
      FilterMember(ts, Store.ByUser(u), t);
    }
    EntriesFiltered(mine, p, Within(u, from, to));
    FilterOfFilter(ts, u, from, to);
    CountIs(ts, Within(u, from, to),
            set i | 0 <= i < |ts| && ts[i].input.user == u && from <= ts[i].input.entryAt <= from + length);
    assert EntriesOf(ts, u) == seq(|mine|, i requires 0 <= i < |mine| => mine[i].input.entryAt);
  }

  /** What the batch reports: a user who entered more than ten trades in some thirty minutes. */
  lemma {:induction false} ReportOfEntries(ts: seq<Trade>, u: Uuid)
    ensures Overtrading.Spikes(Detection.SortedEntries(ts, u), |Detection.SortedEntries(ts, u)|) != [] <==>
      exists s :: EnteredIn(ts, u, s, 1_800_000_000_000) > 10
  {
    Detection.ReportedIffCrowded(ts, u);
    forall s
      ensures |Filter(EntriesOf(ts, u), Overtrading.StartingAt(s))| == EnteredIn(ts, u, s, 1_800_000_000_000)
    {
      EntriesCounted(ts, u, Overtrading.StartingAt(s), s, 1_800_000_000_000);
    }
    if s :| EnteredIn(ts, u, s, 1_800_000_000_000) > 10 {
      assert |Filter(EntriesOf(ts, u), Overtrading.StartingAt(s))| > 10;
    }
  }

  /** What one call of the live detector reports: the thirty minutes up to its instant and the number
      of the user's entries in them, when they are more than ten and no event of the user ends in them. */
  lemma {:induction false} LookAtEntries(ts: seq<Trade>, u: Uuid, events: seq<Overtrading.Detected>, at: int)
    ensures var n := EnteredIn(ts, u, at - 1_800_000_000_000, 1_800_000_000_000);
      Overtrading.Look(EntriesOf(ts, u), events, at) ==
        if n > 10 && (forall e :: e in events ==> e.end < at - 1_800_000_000_000 || e.end > at)
        then Some(Overtrading.Detected(at - 1_800_000_000_000, at, n)) else None
  {
    EntriesCounted(ts, u, Overtrading.Covers(at), at - 1_800_000_000_000, 1_800_000_000_000);
    if Filter(events, Overtrading.EndIn(at)) != [] {
      var e := Filter(events, Overtrading.EndIn(at))[0];
      FilterMember(events, Overtrading.EndIn(at), e);
    }
    forall e | e in events
      ensures e in Filter(events, Overtrading.EndIn(at)) <==> at - 1_800_000_000_000 <= e.end <= at
    {
      FilterMember(events, Overtrading.EndIn(at), e);
    }
  }
}
