/** Revenge trades: opened by an anxious or fearful user at most 90 seconds after a losing close. */
module Revenge {
  import opened Prelude
  import opened Codec
  import opened Trades
  import opened Windowing
  import PlanAdherence

  const NS_PER_SECOND := 1_000_000_000
  const REVENGE_WINDOW := 90 * NS_PER_SECOND

  predicate Upset(t: Trade) {
    t.input.emotion == Some(Anxious) || t.input.emotion == Some(Fearful)
  }

  /** Losing closes of user `u` up to instant `at`. */
  function LossUpTo(u: Uuid, at: int): Trade -> bool {
    (t: Trade) => t.ClosedBy(u) && t.outcome == Some(Loss) && t.input.exitAt.Some? && t.input.exitAt.value <= at
  }

  /** The live query: ORDER BY exit_at DESC LIMIT 1. */
  function LatestLoss(ts: seq<Trade>, u: Uuid, at: int): Option<int> {
    var o := OrderBy(Number(Filter(ts, LossUpTo(u, at)), PlanAdherence.ExitKey()));
    if o == [] then None else o[0].row.input.exitAt
  }

  /** The decision that the worker takes for the opened trade `t` and the user of its event. */
  predicate LiveFlag(ts: seq<Trade>, u: Uuid, t: Trade) {
    && Upset(t)
    && var last := LatestLoss(ts, u, t.input.entryAt);
       last.Some? && t.input.entryAt - last.value <= REVENGE_WINDOW
  }

  function OtherLoss(t: Trade): Trade -> bool {
    (p: Trade) => LossUpTo(t.input.user, t.input.entryAt)(p) && p.input.id != t.input.id
  }

  /** MAX(exit_at) over the rows. */
  function MaxExit(rows: seq<Trade>): (m: Option<int>)
    ensures m == None <==> forall p :: p in rows ==> p.input.exitAt == None
    ensures m.Some? ==> exists p :: p in rows && p.input.exitAt == m
    ensures m.Some? ==> forall p :: p in rows && p.input.exitAt.Some? ==> p.input.exitAt.value <= m.value
  {
    if rows == [] then None
    else
      var rest, p := MaxExit(rows[..|rows| - 1]), rows[|rows| - 1];
      assert rows == rows[..|rows| - 1] + [p];
      if p.input.exitAt == None || (rest.Some? && rest.value >= p.input.exitAt.value) then rest else p.input.exitAt
  }

  /** The predicate by which the batch flags a trade. */
  predicate BatchFlag(ts: seq<Trade>, t: Trade) {
    && Upset(t)
    && var last := MaxExit(Filter(ts, OtherLoss(t)));
       last.Some? && t.input.entryAt - last.value <= REVENGE_WINDOW
  }

  /** The definition in words: some losing close lies in the 90 seconds up to the entry. */
  ghost predicate AfterLoss(ts: seq<Trade>, t: Trade) {
    && Upset(t)
    && exists p :: p in ts && LossUpTo(t.input.user, t.input.entryAt)(p)
         && t.input.entryAt - REVENGE_WINDOW <= p.input.exitAt.value
  }

  ghost predicate UniqueIds(ts: seq<Trade>) {
    forall i, j :: 0 <= i < j < |ts| ==> ts[i].input.id != ts[j].input.id
  }

  lemma {:induction false} MaxIsAt(rows: seq<Trade>, p: Trade)
    requires p in rows && p.input.exitAt.Some?
    requires forall q :: q in rows ==> q.input.exitAt.Some? && q.input.exitAt.value <= p.input.exitAt.value
    ensures MaxExit(rows) == p.input.exitAt
  {
  }

  /** The first row of the descending order has the latest exit. */
  lemma {:induction false} FirstIsLatest(rows: seq<Trade>)
    requires rows != [] && forall p :: p in rows ==> p.input.exitAt.Some?
    ensures var o := OrderBy(Number(rows, PlanAdherence.ExitKey()));
      o != [] && o[0].row.input.exitAt == MaxExit(rows)
  {
    var s := Number(rows, PlanAdherence.ExitKey());
    FirstIsLeast(s);
    var i :| 0 <= i < |s| && s[i] == OrderBy(s)[0];
    forall q | q in rows
      ensures q.input.exitAt.value <= rows[i].input.exitAt.value
    {
      var j :| 0 <= j < |rows| && rows[j] == q;
      assert s[i].key <= s[j].key;
    }
    MaxIsAt(rows, rows[i]);
  }

  lemma {:induction false} LatestIsMax(ts: seq<Trade>, u: Uuid, at: int)
    ensures LatestLoss(ts, u, at) == MaxExit(Filter(ts, LossUpTo(u, at)))
  {
    var rows := Filter(ts, LossUpTo(u, at));
    forall p | p in rows
      ensures p.input.exitAt.Some?
    {
      FilterMember(ts, LossUpTo(u, at), p);
    }
    if rows != [] {
      FirstIsLatest(rows);
    }
  }

  lemma {:induction false} LiveIsAfterLoss(ts: seq<Trade>, t: Trade)
    ensures LiveFlag(ts, t.input.user, t) <==> AfterLoss(ts, t)
  {
    var f := LossUpTo(t.input.user, t.input.entryAt);
    LatestIsMax(ts, t.input.user, t.input.entryAt);
    forall p
      ensures p in Filter(ts, f) <==> p in ts && f(p)
    {
      FilterMember(ts, f, p);
    }
  }

  /** The query and the batch predicate agree on every trade that is not closed (the worker
      asks about no other), and both say that a losing close lies within the window. */
  lemma {:induction false} LiveIsBatch(ts: seq<Trade>, t: Trade)
    requires UniqueIds(ts) && t in ts && t.input.status != Shut
    ensures LiveFlag(ts, t.input.user, t) <==> BatchFlag(ts, t)
    ensures LiveFlag(ts, t.input.user, t) <==> AfterLoss(ts, t)
  {
    LiveIsAfterLoss(ts, t);
    LatestIsMax(ts, t.input.user, t.input.entryAt);
    forall p | p in ts
      ensures OtherLoss(t)(p) == LossUpTo(t.input.user, t.input.entryAt)(p)
    {
      if p.input.id == t.input.id {
        assert p == t;
      }
    }
    FilterAgree(ts, OtherLoss(t), LossUpTo(t.input.user, t.input.entryAt));
  }

  /** Later inserts never take a flag's reason away, for any trade, closed ones included. */
  lemma {:induction false} BatchFlagGrows(ts: seq<Trade>, more: seq<Trade>, t: Trade)
    requires BatchFlag(ts, t)
    ensures BatchFlag(ts + more, t)
  {
    FilterAppend(ts, more, OtherLoss(t));
    var a, b := Filter(ts, OtherLoss(t)), Filter(more, OtherLoss(t));
    var p :| p in a && p.input.exitAt == MaxExit(a);
    assert p in a + b;
  }

  /** A losing close of another trade, in the 90 seconds up to the entry of `t`. */
  predicate InWindow(t: Trade, p: Trade) {
    && LossUpTo(t.input.user, t.input.entryAt)(p) && p.input.id != t.input.id
    && t.input.entryAt - REVENGE_WINDOW <= p.input.exitAt.value
  }

  /** The batch predicate in words. */
  lemma {:induction false} BatchIsInWindow(ts: seq<Trade>, t: Trade)
    ensures BatchFlag(ts, t) <==> Upset(t) && exists p :: p in ts && InWindow(t, p)
  {
    var rows := Filter(ts, OtherLoss(t));
    forall p: Trade
      ensures p in rows <==> p in ts && LossUpTo(t.input.user, t.input.entryAt)(p) && p.input.id != t.input.id
    {
      FilterMember(ts, OtherLoss(t), p);
    }
  }

  /** What one look at an open misses: whatever is inserted after a look that found nothing, the batch
      flags the trade exactly when some of it is a losing close in the window. */
  lemma {:induction false} LateLossIsMissed(ts: seq<Trade>, t: Trade, more: seq<Trade>)
    requires UniqueIds(ts) && t in ts && t.input.status != Shut && Upset(t) && !LiveFlag(ts, t.input.user, t)
    ensures BatchFlag(ts + more, t) <==> exists p :: p in more && InWindow(t, p)
  {
    LiveIsBatch(ts, t);
    BatchIsInWindow(ts, t);
    BatchIsInWindow(ts + more, t);
  }
}
