/** Everything that the state-machine theorems say, said of the running system: whatever sequence
    of requests, goroutines, turns of the worker, failures and lost answers led to its state. */
module Guarantees {
  import opened Prelude
  import opened Codec
  import opened Trades
  import opened Store
  import opened Pipeline
  import opened RunningSystem
  import D = Delivery
  import DS = DeliverySafety
  import Quiescence
  import Consistency
  import Effects
  import Conservation
  import PlanAdherence
  import SessionTilt
  import Revenge
  import Ledger
  import Backfill
  import Completeness
  import Reports

  /** The trades that were inserted since the boot. */
  ghost function Inserted(c: Cluster): seq<Trade>
    reads c
  {
    Quiescence.Since(c.first, c.w)
  }

  /** Some rated closed trade that the user submitted since the boot has no completed event. */
  ghost predicate ScoreOutstanding(c: Cluster, u: Uuid)
    reads c
  {
    exists t :: t in Inserted(c) && PlanAdherence.Rated(u)(t) && Quiescence.Outstanding(c.w, t.input.id)
  }

  ghost predicate TiltOutstanding(c: Cluster, s: Uuid)
    reads c
  {
    exists t :: t in Inserted(c) && SessionTilt.InSession(s)(t) && Quiescence.Outstanding(c.w, t.input.id)
  }

  /** A stored score that differs from the batch, or a stored tilt that does, has a closed trade of
      that user, or session, behind it that was submitted since the boot and whose event was never
      completed; or the backfill stopped before that metric and there is no such trade at all. */
  lemma {:induction false} MetricsAreRightOrOutstanding(c: Cluster, u: Uuid, s: Uuid)
    requires c.Valid() && c.FromBoot()
    ensures Lookup(c.t.scores, u) != PlanAdherence.Batch(c.t.trades, u) ==>
      ScoreOutstanding(c, u) || Quiescence.ScoreNeverFilled(c.first, c.w, u)
    ensures Lookup(c.t.tilts, s) != Consistency.Stored(SessionTilt.Batch(c.t.trades, s)) ==>
      TiltOutstanding(c, s) || Quiescence.TiltNeverFilled(c.first, c.w, s)
  {
    c.IsReached();
    Quiescence.ScoreIsRightOrOutstanding(c.first, c.steps, u);
    Quiescence.TiltIsRightOrOutstanding(c.first, c.steps, s);
  }

  /** A drained system is right: nothing undelivered, nothing pending, nothing dead-lettered, and an
      event in the stream for every rated closed trade that the user submitted since the boot. The
      seeded trades need none, once the backfill filled the scores or the user has closed a trade. */
  lemma {:induction false} DrainedScoreIsRight(c: Cluster, u: Uuid)
    requires c.Valid() && c.FromBoot() && c.next == |c.entries| && c.pel == map[]
    requires forall id :: id in c.w.d.group.acked ==> !c.w.d.group.acked[id].why.DeadLetter?
    requires forall t :: t in Inserted(c) && PlanAdherence.Rated(u)(t) ==>
      exists id :: 0 <= id < |c.entries| && Quiescence.Carries(c.entries[id], t.input.id)
    ensures Lookup(c.t.scores, u) == PlanAdherence.Batch(c.t.trades, u) || Quiescence.ScoreNeverFilled(c.first, c.w, u)
  {
    MetricsAreRightOrOutstanding(c, u, u);
  }

  /** Every flag that the worker set is one that the batch would set. */
  lemma {:induction false} FlagsAreDeserved(c: Cluster, x: Uuid)
    requires c.Valid() && c.FromBoot() && x in c.t.flags
    ensures exists t :: t in c.t.trades && t.input.id == x && Revenge.BatchFlag(c.t.trades, t)
  {
    c.IsReached();
    Effects.FlaggedTradesDeserveIt(c.first, c.steps, x);
  }

  /** A trade that the batch would flag and that is not flagged was seeded without the reason, was
      closed when it was submitted, has no completed opened event, or had its reason only later. */
  lemma {:induction false} MissedFlagsHaveACause(c: Cluster, i: nat)
    requires c.Valid() && c.FromBoot() && i < |c.t.trades|
    requires Revenge.BatchFlag(c.t.trades, c.t.trades[i]) && c.t.trades[i].input.id !in c.t.flags
    ensures var t := c.t.trades[i];
      if i < |c.first.t.trades| then !(c.first.boot.filled >= 2 && Revenge.BatchFlag(c.first.t.trades, t))
      else || t.input.status == Shut || !Completeness.OpenCompleted(c.w, t.input.id)
           || Completeness.OnlyLateLosses(c.t.trades, i)
  {
    c.IsReached();
    Completeness.MissedFlags(c.first, c.steps, i);
  }

  /** Every event row counts more than ten trades of its user, in the thirty minutes up to its end. */
  lemma {:induction false} EventsAreBacked(c: Cluster, r: Ledger.Row)
    requires c.Valid() && c.FromBoot() && r in c.t.over.rows
    ensures Reports.Backed(c.t.trades, r)
  {
    c.IsReached();
    Reports.RecordedEventsAreCrowded(c.first, c.steps, r);
  }

  lemma {:induction false} CountersAreBacked(c: Cluster, u: Uuid)
    requires c.Valid() && c.FromBoot()
    ensures Ledger.Counter(c.t.over, u) <= Ledger.Rows(c.t.over, u)
  {
    c.IsReached();
    Effects.CounterLaw(c.first, c.steps, u);
  }

  /** The real stream, cursor and pending list: an entry below the cursor that is not pending was
      completed, could not be decoded, or had been delivered more than five times; and no entry is
      processed more than five times. */
  lemma {:induction false} NothingIsDroppedSilently(c: Cluster, id: D.Id)
    requires c.Valid() && c.FromBoot() && id < c.next && id !in c.pel
    ensures id < |c.entries|
    ensures || id in c.w.d.clean || c.entries[id].Undecodable?
            || (id in c.w.d.group.acked && c.w.d.group.acked[id].count > 5)
    ensures c.w.d.tries[id] <= 5
  {
    c.IsReached();
    Consistency.InvAlways(c.first, c.steps);
    var a := c.w.d.group.acked[id];
    assert DS.Justified(c.w.d, id, a.why, a.count);
    assert Consistency.FromTable(c.w.t.trades, c.entries[id]);
    Conservation.AtMostFiveTries(c.first, c.steps, id);
  }

  /** At rest the live and the batch recomputation are one: for a user without outstanding rated
      trades a backfill would store the score that is stored already. */
  lemma {:induction false} BackfillAgreesAtRest(c: Cluster, found: seq<Ledger.Found>, u: Uuid)
    requires c.Valid() && c.FromBoot()
    requires !ScoreOutstanding(c, u)
    ensures || Lookup(Backfill.Backfilled(c.t, found).scores, u) == Lookup(c.t.scores, u)
            || Quiescence.ScoreNeverFilled(c.first, c.w, u)
  {
    MetricsAreRightOrOutstanding(c, u, u);
    PlanAdherence.LiveIsBatch(c.t.trades, u);
    Backfill.ScoresAndTiltsAreExact(c.t, found, u, u);
  }

  ghost predicate MetricsSound(c: Cluster, u: Uuid)
    reads c
  {
    && (Lookup(c.t.scores, u) != PlanAdherence.Batch(c.t.trades, u) ==>
          ScoreOutstanding(c, u) || Quiescence.ScoreNeverFilled(c.first, c.w, u))
    && (Lookup(c.t.tilts, u) != Consistency.Stored(SessionTilt.Batch(c.t.trades, u)) ==>
          TiltOutstanding(c, u) || Quiescence.TiltNeverFilled(c.first, c.w, u))
    && Ledger.Counter(c.t.over, u) <= Ledger.Rows(c.t.over, u)
    && (forall r :: r in c.t.over.rows && r.user == u ==> Reports.Backed(c.t.trades, r))
    && (u in c.t.flags ==> exists t :: t in c.t.trades && t.input.id == u && Revenge.BatchFlag(c.t.trades, t))
  }

  ghost predicate DeliverySound(c: Cluster, id: D.Id)
    reads c
  {
    && c.w.d.tries[id] <= 5
    && (id < c.next && id !in c.pel ==>
          || id in c.w.d.clean || (id < |c.entries| && c.entries[id].Undecodable?)
          || (id in c.w.d.group.acked && c.w.d.group.acked[id].count > 5))
  }

  /** All of it, for every user, session, trade and stream entry. */
  ghost predicate Sound(c: Cluster)
    reads c
  {
    (forall u :: MetricsSound(c, u)) && (forall id: nat :: DeliverySound(c, id))
  }

  lemma {:induction false} ReachedIsSound(c: Cluster)
    requires c.Valid() && c.FromBoot()
    ensures Sound(c)
  {
    c.IsReached();
    forall u
      ensures MetricsSound(c, u)
    {
      MetricsAreRightOrOutstanding(c, u, u);
      CountersAreBacked(c, u);
      forall r | r in c.t.over.rows && r.user == u
        ensures Reports.Backed(c.t.trades, r)
      {
        EventsAreBacked(c, r);
      }
      if u in c.t.flags {
        FlagsAreDeserved(c, u);
      }
    }
    forall id: nat
      ensures DeliverySound(c, id)
    {
      Conservation.AtMostFiveTries(c.first, c.steps, id);
      if id < c.next && id !in c.pel {
        NothingIsDroppedSilently(c, id);
      }
    }
  }
}
