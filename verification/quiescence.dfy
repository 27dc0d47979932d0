/** The theorems that consistency.dfy builds up to: at rest, the two recomputed metrics are right. */
module Quiescence {
  import opened Prelude
  import opened Codec
  import opened Trades
  import opened Store
  import opened Pipeline
  import opened Consistency
  import D = Delivery
  import DS = DeliverySafety
  import PlanAdherence
  import SessionTilt

  predicate Carries(p: Payload, x: Uuid) {
    p.Closed? && p.trade == x
  }

  /** No closed event of trade `x` was completed: each one in the stream is undelivered, pending
      or dead-lettered, or there is none, because it is not published yet, was dropped by the
      publish job, or cannot be read back. */
  ghost predicate Outstanding(w: World, x: Uuid) {
    forall id :: 0 <= id < |w.d.group.entries| && Carries(w.d.group.entries[id], x) ==>
      || id >= w.d.group.next
      || id in w.d.group.pel
      || (id in w.d.group.acked && w.d.group.acked[id].why.DeadLetter?)
  }

  /** A closed event that is none of these was processed cleanly. */
  lemma {:induction false} CompletedIsClean(w: World, id: D.Id)
    requires Inv(w) && id < |w.d.group.entries| && w.d.group.entries[id].Closed?
    requires id < w.d.group.next && id !in w.d.group.pel
    requires id in w.d.group.acked ==> !w.d.group.acked[id].why.DeadLetter?
    ensures id in w.d.clean
  {
    var a := w.d.group.acked[id];
    assert DS.Justified(w.d, id, a.why, a.count);
  }

  lemma {:induction false} CompletedIsCovered(w: World, t: Trade)
    requires Inv(w) && t in w.t.trades && !Outstanding(w, t.input.id)
    ensures PlanCovers(w, t.input.user, t.input.id) && TiltCovers(w, t.input.session, t.input.id)
  {
    var id :| 0 <= id < |w.d.group.entries| && Carries(w.d.group.entries[id], t.input.id)
      && id < w.d.group.next && id !in w.d.group.pel
      && (id in w.d.group.acked ==> !w.d.group.acked[id].why.DeadLetter?);
    CompletedIsClean(w, id);
    var p := w.d.group.entries[id];
    assert FromTable(w.t.trades, p);
    var i :| 0 <= i < |w.t.trades| && w.t.trades[i] == t;
    FindIndex(w.t.trades, i);
    assert Covered(w, p);
  }

  /** With unique ids, a row found below `k` is not a row above it. */
  lemma {:induction false} FoundBelow(ts: seq<Trade>, k: nat, t: Trade)
    requires UniqueIds(ts) && k <= |ts| && Find(ts[..k], t.input.id).Some?
    ensures t !in ts[k..]
  {
    FindSome(ts[..k], t.input.id);
    var i :| 0 <= i < k && ts[..k][i].input.id == t.input.id;
    forall j | k <= j < |ts|
      ensures ts[j] != t
    {
      assert ts[i].input.id != ts[j].input.id;
    }
  }

  /** Trades with a completed event are not above the point that the stored value was computed at. */
  lemma {:induction false} NotAbove(w: World, t: Trade)
    requires Inv(w) && t in w.t.trades && !Outstanding(w, t.input.id)
    ensures PlanAsOf(w, t.input.user) <= |w.t.trades| && t !in w.t.trades[PlanAsOf(w, t.input.user)..]
    ensures TiltAsOf(w, t.input.session) <= |w.t.trades| && t !in w.t.trades[TiltAsOf(w, t.input.session)..]
  {
    CompletedIsCovered(w, t);
    FoundBelow(w.t.trades, PlanAsOf(w, t.input.user), t);
    FoundBelow(w.t.trades, TiltAsOf(w, t.input.session), t);
  }

  lemma {:induction false} ScoreUnmoved(ts: seq<Trade>, k: nat, u: Uuid)
    requires k <= |ts| && forall t :: t in ts[k..] ==> !PlanAdherence.Rated(u)(t)
    ensures PlanAdherence.Live(ts[..k], u) == PlanAdherence.Batch(ts, u)
  {
    PlanAdherence.OthersDoNotMatter(ts[..k], ts[k..], u);
    assert ts[..k] + ts[k..] == ts;
    PlanAdherence.LiveIsBatch(ts, u);
  }

  lemma {:induction false} TiltUnmoved(ts: seq<Trade>, k: nat, s: Uuid)
    requires k <= |ts| && forall t :: t in ts[k..] ==> !SessionTilt.InSession(s)(t)
    ensures SessionTilt.Live(ts[..k], s) == SessionTilt.Batch(ts, s)
  {
    SessionTilt.OthersDoNotMatter(ts[..k], ts[k..], s);
    assert ts[..k] + ts[k..] == ts;
    SessionTilt.LiveIsBatch(ts, s);
  }

  lemma {:induction false} ScoreSettled(w: World, u: Uuid)
    requires Inv(w) && w.boot.seeded <= |w.t.trades|
    requires forall t :: t in w.t.trades[w.boot.seeded..] && PlanAdherence.Rated(u)(t) ==> !Outstanding(w, t.input.id)
    ensures PlanAsOf(w, u) <= |w.t.trades|
    ensures forall t :: t in w.t.trades[PlanAsOf(w, u)..] ==> !PlanAdherence.Rated(u)(t)
    ensures ScoreKept(w, u) ==> Lookup(w.t.scores, u) == PlanAdherence.Batch(w.t.trades, u)
    ensures !ScoreKept(w, u) ==> Lookup(w.t.scores, u) == None && PlanAsOf(w, u) == w.boot.seeded
  {
    assert ScoreOk(w, u);
    forall t | t in w.t.trades[PlanAsOf(w, u)..]
      ensures !PlanAdherence.Rated(u)(t)
    {
      InLaterPart(w.t.trades, w.boot.seeded, PlanAsOf(w, u), t);
      if PlanAdherence.Rated(u)(t) {
        NotAbove(w, t);
      }
    }
    ScoreUnmoved(w.t.trades, PlanAsOf(w, u), u);
  }

  lemma {:induction false} InLaterPart(ts: seq<Trade>, k: nat, n: nat, t: Trade)
    requires k <= n <= |ts| && t in ts[n..]
    ensures t in ts[k..] && t in ts
  {
    var i :| 0 <= i < |ts[n..]| && ts[n..][i] == t;
    assert ts[k..][n - k + i] == t;
  }

  lemma {:induction false} TiltSettled(w: World, s: Uuid)
    requires Inv(w) && w.boot.seeded <= |w.t.trades|
    requires forall t :: t in w.t.trades[w.boot.seeded..] && SessionTilt.InSession(s)(t) ==> !Outstanding(w, t.input.id)
    ensures TiltAsOf(w, s) <= |w.t.trades|
    ensures forall t :: t in w.t.trades[TiltAsOf(w, s)..] ==> !SessionTilt.InSession(s)(t)
    ensures TiltKept(w, s) ==>
      Lookup(w.t.tilts, s) == Stored(SessionTilt.Batch(w.t.trades, s)) && !SessionTilt.Batch(w.t.trades, s).Conflict?
    ensures !TiltKept(w, s) ==> Lookup(w.t.tilts, s) == None && TiltAsOf(w, s) == w.boot.seeded
  {
    assert TiltOk(w, s);
    forall t | t in w.t.trades[TiltAsOf(w, s)..]
      ensures !SessionTilt.InSession(s)(t)
    {
      InLaterPart(w.t.trades, w.boot.seeded, TiltAsOf(w, s), t);
      if SessionTilt.InSession(s)(t) {
        NotAbove(w, t);
      }
    }
    TiltUnmoved(w.t.trades, TiltAsOf(w, s), s);
  }

  lemma {:induction false} BootStays(w: World, step: Step)
    requires Enabled(w, step)
    ensures Apply(w, step).boot == w.boot
  {
    match step
    case Submit(_, _) =>
    case Xadd(_, _, _) =>
    case Deliver(_) =>
    case BeginWork =>
    case Work(r) =>
      var p := Task(w);
      if p.Opened? {
        OpenedKeepsSnapshots(w, Now(w), p.trade, p.user, p.at, r);
      }
    case Emit(_, _) =>
    case EndWork =>
  }

  lemma {:induction false} BootAlways(w: World, steps: seq<Step>)
    requires IsRun(w, steps)
    ensures After(w, steps).boot == w.boot
    decreases |steps|
  {
    if steps != [] {
      BootAlways(w, steps[..|steps| - 1]);
      BootStays(After(w, steps[..|steps| - 1]), steps[|steps| - 1]);
    }
  }

  /** The trades that were inserted since the boot. */
  function Since(w: World, e: World): seq<Trade> {
    if |w.t.trades| <= |e.t.trades| then e.t.trades[|w.t.trades|..] else []
  }

  lemma {:induction false} ReachedSince(w: World, steps: seq<Step>)
    requires Initial(w) && IsRun(w, steps)
    ensures var e := After(w, steps);
      Inv(e) && e.boot == w.boot && w.boot.seeded == |w.t.trades| <= |e.t.trades|
  {
    InvAlways(w, steps);
    BootAlways(w, steps);
    var anyone: Uuid :| true;
    assert ScoreOk(After(w, steps), anyone);
  }

  /** The backfill stopped before the scores, and no event of the user had to make up for it. */
  ghost predicate ScoreNeverFilled(w: World, e: World, u: Uuid) {
    w.boot.filled < 4 && Lookup(e.t.scores, u) == None && forall t :: t in Since(w, e) ==> !PlanAdherence.Rated(u)(t)
  }

  ghost predicate TiltNeverFilled(w: World, e: World, s: Uuid) {
    w.boot.filled < 6 && Lookup(e.t.tilts, s) == None && forall t :: t in Since(w, e) ==> !SessionTilt.InSession(s)(t)
  }

  lemma {:induction false} ScoreRightOr(w: World, e: World, u: Uuid)
    requires Inv(e) && e.boot == w.boot && w.boot.seeded == |w.t.trades| <= |e.t.trades|
    requires Lookup(e.t.scores, u) != PlanAdherence.Batch(e.t.trades, u)
    ensures (exists t :: t in Since(w, e) && PlanAdherence.Rated(u)(t) && Outstanding(e, t.input.id))
         || ScoreNeverFilled(w, e, u)
  {
    if forall t :: t in Since(w, e) && PlanAdherence.Rated(u)(t) ==> !Outstanding(e, t.input.id) {
      ScoreSettled(e, u);
    }
  }

  lemma {:induction false} TiltRightOr(w: World, e: World, s: Uuid)
    requires Inv(e) && e.boot == w.boot && w.boot.seeded == |w.t.trades| <= |e.t.trades|
    requires var tilt := SessionTilt.Batch(e.t.trades, s);
      Lookup(e.t.tilts, s) != Stored(tilt) || tilt.Conflict?
    ensures (exists t :: t in Since(w, e) && SessionTilt.InSession(s)(t) && Outstanding(e, t.input.id))
         || TiltNeverFilled(w, e, s)
  {
    if forall t :: t in Since(w, e) && SessionTilt.InSession(s)(t) ==> !Outstanding(e, t.input.id) {
      TiltSettled(e, s);
    }
  }

  /** Quiescent consistency of plan adherence, from any seeded tables: in every reachable state,
      with inserts landing between any two statements, a user's stored score is the batch average
      of the last ten of all trades, seeded ones included, or some rated closed trade that the user
      submitted since the boot is outstanding. The one exception needs a backfill that stopped
      before the scores, and ends with the user's first rated closed trade. */
  lemma {:induction false} ScoreIsRightOrOutstanding(w: World, steps: seq<Step>, u: Uuid)
    requires Initial(w) && IsRun(w, steps)
    ensures var e := After(w, steps);
      Lookup(e.t.scores, u) != PlanAdherence.Batch(e.t.trades, u) ==>
        || (exists t :: t in Since(w, e) && PlanAdherence.Rated(u)(t) && Outstanding(e, t.input.id))
        || ScoreNeverFilled(w, e, u)
  {
    ReachedSince(w, steps);
    var e := After(w, steps);
    if Lookup(e.t.scores, u) != PlanAdherence.Batch(e.t.trades, u) {
      ScoreRightOr(w, e, u);
    }
  }

  /** Quiescent consistency of session tilt. A session that two users share is never at rest once
      a trade was closed in it: its statement fails, so that trade stays outstanding for ever. */
  lemma {:induction false} TiltIsRightOrOutstanding(w: World, steps: seq<Step>, s: Uuid)
    requires Initial(w) && IsRun(w, steps)
    ensures var e := After(w, steps);
      Lookup(e.t.tilts, s) != Stored(SessionTilt.Batch(e.t.trades, s)) || SessionTilt.Batch(e.t.trades, s).Conflict? ==>
        || (exists t :: t in Since(w, e) && SessionTilt.InSession(s)(t) && Outstanding(e, t.input.id))
        || TiltNeverFilled(w, e, s)
  {
    ReachedSince(w, steps);
    var e := After(w, steps);
    if Lookup(e.t.tilts, s) != Stored(SessionTilt.Batch(e.t.trades, s)) || SessionTilt.Batch(e.t.trades, s).Conflict? {
      TiltRightOr(w, e, s);
    }
  }

  lemma {:induction false} Inserted(w: World, in_: TradeInput)
    requires Storable(in_) && Find(w.t.trades, in_.id) == None
    ensures SubmitTrade(w, in_, Ok).t.trades == w.t.trades + [RowOf(in_)]
  {
  }

  lemma {:induction false} TwoSubmits(w: World, a: TradeInput, b: TradeInput)
    requires Storable(a) && Storable(b) && a.id != b.id
    requires Find(w.t.trades, a.id) == None && Find(w.t.trades, b.id) == None
    ensures var steps := [Submit(a, Ok), Submit(b, Ok)];
      IsRun(w, steps) && After(w, steps).t.trades == w.t.trades + [RowOf(a), RowOf(b)]
  {
    var v := SubmitTrade(w, a, Ok);
    var e := SubmitTrade(v, b, Ok);
    Inserted(w, a);
    FindNew(w.t.trades, RowOf(a), b.id);
    Inserted(v, b);
    SubmitStep(w, a, Ok);
    SubmitStep(v, b, Ok);
    TwoSteps(w, Submit(a, Ok), v, Submit(b, Ok), e);
    assert w.t.trades + [RowOf(a)] + [RowOf(b)] == w.t.trades + [RowOf(a), RowOf(b)];
  }

  /** Nothing keeps two users out of one session: any two storable closed trades of different users
      with one session id, submitted one after the other, make its tilt statement fail. */
  lemma {:induction false} SharedSessionIsReached(w: World, a: TradeInput, b: TradeInput)
    requires Initial(w) && Storable(a) && Storable(b) && a.status == Shut && b.status == Shut
    requires a.id != b.id && Find(w.t.trades, a.id) == None && Find(w.t.trades, b.id) == None
    requires a.session == b.session && a.user != b.user
    ensures var steps := [Submit(a, Ok), Submit(b, Ok)];
      IsRun(w, steps) && SessionTilt.Live(After(w, steps).t.trades, a.session).Conflict?
  {
    TwoSubmits(w, a, b);
    var ts := w.t.trades + [RowOf(a), RowOf(b)];
    assert ts[|w.t.trades|] == RowOf(a) && ts[|w.t.trades| + 1] == RowOf(b);
    SessionTilt.ConflictExactly(ts, a.session);
  }
}
