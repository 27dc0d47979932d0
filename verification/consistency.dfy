/** Quiescent consistency: with one worker, a stored score or tilt that differs from the batch
    value has a closed trade behind it whose event is still on its way or was given up. */
module Consistency {
  import opened Prelude
  import opened Codec
  import opened Trades
  import opened Store
  import opened Pipeline
  import D = Delivery
  import DS = DeliverySafety
  import DB = DeliveryBounds
  import PlanAdherence
  import SessionTilt
  import Backfill

  // ---- What the stream and the jobs carry comes from the table.

  ghost predicate FromTable(ts: seq<Trade>, p: Payload) {
    match p
    case Undecodable => true
    case Malformed => false
    case Notice => true
    case Opened(x, u, at) =>
      && Find(ts, x).Some? && Find(ts, x).value.input.user == u
      && Find(ts, x).value.input.status != Shut && at == TruncateMs(Find(ts, x).value.input.entryAt)
    case Closed(x, u, s) =>
      && Find(ts, x).Some? && Find(ts, x).value.input.user == u
      && Find(ts, x).value.input.session == s && Find(ts, x).value.input.status == Shut
  }

  ghost predicate CarriedOk(w: World) {
    && (forall id :: 0 <= id < |w.d.group.entries| ==> FromTable(w.t.trades, w.d.group.entries[id]))
    && (forall x :: x in w.jobs ==> FromTable(w.t.trades, w.jobs[x].payload))
  }

  // ---- Stored values are the values of some earlier table.

  /** How many trades the stored score of user `u` was computed from: those of the boot, until an
      event has recomputed it. */
  function PlanAsOf(w: World, u: Uuid): nat {
    if u in w.planAsOf then w.planAsOf[u] else w.boot.seeded
  }

  function TiltAsOf(w: World, s: Uuid): nat {
    if s in w.tiltAsOf then w.tiltAsOf[s] else w.boot.seeded
  }

  /** The score was computed: by an event, or at boot if the backfill came that far. */
  predicate ScoreKept(w: World, u: Uuid) {
    u in w.planAsOf || w.boot.filled >= 4
  }

  predicate TiltKept(w: World, s: Uuid) {
    s in w.tiltAsOf || w.boot.filled >= 6
  }

  function Stored(tilt: SessionTilt.Tilt): Option<SessionTilt.Tilt> {
    if tilt.NoRow? then None else Some(tilt)
  }

  ghost predicate ScoreOk(w: World, u: Uuid) {
    && w.boot.seeded <= PlanAsOf(w, u) <= |w.t.trades|
    && Lookup(w.t.scores, u) ==
         if ScoreKept(w, u) then PlanAdherence.Live(w.t.trades[..PlanAsOf(w, u)], u) else None
  }

  ghost predicate TiltOk(w: World, s: Uuid) {
    && w.boot.seeded <= TiltAsOf(w, s) <= |w.t.trades|
    && Lookup(w.t.tilts, s) ==
         (if TiltKept(w, s) then Stored(SessionTilt.Live(w.t.trades[..TiltAsOf(w, s)], s)) else None)
    && (TiltKept(w, s) ==> !SessionTilt.Live(w.t.trades[..TiltAsOf(w, s)], s).Conflict?)
  }

  ghost predicate SnapshotsOk(w: World) {
    (forall u :: ScoreOk(w, u)) && (forall s :: TiltOk(w, s))
  }

  ghost predicate PlanCovers(w: World, u: Uuid, x: Uuid) {
    PlanAsOf(w, u) <= |w.t.trades| && Find(w.t.trades[..PlanAsOf(w, u)], x).Some?
  }

  ghost predicate TiltCovers(w: World, s: Uuid, x: Uuid) {
    TiltAsOf(w, s) <= |w.t.trades| && Find(w.t.trades[..TiltAsOf(w, s)], x).Some?
  }

  /** The trade of a closed event took part in the stored score and the stored tilt. */
  ghost predicate Covered(w: World, p: Payload) {
    p.Closed? ==> PlanCovers(w, p.user, p.trade) && TiltCovers(w, p.session, p.trade)
  }

  ghost predicate CleanOk(w: World) {
    forall id :: id in w.d.clean && id < |w.d.group.entries| ==> Covered(w, w.d.group.entries[id])
  }

  // ---- What holds between two statements of the worker.

  ghost predicate ClosedStageOk(w: World, x: Uuid, u: Uuid, s: Uuid) {
    match w.stage
    case PlanRead => true
    case PlanWrite(asOf, score) =>
      && PlanAsOf(w, u) <= asOf <= |w.t.trades| && Find(w.t.trades[..asOf], x).Some?
      && PlanAdherence.Live(w.t.trades[..asOf], u) == Some(score)
    case WinAdd(failed) => failed == 0 ==> PlanCovers(w, u, x)
    case TiltStore(failed) => failed == 0 ==> PlanCovers(w, u, x)
    case Done(failed) => failed == 0 ==> PlanCovers(w, u, x) && TiltCovers(w, s, x)
    case _ => false
  }

  predicate OpenedStage(stage: Stage) {
    stage.RevengeLook? || stage.RevengeSet? || stage.RevengeBump? || stage.OverLook? || stage.OverDedupe?
    || stage.OverAdd? || stage.OverBump? || stage.OverEmit? || stage.Done?
  }

  ghost predicate StageOk(w: World) {
    if Busy(w) then
      match Task(w)
      case Closed(x, u, s) => ClosedStageOk(w, x, u, s)
      case Opened(_, _, _) => OpenedStage(w.stage)
      case _ => w.stage.Done?
    else w.stage.Resting?
  }

  ghost predicate ProtocolOk(d: D.State) {
    && DS.Inv(d) && d.locals.Keys == {WORKER} && d.group.start == 0
    && (d.locals[WORKER].Running? ==> d.locals[WORKER].now.id < |d.group.entries|)
  }

  ghost predicate Inv(w: World) {
    ProtocolOk(w.d) && TableOk(w.t.trades) && CarriedOk(w) && SnapshotsOk(w) && CleanOk(w) && StageOk(w)
  }

  // ---- The table and the snapshots only move forward.

  ghost predicate Later(w: World, v: World) {
    && w.t.trades <= v.t.trades
    && (forall u :: PlanAsOf(w, u) <= PlanAsOf(v, u) <= |v.t.trades|)
    && (forall s :: TiltAsOf(w, s) <= TiltAsOf(v, s) <= |v.t.trades|)
  }

  lemma {:induction false} FindLater(a: seq<Trade>, b: seq<Trade>, n: nat, m: nat, x: Uuid)
    requires a <= b && n <= |a| && n <= m <= |b| && Find(a[..n], x).Some?
    ensures Find(b[..m], x).Some?
  {
    assert b[..n] == a[..n];
    FindPrefix(b, n, m, x);
  }

  lemma {:induction false} CoveredLater(w: World, v: World, p: Payload)
    requires Later(w, v) && Covered(w, p)
    ensures Covered(v, p)
  {
    if p.Closed? {
      FindLater(w.t.trades, v.t.trades, PlanAsOf(w, p.user), PlanAsOf(v, p.user), p.trade);
      FindLater(w.t.trades, v.t.trades, TiltAsOf(w, p.session), TiltAsOf(v, p.session), p.trade);
    }
  }

  lemma {:induction false} CleanLater(w: World, v: World)
    requires DS.HistoryOk(w.d) && CleanOk(w) && Later(w, v)
    requires v.d.clean == w.d.clean && w.d.group.entries <= v.d.group.entries
    ensures CleanOk(v)
  {
    forall id | id in v.d.clean && id < |v.d.group.entries|
      ensures Covered(v, v.d.group.entries[id])
    {
      assert id < |w.d.group.entries|;
      CoveredLater(w, v, w.d.group.entries[id]);
    }
  }

  lemma {:induction false} RunningIsDelivered(d: D.State)
    requires DS.Inv(d) && WORKER in d.locals
    ensures d.locals[WORKER].Running? ==> d.locals[WORKER].now.id < |d.group.entries|
  {
    assert DS.LocalOk(d, d.locals[WORKER]);
  }

  lemma {:induction false} StartIsFixed(d: D.State, s: D.Step)
    requires D.Enabled(d, s)
    ensures D.Apply(d, s).group.start == d.group.start
  {
  }

  lemma {:induction false} ProtocolKept(d: D.State, s: D.Step)
    requires ProtocolOk(d) && D.Enabled(d, s)
    ensures ProtocolOk(D.Apply(d, s))
  {
    DS.InvStep(d, s);
    DB.SameConsumers(d, s);
    StartIsFixed(d, s);
    RunningIsDelivered(D.Apply(d, s));
  }

  lemma {:induction false} WorkerKept(w: World, step: Step)
    requires ProtocolOk(w.d) && Enabled(w, step)
    ensures ProtocolOk(Apply(w, step).d)
  {
    var s := StepOfDelivery(w, step);
    if s.Some? {
      ProtocolKept(w.d, s.value);
    }
  }

  // ---- Requests and publish jobs.

  lemma {:induction false} RowCarried(ts: seq<Trade>, row: Trade)
    requires Storable(row.input) && Find(ts, row.input.id) == None
    ensures FromTable(ts + [row], Received(EventFor(row)))
  {
    EventForReceived(row);
    assert (ts + [row])[|ts|] == row;
  }

  lemma {:induction false} FromTableKept(ts: seq<Trade>, row: Trade, p: Payload)
    requires Find(ts, row.input.id) == None && FromTable(ts, p)
    ensures FromTable(ts + [row], p)
  {
    if p.Opened? || p.Closed? {
      FindKept(ts, row, p.trade);
    }
  }

  lemma {:induction false} TableGrows(ts: seq<Trade>, in_: TradeInput)
    requires TableOk(ts) && Storable(in_) && Find(ts, in_.id) == None
    ensures TableOk(ts + [RowOf(in_)])
  {
    UniqueGrows(ts, RowOf(in_));
  }

  lemma {:induction false} CarriedGrows(w: World, v: World, row: Trade)
    requires CarriedOk(w) && Storable(row.input) && Find(w.t.trades, row.input.id) == None
    requires v.t.trades == w.t.trades + [row] && v.d == w.d
    requires v.jobs == w.jobs || v.jobs == w.jobs[row.input.id := Job(Received(EventFor(row)), false)]
    ensures CarriedOk(v)
  {
    forall id | 0 <= id < |v.d.group.entries|
      ensures FromTable(v.t.trades, v.d.group.entries[id])
    {
      FromTableKept(w.t.trades, row, w.d.group.entries[id]);
    }
    RowCarried(w.t.trades, row);
    forall x | x in w.jobs
      ensures FromTable(v.t.trades, w.jobs[x].payload)
    {
      FromTableKept(w.t.trades, row, w.jobs[x].payload);
    }
  }

  lemma {:induction false} SnapshotsKept(w: World, v: World)
    requires SnapshotsOk(w) && w.t.trades <= v.t.trades
    requires v.boot == w.boot && v.planAsOf == w.planAsOf && v.tiltAsOf == w.tiltAsOf && v.t.scores == w.t.scores
             && v.t.tilts == w.t.tilts
    ensures SnapshotsOk(v) && Later(w, v)
  {
    forall u
      ensures ScoreOk(v, u)
    {
      assert ScoreOk(w, u);
      assert v.t.trades[..PlanAsOf(w, u)] == w.t.trades[..PlanAsOf(w, u)];
    }
    forall s
      ensures TiltOk(v, s)
    {
      assert TiltOk(w, s);
      assert v.t.trades[..TiltAsOf(w, s)] == w.t.trades[..TiltAsOf(w, s)];
    }
    forall u
      ensures PlanAsOf(w, u) <= PlanAsOf(v, u) <= |v.t.trades|
    {
      assert ScoreOk(w, u);
    }
    forall s
      ensures TiltAsOf(w, s) <= TiltAsOf(v, s) <= |v.t.trades|
    {
      assert TiltOk(w, s);
    }
  }

  lemma {:induction false} StageKept(w: World, v: World)
    requires StageOk(w) && Later(w, v) && v.boot == w.boot && v.planAsOf == w.planAsOf && v.stage == w.stage
    requires v.d.locals == w.d.locals && w.d.group.entries <= v.d.group.entries
    requires Busy(v) ==> Busy(w)
    ensures StageOk(v)
  {
    if Busy(w) && Task(w).Closed? {
      var p := Task(w);
      match w.stage {
        case PlanWrite(asOf, score) =>
          FindLater(w.t.trades, v.t.trades, asOf, asOf, p.trade);
          assert v.t.trades[..asOf] == w.t.trades[..asOf];
        case WinAdd(failed) =>
          if failed == 0 {
            FindLater(w.t.trades, v.t.trades, PlanAsOf(w, p.user), PlanAsOf(v, p.user), p.trade);
          }
        case TiltStore(failed) =>
          if failed == 0 {
            FindLater(w.t.trades, v.t.trades, PlanAsOf(w, p.user), PlanAsOf(v, p.user), p.trade);
          }
        case Done(failed) =>
          if failed == 0 {
            CoveredLater(w, v, p);
          }
        case _ =>
      }
    }
  }

  lemma {:induction false} InvSubmit(w: World, in_: TradeInput, r: Result)
    requires Inv(w)
    ensures Inv(Apply(w, Submit(in_, r)))
  {
    var v := Apply(w, Submit(in_, r));
    if v.t.trades != w.t.trades {
      TableGrows(w.t.trades, in_);
      CarriedGrows(w, v, RowOf(in_));
      SnapshotsKept(w, v);
      CleanLater(w, v);
      StageKept(w, v);
    }
  }

  lemma {:induction false} InvAppend(w: World, v: World, p: Payload)
    requires Inv(w) && FromTable(w.t.trades, p) && v == Append(w, p)
    ensures Inv(v)
  {
    ProtocolKept(w.d, D.Publish(p));
    SnapshotsKept(w, v);
    CleanLater(w, v);
    StageKept(w, v);
  }

  lemma {:induction false} InvJobs(w: World, v: World)
    requires Inv(w) && v == w.(jobs := v.jobs)
    requires forall x :: x in v.jobs ==> x in w.jobs && v.jobs[x].payload == w.jobs[x].payload
    ensures Inv(v)
  {
    assert CarriedOk(v) && StageOk(v);
    SnapshotsKept(w, v);
    CleanLater(w, v);
  }

  lemma {:induction false} InvXadd(w: World, x: Uuid, appended: bool, again: bool)
    requires Inv(w) && Enabled(w, Xadd(x, appended, again))
    ensures Inv(Apply(w, Xadd(x, appended, again)))
  {
    var v := w.(jobs := if again then w.jobs[x := w.jobs[x].(last := true)] else w.jobs - {x});
    InvJobs(w, v);
    if appended {
      InvAppend(v, Append(v, w.jobs[x].payload), w.jobs[x].payload);
    }
  }

  lemma {:induction false} InvEmit(w: World, appended: bool, again: bool)
    requires Inv(w) && Enabled(w, Emit(appended, again))
    ensures Inv(Apply(w, Emit(appended, again)))
  {
    var v := w.(stage := if again then OverEmit(w.stage.failed, true) else Done(w.stage.failed));
    SnapshotsKept(w, v);
    CleanLater(w, v);
    assert StageOk(v);
    if appended {
      var p := Received(OvertradingEvent(Task(w).user, Task(w).at));
      OvertradingEventReceived(Task(w).user, Task(w).at);
      InvAppend(v, Append(v, p), p);
    }
  }

  /** Steps of the worker other than Begin and Finish leave `process` alone or abort it. */
  lemma {:induction false} OutsideProcess(d: D.State, s: D.Step)
    requires d.locals.Keys == {WORKER} && D.Enabled(d, s) && !s.Publish? && !s.Begin? && !s.Finish?
    ensures var e := D.Apply(d, s);
      && e.group.entries == d.group.entries && e.clean == d.clean
      && s.c == WORKER && (s.Crash? || !d.locals[WORKER].Running?)
      && WORKER in e.locals && !e.locals[WORKER].Running?
  {
  }

  lemma {:induction false} InvDeliver(w: World, s: D.Step)
    requires Inv(w) && Enabled(w, Deliver(s))
    ensures Inv(Apply(w, Deliver(s)))
  {
    var v := Apply(w, Deliver(s));
    WorkerKept(w, Deliver(s));
    OutsideProcess(w.d, s);
    SnapshotsKept(w, v);
    CleanLater(w, v);
    assert StageOk(v);
  }

  lemma {:induction false} InvBeginWork(w: World)
    requires Inv(w) && Enabled(w, BeginWork)
    ensures Inv(Apply(w, BeginWork))
  {
    var v := Apply(w, BeginWork);
    WorkerKept(w, BeginWork);
    SnapshotsKept(w, v);
    CleanLater(w, v);
    assert Busy(v) && Task(v) == w.d.group.entries[w.d.locals[WORKER].batch[0].id];
    assert FromTable(w.t.trades, Task(v));
  }

  // ---- The statements of a closed event.

  /** A user with no rated trade now had none before. */
  lemma {:induction false} NoneEarlier(ts: seq<Trade>, u: Uuid, k: nat)
    requires k <= |ts| && PlanAdherence.Live(ts, u) == None
    ensures PlanAdherence.Live(ts[..k], u) == None
  {
    var f := PlanAdherence.Rated(u);
    PlanAdherence.EmptyScore(ts, u);
    PlanAdherence.EmptyScore(ts[..k], u);
    assert ts == ts[..k] + ts[k..];
    FilterAppend(ts[..k], ts[k..], f);
  }

  lemma {:induction false} WholeTable(ts: seq<Trade>, x: Uuid)
    requires Find(ts, x).Some?
    ensures ts[..|ts|] == ts && Find(ts[..|ts|], x).Some?
  {
    assert ts[..|ts|] == ts;
  }

  /** Storing the score of a table at least as new as the stored one. */
  lemma {:induction false} ScoreStored(w: World, v: World, u: Uuid, asOf: nat)
    requires SnapshotsOk(w) && PlanAsOf(w, u) <= asOf <= |w.t.trades| && v.t.trades == w.t.trades
    requires v.boot == w.boot && v.planAsOf == w.planAsOf[u := asOf] && v.tiltAsOf == w.tiltAsOf
             && v.t.tilts == w.t.tilts
    requires forall z :: z != u ==> Lookup(v.t.scores, z) == Lookup(w.t.scores, z)
    requires Lookup(v.t.scores, u) == PlanAdherence.Live(w.t.trades[..asOf], u)
    ensures SnapshotsOk(v) && Later(w, v)
  {
    forall z
      ensures ScoreOk(v, z) && PlanAsOf(w, z) <= PlanAsOf(v, z) <= |v.t.trades|
    {
      assert ScoreOk(w, z);
    }
    forall s
      ensures TiltOk(v, s) && TiltAsOf(w, s) <= TiltAsOf(v, s) <= |v.t.trades|
    {
      assert TiltOk(w, s);
    }
  }

  lemma {:induction false} TiltStored(w: World, v: World, s: Uuid)
    requires SnapshotsOk(w) && v.t.trades == w.t.trades
    requires v.boot == w.boot && v.tiltAsOf == w.tiltAsOf[s := |w.t.trades|] && v.planAsOf == w.planAsOf
             && v.t.scores == w.t.scores
    requires forall z :: z != s ==> Lookup(v.t.tilts, z) == Lookup(w.t.tilts, z)
    requires Lookup(v.t.tilts, s) == Stored(SessionTilt.Live(w.t.trades, s))
             && !SessionTilt.Live(w.t.trades, s).Conflict?
    ensures SnapshotsOk(v) && Later(w, v)
  {
    assert w.t.trades[..|w.t.trades|] == w.t.trades;
    forall u
      ensures ScoreOk(v, u) && PlanAsOf(w, u) <= PlanAsOf(v, u) <= |v.t.trades|
    {
      assert ScoreOk(w, u);
    }
    forall z
      ensures TiltOk(v, z) && TiltAsOf(w, z) <= TiltAsOf(v, z) <= |v.t.trades|
    {
      assert TiltOk(w, z);
    }
  }

  ghost predicate SameSnapshots(w: World, v: World) {
    && v.t.trades == w.t.trades && v.d == w.d && v.jobs == w.jobs
    && v.boot == w.boot && v.planAsOf == w.planAsOf && v.tiltAsOf == w.tiltAsOf
    && v.t.scores == w.t.scores && v.t.tilts == w.t.tilts
  }

  /** A statement that changes no snapshot leaves it to the stage to be checked. */
  lemma {:induction false} InvUnstored(w: World, v: World)
    requires Inv(w) && SameSnapshots(w, v)
    requires Busy(w) && StageOk(v)
    ensures Inv(v)
  {
    SnapshotsKept(w, v);
    CleanLater(w, v);
  }

  lemma {:induction false} InvStored(w: World, v: World)
    requires Inv(w) && v.t.trades == w.t.trades && v.d == w.d && v.jobs == w.jobs
    requires SnapshotsOk(v) && Later(w, v) && StageOk(v)
    ensures Inv(v)
  {
    CleanLater(w, v);
  }

  lemma {:induction false} FlagKeepsSnapshots(w: World, id: D.Id, x: Uuid, u: Uuid, r: Result)
    ensures SameSnapshots(w, RaiseFlag(w, x, r)) && SameSnapshots(w, CountRevenge(w, id, u, r))
  {
  }

  lemma {:induction false} RevengeKeepsSnapshots(w: World, id: D.Id, x: Uuid, u: Uuid, r: Result)
    ensures SameSnapshots(w, WorkRevenge(w, id, x, u, r))
  {
    match w.stage
    case RevengeLook =>
    case RevengeSet => FlagKeepsSnapshots(w, id, x, u, r);
    case RevengeBump => FlagKeepsSnapshots(w, id, x, u, r);
    case _ =>
  }

  lemma {:induction false} OvertradingReadsKeepSnapshots(w: World, u: Uuid, at: int, r: Result)
    requires !w.stage.OverAdd? && !w.stage.OverBump?
    ensures SameSnapshots(w, WorkOvertrading(w, u, at, r))
  {
    match w.stage
    case OverLook(_) =>
    case OverDedupe(_, _) =>
    case _ =>
  }

  lemma {:induction false} OvertradingWritesKeepSnapshots(w: World, u: Uuid, at: int, r: Result)
    requires w.stage.OverAdd? || w.stage.OverBump?
    ensures SameSnapshots(w, WorkOvertrading(w, u, at, r))
  {
    match w.stage
    case OverAdd(_, _) =>
    case OverBump(_) =>
  }

  lemma {:induction false} OpenedKeepsSnapshots(w: World, id: D.Id, x: Uuid, u: Uuid, at: int, r: Result)
    ensures SameSnapshots(w, WorkOpened(w, id, x, u, at, r))
  {
    RevengeKeepsSnapshots(w, id, x, u, r);
    if w.stage.OverAdd? || w.stage.OverBump? {
      OvertradingWritesKeepSnapshots(w, u, at, r);
    } else {
      OvertradingReadsKeepSnapshots(w, u, at, r);
    }
  }

  lemma {:induction false} OpenedStaysOpened(w: World, id: D.Id, x: Uuid, u: Uuid, at: int, r: Result)
    requires OpenedStage(w.stage)
    ensures OpenedStage(WorkOpened(w, id, x, u, at, r).stage)
  {
    match w.stage
    case RevengeLook =>
    case RevengeSet =>
    case RevengeBump =>
    case OverLook(_) =>
    case OverDedupe(_, _) =>
    case OverAdd(_, _) =>
    case OverBump(_) =>
    case _ =>
  }

  lemma {:induction false} InvWorkOpened(w: World, r: Result)
    requires Inv(w) && Enabled(w, Work(r)) && Task(w).Opened?
    ensures Inv(Apply(w, Work(r)))
  {
    var p, v := Task(w), Apply(w, Work(r));
    OpenedKeepsSnapshots(w, Now(w), p.trade, p.user, p.at, r);
    OpenedStaysOpened(w, Now(w), p.trade, p.user, p.at, r);
    InvUnstored(w, v);
  }

  lemma {:induction false} InvPlanRead(w: World, r: Result)
    requires Inv(w) && Enabled(w, Work(r)) && Task(w).Closed? && w.stage.PlanRead?
    ensures Inv(Apply(w, Work(r)))
  {
    var v, p, n := Apply(w, Work(r)), Task(w), |w.t.trades|;
    assert FromTable(w.t.trades, p);
    WholeTable(w.t.trades, p.trade);
    assert ScoreOk(w, p.user);
    if r.Ok? && PlanAdherence.Live(w.t.trades, p.user) == None {
      NoneEarlier(w.t.trades, p.user, PlanAsOf(w, p.user));
      ScoreStored(w, v, p.user, n);
      InvStored(w, v);
    } else {
      InvUnstored(w, v);
    }
  }

  lemma {:induction false} InvPlanWrite(w: World, r: Result)
    requires Inv(w) && Enabled(w, Work(r)) && Task(w).Closed? && w.stage.PlanWrite?
    ensures Inv(Apply(w, Work(r)))
  {
    var v, p := Apply(w, Work(r)), Task(w);
    if r.Failed? {
      InvUnstored(w, v);
    } else {
      ScoreStored(w, v, p.user, w.stage.asOf);
      InvStored(w, v);
    }
  }

  lemma {:induction false} InvWinAdd(w: World, r: Result)
    requires Inv(w) && Enabled(w, Work(r)) && Task(w).Closed? && w.stage.WinAdd?
    ensures Inv(Apply(w, Work(r)))
  {
    InvUnstored(w, Apply(w, Work(r)));
  }

  /** The stored tilt is that of the present table, whatever the row says. */
  lemma {:induction false} TiltStores(w: World, s: Uuid, failed: nat, r: Result)
    requires SnapshotsOk(w) && !r.Failed? && !SessionTilt.Live(w.t.trades, s).Conflict?
    ensures var v := StoreTilt(w, s, failed, r);
      SnapshotsOk(v) && Later(w, v) && TiltAsOf(v, s) == |w.t.trades|
  {
    if SessionTilt.Live(w.t.trades, s).NoRow? {
      NoTiltEarlier(w.t.trades, s, TiltAsOf(w, s));
      assert TiltOk(w, s);
    }
    TiltStored(w, StoreTilt(w, s, failed, r), s);
  }

  lemma {:induction false} TiltMoves(w: World, s: Uuid, failed: nat, r: Result)
    ensures var v, live := StoreTilt(w, s, failed, r), SessionTilt.Live(w.t.trades, s);
      && v.t == w.t.(tilts := v.t.tilts) && v.d == w.d && v.jobs == w.jobs && v.planAsOf == w.planAsOf
      && v.boot == w.boot && v.stage == Done(failed + if r.Ok? && !live.Conflict? then 0 else 1)
      && (r.Failed? || live.Conflict? ==> SameSnapshots(w, v))
  {
  }

  lemma {:induction false} TiltStage(w: World, v: World)
    requires Inv(w) && Busy(w) && Task(w).Closed? && w.stage.TiltStore? && Later(w, v)
    requires v.t.trades == w.t.trades && v.d == w.d && v.planAsOf == w.planAsOf && v.boot == w.boot && v.stage.Done?
    requires v.stage == Done(0) ==> w.stage == TiltStore(0) && TiltAsOf(v, Task(w).session) == |w.t.trades|
    ensures StageOk(v)
  {
    assert FromTable(w.t.trades, Task(w));
    WholeTable(w.t.trades, Task(w).trade);
  }

  lemma {:induction false} InvTiltStore(w: World, r: Result)
    requires Inv(w) && Enabled(w, Work(r)) && Task(w).Closed? && w.stage.TiltStore?
    ensures Inv(StoreTilt(w, Task(w).session, w.stage.failed, r))
  {
    var s, failed := Task(w).session, w.stage.failed;
    var v := StoreTilt(w, s, failed, r);
    TiltMoves(w, s, failed, r);
    if r.Failed? || SessionTilt.Live(w.t.trades, s).Conflict? {
      SnapshotsKept(w, v);
    } else {
      TiltStores(w, s, failed, r);
    }
    TiltStage(w, v);
    InvStored(w, v);
  }

  lemma {:induction false} NoTiltEarlier(ts: seq<Trade>, s: Uuid, k: nat)
    requires SessionTilt.Live(ts, s).NoRow?
    ensures k <= |ts| ==> SessionTilt.Live(ts[..k], s).NoRow?
  {
    if k <= |ts| {
      assert ts == ts[..k] + ts[k..];
      FilterAppend(ts[..k], ts[k..], SessionTilt.InSession(s));
    }
  }

  lemma {:induction false} FinishedClean(w: World)
    requires Busy(w) && w.stage.Done?
    ensures var e := D.Apply(w.d, D.Finish(WORKER, w.stage.failed));
      && e.group == w.d.group && WORKER in e.locals && !e.locals[WORKER].Running?
      && forall id :: id in e.clean ==> id in w.d.clean || (id == Now(w) && w.stage.failed == 0)
  {
  }

  lemma {:induction false} CleanGrows(w: World, v: World)
    requires CleanOk(w) && StageOk(w) && Busy(w) && w.stage.Done?
    requires Later(w, v) && v.d.group.entries == w.d.group.entries
    requires forall id :: id in v.d.clean ==> id in w.d.clean || (id == Now(w) && w.stage.failed == 0)
    ensures CleanOk(v)
  {
    forall id | id in v.d.clean && id < |v.d.group.entries|
      ensures Covered(v, v.d.group.entries[id])
    {
      CoveredLater(w, v, w.d.group.entries[id]);
    }
  }

  lemma {:induction false} InvEndWork(w: World)
    requires Inv(w) && Enabled(w, EndWork)
    ensures Inv(Apply(w, EndWork))
  {
    var v := Apply(w, EndWork);
    WorkerKept(w, EndWork);
    FinishedClean(w);
    SnapshotsKept(w, v);
    CleanGrows(w, v);
  }

  lemma {:induction false} InvStep(w: World, step: Step)
    requires Inv(w) && Enabled(w, step)
    ensures Inv(Apply(w, step))
  {
    match step
    case Submit(in_, r) => InvSubmit(w, in_, r);
    case Xadd(x, appended, again) => InvXadd(w, x, appended, again);
    case Deliver(s) => InvDeliver(w, s);
    case BeginWork => InvBeginWork(w);
    case Emit(appended, again) => InvEmit(w, appended, again);
    case EndWork => InvEndWork(w);
    case Work(r) =>
      if Task(w).Opened? {
        InvWorkOpened(w, r);
      } else if Task(w).Closed? {
        match w.stage
        case PlanRead => InvPlanRead(w, r);
        case PlanWrite(_, _) => InvPlanWrite(w, r);
        case WinAdd(_) => InvWinAdd(w, r);
        case TiltStore(_) => InvTiltStore(w, r);
      }
  }

  lemma {:induction false} InvAlways(w: World, steps: seq<Step>)
    requires Initial(w) && IsRun(w, steps)
    ensures Inv(After(w, steps))
    decreases |steps|
  {
    if steps == [] {
      InitialOk(w);
    } else {
      InvAlways(w, steps[..|steps| - 1]);
      InvStep(After(w, steps[..|steps| - 1]), steps[|steps| - 1]);
    }
  }

  lemma {:induction false} BootSnapshots(w: World)
    requires Fresh(w) && Backfill.Booted(w.t, w.boot.filled)
    ensures SnapshotsOk(w)
  {
    assert w.t.trades[..|w.t.trades|] == w.t.trades;
    forall u
      ensures ScoreOk(w, u)
    {
      Backfill.BootedScore(w.t, w.boot.filled, u);
    }
    forall s
      ensures TiltOk(w, s)
    {
      Backfill.BootedTilt(w.t, w.boot.filled, s);
    }
  }

  lemma {:induction false} InitialOk(w: World)
    requires Initial(w)
    ensures Inv(w)
  {
    BootSnapshots(w);
  }
}
