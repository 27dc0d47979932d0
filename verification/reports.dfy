/** Soundness of the overtrading events on every run: an event row says what the table says. */
module Reports {
  import opened Prelude
  import opened Codec
  import opened Trades
  import opened Store
  import opened Pipeline
  import opened Consistency
  import opened Effects
  import Completeness
  import Detection
  import Overtrading
  import Ledger
  import Backfill

  /** The entries of the user in the thirty minutes up to `at`. */
  function Crowd(ts: seq<Trade>, u: Uuid, at: int): nat {
    |Filter(EntriesOf(ts, u), Overtrading.Covers(at))|
  }

  /** The event counts more than ten trades, and no more than there are. */
  predicate Backed(ts: seq<Trade>, r: Ledger.Row) {
    Overtrading.THRESHOLD < r.event.count <= Crowd(ts, r.user, r.event.end)
  }

  ghost predicate RowsBacked(w: World) {
    forall r :: r in w.t.over.rows ==> Backed(w.t.trades, r)
  }

  /** The count in hand, between the look and the insert. */
  predicate CountBacked(w: World) {
    OnOpened(w) ==>
      match w.stage
      case OverDedupe(count, _) => Overtrading.THRESHOLD < count <= Crowd(w.t.trades, Task(w).user, Task(w).at)
      case OverAdd(count, _) => Overtrading.THRESHOLD < count <= Crowd(w.t.trades, Task(w).user, Task(w).at)
      case _ => true
  }

  ghost predicate ReportsOk(w: World) {
    RowsBacked(w) && CountBacked(w)
  }

  // ---- The events that the boot left.

  lemma {:induction false} SpikeIsBacked(ts: seq<int>, n: nat, e: Overtrading.Detected)
    requires n <= |ts| && e in Overtrading.Spikes(ts, n)
    ensures Overtrading.THRESHOLD < e.count <= |Filter(ts, Overtrading.Covers(e.end))|
  {
    if e in Overtrading.Spikes(ts, n - 1) {
      SpikeIsBacked(ts, n - 1, e);
    } else {
      assert e == Overtrading.SpikeAt(ts, n - 1);
      assert ts == ts[..n] + ts[n..];
      FilterAppend(ts[..n], ts[n..], Overtrading.Covers(e.end));
    }
  }

  lemma {:induction false} RowsEvent(rows: seq<Ledger.Row>, r: Ledger.Row)
    requires r in rows
    ensures r.event in Ledger.EventsOf(rows, r.user)
  {
    FilterMember(rows, Ledger.OfUser(r.user), r);
    var mine := Filter(rows, Ledger.OfUser(r.user));
    var i :| 0 <= i < |mine| && mine[i] == r;
    assert Ledger.EventsOf(rows, r.user)[i] == r.event;
  }

  lemma {:induction false} BootReports(w: World)
    requires Initial(w)
    ensures ReportsOk(w)
  {
    var k := w.boot.filled;
    var flags, found :| Backfill.StoppedAt(w.t, k, flags, found);
    forall r | r in w.t.over.rows
      ensures Backed(w.t.trades, r)
    {
      var sorted := Detection.SortedEntries(w.t.trades, r.user);
      Backfill.EventsAreExact(Backfill.Bare(w.t.trades, flags), found, r.user);
      RowsEvent(w.t.over.rows, r);
      SpikeIsBacked(sorted, |sorted|, r.event);
      Detection.SortedCounts(w.t.trades, r.user, Overtrading.Covers(r.event.end));
    }
  }

  // ---- What is backed stays backed.

  lemma {:induction false} CrowdLater(a: seq<Trade>, b: seq<Trade>, u: Uuid, at: int)
    requires a <= b
    ensures Crowd(a, u, at) <= Crowd(b, u, at)
  {
    assert b[..|a|] == a;
    Completeness.CrowdGrows(b, |a|, u, at);
  }

  lemma {:induction false} RowsBackedLater(w: World, v: World)
    requires RowsBacked(w) && w.t.trades <= v.t.trades && v.t.over.rows == w.t.over.rows
    ensures RowsBacked(v)
  {
    forall r | r in v.t.over.rows
      ensures Backed(v.t.trades, r)
    {
      CrowdLater(w.t.trades, v.t.trades, r.user, r.event.end);
    }
  }

  predicate HoldsCount(stage: Stage) {
    stage.OverDedupe? || stage.OverAdd?
  }

  lemma {:induction false} CountBackedLater(w: World, v: World)
    requires CountBacked(w) && w.t.trades <= v.t.trades
    requires OnOpened(v) && HoldsCount(v.stage) ==> OnOpened(w) && Task(w) == Task(v) && v.stage == w.stage
    ensures CountBacked(v)
  {
    if OnOpened(v) && HoldsCount(v.stage) {
      CrowdLater(w.t.trades, v.t.trades, Task(v).user, Task(v).at);
    }
  }

  lemma {:induction false} ReportsQuiet(w: World, v: World)
    requires ReportsOk(w) && Quiet(w, v) && w.t.trades <= v.t.trades
    ensures ReportsOk(v)
  {
    RowsBackedLater(w, v);
    CountBackedLater(w, v);
  }

  lemma {:induction false} ReportsOthers(w: World, step: Step)
    requires Inv(w) && ReportsOk(w) && Enabled(w, step) && !step.Work?
    ensures ReportsOk(Apply(w, step))
  {
    Completeness.OthersChange(w, step);
    OthersAreQuiet(w, step);
    ReportsQuiet(w, Apply(w, step));
  }

  // ---- The statements.

  lemma {:induction false} RevengeReportsNothing(w: World, id: D.Id, x: Uuid, u: Uuid, r: Result)
    requires w.stage.RevengeLook? || w.stage.RevengeSet? || w.stage.RevengeBump?
    ensures var v := WorkRevenge(w, id, x, u, r);
      v.t.over == w.t.over && v.t.trades == w.t.trades && v.d == w.d && !HoldsCount(v.stage)
  {
    match w.stage
    case RevengeLook =>
    case RevengeSet =>
    case RevengeBump =>
  }

  lemma {:induction false} ReportsLook(w: World, u: Uuid, at: int, r: Result)
    requires ReportsOk(w) && OnOpened(w) && Task(w).user == u && Task(w).at == at && w.stage.OverLook?
    ensures ReportsOk(CountOpens(w, u, at, w.stage.failed, r))
  {
  }

  lemma {:induction false} ReportsDedupe(w: World, u: Uuid, at: int, r: Result)
    requires ReportsOk(w) && OnOpened(w) && Task(w).user == u && Task(w).at == at && w.stage.OverDedupe?
    ensures ReportsOk(LookForEvent(w, u, at, w.stage.count, w.stage.failed, r))
  {
  }

  lemma {:induction false} ReportsAdd(w: World, u: Uuid, at: int, r: Result)
    requires ReportsOk(w) && OnOpened(w) && Task(w).user == u && Task(w).at == at && w.stage.OverAdd?
    ensures ReportsOk(RecordEvent(w, u, at, w.stage.count, w.stage.failed, r))
  {
  }

  lemma {:induction false} ReportsBump(w: World, u: Uuid, r: Result)
    requires ReportsOk(w) && w.stage.OverBump?
    ensures ReportsOk(CountEvent(w, u, w.stage.failed, r))
  {
  }

  lemma {:induction false} ReportsOvertrading(w: World, u: Uuid, at: int, r: Result)
    requires ReportsOk(w) && OnOpened(w) && Task(w).user == u && Task(w).at == at
    ensures ReportsOk(WorkOvertrading(w, u, at, r))
  {
    match w.stage
    case OverLook(_) => ReportsLook(w, u, at, r);
    case OverDedupe(_, _) => ReportsDedupe(w, u, at, r);
    case OverAdd(_, _) => ReportsAdd(w, u, at, r);
    case OverBump(_) => ReportsBump(w, u, r);
    case _ =>
  }

  lemma {:induction false} ReportsWork(w: World, r: Result)
    requires Inv(w) && ReportsOk(w) && Enabled(w, Work(r))
    ensures ReportsOk(Apply(w, Work(r)))
  {
    var p := Task(w);
    if p.Closed? {
      ClosedWork(w, Now(w), p.trade, p.user, p.session, r);
    } else if p.Opened? {
      if w.stage.RevengeLook? || w.stage.RevengeSet? || w.stage.RevengeBump? {
        RevengeReportsNothing(w, Now(w), p.trade, p.user, r);
      } else {
        ReportsOvertrading(w, p.user, p.at, r);
      }
    }
  }

  lemma {:induction false} ReportsAlways(w: World, steps: seq<Step>)
    requires Initial(w) && IsRun(w, steps)
    ensures ReportsOk(After(w, steps))
    decreases |steps|
  {
    if steps == [] {
      BootReports(w);
    } else {
      var front, last := steps[..|steps| - 1], steps[|steps| - 1];
      InvAlways(w, front);
      ReportsAlways(w, front);
      if last.Work? {
        ReportsWork(After(w, front), last.result);
      } else {
        ReportsOthers(After(w, front), last);
      }
    }
  }

  /** Soundness of the recorded events: in every reachable state, however late and however often an
      event was processed, each event row counts more than ten trades of its user, all of them in the
      thirty minutes up to its end, and the batch reports that user too. */
  lemma {:induction false} RecordedEventsAreCrowded(w: World, steps: seq<Step>, r: Ledger.Row)
    requires Initial(w) && IsRun(w, steps) && r in After(w, steps).t.over.rows
    ensures var ts := After(w, steps).t.trades;
      && Overtrading.THRESHOLD < r.event.count <= Crowd(ts, r.user, r.event.end)
      && Overtrading.Spikes(Detection.SortedEntries(ts, r.user), |Detection.SortedEntries(ts, r.user)|) != []
  {
    ReportsAlways(w, steps);
    var ts := After(w, steps).t.trades;
    assert Backed(ts, r);
    Overtrading.FilterShrinks(
      EntriesOf(ts, r.user), Overtrading.Covers(r.event.end), Overtrading.StartingAt(r.event.end - Overtrading.WINDOW));
    Detection.ReportedIffCrowded(ts, r.user);
  }
}
