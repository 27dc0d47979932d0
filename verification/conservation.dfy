/** The emotion counters under failures: where every increment came from, and how many there can be. */
module Conservation {
  import opened Prelude
  import opened Codec
  import opened Trades
  import opened Store
  import opened Pipeline
  import opened Consistency
  import opened Effects
  import D = Delivery
  import DS = DeliverySafety
  import DB = DeliveryBounds
  import Backfill
  import EmotionStats
  import PlanAdherence

  /** The entry is a closed event whose row counts on one side of one bucket. */
  predicate Qualifies(ts: seq<Trade>, p: Payload, b: EmotionStats.Bucket, won: bool) {
    p.Closed? && Find(ts, p.trade).Some? && EmotionStats.Counts(Find(ts, p.trade).value, p.user, b, won)
  }

  /** The increments made on behalf of the entries that qualify. */
  function Contribution(ts: seq<Trade>, entries: seq<Payload>, bumped: multiset<D.Id>,
                        b: EmotionStats.Bucket, won: bool): nat {
    if entries == [] then 0
    else
      var id := |entries| - 1;
      Contribution(ts, entries[..id], bumped, b, won) + if Qualifies(ts, entries[id], b, won) then bumped[id] else 0
  }

  ghost predicate SumOk(w: World, base: nat, b: EmotionStats.Bucket, won: bool) {
    EmotionStats.Side(EmotionStats.At(w.t.cells, b), won)
      == base + Contribution(w.t.trades, w.d.group.entries, w.bumped, b, won)
  }

  lemma {:induction false} TableGrowth(ts: seq<Trade>, row: Trade, entries: seq<Payload>, bumped: multiset<D.Id>,
                                       b: EmotionStats.Bucket, won: bool)
    requires Find(ts, row.input.id) == None && forall p :: p in entries ==> FromTable(ts, p)
    ensures Contribution(ts + [row], entries, bumped, b, won) == Contribution(ts, entries, bumped, b, won)
  {
    if entries != [] {
      var id := |entries| - 1;
      TableGrowth(ts, row, entries[..id], bumped, b, won);
      assert FromTable(ts, entries[id]);
      if entries[id].Closed? {
        FindKept(ts, row, entries[id].trade);
      }
    }
  }

  lemma {:induction false} NewEntry(ts: seq<Trade>, entries: seq<Payload>, p: Payload, bumped: multiset<D.Id>,
                                    b: EmotionStats.Bucket, won: bool)
    requires bumped[|entries|] == 0
    ensures Contribution(ts, entries + [p], bumped, b, won) == Contribution(ts, entries, bumped, b, won)
  {
    assert (entries + [p])[..|entries|] == entries;
  }

  lemma {:induction false} OneMore(ts: seq<Trade>, entries: seq<Payload>, bumped: multiset<D.Id>, id: D.Id,
                                   b: EmotionStats.Bucket, won: bool)
    ensures Contribution(ts, entries, bumped + multiset{id}, b, won) ==
      Contribution(ts, entries, bumped, b, won)
      + if id < |entries| && Qualifies(ts, entries[id], b, won) then 1 else 0
  {
    if entries != [] {
      OneMore(ts, entries[..|entries| - 1], bumped, id, b, won);
    }
  }

  // ---- Increments against calls of `process`.

  /** The increment for the event in hand is still ahead. */
  predicate BeforeIncrement(stage: Stage) {
    || stage.PlanRead? || stage.PlanWrite? || stage.WinAdd?
    || stage.RevengeLook? || stage.RevengeSet? || stage.RevengeBump?
  }

  predicate Ahead(w: World, id: D.Id) {
    Busy(w) && BeforeIncrement(w.stage) && Now(w) == id
  }

  predicate OnClosed(w: World) {
    Busy(w) && Task(w).Closed?
  }

  ghost predicate TriesOk(w: World, id: D.Id) {
    w.bumped[id] + (if Ahead(w, id) then 1 else 0) <= w.d.tries[id]
  }

  ghost predicate Counted(ts: seq<Trade>, p: Payload, n: nat) {
    p.Closed? && Find(ts, p.trade).Some? && EmotionStats.Rated(Find(ts, p.trade).value) ==> n >= 1
  }

  /** A clean call made the increment: it did not pass over a failed one. */
  ghost predicate CountedOk(w: World) {
    && (OnClosed(w) && (w.stage == TiltStore(0) || w.stage == Done(0)) ==>
          Counted(w.t.trades, Task(w), w.bumped[Now(w)]))
    && (forall id :: id in w.d.clean && id < |w.d.group.entries| ==>
          Counted(w.t.trades, w.d.group.entries[id], w.bumped[id]))
  }

  lemma {:induction false} OthersKeepTries(w: World, step: Step)
    requires Enabled(w, step) && !step.BeginWork?
    ensures Apply(w, step).d.tries == w.d.tries
  {
    match step
    case Submit(_, _) =>
    case Xadd(_, _, _) =>
    case Deliver(_) =>
    case Work(r) => WorkKeepsProtocol(w, r);
    case Emit(_, _) =>
    case EndWork =>
  }

  lemma {:induction false} WorkKeepsProtocol(w: World, r: Result)
    requires Enabled(w, Work(r))
    ensures Apply(w, Work(r)).d == w.d
  {
    var p := Task(w);
    if p.Closed? {
      ClosedWork(w, Now(w), p.trade, p.user, p.session, r);
    } else if p.Opened? {
      OpenedKeepsSnapshots(w, Now(w), p.trade, p.user, p.at, r);
    }
  }

  lemma {:induction false} PlanCountsNothing(w: World, u: Uuid, asOf: nat, score: PlanAdherence.Score, r: Result)
    ensures ReadPlan(w, u, r).bumped == w.bumped && ReadPlan(w, u, r).t.cells == w.t.cells
    ensures WritePlan(w, u, asOf, score, r).bumped == w.bumped && WritePlan(w, u, asOf, score, r).t.cells == w.t.cells
  {
  }

  lemma {:induction false} TiltCountsNothing(w: World, s: Uuid, failed: nat, r: Result)
    ensures StoreTilt(w, s, failed, r).bumped == w.bumped && StoreTilt(w, s, failed, r).t.cells == w.t.cells
  {
  }

  lemma {:induction false} OnlyWinAddCounts(w: World, id: D.Id, x: Uuid, u: Uuid, s: Uuid, r: Result)
    requires !w.stage.WinAdd?
    ensures var v := WorkClosed(w, id, x, u, s, r); v.bumped == w.bumped && v.t.cells == w.t.cells
  {
    match w.stage
    case PlanRead => PlanCountsNothing(w, u, 0, PlanAdherence.Score(0.0, 0), r);
    case PlanWrite(asOf, score) => PlanCountsNothing(w, u, asOf, score, r);
    case TiltStore(failed) => TiltCountsNothing(w, s, failed, r);
    case _ =>
  }

  lemma {:induction false} ClosedStages(w: World, id: D.Id, x: Uuid, u: Uuid, s: Uuid, r: Result)
    requires !w.stage.WinAdd?
    ensures var t := WorkClosed(w, id, x, u, s, r).stage;
      && (BeforeIncrement(t) ==> BeforeIncrement(w.stage))
      && (t.TiltStore? ==> t == w.stage) && (t == Done(0) ==> w.stage == TiltStore(0) || w.stage == Done(0))
  {
    match w.stage
    case PlanRead =>
    case PlanWrite(_, _) =>
    case TiltStore(_) =>
    case _ =>
  }

  /** The statements for overtrading write to no other metric. */
  lemma {:induction false} OvertradingKeepsRest(w: World, u: Uuid, at: int, r: Result)
    ensures var v := WorkOvertrading(w, u, at, r);
      v.bumped == w.bumped && v.t.cells == w.t.cells && v.t.revenge == w.t.revenge
  {
    match w.stage
    case OverLook(_) =>
    case OverDedupe(_, _) =>
    case OverAdd(_, _) =>
    case OverBump(_) =>
    case _ =>
  }

  lemma {:induction false} RevengeReadsKeepRest(w: World, id: D.Id, x: Uuid, u: Uuid, r: Result)
    requires !w.stage.RevengeBump?
    ensures var v := WorkRevenge(w, id, x, u, r);
      v.bumped == w.bumped && v.t.cells == w.t.cells && v.t.revenge == w.t.revenge
  {
    match w.stage
    case RevengeLook =>
    case RevengeSet =>
    case _ =>
  }

  lemma {:induction false} OpenedCountsNothing(w: World, id: D.Id, x: Uuid, u: Uuid, at: int, r: Result)
    requires !w.stage.RevengeBump?
    ensures var v := WorkOpened(w, id, x, u, at, r);
      v.bumped == w.bumped && v.t.cells == w.t.cells && v.t.revenge == w.t.revenge
  {
    OvertradingKeepsRest(w, u, at, r);
    RevengeReadsKeepRest(w, id, x, u, r);
  }

  /** The one increment for an opened event. */
  lemma {:induction false} OpenedCounts(w: World, id: D.Id, x: Uuid, u: Uuid, at: int, r: Result)
    requires w.stage.RevengeBump?
    ensures var v := WorkOpened(w, id, x, u, at, r);
      && v.bumped == (if r.Failed? then w.bumped else w.bumped + multiset{id})
      && v.t == (if r.Failed? then w.t else BumpRevenge(w.t, u))
      && v.d == w.d && v.stage == OverLook(if r.Ok? then 0 else 1)
  {
  }

  lemma {:induction false} OpenedStages(w: World, id: D.Id, x: Uuid, u: Uuid, at: int, r: Result)
    ensures BeforeIncrement(WorkOpened(w, id, x, u, at, r).stage) ==> BeforeIncrement(w.stage)
  {
    match w.stage
    case RevengeLook =>
    case RevengeSet =>
    case RevengeBump =>
    case OverLook(_) =>
    case OverDedupe(_, _) =>
    case OverAdd(_, _) =>
    case OverBump(_) =>
    case _ =>
  }

  // ---- Tries and counted entries, step by step.

  lemma {:induction false} AheadOnlyIfAhead(w: World, step: Step, id: D.Id)
    requires Inv(w) && Enabled(w, step) && !step.Work? && !step.BeginWork?
    ensures Ahead(Apply(w, step), id) ==> Ahead(w, id)
  {
    OthersStand(w, step);
  }

  lemma {:induction false} TriesBegin(w: World, id: D.Id)
    requires Inv(w) && TriesOk(w, id) && Enabled(w, BeginWork)
    ensures TriesOk(Apply(w, BeginWork), id)
  {
    BeginStarts(w);
    OthersIncrementNothing(w, BeginWork);
  }

  lemma {:induction false} TriesWinAdd(w: World, x: Uuid, u: Uuid, failed: nat, r: Result, id: D.Id)
    requires OnClosed(w) && w.stage.WinAdd? && TriesOk(w, id)
    ensures TriesOk(AddOutcome(w, Now(w), x, u, failed, r), id)
  {
  }

  lemma {:induction false} TriesKept(w: World, v: World, id: D.Id)
    requires TriesOk(w, id) && v.d == w.d && (BeforeIncrement(v.stage) ==> BeforeIncrement(w.stage))
    requires v.bumped == w.bumped || (Busy(w) && BeforeIncrement(w.stage) && !BeforeIncrement(v.stage)
                                      && v.bumped == w.bumped + multiset{Now(w)})
    ensures TriesOk(v, id)
  {
  }

  lemma {:induction false} TriesWork(w: World, r: Result, id: D.Id)
    requires Inv(w) && TriesOk(w, id) && Enabled(w, Work(r))
    ensures TriesOk(Apply(w, Work(r)), id)
  {
    var p := Task(w);
    WorkKeepsProtocol(w, r);
    if p.Opened? {
      if w.stage.RevengeBump? {
        OpenedCounts(w, Now(w), p.trade, p.user, p.at, r);
      } else {
        OpenedCountsNothing(w, Now(w), p.trade, p.user, p.at, r);
      }
      OpenedStages(w, Now(w), p.trade, p.user, p.at, r);
      TriesKept(w, Apply(w, Work(r)), id);
    } else if p.Closed? {
      if w.stage.WinAdd? {
        TriesWinAdd(w, p.trade, p.user, w.stage.failed, r, id);
      } else {
        OnlyWinAddCounts(w, Now(w), p.trade, p.user, p.session, r);
        ClosedStages(w, Now(w), p.trade, p.user, p.session, r);
        TriesKept(w, Apply(w, Work(r)), id);
      }
    }
  }

  lemma {:induction false} TriesStep(w: World, step: Step, id: D.Id)
    requires Inv(w) && TriesOk(w, id) && Enabled(w, step)
    ensures TriesOk(Apply(w, step), id)
  {
    match step
    case Work(r) => TriesWork(w, r, id);
    case BeginWork => TriesBegin(w, id);
    case _ =>
      OthersKeepTries(w, step);
      OthersIncrementNothing(w, step);
      AheadOnlyIfAhead(w, step, id);
  }

  lemma {:induction false} CountedGrows(ts: seq<Trade>, row: Trade, p: Payload, n: nat, m: nat)
    requires Find(ts, row.input.id) == None && FromTable(ts, p) && Counted(ts, p, n) && n <= m
    ensures Counted(ts + [row], p, m)
  {
    if p.Closed? {
      FindKept(ts, row, p.trade);
    }
  }

  lemma {:induction false} CountedTable(w: World, v: World, row: Trade)
    requires CarriedOk(w) && CountedOk(w) && Find(w.t.trades, row.input.id) == None
    requires v.t.trades == w.t.trades + [row] && v.d == w.d && v.stage == w.stage && v.bumped == w.bumped
    ensures CountedOk(v)
  {
    forall id | 0 <= id < |w.d.group.entries| && Counted(w.t.trades, w.d.group.entries[id], w.bumped[id])
      ensures Counted(v.t.trades, v.d.group.entries[id], v.bumped[id])
    {
      CountedGrows(w.t.trades, row, w.d.group.entries[id], w.bumped[id], w.bumped[id]);
    }
  }

  lemma {:induction false} CountedSubmit(w: World, in_: TradeInput, r: Result)
    requires Inv(w) && CountedOk(w)
    ensures CountedOk(Apply(w, Submit(in_, r)))
  {
    var v := Apply(w, Submit(in_, r));
    if v.t.trades != w.t.trades {
      CountedTable(w, v, RowOf(in_));
    }
  }

  lemma {:induction false} CountedQuiet(w: World, v: World)
    requires CountedOk(w) && Stands(w, v) && v.t.trades == w.t.trades && v.bumped == w.bumped
    requires w.d.group.entries <= v.d.group.entries && v.d.clean == w.d.clean && DS.HistoryOk(w.d)
    ensures CountedOk(v)
  {
    forall id | id in v.d.clean && id < |v.d.group.entries|
      ensures Counted(v.t.trades, v.d.group.entries[id], v.bumped[id])
    {
      assert id < |w.d.group.entries|;
    }
  }

  lemma {:induction false} XaddKeepsClean(w: World, x: Uuid, appended: bool, again: bool)
    requires Enabled(w, Xadd(x, appended, again))
    ensures var v := Apply(w, Xadd(x, appended, again));
      w.d.group.entries <= v.d.group.entries && v.d.clean == w.d.clean
  {
  }

  lemma {:induction false} EmitKeepsClean(w: World, appended: bool, again: bool)
    requires Enabled(w, Emit(appended, again))
    ensures var v := Apply(w, Emit(appended, again));
      w.d.group.entries <= v.d.group.entries && v.d.clean == w.d.clean
  {
  }

  lemma {:induction false} OthersKeepClean(w: World, step: Step)
    requires Inv(w) && Enabled(w, step) && (step.Xadd? || step.Deliver? || step.Emit?)
    ensures w.d.group.entries <= Apply(w, step).d.group.entries && Apply(w, step).d.clean == w.d.clean
  {
    match step
    case Xadd(x, appended, again) => XaddKeepsClean(w, x, appended, again);
    case Deliver(s) => OutsideProcess(w.d, s);
    case Emit(appended, again) => EmitKeepsClean(w, appended, again);
  }

  lemma {:induction false} CountedBegin(w: World)
    requires Inv(w) && CountedOk(w) && Enabled(w, BeginWork)
    ensures CountedOk(Apply(w, BeginWork))
  {
    BeginStarts(w);
    OthersIncrementNothing(w, BeginWork);
  }

  lemma {:induction false} CountedEnd(w: World)
    requires Inv(w) && CountedOk(w) && Enabled(w, EndWork)
    ensures CountedOk(Apply(w, EndWork))
  {
    FinishedClean(w);
    OthersIncrementNothing(w, EndWork);
  }

  lemma {:induction false} CountedWinAdd(w: World, r: Result)
    requires Inv(w) && CountedOk(w) && OnClosed(w) && w.stage.WinAdd? && Enabled(w, Work(r))
    ensures CountedOk(AddOutcome(w, Now(w), Task(w).trade, Task(w).user, w.stage.failed, r))
  {
    var v := AddOutcome(w, Now(w), Task(w).trade, Task(w).user, w.stage.failed, r);
    assert v.t.trades == w.t.trades && v.d == w.d;
    assert forall id :: v.bumped[id] >= w.bumped[id];
  }

  /** A statement of an opened event makes at most one increment, for that event. */
  lemma {:induction false} OpenedBumps(w: World, r: Result)
    requires OnOpened(w)
    ensures var p := Task(w);
      var v := WorkOpened(w, Now(w), p.trade, p.user, p.at, r);
      (v.bumped == w.bumped || v.bumped == w.bumped + multiset{Now(w)}) && v.t.cells == w.t.cells
  {
    var p := Task(w);
    if w.stage.RevengeBump? {
      OpenedCounts(w, Now(w), p.trade, p.user, p.at, r);
    } else {
      OpenedCountsNothing(w, Now(w), p.trade, p.user, p.at, r);
    }
  }

  lemma {:induction false} CountedOpened(w: World, v: World)
    requires CountedOk(w) && OnOpened(w) && v.t.trades == w.t.trades && v.d == w.d
    requires v.bumped == w.bumped || v.bumped == w.bumped + multiset{Now(w)}
    ensures CountedOk(v)
  {
    assert forall id :: v.bumped[id] >= w.bumped[id];
  }

  lemma {:induction false} CountedWork(w: World, r: Result)
    requires Inv(w) && CountedOk(w) && Enabled(w, Work(r))
    ensures CountedOk(Apply(w, Work(r)))
  {
    var p := Task(w);
    WorkKeepsProtocol(w, r);
    if p.Opened? {
      OpenedBumps(w, r);
      OpenedKeepsSnapshots(w, Now(w), p.trade, p.user, p.at, r);
      CountedOpened(w, Apply(w, Work(r)));
    } else if p.Closed? {
      if w.stage.WinAdd? {
        CountedWinAdd(w, r);
      } else {
        ClosedWork(w, Now(w), p.trade, p.user, p.session, r);
        OnlyWinAddCounts(w, Now(w), p.trade, p.user, p.session, r);
        ClosedStages(w, Now(w), p.trade, p.user, p.session, r);
      }
    }
  }

  lemma {:induction false} CountedStep(w: World, step: Step)
    requires Inv(w) && CountedOk(w) && Enabled(w, step)
    ensures CountedOk(Apply(w, step))
  {
    match step
    case Submit(in_, r) => CountedSubmit(w, in_, r);
    case Work(r) => CountedWork(w, r);
    case BeginWork => CountedBegin(w);
    case EndWork => CountedEnd(w);
    case _ =>
      OthersIncrementNothing(w, step);
      OthersStand(w, step);
      OthersKeepClean(w, step);
      CountedQuiet(w, Apply(w, step));
  }

  // ---- The sum, step by step.

  ghost predicate AllTriesOk(w: World) {
    forall id :: TriesOk(w, id)
  }

  lemma {:induction false} NextIsFresh(w: World)
    requires Inv(w) && AllTriesOk(w)
    ensures w.bumped[|w.d.group.entries|] == 0
  {
    assert TriesOk(w, |w.d.group.entries|);
  }

  lemma {:induction false} SumSubmit(w: World, in_: TradeInput, r: Result, base: nat, b: EmotionStats.Bucket, won: bool)
    requires Inv(w) && SumOk(w, base, b, won)
    ensures SumOk(Apply(w, Submit(in_, r)), base, b, won)
  {
    var v := Apply(w, Submit(in_, r));
    if v.t.trades != w.t.trades {
      TableGrowth(w.t.trades, RowOf(in_), w.d.group.entries, w.bumped, b, won);
    }
  }

  lemma {:induction false} SumAppended(w: World, v: World, base: nat, b: EmotionStats.Bucket, won: bool)
    requires Inv(w) && AllTriesOk(w) && SumOk(w, base, b, won)
    requires v.t.trades == w.t.trades && v.t.cells == w.t.cells && v.bumped == w.bumped
    requires v.d.group.entries == w.d.group.entries
          || exists p :: v.d.group.entries == w.d.group.entries + [p]
    ensures SumOk(v, base, b, won)
  {
    if v.d.group.entries != w.d.group.entries {
      var p :| v.d.group.entries == w.d.group.entries + [p];
      NextIsFresh(w);
      NewEntry(w.t.trades, w.d.group.entries, p, w.bumped, b, won);
    }
  }

  lemma {:induction false} EntriesGrowByOne(w: World, step: Step)
    requires Inv(w) && Enabled(w, step) && !step.Submit? && !step.Work?
    ensures Apply(w, step).d.group.entries == w.d.group.entries
         || exists p :: Apply(w, step).d.group.entries == w.d.group.entries + [p]
  {
    match step
    case Xadd(_, _, _) =>
    case Deliver(s) => OutsideProcess(w.d, s);
    case BeginWork => BeginStarts(w);
    case Emit(_, _) =>
    case EndWork => FinishedClean(w);
  }

  lemma {:induction false} OutcomeAdded(ts: seq<Trade>, entries: seq<Payload>, bumped: multiset<D.Id>, id: D.Id,
                                        cells: EmotionStats.Cells, base: nat, b: EmotionStats.Bucket, won: bool)
    requires id < |entries| && entries[id].Closed? && Find(ts, entries[id].trade).Some?
    requires EmotionStats.Side(EmotionStats.At(cells, b), won) == base + Contribution(ts, entries, bumped, b, won)
    ensures var u, row := entries[id].user, Find(ts, entries[id].trade).value;
      var after := if EmotionStats.Rated(row) then bumped + multiset{id} else bumped;
      EmotionStats.Side(EmotionStats.At(EmotionStats.Record(cells, u, row), b), won)
        == base + Contribution(ts, entries, after, b, won)
  {
    EmotionStats.RecordCounts(cells, entries[id].user, Find(ts, entries[id].trade).value, b, won);
    OneMore(ts, entries, bumped, id, b, won);
  }

  lemma {:induction false} OutcomeFields(w: World, id: D.Id, x: Uuid, u: Uuid, failed: nat, r: Result)
    ensures var v := AddOutcome(w, id, x, u, failed, r);
      && v.t.trades == w.t.trades && v.d == w.d
      && (if r.Failed? || Find(w.t.trades, x).None? then v.t.cells == w.t.cells && v.bumped == w.bumped
          else
            var row := Find(w.t.trades, x).value;
            && v.t.cells == EmotionStats.Record(w.t.cells, u, row)
            && v.bumped == if EmotionStats.Rated(row) then w.bumped + multiset{id} else w.bumped)
  {
  }

  lemma {:induction false} SumWinAdd(w: World, r: Result, base: nat, b: EmotionStats.Bucket, won: bool)
    requires SumOk(w, base, b, won) && OnClosed(w) && w.stage.WinAdd?
    ensures SumOk(AddOutcome(w, Now(w), Task(w).trade, Task(w).user, w.stage.failed, r), base, b, won)
  {
    var p, v := Task(w), AddOutcome(w, Now(w), Task(w).trade, Task(w).user, w.stage.failed, r);
    OutcomeFields(w, Now(w), p.trade, p.user, w.stage.failed, r);
    if !r.Failed? && Find(w.t.trades, p.trade).Some? {
      OutcomeAdded(w.t.trades, w.d.group.entries, w.bumped, Now(w), w.t.cells, base, b, won);
    }
    assert SumOk(v, base, b, won);
  }

  lemma {:induction false} SumWork(w: World, r: Result, base: nat, b: EmotionStats.Bucket, won: bool)
    requires Inv(w) && SumOk(w, base, b, won) && Enabled(w, Work(r))
    ensures SumOk(Apply(w, Work(r)), base, b, won)
  {
    var p := Task(w);
    WorkKeepsProtocol(w, r);
    if p.Opened? {
      OpenedBumps(w, r);
      OpenedKeepsSnapshots(w, Now(w), p.trade, p.user, p.at, r);
      OneMore(w.t.trades, w.d.group.entries, w.bumped, Now(w), b, won);
    } else if p.Closed? {
      if w.stage.WinAdd? {
        SumWinAdd(w, r, base, b, won);
      } else {
        ClosedWork(w, Now(w), p.trade, p.user, p.session, r);
        OnlyWinAddCounts(w, Now(w), p.trade, p.user, p.session, r);
      }
    }
  }

  lemma {:induction false} SumStep(w: World, step: Step, base: nat, b: EmotionStats.Bucket, won: bool)
    requires Inv(w) && AllTriesOk(w) && SumOk(w, base, b, won) && Enabled(w, step)
    ensures SumOk(Apply(w, step), base, b, won)
  {
    match step
    case Submit(in_, r) => SumSubmit(w, in_, r, base, b, won);
    case Work(r) => SumWork(w, r, base, b, won);
    case _ =>
      OthersIncrementNothing(w, step);
      EntriesGrowByOne(w, step);
      SumAppended(w, Apply(w, step), base, b, won);
  }

  /** The number of trades that the boot counted for one side of a bucket. */
  function CountedAtBoot(w: World, b: EmotionStats.Bucket, won: bool): nat {
    if w.boot.filled < 5 then 0 else EmotionStats.Batch(w.t.trades, b, won)
  }

  lemma {:induction false} TriesAlways(w: World, steps: seq<Step>)
    requires Initial(w) && IsRun(w, steps)
    ensures AllTriesOk(After(w, steps))
    decreases |steps|
  {
    if steps != [] {
      var front, last := steps[..|steps| - 1], steps[|steps| - 1];
      InvAlways(w, front);
      TriesAlways(w, front);
      forall id
        ensures TriesOk(After(w, steps), id)
      {
        TriesStep(After(w, front), last, id);
      }
    }
  }

  lemma {:induction false} CountsAlways(w: World, steps: seq<Step>, b: EmotionStats.Bucket, won: bool)
    requires Initial(w) && IsRun(w, steps)
    ensures var e := After(w, steps);
      AllTriesOk(e) && CountedOk(e) && SumOk(e, CountedAtBoot(w, b, won), b, won)
    decreases |steps|
  {
    if steps == [] {
      Backfill.BootedCell(w.t, w.boot.filled, b, won);
    } else {
      var front, last := steps[..|steps| - 1], steps[|steps| - 1];
      InvAlways(w, front);
      CountsAlways(w, front, b, won);
      TriesAlways(w, steps);
      CountedStep(After(w, front), last);
      SumStep(After(w, front), last, CountedAtBoot(w, b, won), b, won);
    }
  }

  // ---- The bounds.

  lemma {:induction false} AtMostFiveTries(w: World, steps: seq<Step>, id: D.Id)
    requires Initial(w) && IsRun(w, steps)
    ensures After(w, steps).d.tries[id] <= 5
  {
    var ds := RefinesDelivery(w, steps);
    assert WORKER in w.d.locals && |w.d.locals| == |w.d.locals.Keys| == 1;
    DB.AttemptBound(w.d, ds, id);
  }

  /** Entries among the first `n` ids that qualify and belong to `chosen`. */
  function Qualifying(ts: seq<Trade>, entries: seq<Payload>, chosen: set<D.Id>,
                      b: EmotionStats.Bucket, won: bool): nat {
    if entries == [] then 0
    else
      var id := |entries| - 1;
      Qualifying(ts, entries[..id], chosen, b, won)
      + if id in chosen && Qualifies(ts, entries[id], b, won) then 1 else 0
  }

  function AllIds(n: nat): (ids: set<D.Id>)
    ensures forall id: D.Id :: id in ids <==> id < n
  {
    if n == 0 then {} else AllIds(n - 1) + {n - 1}
  }

  lemma {:induction false} Bracketed(ts: seq<Trade>, entries: seq<Payload>, bumped: multiset<D.Id>,
                                     clean: set<D.Id>, n: nat, b: EmotionStats.Bucket, won: bool)
    requires forall id :: bumped[id] <= D.MAX_DELIVERIES
    requires forall id :: id in clean && id < |entries| && Qualifies(ts, entries[id], b, won) ==> bumped[id] >= 1
    requires n >= |entries|
    ensures Qualifying(ts, entries, clean, b, won)
         <= Contribution(ts, entries, bumped, b, won)
         <= D.MAX_DELIVERIES * Qualifying(ts, entries, AllIds(n), b, won)
  {
    if entries != [] {
      Bracketed(ts, entries[..|entries| - 1], bumped, clean, n, b, won);
    }
  }

  /** No entry makes more than five increments. */
  lemma {:induction false} AtMostFiveIncrements(w: World, steps: seq<Step>)
    requires Initial(w) && IsRun(w, steps)
    ensures forall id :: After(w, steps).bumped[id] <= D.MAX_DELIVERIES
  {
    TriesAlways(w, steps);
    forall id
      ensures After(w, steps).bumped[id] <= D.MAX_DELIVERIES
    {
      assert TriesOk(After(w, steps), id);
      AtMostFiveTries(w, steps, id);
    }
  }

  /** Conservation of the emotion counters on every run with failures, retries and crashes: each
      side of each bucket is the number of trades that the boot counted for it (all the seeded ones,
      unless its backfill stopped before the buckets), plus the sum, over exactly the entries that
      qualify for it, of the increments made for them; every entry contributes at most five, and
      every qualifying entry with a clean call at least one. */
  lemma {:induction false} EmotionConservation(w: World, steps: seq<Step>, b: EmotionStats.Bucket, won: bool)
    requires Initial(w) && IsRun(w, steps)
    ensures var e := After(w, steps);
      && EmotionStats.Side(EmotionStats.At(e.t.cells, b), won)
           == CountedAtBoot(w, b, won) + Contribution(e.t.trades, e.d.group.entries, e.bumped, b, won)
      && (forall id :: e.bumped[id] <= 5)
      && (forall id :: id in e.d.clean && id < |e.d.group.entries| ==>
            Qualifies(e.t.trades, e.d.group.entries[id], b, won) ==> e.bumped[id] >= 1)
  {
    CountsAlways(w, steps, b, won);
    AtMostFiveIncrements(w, steps);
  }

  /** In numbers: above what the boot counted, a counter lies between the qualifying entries that
      had a clean call and five times all the qualifying entries. */
  lemma {:induction false} EmotionBracket(w: World, steps: seq<Step>, b: EmotionStats.Bucket, won: bool)
    requires Initial(w) && IsRun(w, steps)
    ensures var e := After(w, steps);
      var side := EmotionStats.Side(EmotionStats.At(e.t.cells, b), won);
      var boot := CountedAtBoot(w, b, won);
      && boot + Qualifying(e.t.trades, e.d.group.entries, e.d.clean, b, won) <= side
      && side <= boot + 5
                   * Qualifying(e.t.trades, e.d.group.entries, AllIds(|e.d.group.entries|), b, won)
  {
    EmotionConservation(w, steps, b, won);
    var e := After(w, steps);
    Bracketed(e.t.trades, e.d.group.entries, e.bumped, e.d.clean, |e.d.group.entries|, b, won);
  }
}
