/** The revenge counters under failures: where every increment came from, and how many there can be. */
module RevengeCounters {
  import opened Prelude
  import opened Codec
  import opened Trades
  import opened Store
  import opened Pipeline
  import opened Consistency
  import opened Effects
  import opened Completeness
  import D = Delivery
  import Conservation
  import Backfill

  predicate OpenOf(p: Payload, u: Uuid) {
    p.Opened? && p.user == u
  }

  /** The increments made on behalf of the opened entries of user `u`. */
  function Raises(entries: seq<Payload>, bumped: multiset<D.Id>, u: Uuid): nat {
    if entries == [] then 0
    else
      var id := |entries| - 1;
      Raises(entries[..id], bumped, u) + if OpenOf(entries[id], u) then bumped[id] else 0
  }

  ghost predicate SumOk(w: World, base: nat, u: Uuid) {
    Store.Number(w.t.revenge, u) == base + Raises(w.d.group.entries, w.bumped, u)
  }

  lemma {:induction false} NewEntry(entries: seq<Payload>, p: Payload, bumped: multiset<D.Id>, u: Uuid)
    requires bumped[|entries|] == 0
    ensures Raises(entries + [p], bumped, u) == Raises(entries, bumped, u)
  {
    assert (entries + [p])[..|entries|] == entries;
  }

  lemma {:induction false} OneMoreRaise(entries: seq<Payload>, bumped: multiset<D.Id>, id: D.Id, u: Uuid)
    ensures Raises(entries, bumped + multiset{id}, u) ==
      Raises(entries, bumped, u) + if id < |entries| && OpenOf(entries[id], u) then 1 else 0
  {
    if entries != [] {
      OneMoreRaise(entries[..|entries| - 1], bumped, id, u);
    }
  }

  // ---- Where increments come from.

  lemma {:induction false} ClosedBumps(w: World, r: Result)
    requires Busy(w) && Task(w).Closed?
    ensures var p := Task(w);
      var v := WorkClosed(w, Now(w), p.trade, p.user, p.session, r);
      v.bumped == w.bumped || v.bumped == w.bumped + multiset{Now(w)}
  {
    var p := Task(w);
    if w.stage.WinAdd? {
      Conservation.OutcomeFields(w, Now(w), p.trade, p.user, w.stage.failed, r);
    } else {
      Conservation.OnlyWinAddCounts(w, Now(w), p.trade, p.user, p.session, r);
    }
  }

  /** A statement makes at most one increment, for the entry in hand. */
  lemma {:induction false} WorkBumps(w: World, r: Result)
    requires Enabled(w, Work(r))
    ensures Apply(w, Work(r)).bumped == w.bumped || Apply(w, Work(r)).bumped == w.bumped + multiset{Now(w)}
  {
    if Task(w).Closed? {
      ClosedBumps(w, r);
    } else if Task(w).Opened? {
      Conservation.OpenedBumps(w, r);
    }
  }

  lemma {:induction false} BumpedGrows(w: World, step: Step, id: D.Id)
    requires Enabled(w, step)
    ensures w.bumped[id] <= Apply(w, step).bumped[id]
  {
    if step.Work? {
      WorkBumps(w, step.result);
    } else {
      OthersIncrementNothing(w, step);
    }
  }

  // ---- The sum, step by step.

  lemma {:induction false} SumOthers(w: World, v: World, base: nat, u: Uuid)
    requires Inv(w) && Conservation.AllTriesOk(w) && SumOk(w, base, u)
    requires v.t.revenge == w.t.revenge && v.bumped == w.bumped
    requires v.d.group.entries == w.d.group.entries
          || exists p :: v.d.group.entries == w.d.group.entries + [p]
    ensures SumOk(v, base, u)
  {
    if v.d.group.entries != w.d.group.entries {
      var p :| v.d.group.entries == w.d.group.entries + [p];
      Conservation.NextIsFresh(w);
      NewEntry(w.d.group.entries, p, w.bumped, u);
    }
  }

  lemma {:induction false} SumOpened(w: World, r: Result, base: nat, u: Uuid)
    requires SumOk(w, base, u) && OnOpened(w)
    ensures var p := Task(w); SumOk(WorkOpened(w, Now(w), p.trade, p.user, p.at, r), base, u)
  {
    var p := Task(w);
    OpenedKeepsSnapshots(w, Now(w), p.trade, p.user, p.at, r);
    if w.stage.RevengeBump? {
      Conservation.OpenedCounts(w, Now(w), p.trade, p.user, p.at, r);
      OneMoreRaise(w.d.group.entries, w.bumped, Now(w), u);
    } else {
      Conservation.OpenedCountsNothing(w, Now(w), p.trade, p.user, p.at, r);
    }
  }

  lemma {:induction false} SumClosed(w: World, r: Result, base: nat, u: Uuid)
    requires SumOk(w, base, u) && Busy(w) && Task(w).Closed?
    ensures var p := Task(w); SumOk(WorkClosed(w, Now(w), p.trade, p.user, p.session, r), base, u)
  {
    var p := Task(w);
    ClosedWork(w, Now(w), p.trade, p.user, p.session, r);
    ClosedBumps(w, r);
    OneMoreRaise(w.d.group.entries, w.bumped, Now(w), u);
  }

  lemma {:induction false} SumWork(w: World, r: Result, base: nat, u: Uuid)
    requires SumOk(w, base, u) && Enabled(w, Work(r))
    ensures SumOk(Apply(w, Work(r)), base, u)
  {
    if Task(w).Opened? {
      SumOpened(w, r, base, u);
    } else if Task(w).Closed? {
      SumClosed(w, r, base, u);
    }
  }

  lemma {:induction false} SumSubmit(w: World, in_: TradeInput, r: Result, base: nat, u: Uuid)
    requires SumOk(w, base, u)
    ensures SumOk(Apply(w, Submit(in_, r)), base, u)
  {
  }

  lemma {:induction false} SumElse(w: World, step: Step, base: nat, u: Uuid)
    requires Inv(w) && Conservation.AllTriesOk(w) && SumOk(w, base, u)
    requires Enabled(w, step) && !step.Work? && !step.Submit?
    ensures SumOk(Apply(w, step), base, u)
  {
    OthersIncrementNothing(w, step);
    Conservation.EntriesGrowByOne(w, step);
    SumOthers(w, Apply(w, step), base, u);
  }

  lemma {:induction false} SumStep(w: World, step: Step, base: nat, u: Uuid)
    requires Inv(w) && Conservation.AllTriesOk(w) && SumOk(w, base, u) && Enabled(w, step)
    ensures SumOk(Apply(w, step), base, u)
  {
    match step
    case Work(r) => SumWork(w, r, base, u);
    case Submit(in_, r) => SumSubmit(w, in_, r, base, u);
    case _ => SumElse(w, step, base, u);
  }

  /** What the boot counted for the user: the seeded trades that deserve a flag, if the backfill came
      to count them. */
  function RaisedAtBoot(w: World, u: Uuid): nat {
    if w.boot.filled < 3 then 0 else |Filter(w.t.trades, Backfill.RevengeOf(w.t.trades, u))|
  }

  lemma {:induction false} SumAlways(w: World, steps: seq<Step>, u: Uuid)
    requires Initial(w) && IsRun(w, steps)
    ensures SumOk(After(w, steps), RaisedAtBoot(w, u), u)
    decreases |steps|
  {
    if steps == [] {
      Backfill.BootedRevenge(w.t, w.boot.filled, u);
    } else {
      var front, last := steps[..|steps| - 1], steps[|steps| - 1];
      InvAlways(w, front);
      Conservation.TriesAlways(w, front);
      SumAlways(w, front, u);
      SumStep(After(w, front), last, RaisedAtBoot(w, u), u);
    }
  }

  // ---- Only flagged trades are counted.

  ghost predicate RaisedOk(w: World) {
    && (forall id :: 0 <= id < |w.d.group.entries| && w.d.group.entries[id].Opened? && w.bumped[id] > 0 ==>
          w.d.group.entries[id].trade in w.t.flags)
    && (OnOpened(w) && w.stage.RevengeBump? ==> Task(w).trade in w.t.flags)
  }

  lemma {:induction false} RaisedOthers(w: World, v: World)
    requires Inv(w) && Conservation.AllTriesOk(w) && RaisedOk(w)
    requires Grown(w, v) && v.bumped == w.bumped && MovesNoStage(w, v)
    requires v.d.group.entries == w.d.group.entries || exists p :: v.d.group.entries == w.d.group.entries + [p]
    ensures RaisedOk(v)
  {
    Conservation.NextIsFresh(w);
  }

  lemma {:induction false} OvertradingIsNoBump(w: World, u: Uuid, at: int, r: Result)
    requires !w.stage.RevengeBump?
    ensures !WorkOvertrading(w, u, at, r).stage.RevengeBump?
  {
    match w.stage
    case OverLook(_) =>
    case OverDedupe(_, _) =>
    case OverAdd(_, _) =>
    case OverBump(_) =>
    case _ =>
  }

  lemma {:induction false} FlagComesFirst(w: World, id: D.Id, x: Uuid, u: Uuid, r: Result)
    requires w.stage.RevengeLook? || w.stage.RevengeSet? || w.stage.RevengeBump?
    ensures var v := WorkRevenge(w, id, x, u, r); v.stage.RevengeBump? ==> x in v.t.flags
  {
    match w.stage
    case RevengeLook =>
    case RevengeSet =>
    case RevengeBump =>
  }

  lemma {:induction false} FlagBeforeBump(w: World, r: Result)
    requires OnOpened(w)
    ensures var p := Task(w);
      var v := WorkOpened(w, Now(w), p.trade, p.user, p.at, r);
      v.stage.RevengeBump? ==> p.trade in v.t.flags
  {
    var p := Task(w);
    if w.stage.RevengeLook? || w.stage.RevengeSet? || w.stage.RevengeBump? {
      FlagComesFirst(w, Now(w), p.trade, p.user, r);
    } else {
      OvertradingIsNoBump(w, p.user, p.at, r);
    }
  }

  lemma {:induction false} RaisedOpened(w: World, v: World)
    requires RaisedOk(w) && OnOpened(w) && Grown(w, v) && v.d == w.d
    requires v.bumped == w.bumped || (w.stage.RevengeBump? && v.bumped == w.bumped + multiset{Now(w)})
    requires v.stage.RevengeBump? ==> Task(w).trade in v.t.flags
    ensures RaisedOk(v)
  {
  }

  lemma {:induction false} RaisedClosed(w: World, v: World)
    requires RaisedOk(w) && Busy(w) && Task(w).Closed? && Grown(w, v) && v.d == w.d
    requires v.bumped == w.bumped || v.bumped == w.bumped + multiset{Now(w)}
    ensures RaisedOk(v)
  {
  }

  lemma {:induction false} RaisedWork(w: World, r: Result)
    requires RaisedOk(w) && Enabled(w, Work(r))
    ensures RaisedOk(Apply(w, Work(r)))
  {
    var p, v := Task(w), Apply(w, Work(r));
    WorkChanges(w, r);
    WorkBumps(w, r);
    if p.Opened? {
      FlagBeforeBump(w, r);
      if !w.stage.RevengeBump? {
        Conservation.OpenedCountsNothing(w, Now(w), p.trade, p.user, p.at, r);
      }
      RaisedOpened(w, v);
    } else if p.Closed? {
      RaisedClosed(w, v);
    }
  }

  lemma {:induction false} RaisedSubmit(w: World, in_: TradeInput, r: Result)
    requires RaisedOk(w)
    ensures RaisedOk(Apply(w, Submit(in_, r)))
  {
  }

  lemma {:induction false} RaisedElse(w: World, step: Step)
    requires Inv(w) && Conservation.AllTriesOk(w) && RaisedOk(w) && Enabled(w, step) && !step.Work? && !step.Submit?
    ensures RaisedOk(Apply(w, step))
  {
    OthersIncrementNothing(w, step);
    OthersChange(w, step);
    OthersMoveNoStage(w, step);
    Conservation.EntriesGrowByOne(w, step);
    RaisedOthers(w, Apply(w, step));
  }

  lemma {:induction false} RaisedStep(w: World, step: Step)
    requires Inv(w) && Conservation.AllTriesOk(w) && RaisedOk(w) && Enabled(w, step)
    ensures RaisedOk(Apply(w, step))
  {
    match step
    case Work(r) => RaisedWork(w, r);
    case Submit(in_, r) => RaisedSubmit(w, in_, r);
    case _ => RaisedElse(w, step);
  }

  lemma {:induction false} RaisedAlways(w: World, steps: seq<Step>)
    requires Initial(w) && IsRun(w, steps)
    ensures RaisedOk(After(w, steps))
    decreases |steps|
  {
    if steps != [] {
      var front, last := steps[..|steps| - 1], steps[|steps| - 1];
      InvAlways(w, front);
      Conservation.TriesAlways(w, front);
      RaisedAlways(w, front);
      RaisedStep(After(w, front), last);
    }
  }

  // ---- A clean call for a trade that was due has counted it.

  ghost predicate RaiseDone(w: World, id: D.Id, x: Uuid) {
    forall i :: 0 <= i < |w.t.trades| && w.t.trades[i].input.id == x && DueWhenStored(w.t.trades, i)
      ==> w.bumped[id] >= 1
  }

  predicate PastRaise(stage: Stage) {
    PastFlag(stage) && !stage.RevengeBump?
  }

  ghost predicate RaisesDone(w: World) {
    && (OnOpened(w) && PastRaise(w.stage) ==> RaiseDone(w, Now(w), Task(w).trade))
    && (forall id :: id in w.d.clean && id < |w.d.group.entries| && w.d.group.entries[id].Opened? ==>
          RaiseDone(w, id, w.d.group.entries[id].trade))
  }

  lemma {:induction false} RaiseDoneLater(w: World, v: World, id: D.Id, x: Uuid)
    requires Grown(w, v) && UniqueIds(v.t.trades) && Find(w.t.trades, x).Some?
    requires w.bumped[id] <= v.bumped[id] && RaiseDone(w, id, x)
    ensures RaiseDone(v, id, x)
  {
    forall i | 0 <= i < |v.t.trades| && v.t.trades[i].input.id == x && DueWhenStored(v.t.trades, i)
      ensures v.bumped[id] >= 1
    {
      SameIndex(w.t.trades, v.t.trades, x, i);
      assert DueWhenStored(w.t.trades, i);
    }
  }

  lemma {:induction false} RaiseDoneRevenge(w: World, r: Result)
    requires UniqueIds(w.t.trades) && OnOpened(w) && OpenRow(w.t.trades, Task(w).trade, Task(w).user)
    requires w.stage.RevengeLook? || w.stage.RevengeSet?
    ensures var v := WorkRevenge(w, Now(w), Task(w).trade, Task(w).user, r);
      PastRaise(v.stage) ==> RaiseDone(v, Now(w), Task(w).trade)
  {
    if w.stage.RevengeLook? && PastRaise(LookForLoss(w, Task(w).trade, Task(w).user, r).stage) {
      LookSettles(w, Task(w).trade, Task(w).user);
    }
  }

  lemma {:induction false} RaiseDoneOvertrading(w: World, r: Result)
    requires RaisesDone(w) && OnOpened(w)
    requires !w.stage.RevengeLook? && !w.stage.RevengeSet? && !w.stage.RevengeBump?
    ensures var v := WorkOvertrading(w, Task(w).user, Task(w).at, r);
      PastRaise(v.stage) ==> RaiseDone(v, Now(w), Task(w).trade)
  {
    OvertradingStages(w, Task(w).user, Task(w).at, r);
    OvertradingKeepsTrades(w, Task(w).user, Task(w).at, r);
    Conservation.OvertradingKeepsRest(w, Task(w).user, Task(w).at, r);
  }

  lemma {:induction false} RaiseDoneWork(w: World, r: Result)
    requires Inv(w) && RaisesDone(w) && Enabled(w, Work(r)) && OnOpened(w)
    ensures var v := Apply(w, Work(r));
      PastRaise(v.stage) ==> RaiseDone(v, Now(w), Task(w).trade)
  {
    var p := Task(w);
    assert FromTable(w.t.trades, p);
    if w.stage.RevengeBump? {
      Conservation.OpenedCounts(w, Now(w), p.trade, p.user, p.at, r);
    } else if w.stage.RevengeLook? || w.stage.RevengeSet? {
      RaiseDoneRevenge(w, r);
    } else {
      RaiseDoneOvertrading(w, r);
    }
  }

  lemma {:induction false} RaisesStage(w: World, step: Step)
    requires Inv(w) && RaisesDone(w) && Enabled(w, step) && Inv(Apply(w, step))
    requires OnOpened(Apply(w, step)) && PastRaise(Apply(w, step).stage)
    ensures RaiseDone(Apply(w, step), Now(Apply(w, step)), Task(Apply(w, step)).trade)
  {
    var v := Apply(w, step);
    if step.Work? {
      WorkChanges(w, step.result);
      RaiseDoneWork(w, step.result);
    } else {
      StepChanges(w, step);
      OthersMoveNoStage(w, step);
      BumpedGrows(w, step, Now(v));
      assert FromTable(w.t.trades, Task(w));
      RaiseDoneLater(w, v, Now(v), Task(v).trade);
    }
  }

  lemma {:induction false} RaisesKept(w: World, v: World, id: D.Id)
    requires CarriedOk(w) && RaisesDone(w) && Grown(w, v) && UniqueIds(v.t.trades)
    requires id < |w.d.group.entries| && w.d.group.entries[id].Opened? && w.bumped[id] <= v.bumped[id]
    requires id in w.d.clean || (Busy(w) && id == Now(w) && w.stage == Done(0))
    ensures RaiseDone(v, id, w.d.group.entries[id].trade)
  {
    assert FromTable(w.t.trades, w.d.group.entries[id]);
    RaiseDoneLater(w, v, id, w.d.group.entries[id].trade);
  }

  lemma {:induction false} RaisesClean(w: World, step: Step, id: D.Id)
    requires Inv(w) && RaisesDone(w) && Enabled(w, step) && Inv(Apply(w, step))
    requires id in Apply(w, step).d.clean && id < |Apply(w, step).d.group.entries|
    requires Apply(w, step).d.group.entries[id].Opened?
    ensures RaiseDone(Apply(w, step), id, Apply(w, step).d.group.entries[id].trade)
  {
    var v := Apply(w, step);
    StepChanges(w, step);
    NewlyClean(w, step, id);
    BumpedGrows(w, step, id);
    assert id < |w.d.group.entries|;
    RaisesKept(w, v, id);
  }

  lemma {:induction false} RaisesAlways(w: World, steps: seq<Step>)
    requires Initial(w) && IsRun(w, steps)
    ensures RaisesDone(After(w, steps))
    decreases |steps|
  {
    if steps != [] {
      var front, last := steps[..|steps| - 1], steps[|steps| - 1];
      var e := After(w, steps);
      InvAlways(w, front);
      InvAlways(w, steps);
      RaisesAlways(w, front);
      if OnOpened(e) && PastRaise(e.stage) {
        RaisesStage(After(w, front), last);
      }
      forall id | id in e.d.clean && id < |e.d.group.entries| && e.d.group.entries[id].Opened?
        ensures RaiseDone(e, id, e.d.group.entries[id].trade)
      {
        RaisesClean(After(w, front), last, id);
      }
    }
  }

  // ---- The laws.

  /** Conservation of the revenge counters on every run with failures, retries and crashes: a user's
      counter is what the boot counted plus the sum of the increments made for the user's opened
      entries. Each entry makes at most five, and none unless its trade is flagged; and at least one
      when it had a clean call and a losing close in the window was stored before the trade. */
  lemma {:induction false} RevengeConservation(w: World, steps: seq<Step>, u: Uuid)
    requires Initial(w) && IsRun(w, steps)
    ensures var e := After(w, steps);
      && Store.Number(e.t.revenge, u) == RaisedAtBoot(w, u) + Raises(e.d.group.entries, e.bumped, u)
      && (forall id :: e.bumped[id] <= 5)
      && (forall id :: 0 <= id < |e.d.group.entries| && e.d.group.entries[id].Opened? && e.bumped[id] > 0 ==>
            e.d.group.entries[id].trade in e.t.flags)
      && (forall id :: id in e.d.clean && id < |e.d.group.entries| && e.d.group.entries[id].Opened? ==>
            RaiseDone(e, id, e.d.group.entries[id].trade))
  {
    SumAlways(w, steps, u);
    Conservation.AtMostFiveIncrements(w, steps);
    RaisedAlways(w, steps);
    RaisesAlways(w, steps);
  }

  /** Opened entries of the user among the chosen ones. */
  function OpensOf(entries: seq<Payload>, chosen: set<D.Id>, u: Uuid): nat {
    if entries == [] then 0
    else
      var id := |entries| - 1;
      OpensOf(entries[..id], chosen, u) + if id in chosen && OpenOf(entries[id], u) then 1 else 0
  }

  lemma {:induction false} Bracketed(entries: seq<Payload>, bumped: multiset<D.Id>,
                                     low: set<D.Id>, high: set<D.Id>, u: Uuid)
    requires forall id :: bumped[id] <= D.MAX_DELIVERIES
    requires forall id :: id in low && id < |entries| && OpenOf(entries[id], u) ==> bumped[id] >= 1
    requires forall id :: 0 <= id < |entries| && OpenOf(entries[id], u) && bumped[id] > 0 ==> id in high
    ensures OpensOf(entries, low, u) <= Raises(entries, bumped, u) <= D.MAX_DELIVERIES * OpensOf(entries, high, u)
  {
    if entries != [] {
      Bracketed(entries[..|entries| - 1], bumped, low, high, u);
    }
  }

  /** The entry carries a trade that a losing close in the table was waiting for. */
  ghost predicate DueEntry(e: World, id: D.Id) {
    && id < |e.d.group.entries| && e.d.group.entries[id].Opened?
    && exists i :: 0 <= i < |e.t.trades| && e.t.trades[i].input.id == e.d.group.entries[id].trade
         && DueWhenStored(e.t.trades, i)
  }

  predicate FlaggedEntry(e: World, id: D.Id) {
    id < |e.d.group.entries| && e.d.group.entries[id].Opened? && e.d.group.entries[id].trade in e.t.flags
  }

  ghost function CompletedDue(e: World): set<D.Id> {
    set id | id in e.d.clean && DueEntry(e, id)
  }

  function Flagged(e: World): set<D.Id> {
    set id | id in Conservation.AllIds(|e.d.group.entries|) && FlaggedEntry(e, id)
  }

  /** In numbers: above what the boot counted, a counter lies between the user's completed entries
      that were due when they were stored and five times the user's entries with a flagged trade. */
  lemma {:induction false} RevengeBracket(w: World, steps: seq<Step>, u: Uuid)
    requires Initial(w) && IsRun(w, steps)
    ensures var e := After(w, steps);
      var count := Store.Number(e.t.revenge, u);
      && RaisedAtBoot(w, u) + OpensOf(e.d.group.entries, CompletedDue(e), u) <= count
      && count <= RaisedAtBoot(w, u) + 5 * OpensOf(e.d.group.entries, Flagged(e), u)
  {
    RevengeConservation(w, steps, u);
    var e := After(w, steps);
    forall id | id in CompletedDue(e)
      ensures e.bumped[id] >= 1
    {
      assert RaiseDone(e, id, e.d.group.entries[id].trade);
    }
    Bracketed(e.d.group.entries, e.bumped, CompletedDue(e), Flagged(e), u);
  }
}
