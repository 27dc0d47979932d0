/** What the effects of opened events leave out: which trades that the batch would flag the worker
    did not flag, and which crowded half hours it did not record. A completed event has had its
    effect; what is missed was never looked at, or arrived after the look. */
module Completeness {
  import opened Prelude
  import opened Codec
  import opened Trades
  import opened Store
  import opened Pipeline
  import opened Consistency
  import opened Effects
  import D = Delivery
  import Conservation
  import Publishing
  import Quiescence
  import Revenge
  import Overtrading
  import Ledger
  import Backfill

  // ---- What one step may change.

  /** Flags and event rows only grow, and so does the table of trades. */
  ghost predicate Grown(w: World, v: World) {
    && w.t.trades <= v.t.trades && w.t.flags <= v.t.flags && w.t.over.rows <= v.t.over.rows
    && w.d.group.entries <= v.d.group.entries
  }

  /** A new flag is that of the opened trade in hand. */
  ghost predicate NewFlagsInHand(w: World, v: World) {
    forall x :: x in v.t.flags ==> x in w.t.flags || (OnOpened(w) && x == Task(w).trade)
  }

  lemma {:induction false} RevengeChanges(w: World, r: Result)
    requires OnOpened(w)
    ensures var v := WorkRevenge(w, Now(w), Task(w).trade, Task(w).user, r);
      && Grown(w, v) && NewFlagsInHand(w, v) && v.t.over == w.t.over && v.d == w.d
  {
    match w.stage
    case RevengeLook =>
    case RevengeSet =>
    case RevengeBump =>
    case _ =>
  }

  lemma {:induction false} OvertradingRows(w: World, u: Uuid, at: int, r: Result)
    ensures w.t.over.rows <= WorkOvertrading(w, u, at, r).t.over.rows
  {
    if w.stage.OverAdd? || w.stage.OverBump? {
      match w.stage
      case OverAdd(_, _) =>
      case OverBump(_) =>
    } else {
      CounterReads(w, u, at, r);
    }
  }

  lemma {:induction false} OvertradingChanges(w: World, u: Uuid, at: int, r: Result)
    requires !w.stage.RevengeSet?
    ensures var v := WorkOvertrading(w, u, at, r);
      v.t.trades == w.t.trades && v.t.flags == w.t.flags && w.t.over.rows <= v.t.over.rows && v.d == w.d
  {
    OvertradingKeepsTrades(w, u, at, r);
    OvertradingSetsNoFlag(w, u, at, r);
    OvertradingRows(w, u, at, r);
  }

  lemma {:induction false} WorkChanges(w: World, r: Result)
    requires Enabled(w, Work(r))
    ensures var v := Apply(w, Work(r));
      Grown(w, v) && NewFlagsInHand(w, v) && v.d == w.d
  {
    var p := Task(w);
    if p.Closed? {
      ClosedWork(w, Now(w), p.trade, p.user, p.session, r);
    } else if p.Opened? {
      if w.stage.RevengeLook? || w.stage.RevengeSet? || w.stage.RevengeBump? {
        RevengeChanges(w, r);
      } else {
        OvertradingChanges(w, p.user, p.at, r);
      }
    }
  }

  lemma {:induction false} OthersChange(w: World, step: Step)
    requires Inv(w) && Enabled(w, step) && !step.Work?
    ensures Grown(w, Apply(w, step)) && Apply(w, step).t.flags == w.t.flags
  {
    OthersIncrementNothing(w, step);
    match step
    case Submit(_, _) =>
    case BeginWork => BeginStarts(w);
    case EndWork => FinishedClean(w);
    case _ => Conservation.OthersKeepClean(w, step);
  }

  lemma {:induction false} StepChanges(w: World, step: Step)
    requires Inv(w) && Enabled(w, step)
    ensures Grown(w, Apply(w, step)) && NewFlagsInHand(w, Apply(w, step))
  {
    if step.Work? {
      WorkChanges(w, step.result);
    } else {
      OthersChange(w, step);
    }
  }

  // ---- Closed trades: none that arrived since the boot is ever flagged.

  /** Trade `x` was there at the boot, or its row is not closed. */
  ghost predicate OldOrOpen(first: seq<Trade>, ts: seq<Trade>, x: Uuid) {
    Find(ts, x).Some? && (Find(first, x).Some? || Find(ts, x).value.input.status != Shut)
  }

  lemma {:induction false} OldOrOpenStep(first: seq<Trade>, w: World, v: World, x: Uuid)
    requires Inv(w) && Inv(v) && Grown(w, v) && NewFlagsInHand(w, v) && x in v.t.flags
    requires x in w.t.flags ==> OldOrOpen(first, w.t.trades, x)
    ensures OldOrOpen(first, v.t.trades, x)
  {
    if x !in w.t.flags {
      assert FromTable(w.t.trades, Task(w));
    }
    RowStays(w.t.trades, v.t.trades, x);
  }

  lemma {:induction false} FlaggedAreOldOrOpen(w: World, steps: seq<Step>, x: Uuid)
    requires Initial(w) && IsRun(w, steps) && x in After(w, steps).t.flags
    ensures OldOrOpen(w.t.trades, After(w, steps).t.trades, x)
    decreases |steps|
  {
    if steps == [] {
      Backfill.BootedFlagsExist(w.t, w.boot.filled, x);
    } else {
      var front := steps[..|steps| - 1];
      InvAlways(w, front);
      InvAlways(w, steps);
      StepChanges(After(w, front), steps[|steps| - 1]);
      if x in After(w, front).t.flags {
        FlaggedAreOldOrOpen(w, front, x);
      }
      OldOrOpenStep(w.t.trades, After(w, front), After(w, steps), x);
    }
  }

  lemma {:induction false} SinceIsNew(w: World, e: World, t: Trade)
    requires UniqueIds(e.t.trades) && w.t.trades <= e.t.trades && t in Quiescence.Since(w, e)
    ensures Find(w.t.trades, t.input.id) == None && Find(e.t.trades, t.input.id) == Some(t)
  {
    assert e.t.trades[..|w.t.trades|] == w.t.trades;
    if Find(w.t.trades, t.input.id).Some? {
      Quiescence.FoundBelow(e.t.trades, |w.t.trades|, t);
    }
    var i :| 0 <= i < |e.t.trades| && e.t.trades[i] == t;
    FindIndex(e.t.trades, i);
  }

  lemma {:induction false} TableOnlyGrows(w: World, steps: seq<Step>)
    requires Initial(w) && IsRun(w, steps)
    ensures Grown(w, After(w, steps))
    decreases |steps|
  {
    if steps != [] {
      var front := steps[..|steps| - 1];
      InvAlways(w, front);
      TableOnlyGrows(w, front);
      StepChanges(After(w, front), steps[|steps| - 1]);
    }
  }

  /** The worker looks for a losing close only when a trade opens: a trade that was submitted closed
      is never flagged, on any run, although the batch may flag it. */
  lemma {:induction false} ClosedTradesAreNeverFlagged(w: World, steps: seq<Step>, t: Trade)
    requires Initial(w) && IsRun(w, steps) && t in Quiescence.Since(w, After(w, steps)) && t.input.status == Shut
    ensures t.input.id !in After(w, steps).t.flags
  {
    InvAlways(w, steps);
    TableOnlyGrows(w, steps);
    SinceIsNew(w, After(w, steps), t);
    if t.input.id in After(w, steps).t.flags {
      FlaggedAreOldOrOpen(w, steps, t.input.id);
    }
  }

  // ---- Seeded trades: their flags stay as the boot left them.

  lemma {:induction false} EntryCounts(entries: seq<Payload>, id: nat, x: Uuid)
    requires id < |entries| && Publishing.About(entries[id], x)
    ensures Publishing.EntriesAbout(entries, x) > 0
  {
    if id < |entries| - 1 {
      EntryCounts(entries[..|entries| - 1], id, x);
    }
  }

  lemma {:induction false} NoEventInHand(w: World, steps: seq<Step>, x: Uuid)
    requires Initial(w) && IsRun(w, steps) && Find(w.t.trades, x).Some? && OnOpened(After(w, steps))
    ensures Task(After(w, steps)).trade != x
  {
    var e := After(w, steps);
    Publishing.AtMostTwoEvents(w, steps, x);
    if Task(e).trade == x {
      EntryCounts(e.d.group.entries, Now(e), x);
    }
  }

  lemma {:induction false} SeededFlagsStay(w: World, steps: seq<Step>, x: Uuid)
    requires Initial(w) && IsRun(w, steps) && Find(w.t.trades, x).Some?
    ensures x in After(w, steps).t.flags <==> x in w.t.flags
    decreases |steps|
  {
    if steps != [] {
      var front := steps[..|steps| - 1];
      InvAlways(w, front);
      SeededFlagsStay(w, front, x);
      StepChanges(After(w, front), steps[|steps| - 1]);
      if OnOpened(After(w, front)) {
        NoEventInHand(w, front, x);
      }
    }
  }

  /** A seeded trade is flagged, on any run, exactly when the boot's backfill came to set flags and
      the seeded trades by themselves justify it: no later losing close is ever looked at for it. */
  lemma {:induction false} SeededFlagsExactly(w: World, steps: seq<Step>, t: Trade)
    requires Initial(w) && IsRun(w, steps) && t in w.t.trades
    ensures t.input.id in After(w, steps).t.flags <==> w.boot.filled >= 2 && Revenge.BatchFlag(w.t.trades, t)
  {
    Backfill.BootedFlag(w.t, w.boot.filled, t);
    var i :| 0 <= i < |w.t.trades| && w.t.trades[i] == t;
    FindIndex(w.t.trades, i);
    SeededFlagsStay(w, steps, t.input.id);
  }

  // ---- Completed opened events have had their effect.

  /** The `i`th trade follows, in time and in the table, some losing close. */
  ghost predicate DueWhenStored(ts: seq<Trade>, i: nat)
    requires i < |ts|
  {
    Revenge.Upset(ts[i]) && exists j :: 0 <= j < i && Revenge.InWindow(ts[i], ts[j])
  }

  /** The losing closes that were stored before trade `x` got it its flag. */
  ghost predicate FlagDone(w: World, x: Uuid) {
    forall i :: 0 <= i < |w.t.trades| && w.t.trades[i].input.id == x && DueWhenStored(w.t.trades, i) ==> x in w.t.flags
  }

  /** More than ten entries in the half hour up to `at`, among the trades up to the `i`th. */
  predicate CrowdedAt(ts: seq<Trade>, i: nat, u: Uuid, at: int)
    requires i < |ts|
  {
    |Filter(EntriesOf(ts[..i + 1], u), Overtrading.Covers(at))| > Overtrading.THRESHOLD
  }

  predicate EventEndsIn(w: World, u: Uuid, at: int) {
    Filter(Ledger.EventsOf(w.t.over.rows, u), Overtrading.EndIn(at)) != []
  }

  /** The crowd that was stored up to trade `x` got its event. */
  ghost predicate EventDone(w: World, x: Uuid, u: Uuid, at: int) {
    forall i :: 0 <= i < |w.t.trades| && w.t.trades[i].input.id == x && CrowdedAt(w.t.trades, i, u, at)
      ==> EventEndsIn(w, u, at)
  }

  /** No failure so far, and the losing closes have been looked at. */
  predicate PastFlag(stage: Stage) {
    || stage.RevengeBump? || stage == OverLook(0) || (stage.OverDedupe? && stage.failed == 0)
    || (stage.OverAdd? && stage.failed == 0) || PastEvent(stage)
  }

  /** No failure so far, and the event is stored or not needed. */
  predicate PastEvent(stage: Stage) {
    stage == OverBump(0) || (stage.OverEmit? && stage.failed == 0) || stage == Done(0)
  }

  ghost predicate StageDone(w: World) {
    OnOpened(w) ==>
      && (PastFlag(w.stage) ==> FlagDone(w, Task(w).trade))
      && (PastEvent(w.stage) ==> EventDone(w, Task(w).trade, Task(w).user, Task(w).at))
  }

  ghost predicate EntryDone(w: World, p: Payload) {
    p.Opened? ==> FlagDone(w, p.trade) && EventDone(w, p.trade, p.user, p.at)
  }

  ghost predicate CleanDone(w: World) {
    forall id :: id in w.d.clean && id < |w.d.group.entries| ==> EntryDone(w, w.d.group.entries[id])
  }

  // ---- What was done stays done.

  lemma {:induction false} SameIndex(a: seq<Trade>, b: seq<Trade>, x: Uuid, i: nat)
    requires a <= b && UniqueIds(b) && Find(a, x).Some? && i < |b| && b[i].input.id == x
    ensures i < |a| && a[i] == Find(a, x).value
  {
    FindSome(a, x);
    var k :| 0 <= k < |a| && a[k] == Find(a, x).value;
    assert b[k].input.id == b[i].input.id;
  }

  lemma {:induction false} FlagDoneLater(w: World, v: World, x: Uuid)
    requires Grown(w, v) && UniqueIds(v.t.trades) && Find(w.t.trades, x).Some? && FlagDone(w, x)
    ensures FlagDone(v, x)
  {
    forall i | 0 <= i < |v.t.trades| && v.t.trades[i].input.id == x && DueWhenStored(v.t.trades, i)
      ensures x in v.t.flags
    {
      SameIndex(w.t.trades, v.t.trades, x, i);
      assert DueWhenStored(w.t.trades, i);
    }
  }

  lemma {:induction false} EventsGrow(a: seq<Ledger.Row>, b: seq<Ledger.Row>, u: Uuid)
    requires a <= b
    ensures Ledger.EventsOf(a, u) <= Ledger.EventsOf(b, u)
  {
    assert b == a + b[|a|..];
    FilterAppend(a, b[|a|..], Ledger.OfUser(u));
  }

  lemma {:induction false} EventEndsLater(w: World, v: World, u: Uuid, at: int)
    requires w.t.over.rows <= v.t.over.rows && EventEndsIn(w, u, at)
    ensures EventEndsIn(v, u, at)
  {
    var a, b := Ledger.EventsOf(w.t.over.rows, u), Ledger.EventsOf(v.t.over.rows, u);
    EventsGrow(w.t.over.rows, v.t.over.rows, u);
    assert b == a + b[|a|..];
    FilterAppend(a, b[|a|..], Overtrading.EndIn(at));
  }

  lemma {:induction false} EventDoneLater(w: World, v: World, x: Uuid, u: Uuid, at: int)
    requires Grown(w, v) && UniqueIds(v.t.trades) && Find(w.t.trades, x).Some? && EventDone(w, x, u, at)
    ensures EventDone(v, x, u, at)
  {
    forall i | 0 <= i < |v.t.trades| && v.t.trades[i].input.id == x && CrowdedAt(v.t.trades, i, u, at)
      ensures EventEndsIn(v, u, at)
    {
      SameIndex(w.t.trades, v.t.trades, x, i);
      assert v.t.trades[..i + 1] == w.t.trades[..i + 1];
      EventEndsLater(w, v, u, at);
    }
  }

  lemma {:induction false} EntryDoneLater(w: World, v: World, p: Payload)
    requires Grown(w, v) && UniqueIds(v.t.trades) && FromTable(w.t.trades, p) && EntryDone(w, p)
    ensures EntryDone(v, p)
  {
    if p.Opened? {
      FlagDoneLater(w, v, p.trade);
      EventDoneLater(w, v, p.trade, p.user, p.at);
    }
  }

  // ---- The statements of an opened event.

  /** A look that finds no losing close leaves none to be found among the rows of now. */
  lemma {:induction false} LookSettles(w: World, x: Uuid, u: Uuid)
    requires UniqueIds(w.t.trades) && OpenRow(w.t.trades, x, u)
    requires !Revenge.LiveFlag(w.t.trades, u, Find(w.t.trades, x).value)
    ensures FlagDone(w, x)
    ensures forall i :: 0 <= i < |w.t.trades| && w.t.trades[i].input.id == x ==> !DueWhenStored(w.t.trades, i)
  {
    var ts, t := w.t.trades, Find(w.t.trades, x).value;
    FindSome(ts, x);
    Revenge.LiveIsBatch(ts, t);
    Revenge.BatchIsInWindow(ts, t);
    forall i | 0 <= i < |ts| && ts[i].input.id == x
      ensures !DueWhenStored(ts, i)
    {
      FindIndex(ts, i);
    }
  }

  lemma {:induction false} FlagDoneLook(w: World, x: Uuid, u: Uuid, r: Result)
    requires UniqueIds(w.t.trades) && OpenRow(w.t.trades, x, u)
    ensures var v := LookForLoss(w, x, u, r); PastFlag(v.stage) ==> FlagDone(v, x)
  {
    var v := LookForLoss(w, x, u, r);
    if PastFlag(v.stage) {
      LookSettles(w, x, u);
    }
  }

  lemma {:induction false} FlagDoneRaise(w: World, x: Uuid, r: Result)
    ensures var v := RaiseFlag(w, x, r); PastFlag(v.stage) ==> FlagDone(v, x)
  {
  }

  lemma {:induction false} FlagDoneBump(w: World, id: D.Id, x: Uuid, u: Uuid, r: Result)
    requires FlagDone(w, x)
    ensures FlagDone(CountRevenge(w, id, u, r), x)
  {
  }

  lemma {:induction false} FlagDoneRevenge(w: World, id: D.Id, x: Uuid, u: Uuid, r: Result)
    requires UniqueIds(w.t.trades) && OpenRow(w.t.trades, x, u) && (PastFlag(w.stage) ==> FlagDone(w, x))
    requires w.stage.RevengeLook? || w.stage.RevengeSet? || w.stage.RevengeBump?
    ensures var v := WorkRevenge(w, id, x, u, r); PastFlag(v.stage) ==> FlagDone(v, x)
  {
    match w.stage
    case RevengeLook => FlagDoneLook(w, x, u, r);
    case RevengeSet => FlagDoneRaise(w, x, r);
    case RevengeBump => FlagDoneBump(w, id, x, u, r);
  }

  /** The failures of before count in every later stage. */
  lemma {:induction false} OvertradingStages(w: World, u: Uuid, at: int, r: Result)
    requires !w.stage.RevengeLook? && !w.stage.RevengeSet? && !w.stage.RevengeBump?
    ensures PastFlag(WorkOvertrading(w, u, at, r).stage) ==> PastFlag(w.stage)
  {
    match w.stage
    case OverLook(_) =>
    case OverDedupe(_, _) =>
    case OverAdd(_, _) =>
    case OverBump(_) =>
    case _ =>
  }

  lemma {:induction false} CrowdGrows(ts: seq<Trade>, n: nat, u: Uuid, at: int)
    requires n <= |ts|
    ensures |Filter(EntriesOf(ts[..n], u), Overtrading.Covers(at))|
         <= |Filter(EntriesOf(ts, u), Overtrading.Covers(at))|
  {
    assert ts == ts[..n] + ts[n..];
    FilterAppend(ts[..n], ts[n..], ByUser(u));
    var a, b := EntriesOf(ts[..n], u), EntriesOf(ts, u);
    assert b == a + b[|a|..];
    FilterAppend(a, b[|a|..], Overtrading.Covers(at));
  }

  lemma {:induction false} EventDoneCount(w: World, x: Uuid, u: Uuid, at: int, failed: nat, r: Result)
    ensures var v := CountOpens(w, u, at, failed, r); PastEvent(v.stage) ==> EventDone(v, x, u, at)
  {
    forall i | 0 <= i < |w.t.trades| && CrowdedAt(w.t.trades, i, u, at)
      ensures |Filter(EntriesOf(w.t.trades, u), Overtrading.Covers(at))| > Overtrading.THRESHOLD
    {
      CrowdGrows(w.t.trades, i + 1, u, at);
    }
  }

  lemma {:induction false} EventDoneDedupe(w: World, x: Uuid, u: Uuid, at: int, count: nat, failed: nat, r: Result)
    ensures var v := LookForEvent(w, u, at, count, failed, r); PastEvent(v.stage) ==> EventDone(v, x, u, at)
  {
  }

  lemma {:induction false} AddedRowEnds(rows: seq<Ledger.Row>, u: Uuid, e: Overtrading.Detected, at: int)
    requires Overtrading.EndIn(at)(e)
    ensures Filter(Ledger.EventsOf(rows + [Ledger.Row(u, e)], u), Overtrading.EndIn(at)) != []
  {
    var a, b := Ledger.EventsOf(rows, u), Ledger.EventsOf(rows + [Ledger.Row(u, e)], u);
    FilterAppend(rows, [Ledger.Row(u, e)], Ledger.OfUser(u));
    assert [Ledger.Row(u, e)][..0] == [];
    assert b == a + [e];
    FilterMember(b, Overtrading.EndIn(at), e);
  }

  lemma {:induction false} EventDoneAdd(w: World, x: Uuid, u: Uuid, at: int, count: nat, failed: nat, r: Result)
    ensures var v := RecordEvent(w, u, at, count, failed, r); PastEvent(v.stage) ==> EventDone(v, x, u, at)
  {
    AddedRowEnds(w.t.over.rows, u, Overtrading.Detected(at - Overtrading.WINDOW, at, count), at);
  }

  lemma {:induction false} EventDoneBump(w: World, x: Uuid, u: Uuid, at: int, failed: nat, r: Result)
    requires w.stage == OverBump(failed) && (PastEvent(w.stage) ==> EventDone(w, x, u, at))
    ensures var v := CountEvent(w, u, failed, r); PastEvent(v.stage) ==> EventDone(v, x, u, at)
  {
  }

  lemma {:induction false} EventDoneOvertrading(w: World, x: Uuid, u: Uuid, at: int, r: Result)
    requires w.stage.OverLook? || w.stage.OverDedupe? || w.stage.OverAdd? || w.stage.OverBump?
    requires PastEvent(w.stage) ==> EventDone(w, x, u, at)
    ensures var v := WorkOvertrading(w, u, at, r); PastEvent(v.stage) ==> EventDone(v, x, u, at)
  {
    match w.stage
    case OverLook(failed) => EventDoneCount(w, x, u, at, failed, r);
    case OverDedupe(count, failed) => EventDoneDedupe(w, x, u, at, count, failed, r);
    case OverAdd(count, failed) => EventDoneAdd(w, x, u, at, count, failed, r);
    case OverBump(failed) => EventDoneBump(w, x, u, at, failed, r);
  }

  lemma {:induction false} RevengeStages(w: World, id: D.Id, x: Uuid, u: Uuid, r: Result)
    requires w.stage.RevengeLook? || w.stage.RevengeSet? || w.stage.RevengeBump?
    ensures !PastEvent(WorkRevenge(w, id, x, u, r).stage)
  {
    match w.stage
    case RevengeLook =>
    case RevengeSet =>
    case RevengeBump =>
  }

  lemma {:induction false} StageDoneWork(w: World, r: Result)
    requires Inv(w) && StageDone(w) && Enabled(w, Work(r)) && OnOpened(w)
    ensures var p, v := Task(w), Apply(w, Work(r));
      && (PastFlag(v.stage) ==> FlagDone(v, p.trade))
      && (PastEvent(v.stage) ==> EventDone(v, p.trade, p.user, p.at))
  {
    var p := Task(w);
    assert FromTable(w.t.trades, p);
    if w.stage.RevengeLook? || w.stage.RevengeSet? || w.stage.RevengeBump? {
      FlagDoneRevenge(w, Now(w), p.trade, p.user, r);
      RevengeStages(w, Now(w), p.trade, p.user, r);
    } else {
      OvertradingChanges(w, p.user, p.at, r);
      OvertradingStages(w, p.user, p.at, r);
      EventDoneOvertrading(w, p.trade, p.user, p.at, r);
    }
  }

  // ---- Step by step.

  /** Where the worker is past a look, it was so before, with the same event. */
  ghost predicate MovesNoStage(w: World, v: World) {
    OnOpened(v) && PastFlag(v.stage) ==>
      && OnOpened(w) && Task(w) == Task(v) && Now(w) == Now(v)
      && PastFlag(w.stage) && (PastEvent(v.stage) ==> PastEvent(w.stage))
      && (v.stage == w.stage || (w.stage.OverEmit? && PastEvent(v.stage)))
  }

  lemma {:induction false} XaddMovesNoStage(w: World, x: Uuid, appended: bool, again: bool)
    requires Inv(w) && Enabled(w, Xadd(x, appended, again))
    ensures MovesNoStage(w, Apply(w, Xadd(x, appended, again)))
  {
  }

  lemma {:induction false} EmitFields(w: World, appended: bool, again: bool)
    requires Enabled(w, Emit(appended, again))
    ensures var v := Apply(w, Emit(appended, again));
      && v.stage == (if again then OverEmit(w.stage.failed, true) else Done(w.stage.failed))
      && v.d.locals == w.d.locals && w.d.group.entries <= v.d.group.entries
  {
  }

  lemma {:induction false} EmitMovesNoStage(w: World, appended: bool, again: bool)
    requires Inv(w) && Enabled(w, Emit(appended, again))
    ensures MovesNoStage(w, Apply(w, Emit(appended, again)))
  {
    EmitFields(w, appended, again);
    StillOnOpened(w, Apply(w, Emit(appended, again)));
  }

  lemma {:induction false} StillOnOpened(w: World, v: World)
    requires Busy(w) && v.d.locals == w.d.locals && w.d.group.entries <= v.d.group.entries
    ensures Busy(v) && Task(v) == Task(w) && Now(v) == Now(w)
  {
  }

  lemma {:induction false} WorkerMovesNoStage(w: World, step: Step)
    requires Inv(w) && Enabled(w, step) && (step.Deliver? || step.BeginWork? || step.EndWork?)
    ensures MovesNoStage(w, Apply(w, step))
  {
    match step
    case Deliver(s) => OutsideProcess(w.d, s);
    case BeginWork => BeginStarts(w);
    case EndWork => FinishedClean(w);
  }

  lemma {:induction false} SubmitMovesNoStage(w: World, in_: TradeInput, r: Result)
    ensures MovesNoStage(w, Apply(w, Submit(in_, r)))
  {
  }

  lemma {:induction false} OthersMoveNoStage(w: World, step: Step)
    requires Inv(w) && Enabled(w, step) && !step.Work?
    ensures MovesNoStage(w, Apply(w, step))
  {
    match step
    case Submit(in_, r) => SubmitMovesNoStage(w, in_, r);
    case Xadd(x, appended, again) => XaddMovesNoStage(w, x, appended, again);
    case Emit(appended, again) => EmitMovesNoStage(w, appended, again);
    case _ => WorkerMovesNoStage(w, step);
  }

  /** Only a call without failure ends clean. */
  lemma {:induction false} NewlyClean(w: World, step: Step, id: D.Id)
    requires Inv(w) && Enabled(w, step) && id in Apply(w, step).d.clean
    ensures id in w.d.clean || (Busy(w) && id == Now(w) && w.stage == Done(0))
  {
    match step
    case Submit(_, _) =>
    case Work(r) => WorkChanges(w, r);
    case BeginWork => BeginStarts(w);
    case EndWork => FinishedClean(w);
    case _ => Conservation.OthersKeepClean(w, step);
  }

  lemma {:induction false} CleanDoneStep(w: World, step: Step)
    requires Inv(w) && CleanDone(w) && StageDone(w) && Enabled(w, step) && Inv(Apply(w, step))
    ensures CleanDone(Apply(w, step))
  {
    var v := Apply(w, step);
    StepChanges(w, step);
    forall id | id in v.d.clean && id < |v.d.group.entries|
      ensures EntryDone(v, v.d.group.entries[id])
    {
      NewlyClean(w, step, id);
      assert id < |w.d.group.entries|;
      assert FromTable(w.t.trades, w.d.group.entries[id]);
      EntryDoneLater(w, v, w.d.group.entries[id]);
    }
  }

  lemma {:induction false} StageDoneStep(w: World, step: Step)
    requires Inv(w) && StageDone(w) && Enabled(w, step) && Inv(Apply(w, step))
    ensures StageDone(Apply(w, step))
  {
    var v := Apply(w, step);
    StepChanges(w, step);
    if OnOpened(v) {
      if step.Work? {
        WorkChanges(w, step.result);
        StageDoneWork(w, step.result);
      } else {
        OthersMoveNoStage(w, step);
        if OnOpened(w) {
          assert FromTable(w.t.trades, Task(w));
          StageDoneLater(w, v);
        }
      }
    }
  }

  lemma {:induction false} StageDoneLater(w: World, v: World)
    requires Grown(w, v) && UniqueIds(v.t.trades) && OnOpened(w) && FromTable(w.t.trades, Task(w)) && StageDone(w)
    ensures PastFlag(w.stage) ==> FlagDone(v, Task(w).trade)
    ensures PastEvent(w.stage) ==> EventDone(v, Task(w).trade, Task(w).user, Task(w).at)
  {
    var p := Task(w);
    if PastFlag(w.stage) {
      FlagDoneLater(w, v, p.trade);
    }
    if PastEvent(w.stage) {
      EventDoneLater(w, v, p.trade, p.user, p.at);
    }
  }

  lemma {:induction false} DoneAlways(w: World, steps: seq<Step>)
    requires Initial(w) && IsRun(w, steps)
    ensures CleanDone(After(w, steps)) && StageDone(After(w, steps))
    decreases |steps|
  {
    if steps != [] {
      var front, last := steps[..|steps| - 1], steps[|steps| - 1];
      InvAlways(w, front);
      InvAlways(w, steps);
      DoneAlways(w, front);
      CleanDoneStep(After(w, front), last);
      StageDoneStep(After(w, front), last);
    }
  }

  // ---- The laws.

  /** Some opened event of trade `x` was completed: a call of `process` for it ended without failure. */
  ghost predicate OpenCompleted(e: World, x: Uuid) {
    exists id :: id in e.d.clean && id < |e.d.group.entries| && Opens(e.d.group.entries[id], x)
  }

  predicate Opens(p: Payload, x: Uuid) {
    p.Opened? && p.trade == x
  }

  /** Completeness of the live flag over runs: once an opened event of a trade was completed, the
      trade has its flag if the user was upset and a losing close in the window was stored before it. */
  lemma {:induction false} CompletedOpensAreFlagged(w: World, steps: seq<Step>, i: nat)
    requires Initial(w) && IsRun(w, steps) && i < |After(w, steps).t.trades|
    requires OpenCompleted(After(w, steps), After(w, steps).t.trades[i].input.id)
    ensures var e := After(w, steps);
      DueWhenStored(e.t.trades, i) ==> e.t.trades[i].input.id in e.t.flags
  {
    DoneAlways(w, steps);
    var e := After(w, steps);
    var id :| id in e.d.clean && id < |e.d.group.entries| && Opens(e.d.group.entries[id], e.t.trades[i].input.id);
    assert EntryDone(e, e.d.group.entries[id]);
  }

  /** Every losing close in the window of the `i`th trade was stored after it, and there is one. */
  ghost predicate OnlyLateLosses(ts: seq<Trade>, i: nat)
    requires i < |ts|
  {
    && (forall j :: 0 <= j <= i ==> !Revenge.InWindow(ts[i], ts[j]))
    && exists j :: i < j < |ts| && Revenge.InWindow(ts[i], ts[j])
  }

  lemma {:induction false} DueLaterOnly(ts: seq<Trade>, i: nat)
    requires i < |ts| && Revenge.BatchFlag(ts, ts[i]) && !DueWhenStored(ts, i)
    ensures OnlyLateLosses(ts, i)
  {
    Revenge.BatchIsInWindow(ts, ts[i]);
    var p :| p in ts && Revenge.InWindow(ts[i], p);
    var j :| 0 <= j < |ts| && ts[j] == p;
    assert Revenge.InWindow(ts[i], ts[j]);
  }

  /** What the batch flags and the worker did not, by cause: a seeded trade whose reason is not among
      the seeded ones (or whose boot did not come to set flags), and of the others one that was
      closed when it was submitted, one with no completed opened event, or one whose losing closes in
      the window were all stored after it. */
  lemma {:induction false} MissedFlags(w: World, steps: seq<Step>, i: nat)
    requires Initial(w) && IsRun(w, steps) && i < |After(w, steps).t.trades|
    requires Revenge.BatchFlag(After(w, steps).t.trades, After(w, steps).t.trades[i])
    requires After(w, steps).t.trades[i].input.id !in After(w, steps).t.flags
    ensures var e := After(w, steps);
      var t := e.t.trades[i];
      if i < |w.t.trades| then !(w.boot.filled >= 2 && Revenge.BatchFlag(w.t.trades, t))
      else t.input.status == Shut || !OpenCompleted(e, t.input.id) || OnlyLateLosses(e.t.trades, i)
  {
    var e := After(w, steps);
    if i < |w.t.trades| {
      TableOnlyGrows(w, steps);
      SeededFlagsExactly(w, steps, w.t.trades[i]);
    } else if OpenCompleted(e, e.t.trades[i].input.id) {
      CompletedOpensAreFlagged(w, steps, i);
      DueLaterOnly(e.t.trades, i);
    }
  }

  /** Completeness of the recorded events over runs: once an opened event of a trade was completed,
      and the user's trades up to it put more than ten entries in the thirty minutes up to its whole
      millisecond, some event of the user ends in those thirty minutes. */
  lemma {:induction false} CompletedOpensAreCovered(w: World, steps: seq<Step>, i: nat)
    requires Initial(w) && IsRun(w, steps) && i < |After(w, steps).t.trades|
    requires OpenCompleted(After(w, steps), After(w, steps).t.trades[i].input.id)
    ensures var e := After(w, steps);
      var t := e.t.trades[i];
      var u, at := t.input.user, TruncateMs(t.input.entryAt);
      CrowdedAt(e.t.trades, i, u, at) ==> EventEndsIn(e, u, at)
  {
    InvAlways(w, steps);
    DoneAlways(w, steps);
    var e := After(w, steps);
    var id :| id in e.d.clean && id < |e.d.group.entries| && Opens(e.d.group.entries[id], e.t.trades[i].input.id);
    assert EntryDone(e, e.d.group.entries[id]);
    assert FromTable(e.t.trades, e.d.group.entries[id]);
    FindIndex(e.t.trades, i);
  }

  /** Nothing keeps a closed trade from being missed: after any losing close of a user, any trade of
      that user that is submitted closed, upset and entered at most 90 seconds later is one that the
      batch flags and no continuation of the run ever does. */
  lemma {:induction false} ClosedRevengeIsReached(w: World, a: TradeInput, b: TradeInput)
    requires Initial(w) && Storable(a) && Storable(b) && a.id != b.id
    requires Find(w.t.trades, a.id) == None && Find(w.t.trades, b.id) == None
    requires b.status == Shut && Revenge.Upset(RowOf(b)) && Revenge.InWindow(RowOf(b), RowOf(a))
    ensures var steps := [Submit(a, Ok), Submit(b, Ok)];
      && IsRun(w, steps) && RowOf(b) in Quiescence.Since(w, After(w, steps))
      && Revenge.BatchFlag(After(w, steps).t.trades, RowOf(b)) && b.id !in After(w, steps).t.flags
  {
    var steps := [Submit(a, Ok), Submit(b, Ok)];
    Quiescence.TwoSubmits(w, a, b);
    var ts := w.t.trades + [RowOf(a), RowOf(b)];
    assert ts[|w.t.trades|] == RowOf(a) && ts[|w.t.trades| + 1] == RowOf(b);
    Revenge.BatchIsInWindow(ts, RowOf(b));
    assert ts[|w.t.trades|..][1] == RowOf(b);
    ClosedTradesAreNeverFlagged(w, steps, RowOf(b));
  }
}
