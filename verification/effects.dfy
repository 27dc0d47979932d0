/** What the incremental metrics keep over every run of the pipeline, with retries, crashes and
    statements that report failure after taking effect. */
module Effects {
  import opened Prelude
  import opened Codec
  import opened Trades
  import opened Store
  import opened Pipeline
  import opened Consistency
  import D = Delivery
  import Revenge
  import Overtrading
  import Backfill
  import PlanAdherence
  import Ledger

  // ---- Steps that are not statements of a calculator.

  /** The worker stands where it stood, or where no increment is half done. */
  ghost predicate Stands(w: World, v: World) {
    || (v.stage == w.stage && (Busy(v) ==> Busy(w) && Now(v) == Now(w) && Task(v) == Task(w)))
    || v.stage.Resting?
    || (Busy(v) && Task(v).Opened? && (v.stage.OverEmit? || v.stage.Done?))
  }

  lemma {:induction false} DeliverStands(w: World, s: D.Step)
    requires Inv(w) && Enabled(w, Deliver(s))
    ensures Stands(w, Apply(w, Deliver(s)))
  {
    OutsideProcess(w.d, s);
  }

  lemma {:induction false} AppendStands(w: World, p: Payload)
    requires Inv(w)
    ensures Stands(w, Append(w, p))
  {
  }

  lemma {:induction false} EmitStands(w: World, appended: bool, again: bool)
    requires Inv(w) && Enabled(w, Emit(appended, again))
    ensures Stands(w, Apply(w, Emit(appended, again)))
  {
  }

  lemma {:induction false} OthersStand(w: World, step: Step)
    requires Inv(w) && Enabled(w, step) && !step.Work? && !step.BeginWork?
    ensures Stands(w, Apply(w, step))
  {
    match step
    case Submit(_, _) =>
    case Xadd(x, appended, again) =>
      AppendStands(w, w.jobs[x].payload);
    case Deliver(s) => DeliverStands(w, s);
    case Emit(appended, again) => EmitStands(w, appended, again);
    case EndWork =>
  }

  /** A call of `process` starts with its first statement and is counted as a try. */
  lemma {:induction false} BeginStarts(w: World)
    requires Inv(w) && Enabled(w, BeginWork)
    ensures var v := Apply(w, BeginWork);
      && Busy(v) && v.stage == FirstStatement(Task(v))
      && v.d.tries == w.d.tries + multiset{Now(v)} && v.d.clean == w.d.clean && v.d.group.entries == w.d.group.entries
  {
  }

  /** Only statements of the worker change a metric. */
  lemma {:induction false} OthersIncrementNothing(w: World, step: Step)
    requires Enabled(w, step) && !step.Work?
    ensures Apply(w, step).bumped == w.bumped
    ensures Apply(w, step).t == w.t.(trades := Apply(w, step).t.trades)
    ensures !step.Submit? ==> Apply(w, step).t.trades == w.t.trades
  {
    match step
    case Submit(_, _) =>
    case Xadd(_, _, _) =>
    case Deliver(_) =>
    case BeginWork =>
    case Emit(_, _) =>
    case EndWork =>
  }

  ghost predicate Unflagged(w: World, v: World) {
    && v.t.trades == w.t.trades && v.t.flags == w.t.flags && v.t.over == w.t.over && v.t.revenge == w.t.revenge
    && v.d == w.d && v.jobs == w.jobs
  }

  lemma {:induction false} PlanUnflagged(w: World, u: Uuid, asOf: nat, score: PlanAdherence.Score, r: Result)
    ensures Unflagged(w, ReadPlan(w, u, r)) && Unflagged(w, WritePlan(w, u, asOf, score, r))
  {
  }

  lemma {:induction false} OutcomeUnflagged(w: World, id: D.Id, x: Uuid, u: Uuid, failed: nat, r: Result)
    ensures Unflagged(w, AddOutcome(w, id, x, u, failed, r))
  {
  }

  lemma {:induction false} TiltUnflagged(w: World, s: Uuid, failed: nat, r: Result)
    ensures Unflagged(w, StoreTilt(w, s, failed, r))
  {
    TiltMoves(w, s, failed, r);
  }

  lemma {:induction false} ClosedWork(w: World, id: D.Id, x: Uuid, u: Uuid, s: Uuid, r: Result)
    ensures Unflagged(w, WorkClosed(w, id, x, u, s, r))
  {
    match w.stage
    case PlanRead => PlanUnflagged(w, u, 0, PlanAdherence.Score(0.0, 0), r);
    case PlanWrite(asOf, score) => PlanUnflagged(w, u, asOf, score, r);
    case WinAdd(failed) => OutcomeUnflagged(w, id, x, u, failed, r);
    case TiltStore(failed) => TiltUnflagged(w, s, failed, r);
    case _ =>
  }

  /** The step changes no metric and leaves none half changed. */
  ghost predicate Quiet(w: World, v: World) {
    && (Stands(w, v) || v.stage.RevengeLook? || v.stage.PlanRead? || v.stage.Done?)
    && v.bumped == w.bumped && v.t.flags == w.t.flags && v.t.over == w.t.over && v.t.cells == w.t.cells
  }

  lemma {:induction false} OthersAreQuiet(w: World, step: Step)
    requires Inv(w) && Enabled(w, step) && !step.Work?
    ensures Quiet(w, Apply(w, step))
    ensures !step.Submit? ==> Apply(w, step).t.trades == w.t.trades
  {
    OthersIncrementNothing(w, step);
    if step.BeginWork? {
      BeginStarts(w);
    } else {
      OthersStand(w, step);
    }
  }

  // ---- The revenge flag.

  /** The row of trade `x` satisfies the predicate by which the batch sets the flag. */
  ghost predicate Deserved(ts: seq<Trade>, x: Uuid) {
    Find(ts, x).Some? && Revenge.BatchFlag(ts, Find(ts, x).value)
  }

  predicate OnOpened(w: World) {
    Busy(w) && Task(w).Opened?
  }

  ghost predicate FlagsOk(w: World) {
    && (forall x :: x in w.t.flags ==> Deserved(w.t.trades, x))
    && (OnOpened(w) && w.stage.RevengeSet? ==> Deserved(w.t.trades, Task(w).trade))
  }

  lemma {:induction false} DeservedGrows(ts: seq<Trade>, row: Trade, x: Uuid)
    requires Find(ts, row.input.id) == None && Deserved(ts, x)
    ensures Deserved(ts + [row], x)
  {
    FindKept(ts, row, x);
    Revenge.BatchFlagGrows(ts, [row], Find(ts, x).value);
  }

  lemma {:induction false} LookDeserves(ts: seq<Trade>, x: Uuid, u: Uuid)
    requires UniqueIds(ts) && OpenRow(ts, x, u)
    ensures Revenge.LiveFlag(ts, u, Find(ts, x).value) <==> Deserved(ts, x)
  {
    FindSome(ts, x);
    Revenge.LiveIsBatch(ts, Find(ts, x).value);
  }

  ghost predicate OpenRow(ts: seq<Trade>, x: Uuid, u: Uuid) {
    Find(ts, x).Some? && Find(ts, x).value.input.user == u && Find(ts, x).value.input.status != Shut
  }

  lemma {:induction false} FlagsGrow(w: World, v: World, row: Trade)
    requires FlagsOk(w) && Find(w.t.trades, row.input.id) == None && v.t.trades == w.t.trades + [row]
    requires v.t.flags == w.t.flags && v.stage == w.stage && v.d == w.d
    ensures FlagsOk(v)
  {
    forall x | Deserved(w.t.trades, x)
      ensures Deserved(v.t.trades, x)
    {
      DeservedGrows(w.t.trades, row, x);
    }
  }

  lemma {:induction false} FlagsQuiet(w: World, v: World)
    requires FlagsOk(w) && Quiet(w, v) && v.t.trades == w.t.trades
    ensures FlagsOk(v)
  {
  }

  lemma {:induction false} FlagsSubmit(w: World, in_: TradeInput, r: Result)
    requires FlagsOk(w)
    ensures FlagsOk(Apply(w, Submit(in_, r)))
  {
    var v := Apply(w, Submit(in_, r));
    if v.t.trades != w.t.trades {
      FlagsGrow(w, v, RowOf(in_));
    }
  }

  lemma {:induction false} FlagsLook(w: World, x: Uuid, u: Uuid, r: Result)
    requires FlagsOk(w) && UniqueIds(w.t.trades) && OnOpened(w) && Task(w).trade == x && OpenRow(w.t.trades, x, u)
    ensures FlagsOk(LookForLoss(w, x, u, r))
  {
    LookDeserves(w.t.trades, x, u);
  }

  lemma {:induction false} FlagsRaise(w: World, x: Uuid, r: Result)
    requires FlagsOk(w) && OnOpened(w) && Task(w).trade == x && w.stage.RevengeSet?
    ensures FlagsOk(RaiseFlag(w, x, r))
  {
  }

  lemma {:induction false} FlagsCount(w: World, id: D.Id, u: Uuid, r: Result)
    requires FlagsOk(w)
    ensures FlagsOk(CountRevenge(w, id, u, r))
  {
  }

  lemma {:induction false} FlagsRevenge(w: World, id: D.Id, x: Uuid, u: Uuid, r: Result)
    requires FlagsOk(w) && UniqueIds(w.t.trades) && OnOpened(w) && Task(w).trade == x && OpenRow(w.t.trades, x, u)
    ensures FlagsOk(WorkRevenge(w, id, x, u, r))
  {
    match w.stage
    case RevengeLook => FlagsLook(w, x, u, r);
    case RevengeSet => FlagsRaise(w, x, r);
    case RevengeBump => FlagsCount(w, id, u, r);
    case _ =>
  }

  lemma {:induction false} OvertradingSetsNoFlag(w: World, u: Uuid, at: int, r: Result)
    requires !w.stage.RevengeSet?
    ensures var v := WorkOvertrading(w, u, at, r); v.t.flags == w.t.flags && !v.stage.RevengeSet?
  {
    match w.stage
    case OverLook(_) =>
    case OverDedupe(_, _) =>
    case OverAdd(_, _) =>
    case OverBump(_) =>
    case _ =>
  }

  lemma {:induction false} OvertradingKeepsTrades(w: World, u: Uuid, at: int, r: Result)
    ensures WorkOvertrading(w, u, at, r).t.trades == w.t.trades && WorkOvertrading(w, u, at, r).d == w.d
  {
    if w.stage.OverAdd? || w.stage.OverBump? {
      OvertradingWritesKeepSnapshots(w, u, at, r);
    } else {
      OvertradingReadsKeepSnapshots(w, u, at, r);
    }
  }

  lemma {:induction false} FlagsWork(w: World, r: Result)
    requires Inv(w) && FlagsOk(w) && Enabled(w, Work(r))
    ensures FlagsOk(Apply(w, Work(r)))
  {
    var p := Task(w);
    assert FromTable(w.t.trades, p);
    if p.Closed? {
      ClosedWork(w, Now(w), p.trade, p.user, p.session, r);
    } else if p.Opened? {
      if w.stage.RevengeLook? || w.stage.RevengeSet? || w.stage.RevengeBump? {
        FlagsRevenge(w, Now(w), p.trade, p.user, r);
      } else {
        OvertradingSetsNoFlag(w, p.user, p.at, r);
        OvertradingKeepsTrades(w, p.user, p.at, r);
      }
    }
  }

  lemma {:induction false} FlagsStep(w: World, step: Step)
    requires Inv(w) && FlagsOk(w) && Enabled(w, step)
    ensures FlagsOk(Apply(w, step))
  {
    match step
    case Work(r) => FlagsWork(w, r);
    case Submit(in_, r) => FlagsSubmit(w, in_, r);
    case _ =>
      OthersAreQuiet(w, step);
      FlagsQuiet(w, Apply(w, step));
  }

  lemma {:induction false} BootFlags(w: World)
    requires Initial(w)
    ensures FlagsOk(w)
  {
    forall x | x in w.t.flags
      ensures Deserved(w.t.trades, x)
    {
      Backfill.BootedFlagsExist(w.t, w.boot.filled, x);
    }
  }

  lemma {:induction false} FlagsAlways(w: World, steps: seq<Step>)
    requires Initial(w) && IsRun(w, steps)
    ensures FlagsOk(After(w, steps))
    decreases |steps|
  {
    if steps == [] {
      BootFlags(w);
    } else {
      InvAlways(w, steps[..|steps| - 1]);
      FlagsAlways(w, steps[..|steps| - 1]);
      FlagsStep(After(w, steps[..|steps| - 1]), steps[|steps| - 1]);
    }
  }

  /** Soundness of the live flag: in every reachable state, however late and however often the
      event was processed and whatever was inserted since, a flagged trade exists and the batch
      would flag it too. The flags that the boot set are among them. */
  lemma {:induction false} FlaggedTradesDeserveIt(w: World, steps: seq<Step>, x: Uuid)
    requires Initial(w) && IsRun(w, steps) && x in After(w, steps).t.flags
    ensures var ts := After(w, steps).t.trades;
      exists t :: t in ts && t.input.id == x && Revenge.BatchFlag(ts, t)
  {
    FlagsAlways(w, steps);
    FindSome(After(w, steps).t.trades, x);
  }

  // ---- The overtrading counter.

  /** One for a user whose event row is stored and whose counter is still to be raised. */
  function Owed(w: World, u: Uuid): nat {
    if OnOpened(w) && w.stage.OverBump? && Task(w).user == u then 1 else 0
  }

  /** One for an event row that this step leaves without its count: the insert took effect although
      it failed, the increment did not take effect, or the worker crashed between the two. */
  function LeftBehind(w: World, step: Step, u: Uuid): nat {
    match step
    case Work(r) =>
      if OnOpened(w) && Task(w).user == u
         && ((w.stage.OverAdd? && r.AppliedButFailed?) || (w.stage.OverBump? && r.Failed?)) then 1 else 0
    case Deliver(s) => if s.Crash? then Owed(w, u) else 0
    case _ => 0
  }

  /** The event rows that a run leaves without their count. */
  ghost function Uncounted(w: World, steps: seq<Step>, u: Uuid): nat
    requires IsRun(w, steps)
  {
    if steps == [] then 0
    else
      var front := steps[..|steps| - 1];
      Uncounted(w, front, u) + LeftBehind(After(w, front), steps[|steps| - 1], u)
  }

  ghost predicate CounterIs(w: World, u: Uuid, left: nat) {
    Ledger.Counter(w.t.over, u) + Owed(w, u) + left == Ledger.Rows(w.t.over, u)
  }

  lemma {:induction false} OwedSubmit(w: World, in_: TradeInput, r: Result, u: Uuid)
    ensures Owed(Apply(w, Submit(in_, r)), u) == Owed(w, u)
  {
  }

  lemma {:induction false} OwedXadd(w: World, x: Uuid, appended: bool, again: bool, u: Uuid)
    requires Inv(w) && Enabled(w, Xadd(x, appended, again))
    ensures Owed(Apply(w, Xadd(x, appended, again)), u) == Owed(w, u)
  {
  }

  /** A crash leaves behind what was owed; before any other such step nothing is. */
  lemma {:induction false} OwedDeliver(w: World, s: D.Step, u: Uuid)
    requires Inv(w) && Enabled(w, Deliver(s))
    ensures Owed(Apply(w, Deliver(s)), u) == 0 && LeftBehind(w, Deliver(s), u) == Owed(w, u)
  {
    OutsideProcess(w.d, s);
  }

  lemma {:induction false} NothingOwed(w: World, step: Step, u: Uuid)
    requires Inv(w) && Enabled(w, step) && (step.Emit? || step.BeginWork? || step.EndWork?)
    ensures Owed(Apply(w, step), u) == Owed(w, u) == 0
  {
    match step
    case Emit(_, _) =>
    case BeginWork => BeginStarts(w);
    case EndWork =>
  }

  lemma {:induction false} CounterOthers(w: World, step: Step, u: Uuid, left: nat)
    requires Inv(w) && CounterIs(w, u, left) && Enabled(w, step) && !step.Work?
    ensures CounterIs(Apply(w, step), u, left + LeftBehind(w, step, u))
  {
    OthersIncrementNothing(w, step);
    match step
    case Submit(in_, r) => OwedSubmit(w, in_, r, u);
    case Xadd(x, appended, again) => OwedXadd(w, x, appended, again, u);
    case Deliver(s) => OwedDeliver(w, s, u);
    case _ => NothingOwed(w, step, u);
  }

  lemma {:induction false} RevengeCountsNoEvent(w: World, id: D.Id, x: Uuid, z: Uuid, r: Result)
    requires !w.stage.OverBump?
    ensures WorkRevenge(w, id, x, z, r).t.over == w.t.over
    ensures !WorkRevenge(w, id, x, z, r).stage.OverBump?
  {
    match w.stage
    case RevengeLook =>
    case RevengeSet =>
    case RevengeBump =>
    case _ =>
  }

  lemma {:induction false} CounterRow(w: World, z: Uuid, at: int, r: Result, u: Uuid, left: nat)
    requires CounterIs(w, u, left) && OnOpened(w) && Task(w).user == z && w.stage.OverAdd?
    ensures CounterIs(RecordEvent(w, z, at, w.stage.count, w.stage.failed, r), u, left + LeftBehind(w, Work(r), u))
  {
    Ledger.AddRowCounts(w.t.over, z, Overtrading.Detected(at - Overtrading.WINDOW, at, w.stage.count), u);
  }

  lemma {:induction false} CounterBump(w: World, z: Uuid, r: Result, u: Uuid, left: nat)
    requires CounterIs(w, u, left) && OnOpened(w) && Task(w).user == z && w.stage.OverBump?
    ensures CounterIs(CountEvent(w, z, w.stage.failed, r), u, left + LeftBehind(w, Work(r), u))
  {
  }

  lemma {:induction false} CounterReads(w: World, z: Uuid, at: int, r: Result)
    requires !w.stage.OverAdd? && !w.stage.OverBump?
    ensures var v := WorkOvertrading(w, z, at, r); v.t.over == w.t.over && !v.stage.OverBump?
  {
    match w.stage
    case OverLook(_) =>
    case OverDedupe(_, _) =>
    case _ =>
  }

  lemma {:induction false} CounterOvertrading(w: World, z: Uuid, at: int, r: Result, u: Uuid, left: nat)
    requires CounterIs(w, u, left) && OnOpened(w) && Task(w).user == z
    ensures CounterIs(WorkOvertrading(w, z, at, r), u, left + LeftBehind(w, Work(r), u))
  {
    match w.stage
    case OverAdd(_, _) => CounterRow(w, z, at, r, u, left);
    case OverBump(_) => CounterBump(w, z, r, u, left);
    case _ => CounterReads(w, z, at, r);
  }

  lemma {:induction false} CounterWork(w: World, r: Result, u: Uuid, left: nat)
    requires Inv(w) && CounterIs(w, u, left) && Enabled(w, Work(r))
    ensures CounterIs(Apply(w, Work(r)), u, left + LeftBehind(w, Work(r), u))
  {
    var p := Task(w);
    if p.Closed? {
      ClosedWork(w, Now(w), p.trade, p.user, p.session, r);
    } else if p.Opened? {
      if w.stage.RevengeLook? || w.stage.RevengeSet? || w.stage.RevengeBump? {
        RevengeCountsNoEvent(w, Now(w), p.trade, p.user, r);
      } else {
        CounterOvertrading(w, p.user, p.at, r, u, left);
      }
    }
  }

  lemma {:induction false} CounterStep(w: World, step: Step, u: Uuid, left: nat)
    requires Inv(w) && CounterIs(w, u, left) && Enabled(w, step)
    ensures CounterIs(Apply(w, step), u, left + LeftBehind(w, step, u))
  {
    if step.Work? {
      CounterWork(w, step.result, u, left);
    } else {
      CounterOthers(w, step, u, left);
    }
  }

  lemma {:induction false} CounterAlways(w: World, steps: seq<Step>, u: Uuid)
    requires Initial(w) && IsRun(w, steps)
    ensures CounterIs(After(w, steps), u, Uncounted(w, steps, u))
    decreases |steps|
  {
    if steps == [] {
      Backfill.BootedCounter(w.t, w.boot.filled, u);
    } else {
      var front := steps[..|steps| - 1];
      InvAlways(w, front);
      CounterAlways(w, front, u);
      CounterStep(After(w, front), steps[|steps| - 1], u, Uncounted(w, front, u));
    }
  }

  /** Conservation inside the pipeline: on every run a user's event rows are the user's counter, one
      while the second write is due, and one for every row that a failure or a crash left behind
      without its count. Those are lost for good: counter and rows are equal exactly when no write
      is due and no row was ever left behind. */
  lemma {:induction false} CounterLaw(w: World, steps: seq<Step>, u: Uuid)
    requires Initial(w) && IsRun(w, steps)
    ensures var e := After(w, steps);
      && Ledger.Counter(e.t.over, u) + Owed(e, u) + Uncounted(w, steps, u) == Ledger.Rows(e.t.over, u)
      && (Ledger.Counter(e.t.over, u) == Ledger.Rows(e.t.over, u) <==> Owed(e, u) == 0 == Uncounted(w, steps, u))
  {
    CounterAlways(w, steps, u);
  }
}
