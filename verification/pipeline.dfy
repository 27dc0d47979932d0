/** The whole pipeline with one worker: requests insert trades and start publish jobs, jobs append
    to the stream, and the worker runs its calculators statement by statement. Requests and jobs
    may act between any two statements of the worker, and every statement may succeed, fail, or
    be applied although it reports a failure. */
module Pipeline {
  import opened Prelude
  import opened Codec
  import opened Trades
  import opened Store
  import D = Delivery
  import PlanAdherence
  import SessionTilt
  import Revenge
  import EmotionStats
  import Overtrading
  import Ledger
  import Backfill

  /** A publish goroutine of one trade; `last` once the one retry is in use. */
  datatype Job = Job(payload: Payload, last: bool)

  /** Where `process` stands: the statement that comes next, and the failures so far. */
  datatype Stage =
    | Resting
    | RevengeLook
    | RevengeSet
    | RevengeBump
    | OverLook(failed: nat)
    | OverDedupe(count: nat, failed: nat)
    | OverAdd(count: nat, failed: nat)
    | OverBump(failed: nat)
    | OverEmit(failed: nat, last: bool)
    | PlanRead
    | PlanWrite(asOf: nat, score: PlanAdherence.Score)
    | WinAdd(failed: nat)
    | TiltStore(failed: nat)
    | Done(failed: nat)

  /** What the boot left: the number of trades that it found, and how many statements of its
      backfill, which computed the stored metrics from them, took effect. */
  datatype Boot = Boot(seeded: nat, filled: nat)

  /** `planAsOf` and `tiltAsOf` remember how many trades the stored score and tilt were computed
      from; `bumped` counts the increments made for each stream entry: of an emotion counter for a
      closed event, of the revenge counter for an opened one. */
  datatype World = World(
    d: D.State, t: Tables, jobs: map<Uuid, Job>, stage: Stage, boot: Boot,
    planAsOf: map<Uuid, nat>, tiltAsOf: map<Uuid, nat>, bumped: multiset<D.Id>)

  datatype Step =
    | Submit(in_: TradeInput, result: Result)
    | Xadd(trade: Uuid, appended: bool, again: bool)
    | Deliver(step: D.Step)
    | BeginWork
    | Work(result: Result)
    | Emit(appended: bool, again: bool)
    | EndWork

  const WORKER := 0

  function Received(ev: Event): Payload {
    Classify(Encode(ev))
  }

  predicate Busy(w: World) {
    && WORKER in w.d.locals && w.d.locals[WORKER].Running?
    && w.d.locals[WORKER].now.id < |w.d.group.entries|
  }

  function Now(w: World): D.Id
    requires Busy(w)
  {
    w.d.locals[WORKER].now.id
  }

  function Task(w: World): Payload
    requires Busy(w)
  {
    w.d.group.entries[Now(w)]
  }

  function FirstStatement(p: Payload): Stage {
    if p.Opened? then RevengeLook else if p.Closed? then PlanRead else Done(0)
  }

  predicate Enabled(w: World, step: Step) {
    match step
    case Submit(_, _) => true
    case Xadd(x, _, again) => x in w.jobs && (again ==> !w.jobs[x].last)
    case Deliver(s) => !s.Publish? && !s.Begin? && !s.Finish? && D.Enabled(w.d, s)
    case BeginWork =>
      D.Enabled(w.d, D.Begin(WORKER)) && w.d.locals[WORKER].batch[0].id < |w.d.group.entries|
    case Work(_) => Busy(w) && !w.stage.Resting? && !w.stage.OverEmit? && !w.stage.Done?
    case Emit(_, again) => Busy(w) && Task(w).Opened? && w.stage.OverEmit? && (again ==> !w.stage.last)
    case EndWork => Busy(w) && w.stage.Done?
  }

  function Apply(w: World, step: Step): World
    requires Enabled(w, step)
  {
    match step
    case Submit(in_, r) => SubmitTrade(w, in_, r)
    case Xadd(x, appended, again) =>
      var v := w.(jobs := if again then w.jobs[x := w.jobs[x].(last := true)] else w.jobs - {x});
      if appended then Append(v, w.jobs[x].payload) else v
    case Deliver(s) => w.(d := D.Apply(w.d, s), stage := if s.Crash? && s.c == WORKER then Resting else w.stage)
    case BeginWork =>
      var p := w.d.group.entries[w.d.locals[WORKER].batch[0].id];
      w.(d := D.Apply(w.d, D.Begin(WORKER)), stage := FirstStatement(p))
    case Work(r) =>
      (match Task(w)
       case Opened(x, u, at) => WorkOpened(w, Now(w), x, u, at, r)
       case Closed(x, u, s) => WorkClosed(w, Now(w), x, u, s, r)
       case _ => w)
    case Emit(appended, again) =>
      var v := w.(stage := if again then OverEmit(w.stage.failed, true) else Done(w.stage.failed));
      if appended then Append(v, Received(OvertradingEvent(Task(w).user, Task(w).at))) else v
    case EndWork => w.(d := D.Apply(w.d, D.Finish(WORKER, w.stage.failed)), stage := Resting)
  }

  function Append(w: World, p: Payload): World {
    w.(d := D.Apply(w.d, D.Publish(p)))
  }

  /** INSERT ... ON CONFLICT DO NOTHING. Only a reported insertion starts a publish job. */
  function SubmitTrade(w: World, in_: TradeInput, r: Result): World {
    if r.Failed? || !Storable(in_) || Find(w.t.trades, in_.id).Some? then w
    else
      var v := w.(t := Insert(w.t, in_));
      if r.Ok? then v.(jobs := v.jobs[in_.id := Job(Received(EventFor(RowOf(in_))), false)]) else v
  }

  // ---- trade.opened: the revenge flag, then overtrading.

  function WorkOpened(w: World, id: D.Id, x: Uuid, u: Uuid, at: int, r: Result): World {
    if w.stage.RevengeLook? || w.stage.RevengeSet? || w.stage.RevengeBump? then WorkRevenge(w, id, x, u, r)
    else WorkOvertrading(w, u, at, r)
  }

  function WorkRevenge(w: World, id: D.Id, x: Uuid, u: Uuid, r: Result): World {
    match w.stage
    case RevengeLook => LookForLoss(w, x, u, r)
    case RevengeSet => RaiseFlag(w, x, r)
    case RevengeBump => CountRevenge(w, id, u, r)
    case _ => w
  }

  function LookForLoss(w: World, x: Uuid, u: Uuid, r: Result): World {
    if !r.Ok? || Find(w.t.trades, x).None? then w.(stage := OverLook(1))
    else if Revenge.LiveFlag(w.t.trades, u, Find(w.t.trades, x).value) then w.(stage := RevengeSet)
    else w.(stage := OverLook(0))
  }

  function RaiseFlag(w: World, x: Uuid, r: Result): World {
    w.(t := if r.Failed? then w.t else SetFlag(w.t, x), stage := if r.Ok? then RevengeBump else OverLook(1))
  }

  function CountRevenge(w: World, id: D.Id, u: Uuid, r: Result): World {
    w.(t := if r.Failed? then w.t else BumpRevenge(w.t, u),
       bumped := if r.Failed? then w.bumped else w.bumped + multiset{id},
       stage := OverLook(if r.Ok? then 0 else 1))
  }

  function WorkOvertrading(w: World, u: Uuid, at: int, r: Result): World {
    match w.stage
    case OverLook(failed) => CountOpens(w, u, at, failed, r)
    case OverDedupe(count, failed) => LookForEvent(w, u, at, count, failed, r)
    case OverAdd(count, failed) => RecordEvent(w, u, at, count, failed, r)
    case OverBump(failed) => CountEvent(w, u, failed, r)
    case _ => w
  }

  function CountOpens(w: World, u: Uuid, at: int, failed: nat, r: Result): World {
    var count := |Filter(EntriesOf(w.t.trades, u), Overtrading.Covers(at))|;
    w.(stage := if !r.Ok? then Done(failed + 1)
                else if count <= Overtrading.THRESHOLD then Done(failed) else OverDedupe(count, failed))
  }

  function LookForEvent(w: World, u: Uuid, at: int, count: nat, failed: nat, r: Result): World {
    var seen := Filter(Ledger.EventsOf(w.t.over.rows, u), Overtrading.EndIn(at)) != [];
    w.(stage := if !r.Ok? then Done(failed + 1) else if seen then Done(failed) else OverAdd(count, failed))
  }

  function RecordEvent(w: World, u: Uuid, at: int, count: nat, failed: nat, r: Result): World {
    var e := Overtrading.Detected(at - Overtrading.WINDOW, at, count);
    w.(t := if r.Failed? then w.t else AddEvent(w.t, u, e),
       stage := if r.Ok? then OverBump(failed) else Done(failed + 1))
  }

  function CountEvent(w: World, u: Uuid, failed: nat, r: Result): World {
    w.(t := if r.Failed? then w.t else BumpOvertrading(w.t, u),
       stage := if r.Ok? then OverEmit(failed, false) else Done(failed + 1))
  }

  // ---- trade.closed: plan adherence, win rate, session tilt.

  function WorkClosed(w: World, id: D.Id, x: Uuid, u: Uuid, s: Uuid, r: Result): World {
    match w.stage
    case PlanRead => ReadPlan(w, u, r)
    case PlanWrite(asOf, score) => WritePlan(w, u, asOf, score, r)
    case WinAdd(failed) => AddOutcome(w, id, x, u, failed, r)
    case TiltStore(failed) => StoreTilt(w, s, failed, r)
    case _ => w
  }

  function ReadPlan(w: World, u: Uuid, r: Result): World {
    if !r.Ok? then w.(stage := WinAdd(1))
    else
      match PlanAdherence.Live(w.t.trades, u)
      case None => w.(stage := WinAdd(0), planAsOf := w.planAsOf[u := |w.t.trades|])
      case Some(score) => w.(stage := PlanWrite(|w.t.trades|, score))
  }

  function WritePlan(w: World, u: Uuid, asOf: nat, score: PlanAdherence.Score, r: Result): World {
    if r.Failed? then w.(stage := WinAdd(1))
    else w.(t := SetScore(w.t, u, score), planAsOf := w.planAsOf[u := asOf], stage := WinAdd(if r.Ok? then 0 else 1))
  }

  function AddOutcome(w: World, id: D.Id, x: Uuid, u: Uuid, failed: nat, r: Result): World {
    if r.Failed? || Find(w.t.trades, x).None? then w.(stage := TiltStore(failed + 1))
    else
      var row := Find(w.t.trades, x).value;
      w.(t := RecordEmotion(w.t, u, row),
         bumped := if EmotionStats.Rated(row) then w.bumped + multiset{id} else w.bumped,
         stage := TiltStore(if r.Ok? then failed else failed + 1))
  }

  function StoreTilt(w: World, s: Uuid, failed: nat, r: Result): World {
    var tilt := SessionTilt.Live(w.t.trades, s);
    if r.Failed? || tilt.Conflict? then w.(stage := Done(failed + 1))
    else
      w.(t := if tilt.Row? then SetTilt(w.t, s, tilt) else w.t,
         tiltAsOf := w.tiltAsOf[s := |w.t.trades|],
         stage := Done(if r.Ok? then failed else failed + 1))
  }

  // ---- Runs.

  /** The tables as the boot leaves them, whether its backfill was completed or not, no jobs, a fresh group and one
      idle worker. */
  ghost predicate Initial(w: World) {
    Fresh(w) && Backfill.Booted(w.t, w.boot.filled)
  }

  predicate Fresh(w: World) {
    && D.Initial(w.d) && w.d.locals.Keys == {WORKER} && w.d.group.entries == []
    && w.jobs == map[] && w.stage == Resting
    && w.boot.seeded == |w.t.trades| && w.planAsOf == map[] && w.tiltAsOf == map[] && w.bumped == multiset{}
  }

  ghost predicate IsRun(w: World, steps: seq<Step>)
    decreases |steps|, 0
  {
    steps == [] || (IsRun(w, steps[..|steps| - 1]) && Enabled(After(w, steps[..|steps| - 1]), steps[|steps| - 1]))
  }

  ghost function After(w: World, steps: seq<Step>): World
    requires IsRun(w, steps)
    decreases |steps|, 1
  {
    if steps == [] then w else Apply(After(w, steps[..|steps| - 1]), steps[|steps| - 1])
  }

  /** A run together with the states that it passes through. */
  ghost predicate IsHistory(worlds: seq<World>, steps: seq<Step>) {
    && |worlds| == |steps| + 1
    && forall i {:trigger steps[i]} :: 0 <= i < |steps| ==>
         Enabled(worlds[i], steps[i]) && worlds[i + 1] == Apply(worlds[i], steps[i])
  }

  /** The XADD commands that the worker sent for notices. */
  function EmitsIn(steps: seq<Step>): nat {
    if steps == [] then 0 else EmitsIn(steps[..|steps| - 1]) + if steps[|steps| - 1].Emit? then 1 else 0
  }

  lemma {:induction false} OneMoreStep(steps: seq<Step>, step: Step)
    ensures EmitsIn(steps + [step]) == EmitsIn(steps) + if step.Emit? then 1 else 0
  {
    assert (steps + [step])[..|steps|] == steps;
  }

  ghost predicate OneStep(w: World, step: Step, v: World) {
    IsHistory([w, v], [step])
  }

  lemma {:induction false} AppliesOneStep(w: World, step: Step)
    requires Enabled(w, step)
    ensures OneStep(w, step, Apply(w, step))
  {
    assert [step][0] == step;
  }

  /** A step of the protocol between two calls of `process`. */
  lemma {:induction false} DeliverStep(w: World, s: D.Step, e: D.State)
    requires !s.Publish? && !s.Begin? && !s.Finish? && D.Enabled(w.d, s) && e == D.Apply(w.d, s)
    ensures OneStep(w, Deliver(s), w.(d := e, stage := if s.Crash? && s.c == WORKER then Resting else w.stage))
  {
    AppliesOneStep(w, Deliver(s));
  }

  lemma {:induction false} SubmitStep(w: World, in_: TradeInput, r: Result)
    ensures OneStep(w, Submit(in_, r), SubmitTrade(w, in_, r))
  {
    AppliesOneStep(w, Submit(in_, r));
  }

  lemma {:induction false} HistoryGrows(worlds: seq<World>, steps: seq<Step>, step: Step, v: World)
    requires IsHistory(worlds, steps) && OneStep(worlds[|steps|], step, v)
    ensures IsHistory(worlds + [v], steps + [step])
  {
    assert [step][0] == step;
  }

  lemma {:induction false} HistoryIsRun(worlds: seq<World>, steps: seq<Step>)
    requires IsHistory(worlds, steps)
    ensures IsRun(worlds[0], steps) && After(worlds[0], steps) == worlds[|steps|]
    decreases |steps|
  {
    if steps != [] {
      var n := |steps| - 1;
      assert forall i :: 0 <= i < n ==> steps[..n][i] == steps[i];
      HistoryIsRun(worlds[..n + 1], steps[..n]);
    }
  }

  lemma {:induction false} TwoSteps(w: World, first: Step, v: World, second: Step, e: World)
    requires OneStep(w, first, v) && OneStep(v, second, e)
    ensures IsRun(w, [first, second]) && After(w, [first, second]) == e
  {
    HistoryGrows([w, v], [first], second, e);
    assert [w, v] + [e] == [w, v, e] && [first] + [second] == [first, second];
    HistoryIsRun([w, v, e], [first, second]);
  }

  // ---- Every run of the pipeline drives the delivery protocol through a run of its own.

  lemma {:induction false} StepOfDelivery(w: World, step: Step) returns (s: Option<D.Step>)
    requires Enabled(w, step)
    ensures s.None? ==> Apply(w, step).d == w.d
    ensures s.Some? ==> D.Enabled(w.d, s.value) && Apply(w, step).d == D.Apply(w.d, s.value)
  {
    match step
    case Xadd(x, appended, again) => s := if appended then Some(D.Publish(w.jobs[x].payload)) else None;
    case Emit(appended, again) =>
      s := if appended then Some(D.Publish(Received(OvertradingEvent(Task(w).user, Task(w).at)))) else None;
    case Deliver(t) => s := Some(t);
    case BeginWork => s := Some(D.Begin(WORKER));
    case EndWork => s := Some(D.Finish(WORKER, w.stage.failed));
    case _ => s := None;
  }

  /** Refinement: the protocol's safety theorems hold of the pipeline's group. */
  lemma {:induction false} RefinesDelivery(w: World, steps: seq<Step>) returns (ds: seq<D.Step>)
    requires IsRun(w, steps)
    ensures D.IsRun(w.d, ds) && D.After(w.d, ds) == After(w, steps).d
    decreases |steps|
  {
    if steps == [] {
      ds := [];
    } else {
      ds := RefinesDelivery(w, steps[..|steps| - 1]);
      var s := StepOfDelivery(After(w, steps[..|steps| - 1]), steps[|steps| - 1]);
      if s.Some? {
        assert (ds + [s.value])[..|ds + [s.value]| - 1] == ds;
        ds := ds + [s.value];
      }
    }
  }
}
