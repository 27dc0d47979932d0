/** A run that shows the bound of conservation.dfy is reached: a tilt statement that keeps failing
    makes the worker count one trade five times. */
module ConservationWitness {
  import opened Prelude
  import opened Codec
  import opened Trades
  import opened Store
  import opened Pipeline
  import D = Delivery
  import Conservation
  import EmotionStats
  import PlanAdherence

  lemma {:induction false} Extend(w: World, before: seq<Step>, step: Step, v: World)
    requires IsRun(w, before) && OneStep(After(w, before), step, v)
    ensures IsRun(w, before + [step]) && After(w, before + [step]) == v
  {
    assert (before + [step])[..|before + [step]| - 1] == before;
    assert [step][0] == step;
  }

  /** The one entry `p` is pending with the given count and has raised the counters `m` times; the
      worker is at `l`, and `process` at `stage`. */
  ghost predicate OnePending(v: World, ts: seq<Trade>, p: Payload, count: nat, l: D.Local, stage: Stage, m: nat) {
    && v.d.group == D.Group([p], 0, 1, map[0 := D.Pending(WORKER, count)], map[])
    && v.d.locals == map[WORKER := l] && v.stage == stage && v.t.trades == ts && v.bumped[0] == m
  }

  /** A run from `w` that ends so. */
  ghost predicate Leads(w: World, steps: seq<Step>, ts: seq<Trade>, p: Payload, count: nat, l: D.Local,
                        stage: Stage, m: nat) {
    IsRun(w, steps) && OnePending(After(w, steps), ts, p, count, l, stage, m)
  }

  // ---- The protocol around a call.

  lemma {:induction false} Moves(w: World, before: seq<Step>, s: D.Step, e: D.State)
    requires IsRun(w, before) && !s.Publish? && !s.Begin? && !s.Finish? && !s.Crash?
    requires D.Enabled(After(w, before).d, s) && e == D.Apply(After(w, before).d, s)
    ensures IsRun(w, before + [Deliver(s)]) && After(w, before + [Deliver(s)]) == After(w, before).(d := e)
  {
    DeliverStep(After(w, before), s, e);
    Extend(w, before, Deliver(s), After(w, before).(d := e));
  }

  lemma {:induction false} ReadOne(d: D.State, p: Payload)
    requires d.group == D.Group([p], 0, 0, map[], map[]) && d.locals == map[WORKER := D.Idle]
    ensures D.Enabled(d, D.ReadNew(WORKER, 1))
    ensures var e := D.Apply(d, D.ReadNew(WORKER, 1));
      && e.group == D.Group([p], 0, 1, map[0 := D.Pending(WORKER, 1)], map[])
      && e.locals == map[WORKER := D.Decoding([D.Handed(0, 1)], [])]
  {
    var e := D.Apply(d, D.ReadNew(WORKER, 1));
    assert e.group.pel == map[0 := D.Pending(WORKER, 1)];
    assert D.HandNew(0, 1) == [D.Handed(0, 1)];
  }

  lemma {:induction false} Look(w: World, before: seq<Step>, ts: seq<Trade>, p: Payload, n: nat)
    returns (steps: seq<Step>)
    requires Leads(w, before, ts, p, n, D.Idle, Resting, n)
    ensures Leads(w, steps, ts, p, n, D.Snapshot(map[0 := n]), Resting, n)
  {
    var d := After(w, before).d;
    var e := D.Apply(d, D.Inspect(WORKER, {0}));
    assert e.locals[WORKER].counts == map[0 := n];
    Moves(w, before, D.Inspect(WORKER, {0}), e);
    steps := before + [Deliver(D.Inspect(WORKER, {0}))];
  }

  lemma {:induction false} Take(w: World, before: seq<Step>, ts: seq<Trade>, p: Payload, n: nat)
    returns (steps: seq<Step>)
    requires Leads(w, before, ts, p, n, D.Snapshot(map[0 := n]), Resting, n)
    ensures Leads(w, steps, ts, p, n + 1, D.Decoding([D.Handed(0, n)], []), Resting, n)
  {
    var d := After(w, before).d;
    var e := D.Apply(d, D.Claim(WORKER, [0]));
    assert e.group.pel == map[0 := D.Pending(WORKER, n + 1)];
    assert D.HandClaimed([0], map[0 := n]) == [D.Handed(0, n)];
    Moves(w, before, D.Claim(WORKER, [0]), e);
    steps := before + [Deliver(D.Claim(WORKER, [0]))];
  }

  lemma {:induction false} DecodeIt(d: D.State, p: Payload, h: D.Handed)
    requires d.group.entries == [p] && d.locals == map[WORKER := D.Decoding([h], [])] && h.id == 0 && p.Closed?
    ensures D.Enabled(d, D.Decode(WORKER, true))
    ensures D.Apply(d, D.Decode(WORKER, true)) == d.(locals := map[WORKER := D.Decoding([], [h])])
  {
    assert [h][1..] == [] && [] + [h] == [h];
    assert d.locals[WORKER := D.Decoding([], [h])] == map[WORKER := D.Decoding([], [h])];
  }

  lemma {:induction false} Decode(w: World, before: seq<Step>, ts: seq<Trade>, p: Payload, n: nat, h: D.Handed, m: nat)
    returns (steps: seq<Step>)
    requires Leads(w, before, ts, p, n, D.Decoding([h], []), Resting, m) && h.id == 0 && p.Closed?
    ensures Leads(w, steps, ts, p, n, D.Decoding([], [h]), Resting, m)
  {
    var d := After(w, before).d;
    DecodeIt(d, p, h);
    Moves(w, before, D.Decode(WORKER, true), d.(locals := map[WORKER := D.Decoding([], [h])]));
    steps := before + [Deliver(D.Decode(WORKER, true))];
  }

  lemma {:induction false} Start(w: World, before: seq<Step>, ts: seq<Trade>, p: Payload, n: nat, h: D.Handed, m: nat)
    returns (steps: seq<Step>)
    requires Leads(w, before, ts, p, n, D.Decoding([], [h]), Resting, m)
    ensures Leads(w, steps, ts, p, n, D.Handling([h]), Resting, m)
  {
    var d := After(w, before).d;
    Moves(w, before, D.StartBatch(WORKER), D.Apply(d, D.StartBatch(WORKER)));
    steps := before + [Deliver(D.StartBatch(WORKER))];
  }

  lemma {:induction false} Begin(w: World, before: seq<Step>, ts: seq<Trade>, p: Payload, n: nat, h: D.Handed, m: nat)
    returns (steps: seq<Step>)
    requires Leads(w, before, ts, p, n, D.Handling([h]), Resting, m)
    requires h.id == 0 && h.count < D.MAX_DELIVERIES && p.Closed?
    ensures Leads(w, steps, ts, p, n, D.Running(h, []), PlanRead, m)
  {
    var v := After(w, before);
    assert [h][1..] == [];
    AppliesOneStep(v, BeginWork);
    Extend(w, before, BeginWork, Apply(v, BeginWork));
    steps := before + [BeginWork];
  }

  lemma {:induction false} End(w: World, before: seq<Step>, ts: seq<Trade>, p: Payload, n: nat, h: D.Handed, m: nat)
    returns (steps: seq<Step>)
    requires Leads(w, before, ts, p, n, D.Running(h, []), Done(1), m) && h.id == 0 && p.Closed?
    ensures Leads(w, steps, ts, p, n, D.Handling([]), Resting, m)
  {
    var v := After(w, before);
    AppliesOneStep(v, EndWork);
    Extend(w, before, EndWork, Apply(v, EndWork));
    steps := before + [EndWork];
  }

  lemma {:induction false} Rest(w: World, before: seq<Step>, ts: seq<Trade>, p: Payload, n: nat, m: nat)
    returns (steps: seq<Step>)
    requires Leads(w, before, ts, p, n, D.Handling([]), Resting, m)
    ensures Leads(w, steps, ts, p, n, D.Idle, Resting, m)
  {
    Moves(w, before, D.Rest(WORKER), D.Apply(After(w, before).d, D.Rest(WORKER)));
    steps := before + [Deliver(D.Rest(WORKER))];
  }

  // ---- The statements of a call in which only the tilt statement fails.

  lemma {:induction false} RunStatement(w: World, before: seq<Step>, r: Result)
    requires IsRun(w, before) && Enabled(After(w, before), Work(r)) && Task(After(w, before)).Closed?
    ensures IsRun(w, before + [Work(r)])
    ensures var v := After(w, before);
      After(w, before + [Work(r)]) == WorkClosed(v, Now(v), Task(v).trade, Task(v).user, Task(v).session, r)
  {
    var v := After(w, before);
    AppliesOneStep(v, Work(r));
    Extend(w, before, Work(r), Apply(v, Work(r)));
  }

  /** The stage after the rows were read: the upsert, unless there is no rated trade. */
  function AfterPlanRead(ts: seq<Trade>, u: Uuid): Stage {
    match PlanAdherence.Live(ts, u) case None => WinAdd(0) case Some(score) => PlanWrite(|ts|, score)
  }

  lemma {:induction false} Plan(w: World, before: seq<Step>, ts: seq<Trade>, p: Payload, n: nat, h: D.Handed, m: nat)
    returns (steps: seq<Step>)
    requires Leads(w, before, ts, p, n, D.Running(h, []), PlanRead, m) && h.id == 0 && p.Closed?
    ensures Leads(w, steps, ts, p, n, D.Running(h, []), AfterPlanRead(ts, p.user), m)
  {
    RunStatement(w, before, Ok);
    steps := before + [Work(Ok)];
  }

  lemma {:induction false} Score(w: World, before: seq<Step>, ts: seq<Trade>, p: Payload, n: nat, h: D.Handed, m: nat,
                                 stage: Stage)
    returns (steps: seq<Step>)
    requires Leads(w, before, ts, p, n, D.Running(h, []), stage, m) && stage.PlanWrite? && h.id == 0 && p.Closed?
    ensures Leads(w, steps, ts, p, n, D.Running(h, []), WinAdd(0), m)
  {
    RunStatement(w, before, Ok);
    steps := before + [Work(Ok)];
  }

  lemma {:induction false} Count(w: World, before: seq<Step>, ts: seq<Trade>, p: Payload, n: nat, h: D.Handed, m: nat)
    returns (steps: seq<Step>)
    requires Leads(w, before, ts, p, n, D.Running(h, []), WinAdd(0), m) && h.id == 0 && p.Closed?
    requires Find(ts, p.trade).Some? && EmotionStats.Rated(Find(ts, p.trade).value)
    ensures Leads(w, steps, ts, p, n, D.Running(h, []), TiltStore(0), m + 1)
  {
    RunStatement(w, before, Ok);
    steps := before + [Work(Ok)];
  }

  lemma {:induction false} FailTilt(w: World, before: seq<Step>, ts: seq<Trade>, p: Payload, n: nat,
                                    h: D.Handed, m: nat)
    returns (steps: seq<Step>)
    requires Leads(w, before, ts, p, n, D.Running(h, []), TiltStore(0), m) && h.id == 0 && p.Closed?
    ensures Leads(w, steps, ts, p, n, D.Running(h, []), Done(1), m)
  {
    RunStatement(w, before, Failed);
    steps := before + [Work(Failed)];
  }

  /** From a message in hand to rest: one more increment. */
  lemma {:induction false} Attempt(w: World, before: seq<Step>, ts: seq<Trade>, p: Payload, n: nat, h: D.Handed, m: nat)
    returns (steps: seq<Step>)
    requires Leads(w, before, ts, p, n, D.Decoding([h], []), Resting, m)
    requires h.id == 0 && h.count < D.MAX_DELIVERIES && p.Closed?
    requires Find(ts, p.trade).Some? && EmotionStats.Rated(Find(ts, p.trade).value)
    ensures Leads(w, steps, ts, p, n, D.Idle, Resting, m + 1)
  {
    steps := Decode(w, before, ts, p, n, h, m);
    steps := Start(w, steps, ts, p, n, h, m);
    steps := Begin(w, steps, ts, p, n, h, m);
    steps := Plan(w, steps, ts, p, n, h, m);
    if AfterPlanRead(ts, p.user).PlanWrite? {
      steps := Score(w, steps, ts, p, n, h, m, AfterPlanRead(ts, p.user));
    }
    steps := Count(w, steps, ts, p, n, h, m);
    steps := FailTilt(w, steps, ts, p, n, h, m + 1);
    steps := End(w, steps, ts, p, n, h, m + 1);
    steps := Rest(w, steps, ts, p, n, m + 1);
  }

  // ---- The whole run.

  lemma {:induction false} FreshProtocol(w: World)
    requires Fresh(w)
    ensures w.d.group == D.Group([], 0, 0, map[], map[]) && w.d.locals == map[WORKER := D.Idle]
  {
    assert w.d.locals.Keys == {WORKER};
  }

  lemma {:induction false} Submitted(w: World, in_: TradeInput)
    requires Fresh(w) && Storable(in_) && Find(w.t.trades, in_.id) == None
    ensures IsRun(w, [Submit(in_, Ok)])
    ensures var v := After(w, [Submit(in_, Ok)]);
      && v.d == w.d && v.stage == Resting && v.bumped == multiset{} && v.t.trades == w.t.trades + [RowOf(in_)]
      && v.jobs == map[in_.id := Job(Received(EventFor(RowOf(in_))), false)]
  {
    AppliesOneStep(w, Submit(in_, Ok));
    Extend(w, [], Submit(in_, Ok), Apply(w, Submit(in_, Ok)));
    assert [] + [Submit(in_, Ok)] == [Submit(in_, Ok)];
  }

  lemma {:induction false} Published(w: World, before: seq<Step>, x: Uuid)
    requires IsRun(w, before) && x in After(w, before).jobs
    requires After(w, before).d.group == D.Group([], 0, 0, map[], map[])
    ensures IsRun(w, before + [Xadd(x, true, false)])
    ensures var b, v := After(w, before), After(w, before + [Xadd(x, true, false)]);
      && v.d == b.d.(group := D.Group([b.jobs[x].payload], 0, 0, map[], map[]))
      && v.stage == b.stage && v.bumped == b.bumped && v.t == b.t
  {
    var b := After(w, before);
    AppliesOneStep(b, Xadd(x, true, false));
    Extend(w, before, Xadd(x, true, false), Apply(b, Xadd(x, true, false)));
    assert [] + [b.jobs[x].payload] == [b.jobs[x].payload];
  }

  /** The trade is submitted, published and read. */
  lemma {:induction false} FirstRead(w: World, in_: TradeInput) returns (steps: seq<Step>)
    requires Fresh(w) && Storable(in_) && Find(w.t.trades, in_.id) == None
    ensures Leads(w, steps, w.t.trades + [RowOf(in_)], Received(EventFor(RowOf(in_))), 1,
                  D.Decoding([D.Handed(0, 1)], []), Resting, 0)
  {
    var p := Received(EventFor(RowOf(in_)));
    FreshProtocol(w);
    Submitted(w, in_);
    steps := [Submit(in_, Ok)];
    Published(w, steps, in_.id);
    steps := steps + [Xadd(in_.id, true, false)];
    var d := After(w, steps).d;
    ReadOne(d, p);
    Moves(w, steps, D.ReadNew(WORKER, 1), D.Apply(d, D.ReadNew(WORKER, 1)));
    steps := steps + [Deliver(D.ReadNew(WORKER, 1))];
  }

  /** Five calls, each of which fails at the tilt statement only. */
  lemma {:induction false} FiveAttempts(w: World, in_: TradeInput) returns (steps: seq<Step>)
    requires Fresh(w) && Storable(in_) && Find(w.t.trades, in_.id) == None
    requires in_.status == Shut && EmotionStats.Rated(RowOf(in_)) && FourDigitYear(EventFor(RowOf(in_)).occurredAt)
    ensures Leads(w, steps, w.t.trades + [RowOf(in_)], Received(EventFor(RowOf(in_))), 5, D.Idle, Resting, 5)
  {
    var ts, p := w.t.trades + [RowOf(in_)], Received(EventFor(RowOf(in_)));
    EventForReceived(RowOf(in_));
    FindNew(w.t.trades, RowOf(in_), in_.id);
    steps := FirstRead(w, in_);
    steps := Attempt(w, steps, ts, p, 1, D.Handed(0, 1), 0);
    var n := 1;
    while n < 5
      invariant 1 <= n <= 5 && Leads(w, steps, ts, p, n, D.Idle, Resting, n)
    {
      steps := Look(w, steps, ts, p, n);
      steps := Take(w, steps, ts, p, n);
      steps := Attempt(w, steps, ts, p, n + 1, D.Handed(0, n), n);
      n := n + 1;
    }
  }

  lemma {:induction false} OneEntryCounts(ts: seq<Trade>, p: Payload, bumped: multiset<D.Id>,
                                          b: EmotionStats.Bucket, won: bool)
    requires Conservation.Qualifies(ts, p, b, won)
    ensures Conservation.Contribution(ts, [p], bumped, b, won) == bumped[0]
  {
    assert [p][..0] == [];
    assert Conservation.Contribution(ts, [], bumped, b, won) == 0;
  }

  /** The upper bound of the emotion counters is reached: from any start, for any closed trade with
      an emotion whose event can be read, there is a run (its calls fail at the tilt statement) in
      which one entry adds five to the counter of its side. */
  lemma {:induction false} FiveIncrementsAreReached(w: World, in_: TradeInput, b: EmotionStats.Bucket, won: bool)
    returns (steps: seq<Step>)
    requires Initial(w) && Storable(in_) && in_.status == Shut && Find(w.t.trades, in_.id) == None
    requires FourDigitYear(EventFor(RowOf(in_)).occurredAt) && EmotionStats.Counts(RowOf(in_), in_.user, b, won)
    ensures IsRun(w, steps)
    ensures var e := After(w, steps);
      && |e.d.group.entries| == 1 && e.bumped[0] == 5
      && EmotionStats.Side(EmotionStats.At(e.t.cells, b), won)
           == Conservation.CountedAtBoot(w, b, won) + 5
  {
    steps := FiveAttempts(w, in_);
    Conservation.EmotionConservation(w, steps, b, won);
    EventForReceived(RowOf(in_));
    FindNew(w.t.trades, RowOf(in_), in_.id);
    OneEntryCounts(w.t.trades + [RowOf(in_)], Received(EventFor(RowOf(in_))), After(w, steps).bumped, b, won);
  }
}
