/** What the request path puts on the stream: at most two XADDs for a trade, and nothing malformed. */
module Publishing {
  import opened Prelude
  import opened Codec
  import opened Trades
  import opened Store
  import opened Pipeline
  import opened Consistency
  import Effects
  import D = Delivery
  import DS = DeliverySafety

  predicate About(p: Payload, x: Uuid) {
    (p.Opened? || p.Closed?) && p.trade == x
  }

  /** The stream entries that carry an event of trade `x`. */
  function EntriesAbout(entries: seq<Payload>, x: Uuid): nat {
    if entries == [] then 0
    else EntriesAbout(entries[..|entries| - 1], x) + if About(entries[|entries| - 1], x) then 1 else 0
  }

  /** The XADD commands that a run sends for trade `x`, answered or not. */
  function XaddsFor(steps: seq<Step>, x: Uuid): nat {
    if steps == [] then 0
    else
      var last := steps[|steps| - 1];
      XaddsFor(steps[..|steps| - 1], x) + if last.Xadd? && last.trade == x then 1 else 0
  }

  /** XADDs that may still be sent for trade `x`. */
  function Budget(w: World, x: Uuid): nat {
    if x in w.jobs then (if w.jobs[x].last then 1 else 2)
    else if Find(w.t.trades, x).Some? then 0 else 2
  }

  ghost predicate JobsOk(w: World) {
    forall x :: x in w.jobs ==> Find(w.t.trades, x).Some? && forall y :: About(w.jobs[x].payload, y) ==> y == x
  }

  lemma {:induction false} AppendedOne(entries: seq<Payload>, p: Payload, x: Uuid)
    ensures EntriesAbout(entries + [p], x) == EntriesAbout(entries, x) + if About(p, x) then 1 else 0
  {
    assert (entries + [p])[..|entries|] == entries;
  }

  // ---- Each kind of step against the budget.

  lemma {:induction false} JobsGrow(w: World, v: World, row: Trade)
    requires JobsOk(w) && Storable(row.input) && v.t.trades == w.t.trades + [row]
    requires v.jobs == w.jobs || v.jobs == w.jobs[row.input.id := Job(Received(EventFor(row)), false)]
    ensures JobsOk(v)
  {
    EventForReceived(row);
    forall y | y in v.jobs
      ensures Find(v.t.trades, y).Some?
    {
      FindNew(w.t.trades, row, y);
    }
  }

  lemma {:induction false} BudgetGrows(w: World, v: World, row: Trade, x: Uuid)
    requires JobsOk(w) && Find(w.t.trades, row.input.id) == None && v.t.trades == w.t.trades + [row]
    requires v.jobs == w.jobs || v.jobs == w.jobs[row.input.id := Job(Received(EventFor(row)), false)]
    ensures Budget(v, x) <= Budget(w, x)
  {
    FindNew(w.t.trades, row, x);
  }

  lemma {:induction false} BudgetSubmit(w: World, in_: TradeInput, r: Result, x: Uuid)
    requires JobsOk(w)
    ensures var v := Apply(w, Submit(in_, r));
      JobsOk(v) && Budget(v, x) <= Budget(w, x) && v.d == w.d
  {
    var v := Apply(w, Submit(in_, r));
    if v.t.trades != w.t.trades {
      JobsGrow(w, v, RowOf(in_));
      BudgetGrows(w, v, RowOf(in_), x);
    }
  }

  lemma {:induction false} BudgetXadd(w: World, y: Uuid, appended: bool, again: bool, x: Uuid)
    requires JobsOk(w) && Enabled(w, Xadd(y, appended, again))
    ensures var v := Apply(w, Xadd(y, appended, again));
      && JobsOk(v) && Budget(v, x) + (if x == y then 1 else 0) <= Budget(w, x)
      && EntriesAbout(v.d.group.entries, x) <= EntriesAbout(w.d.group.entries, x) + if x == y then 1 else 0
  {
    AppendedOne(w.d.group.entries, w.jobs[y].payload, x);
  }

  lemma {:induction false} NoticeIsAboutNoTrade(u: Uuid, at: int, x: Uuid)
    ensures !About(Received(OvertradingEvent(u, at)), x)
  {
    OvertradingEventReceived(u, at);
  }

  lemma {:induction false} BudgetEmit(w: World, appended: bool, again: bool, x: Uuid)
    requires JobsOk(w) && Enabled(w, Emit(appended, again))
    ensures var v := Apply(w, Emit(appended, again));
      && JobsOk(v) && Budget(v, x) == Budget(w, x)
      && EntriesAbout(v.d.group.entries, x) == EntriesAbout(w.d.group.entries, x)
  {
    NoticeIsAboutNoTrade(Task(w).user, Task(w).at, x);
    AppendedOne(w.d.group.entries, Received(OvertradingEvent(Task(w).user, Task(w).at)), x);
  }

  /** The worker's own steps neither add rows, nor start jobs, nor append. */
  lemma {:induction false} BudgetWorker(w: World, step: Step, x: Uuid)
    requires Inv(w) && Enabled(w, step) && (step.Deliver? || step.BeginWork? || step.EndWork?)
    ensures var v := Apply(w, step);
      v.jobs == w.jobs && v.t.trades == w.t.trades && v.d.group.entries == w.d.group.entries
  {
    match step
    case Deliver(s) => OutsideProcess(w.d, s);
    case BeginWork =>
    case EndWork => FinishedClean(w);
  }

  lemma {:induction false} BudgetWork(w: World, r: Result)
    requires Enabled(w, Work(r))
    ensures var v := Apply(w, Work(r)); v.jobs == w.jobs && v.t.trades == w.t.trades && v.d == w.d
  {
    var p := Task(w);
    if p.Opened? {
      OpenedKeepsSnapshots(w, Now(w), p.trade, p.user, p.at, r);
    } else if p.Closed? {
      Effects.ClosedWork(w, Now(w), p.trade, p.user, p.session, r);
    }
  }

  lemma {:induction false} BudgetStep(w: World, step: Step, x: Uuid)
    requires Inv(w) && JobsOk(w) && Enabled(w, step)
    ensures var v := Apply(w, step);
      var sent := if step.Xadd? && step.trade == x then 1 else 0;
      && JobsOk(v) && Budget(v, x) + sent <= Budget(w, x)
      && EntriesAbout(v.d.group.entries, x) <= EntriesAbout(w.d.group.entries, x) + sent
  {
    match step
    case Submit(in_, r) => BudgetSubmit(w, in_, r, x);
    case Xadd(y, appended, again) => BudgetXadd(w, y, appended, again, x);
    case Emit(appended, again) => BudgetEmit(w, appended, again, x);
    case Work(r) => BudgetWork(w, r);
    case _ => BudgetWorker(w, step, x);
  }

  lemma {:induction false} BudgetAlways(w: World, steps: seq<Step>, x: Uuid)
    requires Initial(w) && IsRun(w, steps)
    ensures var e := After(w, steps);
      && JobsOk(e) && XaddsFor(steps, x) + Budget(e, x) <= Budget(w, x)
      && EntriesAbout(e.d.group.entries, x) <= XaddsFor(steps, x)
    decreases |steps|
  {
    if steps != [] {
      InvAlways(w, steps[..|steps| - 1]);
      BudgetAlways(w, steps[..|steps| - 1], x);
      BudgetStep(After(w, steps[..|steps| - 1]), steps[|steps| - 1], x);
    }
  }

  /** However often a trade is submitted, at most two XADDs are ever sent for it, and the stream
      holds at most two of its events; for a trade that was there at boot there are none. */
  lemma {:induction false} AtMostTwoEvents(w: World, steps: seq<Step>, x: Uuid)
    requires Initial(w) && IsRun(w, steps)
    ensures EntriesAbout(After(w, steps).d.group.entries, x) <= XaddsFor(steps, x) <= 2
    ensures Find(w.t.trades, x).Some? ==> XaddsFor(steps, x) == 0
  {
    BudgetAlways(w, steps, x);
  }

  /** No entry that the system itself wrote is malformed, none names a trade that is not stored,
      and no message is ever dropped as poison. */
  lemma {:induction false} OwnEventsAreWellFormed(w: World, steps: seq<Step>, id: D.Id)
    requires Initial(w) && IsRun(w, steps) && id < |After(w, steps).d.group.entries|
    ensures var e := After(w, steps);
      var p := e.d.group.entries[id];
      && !p.Malformed?
      && (p.Opened? || p.Closed? ==>
            exists t :: t in e.t.trades && t.input.id == p.trade && t.input.user == p.user
              && (p.Closed? <==> t.input.status == Shut))
      && (id in e.d.group.acked ==> !e.d.group.acked[id].why.Poison?)
  {
    InvAlways(w, steps);
    var e := After(w, steps);
    var p := e.d.group.entries[id];
    assert FromTable(e.t.trades, p);
    if p.Opened? || p.Closed? {
      FindSome(e.t.trades, p.trade);
    }
    if id in e.d.group.acked {
      assert DS.Justified(e.d, id, e.d.group.acked[id].why, e.d.group.acked[id].count);
    }
  }
}
