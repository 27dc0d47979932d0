/** The running system: the tables in Postgres, the stream in Redis and the publish goroutines as
    mutable state, with one method per request, SQL statement or Redis command. Before every
    statement of the worker any number of requests and goroutines may act. A ghost history ties
    each object to the state machine of pipeline.dfy: whatever the code does is one of its runs. */
module RunningSystem {
  import opened Prelude
  import opened Codec
  import opened Trades
  import opened Store
  import opened Pipeline
  import D = Delivery
  import Backfill

  /** The stream grew and nothing else changed in the protocol. */
  ghost predicate StreamGrew(a: D.State, b: D.State) {
    a.group.entries <= b.group.entries && b == a.(group := a.group.(entries := b.group.entries))
  }

  /** Others inserted trades and published; the worker and its metrics stand still. */
  ghost predicate Meanwhile(a: World, b: World) {
    && a.t.trades <= b.t.trades && b.t == a.t.(trades := b.t.trades)
    && StreamGrew(a.d, b.d)
    && b.stage == a.stage && b.planAsOf == a.planAsOf && b.tiltAsOf == a.tiltAsOf && b.bumped == a.bumped
  }

  lemma {:induction false} SubmitMeanwhile(w: World, in_: TradeInput, r: Result)
    ensures Meanwhile(w, SubmitTrade(w, in_, r))
  {
  }

  /** The rows and the goroutines after an insertion with the given outcome. */
  function Stored(ts: seq<Trade>, in_: TradeInput, result: Result): seq<Trade> {
    if result == Failed || !Storable(in_) || Find(ts, in_.id).Some? then ts else ts + [RowOf(in_)]
  }

  function Started(jobs: map<Uuid, Job>, inserted: bool, in_: TradeInput): map<Uuid, Job> {
    if inserted then jobs[in_.id := Job(Received(EventFor(RowOf(in_))), false)] else jobs
  }

  lemma {:induction false} StoredRow(ts: seq<Trade>, in_: TradeInput, result: Result)
    requires UniqueIds(ts)
    ensures UniqueIds(Stored(ts, in_, result))
    ensures Stored(ts, in_, result) != ts ==> Find(Stored(ts, in_, result), in_.id) == Some(RowOf(in_))
  {
    if Find(ts, in_.id) == None {
      FindNew(ts, RowOf(in_), in_.id);
      UniqueGrows(ts, RowOf(in_));
    }
  }

  /** The world after an XADD of the goroutine of trade `x`. */
  function AfterXadd(w: World, x: Uuid, appended: bool, again: bool): World
    requires x in w.jobs
  {
    w.(jobs := if again then w.jobs[x := Job(w.jobs[x].payload, true)] else w.jobs - {x},
       d := w.d.(group := w.d.group.(entries :=
              if appended then w.d.group.entries + [w.jobs[x].payload] else w.d.group.entries)))
  }

  lemma {:induction false} XaddStep(w: World, x: Uuid, appended: bool, again: bool)
    requires x in w.jobs && (again ==> !w.jobs[x].last)
    ensures OneStep(w, Xadd(x, appended, again), AfterXadd(w, x, appended, again))
    ensures Meanwhile(w, AfterXadd(w, x, appended, again))
  {
    AppliesOneStep(w, Xadd(x, appended, again));
  }

  lemma {:induction false} MeanwhileTwice(a: World, b: World, c: World)
    requires Meanwhile(a, b) && Meanwhile(b, c)
    ensures Meanwhile(a, c)
  {
  }

  class Cluster {
    // Postgres
    var t: Tables
    // the Redis stream, the cursor of its group and the pending entries list
    var entries: seq<Payload>
    var next: nat
    var pel: map<D.Id, D.Pending>
    // the publish goroutines in flight
    var jobs: map<Uuid, Job>
    // the history, from the state that the boot left
    ghost const first: World
    ghost var worlds: seq<World>
    ghost var steps: seq<Step>
    ghost var w: World

    ghost predicate History()
      reads this
    {
      IsHistory(worlds, steps) && worlds[0] == first && w == worlds[|steps|]
    }

    ghost predicate Mirrors()
      reads this
    {
      && w.t == t && UniqueIds(t.trades)
      && next <= |entries| && (forall id :: id in pel ==> id < next)
      && w.d.group.entries == entries && w.d.group.next == next && w.d.group.pel == pel && w.jobs == jobs
    }

    ghost predicate Valid()
      reads this
    {
      History() && Mirrors()
    }

    ghost predicate FromBoot() {
      Initial(first)
    }

    /** A new stream and group beside the tables that the boot left. */
    constructor (tables: Tables, ghost filled: nat)
      requires Backfill.Booted(tables, filled)
      ensures Valid() && FromBoot() && w == first
      ensures t == tables && entries == [] && pel == map[] && jobs == map[]
      ensures w.d.locals == map[WORKER := D.Idle] && first.boot.filled == filled
    {
      t, entries, next, pel, jobs := tables, [], 0, map[], map[];
      ghost var start := World(
        D.State(D.Group([], 0, 0, map[], map[]), map[WORKER := D.Idle], multiset{}, multiset{}, {}),
        tables, map[], Resting, Boot(|tables.trades|, filled), map[], map[], multiset{});
      first, worlds, steps, w := start, [start], [], start;
    }

    /** Records one step in the history. */
    ghost method Log(step: Step, v: World)
      requires History() && OneStep(w, step, v)
      modifies this`worlds, this`steps, this`w
      ensures History() && w == v && EmitsIn(steps) == old(EmitsIn(steps)) + if step.Emit? then 1 else 0
    {
      OneMoreStep(steps, step);
      HistoryGrows(worlds, steps, step, v);
      worlds, steps, w := worlds + [v], steps + [step], v;
    }

    /** So every theorem about runs of the pipeline speaks of this object. */
    lemma {:induction false} IsReached()
      requires History() && FromBoot()
      ensures Initial(first) && IsRun(first, steps) && After(first, steps) == w
    {
      HistoryIsRun(worlds, steps);
    }

    /** INSERT ... ON CONFLICT DO NOTHING RETURNING, and the fetch of the row that was there first. */
    method Insert(in_: TradeInput, result: Result) returns (row: Option<Trade>, inserted: bool)
      modifies this`t
      ensures result == Failed || !Storable(in_) ==> t == old(t) && row == None && !inserted
      ensures result != Failed && Storable(in_) && Find(old(t.trades), in_.id) == None ==>
        && t == old(t).(trades := old(t.trades) + [RowOf(in_)]) && inserted == (result == Ok)
        && row == if result == Ok then Some(RowOf(in_)) else None
      ensures result != Failed && Storable(in_) && Find(old(t.trades), in_.id).Some? ==>
        t == old(t) && !inserted && row == if result == Ok then Find(old(t.trades), in_.id) else None
      ensures t == old(t).(trades := Stored(old(t.trades), in_, result))
    {
      row, inserted := None, false;
      if result != Failed && Storable(in_) {
        var found := Find(t.trades, in_.id);
        if found == None {
          t := t.(trades := t.trades + [RowOf(in_)]);
          inserted := result == Ok;
          row := if result == Ok then Some(RowOf(in_)) else None;
        } else {
          row := if result == Ok then found else None;
        }
      }
    }

    /** The insertion in the history. */
    ghost method LogSubmit(in_: TradeInput, result: Result)
      requires History()
      modifies this`worlds, this`steps, this`w
      ensures History() && Meanwhile(old(w), w) && w.d == old(w.d) && EmitsIn(steps) == old(EmitsIn(steps))
      ensures w.t == old(w.t).(trades := Stored(old(w.t.trades), in_, result))
      ensures w.jobs ==
        Started(old(w.jobs), result == Ok && Storable(in_) && Find(old(w.t.trades), in_.id) == None, in_)
    {
      SubmitStep(w, in_, result);
      SubmitMeanwhile(w, in_, result);
      Log(Submit(in_, result), SubmitTrade(w, in_, result));
    }

    /** POST /trades: insert, and start a publish goroutine only when the row is new. `result` is the
        outcome of the statement. */
    method Create(in_: TradeInput, result: Result) returns (row: Option<Trade>, inserted: bool)
      requires Valid()
      modifies this
      ensures Valid() && Meanwhile(old(w), w) && EmitsIn(steps) == old(EmitsIn(steps))
      ensures t == old(t).(trades := Stored(old(t.trades), in_, result))
      ensures row == if result == Ok && Storable(in_) then Find(t.trades, in_.id) else None
      ensures inserted <==> result == Ok && Storable(in_) && Find(old(t.trades), in_.id) == None
      ensures inserted ==> row == Some(RowOf(in_))
      ensures jobs == Started(old(jobs), inserted, in_) && entries == old(entries)
    {
      StoredRow(t.trades, in_, result);
      LogSubmit(in_, result);
      row, inserted := Insert(in_, result);
      if inserted {
        jobs := jobs[in_.id := Job(Received(EventFor(row.value)), false)];
      }
    }

    /** One XADD of a publish goroutine: `answer` is its outcome, and `alive` says that the time of the
        request is not up. It is retried once. */
    method PublishOnce(x: Uuid, answer: Result, alive: bool)
      requires Valid() && x in jobs
      modifies this
      ensures Valid() && Meanwhile(old(w), w) && EmitsIn(steps) == old(EmitsIn(steps))
      ensures entries == old(entries) + if answer.Failed? then [] else [old(jobs[x].payload)]
      ensures jobs == if answer != Ok && alive && !old(jobs[x].last)
                      then old(jobs)[x := Job(old(jobs[x].payload), true)] else old(jobs) - {x}
      ensures t == old(t)
    {
      var again := answer != Ok && alive && !jobs[x].last;
      XaddStep(w, x, !answer.Failed?, again);
      Log(Xadd(x, !answer.Failed?, again), AfterXadd(w, x, !answer.Failed?, again));
      if !answer.Failed? {
        entries := entries + [jobs[x].payload];
      }
      jobs := if again then jobs[x := jobs[x].(last := true)] else jobs - {x};
    }

    /** Whatever requests and goroutines do between two statements of the worker. */
    method Others()
      requires Valid()
      modifies this
      ensures Valid() && Meanwhile(old(w), w) && EmitsIn(steps) == old(EmitsIn(steps))
    {
      var n: int := *;
      while n > 0
        invariant Valid() && Meanwhile(old(w), w) && EmitsIn(steps) == old(EmitsIn(steps))
      {
        n := n - 1;
        ghost var before := w;
        var request: bool := *;
        if request {
          var in_: TradeInput, result: Result := *, *;
          var row, inserted := Create(in_, result);
        } else if jobs.Keys != {} {
          var x :| x in jobs.Keys;
          var answer: Result, alive: bool := *, *;
          PublishOnce(x, answer, alive);
        }
        MeanwhileTwice(old(w), before, w);
      }
    }
  }

  /** Every statement of the backfill succeeds. */
  ghost predicate AllAnswered(a: Backfill.BackfillAnswers) {
    && (forall i :: a.results(i) == Ok) && a.over.query && a.over.begin && a.over.reset && a.over.commit == Ok
    && (forall i :: a.over.inserts(i)) && forall u :: a.over.upserts(u)
  }

  /** One boot of the service on seeded trades, on the tables as the seed or any number of earlier
      boots left them: the gate and the backfill, then the stream and its group. When the backfill
      fails the service does not start, and the next boot finds the tables as this one left them. */
  method Start(db: Backfill.Database, gate: bool, a: Backfill.BackfillAnswers, ghost left: nat)
    returns (c: Cluster?, ghost filled: nat)
    requires Backfill.LeftBy(db.t, left)
    modifies db
    ensures Backfill.LeftBy(db.t, filled) && db.t.trades == old(db.t.trades)
    ensures c != null ==> fresh(c) && c.Valid() && c.FromBoot() && c.t == c.first.t == db.t
    ensures c != null ==> c.first.boot.filled == filled == if Backfill.HasSnapshots(old(db.t)) then left else 7
    ensures c == null ==> !gate || !Backfill.HasSnapshots(old(db.t))
    ensures gate && Backfill.HasSnapshots(old(db.t)) ==> c != null
    ensures gate && AllAnswered(a) && !Backfill.TiltsConflict(old(db.t.trades)) ==> c != null
  {
    ghost var before, k, found := db.t, 0, [];
    var err;
    err, k, found := db.Boot(gate, a);
    Backfill.BootStarts(before, left, err, db.t, k, found);
    filled := if Backfill.HasSnapshots(before) then left else k;
    if err {
      return null, filled;
    }
    c := new Cluster(db.t, filled);
  }
}
