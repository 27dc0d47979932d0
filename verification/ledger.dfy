/** The two tables that overtrading writes: the event rows and the per-user counter.
    The worker writes them in two statements, so any number of writers may have added a row
    and not yet bumped the counter; the batch rewrites both in one transaction. */
module Ledger {
  import opened Prelude
  import opened Codec
  import opened Overtrading

  datatype Row = Row(user: Uuid, event: Detected)

  datatype Tables = Tables(rows: seq<Row>, counters: map<Uuid, nat>)

  function OfUser(u: Uuid): Row -> bool {
    (r: Row) => r.user == u
  }

  function Rows(t: Tables, u: Uuid): nat {
    |Filter(t.rows, OfUser(u))|
  }

  function Counter(t: Tables, u: Uuid): nat {
    if u in t.counters then t.counters[u] else 0
  }

  /** The events recorded for one user, oldest first. */
  function EventsOf(rows: seq<Row>, u: Uuid): seq<Detected> {
    var mine := Filter(rows, OfUser(u));
    seq(|mine|, i requires 0 <= i < |mine| => mine[i].event)
  }

  function AddRow(t: Tables, u: Uuid, e: Detected): Tables {
    t.(rows := t.rows + [Row(u, e)])
  }

  function Bump(t: Tables, u: Uuid): Tables {
    t.(counters := t.counters[u := Counter(t, u) + 1])
  }

  lemma {:induction false} AddRowCounts(t: Tables, u: Uuid, e: Detected, v: Uuid)
    ensures Rows(AddRow(t, u, e), v) == Rows(t, v) + (if v == u then 1 else 0)
    ensures Counter(AddRow(t, u, e), v) == Counter(t, v)
  {
    FilterAppend(t.rows, [Row(u, e)], OfUser(v));
    assert [Row(u, e)][..0] == [];
  }

  // ---- The batch rewrite.

  /** One user's detections, as the loop over the grouped entries finds them. */
  datatype Found = Found(user: Uuid, events: seq<Detected>)

  ghost predicate OncePerUser(found: seq<Found>) {
    forall i, j :: 0 <= i < j < |found| ==> found[i].user != found[j].user
  }

  function RowsFor(u: Uuid, events: seq<Detected>): seq<Row> {
    seq(|events|, i requires 0 <= i < |events| => Row(u, events[i]))
  }

  function FoundRows(found: seq<Found>): seq<Row> {
    if found == [] then []
    else
      var f := found[|found| - 1];
      FoundRows(found[..|found| - 1]) + RowsFor(f.user, f.events)
  }

  function ZeroAll(counters: map<Uuid, nat>): map<Uuid, nat> {
    map u | u in counters :: 0
  }

  /** Upserts one counter per user with detections, over counters that were set to zero. */
  function FoundCounters(found: seq<Found>, counters: map<Uuid, nat>): map<Uuid, nat> {
    if found == [] then ZeroAll(counters)
    else
      var f := found[|found| - 1];
      var rest := FoundCounters(found[..|found| - 1], counters);
      if f.events == [] then rest else rest[f.user := |f.events|]
  }

  function Rewrite(t: Tables, found: seq<Found>): Tables {
    Tables(FoundRows(found), FoundCounters(found, t.counters))
  }

  lemma {:induction false} RowsForCount(u: Uuid, events: seq<Detected>, v: Uuid)
    ensures |Filter(RowsFor(u, events), OfUser(v))| == if v == u then |events| else 0
  {
    if v == u {
      FilterAll(RowsFor(u, events), OfUser(v));
    } else {
      FilterNone(RowsFor(u, events), OfUser(v));
    }
  }

  function DetectedFor(found: seq<Found>, u: Uuid): nat {
    if found == [] then 0
    else
      DetectedFor(found[..|found| - 1], u)
      + if found[|found| - 1].user == u then |found[|found| - 1].events| else 0
  }

  lemma {:induction false} AbsentUser(found: seq<Found>, u: Uuid)
    requires forall f :: f in found ==> f.user != u
    ensures DetectedFor(found, u) == 0
  {
    if found != [] {
      AbsentUser(found[..|found| - 1], u);
    }
  }

  /** After the batch commits, every user's counter equals the number of that user's rows, and
      both are the number of detections, in whatever order the users were visited. */
  lemma {:induction false} RewriteBalances(t: Tables, found: seq<Found>, u: Uuid)
    requires OncePerUser(found)
    ensures Rows(Rewrite(t, found), u) == DetectedFor(found, u)
    ensures Counter(Rewrite(t, found), u) == DetectedFor(found, u)
  {
    if found != [] {
      var front, f := found[..|found| - 1], found[|found| - 1];
      RewriteBalances(t, front, u);
      FilterAppend(FoundRows(front), RowsFor(f.user, f.events), OfUser(u));
      RowsForCount(f.user, f.events, u);
      if f.user == u {
        AbsentUser(front, u);
      }
    }
  }

  // ---- Any interleaving of writers.

  /** `owed` holds a user once for every writer that added a row and has not finished. */
  datatype State = State(tables: Tables, owed: multiset<Uuid>)

  datatype Step =
    | Record(user: Uuid, event: Detected)
    | Settle(user: Uuid)
    | Abandon(user: Uuid)

  predicate Enabled(s: State, step: Step) {
    step.Record? || s.owed[step.user] > 0
  }

  function Apply(s: State, step: Step): State
    requires Enabled(s, step)
  {
    match step
    case Record(u, e) => State(AddRow(s.tables, u, e), s.owed + multiset{u})
    case Settle(u) => State(Bump(s.tables, u), s.owed - multiset{u})
    case Abandon(u) => State(s.tables, s.owed - multiset{u})
  }

  ghost predicate Runs(s: State, steps: seq<Step>)
    decreases |steps|
  {
    steps == [] || (Enabled(s, steps[0]) && Runs(Apply(s, steps[0]), steps[1..]))
  }

  function End(s: State, steps: seq<Step>): State
    requires Runs(s, steps)
    decreases |steps|
  {
    if steps == [] then s else End(Apply(s, steps[0]), steps[1..])
  }

  /** Counters and outstanding debts together never outgrow the rows by more than they did at the start. */
  lemma {:induction false} DebtIsKept(s: State, steps: seq<Step>, u: Uuid)
    requires Runs(s, steps)
    ensures var e := End(s, steps);
      Counter(e.tables, u) + e.owed[u] - Rows(e.tables, u) <= Counter(s.tables, u) + s.owed[u] - Rows(s.tables, u)
    decreases |steps|
  {
    if steps != [] {
      var step := steps[0];
      if step.Record? {
        AddRowCounts(s.tables, step.user, step.event, u);
      }
      DebtIsKept(Apply(s, step), steps[1..], u);
    }
  }

  /** Conservation: from empty tables, under any interleaving, retry or failure between the two
      writes, a user's counter never exceeds that user's rows. */
  lemma {:induction false} CounterNeverExceedsRows(steps: seq<Step>, u: Uuid)
    requires Runs(State(Tables([], map[]), multiset{}), steps)
    ensures var e := End(State(Tables([], map[]), multiset{}), steps);
      Counter(e.tables, u) <= Rows(e.tables, u)
  {
    DebtIsKept(State(Tables([], map[]), multiset{}), steps, u);
  }

  function BatchCommits(s: State, found: seq<Found>): State {
    s.(tables := Rewrite(s.tables, found))
  }

  ghost predicate WithinRows(s: State, steps: seq<Step>, u: Uuid)
    requires Runs(s, steps)
  {
    Counter(End(s, steps).tables, u) <= Rows(End(s, steps).tables, u)
  }

  /** The batch and live writers together: after the batch commits, the counter stays within the
      rows on every later run exactly when no writer of that user was between its two writes. */
  lemma {:induction false} SafeAfterBatch(s: State, found: seq<Found>, u: Uuid)
    requires OncePerUser(found)
    ensures s.owed[u] == 0 <==>
      forall steps :: Runs(BatchCommits(s, found), steps) ==> WithinRows(BatchCommits(s, found), steps, u)
  {
    var b := BatchCommits(s, found);
    RewriteBalances(s.tables, found, u);
    if s.owed[u] == 0 {
      forall steps | Runs(b, steps)
        ensures WithinRows(b, steps, u)
      {
        DebtIsKept(b, steps, u);
      }
    } else {
      var late := [Settle(u)];
      assert late[1..] == [];
      assert Runs(Apply(b, Settle(u)), []);
      assert Runs(b, late) && End(b, late) == Apply(b, Settle(u));
      assert !WithinRows(b, late, u);
    }
  }
}
