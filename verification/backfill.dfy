/** The backfill: five recomputations in seven statements, run once at boot when no metrics exist. */
module Backfill {
  import opened Prelude
  import opened Codec
  import opened Trades
  import opened Store
  import opened Detection
  import PlanAdherence
  import SessionTilt
  import Revenge
  import EmotionStats
  import Overtrading
  import Ledger

  // ---- The statements.

  function Deserving(ts: seq<Trade>): set<Uuid> {
    set t | t in ts && Revenge.BatchFlag(ts, t) :: t.input.id
  }

  function FlaggedOf(flags: set<Uuid>, u: Uuid): Trade -> bool {
    (t: Trade) => t.input.user == u && t.input.id in flags
  }

  function ResetFlags(t: Tables): Tables {
    t.(flags := {})
  }

  function SetFlags(t: Tables): Tables {
    t.(flags := t.flags + Deserving(t.trades))
  }

  function CountFlags(t: Tables): Tables {
    t.(revenge := t.revenge + map u | u in Users(t.trades) :: |Filter(t.trades, FlaggedOf(t.flags, u))|)
  }

  function FillScores(t: Tables): Tables {
    t.(scores := t.scores
       + map u | u in Users(t.trades) && PlanAdherence.Batch(t.trades, u).Some? ::
           PlanAdherence.Batch(t.trades, u).value)
  }

  function Buckets(ts: seq<Trade>): set<EmotionStats.Bucket> {
    set t | t in ts && t.input.status == Shut && EmotionStats.Rated(t) ::
      EmotionStats.Bucket(t.input.user, t.input.emotion.value)
  }

  function FillCells(t: Tables): Tables {
    t.(cells := t.cells
       + map b | b in Buckets(t.trades) ::
           EmotionStats.Cell(EmotionStats.Batch(t.trades, b, true), EmotionStats.Batch(t.trades, b, false)))
  }

  function Sessions(ts: seq<Trade>): set<Uuid> {
    set t | t in ts && t.input.status == Shut :: t.input.session
  }

  /** The tilt statement meets one session twice and fails as a whole. */
  predicate TiltsConflict(ts: seq<Trade>) {
    exists s :: s in Sessions(ts) && SessionTilt.Batch(ts, s).Conflict?
  }

  function FillTilts(t: Tables): Tables {
    t.(tilts := t.tilts + map s | s in Sessions(t.trades) :: SessionTilt.Batch(t.trades, s))
  }

  function RewriteEvents(t: Tables, found: seq<Ledger.Found>): Tables {
    t.(over := Ledger.Rewrite(t.over, found))
  }

  /** The statements before the overtrading transaction. */
  const STATEMENTS := 6

  function Statement(t: Tables, i: nat): Tables
    requires 1 <= i <= STATEMENTS
  {
    match i
    case 1 => ResetFlags(t)
    case 2 => SetFlags(t)
    case 3 => CountFlags(t)
    case 4 => FillScores(t)
    case 5 => FillCells(t)
    case _ => FillTilts(t)
  }

  /** The tables after the first `k` statements. */
  function Filled(t: Tables, k: nat): (f: Tables)
    requires k <= STATEMENTS
    ensures f.trades == t.trades && f.over == t.over
  {
    if k == 0 then t else Statement(Filled(t, k - 1), k)
  }

  /** The tables after a backfill without failure. */
  function Backfilled(t: Tables, found: seq<Ledger.Found>): Tables {
    RewriteEvents(Filled(t, STATEMENTS), found)
  }

  // ---- The transaction that rewrites the overtrading tables.

  lemma {:induction false} FoundCounterAt(found: seq<Ledger.Found>, before: map<Uuid, nat>, i: nat)
    requires Ledger.OncePerUser(found) && i < |found| && found[i].events != []
    ensures found[i].user in Ledger.FoundCounters(found, before)
    ensures Ledger.FoundCounters(found, before)[found[i].user] == |found[i].events|
  {
    if i < |found| - 1 {
      FoundCounterAt(found[..|found| - 1], before, i);
    }
  }

  lemma {:induction false} NotFoundCounter(found: seq<Ledger.Found>, before: map<Uuid, nat>, u: Uuid)
    requires forall i :: 0 <= i < |found| && found[i].user == u ==> found[i].events == []
    ensures u in Ledger.FoundCounters(found, before) <==> u in before
    ensures u in before ==> Ledger.FoundCounters(found, before)[u] == 0
  {
    if found != [] {
      NotFoundCounter(found[..|found| - 1], before, u);
    }
  }

  lemma {:induction false} NotCounted(counts: map<Uuid, nat>, found: seq<Ledger.Found>, u: Uuid)
    requires CountsOf(counts, found) && forall i :: 0 <= i < |found| && found[i].user == u ==> found[i].events == []
    ensures u !in counts
  {
  }

  /** The counters after the upserts, in whatever order they ran. */
  lemma {:induction false} RewrittenCounters(found: seq<Ledger.Found>, before: map<Uuid, nat>, counts: map<Uuid, nat>)
    requires Ledger.OncePerUser(found) && CountsOf(counts, found)
    ensures Ledger.FoundCounters(found, before) == Ledger.ZeroAll(before) + counts
  {
    var m, n := Ledger.FoundCounters(found, before), Ledger.ZeroAll(before) + counts;
    forall u: Uuid
      ensures (u in m <==> u in n) && (u in m ==> m[u] == n[u])
    {
      if i :| 0 <= i < |found| && found[i].user == u && found[i].events != [] {
        FoundCounterAt(found, before, i);
      } else {
        NotFoundCounter(found, before, u);
        NotCounted(counts, found, u);
      }
    }
    assert m.Keys == n.Keys;
  }

  // ---- The answers of Postgres, statement by statement.

  /** The query for the entries, BEGIN with DELETE, each INSERT, the reset, each upsert, and COMMIT. */
  datatype OvertradingAnswers = OvertradingAnswers(
    query: bool, begin: bool, inserts: nat -> bool, reset: bool, upserts: Uuid -> bool, commit: Result)

  /** The outcomes of the six statements, and of the transaction. */
  datatype BackfillAnswers = BackfillAnswers(results: nat -> Result, over: OvertradingAnswers)

  /** Every statement of the transaction before its COMMIT succeeds. */
  ghost predicate AllRun(found: seq<Ledger.Found>, a: OvertradingAnswers) {
    && a.begin && a.reset && (forall i :: 0 <= i < |Ledger.FoundRows(found)| ==> a.inserts(i))
    && forall i :: 0 <= i < |found| && found[i].events != [] ==> a.upserts(found[i].user)
  }

  /** The transaction takes effect. */
  ghost predicate Rewrites(found: seq<Ledger.Found>, a: OvertradingAnswers) {
    a.query && AllRun(found, a) && !a.commit.Failed?
  }

  /** Statement `i` reports a failure. */
  predicate Fails(ts: seq<Trade>, i: nat, result: Result) {
    result != Ok || (i == 6 && TiltsConflict(ts))
  }

  /** How many statements took effect when `i` is the last that was sent. */
  function Count(ts: seq<Trade>, i: nat, result: Result): nat
    requires i >= 1
  {
    if result == Failed || (i == 6 && TiltsConflict(ts)) then i - 1 else i
  }

  /** One of the six statements fails. */
  ghost predicate Broken(ts: seq<Trade>, results: nat -> Result) {
    exists i :: 1 <= i <= 6 && Fails(ts, i, results(i))
  }

  /** Of the first `n` statements all succeed, or the first failure is the last that was sent. */
  ghost predicate StoppedBy(ts: seq<Trade>, results: nat -> Result, n: nat, k: nat, err: bool) {
    if err then
      exists i :: 1 <= i <= n && Fails(ts, i, results(i)) && k == Count(ts, i, results(i))
                  && forall j :: 1 <= j < i ==> !Fails(ts, j, results(j))
    else k == n && forall i :: 1 <= i <= n ==> !Fails(ts, i, results(i))
  }

  lemma {:induction false} OneMoreStatement(ts: seq<Trade>, results: nat -> Result, n: nat, k: nat, err: bool)
    requires StoppedBy(ts, results, n, n, false)
    requires k == Count(ts, n + 1, results(n + 1)) && (err <==> Fails(ts, n + 1, results(n + 1)))
    ensures StoppedBy(ts, results, n + 1, k, err)
  {
  }

  lemma {:induction false} StoppedEarly(ts: seq<Trade>, results: nat -> Result, n: nat, k: nat)
    requires StoppedBy(ts, results, n, k, true) && n <= 6
    ensures StoppedBy(ts, results, 6, k, true)
  {
  }

  lemma {:induction false} StoppedAtMost(ts: seq<Trade>, results: nat -> Result, n: nat, k: nat, err: bool)
    requires StoppedBy(ts, results, n, k, err) && n == STATEMENTS
    ensures Reachable(ts, k) && (err <==> Broken(ts, results))
  {
    if !err && n == 6 {
      assert !Fails(ts, 6, results(6));
    }
  }

  lemma {:induction false} CountedUsers(counts: map<Uuid, nat>, found: seq<Ledger.Found>, upserts: Uuid -> bool)
    requires CountsOf(counts, found)
    ensures (exists u :: u in counts && !upserts(u)) <==>
      exists i :: 0 <= i < |found| && found[i].events != [] && !upserts(found[i].user)
  {
    if u :| u in counts && !upserts(u) {
      var i :| 0 <= i < |found| && found[i].user == u && found[i].events != [];
    }
    if i :| 0 <= i < |found| && found[i].events != [] && !upserts(found[i].user) {
      assert found[i].user in counts;
    }
  }

  /** A metric row exists exactly when one of the columns has a value for some user. */
  lemma {:induction false} SnapshotsExactly(t: Tables)
    ensures HasSnapshots(t) <==> exists u :: u in t.scores || u in t.revenge || u in t.over.counters
  {
    if t.scores != map[] {
      assert t.scores.Keys != {};
      var u :| u in t.scores;
    }
    if t.revenge != map[] {
      assert t.revenge.Keys != {};
      var u :| u in t.revenge;
    }
    if t.over.counters != map[] {
      assert t.over.counters.Keys != {};
      var u :| u in t.over.counters;
    }
  }

  class Database {
    var t: Tables

    constructor (tables: Tables)
      ensures t == tables
    {
      t := tables;
    }

    /** The inserts of the transaction: `inserts` says which of them succeed. */
    method InsertEvents(events: seq<Ledger.Row>, inserts: nat -> bool) returns (err: bool, rows: seq<Ledger.Row>)
      ensures err <==> exists i :: 0 <= i < |events| && !inserts(i)
      ensures !err ==> rows == events
    {
      err, rows := false, [];
      var i := 0;
      while i < |events| && !err
        invariant i <= |events| && (err <==> exists j :: 0 <= j < i && !inserts(j))
        invariant !err ==> rows == events[..i]
      {
        err := !inserts(i);
        rows := rows + [events[i]];
        i := i + 1;
      }
    }

    /** The upserts of the transaction, in whatever order the map is visited. */
    method UpsertCounters(counters: map<Uuid, nat>, counts: map<Uuid, nat>, upserts: Uuid -> bool)
      returns (err: bool, after: map<Uuid, nat>)
      ensures err <==> exists u :: u in counts && !upserts(u)
      ensures !err ==> after == counters + counts
    {
      err, after := false, counters;
      var left := counts.Keys;
      while left != {} && !err
        invariant left <= counts.Keys && (err <==> exists u :: u in counts.Keys - left && !upserts(u))
        invariant forall u :: u in after <==> u in counters || u in counts.Keys - left
        invariant forall u :: u in after ==> after[u] == if u in counts.Keys - left then counts[u] else counters[u]
        decreases left
      {
        var u :| u in left;
        err := !upserts(u);
        after, left := after[u := counts[u]], left - {u};
      }
      if !err {
        assert after.Keys == (counters + counts).Keys;
      }
    }

    /** DELETE, INSERT row by row, reset, upsert user by user, COMMIT: all of it or nothing. The
        commit may take effect although its answer is lost. */
    method RewriteInTransaction(events: seq<Ledger.Row>, counts: map<Uuid, nat>, a: OvertradingAnswers,
                                ghost found: seq<Ledger.Found>)
      returns (err: bool)
      requires events == Ledger.FoundRows(found) && Ledger.OncePerUser(found) && CountsOf(counts, found)
      modifies this
      ensures t == if AllRun(found, a) && !a.commit.Failed? then RewriteEvents(old(t), found) else old(t)
      ensures err <==> !AllRun(found, a) || a.commit != Ok
    {
      if !a.begin {
        return true;
      }
      var rows: seq<Ledger.Row>, counters: map<Uuid, nat>;
      err, rows := InsertEvents(events, a.inserts);
      if err || !a.reset {
        return true;
      }
      err, counters := UpsertCounters(Ledger.ZeroAll(t.over.counters), counts, a.upserts);
      CountedUsers(counts, found, a.upserts);
      if err {
        return;
      }
      RewrittenCounters(found, t.over.counters, counts);
      if !a.commit.Failed? {
        t := t.(over := Ledger.Tables(rows, counters));
      }
      err := a.commit != Ok;
    }

    method BackfillOvertrading(a: OvertradingAnswers) returns (err: bool, ghost found: seq<Ledger.Found>)
      modifies this
      ensures a.query ==> IsDetection(old(t.trades), found)
      ensures t == if Rewrites(found, a) then RewriteEvents(old(t), found) else old(t)
      ensures err <==> !Rewrites(found, a) || a.commit != Ok
    {
      found := [];
      if !a.query {
        return true, found;
      }
      var rows := QueryEntries(t.trades);
      var perUser := GroupByUser(rows);
      forall u | u in perUser
        ensures Overtrading.Sorted(perUser[u])
      {
        SortedEntriesAreSorted(t.trades, u);
      }
      var events, counts;
      events, counts, found := DetectAll(perUser);
      forall u | SortedEntries(t.trades, u) != []
        ensures Visited(found, u)
      {
      }
      forall i | 0 <= i < |found|
        ensures found[i].events ==
          Overtrading.Spikes(SortedEntries(t.trades, found[i].user), |SortedEntries(t.trades, found[i].user)|)
      {
        assert Spiked(perUser, found[i]);
      }
      err := RewriteInTransaction(events, counts, a, found);
    }

    /** Statement `i`. It may fail, or take effect although its answer is lost; the one for the
        tilts always fails when two users share a session. `k` tells how many took effect so far. */
    method Exec(i: nat, result: Result, ghost start: Tables) returns (err: bool, ghost k: nat)
      requires 1 <= i <= STATEMENTS && t == Filled(start, i - 1)
      modifies this
      ensures err <==> Fails(start.trades, i, result)
      ensures k == Count(start.trades, i, result) && t == Filled(start, k)
    {
      if i == 6 && TiltsConflict(t.trades) {
        return true, 5;
      }
      if result != Failed {
        t := Statement(t, i);
      }
      err, k := result != Ok, if result != Failed then i else i - 1;
    }

    /** Reset, flag, count. */
    method BackfillRevengeFlag(results: nat -> Result) returns (err: bool, ghost k: nat)
      modifies this
      ensures k <= 3 && t == Filled(old(t), k) && StoppedBy(old(t.trades), results, 3, k, err)
    {
      err, k := Exec(1, results(1), old(t));
      if err {
        return;
      }
      err, k := Exec(2, results(2), old(t));
      if err {
        return;
      }
      err, k := Exec(3, results(3), old(t));
    }

    /** The statements before the overtrading transaction, in order, up to the first failure. */
    method BackfillColumns(results: nat -> Result) returns (err: bool, ghost k: nat)
      modifies this
      ensures k <= STATEMENTS && t == Filled(old(t), k) && StoppedBy(old(t.trades), results, STATEMENTS, k, err)
    {
      err, k := BackfillRevengeFlag(results);
      if err {
        StoppedEarly(old(t.trades), results, 3, k);
        return;
      }
      err, k := Exec(4, results(4), old(t));
      OneMoreStatement(old(t.trades), results, 3, k, err);
      if err {
        StoppedEarly(old(t.trades), results, 4, k);
        return;
      }
      err, k := Exec(5, results(5), old(t));
      OneMoreStatement(old(t.trades), results, 4, k, err);
      if err {
        StoppedEarly(old(t.trades), results, 5, k);
        return;
      }
      err, k := Exec(6, results(6), old(t));
      OneMoreStatement(old(t.trades), results, 5, k, err);
    }

    /** The five recomputations in order, stopping at the first failure. `k` tells how many
        statements took effect, the transaction being the last. */
    method BackfillFromTrades(a: BackfillAnswers) returns (err: bool, ghost k: nat, ghost found: seq<Ledger.Found>)
      modifies this
      ensures Stopped(old(t), t, k, found) && Reachable(old(t.trades), k)
      ensures if Broken(old(t.trades), a.results) then err && StoppedBy(old(t.trades), a.results, STATEMENTS, k, true)
              else && k == (if Rewrites(found, a.over) then 7 else 6)
                   && (err <==> !Rewrites(found, a.over) || a.over.commit != Ok)
    {
      found := [];
      err, k := BackfillColumns(a.results);
      StoppedAtMost(t.trades, a.results, STATEMENTS, k, err);
      if err {
        return;
      }
      err, found := BackfillOvertrading(a.over);
      k := if Rewrites(found, a.over) then STATEMENTS + 1 else STATEMENTS;
    }

    /** At boot the backfill runs only when no metric row exists; `gate` says that the query for one is
        answered. */
    method Boot(gate: bool, a: BackfillAnswers) returns (err: bool, ghost k: nat, ghost found: seq<Ledger.Found>)
      modifies this
      ensures BootStep(old(t), t)
      ensures !gate ==> t == old(t) && err && k == 0
      ensures gate && (exists u :: u in old(t.scores) || u in old(t.revenge) || u in old(t.over.counters)) ==>
        t == old(t) && !err
      ensures HasSnapshots(old(t)) <==>
        exists u :: u in old(t.scores) || u in old(t.revenge) || u in old(t.over.counters)
      ensures !HasSnapshots(old(t)) ==> Stopped(old(t), t, k, found) && Reachable(old(t.trades), k)
      ensures gate && !HasSnapshots(old(t)) ==>
        if Broken(old(t.trades), a.results) then err && StoppedBy(old(t.trades), a.results, STATEMENTS, k, true)
        else && k == (if Rewrites(found, a.over) then 7 else 6)
             && (err <==> !Rewrites(found, a.over) || a.over.commit != Ok)
    {
      err, k, found := !gate, 0, [];
      SnapshotsExactly(t);
      if gate && !HasSnapshots(t) {
        err, k, found := BackfillFromTrades(a);
      }
      assert !HasSnapshots(old(t)) ==> Stopped(old(t), t, k, found);
    }
  }

  /** The last statements take effect only when no session is shared. */
  predicate Reachable(ts: seq<Trade>, k: nat) {
    k <= STATEMENTS + 1 && (k >= STATEMENTS ==> !TiltsConflict(ts))
  }

  /** A backfill of which `k` statements took effect, the transaction being the last. */
  ghost predicate Stopped(before: Tables, after: Tables, k: nat, found: seq<Ledger.Found>) {
    if k <= STATEMENTS then after == Filled(before, k)
    else IsDetection(before.trades, found) && after == Backfilled(before, found)
  }

  /** What one boot may do to the tables. */
  ghost predicate BootStep(before: Tables, after: Tables) {
    if HasSnapshots(before) then after == before else exists k, found :: Stopped(before, after, k, found)
  }

  /** SELECT COUNT(*) FROM user_metrics: a row exists for every user with a score or a counter. */
  predicate HasSnapshots(t: Tables) {
    t.scores != map[] || t.revenge != map[] || t.over.counters != map[]
  }

  // ---- What the backfill establishes.

  /** The tables after `k` statements, each column by itself. */
  lemma {:induction false} FilledColumns(t: Tables, k: nat)
    requires k <= STATEMENTS
    ensures Filled(t, k).flags == if k == 0 then t.flags else if k == 1 then {} else Deserving(t.trades)
    ensures Filled(t, k).revenge == if k < 3 then t.revenge else CountFlags(SetFlags(ResetFlags(t))).revenge
    ensures Filled(t, k).scores == if k < 4 then t.scores else FillScores(t).scores
    ensures Filled(t, k).cells == if k < 5 then t.cells else FillCells(t).cells
    ensures Filled(t, k).tilts == if k < 6 then t.tilts else FillTilts(t).tilts
  {
    if k > 0 {
      FilledColumns(t, k - 1);
      assert {} + Deserving(t.trades) == Deserving(t.trades);
      assert Filled(t, k) == Statement(Filled(t, k - 1), k);
    }
  }

  lemma {:induction false} DeservingIds(ts: seq<Trade>, t: Trade)
    requires UniqueIds(ts) && t in ts
    ensures t.input.id in Deserving(ts) <==> Revenge.BatchFlag(ts, t)
  {
    if t.input.id in Deserving(ts) {
      var p :| p in ts && Revenge.BatchFlag(ts, p) && p.input.id == t.input.id;
      var i :| 0 <= i < |ts| && ts[i] == p;
      var j :| 0 <= j < |ts| && ts[j] == t;
      assert i == j;
    }
  }

  function RevengeOf(ts: seq<Trade>, u: Uuid): Trade -> bool {
    (t: Trade) => t.input.user == u && Revenge.BatchFlag(ts, t)
  }

  /** Afterwards exactly the trades that satisfy the batch predicate are flagged, and every user's
      counter is the number of that user's flagged trades. */
  lemma {:induction false} FlagsAreExact(t: Tables, found: seq<Ledger.Found>, x: Trade, u: Uuid)
    requires UniqueIds(t.trades) && x in t.trades && u in Users(t.trades)
    ensures x.input.id in Backfilled(t, found).flags <==> Revenge.BatchFlag(t.trades, x)
    ensures Store.Number(Backfilled(t, found).revenge, u) == |Filter(t.trades, RevengeOf(t.trades, u))|
  {
    FilledColumns(t, STATEMENTS);
    assert {} + Deserving(t.trades) == Deserving(t.trades);
    DeservingIds(t.trades, x);
    FlagsCounted(t.trades, u);
  }

  lemma {:induction false} UserOfRated(ts: seq<Trade>, u: Uuid)
    requires PlanAdherence.Batch(ts, u).Some?
    ensures u in Users(ts)
  {
    PlanAdherence.LiveIsBatch(ts, u);
    PlanAdherence.EmptyScore(ts, u);
    var f := PlanAdherence.Rated(u);
    var t := Filter(ts, f)[0];
    FilterMember(ts, f, t);
  }

  lemma {:induction false} SessionOfTilt(ts: seq<Trade>, s: Uuid)
    ensures SessionTilt.Batch(ts, s).NoRow? <==> s !in Sessions(ts)
  {
    var f := SessionTilt.InSession(s);
    if s in Sessions(ts) {
      var t :| t in ts && t.input.status == Shut && t.input.session == s;
      FilterMember(ts, f, t);
    } else {
      FilterNone(ts, f);
    }
  }

  lemma {:induction false} ScoresFilled(t: Tables, u: Uuid)
    ensures Lookup(FillScores(t).scores, u) ==
      if PlanAdherence.Live(t.trades, u).Some? then PlanAdherence.Live(t.trades, u) else Lookup(t.scores, u)
  {
    PlanAdherence.LiveIsBatch(t.trades, u);
    if PlanAdherence.Batch(t.trades, u).Some? {
      UserOfRated(t.trades, u);
    }
  }

  lemma {:induction false} TiltsFilled(t: Tables, s: Uuid)
    ensures Lookup(FillTilts(t).tilts, s) ==
      if SessionTilt.Live(t.trades, s).NoRow? then Lookup(t.tilts, s) else Some(SessionTilt.Live(t.trades, s))
  {
    SessionTilt.LiveIsBatch(t.trades, s);
    SessionOfTilt(t.trades, s);
  }

  /** Afterwards every user with a rated closed trade has the batch score, and every session with a
      closed trade the batch tilt, which equal the ones that the live calculators compute; rows of
      others are as before. */
  lemma {:induction false} ScoresAndTiltsAreExact(t: Tables, found: seq<Ledger.Found>, u: Uuid, s: Uuid)
    ensures Lookup(Backfilled(t, found).scores, u) ==
      if PlanAdherence.Live(t.trades, u).Some? then PlanAdherence.Live(t.trades, u) else Lookup(t.scores, u)
    ensures Lookup(Backfilled(t, found).tilts, s) ==
      if SessionTilt.Live(t.trades, s).NoRow? then Lookup(t.tilts, s) else Some(SessionTilt.Live(t.trades, s))
  {
    FilledColumns(t, STATEMENTS);
    ScoresFilled(t, u);
    TiltsFilled(t, s);
  }

  lemma {:induction false} CellsFilled(t: Tables, b: EmotionStats.Bucket, won: bool)
    ensures EmotionStats.Batch(t.trades, b, won) > 0 || b in Buckets(t.trades) ==>
      EmotionStats.Side(EmotionStats.At(FillCells(t).cells, b), won) == EmotionStats.Batch(t.trades, b, won)
  {
    var f := EmotionStats.InBucket(b, won);
    if EmotionStats.Batch(t.trades, b, won) > 0 {
      var x := Filter(t.trades, f)[0];
      FilterMember(t.trades, f, x);
      assert EmotionStats.Bucket(x.input.user, x.input.emotion.value) == b;
    }
  }

  /** Afterwards every side of every bucket that some closed trade counts for holds the number of
      such trades. */
  lemma {:induction false} CellsAreExact(t: Tables, found: seq<Ledger.Found>, b: EmotionStats.Bucket, won: bool)
    ensures EmotionStats.Batch(t.trades, b, won) > 0 || b in Buckets(t.trades) ==>
      EmotionStats.Side(EmotionStats.At(Backfilled(t, found).cells, b), won) == EmotionStats.Batch(t.trades, b, won)
  {
    FilledColumns(t, STATEMENTS);
    CellsFilled(t, b, won);
  }

  /** Afterwards every user's event rows are exactly what the window loop finds in that user's
      sorted entries, and the counter is their number. */
  lemma {:induction false} EventsAreExact(t: Tables, found: seq<Ledger.Found>, u: Uuid)
    requires IsDetection(t.trades, found)
    ensures var spikes := Overtrading.Spikes(SortedEntries(t.trades, u), |SortedEntries(t.trades, u)|);
      && Ledger.EventsOf(Backfilled(t, found).over.rows, u) == spikes
      && Ledger.Counter(Backfilled(t, found).over, u) == |spikes|
      && Ledger.Rows(Backfilled(t, found).over, u) == |spikes|
  {
    Ledger.RewriteBalances(t.over, found, u);
    DetectedEvents(t.trades, found, u);
  }

  lemma {:induction false} DetectedEvents(ts: seq<Trade>, found: seq<Ledger.Found>, u: Uuid)
    requires IsDetection(ts, found)
    ensures Ledger.EventsOf(Ledger.FoundRows(found), u) ==
      Overtrading.Spikes(SortedEntries(ts, u), |SortedEntries(ts, u)|)
    ensures Ledger.DetectedFor(found, u) == |Ledger.EventsOf(Ledger.FoundRows(found), u)|
  {
    if i :| 0 <= i < |found| && found[i].user == u {
      EventsFound(found, i);
      DetectedOnce(found, i);
    } else {
      NothingFound(found, u);
      Ledger.AbsentUser(found, u);
      assert !Visited(found, u);
    }
  }

  lemma {:induction false} DetectedOnce(found: seq<Ledger.Found>, i: nat)
    requires Ledger.OncePerUser(found) && i < |found|
    ensures Ledger.DetectedFor(found, found[i].user) == |found[i].events|
  {
    var front := found[..|found| - 1];
    if i < |front| {
      DetectedOnce(front, i);
    } else {
      Ledger.AbsentUser(front, found[i].user);
    }
  }

  /** A detection of the same trades, found in any other order, has the same users with events. */
  lemma {:induction false} SameReport(ts: seq<Trade>, f: seq<Ledger.Found>, g: seq<Ledger.Found>, i: nat)
    requires IsDetection(ts, f) && IsDetection(ts, g) && i < |f| && f[i].events != []
    ensures exists j :: 0 <= j < |g| && g[j].user == f[i].user && g[j].events == f[i].events
  {
    assert Overtrading.Spikes([], 0) == [];
    assert Visited(g, f[i].user);
  }

  lemma {:induction false} CountersTwice(ts: seq<Trade>, f: seq<Ledger.Found>, g: seq<Ledger.Found>,
                                         before: map<Uuid, nat>)
    requires IsDetection(ts, f) && IsDetection(ts, g)
    ensures Ledger.FoundCounters(g, Ledger.FoundCounters(f, before)) == Ledger.FoundCounters(f, before)
  {
    var once := Ledger.FoundCounters(f, before);
    var twice := Ledger.FoundCounters(g, once);
    forall u: Uuid
      ensures (u in twice <==> u in once) && (u in once ==> twice[u] == once[u])
    {
      if i :| 0 <= i < |f| && f[i].user == u && f[i].events != [] {
        SameReport(ts, f, g, i);
        var j :| 0 <= j < |g| && g[j].user == u && g[j].events == f[i].events;
        FoundCounterAt(f, before, i);
        FoundCounterAt(g, once, j);
      } else {
        NotFoundCounter(f, before, u);
        forall j | 0 <= j < |g| && g[j].user == u
          ensures g[j].events == []
        {
          if g[j].events != [] {
            SameReport(ts, g, f, j);
          }
        }
        NotFoundCounter(g, once, u);
      }
    }
    assert twice.Keys == once.Keys;
  }

  lemma {:induction false} RescoreIsSame(b: Tables, f: Tables)
    requires b.trades == f.trades && b.scores == FillScores(f).scores
    ensures FillScores(b).scores == b.scores
  {
  }

  lemma {:induction false} RecountIsSame(b: Tables, f: Tables)
    requires b.trades == f.trades && b.cells == FillCells(f).cells
    ensures FillCells(b).cells == b.cells
  {
  }

  lemma {:induction false} RetiltIsSame(b: Tables, f: Tables)
    requires b.trades == f.trades && b.tilts == FillTilts(f).tilts
    ensures FillTilts(b).tilts == b.tilts
  {
  }

  lemma {:induction false} FlagsTwice(t: Tables, found: seq<Ledger.Found>)
    ensures var once := Backfilled(t, found);
      Filled(once, STATEMENTS).flags == once.flags && Filled(once, STATEMENTS).revenge == once.revenge
  {
    FilledColumns(t, STATEMENTS);
    FilledColumns(Backfilled(t, found), STATEMENTS);
    ReflagIsSame(Backfilled(t, found), t);
  }

  lemma {:induction false} ReflagIsSame(b: Tables, f: Tables)
    requires b.trades == f.trades && b.revenge == CountFlags(SetFlags(ResetFlags(f))).revenge
    ensures CountFlags(SetFlags(ResetFlags(b))).revenge == b.revenge
  {
  }

  lemma {:induction false} RestTwice(t: Tables, found: seq<Ledger.Found>)
    ensures var once := Backfilled(t, found);
      var f := Filled(once, STATEMENTS);
      f.scores == once.scores && f.cells == once.cells && f.tilts == once.tilts
  {
    var once := Backfilled(t, found);
    FilledColumns(t, STATEMENTS);
    FilledColumns(once, STATEMENTS);
    RescoreIsSame(once, t);
    RecountIsSame(once, t);
    RetiltIsSame(once, t);
  }

  /** Running the backfill twice leaves what running it once leaves, although the two runs may visit
      the users in different orders: every table is the same, counters included, and every user has
      the same events in the same order. */
  lemma {:induction false} BackfillIsIdempotent(t: Tables, found: seq<Ledger.Found>, again: seq<Ledger.Found>, u: Uuid)
    requires IsDetection(t.trades, found) && IsDetection(t.trades, again)
    ensures var once, twice := Backfilled(t, found), Backfilled(Backfilled(t, found), again);
      && twice == once.(over := once.over.(rows := twice.over.rows))
      && Ledger.EventsOf(twice.over.rows, u) == Ledger.EventsOf(once.over.rows, u)
  {
    FlagsTwice(t, found);
    RestTwice(t, found);
    CountersTwice(t.trades, found, again, t.over.counters);
    DetectedEvents(t.trades, found, u);
    DetectedEvents(t.trades, again, u);
  }

  /** A backfill that stops half way is resumed at the next boot exactly when it stopped before the
      counters of the first metric were written, or when there are no trades: from then on the gate
      sees a row and leaves the other metrics unfilled for good. */
  lemma {:induction false} StoppedBackfillIsResumed(t: Tables, k: nat)
    requires !HasSnapshots(t) && k <= STATEMENTS
    ensures !HasSnapshots(Filled(t, k)) <==> k < 3 || t.trades == []
  {
    FilledColumns(t, k);
    if t.trades == [] {
      assert Users(t.trades) == {};
    } else if k >= 3 {
      assert t.trades[0].input.user in Filled(t, k).revenge;
    }
  }

  /** A backfill that stopped after the first metric's counters is never completed: over any number
      of later boots the tables stay as they were left, without the statements that are missing. */
  lemma {:induction false} StoppedBackfillStays(t: Tables, k: nat, boots: seq<Tables>, i: nat)
    requires !HasSnapshots(t) && t.trades != [] && 3 <= k <= STATEMENTS
    requires i < |boots| && boots[0] == Filled(t, k)
    requires forall j :: 0 < j < |boots| ==> BootStep(boots[j - 1], boots[j])
    ensures boots[i] == Filled(t, k) && boots[i].over == t.over
    ensures k < STATEMENTS ==> boots[i].tilts == t.tilts
  {
    if i > 0 {
      StoppedBackfillStays(t, k, boots, i - 1);
      StoppedBackfillIsResumed(t, k);
      assert BootStep(boots[i - 1], boots[i]);
    } else {
      FilledColumns(t, k);
    }
  }

  // ---- The state in which the service starts.

  /** Trades, seeded ones or none, and no metric row; flags as the seed has them. */
  function Bare(ts: seq<Trade>, flags: set<Uuid>): Tables {
    Tables(ts, flags, map[], map[], map[], map[], Ledger.Tables([], map[]))
  }

  ghost predicate StoppedAt(t: Tables, k: nat, flags: set<Uuid>, found: seq<Ledger.Found>) {
    Stopped(Bare(t.trades, flags), t, k, found)
  }

  /** The backfill of a table that meets its constraints stopped after `k` statements. */
  ghost predicate LeftBy(t: Tables, k: nat) {
    TableOk(t.trades) && Reachable(t.trades, k) && exists flags, found :: StoppedAt(t, k, flags, found)
  }

  /** What the seed leaves, before any boot. */
  lemma {:induction false} SeedIsLeft(ts: seq<Trade>, flags: set<Uuid>)
    requires TableOk(ts)
    ensures LeftBy(Bare(ts, flags), 0)
  {
    assert StoppedAt(Bare(ts, flags), 0, flags, []);
  }

  /** The state in which the service starts: a completed backfill, or one that stopped after its
      first statement or a later one. */
  ghost predicate Booted(t: Tables, k: nat) {
    LeftBy(t, k) && k >= 1
  }

  lemma {:induction false} NothingToFind(found: seq<Ledger.Found>)
    requires forall i :: 0 <= i < |found| ==> found[i].events == []
    ensures Ledger.FoundRows(found) == [] && Ledger.FoundCounters(found, map[]) == map[]
  {
    if found != [] {
      NothingToFind(found[..|found| - 1]);
    }
  }

  lemma {:induction false} FilledWithoutTrades(flags: set<Uuid>, k: nat)
    requires k <= STATEMENTS
    ensures var b := Bare([], flags);
      Filled(b, k) == b.(flags := Filled(b, k).flags)
  {
    FilledColumns(Bare([], flags), k);
    assert Users([]) == {} && Sessions([]) == {} && Buckets([]) == {};
  }

  lemma {:induction false} BackfilledWithoutTrades(flags: set<Uuid>, found: seq<Ledger.Found>)
    requires IsDetection([], found)
    ensures var b := Bare([], flags);
      Backfilled(b, found) == Bare([], {})
  {
    FilledWithoutTrades(flags, STATEMENTS);
    FilledColumns(Bare([], flags), STATEMENTS);
    assert Deserving([]) == {};
    forall i | 0 <= i < |found|
      ensures found[i].events == []
    {
      NoUserNoEntries([], found[i].user);
    }
    NothingToFind(found);
  }

  lemma {:induction false} StoppedEarlyIsBare(t: Tables, k: nat, flags: set<Uuid>)
    requires k < 3 && t == Filled(Bare(t.trades, flags), k)
    ensures t == Bare(t.trades, t.flags)
  {
    FilledColumns(Bare(t.trades, flags), k);
  }

  lemma {:induction false} CompletedHasSnapshots(t: Tables, flags: set<Uuid>, found: seq<Ledger.Found>)
    requires IsDetection(t.trades, found) && t == Backfilled(Bare(t.trades, flags), found) && t.trades != []
    ensures HasSnapshots(t)
  {
    FilledColumns(Bare(t.trades, flags), STATEMENTS);
    assert t.trades[0].input.user in t.revenge;
  }

  /** Where the gate is still open, nothing but flags was written: the next boot starts afresh. */
  lemma {:induction false} OpenGateIsBare(t: Tables, k: nat)
    requires LeftBy(t, k) && !HasSnapshots(t)
    ensures t == Bare(t.trades, t.flags) && (k < 3 || t.trades == [])
  {
    var flags, found :| StoppedAt(t, k, flags, found);
    if k > STATEMENTS {
      if t.trades == [] {
        BackfilledWithoutTrades(flags, found);
      } else {
        CompletedHasSnapshots(t, flags, found);
      }
    } else {
      StoppedBackfillIsResumed(Bare(t.trades, flags), k);
      if t.trades == [] {
        FilledWithoutTrades(flags, k);
      } else {
        StoppedEarlyIsBare(t, k, flags);
      }
    }
  }

  /** A boot that reports no failure leaves a state in which the service can start: with everything
      filled in when the gate was open, and otherwise as an earlier boot left it. A boot that fails
      leaves a state that the next boot finds. */
  lemma {:induction false} BootStarts(before: Tables, i: nat, err: bool, after: Tables, k: nat,
                                      found: seq<Ledger.Found>)
    requires LeftBy(before, i)
    requires HasSnapshots(before) ==> after == before
    requires !HasSnapshots(before) ==>
      Stopped(before, after, k, found) && Reachable(before.trades, k) && (!err ==> k > STATEMENTS)
    ensures after.trades == before.trades && LeftBy(after, if HasSnapshots(before) then i else k)
    ensures !err ==> Booted(after, if HasSnapshots(before) then i else k)
  {
    if HasSnapshots(before) {
      var flags, f :| StoppedAt(before, i, flags, f);
      assert Filled(Bare(before.trades, flags), 0) == Bare(before.trades, flags);
    } else {
      OpenGateIsBare(before, i);
      assert StoppedAt(after, k, before.flags, found);
    }
  }

  /** A first boot that reports no failure leaves every statement's effect. */
  lemma {:induction false} BootCompletes(ts: seq<Trade>, flags: set<Uuid>, after: Tables, k: nat,
                                         found: seq<Ledger.Found>)
    requires TableOk(ts) && Stopped(Bare(ts, flags), after, k, found) && Reachable(ts, k) && k > STATEMENTS
    ensures Booted(after, STATEMENTS + 1) && after.trades == ts
  {
    assert StoppedAt(after, k, flags, found);
  }

  /** The columns of the start state: those of the statements that took effect. */
  lemma {:induction false} BootedColumns(t: Tables, k: nat, flags: set<Uuid>, found: seq<Ledger.Found>)
    requires StoppedAt(t, k, flags, found) && k >= 1
    ensures t.flags == if k == 1 then {} else Deserving(t.trades)
    ensures t.scores == if k < 4 then map[] else FillScores(Bare(t.trades, flags)).scores
    ensures t.cells == if k < 5 then map[] else FillCells(Bare(t.trades, flags)).cells
    ensures t.tilts == if k < 6 then map[] else FillTilts(Bare(t.trades, flags)).tilts
  {
    FilledColumns(Bare(t.trades, flags), if k <= STATEMENTS then k else STATEMENTS);
  }

  lemma {:induction false} BootedScore(t: Tables, k: nat, u: Uuid)
    requires Booted(t, k)
    ensures Lookup(t.scores, u) == if k < 4 then None else PlanAdherence.Live(t.trades, u)
  {
    var flags, found :| StoppedAt(t, k, flags, found);
    BootedColumns(t, k, flags, found);
    ScoresFilled(Bare(t.trades, flags), u);
  }

  lemma {:induction false} NoConflictAnywhere(ts: seq<Trade>, s: Uuid)
    requires !TiltsConflict(ts)
    ensures !SessionTilt.Live(ts, s).Conflict?
  {
    SessionTilt.LiveIsBatch(ts, s);
    SessionOfTilt(ts, s);
  }

  lemma {:induction false} BootedTilt(t: Tables, k: nat, s: Uuid)
    requires Booted(t, k)
    ensures var live := SessionTilt.Live(t.trades, s);
      && Lookup(t.tilts, s) == (if k < 6 || live.NoRow? then None else Some(live))
      && (k >= 6 ==> !live.Conflict?)
  {
    var flags, found :| StoppedAt(t, k, flags, found);
    BootedColumns(t, k, flags, found);
    TiltsFilled(Bare(t.trades, flags), s);
    if k >= 6 {
      NoConflictAnywhere(t.trades, s);
    }
  }

  lemma {:induction false} BootedFlag(t: Tables, k: nat, x: Trade)
    requires Booted(t, k) && x in t.trades
    ensures x.input.id in t.flags <==> k >= 2 && Revenge.BatchFlag(t.trades, x)
  {
    var flags, found :| StoppedAt(t, k, flags, found);
    BootedColumns(t, k, flags, found);
    DeservingIds(t.trades, x);
  }

  lemma {:induction false} BootedFlagsExist(t: Tables, k: nat, x: Uuid)
    requires Booted(t, k) && x in t.flags
    ensures Find(t.trades, x).Some? && Revenge.BatchFlag(t.trades, Find(t.trades, x).value)
  {
    var flags, found :| StoppedAt(t, k, flags, found);
    BootedColumns(t, k, flags, found);
    var p :| p in t.trades && Revenge.BatchFlag(t.trades, p) && p.input.id == x;
    var i :| 0 <= i < |t.trades| && t.trades[i] == p;
    FindIndex(t.trades, i);
  }

  lemma {:induction false} FlagsCounted(ts: seq<Trade>, u: Uuid)
    requires UniqueIds(ts)
    ensures |Filter(ts, FlaggedOf(Deserving(ts), u))| == |Filter(ts, RevengeOf(ts, u))|
    ensures u !in Users(ts) ==> Filter(ts, RevengeOf(ts, u)) == []
  {
    forall p | p in ts
      ensures FlaggedOf(Deserving(ts), u)(p) == RevengeOf(ts, u)(p)
    {
      DeservingIds(ts, p);
    }
    FilterAgree(ts, FlaggedOf(Deserving(ts), u), RevengeOf(ts, u));
    if u !in Users(ts) {
      FilterNone(ts, RevengeOf(ts, u));
    }
  }

  lemma {:induction false} BootedRevenge(t: Tables, k: nat, u: Uuid)
    requires Booted(t, k)
    ensures Store.Number(t.revenge, u) == if k < 3 then 0 else |Filter(t.trades, RevengeOf(t.trades, u))|
  {
    var flags, found :| StoppedAt(t, k, flags, found);
    FilledColumns(Bare(t.trades, flags), if k <= STATEMENTS then k else STATEMENTS);
    FlagsCounted(t.trades, u);
    assert {} + Deserving(t.trades) == Deserving(t.trades);
  }

  lemma {:induction false} BootedCounter(t: Tables, k: nat, u: Uuid)
    requires Booted(t, k)
    ensures Ledger.Counter(t.over, u) == Ledger.Rows(t.over, u)
  {
    var flags, found :| StoppedAt(t, k, flags, found);
    if k > STATEMENTS {
      EventsAreExact(Bare(t.trades, flags), found, u);
    }
  }

  lemma {:induction false} BootedCell(t: Tables, k: nat, b: EmotionStats.Bucket, won: bool)
    requires Booted(t, k)
    ensures EmotionStats.Side(EmotionStats.At(t.cells, b), won)
      == if k < 5 then 0 else EmotionStats.Batch(t.trades, b, won)
  {
    var flags, found :| StoppedAt(t, k, flags, found);
    BootedColumns(t, k, flags, found);
    CellsFilled(Bare(t.trades, flags), b, won);
  }

  /** Without a seed the service starts from empty tables, which no backfill would change. */
  lemma {:induction false} EmptyIsBooted()
    ensures Booted(Bare([], {}), STATEMENTS + 1)
  {
    forall u: Uuid
      ensures SortedEntries([], u) == []
    {
      NoUserNoEntries([], u);
    }
    assert IsDetection([], []);
    BackfilledWithoutTrades({}, []);
    assert Sessions([]) == {};
    assert StoppedAt(Bare([], {}), STATEMENTS + 1, {}, []);
  }
}
