/** The five calculators as the worker runs them: queries, a loop, and one write or two, any of
    which may fail or take effect although it reports a failure. What Postgres and Redis answer is
    an input of each method, so each contract says exactly what the call does under those answers. */
module Calculators {
  import opened Prelude
  import opened Codec
  import opened Trades
  import opened Store
  import opened Pipeline
  import opened RunningSystem
  import D = Delivery
  import PlanAdherence
  import SessionTilt
  import Revenge
  import EmotionStats
  import Overtrading
  import Ledger
  import Windowing
  import Columns

  /** The message in hand: the protocol state when the worker took it up, its id and its payload. */
  datatype Here = Here(base: D.State, id: D.Id, p: Payload)

  /** The worker is processing this message. */
  ghost predicate On(w: World, h: Here) {
    && WORKER in h.base.locals && h.base.locals[WORKER].Running? && h.base.locals[WORKER].now.id == h.id
    && h.id < |h.base.group.entries| && h.base.group.entries[h.id] == h.p
    && StreamGrew(h.base, w.d)
  }

  // ---- The answers of the environment, statement by statement. A query is answered or it fails.

  datatype PlanAnswers = PlanAnswers(read: bool, write: Result)

  datatype WinAnswers = WinAnswers(read: bool, write: Result)

  datatype RevengeAnswers = RevengeAnswers(load: bool, look: bool, flag: Result, count: Result)

  /** An XADD, whether the time for a retry is left, and the XADD of the retry. */
  datatype NoticeAnswers = NoticeAnswers(first: Result, alive: bool, second: Result)

  datatype OverAnswers = OverAnswers(count: bool, dedupe: bool, event: Result, tally: Result, notice: NoticeAnswers)

  /** What the trades table was at some moment of the call. */
  ghost predicate SeenBetween(before: seq<Trade>, after: seq<Trade>, seen: seq<Trade>) {
    before <= seen <= after
  }

  /** Others act; the worker stays where it is. */
  method Meantime(c: Cluster, ghost h: Here)
    requires c.Valid() && On(c.w, h)
    modifies c
    ensures c.Valid() && On(c.w, h) && c.w.stage == old(c.w.stage) && EmitsIn(c.steps) == old(EmitsIn(c.steps))
    ensures old(c.t.trades) <= c.t.trades && c.t == old(c.t).(trades := c.t.trades) && old(c.entries) <= c.entries
    ensures forall x :: Find(old(c.t.trades), x).Some? ==> Find(c.t.trades, x) == Find(old(c.t.trades), x)
  {
    c.Others();
    forall x | Find(old(c.t.trades), x).Some?
      ensures Find(c.t.trades, x) == Find(old(c.t.trades), x)
    {
      RowStays(old(c.t.trades), c.t.trades, x);
    }
  }

  // ---- Plan adherence.

  function Scored(scores: map<Uuid, PlanAdherence.Score>, u: Uuid, live: Option<PlanAdherence.Score>)
    : map<Uuid, PlanAdherence.Score>
  {
    match live case None => scores case Some(score) => scores[u := score]
  }

  ghost method PlanReadStep(c: Cluster, h: Here, r: Result)
    requires c.History() && On(c.w, h) && h.p.Closed? && c.w.stage.PlanRead?
    modifies c`worlds, c`steps, c`w
    ensures c.History() && c.w == ReadPlan(old(c.w), h.p.user, r)
  {
    AppliesOneStep(c.w, Work(r));
    c.Log(Work(r), ReadPlan(c.w, h.p.user, r));
  }

  ghost method PlanWriteStep(c: Cluster, h: Here, r: Result)
    requires c.History() && On(c.w, h) && h.p.Closed? && c.w.stage.PlanWrite?
    modifies c`worlds, c`steps, c`w
    ensures c.History() && c.w == WritePlan(old(c.w), h.p.user, old(c.w.stage.asOf), old(c.w.stage.score), r)
  {
    AppliesOneStep(c.w, Work(r));
    c.Log(Work(r), WritePlan(c.w, h.p.user, c.w.stage.asOf, c.w.stage.score, r));
  }

  /** The upsert of the score. */
  method SetPlanAdherenceScore(c: Cluster, u: Uuid, average: real, window: nat, result: Result, ghost h: Here)
    returns (err: bool)
    requires c.Valid() && On(c.w, h) && h.p.Closed? && h.p.user == u
    requires c.w.stage.PlanWrite? && c.w.stage.score == PlanAdherence.Score(average, window)
    modifies c
    ensures c.Valid() && On(c.w, h) && c.w.stage == WinAdd(if err then 1 else 0)
    ensures old(c.t.trades) <= c.t.trades && c.t == old(c.t).(trades := c.t.trades, scores := c.t.scores)
    ensures c.t.scores ==
      if result.Failed? then old(c.t.scores) else old(c.t.scores)[u := PlanAdherence.Score(average, window)]
    ensures err <==> result != Ok
  {
    Meantime(c, h);
    if result != Failed {
      c.t := SetScore(c.t, u, PlanAdherence.Score(average, window));
    }
    PlanWriteStep(c, h, result);
    err := result != Ok;
  }

  /** Sums and counts the ratings of the rows that the query returned. */
  method SumRatings(rows: seq<Windowing.Keyed<Trade>>) returns (sum: int, count: nat)
    requires forall x :: x in rows ==> x.row.input.plan.Some?
    ensures count == |rows| && (forall t :: t in Columns.RowsIn(rows) ==> t.input.plan.Some?)
    ensures sum == Columns.RatingsOf(Columns.RowsIn(rows))
  {
    sum, count := 0, 0;
    Columns.RatingsAreSummed(rows);
    while count < |rows|
      invariant count <= |rows| && sum == Columns.RatingsOf(Columns.RowsIn(rows)[..count])
    {
      assert Columns.RowsIn(rows)[..count + 1][..count] == Columns.RowsIn(rows)[..count];
      assert rows[count] in rows;
      sum := sum + rows[count].row.input.plan.value;
      count := count + 1;
    }
    assert Columns.RowsIn(rows)[..count] == Columns.RowsIn(rows);
  }

  /** The query failed, or there is something to store and the upsert reported a failure. */
  predicate ScoreFails(ts: seq<Trade>, u: Uuid, a: PlanAnswers) {
    !a.read || (PlanAdherence.Batch(ts, u).Some? && a.write != Ok)
  }

  /** The stored score is the batch average of a table that the call saw, one at least as new as the
      table was when the call began, exactly when both statements took effect. */
  method RunPlanAdherence(c: Cluster, u: Uuid, a: PlanAnswers, ghost h: Here)
    returns (err: bool, ghost seen: seq<Trade>)
    requires c.Valid() && On(c.w, h) && h.p.Closed? && h.p.user == u && c.w.stage.PlanRead?
    modifies c
    ensures c.Valid() && On(c.w, h) && c.w.stage == WinAdd(if err then 1 else 0)
    ensures c.t == old(c.t).(trades := c.t.trades, scores := c.t.scores)
    ensures SeenBetween(old(c.t.trades), c.t.trades, seen)
    ensures c.t.scores ==
      if a.read && !a.write.Failed? then Scored(old(c.t.scores), u, PlanAdherence.Batch(seen, u)) else old(c.t.scores)
    ensures err <==> ScoreFails(seen, u, a)
  {
    Meantime(c, h);
    seen := c.t.trades;
    PlanReadStep(c, h, if a.read then Ok else Failed);
    if !a.read {
      return true, seen;
    }
    var rows := PlanAdherence.LastTen(c.t.trades, u);
    PlanAdherence.LiveIsBatch(c.t.trades, u);
    Columns.LastTenHaveRatings(c.t.trades, u);
    var sum, count := SumRatings(rows);
    if count == 0 {
      return false, seen;
    }
    err := SetPlanAdherenceScore(c, u, sum as real / count as real, count, a.write, h);
  }

  // ---- Win rate by emotion.

  ghost method WinAddStep(c: Cluster, h: Here, r: Result)
    requires c.History() && On(c.w, h) && h.p.Closed? && c.w.stage.WinAdd?
    modifies c`worlds, c`steps, c`w
    ensures c.History() && c.w == AddOutcome(old(c.w), h.id, h.p.trade, h.p.user, old(c.w.stage.failed), r)
  {
    AppliesOneStep(c.w, Work(r));
    c.Log(Work(r), AddOutcome(c.w, h.id, h.p.trade, h.p.user, c.w.stage.failed, r));
  }

  lemma {:induction false} UnratedIsNotCounted(w: World, id: D.Id, x: Uuid, u: Uuid, failed: nat)
    requires Find(w.t.trades, x).Some? && !EmotionStats.Rated(Find(w.t.trades, x).value)
    ensures AddOutcome(w, id, x, u, failed, Ok) == w.(stage := TiltStore(failed))
  {
  }

  /** The query failed or found no such trade, or the row counts and the upsert reported a failure. */
  predicate CountFails(ts: seq<Trade>, x: Uuid, a: WinAnswers) {
    !a.read || Find(ts, x).None? || (EmotionStats.Rated(Find(ts, x).value) && a.write != Ok)
  }

  /** The cells after the call: the row's own side of its own cell, if it has one, is one higher
      exactly when both statements took effect; nothing else is. */
  function Counted(cells: EmotionStats.Cells, ts: seq<Trade>, x: Uuid, u: Uuid, a: WinAnswers): EmotionStats.Cells {
    if a.read && Find(ts, x).Some? && !a.write.Failed? then EmotionStats.Record(cells, u, Find(ts, x).value) else cells
  }

  method RunWinRate(c: Cluster, x: Uuid, u: Uuid, a: WinAnswers, ghost h: Here)
    returns (err: bool, ghost seen: seq<Trade>)
    requires c.Valid() && On(c.w, h) && h.p.Closed? && h.p.user == u && h.p.trade == x && c.w.stage.WinAdd?
    modifies c
    ensures c.Valid() && On(c.w, h)
    ensures c.w.stage == TiltStore(old(c.w.stage.failed) + if err then 1 else 0)
    ensures c.t == old(c.t).(trades := c.t.trades, cells := c.t.cells)
    ensures SeenBetween(old(c.t.trades), c.t.trades, seen)
    ensures c.t.cells == Counted(old(c.t.cells), seen, x, u, a)
    ensures err <==> CountFails(seen, x, a)
  {
    var counts: Option<Trade>;
    err, counts, seen := LoadClosedTrade(c, x, a.read, h);
    if counts.Some? {
      err := UpsertEmotionStat(c, x, u, counts.value, a.write, h);
    }
  }

  /** The query: the closed trade, if it has an emotion and an outcome. */
  method LoadClosedTrade(c: Cluster, x: Uuid, answered: bool, ghost h: Here)
    returns (err: bool, counts: Option<Trade>, ghost seen: seq<Trade>)
    requires c.Valid() && On(c.w, h) && h.p.Closed? && h.p.trade == x && c.w.stage.WinAdd?
    modifies c
    ensures c.Valid() && On(c.w, h)
    ensures c.t == old(c.t).(trades := c.t.trades) && old(c.t.trades) <= c.t.trades && seen == c.t.trades
    ensures err <==> !answered || Find(seen, x).None?
    ensures counts == if !err && EmotionStats.Rated(Find(seen, x).value) then Find(seen, x) else None
    ensures c.w.stage ==
      if counts.Some? then old(c.w.stage) else TiltStore(old(c.w.stage.failed) + if err then 1 else 0)
  {
    Meantime(c, h);
    seen := c.t.trades;
    var found := Find(c.t.trades, x);
    err, counts := !answered || found == None, None;
    if err {
      WinAddStep(c, h, Failed);
    } else if found.value.input.emotion == None || found.value.outcome == None {
      UnratedIsNotCounted(c.w, h.id, x, h.p.user, c.w.stage.failed);
      WinAddStep(c, h, Ok);
    } else {
      counts := found;
    }
  }

  ghost method CountStep(c: Cluster, h: Here, row: Trade, r: Result)
    requires c.History() && On(c.w, h) && h.p.Closed? && c.w.stage.WinAdd?
    requires Find(c.w.t.trades, h.p.trade) == Some(row) && EmotionStats.Rated(row)
    modifies c`worlds, c`steps, c`w
    ensures c.History() && c.w.d == old(c.w.d) && c.w.jobs == old(c.w.jobs)
    ensures c.w.t == if r.Failed? then old(c.w.t) else RecordEmotion(old(c.w.t), h.p.user, row)
    ensures c.w.stage == TiltStore(old(c.w.stage.failed) + if r.Ok? then 0 else 1)
  {
    WinAddStep(c, h, r);
  }

  /** The upsert that raises one side of one cell. */
  method UpsertEmotionStat(c: Cluster, x: Uuid, u: Uuid, row: Trade, result: Result, ghost h: Here) returns (err: bool)
    requires c.Valid() && On(c.w, h) && h.p.Closed? && h.p.user == u && h.p.trade == x && c.w.stage.WinAdd?
    requires Find(c.t.trades, x) == Some(row) && row.input.emotion.Some? && row.outcome.Some?
    modifies c
    ensures c.Valid() && On(c.w, h)
    ensures c.w.stage == TiltStore(old(c.w.stage.failed) + if err then 1 else 0)
    ensures old(c.t.trades) <= c.t.trades && c.t == old(c.t).(trades := c.t.trades, cells := c.t.cells)
    ensures Find(c.t.trades, x) == Some(row)
    ensures c.t.cells == if result.Failed? then old(c.t.cells) else EmotionStats.Record(old(c.t.cells), u, row)
    ensures err <==> result != Ok
  {
    Meantime(c, h);
    CountStep(c, h, row, result);
    if result != Failed {
      var bucket := EmotionStats.Bucket(u, row.input.emotion.value);
      c.t := c.t.(cells := EmotionStats.Bump(c.t.cells, bucket, row.outcome == Some(Win)));
    }
    err := result != Ok;
  }

  // ---- Session tilt.

  function Tilted(tilts: map<Uuid, SessionTilt.Tilt>, s: Uuid, tilt: SessionTilt.Tilt): map<Uuid, SessionTilt.Tilt> {
    if tilt.Row? then tilts[s := tilt] else tilts
  }

  lemma {:induction false} StoreTiltFields(w: World, s: Uuid, failed: nat, r: Result)
    ensures var v, live := StoreTilt(w, s, failed, r), SessionTilt.Live(w.t.trades, s);
      && v.d == w.d && v.jobs == w.jobs && v.stage == Done(failed + if r.Ok? && !live.Conflict? then 0 else 1)
      && v.t == w.t.(tilts := if r.Failed? then w.t.tilts else Tilted(w.t.tilts, s, live))
  {
  }

  lemma {:induction false} StoreTiltIsStep(w: World, h: Here, r: Result)
    requires On(w, h) && h.p.Closed? && w.stage.TiltStore?
    ensures OneStep(w, Work(r), StoreTilt(w, h.p.session, w.stage.failed, r))
  {
    AppliesOneStep(w, Work(r));
  }

  ghost method StoreTiltStep(c: Cluster, h: Here, r: Result)
    requires c.History() && On(c.w, h) && h.p.Closed? && c.w.stage.TiltStore?
    modifies c`worlds, c`steps, c`w
    ensures c.History() && c.w == StoreTilt(old(c.w), h.p.session, old(c.w.stage.failed), r)
  {
    StoreTiltIsStep(c.w, h, r);
    c.Log(Work(r), StoreTilt(c.w, h.p.session, c.w.stage.failed, r));
  }

  ghost method TiltStep(c: Cluster, h: Here, r: Result)
    requires c.History() && On(c.w, h) && h.p.Closed? && c.w.stage.TiltStore?
    modifies c`worlds, c`steps, c`w
    ensures c.History() && c.w.d == old(c.w.d) && c.w.jobs == old(c.w.jobs)
    ensures var live := SessionTilt.Live(old(c.w.t.trades), h.p.session);
      && c.w.stage == Done(old(c.w.stage.failed) + if r.Ok? && !live.Conflict? then 0 else 1)
      && c.w.t == old(c.w.t).(tilts :=
           if r.Failed? then old(c.w.t.tilts) else Tilted(old(c.w.t.tilts), h.p.session, live))
  {
    StoreTiltFields(c.w, h.p.session, c.w.stage.failed, r);
    StoreTiltStep(c, h, r);
  }

  predicate TiltFails(ts: seq<Trade>, s: Uuid, result: Result) {
    SessionTilt.Batch(ts, s).Conflict? || result != Ok
  }

  method UpsertSessionTilt(c: Cluster, s: Uuid, result: Result, ghost h: Here) returns (err: bool)
    requires c.Valid() && On(c.w, h) && h.p.Closed? && h.p.session == s && c.w.stage.TiltStore?
    modifies c
    ensures c.Valid() && On(c.w, h)
    ensures c.w.stage == Done(old(c.w.stage.failed) + if err then 1 else 0)
    ensures c.t == old(c.t).(trades := c.t.trades, tilts := c.t.tilts) && old(c.t.trades) <= c.t.trades
    ensures err <==> SessionTilt.Live(c.t.trades, s).Conflict? || result != Ok
    ensures c.t.tilts ==
      if result.Failed? then old(c.t.tilts) else Tilted(old(c.t.tilts), s, SessionTilt.Live(c.t.trades, s))
  {
    Meantime(c, h);
    TiltStep(c, h, result);
    var tilt := SessionTilt.Live(c.t.trades, s);
    if tilt.Row? && result != Failed {
      c.t := SetTilt(c.t, s, tilt);
    }
    err := tilt.Conflict? || result != Ok;
  }

  /** One statement: it stores the batch tilt of a table that it saw, and always fails when two
      users share the session. */
  method RunSessionTilt(c: Cluster, s: Uuid, result: Result, ghost h: Here) returns (err: bool, ghost seen: seq<Trade>)
    requires c.Valid() && On(c.w, h) && h.p.Closed? && h.p.session == s && c.w.stage.TiltStore?
    modifies c
    ensures c.Valid() && On(c.w, h)
    ensures c.w.stage == Done(old(c.w.stage.failed) + if err then 1 else 0)
    ensures c.t == old(c.t).(trades := c.t.trades, tilts := c.t.tilts)
    ensures SeenBetween(old(c.t.trades), c.t.trades, seen)
    ensures err <==> TiltFails(seen, s, result)
    ensures c.t.tilts ==
      if result.Failed? then old(c.t.tilts) else Tilted(old(c.t.tilts), s, SessionTilt.Batch(seen, s))
  {
    err := UpsertSessionTilt(c, s, result, h);
    seen := c.t.trades;
    SessionTilt.LiveIsBatch(c.t.trades, s);
  }

  // ---- The revenge flag.

  ghost method RevengeStep(c: Cluster, h: Here, r: Result)
    requires c.History() && On(c.w, h) && h.p.Opened?
             && (c.w.stage.RevengeLook? || c.w.stage.RevengeSet? || c.w.stage.RevengeBump?)
    modifies c`worlds, c`steps, c`w
    ensures c.History() && c.w == WorkRevenge(old(c.w), h.id, h.p.trade, h.p.user, r)
  {
    AppliesOneStep(c.w, Work(r));
    c.Log(Work(r), WorkRevenge(c.w, h.id, h.p.trade, h.p.user, r));
  }

  ghost method RaiseStep(c: Cluster, h: Here, r: Result)
    requires c.History() && On(c.w, h) && h.p.Opened? && c.w.stage.RevengeSet?
    modifies c`worlds, c`steps, c`w
    ensures c.History() && c.w.d == old(c.w.d) && c.w.jobs == old(c.w.jobs)
    ensures c.w.stage == if r.Ok? then RevengeBump else OverLook(1)
    ensures c.w.t == if r.Failed? then old(c.w.t) else SetFlag(old(c.w.t), h.p.trade)
  {
    RevengeStep(c, h, r);
  }

  ghost method BumpStep(c: Cluster, h: Here, r: Result)
    requires c.History() && On(c.w, h) && h.p.Opened? && c.w.stage.RevengeBump?
    modifies c`worlds, c`steps, c`w
    ensures c.History() && c.w.d == old(c.w.d) && c.w.jobs == old(c.w.jobs)
    ensures c.w.stage == OverLook(if r.Ok? then 0 else 1)
    ensures c.w.t == if r.Failed? then old(c.w.t) else BumpRevenge(old(c.w.t), h.p.user)
  {
    RevengeStep(c, h, r);
  }

  /** UPDATE trades SET revenge_flag. */
  method SetRevengeFlag(c: Cluster, x: Uuid, result: Result, ghost h: Here) returns (err: bool)
    requires c.Valid() && On(c.w, h) && h.p.Opened? && h.p.trade == x && c.w.stage.RevengeSet?
    modifies c
    ensures c.Valid() && On(c.w, h)
    ensures c.w.stage == if err then OverLook(1) else RevengeBump
    ensures old(c.t.trades) <= c.t.trades && c.t == old(c.t).(trades := c.t.trades, flags := c.t.flags)
    ensures old(c.entries) <= c.entries
    ensures c.t.flags == if result.Failed? then old(c.t.flags) else old(c.t.flags) + {x}
    ensures err <==> result != Ok
    ensures Find(old(c.t.trades), h.p.trade).Some? ==> Find(c.t.trades, h.p.trade) == Find(old(c.t.trades), h.p.trade)
  {
    Meantime(c, h);
    RaiseStep(c, h, result);
    if result != Failed {
      c.t := SetFlag(c.t, x);
    }
    err := result != Ok;
  }

  method IncrementRevengeCount(c: Cluster, u: Uuid, result: Result, ghost h: Here) returns (err: bool)
    requires c.Valid() && On(c.w, h) && h.p.Opened? && h.p.user == u && c.w.stage.RevengeBump?
    modifies c
    ensures c.Valid() && On(c.w, h)
    ensures c.w.stage == OverLook(if err then 1 else 0)
    ensures old(c.t.trades) <= c.t.trades && c.t == old(c.t).(trades := c.t.trades, revenge := c.t.revenge)
    ensures old(c.entries) <= c.entries
    ensures c.t.revenge == if result.Failed? then old(c.t.revenge) else Raised(old(c.t.revenge), u)
    ensures !result.Failed? ==>
      u in c.t.revenge && c.t.revenge[u] == 1 + if u in old(c.t.revenge) then old(c.t.revenge)[u] else 0
    ensures err <==> result != Ok
    ensures Find(old(c.t.trades), h.p.trade).Some? ==> Find(c.t.trades, h.p.trade) == Find(old(c.t.trades), h.p.trade)
  {
    Meantime(c, h);
    BumpStep(c, h, result);
    if result != Failed {
      c.t := BumpRevenge(c.t, u);
    }
    err := result != Ok;
  }

  /** Both queries were answered, and what they showed calls for the flag. */
  predicate FlagDue(ts: seq<Trade>, x: Uuid, u: Uuid, a: RevengeAnswers) {
    a.load && a.look && Find(ts, x).Some? && Revenge.LiveFlag(ts, u, Find(ts, x).value)
  }

  /** A query failed or found no such trade, or one of the two writes that are due reported a failure. */
  predicate FlagFails(ts: seq<Trade>, x: Uuid, u: Uuid, a: RevengeAnswers) {
    || !a.load || Find(ts, x).None? || (Revenge.Upset(Find(ts, x).value) && !a.look)
    || (FlagDue(ts, x, u, a) && (a.flag != Ok || a.count != Ok))
  }

  /** The flag is raised exactly when a table seen during the call justifies it, and the counter
      after it, as far as the writes took effect. */
  method RunRevengeFlag(c: Cluster, x: Uuid, u: Uuid, a: RevengeAnswers, ghost h: Here)
    returns (err: bool, ghost seen: seq<Trade>)
    requires c.Valid() && On(c.w, h) && h.p.Opened? && h.p.user == u && h.p.trade == x && c.w.stage.RevengeLook?
    modifies c
    ensures c.Valid() && On(c.w, h)
    ensures c.w.stage == OverLook(if err then 1 else 0)
    ensures c.t == old(c.t).(trades := c.t.trades, flags := c.t.flags, revenge := c.t.revenge)
    ensures SeenBetween(old(c.t.trades), c.t.trades, seen) && old(c.entries) <= c.entries
    ensures err <==> FlagFails(seen, x, u, a)
    ensures c.t.flags ==
      if FlagDue(seen, x, u, a) && !a.flag.Failed? then old(c.t.flags) + {x} else old(c.t.flags)
    ensures c.t.revenge ==
      if FlagDue(seen, x, u, a) && a.flag == Ok && !a.count.Failed? then Raised(old(c.t.revenge), u)
      else old(c.t.revenge)
  {
    var upset: Option<Trade>, flag: bool;
    err, upset := LoadOpenedTrade(c, x, a.load, h);
    seen := c.t.trades;
    if upset.Some? {
      err, flag, seen := LookForLosingClose(c, x, u, upset.value, a.look, h);
      if !err && flag {
        err := FlagAndCount(c, x, u, a.flag, a.count, h);
      }
    }
  }

  /** The first query: the opened trade, if its emotion qualifies. */
  method LoadOpenedTrade(c: Cluster, x: Uuid, answered: bool, ghost h: Here) returns (err: bool, upset: Option<Trade>)
    requires c.Valid() && On(c.w, h) && h.p.Opened? && h.p.trade == x && c.w.stage.RevengeLook?
    modifies c
    ensures c.Valid() && On(c.w, h)
    ensures old(c.t.trades) <= c.t.trades && c.t == old(c.t).(trades := c.t.trades) && old(c.entries) <= c.entries
    ensures err <==> !answered || Find(c.t.trades, x).None?
    ensures upset == if !err && Revenge.Upset(Find(c.t.trades, x).value) then Find(c.t.trades, x) else None
    ensures c.w.stage == if upset.Some? then RevengeLook else OverLook(if err then 1 else 0)
  {
    Meantime(c, h);
    var found := Find(c.t.trades, x);
    err, upset := !answered || found == None, None;
    if !err && Revenge.Upset(found.value) {
      return false, found;
    }
    RevengeStep(c, h, if answered then Ok else Failed);
  }

  method FlagAndCount(c: Cluster, x: Uuid, u: Uuid, flag: Result, count: Result, ghost h: Here) returns (err: bool)
    requires c.Valid() && On(c.w, h) && h.p.Opened? && h.p.user == u && h.p.trade == x && c.w.stage.RevengeSet?
    modifies c
    ensures c.Valid() && On(c.w, h)
    ensures c.w.stage == OverLook(if err then 1 else 0)
    ensures c.t == old(c.t).(trades := c.t.trades, flags := c.t.flags, revenge := c.t.revenge)
            && old(c.t.trades) <= c.t.trades && old(c.entries) <= c.entries
    ensures err <==> flag != Ok || count != Ok
    ensures c.t.flags == if flag.Failed? then old(c.t.flags) else old(c.t.flags) + {x}
    ensures c.t.revenge == if flag == Ok && !count.Failed? then Raised(old(c.t.revenge), u) else old(c.t.revenge)
  {
    err := SetRevengeFlag(c, x, flag, h);
    if !err {
      err := IncrementRevengeCount(c, u, count, h);
    }
  }

  /** The look at the losing closes changes nothing but the stage. */
  ghost method LookStep(c: Cluster, h: Here, row: Trade, r: Result)
    requires c.History() && On(c.w, h) && h.p.Opened? && c.w.stage.RevengeLook?
    requires Find(c.w.t.trades, h.p.trade) == Some(row)
    modifies c`worlds, c`steps, c`w
    ensures c.History() && c.w == old(c.w).(stage := c.w.stage)
    ensures c.w.stage == if !r.Ok? then OverLook(1)
                         else if Revenge.LiveFlag(c.w.t.trades, h.p.user, row) then RevengeSet else OverLook(0)
  {
    RevengeStep(c, h, r);
  }

  /** ORDER BY exit_at DESC LIMIT 1, and the comparison with ninety seconds. */
  method LookForLosingClose(c: Cluster, x: Uuid, u: Uuid, row: Trade, answered: bool, ghost h: Here)
    returns (err: bool, flag: bool, ghost seen: seq<Trade>)
    requires c.Valid() && On(c.w, h) && h.p.Opened? && h.p.user == u && h.p.trade == x && c.w.stage.RevengeLook?
    requires Find(c.t.trades, x) == Some(row) && Revenge.Upset(row)
    modifies c
    ensures c.Valid() && On(c.w, h)
    ensures c.w.stage == if err then OverLook(1) else if flag then RevengeSet else OverLook(0)
    ensures old(c.t.trades) <= c.t.trades && seen == c.t.trades && old(c.entries) <= c.entries
    ensures c.t == old(c.t).(trades := c.t.trades)
    ensures Find(c.t.trades, x) == Some(row) && flag == Revenge.LiveFlag(c.t.trades, u, row)
    ensures err <==> !answered
  {
    Meantime(c, h);
    seen := c.t.trades;
    var last := Revenge.LatestLoss(c.t.trades, u, row.input.entryAt);
    err := !answered;
    flag := last.Some? && row.input.entryAt - last.value <= Revenge.REVENGE_WINDOW;
    LookStep(c, h, row, if answered then Ok else Failed);
  }

  // ---- Overtrading.

  ghost method OverStep(c: Cluster, h: Here, r: Result)
    requires c.History() && On(c.w, h) && h.p.Opened?
    requires c.w.stage.OverLook? || c.w.stage.OverDedupe? || c.w.stage.OverAdd? || c.w.stage.OverBump?
    modifies c`worlds, c`steps, c`w
    ensures c.History() && c.w == WorkOvertrading(old(c.w), h.p.user, h.p.at, r)
  {
    AppliesOneStep(c.w, Work(r));
    c.Log(Work(r), WorkOvertrading(c.w, h.p.user, h.p.at, r));
  }

  /** The look at the user's entries changes nothing but the stage. */
  ghost method CountOpensStep(c: Cluster, h: Here, r: Result)
    requires c.History() && On(c.w, h) && h.p.Opened? && c.w.stage.OverLook?
    modifies c`worlds, c`steps, c`w
    ensures c.History() && c.w == CountOpens(old(c.w), h.p.user, h.p.at, old(c.w.stage.failed), r)
  {
    OverStep(c, h, r);
  }

  /** How many of the user's entries the window holds. */
  method CountOpensInWindow(c: Cluster, u: Uuid, at: int, answered: bool, ghost h: Here)
    returns (err: bool, count: nat, ghost seen: seq<Trade>)
    requires c.Valid() && On(c.w, h) && h.p.Opened? && h.p.user == u && h.p.at == at && c.w.stage.OverLook?
    modifies c
    ensures c.Valid() && On(c.w, h)
    ensures c.t == old(c.t).(trades := c.t.trades) && SeenBetween(old(c.t.trades), c.t.trades, seen)
    ensures old(c.entries) <= c.entries
    ensures count == |Filter(EntriesOf(seen, u), Overtrading.Covers(at))| && (err <==> !answered)
    ensures c.w.stage == if err then Done(old(c.w.stage.failed) + 1)
                         else if count <= Overtrading.THRESHOLD then Done(old(c.w.stage.failed))
                         else OverDedupe(count, old(c.w.stage.failed))
  {
    Meantime(c, h);
    seen := c.t.trades;
    count := |Filter(EntriesOf(c.t.trades, u), Overtrading.Covers(at))|;
    CountOpensStep(c, h, if answered then Ok else Failed);
    err := !answered;
  }

  /** Whether the window was reported already. */
  method FindReport(c: Cluster, u: Uuid, at: int, answered: bool, ghost h: Here) returns (err: bool, seen: bool)
    requires c.Valid() && On(c.w, h) && h.p.Opened? && h.p.user == u && h.p.at == at && c.w.stage.OverDedupe?
    modifies c
    ensures c.Valid() && On(c.w, h)
    ensures c.t == old(c.t).(trades := c.t.trades) && old(c.t.trades) <= c.t.trades && old(c.entries) <= c.entries
    ensures seen == (Filter(Ledger.EventsOf(c.t.over.rows, u), Overtrading.EndIn(at)) != []) && (err <==> !answered)
    ensures c.w.stage == if err then Done(old(c.w.stage.failed) + 1)
                         else if seen then Done(old(c.w.stage.failed))
                         else OverAdd(old(c.w.stage.count), old(c.w.stage.failed))
  {
    Meantime(c, h);
    seen := Filter(Ledger.EventsOf(c.t.over.rows, u), Overtrading.EndIn(at)) != [];
    OverStep(c, h, if answered then Ok else Failed);
    err := !answered;
  }

  predicate Crowded(ts: seq<Trade>, u: Uuid, at: int) {
    |Filter(EntriesOf(ts, u), Overtrading.Covers(at))| > Overtrading.THRESHOLD
  }

  /** What the two reads find: what the live detector reports, when both that it needs are answered. */
  function Found(ts: seq<Trade>, rows: seq<Ledger.Row>, u: Uuid, at: int, a: OverAnswers)
    : Option<Overtrading.Detected>
  {
    if a.count && a.dedupe then Overtrading.Look(EntriesOf(ts, u), Ledger.EventsOf(rows, u), at) else None
  }

  /** The two reads of the detector: what the call would report. */
  method LookBack(c: Cluster, u: Uuid, at: int, a: OverAnswers, ghost h: Here)
    returns (err: bool, detected: Option<Overtrading.Detected>, ghost seen: seq<Trade>)
    requires c.Valid() && On(c.w, h) && h.p.Opened? && h.p.user == u && h.p.at == at && c.w.stage.OverLook?
    modifies c
    ensures c.Valid() && On(c.w, h)
    ensures c.t == old(c.t).(trades := c.t.trades) && SeenBetween(old(c.t.trades), c.t.trades, seen)
    ensures old(c.entries) <= c.entries
    ensures detected == Found(seen, c.t.over.rows, u, at, a)
    ensures err <==> !a.count || (Crowded(seen, u, at) && !a.dedupe)
    ensures c.w.stage == if detected.Some? then OverAdd(detected.value.count, old(c.w.stage.failed))
                         else Done(old(c.w.stage.failed) + if err then 1 else 0)
  {
    var count: nat, reported: bool;
    err, count, seen := CountOpensInWindow(c, u, at, a.count, h);
    detected := None;
    if !err && count > Overtrading.THRESHOLD {
      err, reported := FindReport(c, u, at, a.dedupe, h);
      if !err && !reported {
        detected := Some(Overtrading.Detected(at - Overtrading.WINDOW, at, count));
      }
    }
  }

  method AddOvertradingEvent(c: Cluster, u: Uuid, e: Overtrading.Detected, result: Result, ghost h: Here)
    returns (err: bool)
    requires c.Valid() && On(c.w, h) && h.p.Opened? && h.p.user == u
             && e == Overtrading.Detected(h.p.at - Overtrading.WINDOW, h.p.at, e.count)
    requires c.w.stage.OverAdd? && c.w.stage.count == e.count
    modifies c
    ensures c.Valid() && On(c.w, h)
    ensures c.w.stage == if err then Done(old(c.w.stage.failed) + 1) else OverBump(old(c.w.stage.failed))
    ensures old(c.t.trades) <= c.t.trades && c.t == old(c.t).(trades := c.t.trades, over := c.t.over)
    ensures c.t.over == if result.Failed? then old(c.t.over) else Ledger.AddRow(old(c.t.over), u, e)
    ensures !result.Failed? ==> c.t.over.rows == old(c.t.over.rows) + [Ledger.Row(u, e)]
    ensures (err <==> result != Ok) && old(c.entries) <= c.entries
  {
    Meantime(c, h);
    OverStep(c, h, result);
    if result != Failed {
      c.t := AddEvent(c.t, u, e);
    }
    err := result != Ok;
  }

  ghost method CountEventStep(c: Cluster, h: Here, r: Result)
    requires c.History() && On(c.w, h) && h.p.Opened? && c.w.stage.OverBump?
    modifies c`worlds, c`steps, c`w
    ensures c.History() && c.w == CountEvent(old(c.w), h.p.user, old(c.w.stage.failed), r)
  {
    OverStep(c, h, r);
  }

  method IncrementOvertradingCount(c: Cluster, u: Uuid, result: Result, ghost h: Here) returns (err: bool)
    requires c.Valid() && On(c.w, h) && h.p.Opened? && h.p.user == u && c.w.stage.OverBump?
    modifies c
    ensures c.Valid() && On(c.w, h)
    ensures c.w.stage == if err then Done(old(c.w.stage.failed) + 1) else OverEmit(old(c.w.stage.failed), false)
    ensures old(c.t.trades) <= c.t.trades && c.t == old(c.t).(trades := c.t.trades, over := c.t.over)
    ensures c.t.over == if result.Failed? then old(c.t.over) else Ledger.Bump(old(c.t.over), u)
    ensures !result.Failed? ==>
      && u in c.t.over.counters
      && c.t.over.counters[u] == 1 + if u in old(c.t.over.counters) then old(c.t.over.counters)[u] else 0
    ensures (err <==> result != Ok) && old(c.entries) <= c.entries
  {
    Meantime(c, h);
    CountEventStep(c, h, result);
    if result != Failed {
      c.t := BumpOvertrading(c.t, u);
    }
    err := result != Ok;
  }

  // ---- Publishing the notice: one XADD and at most one more.

  function AfterEmit(w: World, p: Payload, failed: nat, appended: bool, again: bool): World
    requires p.Opened?
  {
    w.(stage := if again then OverEmit(failed, true) else Done(failed),
       d := w.d.(group := w.d.group.(entries :=
              if appended then w.d.group.entries + [Received(OvertradingEvent(p.user, p.at))] else w.d.group.entries)))
  }

  ghost method EmitStep(c: Cluster, h: Here, appended: bool, again: bool)
    requires c.History() && On(c.w, h) && h.p.Opened? && c.w.stage.OverEmit? && (again ==> !c.w.stage.last)
    modifies c`worlds, c`steps, c`w
    ensures c.History() && c.w == AfterEmit(old(c.w), h.p, old(c.w.stage.failed), appended, again)
    ensures EmitsIn(c.steps) == old(EmitsIn(c.steps)) + 1
  {
    AppliesOneStep(c.w, Emit(appended, again));
    c.Log(Emit(appended, again), AfterEmit(c.w, h.p, c.w.stage.failed, appended, again));
  }

  /** One XADD, which appends the notice unless it fails. It is retried when it reports a failure, a
      retry is left and the time is not up. */
  method PublishOnce(c: Cluster, u: Uuid, end: int, mayRetry: bool, answer: Result, alive: bool, ghost h: Here)
    returns (retry: bool)
    requires c.Valid() && On(c.w, h) && h.p.Opened? && h.p.user == u && h.p.at == end
    requires c.w.stage.OverEmit? && mayRetry == !c.w.stage.last
    modifies c
    ensures c.Valid() && On(c.w, h) && (retry <==> mayRetry && answer != Ok && alive)
    ensures c.w.stage == if retry then OverEmit(old(c.w.stage.failed), true) else Done(old(c.w.stage.failed))
    ensures old(c.t.trades) <= c.t.trades && c.t == old(c.t).(trades := c.t.trades)
    ensures EmitsIn(c.steps) == old(EmitsIn(c.steps)) + 1
    ensures old(c.entries) <= c.entries
    ensures !answer.Failed? ==> Received(OvertradingEvent(u, end)) in c.entries[|old(c.entries)|..]
  {
    Meantime(c, h);
    retry := mayRetry && answer != Ok && alive;
    ghost var before, more := c.entries, if answer.Failed? then [] else [Received(OvertradingEvent(u, end))];
    Xadd(c, u, end, !answer.Failed?, retry, h);
    NewEntries(old(c.entries), before, more);
  }

  lemma {:induction false} NewEntries(a: seq<Payload>, b: seq<Payload>, more: seq<Payload>)
    requires a <= b
    ensures a <= b + more && forall p :: p in more ==> p in (b + more)[|a|..]
  {
    assert (b + more)[|a|..] == b[|a|..] + more;
  }

  /** The command itself. */
  method Xadd(c: Cluster, u: Uuid, end: int, appended: bool, ghost again: bool, ghost h: Here)
    requires c.Valid() && On(c.w, h) && h.p.Opened? && h.p.user == u && h.p.at == end
    requires c.w.stage.OverEmit? && (again ==> !c.w.stage.last)
    modifies c
    ensures c.Valid() && On(c.w, h) && c.t == old(c.t)
    ensures c.w.stage == if again then OverEmit(old(c.w.stage.failed), true) else Done(old(c.w.stage.failed))
    ensures EmitsIn(c.steps) == old(EmitsIn(c.steps)) + 1
    ensures c.entries == old(c.entries) + if appended then [Received(OvertradingEvent(u, end))] else []
  {
    EmitStep(c, h, appended, again);
    if appended {
      c.entries := c.entries + [Received(OvertradingEvent(u, end))];
    }
  }

  predicate Retried(a: NoticeAnswers) {
    a.first != Ok && a.alive
  }

  /** Some XADD of the notice took effect. */
  predicate Noticed(a: NoticeAnswers) {
    !a.first.Failed? || (Retried(a) && !a.second.Failed?)
  }

  /** One XADD, and one more exactly when the first is retried; the notice is in the stream when one
      of them took effect. */
  method Publish(c: Cluster, u: Uuid, end: int, a: NoticeAnswers, ghost h: Here)
    requires c.Valid() && On(c.w, h) && h.p.Opened? && h.p.user == u && h.p.at == end
    requires c.w.stage.OverEmit? && !c.w.stage.last
    modifies c
    ensures c.Valid() && On(c.w, h)
    ensures c.w.stage == Done(old(c.w.stage.failed))
    ensures old(c.t.trades) <= c.t.trades && c.t == old(c.t).(trades := c.t.trades)
    ensures EmitsIn(c.steps) == old(EmitsIn(c.steps)) + if Retried(a) then 2 else 1
    ensures old(c.entries) <= c.entries
    ensures Noticed(a) ==> Received(OvertradingEvent(u, end)) in c.entries[|old(c.entries)|..]
  {
    var retried := PublishOnce(c, u, end, true, a.first, a.alive, h);
    ghost var mid := c.entries;
    if retried {
      var more := PublishOnce(c, u, end, false, a.second, a.alive, h);
      LaterEntries(old(c.entries), mid, c.entries);
    }
  }

  /** What came into the stream stays there. */
  lemma {:induction false} LaterEntries(a: seq<Payload>, b: seq<Payload>, d: seq<Payload>)
    requires a <= b <= d
    ensures forall p :: p in b[|a|..] || p in d[|b|..] ==> p in d[|a|..]
  {
    assert d[|a|..] == b[|a|..] + d[|b|..];
  }

  /** The event and the counter that one call leaves, when every statement succeeds. */
  function Reported(over: Ledger.Tables, u: Uuid, detected: Option<Overtrading.Detected>): Ledger.Tables {
    match detected case None => over case Some(e) => Ledger.Bump(Ledger.AddRow(over, u, e), u)
  }

  /** A read that was needed failed, or one of the two writes reported a failure. */
  predicate WindowFails(ts: seq<Trade>, rows: seq<Ledger.Row>, u: Uuid, at: int, a: OverAnswers) {
    || !a.count || (Crowded(ts, u, at) && !a.dedupe)
    || (Found(ts, rows, u, at, a).Some? && (a.event != Ok || a.tally != Ok))
  }

  /** Events and counters after the call, as far as the writes took effect. */
  function Recorded(over: Ledger.Tables, detected: Option<Overtrading.Detected>, u: Uuid, a: OverAnswers)
    : Ledger.Tables
  {
    if detected == None || a.event.Failed? then over
    else if a.event != Ok || a.tally.Failed? then Ledger.AddRow(over, u, detected.value)
    else Reported(over, u, detected)
  }

  /** The call records exactly what the live detector sees in a table that it saw, as far as its
      writes take effect, and then sends the notice. A lost notice is not a failure. */
  method RunOvertrading(c: Cluster, u: Uuid, at: int, a: OverAnswers, ghost h: Here)
    returns (err: bool, ghost seen: seq<Trade>)
    requires c.Valid() && On(c.w, h) && h.p.Opened? && h.p.user == u && h.p.at == at && c.w.stage.OverLook?
    modifies c
    ensures c.Valid() && On(c.w, h)
    ensures c.w.stage == Done(old(c.w.stage.failed) + if err then 1 else 0)
    ensures c.t == old(c.t).(trades := c.t.trades, over := c.t.over) && SeenBetween(old(c.t.trades), c.t.trades, seen)
    ensures err <==> WindowFails(seen, old(c.t.over).rows, u, at, a)
    ensures c.t.over == Recorded(old(c.t.over), Found(seen, old(c.t.over).rows, u, at, a), u, a)
    ensures old(c.entries) <= c.entries
    ensures !err && Found(seen, old(c.t.over).rows, u, at, a).Some? && Noticed(a.notice) ==>
      Received(OvertradingEvent(u, at)) in c.entries[|old(c.entries)|..]
  {
    var detected: Option<Overtrading.Detected>;
    err, detected, seen := LookBack(c, u, at, a, h);
    ghost var mid := c.entries;
    if detected.Some? {
      err := Report(c, u, at, detected.value, a, h);
      LaterEntries(old(c.entries), mid, c.entries);
    }
  }

  /** The two writes, and the notice when both succeeded. */
  method Report(c: Cluster, u: Uuid, at: int, e: Overtrading.Detected, a: OverAnswers, ghost h: Here)
    returns (err: bool)
    requires c.Valid() && On(c.w, h) && h.p.Opened? && h.p.user == u && h.p.at == at
    requires e == Overtrading.Detected(at - Overtrading.WINDOW, at, e.count) && c.w.stage.OverAdd?
             && c.w.stage.count == e.count
    modifies c
    ensures c.Valid() && On(c.w, h)
    ensures c.w.stage == Done(old(c.w.stage.failed) + if err then 1 else 0)
    ensures old(c.t.trades) <= c.t.trades && c.t == old(c.t).(trades := c.t.trades, over := c.t.over)
    ensures c.t.over == Recorded(old(c.t.over), Some(e), u, a) && (err <==> a.event != Ok || a.tally != Ok)
    ensures old(c.entries) <= c.entries
    ensures !err && Noticed(a.notice) ==> Received(OvertradingEvent(u, at)) in c.entries[|old(c.entries)|..]
  {
    err := AddOvertradingEvent(c, u, e, a.event, h);
    if !err {
      err := IncrementOvertradingCount(c, u, a.tally, h);
      if !err {
        ghost var mid := c.entries;
        Publish(c, u, at, a.notice, h);
        LaterEntries(old(c.entries), mid, c.entries);
      }
    }
  }
}
