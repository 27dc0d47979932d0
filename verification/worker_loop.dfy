/** The consumer loop of the worker: a recovery when its timer has fired, then a read, then the
    messages one after another. The answers of a whole run are a script, one line for each turn. */
module WorkerLoop {
  import opened Prelude
  import opened Codec
  import opened Trades
  import opened Store
  import opened Pipeline
  import opened RunningSystem
  import opened Calculators
  import opened Consumer
  import opened Worker
  import D = Delivery
  import Columns
  import Consistency
  import Guarantees
  import SessionTilt

  /** What a turn sees of the system. */
  datatype View = View(t: Tables, entries: seq<Payload>, next: nat, pel: map<D.Id, D.Pending>)

  function ViewOf(c: Cluster): View
    reads c
  {
    View(c.t, c.entries, c.next, c.pel)
  }

  /** A batch: the stream when the command ran, the messages, what each call saw, and the tables before
      and after each call. */
  datatype Batch = Batch(at: seq<Payload>, msgs: seq<Message>, seen: seq<Seen>, ts: seq<Tables>)

  ghost predicate BatchOf(v: View, u: View, answers: D.Id -> Answers, b: Batch) {
    && b.ts != [] && Chain(b.ts[0], u.t, b.msgs, answers, b.seen, b.ts)
    && v.t.trades <= b.ts[0].trades && b.ts[0] == v.t.(trades := b.ts[0].trades)
    && v.entries <= b.at <= u.entries && AllStored(u.entries, b.msgs)
  }

  /** The messages lead from one state of the tables to the other, and name trades stored in the first. */
  ghost predicate Chain(t: Tables, u: Tables, msgs: seq<Message>, answers: D.Id -> Answers, seen: seq<Seen>,
                        ts: seq<Tables>)
  {
    && InTurn(ts, msgs, answers, seen) && ts[0] == t && ts[|msgs|] == u
    && forall i :: 0 <= i < |msgs| ==> Known(t.trades, msgs[i].payload)
  }

  /** The trade that the event names is stored. */
  ghost predicate Known(ts: seq<Trade>, p: Payload) {
    p.Opened? || p.Closed? ==> Find(ts, p.trade).Some?
  }

  /** Every entry of the stream names a stored trade. */
  lemma {:induction false} EntriesAreKnown(c: Cluster, msgs: seq<Message>)
    requires c.Valid() && c.FromBoot() && AllStored(c.entries, msgs)
    ensures forall i :: 0 <= i < |msgs| ==> Known(c.t.trades, msgs[i].payload)
  {
    c.IsReached();
    Consistency.InvAlways(c.first, c.steps);
    forall i | 0 <= i < |msgs|
      ensures Known(c.t.trades, msgs[i].payload)
    {
      assert Consistency.FromTable(c.w.t.trades, c.entries[msgs[i].id]);
    }
  }

  predicate RecoveryFails(pending: seq<PendingEntry>, a: RecoveryAnswers) {
    !a.pending || (pending != [] && a.claim != Ok)
  }

  /** A recovery: the lowest 32 idle entries are listed, those still idle are taken over, and the
      readable ones are handled, unless a command fails. */
  ghost predicate Recovered(v: View, u: View, a: RecoveryAnswers, answers: D.Id -> Answers, b: Batch,
                            pending: seq<PendingEntry>)
  {
    && BatchOf(v, u, answers, b) && u.next == v.next
    && (if a.pending then LowestIdle(v.pel, a.idle, 32, pending) else pending == [])
    && var ids, fails := Claimed(IdsOf(pending), a), RecoveryFails(pending, a);
    && HandedOf(b.msgs) == (if fails then [] else Filter(Taken(ids, CountsOf(pending)), Readable(b.at)))
    && u.pel == AfterTaking(v.pel, ids, CountsOf(pending), b.at, !fails, a.acks) - Removed(b.msgs, answers, b.seen)
  }

  /** A read: the next 32 entries, or all there are, are delivered, and the readable ones are handled,
      unless the command fails. */
  ghost predicate ReadIn(v: View, u: View, a: ReadAnswers, answers: D.Id -> Answers, b: Batch) {
    && BatchOf(v, u, answers, b)
    && var n := if a.result.Failed? then 0 else Available(b.at, v.next, 32);
    && u.next == v.next + n && HandedOf(b.msgs) == ReadMessages(v.next, n, b.at, a)
    && u.pel == ReadPel(v.next, v.pel, n, b.at, a) - Removed(b.msgs, answers, b.seen)
  }

  // ---- The methods.

  /** An empty batch leaves nothing to do. */
  ghost method Settle(c: Cluster)
    requires c.Valid() && (Waits(c.w, D.Handling([])) || Waits(c.w, D.Idle))
    modifies c`worlds, c`steps, c`w
    ensures c.Valid() && Waits(c.w, D.Idle)
    ensures c.w.d.tries == old(c.w.d.tries)
  {
    if c.w.d.locals != map[WORKER := D.Idle] {
      RestStep(c);
    }
  }

  /** Handles what a command returned. */
  method HandleBatch(c: Cluster, msgs: seq<Message>, answers: D.Id -> Answers)
    returns (ghost seen: seq<Seen>, ghost ts: seq<Tables>)
    requires c.Valid() && AllStored(c.entries, msgs)
    requires c.FromBoot() && (Waits(c.w, D.Handling(HandedOf(msgs))) || (msgs == [] && Waits(c.w, D.Idle)))
    modifies c
    ensures c.Valid() && Waits(c.w, D.Idle) && old(c.entries) <= c.entries && c.next == old(c.next)
    ensures AllStored(c.entries, msgs) && c.w.d.tries == old(c.w.d.tries) + Attempts(msgs)
    ensures Chain(old(c.t), c.t, msgs, answers, seen, ts)
    ensures c.pel == old(c.pel) - Removed(msgs, answers, seen)
  {
    EntriesAreKnown(c, msgs);
    if |msgs| == 0 {
      assert HandedOf(msgs) == [];
      Settle(c);
      return [], [c.t];
    }
    seen, ts := HandleAll(c, msgs, answers);
  }

  /** One recovery: every message that was taken over is handled, and costs an attempt exactly when
      its count before the claim was below the limit. */
  method RecoverStuck(c: Cluster, a: RecoveryAnswers, answers: D.Id -> Answers)
    returns (ghost b: Batch, ghost pending: seq<PendingEntry>)
    requires c.Valid() && c.FromBoot() && Waits(c.w, D.Idle)
    modifies c
    ensures c.Valid() && Waits(c.w, D.Idle)
    ensures Recovered(old(ViewOf(c)), ViewOf(c), a, answers, b, pending)
    ensures CountsBefore(old(c.pel), b.msgs) && c.w.d.tries == old(c.w.d.tries) + Attempts(b.msgs)
  {
    ghost var at, seen, ts;
    var msgs, err;
    msgs, err, pending, at := ClaimStuck(c, D.BATCH_SIZE, a);
    ClaimedCounts(old(c.pel), pending, a, msgs, at);
    seen, ts := HandleBatch(c, msgs, answers);
    b := Batch(at, msgs, seen, ts);
  }

  lemma {:induction false} ClaimedCounts(pel: map<D.Id, D.Pending>, pending: seq<PendingEntry>, a: RecoveryAnswers,
                                         msgs: seq<Message>, at: seq<Payload>)
    requires FromList(pel, pending)
    requires HandedOf(msgs) == [] || HandedOf(msgs) ==
             Filter(Taken(Claimed(IdsOf(pending), a), CountsOf(pending)), Readable(at))
    ensures CountsBefore(pel, msgs)
  {
    if HandedOf(msgs) != [] {
      ListedIds(pel, pending);
      FilteredNoRepeats(IdsOf(pending), In(a.still));
      TakenCounts(pel, pending, Claimed(IdsOf(pending), a), msgs, Readable(at));
    }
  }

  /** The read alone. */
  ghost predicate Fetched(v: View, u: View, a: ReadAnswers, msgs: seq<Message>, at: seq<Payload>) {
    && v.t.trades <= u.t.trades && u.t == v.t.(trades := u.t.trades) && v.entries <= at <= u.entries
    && var n := if a.result.Failed? then 0 else Available(at, v.next, 32);
    && u.next == v.next + n && HandedOf(msgs) == ReadMessages(v.next, n, at, a)
    && u.pel == ReadPel(v.next, v.pel, n, at, a)
  }

  method ReadNew(c: Cluster, a: ReadAnswers) returns (msgs: seq<Message>, ghost at: seq<Payload>)
    requires c.Valid() && Waits(c.w, D.Idle)
    modifies c
    ensures c.Valid() && AllStored(c.entries, msgs) && Fetched(old(ViewOf(c)), ViewOf(c), a, msgs, at)
    ensures Waits(c.w, if a.result != Ok then D.Idle else D.Handling(HandedOf(msgs)))
    ensures c.w.d.tries == old(c.w.d.tries)
  {
    var err;
    msgs, err, at := Read(c, D.BATCH_SIZE, a);
  }

  lemma {:induction false} FetchedThenHandled(v: View, mid: View, u: View, a: ReadAnswers, answers: D.Id -> Answers,
                                              b: Batch)
    requires Fetched(v, mid, a, b.msgs, b.at) && Chain(mid.t, u.t, b.msgs, answers, b.seen, b.ts)
    requires u.next == mid.next && mid.entries <= u.entries && AllStored(u.entries, b.msgs)
    requires u.pel == mid.pel - Removed(b.msgs, answers, b.seen)
    ensures ReadIn(v, u, a, answers, b)
  {
  }

  /** One read, and the messages that it returned. */
  method ReadAndHandle(c: Cluster, a: ReadAnswers, answers: D.Id -> Answers) returns (ghost b: Batch)
    requires c.Valid() && c.FromBoot() && Waits(c.w, D.Idle)
    modifies c
    ensures c.Valid() && Waits(c.w, D.Idle)
    ensures ReadIn(old(ViewOf(c)), ViewOf(c), a, answers, b)
    ensures c.w.d.tries == old(c.w.d.tries) + Attempts(b.msgs)
  {
    ghost var at, seen, ts;
    var msgs;
    msgs, at := ReadNew(c, a);
    ghost var mid := ViewOf(c);
    assert a.result != Ok ==> |HandedOf(msgs)| == 0;
    seen, ts := HandleBatch(c, msgs, answers);
    b := Batch(at, msgs, seen, ts);
    FetchedThenHandled(old(ViewOf(c)), mid, ViewOf(c), a, answers, b);
  }

  // ---- One turn, and the loop.

  /** The answers to one turn: whether the timer of the recovery has fired, what the recovery meets,
      the read, and the messages of each. */
  datatype TurnAnswers = TurnAnswers(
    due: bool, recovery: RecoveryAnswers, again: D.Id -> Answers, read: ReadAnswers, newly: D.Id -> Answers)

  /** What a turn did: the recovery's list and batch, the system between the two, and the read's batch. */
  datatype TurnLog = TurnLog(pending: seq<PendingEntry>, recovered: Batch, between: View, newly: Batch)

  ghost predicate TurnTaken(v: View, u: View, a: TurnAnswers, log: TurnLog) {
    && (if a.due then Recovered(v, log.between, a.recovery, a.again, log.recovered, log.pending)
        else log.between == v && log.recovered.msgs == [])
    && ReadIn(log.between, u, a.read, a.newly, log.newly)
  }

  ghost predicate Sane(v: View) {
    UniqueIds(v.t.trades) && v.next <= |v.entries| && forall id :: id in v.pel ==> id < v.next
  }

  method Turn(c: Cluster, a: TurnAnswers) returns (ghost log: TurnLog)
    requires c.Valid() && c.FromBoot() && Waits(c.w, D.Idle)
    modifies c
    ensures c.Valid() && Waits(c.w, D.Idle)
    ensures TurnTaken(old(ViewOf(c)), ViewOf(c), a, log)
    ensures c.w.d.tries == old(c.w.d.tries) + Attempts(log.recovered.msgs) + Attempts(log.newly.msgs)
  {
    ghost var pending, recovered := [], Batch(c.entries, [], [], [c.t]);
    if a.due {
      recovered, pending := RecoverStuck(c, a.recovery, a.again);
    }
    ghost var between := ViewOf(c);
    ghost var newly := ReadAndHandle(c, a.read, a.newly);
    log := TurnLog(pending, recovered, between, newly);
  }

  ghost predicate RunTaken(views: seq<View>, script: seq<TurnAnswers>, logs: seq<TurnLog>) {
    && |views| == |script| + 1 && |logs| == |script|
    && (forall i :: 0 <= i < |views| ==> Sane(views[i]))
    && forall i :: 0 <= i < |script| ==> TurnTaken(views[i], views[i + 1], script[i], logs[i])
  }

  lemma {:induction false} OneMoreTurn(views: seq<View>, script: seq<TurnAnswers>, logs: seq<TurnLog>, v: View,
                                       log: TurnLog)
    requires |logs| < |script| && RunTaken(views, script[..|logs|], logs) && Sane(v)
    requires TurnTaken(views[|logs|], v, script[|logs|], log)
    ensures RunTaken(views + [v], script[..|logs| + 1], logs + [log])
  {
    var n := |logs|;
    forall i | 0 <= i < n + 1
      ensures TurnTaken((views + [v])[i], (views + [v])[i + 1], script[..n + 1][i], (logs + [log])[i])
    {
      if i < n {
        assert script[..n][i] == script[..n + 1][i];
      }
    }
  }

  method NextTurn(c: Cluster, script: seq<TurnAnswers>, i: nat, ghost was: seq<View>, ghost before: seq<TurnLog>)
    returns (ghost views: seq<View>, ghost logs: seq<TurnLog>)
    requires c.Valid() && c.FromBoot() && Waits(c.w, D.Idle) && i < |script|
    requires RunTaken(was, script[..i], before) && was[i] == ViewOf(c)
    modifies c
    ensures c.Valid() && Waits(c.w, D.Idle)
    ensures RunTaken(views, script[..i + 1], logs) && views[0] == was[0] && views[i + 1] == ViewOf(c)
  {
    ghost var log := Turn(c, script[i]);
    OneMoreTurn(was, script, before, ViewOf(c), log);
    views, logs := was + [ViewOf(c)], before + [log];
  }

  method Turns(c: Cluster, script: seq<TurnAnswers>) returns (ghost views: seq<View>, ghost logs: seq<TurnLog>)
    requires c.Valid() && c.FromBoot() && Waits(c.w, D.Idle)
    modifies c
    ensures c.Valid() && Waits(c.w, D.Idle)
    ensures RunTaken(views, script, logs) && views[0] == old(ViewOf(c)) && views[|script|] == ViewOf(c)
  {
    var i := 0;
    views, logs := [ViewOf(c)], [];
    while i < |script|
      invariant i <= |script| && c.Valid() && Waits(c.w, D.Idle)
      invariant RunTaken(views, script[..i], logs) && views[0] == old(ViewOf(c)) && views[i] == ViewOf(c)
    {
      views, logs := NextTurn(c, script, i, views, logs);
      i := i + 1;
    }
    assert script[..i] == script;
  }

  /** The consumer loop, a turn for each line of the script: what it leaves is what those turns do, and
      it is sound whatever the script is. With every read and every message served, all that it
      delivers is settled. */
  method Run(c: Cluster, script: seq<TurnAnswers>) returns (ghost views: seq<View>, ghost logs: seq<TurnLog>)
    requires c.Valid() && c.FromBoot() && Waits(c.w, D.Idle)
    modifies c
    ensures c.Valid() && Waits(c.w, D.Idle) && Guarantees.Sound(c)
    ensures RunTaken(views, script, logs) && views[0] == old(ViewOf(c)) && views[|script|] == ViewOf(c)
    ensures AllServed(script) ==> Progress(old(ViewOf(c)), ViewOf(c), |script|)
  {
    views, logs := Turns(c, script);
    Guarantees.ReachedIsSound(c);
    if AllServed(script) {
      ServedRun(views, script, logs);
    }
  }

  // ---- What a run with every answer served does.

  /** Every statement takes effect and says so. The notice need not. */
  predicate Served(a: Answers) {
    && a.plan == PlanAnswers(true, Ok) && a.win == WinAnswers(true, Ok) && a.tilt == Ok
    && a.revenge == RevengeAnswers(true, true, Ok, Ok) && a.ack == Ok
    && a.over.count && a.over.dedupe && a.over.event == a.over.tally == Ok
  }

  ghost predicate ReadServed(a: TurnAnswers) {
    a.read.result == Ok && (forall id :: a.read.acks(id)) && forall id :: Served(a.newly(id))
  }

  /** Recoveries may still fail in any way. */
  ghost predicate AllServed(script: seq<TurnAnswers>) {
    forall i :: 0 <= i < |script| ==> ReadServed(script[i])
  }

  /** The only message that cannot be completed: a closed trade of a session with closed trades of two
      users, for which the statement of the tilt fails. */
  ghost predicate Blocked(ts: seq<Trade>, p: Payload) {
    p.Closed? && Columns.SharedSession(ts, p.session)
  }

  lemma {:induction false} KnownLater(a: seq<Trade>, b: seq<Trade>, p: Payload)
    requires a <= b && Known(a, p)
    ensures Known(b, p)
  {
    if p.Opened? || p.Closed? {
      assert b[..|a|] == a;
      FindPrefix(b, |a|, |b|, p.trade);
      assert b[..|b|] == b;
    }
  }

  lemma {:induction false} SharedLater(a: seq<Trade>, b: seq<Trade>, s: Uuid)
    requires a <= b && Columns.SharedSession(a, s)
    ensures Columns.SharedSession(b, s)
  {
    var i, j :| Columns.SharedAt(a, s, i, j);
    assert Columns.SharedAt(b, s, i, j);
  }

  lemma {:induction false} BlockedLater(a: seq<Trade>, b: seq<Trade>, p: Payload)
    requires a <= b && Blocked(a, p)
    ensures Blocked(b, p)
  {
    SharedLater(a, b, p.session);
  }

  lemma {:induction false} ServedLeaves(before: Tables, m: Message, a: Answers, s: Seen)
    requires Served(a) && During(before, s) && Known(before.trades, m.payload)
    ensures Leaves(m, a, s) || Blocked(s.third, m.payload)
  {
    KnownLater(before.trades, s.first, m.payload);
    KnownLater(before.trades, s.second, m.payload);
    if m.payload.Closed? && Failures(m.payload, a, s) != 0 {
      SessionTilt.LiveIsBatch(s.third, m.payload.session);
      Columns.SharedExactly(s.third, m.payload.session);
    }
  }

  /** And it cannot be completed below the limit, whatever is answered. */
  lemma {:induction false} BlockedStays(before: Tables, m: Message, a: Answers, s: Seen)
    requires During(before, s) && m.count < 5 && Blocked(before.trades, m.payload)
    ensures !Leaves(m, a, s)
  {
    BlockedLater(before.trades, s.third, m.payload);
    SessionTilt.LiveIsBatch(s.third, m.payload.session);
    Columns.SharedExactly(s.third, m.payload.session);
  }

  lemma {:induction false} TradesGrow(ts: seq<Tables>, msgs: seq<Message>, answers: D.Id -> Answers, seen: seq<Seen>,
                                      i: nat, j: nat)
    requires InTurn(ts, msgs, answers, seen) && i <= j <= |msgs|
    ensures ts[i].trades <= ts[j].trades
    decreases j
  {
    if i < j {
      TradesGrow(ts, msgs, answers, seen, i, j - 1);
      HandledTrades(ts[j - 1], ts[j], msgs[j - 1], answers(msgs[j - 1].id), seen[j - 1]);
    }
  }

  lemma {:induction false} HandledTrades(before: Tables, after: Tables, m: Message, a: Answers, s: Seen)
    requires OneHandled(before, after, m, a, s)
    ensures before.trades <= after.trades == s.after
  {
  }

  lemma {:induction false} ServedMessage(v: View, u: View, answers: D.Id -> Answers, b: Batch, i: nat)
    requires BatchOf(v, u, answers, b) && i < |b.msgs| && Served(answers(b.msgs[i].id))
    ensures Leaves(b.msgs[i], answers(b.msgs[i].id), b.seen[i]) || Blocked(u.t.trades, b.msgs[i].payload)
  {
    var p := b.msgs[i].payload;
    assert OneHandled(b.ts[i], b.ts[i + 1], b.msgs[i], answers(b.msgs[i].id), b.seen[i]);
    TradesGrow(b.ts, b.msgs, answers, b.seen, 0, i);
    TradesGrow(b.ts, b.msgs, answers, b.seen, i + 1, |b.msgs|);
    HandledTrades(b.ts[i], b.ts[i + 1], b.msgs[i], answers(b.msgs[i].id), b.seen[i]);
    KnownLater(b.ts[0].trades, b.ts[i].trades, p);
    ServedLeaves(b.ts[i], b.msgs[i], answers(b.msgs[i].id), b.seen[i]);
    if Blocked(b.seen[i].third, p) {
      BlockedLater(b.seen[i].third, u.t.trades, p);
    }
  }

  /** An entry that was handed out is settled, if its message is served or it does not decode. */
  lemma {:induction false} HandedIsSettled(v: View, u: View, answers: D.Id -> Answers, b: Batch, raw: seq<D.Handed>,
                                           h: D.Handed)
    requires BatchOf(v, u, answers, b) && HandedOf(b.msgs) == Filter(raw, Readable(b.at)) && h in raw
    requires Served(answers(h.id)) && Readable(b.at)(h)
    ensures h.id in Removed(b.msgs, answers, b.seen) || Blocked(u.t.trades, u.entries[h.id])
  {
    FilterMember(raw, Readable(b.at), h);
    var i :| 0 <= i < |b.msgs| && HandedOf(b.msgs)[i] == h;
    ServedMessage(v, u, answers, b, i);
    assert b.msgs[i].id == h.id;
  }

  lemma {:induction false} NewlySettled(v: View, u: View, answers: D.Id -> Answers, b: Batch, raw: seq<D.Handed>,
                                        h: D.Handed)
    requires BatchOf(v, u, answers, b) && HandedOf(b.msgs) == Filter(raw, Readable(b.at)) && h in raw
    requires Served(answers(h.id)) && Readable(b.at)(h) && h.id !in Removed(b.msgs, answers, b.seen)
    ensures h.id < |u.entries| && Blocked(u.t.trades, u.entries[h.id])
  {
    HandedIsSettled(v, u, answers, b, raw, h);
  }

  lemma {:induction false} NewlyPending(next: nat, pel: map<D.Id, D.Pending>, n: nat, entries: seq<Payload>,
                                        a: ReadAnswers, id: D.Id)
    requires id in ReadPel(next, pel, n, entries, a) && id !in pel && a.result == Ok && a.acks(id)
    ensures next <= id < next + n
    ensures D.Handed(id, 1) in D.HandNew(next, n) && Readable(entries)(D.Handed(id, 1))
  {
    var raw := D.HandNew(next, n);
    assert id in Delivered(next, pel, n);
    assert raw[id - next] == D.Handed(id, 1);
    assert id !in Gone(raw, entries, a.acks);
  }

  lemma {:induction false} StillPending(v: View, u: View, a: ReadAnswers, answers: D.Id -> Answers, b: Batch, id: D.Id)
    requires ReadIn(v, u, a, answers, b) && a.result == Ok && id in u.pel
    ensures var n := Available(b.at, v.next, 32);
      && u.next == v.next + n && HandedOf(b.msgs) == Filter(D.HandNew(v.next, n), Readable(b.at))
      && id in ReadPel(v.next, v.pel, n, b.at, a) && id !in Removed(b.msgs, answers, b.seen)
      && BatchOf(v, u, answers, b)
  {
  }

  /** A served read: nothing that it delivered is still pending, except what is blocked. */
  lemma {:induction false} ServedRead(v: View, u: View, a: ReadAnswers, answers: D.Id -> Answers, b: Batch, id: D.Id)
    requires ReadIn(v, u, a, answers, b) && a.result == Ok && a.acks(id) && Served(answers(id))
    requires id in u.pel && id !in v.pel
    ensures v.next <= id < u.next && id < |u.entries| && Blocked(u.t.trades, u.entries[id])
  {
    var n := Available(b.at, v.next, 32);
    StillPending(v, u, a, answers, b, id);
    NewlyPending(v.next, v.pel, n, b.at, a, id);
    NewlySettled(v, u, answers, b, D.HandNew(v.next, n), D.Handed(id, 1));
  }

  /** A served recovery: nothing that it took over is still pending, except what is blocked. */
  lemma {:induction false} ServedRecovery(v: View, u: View, a: RecoveryAnswers, answers: D.Id -> Answers, b: Batch,
                                          pending: seq<PendingEntry>, id: D.Id)
    requires Recovered(v, u, a, answers, b, pending) && a.claim == Ok && a.acks(id) && Served(answers(id))
    requires id in u.pel && id in Claimed(IdsOf(pending), a)
    ensures id < |u.entries| && Blocked(u.t.trades, u.entries[id])
  {
    var ids, counts := Claimed(IdsOf(pending), a), CountsOf(pending);
    var i :| 0 <= i < |ids| && ids[i] == id;
    var raw := Taken(ids, counts);
    var h := raw[i];
    assert id !in Gone(raw, b.at, a.acks);
    assert Readable(b.at)(h);
    HandedIsSettled(v, u, answers, b, raw, h);
  }

  /** `u` comes `n` turns after `v`: the cursor advanced by 32 entries a turn, as long as there were
      any, and every entry delivered in between is settled, except what is blocked. */
  ghost predicate Progress(v: View, u: View, n: nat) {
    && v.entries <= u.entries && v.t.trades <= u.t.trades
    && (u.next >= |v.entries| || u.next >= v.next + 32 * n)
    && forall id :: id in u.pel && id !in v.pel ==> id < |u.entries| && Blocked(u.t.trades, u.entries[id])
  }

  lemma {:induction false} BatchGrows(v: View, u: View, answers: D.Id -> Answers, b: Batch)
    requires BatchOf(v, u, answers, b)
    ensures v.entries <= u.entries && v.t.trades <= u.t.trades
  {
    TradesGrow(b.ts, b.msgs, answers, b.seen, 0, |b.msgs|);
  }

  /** A recovery makes nothing pending. */
  lemma {:induction false} RecoveryShrinks(v: View, u: View, a: RecoveryAnswers, answers: D.Id -> Answers, b: Batch,
                                           pending: seq<PendingEntry>)
    requires Recovered(v, u, a, answers, b, pending)
    ensures u.pel.Keys <= v.pel.Keys
  {
    ReassignedCounts(v.pel, Claimed(IdsOf(pending), a));
  }

  lemma {:induction false} ServedTurn(v: View, u: View, a: TurnAnswers, log: TurnLog)
    requires TurnTaken(v, u, a, log) && ReadServed(a) && v.next <= |v.entries|
    ensures Progress(v, u, 1)
  {
    if a.due {
      BatchGrows(v, log.between, a.again, log.recovered);
      RecoveryShrinks(v, log.between, a.recovery, a.again, log.recovered, log.pending);
    }
    BatchGrows(log.between, u, a.newly, log.newly);
    forall id | id in u.pel && id !in v.pel
      ensures id < |u.entries| && Blocked(u.t.trades, u.entries[id])
    {
      ServedRead(log.between, u, a.read, a.newly, log.newly, id);
    }
  }

  lemma {:induction false} ProgressTwice(v: View, u: View, w: View, n: nat)
    requires Progress(v, u, n) && Progress(u, w, 1) && u.next <= w.next
    ensures Progress(v, w, n + 1)
  {
    forall id | id in w.pel && id !in v.pel
      ensures id < |w.entries| && Blocked(w.t.trades, w.entries[id])
    {
      if id in u.pel {
        BlockedLater(u.t.trades, w.t.trades, u.entries[id]);
      }
    }
  }

  /** Any number of turns whose reads and messages are served: every entry they deliver is settled. */
  lemma {:induction false} ServedRun(views: seq<View>, script: seq<TurnAnswers>, logs: seq<TurnLog>)
    requires RunTaken(views, script, logs) && AllServed(script)
    ensures Progress(views[0], views[|script|], |script|)
  {
    var n := |script|;
    if n > 0 {
      assert ReadServed(script[n - 1]);
      ServedRun(views[..n], script[..n - 1], logs[..n - 1]);
      assert TurnTaken(views[n - 1], views[n], script[n - 1], logs[n - 1]);
      ServedTurn(views[n - 1], views[n], script[n - 1], logs[n - 1]);
      ProgressTwice(views[0], views[n - 1], views[n], n - 1);
    }
  }
}
