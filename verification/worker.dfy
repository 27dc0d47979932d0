/** The worker: handling the messages of a batch one after another, and deciding whether a message is
    acknowledged, left pending or dead-lettered. What Postgres and Redis answer is an input, so each
    contract says exactly what is done under those answers. */
module Worker {
  import opened Prelude
  import opened Codec
  import opened Trades
  import opened Store
  import opened Pipeline
  import opened RunningSystem
  import opened Calculators
  import opened Consumer
  import D = Delivery
  import PlanAdherence
  import SessionTilt
  import EmotionStats
  import Ledger
  import Overtrading
  import Revenge

  /** The answers to the statements of one message, and to its acknowledgement. */
  datatype Answers = Answers(
    plan: PlanAnswers, win: WinAnswers, tilt: Result, revenge: RevengeAnswers, over: OverAnswers, ack: Result)

  /** What the calculators of one message saw, in order: the trades at three moments of the call and
      at its end, and the event rows at its beginning. */
  datatype Seen = Seen(
    first: seq<Trade>, second: seq<Trade>, third: seq<Trade>, after: seq<Trade>, rows: seq<Ledger.Row>)

  ghost predicate During(before: Tables, s: Seen) {
    before.trades <= s.first <= s.second <= s.third <= s.after && s.rows == before.over.rows
  }

  function One(b: bool): nat {
    if b then 1 else 0
  }

  /** How many calculators fail. */
  function Failures(p: Payload, a: Answers, s: Seen): nat {
    match p
    case Opened(x, u, at) =>
      One(FlagFails(s.first, x, u, a.revenge)) + One(WindowFails(s.second, s.rows, u, at, a.over))
    case Closed(x, u, ses) =>
      One(ScoreFails(s.first, u, a.plan)) + One(CountFails(s.second, x, a.win)) + One(TiltFails(s.third, ses, a.tilt))
    case _ => 0
  }

  /** The tables after the calculators, as far as their statements took effect. */
  function Effect(t: Tables, p: Payload, a: Answers, s: Seen): Tables {
    match p
    case Opened(x, u, at) =>
      var due := FlagDue(s.first, x, u, a.revenge);
      t.(trades := s.after,
         flags := if due && !a.revenge.flag.Failed? then t.flags + {x} else t.flags,
         revenge := if due && a.revenge.flag == Ok && !a.revenge.count.Failed? then Raised(t.revenge, u) else t.revenge,
         over := Recorded(t.over, Found(s.second, t.over.rows, u, at, a.over), u, a.over))
    case Closed(x, u, ses) =>
      t.(trades := s.after,
         scores := if a.plan.read && !a.plan.write.Failed? then Scored(t.scores, u, PlanAdherence.Batch(s.first, u))
                   else t.scores,
         cells := Counted(t.cells, s.second, x, u, a.win),
         tilts := if a.tilt.Failed? then t.tilts else Tilted(t.tilts, ses, SessionTilt.Batch(s.third, ses)))
    case _ => t.(trades := s.after)
  }

  // ---- What a call without a failure did.

  /** For a closed event: each metric was brought up to a table that was seen during the call. */
  ghost predicate ClosedDone(before: Tables, after: Tables, p: Payload, s: Seen)
    requires p.Closed?
  {
    && Find(after.trades, p.trade).Some?
    && after.scores == Scored(before.scores, p.user, PlanAdherence.Batch(s.first, p.user))
    && after.cells == EmotionStats.Record(before.cells, p.user, Find(after.trades, p.trade).value)
    && !SessionTilt.Batch(s.third, p.session).Conflict?
    && after.tilts == Tilted(before.tilts, p.session, SessionTilt.Batch(s.third, p.session))
  }

  /** For an opened event: flag and counter were raised exactly when the losing closes seen called for
      it, and exactly what the detector sees was recorded and counted. */
  ghost predicate OpenedDone(before: Tables, after: Tables, p: Payload, s: Seen)
    requires p.Opened?
  {
    && Find(after.trades, p.trade).Some?
    && (var due := Revenge.LiveFlag(s.first, p.user, Find(after.trades, p.trade).value);
        && after.flags == (if due then before.flags + {p.trade} else before.flags)
        && after.revenge == if due then Raised(before.revenge, p.user) else before.revenge)
    && after.over == Reported(before.over, p.user,
         Overtrading.Look(EntriesOf(s.second, p.user), Ledger.EventsOf(before.over.rows, p.user), p.at))
  }

  lemma {:induction false} CleanClosed(before: Tables, after: Tables, p: Payload, a: Answers, s: Seen)
    requires p.Closed? && Failures(p, a, s) == 0 && During(before, s) && UniqueIds(after.trades)
    requires after == Effect(before, p, a, s)
    ensures ClosedDone(before, after, p, s)
  {
    RowStays(s.second, after.trades, p.trade);
  }

  lemma {:induction false} CleanOpened(before: Tables, after: Tables, p: Payload, a: Answers, s: Seen)
    requires p.Opened? && Failures(p, a, s) == 0 && During(before, s) && UniqueIds(after.trades)
    requires after == Effect(before, p, a, s)
    ensures OpenedDone(before, after, p, s)
  {
    RowStays(s.first, after.trades, p.trade);
    var crowd := Crowded(s.second, p.user, p.at);
    assert !crowd ==> Overtrading.Look(EntriesOf(s.second, p.user), Ledger.EventsOf(s.rows, p.user), p.at) == None;
  }

  // ---- Dispatch.

  method ScoreAndCount(c: Cluster, p: Payload, a: Answers, ghost h: Here)
    returns (failed: nat, ghost first: seq<Trade>, ghost second: seq<Trade>)
    requires c.Valid() && On(c.w, h) && p == h.p && p.Closed? && c.w.stage == PlanRead
    modifies c
    ensures c.Valid() && On(c.w, h) && c.w.stage == TiltStore(failed)
    ensures old(c.t.trades) <= first <= second <= c.t.trades
    ensures failed == One(ScoreFails(first, p.user, a.plan)) + One(CountFails(second, p.trade, a.win))
    ensures c.t == old(c.t).(trades := c.t.trades,
      scores := if a.plan.read && !a.plan.write.Failed?
                then Scored(old(c.t.scores), p.user, PlanAdherence.Batch(first, p.user)) else old(c.t.scores),
      cells := Counted(old(c.t.cells), second, p.trade, p.user, a.win))
  {
    failed := 0;
    var err: bool;
    err, first := RunPlanAdherence(c, p.user, a.plan, h);
    if err {
      failed := failed + 1;
    }
    err, second := RunWinRate(c, p.trade, p.user, a.win, h);
    if err {
      failed := failed + 1;
    }
  }

  method ProcessClosed(c: Cluster, p: Payload, a: Answers, ghost h: Here) returns (failed: nat, ghost s: Seen)
    requires c.Valid() && On(c.w, h) && p == h.p && p.Closed? && c.w.stage == PlanRead
    modifies c
    ensures c.Valid() && On(c.w, h) && c.w.stage == Done(failed)
    ensures During(old(c.t), s)
    ensures failed == Failures(p, a, s)
    ensures c.t == Effect(old(c.t), p, a, s)
  {
    ghost var first, second, third;
    ghost var rows := c.t.over.rows;
    failed, first, second := ScoreAndCount(c, p, a, h);
    var err: bool;
    err, third := RunSessionTilt(c, p.session, a.tilt, h);
    if err {
      failed := failed + 1;
    }
    s := Seen(first, second, third, c.t.trades, rows);
  }

  method FlagAndDetect(c: Cluster, p: Payload, a: Answers, ghost h: Here)
    returns (failed: nat, ghost first: seq<Trade>, ghost second: seq<Trade>)
    requires c.Valid() && On(c.w, h) && p == h.p && p.Opened? && c.w.stage == RevengeLook
    modifies c
    ensures c.Valid() && On(c.w, h) && c.w.stage == Done(failed)
    ensures old(c.t.trades) <= first <= second <= c.t.trades && old(c.entries) <= c.entries
    ensures failed == One(FlagFails(first, p.trade, p.user, a.revenge))
                      + One(WindowFails(second, old(c.t.over.rows), p.user, p.at, a.over))
    ensures var due := FlagDue(first, p.trade, p.user, a.revenge);
      c.t == old(c.t).(trades := c.t.trades,
        flags := if due && !a.revenge.flag.Failed? then old(c.t.flags) + {p.trade} else old(c.t.flags),
        revenge := if due && a.revenge.flag == Ok && !a.revenge.count.Failed? then Raised(old(c.t.revenge), p.user)
                   else old(c.t.revenge),
        over := Recorded(old(c.t.over), Found(second, old(c.t.over.rows), p.user, p.at, a.over), p.user, a.over))
    ensures !WindowFails(second, old(c.t.over.rows), p.user, p.at, a.over) && Noticed(a.over.notice)
            && Found(second, old(c.t.over.rows), p.user, p.at, a.over).Some? ==>
      Received(OvertradingEvent(p.user, p.at)) in c.entries[|old(c.entries)|..]
  {
    failed := 0;
    var err: bool;
    err, first := RunRevengeFlag(c, p.trade, p.user, a.revenge, h);
    ghost var mid := c.entries;
    if err {
      failed := failed + 1;
    }
    err, second := RunOvertrading(c, p.user, p.at, a.over, h);
    LaterEntries(old(c.entries), mid, c.entries);
    if err {
      failed := failed + 1;
    }
  }

  method ProcessOpened(c: Cluster, p: Payload, a: Answers, ghost h: Here) returns (failed: nat, ghost s: Seen)
    requires c.Valid() && On(c.w, h) && p == h.p && p.Opened? && c.w.stage == RevengeLook
    modifies c
    ensures c.Valid() && On(c.w, h) && c.w.stage == Done(failed)
    ensures During(old(c.t), s)
    ensures failed == Failures(p, a, s)
    ensures c.t == Effect(old(c.t), p, a, s)
    ensures old(c.entries) <= c.entries
    ensures !WindowFails(s.second, s.rows, p.user, p.at, a.over) && Noticed(a.over.notice)
            && Found(s.second, s.rows, p.user, p.at, a.over).Some? ==>
      Received(OvertradingEvent(p.user, p.at)) in c.entries[|old(c.entries)|..]
  {
    ghost var first, second;
    ghost var rows := c.t.over.rows;
    failed, first, second := FlagAndDetect(c, p, a, h);
    s := Seen(first, second, c.t.trades, c.t.trades, rows);
  }

  /** Dispatch by the type of the event. */
  method Process(c: Cluster, m: Message, a: Answers, ghost h: Here)
    returns (failed: nat, malformed: bool, ghost s: Seen)
    requires c.Valid() && On(c.w, h) && h.id == m.id && h.p == m.payload && c.w.stage == FirstStatement(m.payload)
    modifies c
    ensures c.Valid() && On(c.w, h) && c.w.stage == Done(failed)
    ensures During(old(c.t), s)
    ensures malformed == m.payload.Malformed? && failed == Failures(m.payload, a, s)
    ensures c.t == Effect(old(c.t), m.payload, a, s)
    ensures failed == 0 && m.payload.Closed? ==> ClosedDone(old(c.t), c.t, m.payload, s)
    ensures failed == 0 && m.payload.Opened? ==> OpenedDone(old(c.t), c.t, m.payload, s)
  {
    failed, malformed := 0, false;
    s := Seen(c.t.trades, c.t.trades, c.t.trades, c.t.trades, c.t.over.rows);
    match m.payload {
      case Opened(_, _, _) =>
        failed, s := ProcessOpened(c, m.payload, a, h);
        if failed == 0 {
          CleanOpened(old(c.t), c.t, m.payload, a, s);
        }
      case Closed(_, _, _) =>
        failed, s := ProcessClosed(c, m.payload, a, h);
        if failed == 0 {
          CleanClosed(old(c.t), c.t, m.payload, a, s);
        }
      case Malformed =>
        malformed := true;
      case _ =>
    }
  }

  // ---- The verdict on one message.

  ghost method GiveUpStep(c: Cluster, m: D.Handed, rest: seq<D.Handed>)
    requires c.History() && Waits(c.w, D.Handling([m] + rest)) && m.count >= D.MAX_DELIVERIES
    modifies c`worlds, c`steps, c`w
    ensures c.History() && c.w == WithLocal(old(c.w), D.Acking(m.id, D.DeadLetter, rest))
  {
    assert ([m] + rest)[1..] == rest;
    AppliesOneStep(c.w, Deliver(D.GiveUp(WORKER)));
    c.Log(Deliver(D.GiveUp(WORKER)), WithLocal(c.w, D.Acking(m.id, D.DeadLetter, rest)));
  }

  ghost function AfterBegin(w: World, m: D.Handed, rest: seq<D.Handed>, p: Payload): World {
    WithLocal(w, D.Running(m, rest)).(
      d := WithLocal(w, D.Running(m, rest)).d.(tries := w.d.tries + multiset{m.id}), stage := FirstStatement(p))
  }

  ghost method BeginStep(c: Cluster, m: D.Handed, rest: seq<D.Handed>, p: Payload)
    requires c.History() && Waits(c.w, D.Handling([m] + rest)) && m.count < D.MAX_DELIVERIES
    requires m.id < |c.w.d.group.entries| && c.w.d.group.entries[m.id] == p
    modifies c`worlds, c`steps, c`w
    ensures c.History() && c.w == AfterBegin(old(c.w), m, rest, p)
  {
    assert ([m] + rest)[1..] == rest;
    AppliesOneStep(c.w, BeginWork);
    c.Log(BeginWork, AfterBegin(c.w, m, rest, p));
  }

  /** The verdict over a finished call. */
  ghost function Verdict(id: D.Id, p: Payload, failed: nat, rest: seq<D.Handed>): D.Local {
    if p.Malformed? then D.Acking(id, D.Poison, rest)
    else if failed > 0 then D.Handling(rest) else D.Acking(id, D.Clean, rest)
  }

  ghost function AfterEnd(w: World, id: D.Id, p: Payload, failed: nat, rest: seq<D.Handed>): World {
    var v := WithLocal(w, Verdict(id, p, failed, rest));
    v.(stage := Resting, d := v.d.(clean := if p.Malformed? || failed > 0 then w.d.clean else w.d.clean + {id}))
  }

  ghost method EndStep(c: Cluster, m: D.Handed, rest: seq<D.Handed>, p: Payload, failed: nat)
    requires c.History() && c.w.d.locals == map[WORKER := D.Running(m, rest)] && c.w.stage == Done(failed)
    requires m.id < |c.w.d.group.entries| && c.w.d.group.entries[m.id] == p
    modifies c`worlds, c`steps, c`w
    ensures c.History() && c.w == AfterEnd(old(c.w), m.id, p, failed, rest)
  {
    AppliesOneStep(c.w, EndWork);
    c.Log(EndWork, AfterEnd(c.w, m.id, p, failed, rest));
  }

  // ---- Handling one message.

  /** The attempt that handling a message costs. */
  function Attempt(m: Message): multiset<D.Id> {
    if m.count < D.MAX_DELIVERIES then multiset{m.id} else multiset{}
  }

  /** Handling the message removes it from the pending list: it was delivered five times already, or
      no calculator failed, and its acknowledgement takes effect. */
  predicate Leaves(m: Message, a: Answers, s: Seen) {
    (m.count >= 5 || Failures(m.payload, a, s) == 0) && !a.ack.Failed?
  }

  /** The tables after handling one message. */
  function Handled(t: Tables, m: Message, a: Answers, s: Seen): Tables {
    if m.count >= 5 then t.(trades := s.after) else Effect(t, m.payload, a, s)
  }

  method GiveUp(c: Cluster, m: Message, ack: Result, ghost rest: seq<D.Handed>) returns (ghost s: Seen)
    requires c.Valid() && Waits(c.w, D.Handling([Handed(m)] + rest)) && m.count >= D.MAX_DELIVERIES
    modifies c
    ensures c.Valid() && Waits(c.w, D.Handling(rest)) && old(c.entries) <= c.entries && c.next == old(c.next)
    ensures c.w.d.tries == old(c.w.d.tries) && During(old(c.t), s) && c.t == old(c.t).(trades := s.after)
    ensures c.pel == if ack.Failed? then old(c.pel) else old(c.pel) - {m.id}
  {
    ghost var t := c.t;
    GiveUpStep(c, Handed(m), rest);
    var err := XAck(c, m.id, ack, D.DeadLetter, rest);
    s := Seen(c.t.trades, c.t.trades, c.t.trades, c.t.trades, t.over.rows);
  }

  method WorkOn(c: Cluster, m: Message, a: Answers, ghost rest: seq<D.Handed>) returns (ghost s: Seen)
    requires c.Valid() && Waits(c.w, D.Handling([Handed(m)] + rest)) && AllStored(c.entries, [m])
    requires m.count < D.MAX_DELIVERIES
    modifies c
    ensures c.Valid() && Waits(c.w, D.Handling(rest)) && old(c.entries) <= c.entries && c.next == old(c.next)
    ensures c.w.d.tries == old(c.w.d.tries) + multiset{m.id} && During(old(c.t), s)
    ensures c.pel == if Failures(m.payload, a, s) == 0 && !a.ack.Failed? then old(c.pel) - {m.id} else old(c.pel)
    ensures c.t == Handled(old(c.t), m, a, s)
    ensures Failures(m.payload, a, s) == 0 ==> m.payload.Malformed? || m.id in c.w.d.clean
  {
    assert [m][0] == m;
    BeginStep(c, Handed(m), rest, m.payload);
    var failed, malformed;
    failed, malformed, s := Process(c, m, a, Here(c.w.d, m.id, m.payload));
    EndStep(c, Handed(m), rest, m.payload, failed);
    ghost var saw := s;
    if failed == 0 || malformed {
      var err := XAck(c, m.id, a.ack, if malformed then D.Poison else D.Clean, rest);
      s := s.(after := c.t.trades);
    }
    SeenLonger(old(c.t), m.payload, a, saw, c.t.trades);
    FailuresLonger(m.payload, a, saw, c.t.trades);
  }

  /** Trades inserted after the calculators returned change only the table itself. */
  lemma {:induction false} SeenLonger(t: Tables, p: Payload, a: Answers, s: Seen, later: seq<Trade>)
    ensures Effect(t, p, a, s.(after := later)) == Effect(t, p, a, s).(trades := later)
  {
  }

  lemma {:induction false} FailuresLonger(p: Payload, a: Answers, s: Seen, later: seq<Trade>)
    ensures Failures(p, a, s.(after := later)) == Failures(p, a, s)
  {
  }

  /** Gives the message up at the limit; otherwise processes it, and acknowledges it unless a
      calculator failed. */
  method Handle(c: Cluster, m: Message, a: Answers, ghost rest: seq<D.Handed>) returns (ghost s: Seen)
    requires c.Valid() && Waits(c.w, D.Handling([Handed(m)] + rest)) && AllStored(c.entries, [m])
    modifies c
    ensures c.Valid() && Waits(c.w, D.Handling(rest)) && old(c.entries) <= c.entries && c.next == old(c.next)
    ensures c.w.d.tries == old(c.w.d.tries) + Attempt(m)
    ensures During(old(c.t), s)
    ensures c.pel == if Leaves(m, a, s) then old(c.pel) - {m.id} else old(c.pel)
    ensures c.t == Handled(old(c.t), m, a, s)
    ensures m.count < 5 && Failures(m.payload, a, s) == 0 ==> m.payload.Malformed? || m.id in c.w.d.clean
  {
    if m.count >= D.MAX_DELIVERIES {
      s := GiveUp(c, m, a.ack, rest);
    } else {
      s := WorkOn(c, m, a, rest);
    }
  }

  function Attempts(msgs: seq<Message>): multiset<D.Id> {
    if msgs == [] then multiset{} else Attempts(msgs[..|msgs| - 1]) + Attempt(msgs[|msgs| - 1])
  }

  // ---- Batches: one message after another.

  /** The ids that a batch removes from the pending list. */
  function Removed(msgs: seq<Message>, answers: D.Id -> Answers, seen: seq<Seen>): set<D.Id>
    requires |seen| == |msgs|
  {
    set i | 0 <= i < |msgs| && Leaves(msgs[i], answers(msgs[i].id), seen[i]) :: msgs[i].id
  }

  /** The tables of a batch message by message: each call begins with what the call before it left. */
  ghost predicate InTurn(ts: seq<Tables>, msgs: seq<Message>, answers: D.Id -> Answers, seen: seq<Seen>) {
    && |seen| == |msgs| && |ts| == |msgs| + 1
    && forall i :: 0 <= i < |msgs| ==> OneHandled(ts[i], ts[i + 1], msgs[i], answers(msgs[i].id), seen[i])
  }

  ghost predicate OneHandled(before: Tables, after: Tables, m: Message, a: Answers, s: Seen) {
    During(before, s) && after == Handled(before, m, a, s)
  }

  lemma {:induction false} OneMoreRemoved(msgs: seq<Message>, answers: D.Id -> Answers, seen: seq<Seen>, s: Seen)
    requires |seen| < |msgs|
    ensures Removed(msgs[..|seen| + 1], answers, seen + [s]) ==
      Removed(msgs[..|seen|], answers, seen)
      + (if Leaves(msgs[|seen|], answers(msgs[|seen|].id), s) then {msgs[|seen|].id} else {})
  {
    var i := |seen|;
    var all, now := seen + [s], msgs[..i + 1];
    forall j | 0 <= j < i
      ensures now[j] == msgs[..i][j] && all[j] == seen[j]
    {
    }
  }

  lemma {:induction false} AttemptsGrow(msgs: seq<Message>, i: nat)
    requires i < |msgs|
    ensures Attempts(msgs[..i + 1]) == Attempts(msgs[..i]) + Attempt(msgs[i])
  {
    assert msgs[..i + 1][..i] == msgs[..i];
  }

  lemma {:induction false} OneMoreSettled(msgs: seq<Message>, answers: D.Id -> Answers, seen: seq<Seen>, s: Seen,
                                          first: map<D.Id, D.Pending>, pel: map<D.Id, D.Pending>,
                                          none: multiset<D.Id>, tries: multiset<D.Id>)
    requires |seen| < |msgs|
    requires pel == first - Removed(msgs[..|seen|], answers, seen) && tries == none + Attempts(msgs[..|seen|])
    ensures var i := |seen|;
      && pel - (if Leaves(msgs[i], answers(msgs[i].id), s) then {msgs[i].id} else {}) ==
           first - Removed(msgs[..i + 1], answers, seen + [s])
      && tries + Attempt(msgs[i]) == none + Attempts(msgs[..i + 1])
  {
    AttemptsGrow(msgs, |seen|);
    OneMoreRemoved(msgs, answers, seen, s);
  }

  method HandleAt(c: Cluster, msgs: seq<Message>, i: nat, a: Answers) returns (ghost s: Seen)
    requires i < |msgs| && c.Valid() && Waits(c.w, D.Handling(HandedOf(msgs)[i..])) && AllStored(c.entries, msgs)
    modifies c
    ensures c.Valid() && Waits(c.w, D.Handling(HandedOf(msgs)[i + 1..]))
    ensures old(c.entries) <= c.entries && c.next == old(c.next) && old(c.t.trades) <= c.t.trades
    ensures c.w.d.tries == old(c.w.d.tries) + Attempt(msgs[i])
    ensures OneHandled(old(c.t), c.t, msgs[i], a, s)
    ensures c.pel == old(c.pel) - if Leaves(msgs[i], a, s) then {msgs[i].id} else {}
  {
    assert HandedOf(msgs)[i..] == [Handed(msgs[i])] + HandedOf(msgs)[i + 1..];
    s := Handle(c, msgs[i], a, HandedOf(msgs)[i + 1..]);
  }

  /** The next message of the batch; `pel` and `tries` are those at its start. */
  method HandleNext(c: Cluster, msgs: seq<Message>, i: nat, answers: D.Id -> Answers, ghost before: seq<Seen>,
                    ghost was: seq<Tables>, ghost pel: map<D.Id, D.Pending>, ghost tries: multiset<D.Id>)
    returns (ghost seen: seq<Seen>, ghost ts: seq<Tables>)
    requires i < |msgs| && c.Valid() && Waits(c.w, D.Handling(HandedOf(msgs)[i..])) && AllStored(c.entries, msgs)
    requires InTurn(was, msgs[..i], answers, before) && was[i] == c.t
    requires c.pel == pel - Removed(msgs[..i], answers, before) && c.w.d.tries == tries + Attempts(msgs[..i])
    modifies c
    ensures c.Valid() && Waits(c.w, D.Handling(HandedOf(msgs)[i + 1..]))
    ensures old(c.entries) <= c.entries && c.next == old(c.next) && old(c.t.trades) <= c.t.trades
    ensures InTurn(ts, msgs[..i + 1], answers, seen) && ts[0] == was[0] && ts[i + 1] == c.t
    ensures c.pel == pel - Removed(msgs[..i + 1], answers, seen) && c.w.d.tries == tries + Attempts(msgs[..i + 1])
  {
    ghost var s := HandleAt(c, msgs, i, answers(msgs[i].id));
    OneMoreSettled(msgs, answers, before, s, pel, old(c.pel), tries, old(c.w.d.tries));
    OneMoreInTurn(was, msgs, answers, before, s, c.t);
    seen, ts := before + [s], was + [c.t];
  }

  lemma {:induction false} OneMoreInTurn(ts: seq<Tables>, msgs: seq<Message>, answers: D.Id -> Answers,
                                         seen: seq<Seen>, s: Seen, after: Tables)
    requires |seen| < |msgs| && InTurn(ts, msgs[..|seen|], answers, seen)
    requires OneHandled(ts[|seen|], after, msgs[|seen|], answers(msgs[|seen|].id), s)
    ensures InTurn(ts + [after], msgs[..|seen| + 1], answers, seen + [s])
  {
    var i := |seen|;
    var all, now, tabs := seen + [s], msgs[..i + 1], ts + [after];
    forall j | 0 <= j < i + 1
      ensures OneHandled(tabs[j], tabs[j + 1], now[j], answers(now[j].id), all[j])
    {
      if j < i {
        assert now[j] == msgs[..i][j];
      }
    }
  }

  method HandleEach(c: Cluster, msgs: seq<Message>, answers: D.Id -> Answers)
    returns (ghost seen: seq<Seen>, ghost ts: seq<Tables>)
    requires c.Valid() && Waits(c.w, D.Handling(HandedOf(msgs))) && AllStored(c.entries, msgs)
    modifies c
    ensures c.Valid() && Waits(c.w, D.Handling([])) && old(c.entries) <= c.entries && c.next == old(c.next)
    ensures old(c.t.trades) <= c.t.trades
    ensures c.w.d.tries == old(c.w.d.tries) + Attempts(msgs)
    ensures InTurn(ts, msgs, answers, seen) && ts[0] == old(c.t) && ts[|msgs|] == c.t
    ensures c.pel == old(c.pel) - Removed(msgs, answers, seen)
  {
    var i := 0;
    seen, ts := [], [c.t];
    assert HandedOf(msgs)[0..] == HandedOf(msgs) && msgs[..0] == [];
    while i < |msgs|
      invariant i <= |msgs| && c.Valid() && Waits(c.w, D.Handling(HandedOf(msgs)[i..]))
      invariant old(c.entries) <= c.entries && c.next == old(c.next) && old(c.t.trades) <= c.t.trades
      invariant c.w.d.tries == old(c.w.d.tries) + Attempts(msgs[..i])
      invariant InTurn(ts, msgs[..i], answers, seen) && ts[0] == old(c.t) && ts[i] == c.t
      invariant c.pel == old(c.pel) - Removed(msgs[..i], answers, seen)
    {
      seen, ts := HandleNext(c, msgs, i, answers, seen, ts, old(c.pel), old(c.w.d.tries));
      i := i + 1;
    }
    assert msgs[..i] == msgs && HandedOf(msgs)[i..] == [];
  }

  /** One message after another, in the order of the batch: it leaves pending exactly the messages
      with a failure and those whose acknowledgement is lost. */
  method HandleAll(c: Cluster, msgs: seq<Message>, answers: D.Id -> Answers)
    returns (ghost seen: seq<Seen>, ghost ts: seq<Tables>)
    requires c.Valid() && Waits(c.w, D.Handling(HandedOf(msgs))) && AllStored(c.entries, msgs)
    modifies c
    ensures c.Valid() && Waits(c.w, D.Idle) && old(c.entries) <= c.entries && c.next == old(c.next)
    ensures old(c.t.trades) <= c.t.trades
    ensures c.w.d.tries == old(c.w.d.tries) + Attempts(msgs)
    ensures InTurn(ts, msgs, answers, seen) && ts[0] == old(c.t) && ts[|msgs|] == c.t
    ensures c.pel == old(c.pel) - Removed(msgs, answers, seen)
  {
    seen, ts := HandleEach(c, msgs, answers);
    RestStep(c);
  }

  ghost method RestStep(c: Cluster)
    requires c.History() && Waits(c.w, D.Handling([]))
    modifies c`worlds, c`steps, c`w
    ensures c.History() && c.w == WithLocal(old(c.w), D.Idle)
  {
    AppliesOneStep(c.w, Deliver(D.Rest(WORKER)));
    c.Log(Deliver(D.Rest(WORKER)), WithLocal(c.w, D.Idle));
  }
}
