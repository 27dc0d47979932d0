/** A single consumer: attempts are not only bounded but accounted for exactly. */
module DeliveryExact {
  import opened Codec
  import opened Delivery
  import opened DeliverySafety
  import opened DeliveryBounds

  function Capped(count: nat): nat {
    if count < MAX_DELIVERIES then count else MAX_DELIVERIES
  }

  predicate Decodable(s: State, id: Id) {
    id < |s.group.entries| && !s.group.entries[id].Undecodable?
  }

  /** Calls made, messages lost to crashes, and the message still held, together. */
  function Accounted(s: State, l: Local, id: Id): nat {
    s.tries[id] + s.lost[id] + if Holds(l, id) then 1 else 0
  }

  /** With one consumer a snapshot is never out of date, and every delivery up to the limit is
      accounted for. */
  ghost predicate Exact(s: State, l: Local, id: Id) {
    && (l.Snapshot? && id in l.counts && id in s.group.pel ==> l.counts[id] == s.group.pel[id].count)
    && (Decodable(s, id) && id in s.group.pel ==> Accounted(s, l, id) == Capped(s.group.pel[id].count))
    && (Decodable(s, id) && id in s.group.acked ==> Accounted(s, l, id) <= MAX_DELIVERIES)
    && (Decodable(s, id) && id in s.group.acked && s.group.acked[id].why.DeadLetter? ==>
          s.tries[id] + s.lost[id] == MAX_DELIVERIES)
    && (id !in s.group.pel && id !in s.group.acked ==> Accounted(s, l, id) == 0)
  }

  ghost predicate Alone(s: State, c: nat) {
    s.locals.Keys == {c}
  }

  lemma {:induction false} LiveIdsCount(s: seq<Handed>, id: Id)
    requires DistinctIds(s)
    ensures LiveIds(s)[id] ==
      if exists i :: 0 <= i < |s| && s[i].id == id && s[i].count < MAX_DELIVERIES then 1 else 0
  {
    if s != [] {
      LiveIdsCount(s[1..], id);
      if i :| 0 <= i < |s[1..]| && s[1..][i].id == id && s[1..][i].count < MAX_DELIVERIES {
        assert s[i + 1].id == id;
      }
    }
  }

  lemma {:induction false} ExactReadNew(s: State, c: nat, n: nat, id: Id)
    requires Inv(s) && Enabled(s, ReadNew(c, n)) && Exact(s, s.locals[c], id)
    ensures Exact(Apply(s, ReadNew(c, n)), Apply(s, ReadNew(c, n)).locals[c], id)
  {
    DeliverOk(s.group, c, n);
    ReadHands(s.group.next, n, id);
  }

  lemma {:induction false} ExactClaim(s: State, c: nat, ids: seq<Id>, id: Id)
    requires Enabled(s, Claim(c, ids)) && Exact(s, s.locals[c], id)
    ensures Exact(Apply(s, Claim(c, ids)), Apply(s, Claim(c, ids)).locals[c], id)
  {
    ClaimHands(s, c, ids, id);
  }

  lemma {:induction false} SameHeld(l: Local, m: Local, id: Id)
    requires forall h: Handed :: h.id == id ==> (h in Held(l) <==> h in Held(m))
    ensures Holds(l, id) <==> Holds(m, id)
  {
    if Holds(l, id) {
      var i :| 0 <= i < |Held(l)| && Held(l)[i].id == id && Held(l)[i].count < MAX_DELIVERIES;
      assert Held(l)[i] in Held(m);
    }
    if Holds(m, id) {
      var i :| 0 <= i < |Held(m)| && Held(m)[i].id == id && Held(m)[i].count < MAX_DELIVERIES;
      assert Held(m)[i] in Held(l);
    }
  }

  lemma {:induction false} ExactDecode(s: State, c: nat, ackOk: bool, id: Id)
    requires Inv(s) && Enabled(s, Decode(c, ackOk)) && Exact(s, s.locals[c], id)
    ensures Exact(Apply(s, Decode(c, ackOk)), Apply(s, Decode(c, ackOk)).locals[c], id)
  {
    var t, l := Apply(s, Decode(c, ackOk)), s.locals[c];
    assert l.raw == [l.raw[0]] + l.raw[1..];
    if id != l.raw[0].id || Decodable(s, id) {
      SameHeld(l, t.locals[c], id);
    } else {
      assert LocalOk(s, l);
      assert Held(l) == l.out + [l.raw[0]] + l.raw[1..];
      assert HandedOk(s.group, Held(l)[|l.out|]);
    }
  }

  lemma {:induction false} ExactHead(s: State, step: Step, c: nat, id: Id)
    requires Inv(s) && Enabled(s, step) && c in s.locals && Exact(s, s.locals[c], id)
    requires step == GiveUp(c) || step == Begin(c)
    ensures Exact(Apply(s, step), Apply(s, step).locals[c], id)
  {
    var t, l := Apply(s, step), s.locals[c];
    assert LocalOk(s, l);
    TailOk(s, l);
    HoldsHeadOrTail(l, t.locals[c], id);
    if l.batch[0].id == id {
      assert !Holds(t.locals[c], id);
    }
  }

  lemma {:induction false} ExactSendAck(s: State, c: nat, ok: bool, id: Id)
    requires Inv(s) && Enabled(s, SendAck(c, ok)) && Exact(s, s.locals[c], id)
    ensures Exact(Apply(s, SendAck(c, ok)), Apply(s, SendAck(c, ok)).locals[c], id)
  {
    var t, l := Apply(s, SendAck(c, ok)), s.locals[c];
    assert LocalOk(s, l);
    SameHeld(l, t.locals[c], id);
    if id == l.id {
      assert !Holds(l, id);
    }
  }

  lemma {:induction false} ExactCrash(s: State, c: nat, id: Id)
    requires Inv(s) && Enabled(s, Crash(c)) && Exact(s, s.locals[c], id)
    ensures Exact(Apply(s, Crash(c)), Apply(s, Crash(c)).locals[c], id)
  {
    assert LocalOk(s, s.locals[c]);
    LiveIdsCount(Held(s.locals[c]), id);
  }

  lemma {:induction false} ExactQuiet(s: State, step: Step, c: nat, id: Id)
    requires Inv(s) && Enabled(s, step) && c in s.locals && Exact(s, s.locals[c], id)
    requires step == StartBatch(c) || step == Rest(c) || (step.Finish? && step.c == c) || (step.Inspect? && step.c == c)
    ensures Exact(Apply(s, step), Apply(s, step).locals[c], id)
  {
    var t, l := Apply(s, step), s.locals[c];
    if step.StartBatch? {
      assert Held(l) == l.out;
    }
    SameHeld(l, t.locals[c], id);
  }

  lemma {:induction false} ExactPublish(s: State, p: Payload, l: Local, id: Id)
    requires Inv(s) && Exact(s, l, id)
    ensures Exact(Apply(s, Publish(p)), l, id)
  {
  }

  lemma {:induction false} ExactStep(s: State, step: Step, c: nat, id: Id)
    requires Inv(s) && Alone(s, c) && Enabled(s, step) && Exact(s, s.locals[c], id)
    ensures Alone(Apply(s, step), c) && Exact(Apply(s, step), Apply(s, step).locals[c], id)
  {
    SameConsumers(s, step);
    match step
    case Publish(p) => ExactPublish(s, p, s.locals[c], id);
    case ReadNew(d, n) => ExactReadNew(s, c, n, id);
    case Claim(d, ids) => ExactClaim(s, c, ids, id);
    case Decode(d, ackOk) => ExactDecode(s, c, ackOk, id);
    case GiveUp(d) => ExactHead(s, step, c, id);
    case Begin(d) => ExactHead(s, step, c, id);
    case SendAck(d, ok) => ExactSendAck(s, c, ok, id);
    case Crash(d) => ExactCrash(s, c, id);
    case _ => ExactQuiet(s, step, c, id);
  }

  lemma {:induction false} ExactAlways(s: State, steps: seq<Step>, c: nat, id: Id)
    requires Initial(s) && IsRun(s, steps) && Alone(s, c)
    ensures Alone(After(s, steps), c) && Exact(After(s, steps), After(s, steps).locals[c], id)
    decreases |steps|
  {
    if steps != [] {
      var front, last := steps[..|steps| - 1], steps[|steps| - 1];
      InvAlways(s, front);
      ExactAlways(s, front, c, id);
      ExactStep(After(s, front), last, c, id);
    }
  }

  /** The law of attempts for one consumer: while a readable entry is pending, the calls of
      `process`, the messages that crashes lost and the message in hand add up to its delivery
      count, capped at five. */
  lemma {:induction false} AttemptsAreAccountedFor(s: State, steps: seq<Step>, c: nat, id: Id)
    requires Initial(s) && IsRun(s, steps) && Alone(s, c)
    ensures var e := After(s, steps);
      && c in e.locals
      && (id in e.group.pel && Decodable(e, id) ==>
            e.tries[id] + e.lost[id] + (if Holds(e.locals[c], id) then 1 else 0) == Capped(e.group.pel[id].count))
  {
    ExactAlways(s, steps, c, id);
  }

  /** A readable entry that one consumer dead-letters was processed exactly five times, less the
      deliveries that crashes lost: the documented five attempts, exactly when no crash interfered. */
  lemma {:induction false} DeadLetterAfterFive(s: State, steps: seq<Step>, c: nat, id: Id)
    requires Initial(s) && IsRun(s, steps) && Alone(s, c)
    requires var e := After(s, steps);
      id in e.group.acked && e.group.acked[id].why.DeadLetter? && Decodable(e, id)
    ensures After(s, steps).tries[id] + After(s, steps).lost[id] == 5
    ensures After(s, steps).tries[id] == 5 <==> After(s, steps).lost[id] == 0
  {
    ExactAlways(s, steps, c, id);
  }
}
