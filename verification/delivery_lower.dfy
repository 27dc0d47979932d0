/** The lower half of the law of attempts, for any number of consumers: a readable entry is not
    dead-lettered before it was handed out five times to be processed. */
module DeliveryLower {
  import opened Codec
  import opened Delivery
  import opened DeliverySafety
  import opened DeliveryBounds
  import opened DeliveryExact

  /** Calls made, messages that crashes lost, and messages that consumers still hold. */
  ghost function HandOuts(s: State, id: Id): nat {
    s.tries[id] + s.lost[id] + Holders(s, id)
  }

  /** Every delivery up to the limit handed out a message that `process` is called for. */
  ghost predicate AllHandedOut(s: State, id: Id) {
    Decodable(s, id) ==>
      && (id in s.group.pel ==> HandOuts(s, id) >= Capped(s.group.pel[id].count))
      && (id in s.group.acked && s.group.acked[id].why.DeadLetter? ==> HandOuts(s, id) >= MAX_DELIVERIES)
  }

  /** Steps that leave the entry where it is, or acknowledge it, and take no message of it away. */
  lemma {:induction false} LowerKept(s: State, t: State, c: nat, id: Id)
    requires AllHandedOut(s, id) && c in s.locals && c in t.locals && t.locals == s.locals[c := t.locals[c]]
    requires t.tries == s.tries && t.lost == s.lost && t.group.entries == s.group.entries
    requires Decodable(s, id) ==> Holds(t.locals[c], id) == Holds(s.locals[c], id)
    requires id in t.group.pel ==> id in s.group.pel && t.group.pel[id].count == s.group.pel[id].count
    requires Decodable(s, id) && id in t.group.acked && t.group.acked[id].why.DeadLetter? ==>
      (id in s.group.acked && s.group.acked[id].why.DeadLetter?)
      || (id in s.group.pel && s.group.pel[id].count >= MAX_DELIVERIES)
    ensures AllHandedOut(t, id)
  {
    Recount(s, t, c, t.locals[c], id);
  }

  lemma {:induction false} LowerReadNew(s: State, c: nat, n: nat, id: Id)
    requires Inv(s) && AllHandedOut(s, id) && Enabled(s, ReadNew(c, n))
    ensures AllHandedOut(Apply(s, ReadNew(c, n)), id)
  {
    var t := Apply(s, ReadNew(c, n));
    DeliverOk(s.group, c, n);
    Recount(s, t, c, t.locals[c], id);
    ReadHands(s.group.next, n, id);
  }

  lemma {:induction false} LowerClaim(s: State, c: nat, ids: seq<Id>, id: Id)
    requires Inv(s) && AllHandedOut(s, id) && Enabled(s, Claim(c, ids))
    ensures AllHandedOut(Apply(s, Claim(c, ids)), id)
  {
    var t := Apply(s, Claim(c, ids));
    assert LocalOk(s, s.locals[c]);
    Recount(s, t, c, t.locals[c], id);
    ClaimHands(s, c, ids, id);
  }

  lemma {:induction false} DecodeHolds(s: State, c: nat, ackOk: bool, id: Id)
    requires Enabled(s, Decode(c, ackOk)) && Decodable(s, id)
    ensures Holds(Apply(s, Decode(c, ackOk)).locals[c], id) == Holds(s.locals[c], id)
  {
    var l := s.locals[c];
    assert l.raw == [l.raw[0]] + l.raw[1..];
    SameHeld(l, Apply(s, Decode(c, ackOk)).locals[c], id);
  }

  lemma {:induction false} LowerDecode(s: State, c: nat, ackOk: bool, id: Id)
    requires AllHandedOut(s, id) && Enabled(s, Decode(c, ackOk))
    ensures AllHandedOut(Apply(s, Decode(c, ackOk)), id)
  {
    if Decodable(s, id) {
      DecodeHolds(s, c, ackOk, id);
    }
    LowerKept(s, Apply(s, Decode(c, ackOk)), c, id);
  }

  lemma {:induction false} LowerGiveUp(s: State, c: nat, id: Id)
    requires AllHandedOut(s, id) && Enabled(s, GiveUp(c))
    ensures AllHandedOut(Apply(s, GiveUp(c)), id)
  {
    var t := Apply(s, GiveUp(c));
    HoldsHeadOrTail(s.locals[c], t.locals[c], id);
    LowerKept(s, t, c, id);
  }

  lemma {:induction false} LowerBegin(s: State, c: nat, id: Id)
    requires Inv(s) && AllHandedOut(s, id) && Enabled(s, Begin(c))
    ensures AllHandedOut(Apply(s, Begin(c)), id)
  {
    var t, l := Apply(s, Begin(c)), s.locals[c];
    Recount(s, t, c, t.locals[c], id);
    HoldsHeadOrTail(l, t.locals[c], id);
  }

  lemma {:induction false} LowerSendAck(s: State, c: nat, ok: bool, id: Id)
    requires Inv(s) && AllHandedOut(s, id) && Enabled(s, SendAck(c, ok))
    ensures AllHandedOut(Apply(s, SendAck(c, ok)), id)
  {
    var t := Apply(s, SendAck(c, ok));
    assert LocalOk(s, s.locals[c]);
    SameHeld(s.locals[c], t.locals[c], id);
    LowerKept(s, t, c, id);
  }

  lemma {:induction false} LowerCrash(s: State, c: nat, id: Id)
    requires Inv(s) && AllHandedOut(s, id) && Enabled(s, Crash(c))
    ensures AllHandedOut(Apply(s, Crash(c)), id)
  {
    var t := Apply(s, Crash(c));
    assert LocalOk(s, s.locals[c]);
    Recount(s, t, c, t.locals[c], id);
    LiveIdsCount(Held(s.locals[c]), id);
  }

  lemma {:induction false} LowerQuiet(s: State, step: Step, id: Id)
    requires AllHandedOut(s, id) && Enabled(s, step)
    requires step.StartBatch? || step.Rest? || step.Finish? || step.Inspect?
    ensures AllHandedOut(Apply(s, step), id)
  {
    var t, c := Apply(s, step), step.c;
    if step.StartBatch? {
      assert Held(s.locals[c]) == s.locals[c].out;
    }
    SameHeld(s.locals[c], t.locals[c], id);
    LowerKept(s, t, c, id);
  }

  lemma {:induction false} LowerStep(s: State, step: Step, id: Id)
    requires Inv(s) && AllHandedOut(s, id) && Enabled(s, step)
    ensures AllHandedOut(Apply(s, step), id)
  {
    match step
    case Publish(p) =>
    case ReadNew(c, n) => LowerReadNew(s, c, n, id);
    case Claim(c, ids) => LowerClaim(s, c, ids, id);
    case Decode(c, ackOk) => LowerDecode(s, c, ackOk, id);
    case GiveUp(c) => LowerGiveUp(s, c, id);
    case Begin(c) => LowerBegin(s, c, id);
    case SendAck(c, ok) => LowerSendAck(s, c, ok, id);
    case Crash(c) => LowerCrash(s, c, id);
    case _ => LowerQuiet(s, step, id);
  }

  lemma {:induction false} LowerAlways(s: State, steps: seq<Step>, id: Id)
    requires Initial(s) && IsRun(s, steps)
    ensures AllHandedOut(After(s, steps), id)
    decreases |steps|
  {
    if steps != [] {
      var front, last := steps[..|steps| - 1], steps[|steps| - 1];
      InvAlways(s, front);
      LowerAlways(s, front, id);
      LowerStep(After(s, front), last, id);
    }
  }

  /** For any number of consumers a dead-lettered readable entry was handed out to be processed at
      least five times, so where no crash lost a message and nobody holds one any more it was
      processed at least five times. */
  lemma {:induction false} NoDeadLetterBeforeFive(s: State, steps: seq<Step>, id: Id)
    requires Initial(s) && IsRun(s, steps)
    requires var e := After(s, steps);
      id in e.group.acked && e.group.acked[id].why.DeadLetter? && Decodable(e, id)
    ensures var e := After(s, steps);
      && HandOuts(e, id) >= 5
      && (e.lost[id] == 0 && Holders(e, id) == 0 ==> e.tries[id] >= 5)
  {
    LowerAlways(s, steps, id);
  }
}
