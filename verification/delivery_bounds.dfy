/** How often `process` is called for one entry. */
module DeliveryBounds {
  import opened Codec
  import opened Delivery
  import opened DeliverySafety

  // ---- Counting consumers.

  ghost function Those(locals: map<nat, Local>, p: Local -> bool): set<nat> {
    set c | c in locals && p(locals[c])
  }

  ghost function Count(locals: map<nat, Local>, p: Local -> bool): nat {
    |Those(locals, p)|
  }

  lemma {:induction false} CountUpdate(locals: map<nat, Local>, c: nat, l: Local, p: Local -> bool)
    requires c in locals
    ensures Count(locals[c := l], p) ==
      Count(locals, p) - (if p(locals[c]) then 1 else 0) + (if p(l) then 1 else 0)
  {
    var others := Those(locals, p) - {c};
    assert Those(locals, p) == if p(locals[c]) then others + {c} else others;
    assert Those(locals[c := l], p) == if p(l) then others + {c} else others;
  }

  lemma {:induction false} CountDisjoint(locals: map<nat, Local>, p: Local -> bool, q: Local -> bool)
    requires forall l :: !(p(l) && q(l))
    ensures Count(locals, p) + Count(locals, q) <= |locals|
  {
    var a, b := Those(locals, p), Those(locals, q);
    assert a !! b && a + b <= locals.Keys;
    assert |a + b| == |a| + |b|;
    SubsetSize(a + b, locals.Keys);
    assert |locals.Keys| == |locals|;
  }

  lemma {:induction false} SubsetSize(a: set<nat>, b: set<nat>)
    requires a <= b
    ensures |a| <= |b|
  {
    if a != {} {
      var x :| x in a;
      SubsetSize(a - {x}, b - {x});
    }
  }

  /** The consumer holds a message of entry `id` that `process` would still be called for. */
  predicate Holds(l: Local, id: Id) {
    exists i :: 0 <= i < |Held(l)| && Held(l)[i].id == id && Held(l)[i].count < MAX_DELIVERIES
  }

  function Holding(id: Id): Local -> bool {
    (l: Local) => Holds(l, id)
  }

  /** The consumer remembers a low count of entry `id` and may still claim it with that count. */
  function Remembering(id: Id): Local -> bool {
    (l: Local) => l.Snapshot? && id in l.counts && l.counts[id] < MAX_DELIVERIES
  }

  ghost function Holders(s: State, id: Id): nat {
    Count(s.locals, Holding(id))
  }

  ghost function Rememberers(s: State, id: Id): nat {
    Count(s.locals, Remembering(id))
  }

  /** Calls so far and calls still to come, against the true delivery count: one per count up to
      the limit, and from then on one more for every consumer with an old snapshot. */
  ghost predicate Bounded(s: State, id: Id) {
    var spent := s.tries[id] + Holders(s, id);
    if id in s.group.pel && s.group.pel[id].count < MAX_DELIVERIES then spent <= s.group.pel[id].count
    else if id in s.group.pel then spent + Rememberers(s, id) <= MAX_DELIVERIES + |s.locals| - 1
    else if id in s.group.acked then spent <= MAX_DELIVERIES + |s.locals| - 1
    else spent == 0
  }

  /** Replacing one consumer's local state. */
  lemma {:induction false} Recount(s: State, t: State, c: nat, l: Local, id: Id)
    requires c in s.locals && t.locals == s.locals[c := l]
    ensures Holders(t, id) ==
      Holders(s, id) - (if Holds(s.locals[c], id) then 1 else 0) + (if Holds(l, id) then 1 else 0)
    ensures Rememberers(t, id) == Rememberers(s, id) - (if Remembering(id)(s.locals[c]) then 1 else 0)
                                  + (if Remembering(id)(l) then 1 else 0)
    ensures |t.locals| == |s.locals|
    ensures Holders(t, id) + Rememberers(t, id) <= |t.locals|
  {
    CountUpdate(s.locals, c, l, Holding(id));
    CountUpdate(s.locals, c, l, Remembering(id));
    assert t.locals.Keys == s.locals.Keys;
    assert |t.locals| == |t.locals.Keys| && |s.locals| == |s.locals.Keys|;
    CountDisjoint(t.locals, Holding(id), Remembering(id));
  }

  /** Held and remembered entries have been delivered. */
  lemma {:induction false} HeldIsDelivered(s: State, l: Local, id: Id)
    requires GroupOk(s.group) && LocalOk(s, l) && (Holds(l, id) || Remembering(id)(l))
    ensures id in s.group.pel || id in s.group.acked
  {
    if Holds(l, id) {
      var i :| 0 <= i < |Held(l)| && Held(l)[i].id == id;
      assert HandedOk(s.group, Held(l)[i]);
    }
  }

  lemma {:induction false} NobodyHolds(s: State, id: Id)
    requires Inv(s) && id !in s.group.pel && id !in s.group.acked
    ensures Holders(s, id) == 0 && Rememberers(s, id) == 0 && s.tries[id] == 0
  {
    forall c | c in s.locals
      ensures !Holds(s.locals[c], id) && !Remembering(id)(s.locals[c])
    {
      if Holds(s.locals[c], id) || Remembering(id)(s.locals[c]) {
        assert LocalOk(s, s.locals[c]);
        HeldIsDelivered(s, s.locals[c], id);
      }
    }
    assert Those(s.locals, Holding(id)) == {};
    assert Those(s.locals, Remembering(id)) == {};
  }

  /** Steps that hand out nothing: the entry stays where it is or is acknowledged, and the
      moving consumer neither gains a message of it nor a snapshot of it. */
  lemma {:induction false} BoundedShrinks(s: State, t: State, c: nat, l: Local, id: Id)
    requires Bounded(s, id) && c in s.locals
    requires t.locals == s.locals[c := l] && t.tries == s.tries
    requires Holds(l, id) ==> Holds(s.locals[c], id)
    requires Remembering(id)(l) ==> Remembering(id)(s.locals[c])
    requires id in t.group.pel ==> id in s.group.pel && t.group.pel[id].count == s.group.pel[id].count
    requires id !in t.group.pel && id in s.group.pel ==> id in t.group.acked
    requires id !in t.group.pel && id !in s.group.pel ==> (id in t.group.acked <==> id in s.group.acked)
    ensures Bounded(t, id)
  {
    Recount(s, t, c, l, id);
  }

  lemma {:induction false} ReadHands(first: Id, n: nat, id: Id)
    ensures Holds(Decoding(HandNew(first, n), []), id) <==> first <= id < first + n
  {
    var l := Decoding(HandNew(first, n), []);
    assert Held(l) == HandNew(first, n);
    if first <= id < first + n {
      assert Held(l)[id - first].id == id;
    }
  }

  lemma {:induction false} BoundedReadNew(s: State, c: nat, n: nat, id: Id)
    requires Inv(s) && Bounded(s, id) && Enabled(s, ReadNew(c, n))
    ensures Bounded(Apply(s, ReadNew(c, n)), id)
  {
    var t := Apply(s, ReadNew(c, n));
    DeliverOk(s.group, c, n);
    Recount(s, t, c, t.locals[c], id);
    ReadHands(s.group.next, n, id);
    if s.group.next <= id < s.group.next + n {
      NobodyHolds(s, id);
    }
  }

  lemma {:induction false} BoundedInspect(s: State, c: nat, ids: set<Id>, id: Id)
    requires Bounded(s, id) && Enabled(s, Inspect(c, ids))
    ensures Bounded(Apply(s, Inspect(c, ids)), id)
  {
    var t := Apply(s, Inspect(c, ids));
    Recount(s, t, c, t.locals[c], id);
  }

  /** A claim hands out the remembered count, so it turns a rememberer into a holder. */
  lemma {:induction false} ClaimHands(s: State, c: nat, ids: seq<Id>, id: Id)
    requires Enabled(s, Claim(c, ids))
    ensures Holds(Apply(s, Claim(c, ids)).locals[c], id) <==> id in ids && Remembering(id)(s.locals[c])
  {
    var l := Apply(s, Claim(c, ids)).locals[c];
    assert Held(l) == HandClaimed(ids, s.locals[c].counts);
    if id in ids {
      var i :| 0 <= i < |ids| && ids[i] == id;
      assert Held(l)[i].id == id;
    }
  }

  lemma {:induction false} BoundedClaim(s: State, c: nat, ids: seq<Id>, id: Id)
    requires Bounded(s, id) && Enabled(s, Claim(c, ids))
    ensures Bounded(Apply(s, Claim(c, ids)), id)
  {
    var t := Apply(s, Claim(c, ids));
    Recount(s, t, c, t.locals[c], id);
    ClaimHands(s, c, ids, id);
  }

  lemma {:induction false} FewerHeld(l: Local, m: Local, id: Id)
    requires forall h :: h in Held(m) ==> h in Held(l)
    ensures Holds(m, id) ==> Holds(l, id)
  {
    if Holds(m, id) {
      var i :| 0 <= i < |Held(m)| && Held(m)[i].id == id && Held(m)[i].count < MAX_DELIVERIES;
      assert Held(m)[i] in Held(m);
      var j :| 0 <= j < |Held(l)| && Held(l)[j] == Held(m)[i];
    }
  }

  lemma {:induction false} BoundedDecode(s: State, c: nat, ackOk: bool, id: Id)
    requires Bounded(s, id) && Enabled(s, Decode(c, ackOk))
    ensures Bounded(Apply(s, Decode(c, ackOk)), id)
  {
    var t, l := Apply(s, Decode(c, ackOk)), s.locals[c];
    assert l.raw == [l.raw[0]] + l.raw[1..];
    FewerHeld(l, t.locals[c], id);
    BoundedShrinks(s, t, c, t.locals[c], id);
  }

  lemma {:induction false} HoldsHeadOrTail(l: Local, rest: Local, id: Id)
    requires l.Handling? && l.batch != [] && Held(rest) == l.batch[1..]
    ensures Holds(l, id) <==> (l.batch[0].id == id && l.batch[0].count < MAX_DELIVERIES) || Holds(rest, id)
  {
    if Holds(rest, id) {
      var i :| 0 <= i < |Held(rest)| && Held(rest)[i].id == id && Held(rest)[i].count < MAX_DELIVERIES;
      assert Held(l)[i + 1] == Held(rest)[i];
    }
    if l.batch[0].id == id && l.batch[0].count < MAX_DELIVERIES {
      assert Held(l)[0].id == id;
    }
    if i :| 0 < i < |Held(l)| && Held(l)[i].id == id && Held(l)[i].count < MAX_DELIVERIES {
      assert Held(rest)[i - 1] == Held(l)[i];
    }
  }

  lemma {:induction false} BoundedBegin(s: State, c: nat, id: Id)
    requires Inv(s) && Bounded(s, id) && Enabled(s, Begin(c))
    ensures Bounded(Apply(s, Begin(c)), id)
  {
    var t, l := Apply(s, Begin(c)), s.locals[c];
    Recount(s, t, c, t.locals[c], id);
    HoldsHeadOrTail(l, t.locals[c], id);
    assert LocalOk(s, l);
    if l.batch[0].id == id {
      TailOk(s, l);
      assert !Holds(t.locals[c], id);
    }
  }

  lemma {:induction false} BoundedGiveUp(s: State, c: nat, id: Id)
    requires Bounded(s, id) && Enabled(s, GiveUp(c))
    ensures Bounded(Apply(s, GiveUp(c)), id)
  {
    var t := Apply(s, GiveUp(c));
    HoldsHeadOrTail(s.locals[c], t.locals[c], id);
    BoundedShrinks(s, t, c, t.locals[c], id);
  }

  lemma {:induction false} BoundedFinish(s: State, c: nat, failed: nat, id: Id)
    requires Bounded(s, id) && Enabled(s, Finish(c, failed))
    ensures Bounded(Apply(s, Finish(c, failed)), id)
  {
    var t := Apply(s, Finish(c, failed));
    FewerHeld(s.locals[c], t.locals[c], id);
    BoundedShrinks(s, t, c, t.locals[c], id);
  }

  lemma {:induction false} BoundedSendAck(s: State, c: nat, ok: bool, id: Id)
    requires Bounded(s, id) && Enabled(s, SendAck(c, ok))
    ensures Bounded(Apply(s, SendAck(c, ok)), id)
  {
    var t := Apply(s, SendAck(c, ok));
    FewerHeld(s.locals[c], t.locals[c], id);
    BoundedShrinks(s, t, c, t.locals[c], id);
  }

  lemma {:induction false} BoundedQuiet(s: State, step: Step, id: Id)
    requires Bounded(s, id) && Enabled(s, step)
    requires step.StartBatch? || step.Rest? || step.Crash?
    ensures Bounded(Apply(s, step), id)
  {
    var t := Apply(s, step);
    FewerHeld(s.locals[step.c], t.locals[step.c], id);
    BoundedShrinks(s, t, step.c, t.locals[step.c], id);
  }

  lemma {:induction false} BoundedStep(s: State, step: Step, id: Id)
    requires Inv(s) && Bounded(s, id) && Enabled(s, step)
    ensures Bounded(Apply(s, step), id)
  {
    match step
    case Publish(p) =>
    case ReadNew(c, n) => BoundedReadNew(s, c, n, id);
    case Inspect(c, ids) => BoundedInspect(s, c, ids, id);
    case Claim(c, ids) => BoundedClaim(s, c, ids, id);
    case Decode(c, ackOk) => BoundedDecode(s, c, ackOk, id);
    case Begin(c) => BoundedBegin(s, c, id);
    case GiveUp(c) => BoundedGiveUp(s, c, id);
    case Finish(c, failed) => BoundedFinish(s, c, failed, id);
    case SendAck(c, ok) => BoundedSendAck(s, c, ok, id);
    case _ => BoundedQuiet(s, step, id);
  }

  lemma {:induction false} BoundedAlways(s: State, steps: seq<Step>, id: Id)
    requires Initial(s) && IsRun(s, steps)
    ensures Bounded(After(s, steps), id)
    ensures |After(s, steps).locals| == |s.locals|
    decreases |steps|
  {
    if steps == [] {
      assert Inv(s);
      NobodyHolds(s, id);
    } else {
      var front, last := steps[..|steps| - 1], steps[|steps| - 1];
      InvAlways(s, front);
      BoundedAlways(s, front, id);
      BoundedStep(After(s, front), last, id);
      SameConsumers(After(s, front), last);
    }
  }

  lemma {:induction false} SameConsumers(s: State, step: Step)
    requires Enabled(s, step)
    ensures Apply(s, step).locals.Keys == s.locals.Keys
    ensures |Apply(s, step).locals| == |s.locals|
  {
    var t := Apply(s, step);
    assert |t.locals| == |t.locals.Keys| && |s.locals| == |s.locals.Keys|;
  }

  /** Attempt bound: over every run with `k` consumers, `process` is called for one entry at most
      maxDeliveries + k - 1 times, so at most five times for a single consumer: each consumer can
      act on at most one old snapshot after the true count has reached the limit. */
  lemma {:induction false} AttemptBound(s: State, steps: seq<Step>, id: Id)
    requires Initial(s) && IsRun(s, steps) && s.locals != map[]
    ensures After(s, steps).tries[id] <= 5 + |s.locals| - 1
  {
    BoundedAlways(s, steps, id);
  }
}
