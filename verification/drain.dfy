/** Recovery drains: one consumer whose acknowledgements succeed and that reads nothing new empties
    its pending list after a bounded number of claims, however many messages fail for ever. */
module Drain {
  import opened Codec
  import opened Delivery
  import opened DeliverySafety
  import DB = DeliveryBounds

  /** The claims that an entry with this delivery count can still take part in. */
  function Weight(count: nat): nat {
    if count >= MAX_DELIVERIES then 1 else MAX_DELIVERIES + 1 - count
  }

  function WeightOf(pel: map<Id, Pending>, id: Id): nat {
    if id in pel then Weight(pel[id].count) else 0
  }

  /** The total weight of the pending entries below `n`. */
  function Potential(pel: map<Id, Pending>, n: nat): nat {
    if n == 0 then 0 else Potential(pel, n - 1) + WeightOf(pel, n - 1)
  }

  lemma {:induction false} PotentialSame(p: map<Id, Pending>, q: map<Id, Pending>, n: nat)
    requires forall i: Id :: i < n ==> WeightOf(p, i) == WeightOf(q, i)
    ensures Potential(p, n) == Potential(q, n)
  {
    if n > 0 {
      PotentialSame(p, q, n - 1);
    }
  }

  /** Changing one entry changes the potential by the change of its weight. */
  lemma {:induction false} PotentialPoint(p: map<Id, Pending>, q: map<Id, Pending>, id: Id, n: nat)
    requires id < n && forall i: Id :: i < n && i != id ==> WeightOf(p, i) == WeightOf(q, i)
    ensures Potential(p, n) - WeightOf(p, id) == Potential(q, n) - WeightOf(q, id)
  {
    if id == n - 1 {
      PotentialSame(p, q, n - 1);
    } else {
      PotentialPoint(p, q, id, n - 1);
    }
  }

  lemma {:induction false} PotentialPositive(pel: map<Id, Pending>, id: Id, n: nat)
    requires id in pel && id < n
    ensures Potential(pel, n) >= 1
  {
    if id < n - 1 {
      PotentialPositive(pel, id, n - 1);
    }
  }

  lemma {:induction false} RemovalPays(g: Group, id: Id, why: Reason, n: nat)
    requires id in g.pel && id < n
    ensures Potential(Remove(g, id, why).pel, n) + 1 <= Potential(g.pel, n)
  {
    PotentialPoint(g.pel, Remove(g, id, why).pel, id, n);
  }

  // ---- Messages that will be given up.

  predicate High(h: Handed) {
    h.count >= MAX_DELIVERIES
  }

  function Highs(s: seq<Handed>): nat {
    if s == [] then 0 else Highs(s[1..]) + if High(s[0]) then 1 else 0
  }

  lemma {:induction false} HighsAppend(a: seq<Handed>, b: seq<Handed>)
    ensures Highs(a + b) == Highs(a) + Highs(b)
  {
    if a == [] {
      assert a + b == b;
    } else {
      assert (a + b)[1..] == a[1..] + b;
      HighsAppend(a[1..], b);
    }
  }

  /** Messages in hand whose entry is about to be dead-lettered. */
  function Doomed(l: Local): nat {
    Highs(Held(l)) + if l.Acking? && l.why.DeadLetter? then 1 else 0
  }

  /** A claim lowers the weight of every entry below the limit; the others are handed out as doomed. */
  lemma {:induction false} ClaimPays(g: Group, c: nat, ids: seq<Id>, counts: map<Id, nat>, n: nat)
    requires NoRepeats(ids)
    requires forall id :: id in ids ==> id in counts && id in g.pel && id < n && counts[id] == g.pel[id].count
    ensures Potential(Reassign(g, c, ids).pel, n) + |ids| <= Potential(g.pel, n) + Highs(HandClaimed(ids, counts))
  {
    if ids == [] {
      PotentialSame(g.pel, Reassign(g, c, ids).pel, n);
    } else {
      var front, last := ids[..|ids| - 1], ids[|ids| - 1];
      assert ids == front + [last];
      assert forall id :: id in front ==> id in ids;
      ClaimPays(g, c, front, counts, n);
      assert last !in front;
      PotentialPoint(Reassign(g, c, front).pel, Reassign(g, c, ids).pel, last, n);
      var h := Handed(last, counts[last]);
      assert HandClaimed(ids, counts) == HandClaimed(front, counts) + [h];
      HighsAppend(HandClaimed(front, counts), [h]);
      assert [h][1..] == [];
    }
  }

  // ---- Reliable recovery: every acknowledgement arrives, nothing crashes, nothing new is read.

  predicate Reliable(step: Step) {
    match step
    case ReadNew(_, _) => false
    case Crash(_) => false
    case Decode(_, ok) => ok
    case SendAck(_, ok) => ok
    case _ => true
  }

  function Claims(step: Step): nat {
    if step.Claim? then |step.claimed| else 0
  }

  function ClaimsIn(steps: seq<Step>): nat {
    if steps == [] then 0 else ClaimsIn(steps[..|steps| - 1]) + Claims(steps[|steps| - 1])
  }

  /** Alone and without crashes, a consumer's view of the pending list is exact. */
  ghost predicate ViewOk(g: Group, l: Local) {
    && (forall i :: 0 <= i < |Held(l)| ==> Held(l)[i].id in g.pel)
    && (l.Acking? ==> l.id in g.pel)
    && (l.Running? ==> l.now.id in g.pel)
    && (l.Snapshot? ==> forall id :: id in l.counts ==> id in g.pel && l.counts[id] == g.pel[id].count)
  }

  /** What a step gains: claims made, against weight lost and messages that became doomed. */
  ghost predicate Pays(s: State, t: State, c: nat, claims: nat) {
    && c in s.locals && c in t.locals && t.group.next == s.group.next
    && Potential(t.group.pel, t.group.next) + claims + Doomed(s.locals[c])
         <= Potential(s.group.pel, s.group.next) + Doomed(t.locals[c])
  }

  lemma {:induction false} PayClaim(s: State, c: nat, ids: seq<Id>)
    requires Inv(s) && Enabled(s, Claim(c, ids)) && ViewOk(s.group, s.locals[c])
    ensures var t := Apply(s, Claim(c, ids)); Pays(s, t, c, |ids|) && ViewOk(t.group, t.locals[c])
  {
    var counts := s.locals[c].counts;
    assert Held(Decoding(HandClaimed(ids, counts), [])) == HandClaimed(ids, counts);
    ClaimPays(s.group, c, ids, counts, s.group.next);
    forall i | 0 <= i < |ids|
      ensures HandClaimed(ids, counts)[i].id in s.group.pel
    {
      assert ids[i] in ids;
    }
  }

  /** Dropping one held message whose entry is removed. */
  lemma {:induction false} ViewAfterRemoval(g: Group, l: Local, m: Local, id: Id, why: Reason)
    requires ViewOk(g, l) && !m.Acking? && !m.Running? && !m.Snapshot?
    requires forall i :: 0 <= i < |Held(m)| ==> Held(m)[i] in Held(l) && Held(m)[i].id != id
    ensures ViewOk(Remove(g, id, why), m)
  {
  }

  lemma {:induction false} DecodeHeld(s: State, l: Local)
    requires LocalOk(s, l) && l.Decoding? && l.raw != []
    ensures Held(l) == l.out + [l.raw[0]] + l.raw[1..]
    ensures Highs(Held(l)) == Highs(l.out + l.raw[1..]) + if High(l.raw[0]) then 1 else 0
    ensures forall i :: 0 <= i < |l.out + l.raw[1..]| ==>
      (l.out + l.raw[1..])[i] in Held(l) && (l.out + l.raw[1..])[i].id != l.raw[0].id
    ensures Held(Decoding(l.raw[1..], l.out + [l.raw[0]])) == Held(l)
  {
    var h := [l.raw[0]];
    assert Held(l) == l.out + h + l.raw[1..] && l.out + (h + l.raw[1..]) == Held(l);
    HighsAppend(l.out, h + l.raw[1..]);
    HighsAppend(h, l.raw[1..]);
    HighsAppend(l.out, l.raw[1..]);
    assert h[1..] == [];
    forall i | 0 <= i < |l.out + l.raw[1..]|
      ensures (l.out + l.raw[1..])[i] in Held(l) && (l.out + l.raw[1..])[i].id != l.raw[0].id
    {
      var j := if i < |l.out| then i else i + 1;
      assert Held(l)[j] == (l.out + l.raw[1..])[i];
      assert Held(l)[|l.out|] == l.raw[0];
    }
  }

  lemma {:induction false} PayDecode(s: State, c: nat)
    requires Inv(s) && Enabled(s, Decode(c, true)) && ViewOk(s.group, s.locals[c])
    ensures var t := Apply(s, Decode(c, true)); Pays(s, t, c, 0) && ViewOk(t.group, t.locals[c])
  {
    var l, t := s.locals[c], Apply(s, Decode(c, true));
    assert LocalOk(s, l);
    DecodeHeld(s, l);
    var h := l.raw[0];
    assert Held(l)[|l.out|] == h;
    if s.group.entries[h.id].Undecodable? {
      RemovalPays(s.group, h.id, Unreadable, s.group.next);
      ViewAfterRemoval(s.group, l, Decoding(l.raw[1..], l.out), h.id, Unreadable);
    }
  }

  lemma {:induction false} PaySendAck(s: State, c: nat)
    requires Inv(s) && Enabled(s, SendAck(c, true)) && ViewOk(s.group, s.locals[c])
    ensures var t := Apply(s, SendAck(c, true)); Pays(s, t, c, 0) && ViewOk(t.group, t.locals[c])
  {
    var l := s.locals[c];
    assert LocalOk(s, l);
    RemovalPays(s.group, l.id, l.why, s.group.next);
    ViewAfterRemoval(s.group, l, Handling(l.rest), l.id, l.why);
  }

  lemma {:induction false} PayHead(s: State, step: Step, c: nat)
    requires Inv(s) && Enabled(s, step) && (step == GiveUp(c) || step == Begin(c)) && ViewOk(s.group, s.locals[c])
    ensures var t := Apply(s, step); Pays(s, t, c, 0) && ViewOk(t.group, t.locals[c])
  {
    var l := s.locals[c];
    assert Held(l) == [l.batch[0]] + l.batch[1..];
    HighsAppend([l.batch[0]], l.batch[1..]);
    assert [l.batch[0]][1..] == [];
    assert Held(l)[0] == l.batch[0];
  }

  lemma {:induction false} PayFinish(s: State, c: nat, failed: nat)
    requires Inv(s) && Enabled(s, Finish(c, failed)) && ViewOk(s.group, s.locals[c])
    ensures var t := Apply(s, Finish(c, failed)); Pays(s, t, c, 0) && ViewOk(t.group, t.locals[c])
  {
  }

  lemma {:induction false} PayQuiet(s: State, step: Step, c: nat)
    requires Inv(s) && Enabled(s, step) && c in s.locals && ViewOk(s.group, s.locals[c])
    requires step.Publish? || step == StartBatch(c) || step == Rest(c) || (step.Inspect? && step.c == c)
    ensures var t := Apply(s, step); Pays(s, t, c, 0) && ViewOk(t.group, t.locals[c])
  {
    if step == StartBatch(c) {
      assert Held(s.locals[c]) == s.locals[c].out + [] == s.locals[c].out;
    }
  }

  lemma {:induction false} PayStep(s: State, step: Step, c: nat)
    requires Inv(s) && s.locals.Keys == {c} && Enabled(s, step) && Reliable(step) && ViewOk(s.group, s.locals[c])
    ensures var t := Apply(s, step); Pays(s, t, c, Claims(step)) && ViewOk(t.group, t.locals[c])
  {
    match step
    case Claim(_, ids) => PayClaim(s, c, ids);
    case Decode(_, _) => PayDecode(s, c);
    case GiveUp(_) => PayHead(s, step, c);
    case Begin(_) => PayHead(s, step, c);
    case Finish(_, failed) => PayFinish(s, c, failed);
    case SendAck(_, _) => PaySendAck(s, c);
    case _ => PayQuiet(s, step, c);
  }

  /** The books of a recovery: claims made so far are paid for by weight lost. */
  ghost predicate Paid(s: State, t: State, c: nat, claims: nat) {
    && Inv(t) && t.locals.Keys == {c} && ViewOk(t.group, t.locals[c])
    && t.group.next == s.group.next && s.locals.Keys == {c}
    && Potential(t.group.pel, t.group.next) + claims
         <= Potential(s.group.pel, s.group.next) + Doomed(t.locals[c])
  }

  lemma {:induction false} PaidAlways(s: State, steps: seq<Step>, c: nat)
    requires Inv(s) && s.locals.Keys == {c} && s.locals[c].Idle?
    requires IsRun(s, steps) && forall step :: step in steps ==> Reliable(step)
    ensures Paid(s, After(s, steps), c, ClaimsIn(steps))
    decreases |steps|
  {
    if steps != [] {
      var front, last := steps[..|steps| - 1], steps[|steps| - 1];
      assert steps == front + [last];
      PaidAlways(s, front, c);
      InvStep(After(s, front), last);
      DB.SameConsumers(After(s, front), last);
      PayStep(After(s, front), last, c);
    }
  }

  /** The drain measure: in a reliable recovery of one consumer, from any reachable idle state, every
      claimed message lowers the total weight of the pending list by one by the time the consumer
      rests. So the number of claims is bounded by the weight at the start, messages that always
      fail cannot hold others back for ever, and once that many claims are made nothing is pending. */
  lemma {:induction false} RecoveryDrains(first: State, before: seq<Step>, steps: seq<Step>, c: nat)
    requires Initial(first) && first.locals.Keys == {c} && IsRun(first, before)
    requires c in After(first, before).locals && After(first, before).locals[c].Idle?
    requires IsRun(After(first, before), steps) && forall step :: step in steps ==> Reliable(step)
    ensures var s, t := After(first, before), After(After(first, before), steps);
      && c in t.locals && t.group.next == s.group.next
      && (t.locals[c].Idle? ==>
            Potential(t.group.pel, t.group.next) + ClaimsIn(steps) <= Potential(s.group.pel, s.group.next))
      && (t.locals[c].Idle? && ClaimsIn(steps) >= Potential(s.group.pel, s.group.next) ==> t.group.pel == map[])
  {
    var s := After(first, before);
    InvAlways(first, before);
    SameConsumersAlways(first, before);
    PaidAlways(s, steps, c);
    var t := After(s, steps);
    if t.locals[c].Idle? && ClaimsIn(steps) >= Potential(s.group.pel, s.group.next) {
      if id :| id in t.group.pel {
        PotentialPositive(t.group.pel, id, t.group.next);
      }
    }
  }

  lemma {:induction false} SameConsumersAlways(s: State, steps: seq<Step>)
    requires IsRun(s, steps)
    ensures After(s, steps).locals.Keys == s.locals.Keys
    decreases |steps|
  {
    if steps != [] {
      SameConsumersAlways(s, steps[..|steps| - 1]);
      DB.SameConsumers(After(s, steps[..|steps| - 1]), steps[|steps| - 1]);
    }
  }
}
