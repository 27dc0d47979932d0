/** Safety of the delivery protocol over every run: nothing is lost, and nothing is
    acknowledged without a reason. */
module DeliverySafety {
  import opened Codec
  import opened Delivery

  /** Every delivered entry of the group is in exactly one of the pending list and the acknowledged set. */
  ghost predicate GroupOk(g: Group) {
    && g.start <= g.next <= |g.entries|
    && (forall id :: id in g.pel ==> g.start <= id < g.next && g.pel[id].count >= 1)
    && (forall id :: id in g.acked ==> g.start <= id < g.next && id !in g.pel)
    && (forall id :: g.start <= id < g.next ==> id in g.pel || id in g.acked)
  }

  ghost predicate DistinctIds(s: seq<Handed>) {
    forall i, j :: 0 <= i < j < |s| ==> s[i].id != s[j].id
  }

  /** A held count never exceeds the true one, and after the first read it lags behind it. */
  ghost predicate HandedOk(g: Group, h: Handed) {
    && h.count >= 1 && g.start <= h.id < g.next <= |g.entries|
    && (h.id in g.pel ==> h.count <= g.pel[h.id].count && (h.count >= 2 ==> h.count < g.pel[h.id].count))
  }

  predicate Readable(g: Group, h: Handed) {
    h.id < |g.entries| && !g.entries[h.id].Undecodable?
  }

  ghost predicate Justified(s: State, id: Id, why: Reason, count: nat) {
    && id < |s.group.entries|
    && match why
       case Unreadable => s.group.entries[id].Undecodable?
       case Poison => s.group.entries[id].Malformed? && s.tries[id] > 0
       case Clean => id in s.clean
       case DeadLetter => count > MAX_DELIVERIES
  }

  ghost predicate LocalOk(s: State, l: Local) {
    && (forall i :: 0 <= i < |Held(l)| ==> HandedOk(s.group, Held(l)[i]))
    && DistinctIds(Held(l))
    && match l
       case Idle => true
       case Snapshot(counts) =>
         forall id :: id in counts ==>
           && counts[id] >= 1 && s.group.start <= id < s.group.next
           && (id in s.group.pel ==> counts[id] <= s.group.pel[id].count)
       case Decoding(raw, out) => forall i :: 0 <= i < |out| ==> Readable(s.group, out[i])
       case Handling(batch) => forall i :: 0 <= i < |batch| ==> Readable(s.group, batch[i])
       case Running(now, rest) =>
         && HandedOk(s.group, now) && now.count < MAX_DELIVERIES && s.tries[now.id] > 0
         && Readable(s.group, now)
         && (forall i :: 0 <= i < |rest| ==> Readable(s.group, rest[i]) && rest[i].id != now.id)
       case Acking(id, why, rest) =>
         && s.group.start <= id < s.group.next
         && (forall i :: 0 <= i < |rest| ==> Readable(s.group, rest[i]) && rest[i].id != id)
         && (id in s.group.pel ==> Justified(s, id, why, s.group.pel[id].count))
  }

  ghost predicate LocalsOk(s: State) {
    forall c :: c in s.locals ==> LocalOk(s, s.locals[c])
  }

  ghost predicate AcksOk(s: State) {
    forall id :: id in s.group.acked ==> Justified(s, id, s.group.acked[id].why, s.group.acked[id].count)
  }

  /** The history sets speak of delivered entries only. */
  ghost predicate HistoryOk(s: State) {
    && (forall id :: id in s.clean ==>
          && id < |s.group.entries| && s.tries[id] > 0
          && !s.group.entries[id].Undecodable? && !s.group.entries[id].Malformed?)
    && (forall id :: s.tries[id] > 0 ==> s.group.start <= id < s.group.next)
  }

  ghost predicate Inv(s: State) {
    GroupOk(s.group) && LocalsOk(s) && AcksOk(s) && HistoryOk(s)
  }

  /** How the shared state may change under a consumer that takes no part in the step. */
  ghost predicate Grows(s: State, t: State) {
    && s.group.entries <= t.group.entries
    && s.group.start == t.group.start && s.group.next <= t.group.next <= |t.group.entries|
    && (forall id :: id in t.group.pel && id < s.group.next ==>
          id in s.group.pel && s.group.pel[id].count <= t.group.pel[id].count)
    && s.tries <= t.tries && s.clean <= t.clean
  }

  lemma {:induction false} LocalOkGrows(s: State, t: State, l: Local)
    requires LocalOk(s, l) && Grows(s, t)
    ensures LocalOk(t, l)
  {
    forall i | 0 <= i < |Held(l)|
      ensures HandedOk(t.group, Held(l)[i])
    {
      assert HandedOk(s.group, Held(l)[i]);
    }
    match l {
      case Running(now, rest) =>
        assert HandedOk(s.group, now);
        assert Readable(t.group, now);
      case _ =>
    }
  }

  /** One consumer moves: the others keep their invariants because the shared state only grows. */
  lemma {:induction false} OthersKeep(s: State, t: State, c: nat)
    requires LocalsOk(s) && Grows(s, t)
    requires c in s.locals && c in t.locals && t.locals == s.locals[c := t.locals[c]]
    requires LocalOk(t, t.locals[c])
    ensures LocalsOk(t)
  {
    forall d | d in t.locals
      ensures LocalOk(t, t.locals[d])
    {
      if d != c {
        LocalOkGrows(s, t, s.locals[d]);
      }
    }
  }

  /** Reasons that held stay good while the state grows. */
  lemma {:induction false} AcksKeep(s: State, t: State)
    requires AcksOk(s) && Grows(s, t) && t.group.acked == s.group.acked
    ensures AcksOk(t)
  {
    forall id | id in t.group.acked
      ensures Justified(t, id, t.group.acked[id].why, t.group.acked[id].count)
    {
      assert Justified(s, id, s.group.acked[id].why, s.group.acked[id].count);
    }
  }

  lemma {:induction false} DeliverOk(g: Group, c: nat, n: nat)
    requires GroupOk(g) && g.next + n <= |g.entries|
    ensures GroupOk(Deliver(g, c, n))
    ensures forall id :: id in Deliver(g, c, n).pel && id < g.next ==>
      id in g.pel && Deliver(g, c, n).pel[id] == g.pel[id]
    ensures forall id :: g.next <= id < g.next + n ==>
      id in Deliver(g, c, n).pel && Deliver(g, c, n).pel[id] == Pending(c, 1)
  {
  }

  lemma {:induction false} ReassignOk(g: Group, c: nat, ids: seq<Id>)
    requires GroupOk(g)
    ensures GroupOk(Reassign(g, c, ids))
  {
  }

  lemma {:induction false} RemoveOk(g: Group, id: Id, why: Reason)
    requires GroupOk(g)
    ensures GroupOk(Remove(g, id, why))
  {
  }

  lemma {:induction false} InvPublish(s: State, p: Payload)
    requires Inv(s)
    ensures Inv(Apply(s, Publish(p)))
  {
    var t := Apply(s, Publish(p));
    forall c | c in t.locals
      ensures LocalOk(t, t.locals[c])
    {
      LocalOkGrows(s, t, s.locals[c]);
    }
    AcksKeep(s, t);
  }

  lemma {:induction false} NewBatchOk(s: State, t: State, c: nat, n: nat)
    requires GroupOk(s.group) && s.group.next + n <= |s.group.entries|
    requires t == s.(group := Deliver(s.group, c, n), locals := t.locals)
    ensures LocalOk(t, Decoding(HandNew(s.group.next, n), []))
  {
    DeliverOk(s.group, c, n);
    var l := Decoding(HandNew(s.group.next, n), []);
    assert Held(l) == HandNew(s.group.next, n);
  }

  lemma {:induction false} InvReadNew(s: State, c: nat, n: nat)
    requires Inv(s) && Enabled(s, ReadNew(c, n))
    ensures Inv(Apply(s, ReadNew(c, n)))
  {
    var t := Apply(s, ReadNew(c, n));
    DeliverOk(s.group, c, n);
    NewBatchOk(s, t, c, n);
    OthersKeep(s, t, c);
    AcksKeep(s, t);
  }

  lemma {:induction false} InvInspect(s: State, c: nat, ids: set<Id>)
    requires Inv(s) && Enabled(s, Inspect(c, ids))
    ensures Inv(Apply(s, Inspect(c, ids)))
  {
    OthersKeep(s, Apply(s, Inspect(c, ids)), c);
    AcksKeep(s, Apply(s, Inspect(c, ids)));
  }

  lemma {:induction false} ClaimedBatchOk(s: State, t: State, c: nat, ids: seq<Id>, counts: map<Id, nat>)
    requires GroupOk(s.group) && LocalOk(s, Snapshot(counts)) && NoRepeats(ids)
    requires forall id :: id in ids ==> id in counts && id in s.group.pel
    requires t == s.(group := Reassign(s.group, c, ids), locals := t.locals)
    ensures LocalOk(t, Decoding(HandClaimed(ids, counts), []))
  {
    var l := Decoding(HandClaimed(ids, counts), []);
    assert Held(l) == HandClaimed(ids, counts);
    forall i | 0 <= i < |ids|
      ensures HandedOk(t.group, Held(l)[i])
    {
      assert ids[i] in ids;
    }
  }

  lemma {:induction false} InvClaim(s: State, c: nat, ids: seq<Id>)
    requires Inv(s) && Enabled(s, Claim(c, ids))
    ensures Inv(Apply(s, Claim(c, ids)))
  {
    var t := Apply(s, Claim(c, ids));
    ReassignOk(s.group, c, ids);
    assert LocalOk(s, s.locals[c]);
    ClaimedBatchOk(s, t, c, ids, s.locals[c].counts);
    OthersKeep(s, t, c);
    AcksKeep(s, t);
  }

  /** Removing an entry for a good reason keeps every reason good. */
  lemma {:induction false} RemoveJustified(s: State, t: State, id: Id, why: Reason)
    requires AcksOk(s) && t == s.(group := Remove(s.group, id, why), locals := t.locals)
    requires id in s.group.pel ==> Justified(s, id, why, s.group.pel[id].count)
    ensures AcksOk(t)
  {
    forall j | j in t.group.acked
      ensures Justified(t, j, t.group.acked[j].why, t.group.acked[j].count)
    {
      if j in s.group.acked {
        assert Justified(s, j, s.group.acked[j].why, s.group.acked[j].count);
      }
    }
  }

  lemma {:induction false} DecodedOk(s: State, t: State, l: Local)
    requires LocalOk(s, l) && l.Decoding? && l.raw != [] && l.raw[0].id < |s.group.entries|
    requires Grows(s, t)
    ensures LocalOk(t, Decoding(l.raw[1..], l.out))
    ensures !s.group.entries[l.raw[0].id].Undecodable? ==> LocalOk(t, Decoding(l.raw[1..], l.out + [l.raw[0]]))
  {
    LocalOkGrows(s, t, l);
    assert Held(l) == l.out + [l.raw[0]] + l.raw[1..];
    var kept, dropped := Decoding(l.raw[1..], l.out + [l.raw[0]]), Decoding(l.raw[1..], l.out);
    assert Held(kept) == Held(l);
    forall i | 0 <= i < |Held(dropped)|
      ensures HandedOk(t.group, Held(dropped)[i])
    {
      assert HandedOk(t.group, Held(l)[if i < |l.out| then i else i + 1]);
    }
    forall i, j | 0 <= i < j < |Held(dropped)|
      ensures Held(dropped)[i].id != Held(dropped)[j].id
    {
      assert Held(dropped)[i] == Held(l)[if i < |l.out| then i else i + 1];
      assert Held(dropped)[j] == Held(l)[if j < |l.out| then j else j + 1];
    }
  }

  lemma {:induction false} InvDecode(s: State, c: nat, ackOk: bool)
    requires Inv(s) && Enabled(s, Decode(c, ackOk))
    ensures Inv(Apply(s, Decode(c, ackOk)))
  {
    var t, l := Apply(s, Decode(c, ackOk)), s.locals[c];
    assert LocalOk(s, l);
    RemoveOk(s.group, l.raw[0].id, Unreadable);
    DecodedOk(s, t, l);
    OthersKeep(s, t, c);
    if t.group != s.group {
      RemoveJustified(s, t, l.raw[0].id, Unreadable);
    } else {
      AcksKeep(s, t);
    }
  }

  lemma {:induction false} InvStartBatch(s: State, c: nat)
    requires Inv(s) && Enabled(s, StartBatch(c))
    ensures Inv(Apply(s, StartBatch(c)))
  {
    var t := Apply(s, StartBatch(c));
    assert LocalOk(s, s.locals[c]);
    assert Held(s.locals[c]) == s.locals[c].out;
    OthersKeep(s, t, c);
    AcksKeep(s, t);
  }

  lemma {:induction false} TailOk(s: State, l: Local)
    requires LocalOk(s, l) && l.Handling? && l.batch != []
    ensures HandedOk(s.group, l.batch[0]) && Readable(s.group, l.batch[0])
    ensures forall i :: 0 <= i < |l.batch[1..]| ==>
      HandedOk(s.group, l.batch[1..][i]) && Readable(s.group, l.batch[1..][i]) && l.batch[1..][i].id != l.batch[0].id
    ensures DistinctIds(l.batch[1..])
  {
    assert Held(l)[0] == l.batch[0];
    forall i | 0 <= i < |l.batch[1..]|
      ensures HandedOk(s.group, l.batch[1..][i])
    {
      assert HandedOk(s.group, Held(l)[i + 1]);
    }
  }

  lemma {:induction false} InvGiveUp(s: State, c: nat)
    requires Inv(s) && Enabled(s, GiveUp(c))
    ensures Inv(Apply(s, GiveUp(c)))
  {
    var t := Apply(s, GiveUp(c));
    assert LocalOk(s, s.locals[c]);
    TailOk(s, s.locals[c]);
    OthersKeep(s, t, c);
    AcksKeep(s, t);
  }

  lemma {:induction false} InvBegin(s: State, c: nat)
    requires Inv(s) && Enabled(s, Begin(c))
    ensures Inv(Apply(s, Begin(c)))
  {
    var t := Apply(s, Begin(c));
    assert LocalOk(s, s.locals[c]);
    TailOk(s, s.locals[c]);
    OthersKeep(s, t, c);
    AcksKeep(s, t);
  }

  lemma {:induction false} FinishedOk(s: State, c: nat, failed: nat)
    requires Inv(s) && Enabled(s, Finish(c, failed))
    ensures LocalOk(Apply(s, Finish(c, failed)), Apply(s, Finish(c, failed)).locals[c])
  {
    var t, l := Apply(s, Finish(c, failed)), s.locals[c];
    assert LocalOk(s, l);
    assert Held(t.locals[c]) == Held(l);
  }

  lemma {:induction false} InvFinish(s: State, c: nat, failed: nat)
    requires Inv(s) && Enabled(s, Finish(c, failed))
    ensures Inv(Apply(s, Finish(c, failed)))
  {
    var t := Apply(s, Finish(c, failed));
    FinishedOk(s, c, failed);
    OthersKeep(s, t, c);
    AcksKeep(s, t);
    assert LocalOk(s, s.locals[c]);
  }

  lemma {:induction false} InvSendAck(s: State, c: nat, ok: bool)
    requires Inv(s) && Enabled(s, SendAck(c, ok))
    ensures Inv(Apply(s, SendAck(c, ok)))
  {
    var t, l := Apply(s, SendAck(c, ok)), s.locals[c];
    assert LocalOk(s, l);
    RemoveOk(s.group, l.id, l.why);
    LocalOkGrows(s, t, l);
    assert Held(Handling(l.rest)) == Held(l);
    OthersKeep(s, t, c);
    if ok {
      RemoveJustified(s, t, l.id, l.why);
    } else {
      AcksKeep(s, t);
    }
  }

  lemma {:induction false} InvIdle(s: State, step: Step)
    requires Inv(s) && Enabled(s, step) && (step.Rest? || step.Crash?)
    ensures Inv(Apply(s, step))
  {
    OthersKeep(s, Apply(s, step), step.c);
    AcksKeep(s, Apply(s, step));
  }

  lemma {:induction false} InvStep(s: State, step: Step)
    requires Inv(s) && Enabled(s, step)
    ensures Inv(Apply(s, step))
  {
    match step
    case Publish(p) => InvPublish(s, p);
    case ReadNew(c, n) => InvReadNew(s, c, n);
    case Inspect(c, ids) => InvInspect(s, c, ids);
    case Claim(c, ids) => InvClaim(s, c, ids);
    case Decode(c, ackOk) => InvDecode(s, c, ackOk);
    case StartBatch(c) => InvStartBatch(s, c);
    case GiveUp(c) => InvGiveUp(s, c);
    case Begin(c) => InvBegin(s, c);
    case Finish(c, failed) => InvFinish(s, c, failed);
    case SendAck(c, ok) => InvSendAck(s, c, ok);
    case Rest(c) => InvIdle(s, step);
    case Crash(c) => InvIdle(s, step);
  }

  lemma {:induction false} InvAlways(s: State, steps: seq<Step>)
    requires Initial(s) && IsRun(s, steps)
    ensures Inv(After(s, steps))
    decreases |steps|
  {
    if steps != [] {
      InvAlways(s, steps[..|steps| - 1]);
      InvStep(After(s, steps[..|steps| - 1]), steps[|steps| - 1]);
    }
  }

  /** No loss: on every run, with any interleaving of consumers, crashes and failed
      acknowledgements, each entry appended since the group was created is in exactly one of
      three places: not delivered yet, pending, or acknowledged. */
  lemma {:induction false} NothingIsLost(s: State, steps: seq<Step>, id: Id)
    requires Initial(s) && IsRun(s, steps)
    requires After(s, steps).group.start <= id < |After(s, steps).group.entries|
    ensures var g := After(s, steps).group;
      || (id >= g.next && id !in g.pel && id !in g.acked)
      || (id < g.next && id in g.pel && id !in g.acked)
      || (id < g.next && id !in g.pel && id in g.acked)
  {
    InvAlways(s, steps);
  }

  /** An entry is acknowledged only after a call of `process` that ended cleanly, as malformed,
      because it cannot be decoded, or with a delivery count above the limit. */
  lemma {:induction false} AcknowledgedForAReason(s: State, steps: seq<Step>, id: Id)
    requires Initial(s) && IsRun(s, steps)
    requires id in After(s, steps).group.acked
    ensures var e := After(s, steps);
      && id < |e.group.entries|
      && match e.group.acked[id].why
         case Clean => id in e.clean && e.tries[id] > 0
         case Poison => e.group.entries[id].Malformed? && e.tries[id] > 0
         case Unreadable => e.group.entries[id].Undecodable?
         case DeadLetter => e.group.acked[id].count > 5
  {
    InvAlways(s, steps);
    assert Justified(After(s, steps), id, After(s, steps).group.acked[id].why, After(s, steps).group.acked[id].count);
  }
}
