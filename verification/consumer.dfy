/** The consumer: reading new entries, taking over stuck ones, decoding, and acknowledging. What
    Redis answers, and which entries it finds idle, are inputs of each method. */
module Consumer {
  import opened Prelude
  import opened Codec
  import opened Trades
  import opened Store
  import opened Pipeline
  import opened RunningSystem
  import D = Delivery

  /** A decoded message as the consumer hands it to the worker. */
  datatype Message = Message(id: D.Id, payload: Payload, count: nat)

  function Handed(m: Message): D.Handed {
    D.Handed(m.id, m.count)
  }

  function HandedOf(msgs: seq<Message>): seq<D.Handed> {
    seq(|msgs|, i requires 0 <= i < |msgs| => Handed(msgs[i]))
  }

  /** The worker's protocol state while no calculator runs. */
  ghost predicate Waits(w: World, l: D.Local) {
    w.d.locals == map[WORKER := l] && w.stage == Resting && !l.Running?
  }

  ghost function WithLocal(w: World, l: D.Local): World {
    w.(d := w.d.(locals := map[WORKER := l]))
  }

  lemma {:induction false} StillWaits(a: World, b: World, l: D.Local)
    requires Waits(a, l) && Meanwhile(a, b)
    ensures Waits(b, l) && b.d.tries == a.d.tries && b.d.clean == a.d.clean && b.d.lost == a.d.lost
    ensures b.d.group.next == a.d.group.next && b.d.group.pel == a.d.group.pel
  {
  }

  // ---- Acknowledging.

  ghost function AfterAck(w: World, id: D.Id, why: D.Reason, rest: seq<D.Handed>, applied: bool): World {
    WithLocal(if applied then w.(d := w.d.(group := D.Remove(w.d.group, id, why))) else w, D.Handling(rest))
  }

  /** XACK. It may take effect although its answer is lost. */
  method XAck(c: Cluster, id: D.Id, result: Result, ghost why: D.Reason, ghost rest: seq<D.Handed>) returns (err: bool)
    requires c.Valid() && Waits(c.w, D.Acking(id, why, rest))
    modifies c
    ensures c.Valid() && Waits(c.w, D.Handling(rest)) && old(c.entries) <= c.entries
    ensures c.w.d.tries == old(c.w.d.tries) && c.w.d.clean == old(c.w.d.clean)
    ensures c.t == old(c.t).(trades := c.t.trades) && old(c.t.trades) <= c.t.trades && c.next == old(c.next)
    ensures c.pel == if result.Failed? then old(c.pel) else old(c.pel) - {id}
    ensures err <==> result != Ok
  {
    c.Others();
    StillWaits(old(c.w), c.w, D.Acking(id, why, rest));
    AckStep(c, id, why, rest, !result.Failed?);
    if !result.Failed? {
      c.pel := c.pel - {id};
    }
    err := result != Ok;
  }

  ghost method AckStep(c: Cluster, id: D.Id, why: D.Reason, rest: seq<D.Handed>, applied: bool)
    requires c.History() && Waits(c.w, D.Acking(id, why, rest))
    modifies c`worlds, c`steps, c`w
    ensures c.History() && c.w == AfterAck(old(c.w), id, why, rest, applied)
  {
    assert map[WORKER := D.Acking(id, why, rest)][WORKER := D.Handling(rest)] == map[WORKER := D.Handling(rest)];
    AppliesOneStep(c.w, Deliver(D.SendAck(WORKER, applied)));
    c.Log(Deliver(D.SendAck(WORKER, applied)), AfterAck(c.w, id, why, rest, applied));
  }

  // ---- Decoding a batch.

  function Readable(entries: seq<Payload>): D.Handed -> bool {
    (h: D.Handed) => h.id < |entries| && !entries[h.id].Undecodable?
  }

  /** Each message carries the payload that the stream holds under its id. */
  ghost predicate AllStored(entries: seq<Payload>, msgs: seq<Message>) {
    forall i :: 0 <= i < |msgs| ==>
      msgs[i].id < |entries| && entries[msgs[i].id] == msgs[i].payload && !msgs[i].payload.Undecodable?
  }

  /** The protocol after one turn of the decoding loop. */
  ghost function Decoded(d: D.State, h: D.Handed, raw: seq<D.Handed>, out: seq<D.Handed>, applied: bool): D.State
    requires h.id < |d.group.entries|
  {
    if !d.group.entries[h.id].Undecodable? then d.(locals := map[WORKER := D.Decoding(raw, out + [h])])
    else d.(group := if applied then D.Remove(d.group, h.id, D.Unreadable) else d.group,
            locals := map[WORKER := D.Decoding(raw, out)])
  }

  lemma {:induction false} DecodeApplies(d: D.State, h: D.Handed, raw: seq<D.Handed>, out: seq<D.Handed>, applied: bool)
    requires d.locals == map[WORKER := D.Decoding([h] + raw, out)] && h.id < |d.group.entries|
    ensures D.Enabled(d, D.Decode(WORKER, applied))
    ensures D.Apply(d, D.Decode(WORKER, applied)) == Decoded(d, h, raw, out, applied)
  {
    assert ([h] + raw)[1..] == raw;
  }

  ghost method DecodeStep(c: Cluster, h: D.Handed, raw: seq<D.Handed>, out: seq<D.Handed>, applied: bool)
    requires c.History() && Waits(c.w, D.Decoding([h] + raw, out)) && h.id < |c.w.d.group.entries|
    modifies c`worlds, c`steps, c`w
    ensures c.History() && c.w == old(c.w).(d := Decoded(old(c.w.d), h, raw, out, applied))
  {
    DecodeApplies(c.w.d, h, raw, out, applied);
    var e := Decoded(c.w.d, h, raw, out, applied);
    DeliverStep(c.w, D.Decode(WORKER, applied), e);
    c.Log(Deliver(D.Decode(WORKER, applied)), c.w.(d := e));
  }

  ghost method StartStep(c: Cluster, out: seq<D.Handed>)
    requires c.History() && Waits(c.w, D.Decoding([], out))
    modifies c`worlds, c`steps, c`w
    ensures c.History() && c.w == WithLocal(old(c.w), D.Handling(out))
  {
    AppliesOneStep(c.w, Deliver(D.StartBatch(WORKER)));
    c.Log(Deliver(D.StartBatch(WORKER)), WithLocal(c.w, D.Handling(out)));
  }

  /** The ids of a batch that do not decode and whose acknowledgement takes effect. */
  function Gone(raw: seq<D.Handed>, entries: seq<Payload>, acks: D.Id -> bool): set<D.Id> {
    set h | h in raw && !Readable(entries)(h) && acks(h.id) :: h.id
  }

  /** One turn of the loop: an entry that does not decode is acknowledged, whatever the answer, and left out. */
  method DecodeOne(c: Cluster, h: D.Handed, applied: bool, ghost raw: seq<D.Handed>, msgs: seq<Message>)
    returns (more: seq<Message>)
    requires c.Valid() && Waits(c.w, D.Decoding([h] + raw, HandedOf(msgs))) && h.id < |c.entries|
             && AllStored(c.entries, msgs)
    modifies c
    ensures c.Valid() && Waits(c.w, D.Decoding(raw, HandedOf(more))) && AllStored(c.entries, more)
    ensures HandedOf(more) == if Readable(old(c.entries))(h) then HandedOf(msgs) + [h] else HandedOf(msgs)
    ensures old(c.entries) <= c.entries && c.t == old(c.t).(trades := c.t.trades) && old(c.t.trades) <= c.t.trades
    ensures c.w.d.tries == old(c.w.d.tries) && c.next == old(c.next)
    ensures c.pel == if !Readable(old(c.entries))(h) && applied then old(c.pel) - {h.id} else old(c.pel)
  {
    c.Others();
    StillWaits(old(c.w), c.w, D.Decoding([h] + raw, HandedOf(msgs)));
    DecodeStep(c, h, raw, HandedOf(msgs), applied);
    if c.entries[h.id].Undecodable? {
      more := msgs;
      if applied {
        c.pel := c.pel - {h.id};
      }
    } else {
      more := msgs + [Message(h.id, c.entries[h.id], h.count)];
      assert HandedOf(more) == HandedOf(msgs) + [h];
    }
  }

  lemma {:induction false} OneMoreDecoded(raw: seq<D.Handed>, i: nat, entries: seq<Payload>, later: seq<Payload>)
    requires i < |raw| && entries <= later && raw[i].id < |entries|
    ensures raw[i..] == [raw[i]] + raw[i + 1..] && Readable(later)(raw[i]) == Readable(entries)(raw[i])
    ensures Filter(raw[..i + 1], Readable(entries)) ==
      Filter(raw[..i], Readable(entries)) + if Readable(entries)(raw[i]) then [raw[i]] else []
  {
    assert raw[..i + 1][..i] == raw[..i];
  }

  lemma {:induction false} OneMoreGone(raw: seq<D.Handed>, i: nat, entries: seq<Payload>, acks: D.Id -> bool,
                                       pel: map<D.Id, D.Pending>)
    requires i < |raw|
    ensures pel - Gone(raw[..i + 1], entries, acks) ==
      if !Readable(entries)(raw[i]) && acks(raw[i].id) then pel - Gone(raw[..i], entries, acks) - {raw[i].id}
      else pel - Gone(raw[..i], entries, acks)
  {
    assert raw[..i + 1] == raw[..i] + [raw[i]];
    assert Gone(raw[..i + 1], entries, acks) ==
      Gone(raw[..i], entries, acks) + if !Readable(entries)(raw[i]) && acks(raw[i].id) then {raw[i].id} else {};
  }

  /** The next entry of the batch; `entries` is the stream as it was when the loop began. */
  method DecodeNext(c: Cluster, raw: seq<D.Handed>, i: nat, applied: bool, msgs: seq<Message>,
                    ghost entries: seq<Payload>)
    returns (more: seq<Message>)
    requires i < |raw| && c.Valid() && Waits(c.w, D.Decoding(raw[i..], HandedOf(msgs))) && AllStored(c.entries, msgs)
    requires entries <= c.entries && raw[i].id < |entries| && HandedOf(msgs) == Filter(raw[..i], Readable(entries))
    modifies c
    ensures c.Valid() && Waits(c.w, D.Decoding(raw[i + 1..], HandedOf(more))) && AllStored(c.entries, more)
    ensures old(c.entries) <= c.entries && HandedOf(more) == Filter(raw[..i + 1], Readable(entries))
    ensures c.t == old(c.t).(trades := c.t.trades) && old(c.t.trades) <= c.t.trades && c.next == old(c.next)
    ensures c.w.d.tries == old(c.w.d.tries)
    ensures c.pel == if !Readable(entries)(raw[i]) && applied then old(c.pel) - {raw[i].id} else old(c.pel)
  {
    OneMoreDecoded(raw, i, entries, c.entries);
    more := DecodeOne(c, raw[i], applied, raw[i + 1..], msgs);
  }

  /** The messages are the entries that decode, in order; of the others, those whose acknowledgement
      takes effect leave the pending list. */
  method DecodeBatch(c: Cluster, raw: seq<D.Handed>, acks: D.Id -> bool) returns (msgs: seq<Message>)
    requires c.Valid() && Waits(c.w, D.Decoding(raw, [])) && forall h :: h in raw ==> h.id < |c.entries|
    modifies c
    ensures c.Valid() && Waits(c.w, D.Handling(HandedOf(msgs))) && AllStored(c.entries, msgs)
    ensures HandedOf(msgs) == Filter(raw, Readable(old(c.entries)))
    ensures old(c.entries) <= c.entries && c.t == old(c.t).(trades := c.t.trades) && old(c.t.trades) <= c.t.trades
    ensures c.w.d.tries == old(c.w.d.tries) && c.next == old(c.next)
    ensures c.pel == old(c.pel) - Gone(raw, old(c.entries), acks)
  {
    msgs := [];
    var i := 0;
    assert raw[0..] == raw && HandedOf(msgs) == [];
    while i < |raw|
      invariant i <= |raw| && c.Valid() && Waits(c.w, D.Decoding(raw[i..], HandedOf(msgs)))
      invariant AllStored(c.entries, msgs) && HandedOf(msgs) == Filter(raw[..i], Readable(old(c.entries)))
      invariant old(c.entries) <= c.entries && c.t == old(c.t).(trades := c.t.trades)
      invariant old(c.t.trades) <= c.t.trades && c.w.d.tries == old(c.w.d.tries) && c.next == old(c.next)
      invariant c.pel == old(c.pel) - Gone(raw[..i], old(c.entries), acks)
    {
      assert raw[i] in raw;
      OneMoreGone(raw, i, old(c.entries), acks, old(c.pel));
      msgs := DecodeNext(c, raw, i, acks(raw[i].id), msgs, old(c.entries));
      i := i + 1;
    }
    assert raw[..i] == raw && raw[i..] == [];
    StartStep(c, HandedOf(msgs));
  }

  // ---- Reading new entries.

  ghost function AfterRead(w: World, n: nat): World {
    var g := w.d.group;
    var after := g.(next := g.next + n, pel := Delivered(g.next, g.pel, n));
    WithLocal(w.(d := w.d.(group := after)), D.Decoding(D.HandNew(g.next, n), []))
  }

  ghost method ReadStep(c: Cluster, n: nat)
    requires c.History() && Waits(c.w, D.Idle) && n <= D.BATCH_SIZE && c.w.d.group.next + n <= |c.w.d.group.entries|
    modifies c`worlds, c`steps, c`w
    ensures c.History() && c.w == AfterRead(old(c.w), n)
  {
    DeliveredByGroup(c.w.d.group, n);
    AppliesOneStep(c.w, Deliver(D.ReadNew(WORKER, n)));
    c.Log(Deliver(D.ReadNew(WORKER, n)), AfterRead(c.w, n));
  }

  ghost function Dropped(d: D.State, held: seq<D.Handed>): D.State {
    d.(lost := d.lost + D.LiveIds(held), locals := map[WORKER := D.Idle])
  }

  lemma {:induction false} CrashApplies(d: D.State, held: seq<D.Handed>)
    requires d.locals == map[WORKER := D.Decoding(held, [])]
    ensures D.Enabled(d, D.Crash(WORKER)) && D.Apply(d, D.Crash(WORKER)) == Dropped(d, held)
  {
    assert [] + held == held;
  }

  /** The answer of a read or a claim is lost: for the protocol, the same as a crash. */
  ghost method LossStep(c: Cluster, held: seq<D.Handed>)
    requires c.History() && Waits(c.w, D.Decoding(held, []))
    modifies c`worlds, c`steps, c`w
    ensures c.History() && c.w == old(c.w).(d := Dropped(old(c.w.d), held))
  {
    CrashApplies(c.w.d, held);
    DeliverStep(c.w, D.Crash(WORKER), Dropped(c.w.d, held));
    c.Log(Deliver(D.Crash(WORKER)), c.w.(d := Dropped(c.w.d, held)));
  }

  /** The pending list after a read, as a function of the cursor and the list alone. */
  function Delivered(next: nat, pel: map<D.Id, D.Pending>, n: nat): map<D.Id, D.Pending> {
    D.Deliver(D.Group([], 0, next, pel, map[]), WORKER, n).pel
  }

  lemma {:induction false} DeliveredBelow(next: nat, pel: map<D.Id, D.Pending>, n: nat)
    requires forall id :: id in pel ==> id < next
    ensures forall id :: id in Delivered(next, pel, n) ==> id < next + n
  {
  }

  lemma {:induction false} DeliveredByGroup(g: D.Group, n: nat)
    ensures D.Deliver(g, WORKER, n) == g.(next := g.next + n, pel := Delivered(g.next, g.pel, n))
  {
  }

  /** XREADGROUP: the next `n` entries become pending. */
  method Receive(c: Cluster, n: nat)
    requires c.Valid() && Waits(c.w, D.Idle) && n <= D.BATCH_SIZE && c.next + n <= |c.entries|
    modifies c
    ensures c.Valid() && Waits(c.w, D.Decoding(D.HandNew(old(c.next), n), []))
    ensures c.t == old(c.t) && c.entries == old(c.entries) && c.next == old(c.next) + n
    ensures c.pel == Delivered(old(c.next), old(c.pel), n)
    ensures c.w.d.tries == old(c.w.d.tries)
  {
    ReadStep(c, n);
    DeliveredBelow(c.next, c.pel, n);
    c.pel, c.next := Delivered(c.next, c.pel, n), c.next + n;
  }

  /** The pending list after a read of `n` entries: the new ones join it, and if the answer arrives
      those that do not decode leave it again. */
  function AfterDelivery(next: nat, pel: map<D.Id, D.Pending>, n: nat, entries: seq<Payload>, answered: bool,
                         acks: D.Id -> bool): map<D.Id, D.Pending>
  {
    Delivered(next, pel, n) - if answered then Gone(D.HandNew(next, n), entries, acks) else {}
  }

  /** What Redis answers to a read, and which acknowledgements of undecodable entries take effect. */
  datatype ReadAnswers = ReadAnswers(result: Result, acks: D.Id -> bool)

  function Available(entries: seq<Payload>, next: nat, count: nat): nat {
    if |entries| <= next then 0 else if |entries| - next <= count then |entries| - next else count
  }

  /** The messages of a read of `n` entries. */
  function ReadMessages(next: nat, n: nat, entries: seq<Payload>, a: ReadAnswers): seq<D.Handed> {
    if a.result != Ok then [] else Filter(D.HandNew(next, n), Readable(entries))
  }

  /** The pending list after it. */
  function ReadPel(next: nat, pel: map<D.Id, D.Pending>, n: nat, entries: seq<Payload>, a: ReadAnswers)
    : map<D.Id, D.Pending>
  {
    if a.result.Failed? then pel else AfterDelivery(next, pel, n, entries, a.result == Ok, a.acks)
  }

  /** The next `n` entries become pending and are decoded, or the answer is lost. */
  method Fetch(c: Cluster, n: nat, a: ReadAnswers) returns (msgs: seq<Message>)
    requires c.Valid() && Waits(c.w, D.Idle) && n <= D.BATCH_SIZE && c.next + n <= |c.entries| && !a.result.Failed?
    modifies c
    ensures c.Valid() && AllStored(c.entries, msgs) && old(c.entries) <= c.entries
    ensures Waits(c.w, if a.result == Ok then D.Handling(HandedOf(msgs)) else D.Idle)
    ensures c.next == old(c.next) + n && c.t == old(c.t).(trades := c.t.trades) && old(c.t.trades) <= c.t.trades
    ensures HandedOf(msgs) == ReadMessages(old(c.next), n, old(c.entries), a)
    ensures c.pel == ReadPel(old(c.next), old(c.pel), n, old(c.entries), a)
    ensures c.w.d.tries == old(c.w.d.tries)
  {
    var first := c.next;
    Receive(c, n);
    msgs := [];
    if a.result == Ok {
      msgs := DecodeBatch(c, D.HandNew(first, n), a.acks);
    } else {
      LossStep(c, D.HandNew(first, n));
    }
  }

  /** Others act while the idle consumer waits for its answer. */
  method Await(c: Cluster)
    requires c.Valid() && Waits(c.w, D.Idle)
    modifies c
    ensures c.Valid() && Waits(c.w, D.Idle) && old(c.entries) <= c.entries && c.pel == old(c.pel)
    ensures c.next == old(c.next) && c.t == old(c.t).(trades := c.t.trades) && old(c.t.trades) <= c.t.trades
    ensures c.w.d.tries == old(c.w.d.tries)
  {
    c.Others();
    StillWaits(old(c.w), c.w, D.Idle);
  }

  method FetchUpTo(c: Cluster, count: nat, a: ReadAnswers) returns (msgs: seq<Message>)
    requires c.Valid() && Waits(c.w, D.Idle) && count <= D.BATCH_SIZE && !a.result.Failed?
    modifies c
    ensures c.Valid() && AllStored(c.entries, msgs) && old(c.entries) <= c.entries
    ensures Waits(c.w, if a.result == Ok then D.Handling(HandedOf(msgs)) else D.Idle)
    ensures c.t == old(c.t).(trades := c.t.trades) && old(c.t.trades) <= c.t.trades
    ensures var n := Available(old(c.entries), old(c.next), count);
      && c.next == old(c.next) + n && HandedOf(msgs) == ReadMessages(old(c.next), n, old(c.entries), a)
      && c.pel == ReadPel(old(c.next), old(c.pel), n, old(c.entries), a)
    ensures c.w.d.tries == old(c.w.d.tries)
  {
    var waiting := |c.entries| - c.next;
    var n := if waiting <= count then waiting else count;
    assert n == Available(c.entries, c.next, count);
    msgs := Fetch(c, n, a);
  }

  /** Reads up to `count` new entries: all that the stream holds when the command runs (`at`), unless
      it fails. With an answer, the messages are the readable ones among them, in stream order, each
      with delivery count 1. */
  method Read(c: Cluster, count: nat, a: ReadAnswers)
    returns (msgs: seq<Message>, err: bool, ghost at: seq<Payload>)
    requires c.Valid() && Waits(c.w, D.Idle) && count <= D.BATCH_SIZE
    modifies c
    ensures c.Valid() && AllStored(c.entries, msgs) && old(c.entries) <= at <= c.entries
    ensures Waits(c.w, if err then D.Idle else D.Handling(HandedOf(msgs)))
    ensures err <==> a.result != Ok
    ensures var n := if a.result.Failed? then 0 else Available(at, old(c.next), count);
      && c.next == old(c.next) + n && HandedOf(msgs) == ReadMessages(old(c.next), n, at, a)
      && c.pel == ReadPel(old(c.next), old(c.pel), n, at, a)
    ensures c.t == old(c.t).(trades := c.t.trades) && old(c.t.trades) <= c.t.trades
    ensures c.w.d.tries == old(c.w.d.tries)
  {
    Await(c);
    msgs, err, at := [], a.result != Ok, c.entries;
    if a.result.Failed? {
      return;
    }
    msgs := FetchUpTo(c, count, a);
  }

  // ---- Taking over stuck entries.

  /** One line of the XPENDING answer. */
  datatype PendingEntry = PendingEntry(id: D.Id, retryCount: nat)

  ghost predicate FromList(pel: map<D.Id, D.Pending>, pending: seq<PendingEntry>) {
    && (forall i :: 0 <= i < |pending| ==> pending[i].id in pel && pending[i].retryCount == pel[pending[i].id].count)
    && (forall i, j :: 0 <= i < j < |pending| ==> pending[i].id < pending[j].id)
  }

  /** The answer lists the lowest idle pending ids: none is passed over. */
  ghost predicate LowestIdle(pel: map<D.Id, D.Pending>, idle: set<D.Id>, count: nat, pending: seq<PendingEntry>) {
    && FromList(pel, pending) && |pending| <= count
    && (forall i :: 0 <= i < |pending| ==> pending[i].id in idle)
    && (forall id :: id in pel && id in idle ==>
          || (exists i :: 0 <= i < |pending| && pending[i].id == id)
          || (|pending| == count && forall i :: 0 <= i < |pending| ==> pending[i].id < id))
  }

  /** The lowest pending ids that are idle long enough, at most `count` of them. */
  method ListIdle(pel: map<D.Id, D.Pending>, next: nat, count: nat, idle: set<D.Id>)
    returns (pending: seq<PendingEntry>)
    requires forall id :: id in pel ==> id < next
    ensures LowestIdle(pel, idle, count, pending)
  {
    pending := [];
    var id := 0;
    while id < next && |pending| < count
      invariant id <= next && |pending| <= count && FromList(pel, pending)
      invariant forall i :: 0 <= i < |pending| ==> pending[i].id < id && pending[i].id in idle
      invariant forall x :: x in pel && x in idle && x < id ==> exists i :: 0 <= i < |pending| && pending[i].id == x
    {
      ghost var before := pending;
      if id in pel && id in idle {
        pending := pending + [PendingEntry(id, pel[id].count)];
        assert pending[|before|].id == id;
      }
      forall x | x in pel && x in idle && x < id + 1
        ensures exists i :: 0 <= i < |pending| && pending[i].id == x
      {
        if x < id {
          var i :| 0 <= i < |before| && before[i].id == x;
          assert pending[i].id == x;
        }
      }
      id := id + 1;
    }
  }

  /** The delivery counts by id, as the loop over the answer collects them. */
  function CountsOf(pending: seq<PendingEntry>): (m: map<D.Id, nat>)
    ensures |m| <= |pending|
  {
    if pending == [] then map[]
    else
      var last := pending[|pending| - 1];
      CountsOf(pending[..|pending| - 1])[last.id := last.retryCount]
  }

  function IdsOf(pending: seq<PendingEntry>): seq<D.Id> {
    seq(|pending|, i requires 0 <= i < |pending| => pending[i].id)
  }

  lemma {:induction false} CountsHold(pending: seq<PendingEntry>, i: nat)
    requires i < |pending|
    ensures pending[i].id in CountsOf(pending)
  {
    if i < |pending| - 1 {
      CountsHold(pending[..|pending| - 1], i);
    }
  }

  lemma {:induction false} CountsAreTrue(pel: map<D.Id, D.Pending>, pending: seq<PendingEntry>)
    requires FromList(pel, pending)
    ensures forall id :: id in CountsOf(pending) ==> id in pel && CountsOf(pending)[id] == pel[id].count
  {
    if pending != [] {
      CountsAreTrue(pel, pending[..|pending| - 1]);
    }
  }

  lemma {:induction false} OneMoreCollected(pending: seq<PendingEntry>, i: nat)
    requires i < |pending|
    ensures CountsOf(pending[..i + 1]) == CountsOf(pending[..i])[pending[i].id := pending[i].retryCount]
    ensures IdsOf(pending[..i + 1]) == IdsOf(pending[..i]) + [pending[i].id]
  {
    assert pending[..i + 1][..i] == pending[..i];
  }

  method Collect(pending: seq<PendingEntry>) returns (deliveries: map<D.Id, nat>, ids: seq<D.Id>)
    ensures deliveries == CountsOf(pending) && ids == IdsOf(pending)
  {
    deliveries, ids := map[], [];
    var i := 0;
    while i < |pending|
      invariant i <= |pending| && deliveries == CountsOf(pending[..i]) && ids == IdsOf(pending[..i])
    {
      OneMoreCollected(pending, i);
      ids := ids + [pending[i].id];
      deliveries := deliveries[pending[i].id := pending[i].retryCount];
      i := i + 1;
    }
    assert pending[..i] == pending;
  }

  predicate Member(ids: set<D.Id>, id: D.Id) {
    id in ids
  }

  function In(ids: set<D.Id>): D.Id -> bool {
    (id: D.Id) => Member(ids, id)
  }

  lemma {:induction false} FilteredNoRepeats(ids: seq<D.Id>, p: D.Id -> bool)
    requires D.NoRepeats(ids)
    ensures D.NoRepeats(Filter(ids, p)) && forall id :: id in Filter(ids, p) ==> id in ids
  {
    if ids != [] {
      var front := ids[..|ids| - 1];
      FilteredNoRepeats(front, p);
      var kept := Filter(front, p);
      forall i | 0 <= i < |kept|
        ensures kept[i] in front && kept[i] != ids[|ids| - 1]
      {
        assert kept[i] in kept;
      }
    }
  }

  /** The messages of claimed ids: each carries the count that the map holds for it. */
  function Taken(ids: seq<D.Id>, deliveries: map<D.Id, nat>): seq<D.Handed> {
    seq(|ids|, i requires 0 <= i < |ids| => D.Handed(ids[i], if ids[i] in deliveries then deliveries[ids[i]] else 0))
  }

  lemma {:induction false} TakenIsHandClaimed(ids: seq<D.Id>, deliveries: map<D.Id, nat>)
    requires forall id :: id in ids ==> id in deliveries
    ensures Taken(ids, deliveries) == D.HandClaimed(ids, deliveries)
  {
    assert forall i :: 0 <= i < |ids| ==> ids[i] in ids;
  }

  function Reassigned(pel: map<D.Id, D.Pending>, ids: seq<D.Id>): map<D.Id, D.Pending> {
    D.Reassign(D.Group([], 0, 0, pel, map[]), WORKER, ids).pel
  }

  lemma {:induction false} ReassignedByGroup(g: D.Group, ids: seq<D.Id>)
    ensures D.Reassign(g, WORKER, ids) == g.(pel := Reassigned(g.pel, ids))
  {
  }

  lemma {:induction false} ReassignedCounts(pel: map<D.Id, D.Pending>, ids: seq<D.Id>)
    ensures Reassigned(pel, ids).Keys == pel.Keys
    ensures forall id :: id in pel ==> Reassigned(pel, ids)[id].count == pel[id].count + if id in ids then 1 else 0
  {
  }

  lemma {:induction false} ListedCounts(pel: map<D.Id, D.Pending>, pending: seq<PendingEntry>)
    requires FromList(pel, pending)
    ensures var ids := CountsOf(pending).Keys;
      ids <= pel.Keys && |ids| <= |pending| && CountsOf(pending) == map id | id in ids :: pel[id].count
  {
    CountsAreTrue(pel, pending);
    assert |CountsOf(pending).Keys| == |CountsOf(pending)|;
  }

  lemma {:induction false} InspectApplies(d: D.State, ids: set<D.Id>, counts: map<D.Id, nat>)
    requires D.Enabled(d, D.Inspect(WORKER, ids)) && counts == map id | id in ids :: d.group.pel[id].count
    ensures D.Apply(d, D.Inspect(WORKER, ids)) == d.(locals := d.locals[WORKER := D.Snapshot(counts)])
  {
    assert D.Apply(d, D.Inspect(WORKER, ids)).locals[WORKER].counts == counts;
  }

  ghost method InspectStep(c: Cluster, ids: set<D.Id>, counts: map<D.Id, nat>)
    requires c.History() && Waits(c.w, D.Idle) && ids <= c.w.d.group.pel.Keys && |ids| <= D.BATCH_SIZE
    requires counts == map id | id in ids :: c.w.d.group.pel[id].count
    modifies c`worlds, c`steps, c`w
    ensures c.History() && c.w == WithLocal(old(c.w), D.Snapshot(counts))
  {
    InspectApplies(c.w.d, ids, counts);
    var e := c.w.d.(locals := map[WORKER := D.Snapshot(counts)]);
    assert c.w.d.locals[WORKER := D.Snapshot(counts)] == e.locals;
    DeliverStep(c.w, D.Inspect(WORKER, ids), e);
    c.Log(Deliver(D.Inspect(WORKER, ids)), WithLocal(c.w, D.Snapshot(counts)));
  }

  ghost function AfterClaim(w: World, ids: seq<D.Id>, counts: map<D.Id, nat>): World
    requires forall id :: id in ids ==> id in counts
  {
    var g := w.d.group;
    WithLocal(w.(d := w.d.(group := g.(pel := Reassigned(g.pel, ids)))), D.Decoding(D.HandClaimed(ids, counts), []))
  }

  ghost method ClaimStep(c: Cluster, ids: seq<D.Id>, counts: map<D.Id, nat>)
    requires c.History() && Waits(c.w, D.Snapshot(counts)) && D.NoRepeats(ids)
    requires forall id :: id in ids ==> id in counts && id in c.w.d.group.pel
    modifies c`worlds, c`steps, c`w
    ensures c.History() && c.w == AfterClaim(old(c.w), ids, counts)
  {
    ReassignedByGroup(c.w.d.group, ids);
    AppliesOneStep(c.w, Deliver(D.Claim(WORKER, ids)));
    c.Log(Deliver(D.Claim(WORKER, ids)), AfterClaim(c.w, ids, counts));
  }

  /** XCLAIM: the ids change owner and their counts go up by one. */
  method TakeOver(c: Cluster, ids: seq<D.Id>, ghost counts: map<D.Id, nat>)
    requires c.Valid() && Waits(c.w, D.Snapshot(counts)) && D.NoRepeats(ids)
    requires forall id :: id in ids ==> id in counts && id in c.pel
    modifies c
    ensures c.Valid() && Waits(c.w, D.Decoding(D.HandClaimed(ids, counts), []))
    ensures c.t == old(c.t) && c.entries == old(c.entries) && c.next == old(c.next)
            && c.pel == Reassigned(old(c.pel), ids)
    ensures c.w.d.tries == old(c.w.d.tries)
  {
    ClaimStep(c, ids, counts);
    ReassignedCounts(c.pel, ids);
    c.pel := Reassigned(c.pel, ids);
  }

  /** XPENDING: the lowest idle entries, at most `count`, with their counts. */
  method XPending(c: Cluster, count: nat, answered: bool, idle: set<D.Id>)
    returns (pending: seq<PendingEntry>, err: bool)
    requires c.Valid() && Waits(c.w, D.Idle) && count <= D.BATCH_SIZE
    modifies c
    ensures c.Valid() && old(c.entries) <= c.entries && c.t == old(c.t).(trades := c.t.trades)
    ensures c.next == old(c.next) && c.pel == old(c.pel) && old(c.t.trades) <= c.t.trades
    ensures c.w.d.tries == old(c.w.d.tries)
    ensures err <==> !answered
    ensures if err then pending == [] else LowestIdle(c.pel, idle, count, pending)
    ensures Waits(c.w, if pending == [] then D.Idle else D.Snapshot(CountsOf(pending)))
  {
    Await(c);
    if !answered {
      return [], true;
    }
    pending := ListIdle(c.pel, c.next, count, idle);
    err := false;
    if pending != [] {
      ListedCounts(c.pel, pending);
      InspectStep(c, CountsOf(pending).Keys, CountsOf(pending));
    }
  }

  /** The pending list after a claim: the ids change owner, their counts go up by one, and if the
      answer arrives those that do not decode leave it. */
  function AfterTaking(pel: map<D.Id, D.Pending>, ids: seq<D.Id>, deliveries: map<D.Id, nat>, entries: seq<Payload>,
                       answered: bool, acks: D.Id -> bool): map<D.Id, D.Pending>
  {
    Reassigned(pel, ids) - if answered then Gone(Taken(ids, deliveries), entries, acks) else {}
  }

  /** The claim takes effect; then its answer is decoded, or lost. */
  method ClaimAndDecode(c: Cluster, ids: seq<D.Id>, deliveries: map<D.Id, nat>, answered: bool, acks: D.Id -> bool)
    returns (msgs: seq<Message>)
    requires c.Valid() && Waits(c.w, D.Snapshot(deliveries)) && D.NoRepeats(ids)
    requires forall id :: id in ids ==> id in deliveries && id in c.pel && deliveries[id] == c.pel[id].count
    modifies c
    ensures c.Valid() && AllStored(c.entries, msgs) && old(c.entries) <= c.entries
    ensures c.t == old(c.t).(trades := c.t.trades) && c.next == old(c.next) && old(c.t.trades) <= c.t.trades
    ensures Waits(c.w, if answered then D.Handling(HandedOf(msgs)) else D.Idle)
    ensures HandedOf(msgs) == if answered then Filter(Taken(ids, deliveries), Readable(old(c.entries))) else []
    ensures c.pel == AfterTaking(old(c.pel), ids, deliveries, old(c.entries), answered, acks)
    ensures c.w.d.tries == old(c.w.d.tries)
  {
    TakenIsHandClaimed(ids, deliveries);
    TakeOver(c, ids, deliveries);
    msgs := [];
    if answered {
      msgs := DecodeBatch(c, D.HandClaimed(ids, deliveries), acks);
    } else {
      LossStep(c, D.HandClaimed(ids, deliveries));
    }
  }

  /** What Redis answers to a recovery: whether XPENDING is answered and which entries it finds idle
      long enough, which of them still are when XCLAIM runs, and the outcome of that. */
  datatype RecoveryAnswers = RecoveryAnswers(
    pending: bool, idle: set<D.Id>, still: set<D.Id>, claim: Result, acks: D.Id -> bool)

  /** The ids that the claim takes over. */
  function Claimed(ids: seq<D.Id>, a: RecoveryAnswers): seq<D.Id> {
    if a.claim.Failed? then [] else Filter(ids, In(a.still))
  }

  /** XCLAIM of the ids that are still idle; without an answer the consumer holds nothing. */
  method XClaim(c: Cluster, ids: seq<D.Id>, deliveries: map<D.Id, nat>, a: RecoveryAnswers)
    returns (msgs: seq<Message>, err: bool, ghost at: seq<Payload>)
    requires c.Valid() && Waits(c.w, D.Snapshot(deliveries)) && D.NoRepeats(ids)
    requires forall id :: id in ids ==> id in deliveries && id in c.pel && deliveries[id] == c.pel[id].count
    modifies c
    ensures c.Valid() && AllStored(c.entries, msgs) && old(c.entries) <= at <= c.entries
    ensures c.t == old(c.t).(trades := c.t.trades) && c.next == old(c.next) && old(c.t.trades) <= c.t.trades
    ensures Waits(c.w, if a.claim == AppliedButFailed then D.Idle else D.Handling(HandedOf(msgs)))
    ensures HandedOf(msgs) == if err then [] else Filter(Taken(Claimed(ids, a), deliveries), Readable(at))
    ensures c.pel == AfterTaking(old(c.pel), Claimed(ids, a), deliveries, at, !err, a.acks)
    ensures c.w.d.tries == old(c.w.d.tries) && (err <==> a.claim != Ok)
  {
    c.Others();
    StillWaits(old(c.w), c.w, D.Snapshot(deliveries));
    at, err := c.entries, a.claim != Ok;
    FilteredNoRepeats(ids, In(a.still));
    msgs := ClaimAndDecode(c, Claimed(ids, a), deliveries, a.claim != AppliedButFailed, a.acks);
    if a.claim.Failed? {
      assert Gone(Taken([], deliveries), at, a.acks) == {};
    }
  }

  lemma {:induction false} ListedIds(pel: map<D.Id, D.Pending>, pending: seq<PendingEntry>)
    requires FromList(pel, pending)
    ensures D.NoRepeats(IdsOf(pending))
    ensures forall id :: id in IdsOf(pending) ==>
      id in CountsOf(pending) && id in pel && CountsOf(pending)[id] == pel[id].count
  {
    CountsAreTrue(pel, pending);
    forall id | id in IdsOf(pending)
      ensures id in CountsOf(pending)
    {
      var i :| 0 <= i < |pending| && IdsOf(pending)[i] == id;
      CountsHold(pending, i);
    }
  }

  lemma {:induction false} NothingTaken(pel: map<D.Id, D.Pending>, a: RecoveryAnswers, entries: seq<Payload>,
                                        answered: bool)
    ensures Claimed([], a) == [] && AfterTaking(pel, [], map[], entries, answered, a.acks) == pel
  {
    ReassignedCounts(pel, []);
    assert Gone(Taken([], map[]), entries, a.acks) == {};
    assert Reassigned(pel, []) == pel;
  }

  /** Takes over the lowest idle entries, up to `count`. Each message carries the count from before the
      claim that took it over, so after a first failed delivery that is 1 again. */
  method ClaimStuck(c: Cluster, count: nat, a: RecoveryAnswers)
    returns (msgs: seq<Message>, err: bool, ghost pending: seq<PendingEntry>, ghost at: seq<Payload>)
    requires c.Valid() && Waits(c.w, D.Idle) && count <= D.BATCH_SIZE
    modifies c
    ensures c.Valid() && AllStored(c.entries, msgs) && old(c.entries) <= at <= c.entries
    ensures c.t == old(c.t).(trades := c.t.trades) && c.next == old(c.next) && old(c.t.trades) <= c.t.trades
    ensures Waits(c.w, D.Handling(HandedOf(msgs))) || (msgs == [] && Waits(c.w, D.Idle))
    ensures if a.pending then LowestIdle(old(c.pel), a.idle, count, pending) else pending == []
    ensures err <==> !a.pending || (pending != [] && a.claim != Ok)
    ensures var ids := Claimed(IdsOf(pending), a);
      && HandedOf(msgs) == (if err then [] else Filter(Taken(ids, CountsOf(pending)), Readable(at)))
      && c.pel == AfterTaking(old(c.pel), ids, CountsOf(pending), at, !err, a.acks)
    ensures c.w.d.tries == old(c.w.d.tries)
  {
    var listed: seq<PendingEntry>;
    listed, err := XPending(c, count, a.pending, a.idle);
    pending, at := listed, c.entries;
    if listed == [] {
      NothingTaken(c.pel, a, at, !err);
      return [], err, [], at;
    }
    var deliveries, ids := Collect(listed);
    ListedIds(c.pel, listed);
    msgs, err, at := XClaim(c, ids, deliveries, a);
  }

  /** Each message carries the delivery count of before the claim. */
  ghost predicate CountsBefore(pel: map<D.Id, D.Pending>, msgs: seq<Message>) {
    forall i :: 0 <= i < |msgs| ==> msgs[i].id in pel && msgs[i].count == pel[msgs[i].id].count
  }

  lemma {:induction false} TakenCounts(pel: map<D.Id, D.Pending>, pending: seq<PendingEntry>, ids: seq<D.Id>,
                                       msgs: seq<Message>, readable: D.Handed -> bool)
    requires FromList(pel, pending) && forall id :: id in ids ==> id in IdsOf(pending)
    requires HandedOf(msgs) == Filter(Taken(ids, CountsOf(pending)), readable)
    ensures CountsBefore(pel, msgs)
  {
    ListedIds(pel, pending);
    forall i | 0 <= i < |msgs|
      ensures msgs[i].id in pel && msgs[i].count == pel[msgs[i].id].count
    {
      var all := Taken(ids, CountsOf(pending));
      assert HandedOf(msgs)[i] in HandedOf(msgs);
      FilterMember(all, readable, HandedOf(msgs)[i]);
      var j :| 0 <= j < |ids| && all[j] == HandedOf(msgs)[i];
      assert ids[j] in ids;
    }
  }
}
