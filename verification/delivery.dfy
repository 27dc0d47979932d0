/** The delivery protocol as a state machine: one append-only stream, its consumer group with the
    pending entries list, and any number of consumers that read, claim, process and acknowledge.
    Every Redis command is one atomic step, so the steps of different consumers interleave freely. */
module Delivery {
  import opened Codec

  const MAX_DELIVERIES := 5
  const BATCH_SIZE := 32

  /** The position of an entry in the stream. */
  type Id = nat

  datatype Pending = Pending(owner: nat, count: nat)

  datatype Reason = Clean | Poison | Unreadable | DeadLetter

  /** Why an entry was acknowledged, and its delivery count at that moment. */
  datatype Ack = Ack(why: Reason, count: nat)

  /** The consumer group: entries from `start` on belong to it, and those below `next` were delivered. */
  datatype Group = Group(entries: seq<Payload>, start: nat, next: nat, pel: map<Id, Pending>, acked: map<Id, Ack>)

  /** A message as a consumer holds it, with the delivery count that it was handed. */
  datatype Handed = Handed(id: Id, count: nat)

  datatype Local =
    | Idle
    | Snapshot(counts: map<Id, nat>)                   // XPENDING answered, XCLAIM not yet sent
    | Decoding(raw: seq<Handed>, out: seq<Handed>)     // inside the loop that decodes a batch
    | Handling(batch: seq<Handed>)                     // about to handle the first message
    | Running(now: Handed, rest: seq<Handed>)          // inside `process`
    | Acking(id: Id, why: Reason, rest: seq<Handed>)   // about to send XACK

  /** `tries` counts the calls of `process` per entry, `lost` the handed-out messages that a crash
      dropped before `process`, `clean` the entries with a call that ended without a failure. */
  datatype State = State(group: Group, locals: map<nat, Local>,
                         tries: multiset<Id>, lost: multiset<Id>, clean: set<Id>)

  datatype Step =
    | Publish(payload: Payload)
    | ReadNew(c: nat, n: nat)
    | Inspect(c: nat, ids: set<Id>)
    | Claim(c: nat, claimed: seq<Id>)
    | Decode(c: nat, ackOk: bool)
    | StartBatch(c: nat)
    | GiveUp(c: nat)
    | Begin(c: nat)
    | Finish(c: nat, failed: nat)
    | SendAck(c: nat, ok: bool)
    | Rest(c: nat)
    | Crash(c: nat)

  // ---- The commands of the consumer group.

  function Append(g: Group, p: Payload): Group {
    g.(entries := g.entries + [p])
  }

  predicate FromOn(first: Id, id: Id) {
    first <= id
  }

  /** XREADGROUP with `>`: the next `n` entries become pending with count 1. */
  function Deliver(g: Group, c: nat, n: nat): Group {
    g.(next := g.next + n,
       pel := g.pel + (map id: nat | id < g.next + n && FromOn(g.next, id) :: Pending(c, 1)))
  }

  /** XCLAIM: the ids that are still pending change owner and their counts go up by one. */
  function Reassign(g: Group, c: nat, ids: seq<Id>): Group {
    g.(pel := map id | id in g.pel :: if id in ids then Pending(c, g.pel[id].count + 1) else g.pel[id])
  }

  /** XACK: removes a pending entry; an entry that is not pending is left alone. */
  function Remove(g: Group, id: Id, why: Reason): Group {
    if id in g.pel
    then g.(pel := g.pel - {id}, acked := g.acked[id := Ack(why, g.pel[id].count)])
    else g
  }

  function HandNew(first: Id, n: nat): seq<Handed> {
    seq(n, i requires 0 <= i < n => Handed(first + i, 1))
  }

  /** Claimed messages carry the counts of the snapshot, taken before the claim raised them. */
  function HandClaimed(ids: seq<Id>, counts: map<Id, nat>): seq<Handed>
    requires forall id :: id in ids ==> id in counts
  {
    seq(|ids|, i requires 0 <= i < |ids| => Handed(ids[i], counts[ids[i]]))
  }

  predicate NoRepeats(ids: seq<Id>) {
    forall i, j :: 0 <= i < j < |ids| ==> ids[i] != ids[j]
  }

  // ---- Transitions.

  predicate Enabled(s: State, step: Step) {
    match step
    case Publish(_) => true
    case ReadNew(c, n) =>
      c in s.locals && s.locals[c].Idle? && n <= BATCH_SIZE && s.group.next + n <= |s.group.entries|
    case Inspect(c, ids) =>
      c in s.locals && s.locals[c].Idle? && ids <= s.group.pel.Keys && |ids| <= BATCH_SIZE
    case Claim(c, ids) =>
      c in s.locals && s.locals[c].Snapshot? && NoRepeats(ids)
      && forall id :: id in ids ==> id in s.locals[c].counts && id in s.group.pel
    case Decode(c, _) =>
      c in s.locals && s.locals[c].Decoding? && s.locals[c].raw != [] && s.locals[c].raw[0].id < |s.group.entries|
    case StartBatch(c) => c in s.locals && s.locals[c].Decoding? && s.locals[c].raw == []
    case GiveUp(c) =>
      c in s.locals && s.locals[c].Handling? && s.locals[c].batch != []
      && s.locals[c].batch[0].count >= MAX_DELIVERIES
    case Begin(c) =>
      c in s.locals && s.locals[c].Handling? && s.locals[c].batch != []
      && s.locals[c].batch[0].count < MAX_DELIVERIES
    case Finish(c, _) => c in s.locals && s.locals[c].Running? && s.locals[c].now.id < |s.group.entries|
    case SendAck(c, _) => c in s.locals && s.locals[c].Acking?
    case Rest(c) => c in s.locals && s.locals[c].Handling? && s.locals[c].batch == []
    case Crash(c) => c in s.locals
  }

  function At(s: State, c: nat, l: Local): State {
    s.(locals := s.locals[c := l])
  }

  function Apply(s: State, step: Step): State
    requires Enabled(s, step)
  {
    match step
    case Publish(p) => s.(group := Append(s.group, p))
    case ReadNew(c, n) => At(s.(group := Deliver(s.group, c, n)), c, Decoding(HandNew(s.group.next, n), []))
    case Inspect(c, ids) => At(s, c, Snapshot(map id | id in ids :: s.group.pel[id].count))
    case Claim(c, ids) =>
      At(s.(group := Reassign(s.group, c, ids)), c, Decoding(HandClaimed(ids, s.locals[c].counts), []))
    case Decode(c, ackOk) => DecodeOne(s, c, ackOk)
    case StartBatch(c) => At(s, c, Handling(s.locals[c].out))
    case GiveUp(c) => At(s, c, Acking(s.locals[c].batch[0].id, DeadLetter, s.locals[c].batch[1..]))
    case Begin(c) =>
      At(s.(tries := s.tries + multiset{s.locals[c].batch[0].id}), c,
         Running(s.locals[c].batch[0], s.locals[c].batch[1..]))
    case Finish(c, failed) => FinishOne(s, c, failed)
    case SendAck(c, ok) =>
      var l := s.locals[c];
      At(if ok then s.(group := Remove(s.group, l.id, l.why)) else s, c, Handling(l.rest))
    case Rest(c) => At(s, c, Idle)
    case Crash(c) => At(s.(lost := s.lost + LiveIds(Held(s.locals[c]))), c, Idle)
  }

  /** One turn of the decoding loop: an unreadable entry is acknowledged (the answer is ignored)
      and dropped from the batch, any other joins it. */
  function DecodeOne(s: State, c: nat, ackOk: bool): State
    requires Enabled(s, Decode(c, ackOk))
  {
    var l := s.locals[c];
    var h := l.raw[0];
    if s.group.entries[h.id].Undecodable? then
      At(if ackOk then s.(group := Remove(s.group, h.id, Unreadable)) else s, c, Decoding(l.raw[1..], l.out))
    else At(s, c, Decoding(l.raw[1..], l.out + [h]))
  }

  /** The verdict of `handle`: a malformed event is dropped, a failed one stays pending, a clean one is done. */
  function FinishOne(s: State, c: nat, failed: nat): State
    requires Enabled(s, Finish(c, failed))
  {
    var l := s.locals[c];
    if s.group.entries[l.now.id].Malformed? then At(s, c, Acking(l.now.id, Poison, l.rest))
    else if failed > 0 then At(s, c, Handling(l.rest))
    else At(s.(clean := s.clean + {l.now.id}), c, Acking(l.now.id, Clean, l.rest))
  }

  /** Messages that a consumer holds and has not yet passed to `process`. */
  function Held(l: Local): seq<Handed> {
    match l
    case Decoding(raw, out) => out + raw
    case Handling(batch) => batch
    case Running(_, rest) => rest
    case Acking(_, _, rest) => rest
    case _ => []
  }

  /** The ids among held messages that `process` would still be called for. */
  function LiveIds(s: seq<Handed>): multiset<Id> {
    if s == [] then multiset{}
    else if s[0].count < MAX_DELIVERIES then multiset{s[0].id} + LiveIds(s[1..])
    else LiveIds(s[1..])
  }

  // ---- Runs.

  /** A group created at the end of whatever the stream already holds, with idle consumers. */
  predicate Initial(s: State) {
    && s.group.start == s.group.next == |s.group.entries|
    && s.group.pel == map[] && s.group.acked == map[]
    && (forall c :: c in s.locals ==> s.locals[c].Idle?)
    && s.tries == multiset{} && s.lost == multiset{} && s.clean == {}
  }

  /** A run, newest step last. */
  ghost predicate IsRun(s: State, steps: seq<Step>)
    decreases |steps|, 0
  {
    steps == [] || (IsRun(s, steps[..|steps| - 1]) && Enabled(After(s, steps[..|steps| - 1]), steps[|steps| - 1]))
  }

  ghost function After(s: State, steps: seq<Step>): State
    requires IsRun(s, steps)
    decreases |steps|, 1
  {
    if steps == [] then s else Apply(After(s, steps[..|steps| - 1]), steps[|steps| - 1])
  }
}
