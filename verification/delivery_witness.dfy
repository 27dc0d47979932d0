/** Runs that show the bounds of the protocol are reached, and that its documentation
    ("after maxDeliveries attempts") is not met when consumers crash. */
module DeliveryWitness {
  import opened Codec
  import opened Delivery

  lemma {:induction false} Extend(s: State, steps: seq<Step>, step: Step)
    requires IsRun(s, steps) && Enabled(After(s, steps), step)
    ensures IsRun(s, steps + [step]) && After(s, steps + [step]) == Apply(After(s, steps), step)
  {
    assert (steps + [step])[..|steps + [step]| - 1] == steps;
  }

  /** A group whose one delivered entry is pending with the given count. */
  ghost predicate OnePending(s: State, count: nat) {
    && s.group.entries == [Notice] && s.group.start == 0 && s.group.next == 1
    && s.group.pel.Keys == {0} && s.group.pel[0].count == count && s.group.acked == map[]
  }

  function IdleLocals(k: nat): (m: map<nat, Local>)
    ensures forall c :: c in m <==> 0 <= c < k
    ensures forall c :: c in m ==> m[c] == Idle
    ensures |m| == k
  {
    if k == 0 then map[] else IdleLocals(k - 1)[k - 1 := Idle]
  }

  function IdleConsumers(k: nat): State {
    State(Group([], 0, 0, map[], map[]), IdleLocals(k), multiset{}, multiset{}, {})
  }

  lemma {:induction false} OneDelivered(c: nat)
    ensures var g := Deliver(Append(Group([], 0, 0, map[], map[]), Notice), c, 1);
      g.entries == [Notice] && g.next == 1 && g.pel == map[0 := Pending(c, 1)]
  {
    var g := Deliver(Append(Group([], 0, 0, map[], map[]), Notice), c, 1);
    assert g.entries == [] + [Notice] == [Notice];
    assert g.pel.Keys == {0};
  }

  /** The stream gets one entry and consumer 0 reads it. */
  lemma {:induction false} FirstRead(k: nat) returns (steps: seq<Step>)
    requires k > 0
    ensures Initial(IdleConsumers(k)) && IsRun(IdleConsumers(k), steps)
    ensures var e := After(IdleConsumers(k), steps);
      && OnePending(e, 1) && e.locals == IdleLocals(k)[0 := Decoding([Handed(0, 1)], [])]
      && e.tries == multiset{} && e.lost == multiset{}
  {
    var s := IdleConsumers(k);
    assert IsRun(s, []) && After(s, []) == s;
    Extend(s, [], Publish(Notice));
    steps := [] + [Publish(Notice)];
    var t := After(s, steps);
    assert t.group == Append(s.group, Notice) && t.locals == IdleLocals(k);
    assert |t.group.entries| == 1;
    Extend(s, steps, ReadNew(0, 1));
    steps := steps + [ReadNew(0, 1)];
    OneDelivered(0);
    assert HandNew(0, 1) == [Handed(0, 1)];
  }

  /** Consumer `c` decodes its one message and `process` fails on it. */
  lemma {:induction false} FailOnce(s: State, before: seq<Step>, c: nat, count: nat, d: nat) returns (steps: seq<Step>)
    requires IsRun(s, before) && OnePending(After(s, before), count) && d < MAX_DELIVERIES
    requires c in After(s, before).locals && After(s, before).locals[c] == Decoding([Handed(0, d)], [])
    ensures IsRun(s, steps)
    ensures var b, e := After(s, before), After(s, steps);
      && OnePending(e, count) && e.locals == b.locals[c := Idle]
      && e.tries == b.tries + multiset{0} && e.lost == b.lost
  {
    Extend(s, before, Decode(c, true));
    steps := before + [Decode(c, true)];
    Extend(s, steps, StartBatch(c));
    steps := steps + [StartBatch(c)];
    Extend(s, steps, Begin(c));
    steps := steps + [Begin(c)];
    Extend(s, steps, Finish(c, 1));
    steps := steps + [Finish(c, 1)];
    Extend(s, steps, Rest(c));
    steps := steps + [Rest(c)];
  }

  lemma {:induction false} Look(s: State, before: seq<Step>, c: nat, count: nat) returns (steps: seq<Step>)
    requires IsRun(s, before) && OnePending(After(s, before), count)
    requires c in After(s, before).locals && After(s, before).locals[c] == Idle
    ensures IsRun(s, steps)
    ensures var b, e := After(s, before), After(s, steps);
      && OnePending(e, count) && e.locals == b.locals[c := Snapshot(map[0 := count])]
      && e.tries == b.tries && e.lost == b.lost
  {
    var b := After(s, before);
    assert Enabled(b, Inspect(c, {0}));
    var counts := Apply(b, Inspect(c, {0})).locals[c].counts;
    assert counts.Keys == {0} && counts == map[0 := count];
    Extend(s, before, Inspect(c, {0}));
    steps := before + [Inspect(c, {0})];
  }

  lemma {:induction false} Take(s: State, before: seq<Step>, c: nat, count: nat, d: nat) returns (steps: seq<Step>)
    requires IsRun(s, before) && OnePending(After(s, before), count)
    requires c in After(s, before).locals && After(s, before).locals[c] == Snapshot(map[0 := d])
    ensures IsRun(s, steps)
    ensures var b, e := After(s, before), After(s, steps);
      && OnePending(e, count + 1) && e.locals == b.locals[c := Decoding([Handed(0, d)], [])]
      && e.tries == b.tries && e.lost == b.lost
  {
    Extend(s, before, Claim(c, [0]));
    steps := before + [Claim(c, [0])];
    assert HandClaimed([0], map[0 := d]) == [Handed(0, d)];
  }

  /** Consumer 0 retries until the count is four: four attempts. */
  lemma {:induction false} FourAttempts(k: nat) returns (steps: seq<Step>)
    requires k > 0
    ensures Initial(IdleConsumers(k)) && IsRun(IdleConsumers(k), steps)
    ensures OnePending(After(IdleConsumers(k), steps), 4)
    ensures After(IdleConsumers(k), steps).locals == IdleLocals(k)
    ensures After(IdleConsumers(k), steps).tries[0] == 4
  {
    var s := IdleConsumers(k);
    steps := FirstRead(k);
    steps := FailOnce(s, steps, 0, 1, 1);
    var n := 1;
    while n < 4
      invariant 1 <= n <= 4 && IsRun(s, steps) && OnePending(After(s, steps), n)
      invariant After(s, steps).tries[0] == n && After(s, steps).locals == s.locals
    {
      steps := Look(s, steps, 0, n);
      steps := Take(s, steps, 0, n, n);
      steps := FailOnce(s, steps, 0, n + 1, n);
      n := n + 1;
    }
  }

  function Looked(locals: map<nat, Local>, m: nat): (r: map<nat, Local>)
    ensures forall c: nat :: c < m ==> c in r && r[c] == Snapshot(map[0 := 4])
    ensures forall c :: c >= m ==> (c in r <==> c in locals) && (c in r ==> r[c] == locals[c])
  {
    if m == 0 then locals else Looked(locals, m - 1)[m - 1 := Snapshot(map[0 := 4])]
  }

  /** Consumers below `m` take their snapshots while the count is still four. */
  lemma {:induction false} AllLook(s: State, before: seq<Step>, m: nat) returns (steps: seq<Step>)
    requires IsRun(s, before) && OnePending(After(s, before), 4)
    requires forall c: nat :: c < m ==> c in After(s, before).locals && After(s, before).locals[c] == Idle
    ensures IsRun(s, steps) && OnePending(After(s, steps), 4)
    ensures After(s, steps).tries == After(s, before).tries
    ensures After(s, steps).locals == Looked(After(s, before).locals, m)
    decreases m
  {
    steps := before;
    if m > 0 {
      steps := AllLook(s, before, m - 1);
      steps := Look(s, steps, m - 1, 4);
    }
  }

  /** Each of them then claims with its old snapshot and calls `process`. */
  lemma {:induction false} AllTry(s: State, before: seq<Step>, m: nat, count: nat) returns (steps: seq<Step>)
    requires IsRun(s, before) && OnePending(After(s, before), count)
    requires forall c: nat :: c < m ==>
      c in After(s, before).locals && After(s, before).locals[c] == Snapshot(map[0 := 4])
    ensures IsRun(s, steps)
    ensures After(s, steps).tries[0] == After(s, before).tries[0] + m
    decreases m
  {
    steps := before;
    if m > 0 {
      steps := Take(s, steps, m - 1, count, 4);
      steps := FailOnce(s, steps, m - 1, count + 1, 4);
      steps := AllTry(s, steps, m - 1, count + 1);
    }
  }

  /** The attempt bound is reached for every number of consumers. */
  lemma {:induction false} AttemptBoundIsReached(k: nat)
    requires k > 0
    ensures Initial(IdleConsumers(k)) && |IdleConsumers(k).locals| == k
    ensures exists steps ::
      IsRun(IdleConsumers(k), steps) && After(IdleConsumers(k), steps).tries[0] == 5 + k - 1
  {
    var s := IdleConsumers(k);
    var steps := FourAttempts(k);
    steps := AllLook(s, steps, k);
    steps := AllTry(s, steps, k, 4);
  }

  lemma {:induction false} Drop(s: State, before: seq<Step>, c: nat, count: nat, d: nat) returns (steps: seq<Step>)
    requires IsRun(s, before) && OnePending(After(s, before), count)
    requires c in After(s, before).locals && After(s, before).locals[c] == Decoding([Handed(0, d)], [])
    ensures IsRun(s, steps) && OnePending(After(s, steps), count)
    ensures After(s, steps).tries == After(s, before).tries
    ensures After(s, steps).locals == After(s, before).locals[c := Idle]
  {
    Extend(s, before, Crash(c));
    steps := before + [Crash(c)];
  }

  ghost predicate DeadUntried(s: State) {
    0 in s.group.acked && s.group.acked[0] == Ack(DeadLetter, 6) && s.tries[0] == 0
  }

  /** A consumer that crashes before every call of `process` makes the entry a dead letter
      without a single attempt. */
  lemma {:induction false} DeadLetterWithoutAttempt()
    ensures Initial(IdleConsumers(1))
    ensures exists steps :: IsRun(IdleConsumers(1), steps) && DeadUntried(After(IdleConsumers(1), steps))
  {
    var s := IdleConsumers(1);
    var steps := FirstRead(1);
    steps := Drop(s, steps, 0, 1, 1);
    var n := 1;
    while n < 5
      invariant 1 <= n <= 5 && IsRun(s, steps) && OnePending(After(s, steps), n)
      invariant After(s, steps).tries == multiset{} && After(s, steps).locals == s.locals
    {
      steps := Look(s, steps, 0, n);
      steps := Take(s, steps, 0, n, n);
      steps := Drop(s, steps, 0, n + 1, n);
      n := n + 1;
    }
    steps := Look(s, steps, 0, 5);
    steps := Take(s, steps, 0, 5, 5);
    steps := LetGo(s, steps, 0, 6);
  }

  lemma {:induction false} LetGo(s: State, before: seq<Step>, c: nat, count: nat) returns (steps: seq<Step>)
    requires IsRun(s, before) && OnePending(After(s, before), count)
    requires c in After(s, before).locals && After(s, before).locals[c] == Decoding([Handed(0, MAX_DELIVERIES)], [])
    ensures IsRun(s, steps)
    ensures var e := After(s, steps);
      0 in e.group.acked && e.group.acked[0] == Ack(DeadLetter, count) && e.tries == After(s, before).tries
  {
    Extend(s, before, Decode(c, true));
    steps := before + [Decode(c, true)];
    Extend(s, steps, StartBatch(c));
    steps := steps + [StartBatch(c)];
    Extend(s, steps, GiveUp(c));
    steps := steps + [GiveUp(c)];
    Extend(s, steps, SendAck(c, true));
    steps := steps + [SendAck(c, true)];
  }
}
