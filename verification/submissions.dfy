/** Submitting trades: any number of requests run their two statements, INSERT ... ON CONFLICT DO
    NOTHING and the follow-up SELECT, interleaved in any way. */
module Submissions {
  import opened Prelude
  import opened Codec
  import opened Trades
  import opened Store

  datatype Phase = Arrived(in_: TradeInput) | Fetching(id: Uuid)

  /** A response with a record, or the internal error of a fetch that finds nothing. */
  datatype Answer = Answered(id: Uuid, row: Trade, inserted: bool) | Missed(id: Uuid)

  /** `unreported` holds the trades that were stored by a statement that reported a failure. */
  datatype State = State(rows: seq<Trade>, requests: map<nat, Phase>, answers: seq<Answer>, unreported: set<Uuid>)

  datatype Step =
    | Arrive(r: nat, in_: TradeInput)
    | RunInsert(r: nat, result: Result)
    | RunFetch(r: nat, result: Result)

  predicate Enabled(s: State, step: Step) {
    match step
    case Arrive(r, _) => r !in s.requests
    case RunInsert(r, _) => r in s.requests && s.requests[r].Arrived?
    case RunFetch(r, _) => r in s.requests && s.requests[r].Fetching?
  }

  function Finish(s: State, r: nat): State {
    s.(requests := s.requests - {r})
  }

  function Insertion(s: State, r: nat, in_: TradeInput, result: Result): State {
    if result.Failed? || !Storable(in_) then Finish(s, r)
    else if Find(s.rows, in_.id).Some? then
      if result.Ok? then s.(requests := s.requests[r := Fetching(in_.id)]) else Finish(s, r)
    else
      var t := Finish(s, r).(rows := s.rows + [RowOf(in_)]);
      if result.Ok? then t.(answers := s.answers + [Answered(in_.id, RowOf(in_), true)])
      else t.(unreported := s.unreported + {in_.id})
  }

  function Fetch(s: State, r: nat, id: Uuid, result: Result): State {
    if !result.Ok? then Finish(s, r)
    else
      match Find(s.rows, id)
      case None => Finish(s, r).(answers := s.answers + [Missed(id)])
      case Some(row) => Finish(s, r).(answers := s.answers + [Answered(id, row, false)])
  }

  function Apply(s: State, step: Step): State
    requires Enabled(s, step)
  {
    match step
    case Arrive(r, in_) => s.(requests := s.requests[r := Arrived(in_)])
    case RunInsert(r, result) => Insertion(s, r, s.requests[r].in_, result)
    case RunFetch(r, result) => Fetch(s, r, s.requests[r].id, result)
  }

  /** The table as the service finds it, seeded rows or none, and no request yet. */
  predicate Initial(s: State) {
    s == State(s.rows, map[], [], {})
  }

  ghost predicate IsRun(s: State, steps: seq<Step>)
    decreases |steps|, 0
  {
    steps == [] || (IsRun(s, steps[..|steps| - 1]) && Enabled(After(s, steps[..|steps| - 1]), steps[|steps| - 1]))
  }

  ghost function After(s: State, steps: seq<Step>): State
    requires IsRun(s, steps)
    decreases |steps|, 1
  {
    if steps == [] then s else Apply(After(s, steps[..|steps| - 1]), steps[|steps| - 1])
  }

  function Insertions(answers: seq<Answer>, x: Uuid): nat {
    if answers == [] then 0
    else
      var a := answers[|answers| - 1];
      Insertions(answers[..|answers| - 1], x) + if a.Answered? && a.inserted && a.id == x then 1 else 0
  }

  ghost predicate AnswerOk(s: State, a: Answer) {
    a.Answered? && Find(s.rows, a.id) == Some(a.row) && a.row.input.id == a.id
  }

  ghost predicate Inv(s: State) {
    && (forall i :: 0 <= i < |s.answers| ==> AnswerOk(s, s.answers[i]))
    && (forall r :: r in s.requests && s.requests[r].Fetching? ==> Find(s.rows, s.requests[r].id).Some?)
  }

  /** A stored trade was there at the start, or one statement stored it, reported or not. */
  ghost predicate CountOk(ts: seq<Trade>, s: State, x: Uuid) {
    Insertions(s.answers, x) + (if x in s.unreported then 1 else 0) + (if Find(ts, x).Some? then 1 else 0)
      == if Find(s.rows, x).Some? then 1 else 0
  }

  /** Rows that were there at the start are found for ever. */
  ghost predicate FirstStays(ts: seq<Trade>, s: State, x: Uuid) {
    Find(ts, x).Some? ==> Find(s.rows, x) == Find(ts, x)
  }

  lemma {:induction false} InvInsertion(s: State, r: nat, in_: TradeInput, result: Result)
    requires Inv(s)
    ensures Inv(Insertion(s, r, in_, result))
  {
    var t := Insertion(s, r, in_, result);
    FindNew(s.rows, RowOf(in_), in_.id);
    if t.rows != s.rows {
      forall i | 0 <= i < |s.answers|
        ensures AnswerOk(t, s.answers[i])
      {
        assert AnswerOk(s, s.answers[i]);
        FindNew(s.rows, RowOf(in_), s.answers[i].id);
      }
      forall q | q in t.requests && t.requests[q].Fetching?
        ensures Find(t.rows, t.requests[q].id).Some?
      {
        FindNew(s.rows, RowOf(in_), t.requests[q].id);
      }
    }
  }

  lemma {:induction false} InvFetch(s: State, r: nat, id: Uuid, result: Result)
    requires Inv(s) && Find(s.rows, id).Some?
    ensures Inv(Fetch(s, r, id, result))
  {
    FindSome(s.rows, id);
    var t := Fetch(s, r, id, result);
    forall i | 0 <= i < |s.answers|
      ensures AnswerOk(t, s.answers[i])
    {
      assert AnswerOk(s, s.answers[i]);
    }
  }

  lemma {:induction false} InvStep(s: State, step: Step)
    requires Inv(s) && Enabled(s, step)
    ensures Inv(Apply(s, step))
  {
    match step
    case Arrive(_, _) =>
    case RunInsert(r, result) => InvInsertion(s, r, s.requests[r].in_, result);
    case RunFetch(r, result) => InvFetch(s, r, s.requests[r].id, result);
  }

  lemma {:induction false} OneMoreAnswer(answers: seq<Answer>, a: Answer, x: Uuid)
    ensures Insertions(answers + [a], x) ==
      Insertions(answers, x) + if a.Answered? && a.inserted && a.id == x then 1 else 0
  {
    assert (answers + [a])[..|answers|] == answers;
  }

  lemma {:induction false} CountInsertion(ts: seq<Trade>, s: State, r: nat, in_: TradeInput, result: Result, x: Uuid)
    requires CountOk(ts, s, x) && FirstStays(ts, s, x)
    ensures CountOk(ts, Insertion(s, r, in_, result), x) && FirstStays(ts, Insertion(s, r, in_, result), x)
  {
    FindNew(s.rows, RowOf(in_), x);
    OneMoreAnswer(s.answers, Answered(in_.id, RowOf(in_), true), x);
  }

  lemma {:induction false} CountFetch(ts: seq<Trade>, s: State, r: nat, id: Uuid, result: Result, x: Uuid)
    requires CountOk(ts, s, x) && FirstStays(ts, s, x)
    ensures CountOk(ts, Fetch(s, r, id, result), x) && FirstStays(ts, Fetch(s, r, id, result), x)
  {
    OneMoreAnswer(s.answers, Missed(id), x);
    if Find(s.rows, id).Some? {
      OneMoreAnswer(s.answers, Answered(id, Find(s.rows, id).value, false), x);
    }
  }

  lemma {:induction false} CountStep(ts: seq<Trade>, s: State, step: Step, x: Uuid)
    requires CountOk(ts, s, x) && FirstStays(ts, s, x) && Enabled(s, step)
    ensures CountOk(ts, Apply(s, step), x) && FirstStays(ts, Apply(s, step), x)
  {
    match step
    case Arrive(_, _) =>
    case RunInsert(r, result) => CountInsertion(ts, s, r, s.requests[r].in_, result, x);
    case RunFetch(r, result) => CountFetch(ts, s, r, s.requests[r].id, result, x);
  }

  lemma {:induction false} InvAlways(s: State, steps: seq<Step>, x: Uuid)
    requires Initial(s) && IsRun(s, steps)
    ensures Inv(After(s, steps)) && CountOk(s.rows, After(s, steps), x) && FirstStays(s.rows, After(s, steps), x)
    decreases |steps|
  {
    if steps != [] {
      var front, last := steps[..|steps| - 1], steps[|steps| - 1];
      InvAlways(s, front, x);
      InvStep(After(s, front), last);
      CountStep(s.rows, After(s, front), last, x);
    }
  }

  /** First write wins: from any table and over every interleaving of submissions, the follow-up
      fetch never misses, and all responses for one trade id carry the same stored record. For an
      id that was there at the start this is the record of then, and no insertion is reported. For
      any other id exactly one of the statements that stored it took effect, so exactly one reports
      an insertion (and starts a publish job) unless that very statement reported a failure. */
  lemma {:induction false} FirstWriteWins(s: State, steps: seq<Step>, x: Uuid)
    requires Initial(s) && IsRun(s, steps)
    ensures var e := After(s, steps);
      && (forall a :: a in e.answers ==> !a.Missed?)
      && (forall a, b :: a in e.answers && b in e.answers && a.id == x && b.id == x ==> a.row == b.row)
      && (forall a :: a in e.answers && a.id == x ==> a.row.input.id == x && a.row in e.rows)
      && (if Find(s.rows, x).Some? then
            && Insertions(e.answers, x) == 0
            && forall a :: a in e.answers && a.id == x ==> Some(a.row) == Find(s.rows, x)
          else
            && Insertions(e.answers, x) <= 1
            && ((exists a :: a in e.answers && a.id == x) ==>
                  Insertions(e.answers, x) == if x in e.unreported then 0 else 1))
  {
    InvAlways(s, steps, x);
    var e := After(s, steps);
    FindSome(e.rows, x);
    forall a | a in e.answers
      ensures AnswerOk(e, a)
    {
      var i :| 0 <= i < |e.answers| && e.answers[i] == a;
    }
  }
}
