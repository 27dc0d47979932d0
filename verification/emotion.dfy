/** Win rate by emotional state: wins and losses per user and emotion, counted event by event
    and recomputed in one GROUP BY. */
module EmotionStats {
  import opened Prelude
  import opened Codec
  import opened Trades

  datatype Bucket = Bucket(user: Uuid, emotion: Emotion)

  datatype Cell = Cell(wins: nat, losses: nat)

  type Cells = map<Bucket, Cell>

  function At(cells: Cells, b: Bucket): Cell {
    if b in cells then cells[b] else Cell(0, 0)
  }

  /** The upsert that bumps one side of one cell. */
  function Bump(cells: Cells, b: Bucket, won: bool): Cells {
    var c := At(cells, b);
    cells[b := if won then c.(wins := c.wins + 1) else c.(losses := c.losses + 1)]
  }

  /** The side of the cell that a trade counts for; `won` says which. */
  predicate Counts(t: Trade, u: Uuid, b: Bucket, won: bool) {
    u == b.user && t.input.emotion == Some(b.emotion) && t.outcome.Some? && (t.outcome == Some(Win)) == won
  }

  /** Rows without an emotion or an outcome are not counted. */
  predicate Rated(t: Trade) {
    t.input.emotion.Some? && t.outcome.Some?
  }

  /** The effect of one closed event of user `u`. */
  function Record(cells: Cells, u: Uuid, t: Trade): Cells {
    if !Rated(t) then cells
    else Bump(cells, Bucket(u, t.input.emotion.value), t.outcome.value == Win)
  }

  function Side(c: Cell, won: bool): nat {
    if won then c.wins else c.losses
  }

  /** A closed event adds one to the side it counts for and touches no other side of any cell. */
  lemma {:induction false} RecordCounts(cells: Cells, u: Uuid, t: Trade, b: Bucket, won: bool)
    ensures Side(At(Record(cells, u, t), b), won) == Side(At(cells, b), won) + if Counts(t, u, b, won) then 1 else 0
  {
  }

  function InBucket(b: Bucket, won: bool): Trade -> bool {
    (t: Trade) => t.input.status == Shut && Counts(t, t.input.user, b, won)
  }

  /** COUNT(*) FILTER (WHERE outcome = ...) of the batch, for one group. */
  function Batch(ts: seq<Trade>, b: Bucket, won: bool): nat {
    |Filter(ts, InBucket(b, won))|
  }

  function RecordAll(ts: seq<Trade>): Cells {
    if ts == [] then map[] else Record(RecordAll(ts[..|ts| - 1]), ts[|ts| - 1].input.user, ts[|ts| - 1])
  }

  predicate IsClosed(t: Trade) {
    t.input.status == Shut
  }

  lemma {:induction false} RecordAllCounts(order: seq<Trade>, b: Bucket, won: bool)
    requires forall t :: t in order ==> t.input.status == Shut
    ensures Side(At(RecordAll(order), b), won) == |Filter(order, InBucket(b, won))|
  {
    if order != [] {
      var front, t := order[..|order| - 1], order[|order| - 1];
      RecordAllCounts(front, b, won);
      RecordCounts(RecordAll(front), t.input.user, t, b, won);
    }
  }

  lemma {:induction false} FilterSum(s: seq<Trade>, p: Trade -> bool, ind: Trade -> int)
    requires forall t :: ind(t) == if p(t) then 1 else 0
    ensures Sum(s, ind) == |Filter(s, p)|
  {
    if s != [] {
      FilterSum(s[..|s| - 1], p, ind);
    }
  }

  lemma {:induction false} ClosedFirst(ts: seq<Trade>, b: Bucket, won: bool)
    ensures Filter(Filter(ts, IsClosed), InBucket(b, won)) == Filter(ts, InBucket(b, won))
  {
    if ts != [] {
      ClosedFirst(ts[..|ts| - 1], b, won);
    }
  }

  /** When each closed trade's event is processed exactly once, in any order at all, the running
      counts equal the batch GROUP BY, bucket by bucket. */
  lemma {:induction false} ExactlyOnceIsBatch(ts: seq<Trade>, order: seq<Trade>, b: Bucket, won: bool)
    requires multiset(order) == multiset(Filter(ts, IsClosed))
    ensures Side(At(RecordAll(order), b), won) == Batch(ts, b, won)
  {
    forall t | t in order
      ensures t.input.status == Shut
    {
      assert t in multiset(order);
      FilterMember(ts, IsClosed, t);
    }
    RecordAllCounts(order, b, won);
    var ind := (t: Trade) => if InBucket(b, won)(t) then 1 else 0;
    FilterSum(order, InBucket(b, won), ind);
    FilterSum(Filter(ts, IsClosed), InBucket(b, won), ind);
    SumPermuted(order, Filter(ts, IsClosed), ind);
    ClosedFirst(ts, b, won);
  }
}
