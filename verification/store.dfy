/** The Postgres tables, and each SQL statement of the metrics as an atomic change to them. */
module Store {
  import opened Prelude
  import opened Codec
  import opened Trades
  import PlanAdherence
  import SessionTilt
  import Revenge
  import EmotionStats
  import Overtrading
  import Ledger

  /** The outcome of a statement: it may also take effect although it reports a failure. */
  datatype Result = Ok | Failed | AppliedButFailed

  /** Trades are append-only. The revenge flag, the one column that is updated, is the set of flagged ids. */
  datatype Tables = Tables(
    trades: seq<Trade>, flags: set<Uuid>,
    scores: map<Uuid, PlanAdherence.Score>, tilts: map<Uuid, SessionTilt.Tilt>,
    cells: EmotionStats.Cells, revenge: map<Uuid, nat>, over: Ledger.Tables)

  /** SELECT ... WHERE trade_id = x. */
  function Find(ts: seq<Trade>, x: Uuid): Option<Trade> {
    if ts == [] then None
    else if ts[|ts| - 1].input.id == x then Some(ts[|ts| - 1])
    else Find(ts[..|ts| - 1], x)
  }

  function Insert(t: Tables, in_: TradeInput): Tables {
    t.(trades := t.trades + [RowOf(in_)])
  }

  function Lookup<T>(m: map<Uuid, T>, k: Uuid): Option<T> {
    if k in m then Some(m[k]) else None
  }

  function Number(m: map<Uuid, nat>, k: Uuid): nat {
    if k in m then m[k] else 0
  }

  function SetScore(t: Tables, u: Uuid, score: PlanAdherence.Score): Tables {
    t.(scores := t.scores[u := score])
  }

  function SetTilt(t: Tables, s: Uuid, row: SessionTilt.Tilt): Tables {
    t.(tilts := t.tilts[s := row])
  }

  function SetFlag(t: Tables, x: Uuid): Tables {
    t.(flags := t.flags + {x})
  }

  /** The upsert that raises one user's counter. */
  function Raised(m: map<Uuid, nat>, u: Uuid): map<Uuid, nat> {
    m[u := Number(m, u) + 1]
  }

  function BumpRevenge(t: Tables, u: Uuid): Tables {
    t.(revenge := Raised(t.revenge, u))
  }

  function RecordEmotion(t: Tables, u: Uuid, row: Trade): Tables {
    t.(cells := EmotionStats.Record(t.cells, u, row))
  }

  function AddEvent(t: Tables, u: Uuid, e: Overtrading.Detected): Tables {
    t.(over := Ledger.AddRow(t.over, u, e))
  }

  function BumpOvertrading(t: Tables, u: Uuid): Tables {
    t.(over := Ledger.Bump(t.over, u))
  }

  function ByUser(u: Uuid): Trade -> bool {
    (t: Trade) => t.input.user == u
  }

  /** entry_at of every trade of the user, in table order. */
  function EntriesOf(ts: seq<Trade>, u: Uuid): seq<int> {
    var mine := Filter(ts, ByUser(u));
    seq(|mine|, i requires 0 <= i < |mine| => mine[i].input.entryAt)
  }

  // ---- Lookups in a growing table.

  ghost predicate UniqueIds(ts: seq<Trade>) {
    Revenge.UniqueIds(ts)
  }

  /** The constraints of the trades table. The derived columns may hold anything: a seeded row
      brings its own. */
  ghost predicate TableOk(ts: seq<Trade>) {
    UniqueIds(ts) && forall t :: t in ts ==> Storable(t.input)
  }

  lemma {:induction false} FindSome(ts: seq<Trade>, x: Uuid)
    ensures Find(ts, x).Some? <==> exists i :: 0 <= i < |ts| && ts[i].input.id == x
    ensures Find(ts, x).Some? ==> Find(ts, x).value in ts && Find(ts, x).value.input.id == x
  {
    if ts != [] {
      FindSome(ts[..|ts| - 1], x);
      assert ts == ts[..|ts| - 1] + [ts[|ts| - 1]];
      if i :| 0 <= i < |ts| && ts[i].input.id == x {
        assert i == |ts| - 1 || ts[..|ts| - 1][i].input.id == x;
      }
    }
  }

  lemma {:induction false} FindIndex(ts: seq<Trade>, i: nat)
    requires UniqueIds(ts) && i < |ts|
    ensures Find(ts, ts[i].input.id) == Some(ts[i])
  {
    FindSome(ts, ts[i].input.id);
  }

  lemma {:induction false} FindAppend(ts: seq<Trade>, more: seq<Trade>, x: Uuid)
    requires Find(more, x) == None
    ensures Find(ts + more, x) == Find(ts, x)
  {
    if more == [] {
      assert ts + more == ts;
    } else {
      assert (ts + more)[..|ts + more| - 1] == ts + more[..|more| - 1];
      FindAppend(ts, more[..|more| - 1], x);
    }
  }

  lemma {:induction false} FindNew(ts: seq<Trade>, row: Trade, x: Uuid)
    ensures Find(ts + [row], x) == if x == row.input.id then Some(row) else Find(ts, x)
  {
    assert (ts + [row])[..|ts|] == ts;
  }

  lemma {:induction false} UniqueGrows(ts: seq<Trade>, row: Trade)
    requires UniqueIds(ts) && Find(ts, row.input.id) == None
    ensures UniqueIds(ts + [row])
  {
    FindSome(ts, row.input.id);
  }

  /** A row that is found stays the row that is found when a row with a new id arrives. */
  lemma {:induction false} FindKept(ts: seq<Trade>, row: Trade, x: Uuid)
    requires Find(ts, row.input.id) == None && Find(ts, x).Some?
    ensures Find(ts + [row], x) == Find(ts, x)
  {
    assert (ts + [row])[..|ts|] == ts;
  }

  lemma {:induction false} FindPrefix(ts: seq<Trade>, n: nat, m: nat, x: Uuid)
    requires n <= m <= |ts| && Find(ts[..n], x).Some?
    ensures Find(ts[..m], x).Some?
  {
    FindSome(ts[..n], x);
    FindSome(ts[..m], x);
    var i :| 0 <= i < n && ts[..n][i].input.id == x;
    assert ts[..m][i].input.id == x;
  }

  /** The row that a query by id returns never changes while the table grows. */
  lemma {:induction false} RowStays(a: seq<Trade>, b: seq<Trade>, x: Uuid)
    requires a <= b && UniqueIds(b) && Find(a, x).Some?
    ensures Find(b, x) == Find(a, x)
  {
    FindSome(a, x);
    var i :| 0 <= i < |a| && a[i] == Find(a, x).value;
    FindIndex(b, i);
  }
}
