/** The batch detector over the whole table: grouping the entries by user, running the window loop
    for each user in any order, and rewriting the events and the counters in one transaction. */
module Detection {
  import opened Prelude
  import opened Codec
  import opened Trades
  import opened Windowing
  import opened Overtrading
  import opened Ledger
  import Store

  /** One row of the query over the trades. */
  datatype Entry = Entry(user: Uuid, at: int)

  function Users(ts: seq<Trade>): set<Uuid> {
    set t | t in ts :: t.input.user
  }

  function Instant(): int -> int {
    (x: int) => x
  }

  /** entry_at of the user's trades, ascending. */
  function SortedEntries(ts: seq<Trade>, u: Uuid): seq<int> {
    var o := OrderBy(Number(Store.EntriesOf(ts, u), Instant()));
    seq(|o|, i requires 0 <= i < |o| => o[i].row)
  }

  lemma {:induction false} OrderedRows(s: seq<int>)
    ensures var o := OrderBy(Number(s, Instant()));
      |o| == |s| && Ascending(o) && forall i :: 0 <= i < |o| ==> o[i].key == o[i].row
  {
    var n := Number(s, Instant());
    OrderByPermutes(n);
    OrderByAscends(n);
    var o := OrderBy(n);
    forall i | 0 <= i < |o|
      ensures o[i].key == o[i].row
    {
      assert o[i] in multiset(o);
      assert o[i] in multiset(n);
    }
  }

  lemma {:induction false} SortedEntriesAreSorted(ts: seq<Trade>, u: Uuid)
    ensures Sorted(SortedEntries(ts, u)) && |SortedEntries(ts, u)| == |Store.EntriesOf(ts, u)|
  {
    OrderedRows(Store.EntriesOf(ts, u));
    var o := OrderBy(Number(Store.EntriesOf(ts, u), Instant()));
    forall i, j | 0 <= i <= j < |o|
      ensures o[i].row <= o[j].row
    {
      if i < j {
        assert Less(o[i], o[j]);
      }
    }
  }

  function Indicator(p: int -> bool): Keyed<int> -> int {
    (x: Keyed<int>) => if p(x.row) then 1 else 0
  }

  lemma {:induction false} CountRows(o: seq<Keyed<int>>, rows: seq<int>, p: int -> bool)
    requires |o| == |rows| && forall i :: 0 <= i < |o| ==> o[i].row == rows[i]
    ensures Sum(o, Indicator(p)) == |Filter(rows, p)|
  {
    if o != [] {
      CountRows(o[..|o| - 1], rows[..|rows| - 1], p);
    }
  }

  /** Sorting changes no count. */
  lemma {:induction false} SortedCounts(ts: seq<Trade>, u: Uuid, p: int -> bool)
    ensures |Filter(SortedEntries(ts, u), p)| == |Filter(Store.EntriesOf(ts, u), p)|
  {
    var n := Number(Store.EntriesOf(ts, u), Instant());
    OrderByPermutes(n);
    SumPermuted(n, OrderBy(n), Indicator(p));
    CountRows(n, Store.EntriesOf(ts, u), p);
    CountRows(OrderBy(n), SortedEntries(ts, u), p);
  }

  /** The batch reports a user exactly when some closed thirty minutes hold more than ten entries of
      that user, whatever the order of the table. */
  lemma {:induction false} ReportedIffCrowded(ts: seq<Trade>, u: Uuid)
    ensures Spikes(SortedEntries(ts, u), |SortedEntries(ts, u)|) != [] <==>
      exists s :: |Filter(Store.EntriesOf(ts, u), StartingAt(s))| > THRESHOLD
  {
    SortedEntriesAreSorted(ts, u);
    AnchoredWindowsSuffice(SortedEntries(ts, u));
    forall s
      ensures |Filter(SortedEntries(ts, u), StartingAt(s))| == |Filter(Store.EntriesOf(ts, u), StartingAt(s))|
    {
      SortedCounts(ts, u, StartingAt(s));
    }
  }

  // ---- Grouping.

  function ForUser(rows: seq<Entry>, u: Uuid): seq<int> {
    if rows == [] then []
    else
      var last := rows[|rows| - 1];
      ForUser(rows[..|rows| - 1], u) + if last.user == u then [last.at] else []
  }

  lemma {:induction false} ForUserAppend(a: seq<Entry>, b: seq<Entry>, u: Uuid)
    ensures ForUser(a + b, u) == ForUser(a, u) + ForUser(b, u)
  {
    if b == [] {
      assert a + b == a;
    } else {
      assert (a + b)[..|a + b| - 1] == a + b[..|b| - 1];
      ForUserAppend(a, b[..|b| - 1], u);
    }
  }

  function Rowed(u: Uuid, ats: seq<int>): seq<Entry> {
    seq(|ats|, i requires 0 <= i < |ats| => Entry(u, ats[i]))
  }

  lemma {:induction false} ForUserRowed(u: Uuid, ats: seq<int>, v: Uuid)
    ensures ForUser(Rowed(u, ats), v) == if v == u then ats else []
  {
    if ats != [] {
      var front := ats[..|ats| - 1];
      assert Rowed(u, ats) == Rowed(u, front) + [Entry(u, ats[|ats| - 1])];
      ForUserRowed(u, front, v);
      assert ats == front + [ats[|ats| - 1]];
    }
  }

  lemma {:induction false} NoUserNoEntries(ts: seq<Trade>, u: Uuid)
    requires u !in Users(ts)
    ensures Store.EntriesOf(ts, u) == [] && SortedEntries(ts, u) == []
  {
    FilterNone(ts, Store.ByUser(u));
    SortedEntriesAreSorted(ts, u);
  }

  /** The rows hold the sorted entries of the users in `done` and nothing else. */
  ghost predicate Listed(ts: seq<Trade>, rows: seq<Entry>, done: set<Uuid>) {
    forall u :: ForUser(rows, u) == if u in done then SortedEntries(ts, u) else []
  }

  lemma {:induction false} ListOneMore(ts: seq<Trade>, rows: seq<Entry>, done: set<Uuid>, u: Uuid)
    requires Listed(ts, rows, done) && u !in done
    ensures Listed(ts, rows + Rowed(u, SortedEntries(ts, u)), done + {u})
  {
    forall v
      ensures ForUser(rows + Rowed(u, SortedEntries(ts, u)), v) == if v in done + {u} then SortedEntries(ts, v) else []
    {
      ForUserAppend(rows, Rowed(u, SortedEntries(ts, u)), v);
      ForUserRowed(u, SortedEntries(ts, u), v);
      assert ForUser(rows, v) == if v in done then SortedEntries(ts, v) else [];
    }
  }

  /** SELECT user_id, entry_at ... ORDER BY user_id, entry_at, for some order of the users. */
  method QueryEntries(ts: seq<Trade>) returns (rows: seq<Entry>)
    ensures forall u :: ForUser(rows, u) == SortedEntries(ts, u)
  {
    rows := [];
    var left := Users(ts);
    while left != {}
      invariant left <= Users(ts) && Listed(ts, rows, Users(ts) - left)
      decreases left
    {
      var u :| u in left;
      ListOneMore(ts, rows, Users(ts) - left, u);
      assert Users(ts) - left + {u} == Users(ts) - (left - {u});
      rows, left := rows + Rowed(u, SortedEntries(ts, u)), left - {u};
    }
    forall u
      ensures ForUser(rows, u) == SortedEntries(ts, u)
    {
      assert ForUser(rows, u) == if u in Users(ts) then SortedEntries(ts, u) else [];
      if u !in Users(ts) {
        NoUserNoEntries(ts, u);
      }
    }
  }

  /** The rows collected into one list per user. */
  method GroupByUser(rows: seq<Entry>) returns (perUser: map<Uuid, seq<int>>)
    ensures forall u :: u in perUser <==> ForUser(rows, u) != []
    ensures forall u :: u in perUser ==> perUser[u] == ForUser(rows, u)
  {
    perUser := map[];
    var i := 0;
    while i < |rows|
      invariant i <= |rows|
      invariant forall u :: u in perUser <==> ForUser(rows[..i], u) != []
      invariant forall u :: u in perUser ==> perUser[u] == ForUser(rows[..i], u)
    {
      var e := rows[i];
      assert rows[..i + 1][..i] == rows[..i];
      perUser := perUser[e.user := (if e.user in perUser then perUser[e.user] else []) + [e.at]];
      i := i + 1;
    }
    assert rows[..i] == rows;
  }

  // ---- Detection user by user.

  /** The detections that were found are those of the window loop, one list per user with entries. */
  ghost predicate IsDetection(ts: seq<Trade>, found: seq<Found>) {
    && OncePerUser(found)
    && (forall i :: 0 <= i < |found| ==>
          found[i].events == Spikes(SortedEntries(ts, found[i].user), |SortedEntries(ts, found[i].user)|))
    && (forall u :: SortedEntries(ts, u) != [] ==> Visited(found, u))
  }

  /** One entry for every user with detections. */
  ghost predicate CountsOf(counts: map<Uuid, nat>, found: seq<Found>) {
    && (forall i :: 0 <= i < |found| ==> (found[i].user in counts <==> found[i].events != []))
    && (forall i :: 0 <= i < |found| && found[i].events != [] ==> counts[found[i].user] == |found[i].events|)
    && (forall u :: u in counts ==> Visited(found, u))
  }

  /** The window loop's events of one user. */
  ghost predicate Spiked(perUser: map<Uuid, seq<int>>, f: Found) {
    f.user in perUser && f.events == Spikes(perUser[f.user], |perUser[f.user]|)
  }

  ghost predicate Visited(found: seq<Found>, u: Uuid) {
    exists i :: 0 <= i < |found| && found[i].user == u
  }

  lemma {:induction false} VisitedOneMore(found: seq<Found>, f: Found)
    ensures forall u :: Visited(found + [f], u) <==> Visited(found, u) || u == f.user
  {
    var all := found + [f];
    assert all[|found|] == f;
    forall u
      ensures Visited(all, u) <==> Visited(found, u) || u == f.user
    {
      if i :| 0 <= i < |found| && found[i].user == u {
        assert all[i].user == u;
      }
    }
  }

  lemma {:induction false} CountedOneMore(found: seq<Found>, f: Found, counts: map<Uuid, nat>)
    requires CountsOf(counts, found) && !Visited(found, f.user)
    ensures CountsOf(if f.events != [] then counts[f.user := |f.events|] else counts, found + [f])
  {
    VisitedOneMore(found, f);
  }

  lemma {:induction false} VisitOneMore(found: seq<Found>, f: Found, counts: map<Uuid, nat>)
    requires OncePerUser(found) && CountsOf(counts, found) && !Visited(found, f.user)
    ensures OncePerUser(found + [f]) && FoundRows(found + [f]) == FoundRows(found) + RowsFor(f.user, f.events)
    ensures CountsOf(if f.events != [] then counts[f.user := |f.events|] else counts, found + [f])
    ensures forall u :: Visited(found + [f], u) <==> Visited(found, u) || u == f.user
  {
    assert (found + [f])[..|found|] == found;
    VisitedOneMore(found, f);
    CountedOneMore(found, f, counts);
  }

  lemma {:induction false} RowsFound(found: seq<Found>, i: nat)
    requires OncePerUser(found) && i < |found|
    ensures Filter(FoundRows(found), OfUser(found[i].user)) == RowsFor(found[i].user, found[i].events)
  {
    var front, last, u := found[..|found| - 1], found[|found| - 1], found[i].user;
    FilterAppend(FoundRows(front), RowsFor(last.user, last.events), OfUser(u));
    if i < |front| {
      RowsFound(front, i);
      FilterNone(RowsFor(last.user, last.events), OfUser(u));
    } else {
      NothingFound(front, u);
      FilterAll(RowsFor(last.user, last.events), OfUser(u));
    }
  }

  lemma {:induction false} EventsFound(found: seq<Found>, i: nat)
    requires OncePerUser(found) && i < |found|
    ensures EventsOf(FoundRows(found), found[i].user) == found[i].events
  {
    RowsFound(found, i);
  }

  lemma {:induction false} NothingFound(found: seq<Found>, u: Uuid)
    requires forall i :: 0 <= i < |found| ==> found[i].user != u
    ensures Filter(FoundRows(found), OfUser(u)) == []
  {
    if found != [] {
      var front, last := found[..|found| - 1], found[|found| - 1];
      NothingFound(front, u);
      FilterAppend(FoundRows(front), RowsFor(last.user, last.events), OfUser(u));
      FilterNone(RowsFor(last.user, last.events), OfUser(u));
    }
  }

  /** The event rows of each user are the rising edges in that user's entries, and the counts are
      the numbers of them, for the users that have any. */
  ghost predicate Reports(perUser: map<Uuid, seq<int>>, events: seq<Row>, counts: map<Uuid, nat>) {
    forall u :: u in perUser ==>
      && EventsOf(events, u) == Spikes(perUser[u], |perUser[u]|)
      && (u in counts <==> Spikes(perUser[u], |perUser[u]|) != [])
      && (u in counts ==> counts[u] == |Spikes(perUser[u], |perUser[u]|)|)
  }

  lemma {:induction false} FoundReports(perUser: map<Uuid, seq<int>>, found: seq<Found>, counts: map<Uuid, nat>)
    requires OncePerUser(found) && CountsOf(counts, found)
    requires forall i :: 0 <= i < |found| ==> Spiked(perUser, found[i])
    requires forall u :: u in perUser ==> Visited(found, u)
    ensures Reports(perUser, FoundRows(found), counts)
  {
    forall u | u in perUser
      ensures EventsOf(FoundRows(found), u) == Spikes(perUser[u], |perUser[u]|)
      ensures u in counts <==> Spikes(perUser[u], |perUser[u]|) != []
      ensures u in counts ==> counts[u] == |Spikes(perUser[u], |perUser[u]|)|
    {
      var i :| 0 <= i < |found| && found[i].user == u;
      assert Spiked(perUser, found[i]);
      EventsFound(found, i);
    }
  }

  /** The loop over the users, in whatever order the map gives them. */
  method VisitAll(perUser: map<Uuid, seq<int>>)
    returns (events: seq<Row>, counts: map<Uuid, nat>, ghost found: seq<Found>)
    requires forall u :: u in perUser ==> Sorted(perUser[u])
    ensures events == FoundRows(found) && OncePerUser(found) && CountsOf(counts, found)
    ensures forall i :: 0 <= i < |found| ==> Spiked(perUser, found[i])
    ensures forall u :: Visited(found, u) <==> u in perUser
  {
    events, counts, found := [], map[], [];
    var left := perUser.Keys;
    while left != {}
      invariant left <= perUser.Keys
      invariant events == FoundRows(found) && OncePerUser(found) && CountsOf(counts, found)
      invariant forall i :: 0 <= i < |found| ==> Spiked(perUser, found[i])
      invariant forall u :: Visited(found, u) <==> u in perUser.Keys - left
      decreases left
    {
      var u :| u in left;
      var spikes, n := DetectSpikes(perUser[u]);
      VisitOneMore(found, Found(u, spikes), counts);
      found := found + [Found(u, spikes)];
      events := events + RowsFor(u, spikes);
      if n > 0 {
        counts := counts[u := n];
      }
      left := left - {u};
    }
  }

  method DetectAll(perUser: map<Uuid, seq<int>>)
    returns (events: seq<Row>, counts: map<Uuid, nat>, ghost found: seq<Found>)
    requires forall u :: u in perUser ==> Sorted(perUser[u])
    ensures Reports(perUser, events, counts)
    ensures events == FoundRows(found) && OncePerUser(found) && CountsOf(counts, found)
    ensures forall i :: 0 <= i < |found| ==> Spiked(perUser, found[i])
    ensures forall u :: Visited(found, u) <==> u in perUser
  {
    events, counts, found := VisitAll(perUser);
    FoundReports(perUser, found, counts);
  }

  // ---- The two detectors on one table.

  /** The user's trades as arrivals: a trade that is not closed makes the worker look. */
  function Arrivals(ts: seq<Trade>, u: Uuid): seq<Arrival> {
    var mine := Filter(ts, Store.ByUser(u));
    seq(|mine|, i requires 0 <= i < |mine| => Arrival(mine[i].input.entryAt, mine[i].input.status != Shut))
  }

  /** Of any table, whatever the order its trades arrived in: a user whom the live detector reports,
      looking at each open as it arrives, is one whom the batch reports. */
  lemma {:induction false} LiveImpliesBatch(ts: seq<Trade>, u: Uuid)
    requires LiveRun(Looks(Arrivals(ts, u), |Arrivals(ts, u)|)) != []
    ensures Spikes(SortedEntries(ts, u), |SortedEntries(ts, u)|) != []
  {
    LiveNeverOverReports(Arrivals(ts, u));
    assert Instants(Arrivals(ts, u)) == Store.EntriesOf(ts, u);
    ReportedIffCrowded(ts, u);
  }
}
