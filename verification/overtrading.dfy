/** Overtrading: more than ten entries of one user within thirty minutes. The batch detector
    slides a window over the sorted entries; the live detector looks back from one entry. */
module Overtrading {
  import opened Prelude
  import opened Codec

  const WINDOW := 30 * 60 * 1_000_000_000
  const THRESHOLD := 10

  datatype Detected = Detected(start: int, end: int, count: nat)

  predicate Sorted(ts: seq<int>) {
    forall i, j :: 0 <= i <= j < |ts| ==> ts[i] <= ts[j]
  }

  /** Instants of the closed interval that ends at `at`. */
  function Covers(at: int): int -> bool {
    x => at - WINDOW <= x <= at
  }

  /** The entries up to index `i` that lie within thirty minutes before entry `i`. */
  function WindowAt(ts: seq<int>, i: nat): seq<int>
    requires i < |ts|
  {
    Filter(ts[..i + 1], Covers(ts[i]))
  }

  predicate Hot(ts: seq<int>, i: nat)
    requires i < |ts|
  {
    |WindowAt(ts, i)| > THRESHOLD
  }

  predicate HotBefore(ts: seq<int>, i: nat)
    requires i <= |ts|
  {
    i > 0 && Hot(ts, i - 1)
  }

  predicate RisingEdge(ts: seq<int>, i: nat)
    requires i < |ts|
  {
    Hot(ts, i) && !HotBefore(ts, i)
  }

  /** The event for a hot entry: its window's first entry, itself, and the window's size. */
  function SpikeAt(ts: seq<int>, i: nat): Detected
    requires i < |ts| && Hot(ts, i)
  {
    Detected(WindowAt(ts, i)[0], ts[i], |WindowAt(ts, i)|)
  }

  /** One event per rising edge among the first `n` entries. */
  function Spikes(ts: seq<int>, n: nat): seq<Detected>
    requires n <= |ts|
  {
    if n == 0 then []
    else if RisingEdge(ts, n - 1) then Spikes(ts, n - 1) + [SpikeAt(ts, n - 1)]
    else Spikes(ts, n - 1)
  }

  lemma {:induction false} FilterAll<T>(s: seq<T>, p: T -> bool)
    requires forall x :: x in s ==> p(x)
    ensures Filter(s, p) == s
  {
    if s != [] {
      FilterAll(s[..|s| - 1], p);
    }
  }

  lemma {:induction false} FilterShrinks<T>(s: seq<T>, p: T -> bool, q: T -> bool)
    requires forall x :: x in s && p(x) ==> q(x)
    ensures |Filter(s, p)| <= |Filter(s, q)|
  {
    if s != [] {
      FilterShrinks(s[..|s| - 1], p, q);
    }
  }

  /** On sorted entries the window is a slice that ends at entry `i`. */
  lemma {:induction false} WindowIsSlice(ts: seq<int>, i: nat, a: nat)
    requires Sorted(ts) && a <= i < |ts|
    requires forall j :: 0 <= j < a ==> ts[j] < ts[i] - WINDOW
    requires ts[a] >= ts[i] - WINDOW
    ensures WindowAt(ts, i) == ts[a..i + 1]
  {
    var p := Covers(ts[i]);
    assert ts[..i + 1] == ts[..a] + ts[a..i + 1];
    FilterAppend(ts[..a], ts[a..i + 1], p);
    FilterNone(ts[..a], p);
    FilterAll(ts[a..i + 1], p);
  }

  /** The start of the slice: the first entry that is not too old. */
  lemma {:induction false} SliceStart(ts: seq<int>, i: nat) returns (a: nat)
    requires Sorted(ts) && i < |ts|
    ensures a <= i && WindowAt(ts, i) == ts[a..i + 1] && ts[a] >= ts[i] - WINDOW
    ensures forall j :: 0 <= j < a ==> ts[j] < ts[i] - WINDOW
  {
    a := 0;
    while ts[a] < ts[i] - WINDOW
      invariant a <= i
      invariant forall j :: 0 <= j < a ==> ts[j] < ts[i] - WINDOW
      decreases i - a
    {
      a := a + 1;
    }
    WindowIsSlice(ts, i, a);
  }

  /** The window always holds the current entry and gains at most that one. */
  lemma {:induction false} WindowGrowth(ts: seq<int>, i: nat)
    requires Sorted(ts) && i < |ts|
    ensures 1 <= |WindowAt(ts, i)| <= if i == 0 then 1 else |WindowAt(ts, i - 1)| + 1
  {
    var a := SliceStart(ts, i);
    if i > 0 {
      var b := SliceStart(ts, i - 1);
      assert ts[i - 1] <= ts[i];
    }
  }

  /** Every event reports exactly eleven entries. */
  lemma {:induction false} SpikeCountIsEleven(ts: seq<int>, n: nat)
    requires Sorted(ts) && n <= |ts|
    ensures forall e :: e in Spikes(ts, n) ==> e.count == 11
  {
    if n > 0 {
      SpikeCountIsEleven(ts, n - 1);
      WindowGrowth(ts, n - 1);
    }
  }

  /** Every event ends at an entry and starts at the first entry of the thirty minutes up to there. */
  lemma {:induction false} SpikesAreWindows(ts: seq<int>, n: nat)
    requires Sorted(ts) && n <= |ts|
    ensures forall e :: e in Spikes(ts, n) ==>
      e.end in ts && e.start in ts && e.end - 1_800_000_000_000 <= e.start <= e.end
    ensures forall e, x :: e in Spikes(ts, n) && x in ts && x < e.start ==> x < e.end - 1_800_000_000_000
  {
    if n > 0 {
      SpikesAreWindows(ts, n - 1);
      var a := SliceStart(ts, n - 1);
      assert ts[a..n][0] == ts[a] && ts[n - 1] in ts && ts[a] in ts;
    }
  }

  /** Drops exactly the leading entries that are more than thirty minutes older than `at`, then
      appends `at`. */
  method Slide(window: seq<int>, at: int) returns (slid: seq<int>)
    ensures 1 <= |slid| <= |window| + 1 && slid == window[|window| + 1 - |slid|..] + [at]
    ensures forall j :: 0 <= j < |window| + 1 - |slid| ==> window[j] < at - WINDOW
    ensures |slid| > 1 ==> slid[0] >= at - WINDOW
  {
    slid := window;
    var cutoff := at - WINDOW;
    while |slid| > 0 && slid[0] < cutoff
      invariant |slid| <= |window| && slid == window[|window| - |slid|..]
      invariant forall j :: 0 <= j < |window| - |slid| ==> window[j] < cutoff
    {
      slid := slid[1..];
    }
    slid := slid + [at];
  }

  ghost predicate Stale(ts: seq<int>, a: nat, at: int) {
    a <= |ts| && forall j :: 0 <= j < a ==> ts[j] < at - WINDOW
  }

  /** Sliding the slice from entry `i - 1` gives the window of entry `i`. */
  lemma {:induction false} SlidIsWindow(ts: seq<int>, i: nat, a: nat, dropped: nat)
    requires Sorted(ts) && a <= i < |ts| && dropped <= i - a
    requires if i == 0 then a == 0 else Stale(ts, a, ts[i - 1])
    requires forall j :: 0 <= j < dropped ==> ts[a..i][j] < ts[i] - WINDOW
    requires dropped < i - a ==> ts[a..i][dropped] >= ts[i] - WINDOW
    ensures Stale(ts, a + dropped, ts[i])
    ensures WindowAt(ts, i) == ts[a + dropped..i + 1] == ts[a..i][dropped..] + [ts[i]]
  {
    forall j | 0 <= j < a + dropped
      ensures ts[j] < ts[i] - WINDOW
    {
      if j < a {
        assert ts[i - 1] <= ts[i];
      } else {
        assert ts[j] == ts[a..i][j - a];
      }
    }
    WindowIsSlice(ts, i, a + dropped);
  }

  /** What one turn of the loop does, read off the window it has. */
  lemma {:induction false} TurnOfLoop(ts: seq<int>, i: nat, window: seq<int>)
    requires i < |ts| && window == WindowAt(ts, i) && window != []
    ensures HotBefore(ts, i + 1) == (|window| > THRESHOLD)
    ensures Spikes(ts, i + 1) == if |window| > THRESHOLD && !HotBefore(ts, i)
                                 then Spikes(ts, i) + [Detected(window[0], ts[i], |window|)] else Spikes(ts, i)
  {
  }

  /** The batch loop over one user's sorted entries: its window is always the slice of entries
      in the last thirty minutes, its flag says whether that slice was too large, and its
      events are the rising edges. */
  method DetectSpikes(ts: seq<int>) returns (events: seq<Detected>, count: nat)
    requires Sorted(ts)
    ensures events == Spikes(ts, |ts|)
    ensures count == |events|
  {
    events, count := [], 0;
    var window: seq<int> := [];
    var inSpike := false;
    ghost var a := 0;
    var i := 0;
    while i < |ts|
      invariant 0 <= i <= |ts|
      invariant 0 <= a <= i && window == ts[a..i]
      invariant if i == 0 then a == 0 else Stale(ts, a, ts[i - 1])
      invariant inSpike == HotBefore(ts, i)
      invariant events == Spikes(ts, i) && count == |events|
    {
      var at := ts[i];
      ghost var before := window;
      window := Slide(window, at);
      ghost var dropped := |before| + 1 - |window|;
      SlidIsWindow(ts, i, a, dropped);
      TurnOfLoop(ts, i, window);
      a := a + dropped;
      if |window| > THRESHOLD && !inSpike {
        events := events + [Detected(window[0], at, |window|)];
        count := count + 1;
        inSpike := true;
      } else if |window| <= THRESHOLD {
        inSpike := false;
      }
      i := i + 1;
    }
  }

  // ---- Anchored windows suffice.

  lemma {:induction false} SpikesExist(ts: seq<int>, n: nat)
    requires n <= |ts|
    ensures Spikes(ts, n) != [] <==> exists i :: 0 <= i < n && Hot(ts, i)
  {
    if n > 0 {
      SpikesExist(ts, n - 1);
      if Hot(ts, n - 1) && n >= 2 && Hot(ts, n - 2) {
        assert Spikes(ts, n - 1) != [];
      }
    }
  }

  /** Instants of the closed thirty minutes that start at `s`. */
  function StartingAt(s: int): int -> bool {
    x => s <= x <= s + WINDOW
  }

  /** Entries after index `n` are too late for the interval that starts at `s`; entry `n - 1` is not. */
  lemma {:induction false} LastInInterval(ts: seq<int>, s: int) returns (n: nat)
    ensures n <= |ts| && (n > 0 ==> ts[n - 1] <= s + WINDOW)
    ensures Filter(ts, StartingAt(s)) == Filter(ts[..n], StartingAt(s))
  {
    n := |ts|;
    while n > 0 && ts[n - 1] > s + WINDOW
      invariant 0 <= n <= |ts|
      invariant forall x :: x in ts[n..] ==> x > s + WINDOW
    {
      n := n - 1;
      assert ts[n..] == [ts[n]] + ts[n + 1..];
    }
    assert ts == ts[..n] + ts[n..];
    FilterAppend(ts[..n], ts[n..], StartingAt(s));
    FilterNone(ts[n..], StartingAt(s));
  }

  /** The last entry of a crowded interval has a crowded window. */
  lemma {:induction false} CrowdedIsHot(ts: seq<int>, s: int)
    requires Sorted(ts) && |Filter(ts, StartingAt(s))| > THRESHOLD
    ensures exists i :: 0 <= i < |ts| && Hot(ts, i)
  {
    var n := LastInInterval(ts, s);
    assert n > 0;
    assert ts[..(n - 1) + 1] == ts[..n];
    forall x | x in ts[..n] && StartingAt(s)(x)
      ensures Covers(ts[n - 1])(x)
    {
      var j :| 0 <= j < n && ts[j] == x;
      assert ts[j] <= ts[n - 1];
    }
    FilterShrinks(ts[..n], StartingAt(s), Covers(ts[n - 1]));
    assert Hot(ts, n - 1);
  }

  lemma {:induction false} HotIsCrowded(ts: seq<int>, i: nat)
    requires i < |ts| && Hot(ts, i)
    ensures |Filter(ts, StartingAt(ts[i] - WINDOW))| > THRESHOLD
  {
    var p := StartingAt(ts[i] - WINDOW);
    assert ts == ts[..i + 1] + ts[i + 1..];
    FilterAppend(ts[..i + 1], ts[i + 1..], p);
    FilterShrinks(ts[..i + 1], Covers(ts[i]), p);
  }

  /** The batch detects something exactly when some closed thirty-minute interval, starting
      at any instant at all, holds more than ten entries. */
  lemma {:induction false} AnchoredWindowsSuffice(ts: seq<int>)
    requires Sorted(ts)
    ensures Spikes(ts, |ts|) != [] <==> exists s :: |Filter(ts, StartingAt(s))| > THRESHOLD
  {
    SpikesExist(ts, |ts|);
    if s :| |Filter(ts, StartingAt(s))| > THRESHOLD {
      CrowdedIsHot(ts, s);
    }
    if i :| 0 <= i < |ts| && Hot(ts, i) {
      HotIsCrowded(ts, i);
    }
  }

  // ---- The live detector, run once per opened trade.

  function EndIn(at: int): Detected -> bool {
    (e: Detected) => at - WINDOW <= e.end <= at
  }

  /** The event that one call adds: the user's entries and events as they stand at the call. */
  function Look(entries: seq<int>, events: seq<Detected>, at: int): Option<Detected> {
    var count := |Filter(entries, Covers(at))|;
    if count <= THRESHOLD || Filter(events, EndIn(at)) != [] then None
    else Some(Detected(at - WINDOW, at, count))
  }

  function Record(entries: seq<int>, events: seq<Detected>, at: int): seq<Detected> {
    match Look(entries, events, at) case None => events case Some(e) => events + [e]
  }

  /** One call of the detector, with the entries that the table holds at that moment. */
  datatype Call = Call(entries: seq<int>, at: int)

  function LiveRun(calls: seq<Call>): seq<Detected> {
    if calls == [] then []
    else
      var c := calls[|calls| - 1];
      Record(c.entries, LiveRun(calls[..|calls| - 1]), c.at)
  }

  lemma {:induction false} RunsExtend(calls: seq<Call>, k: nat)
    requires k <= |calls|
    ensures LiveRun(calls[..k]) <= LiveRun(calls)
    decreases |calls| - k
  {
    if k < |calls| {
      RunsExtend(calls, k + 1);
      assert calls[..k + 1][..k] == calls[..k];
    } else {
      assert calls[..k] == calls;
    }
  }

  /** In any order of calls, and however the table grows between them, every call that sees more
      than ten entries ends up covered by an event that ends in its own thirty minutes. */
  lemma {:induction false} EveryCrowdedCallIsCovered(calls: seq<Call>, k: nat)
    requires k < |calls| && |Filter(calls[k].entries, Covers(calls[k].at))| > THRESHOLD
    ensures exists e :: e in LiveRun(calls) && calls[k].at - WINDOW <= e.end <= calls[k].at
  {
    var before, at := LiveRun(calls[..k]), calls[k].at;
    assert calls[..k + 1][..k] == calls[..k];
    var after := LiveRun(calls[..k + 1]);
    RunsExtend(calls, k + 1);
    if Filter(before, EndIn(at)) == [] {
      assert after[|before|].end == at;
      assert after[|before|] in LiveRun(calls);
    } else {
      var e := Filter(before, EndIn(at))[0];
      FilterMember(before, EndIn(at), e);
      assert e in after;
    }
  }

  predicate Ordered(calls: seq<Call>) {
    forall i, j :: 0 <= i <= j < |calls| ==> calls[i].at <= calls[j].at
  }

  ghost predicate Spaced(events: seq<Detected>) {
    forall i, j :: 0 <= i < j < |events| ==> events[i].end + WINDOW < events[j].end
  }

  lemma {:induction false} UncoveredIsFar(events: seq<Detected>, at: int, i: nat)
    requires i < |events| && events[i].end <= at && Filter(events, EndIn(at)) == []
    ensures events[i].end + WINDOW < at
  {
    FilterMember(events, EndIn(at), events[i]);
    assert events[i] in events;
  }

  lemma {:induction false} EventsWithinSpan(calls: seq<Call>)
    requires Ordered(calls)
    ensures forall i :: 0 <= i < |LiveRun(calls)| ==>
      calls != [] && calls[0].at <= LiveRun(calls)[i].end <= calls[|calls| - 1].at
  {
    if calls == [] {
      assert LiveRun(calls) == [];
    } else {
      var front, c := calls[..|calls| - 1], calls[|calls| - 1];
      EventsWithinSpan(front);
      forall i | 0 <= i < |LiveRun(calls)|
        ensures calls[0].at <= LiveRun(calls)[i].end <= c.at
      {
        if i < |LiveRun(front)| {
          assert LiveRun(calls)[i] == LiveRun(front)[i];
          assert front[0].at == calls[0].at && calls[|front| - 1].at <= c.at;
        } else {
          assert LiveRun(calls)[i].end == c.at;
        }
      }
    }
  }

  /** When anchors do not decrease, recorded events are pairwise more than thirty minutes apart. */
  lemma {:induction false} InOrderEventsAreSpaced(calls: seq<Call>)
    requires Ordered(calls)
    ensures Spaced(LiveRun(calls))
  {
    if calls != [] {
      var front, c := calls[..|calls| - 1], calls[|calls| - 1];
      InOrderEventsAreSpaced(front);
      EventsWithinSpan(front);
      var events := LiveRun(front);
      if Look(c.entries, events, c.at).Some? {
        forall i | 0 <= i < |events|
          ensures events[i].end + WINDOW < c.at
        {
          UncoveredIsFar(events, c.at, i);
        }
      }
    }
  }

  lemma {:induction false} SpacedCount(events: seq<Detected>)
    requires Spaced(events) && events != []
    ensures (|events| - 1) * WINDOW <= events[|events| - 1].end - events[0].end
  {
    if |events| > 1 {
      SpacedCount(events[..|events| - 1]);
    }
  }

  lemma {:induction false} AtMostQuotient(k: int, n: int)
    requires k * WINDOW <= n
    ensures k <= n / WINDOW
  {
  }

  /** Hence at most one event per thirty minutes of the span, plus one. */
  lemma {:induction false} EventsPerSpan(calls: seq<Call>)
    requires Ordered(calls) && calls != []
    ensures |LiveRun(calls)| <= (calls[|calls| - 1].at - calls[0].at) / WINDOW + 1
  {
    var events := LiveRun(calls);
    InOrderEventsAreSpaced(calls);
    EventsWithinSpan(calls);
    if events != [] {
      SpacedCount(events);
      AtMostQuotient(|events| - 1, calls[|calls| - 1].at - calls[0].at);
    }
  }

  // ---- Live and batch on the same history.

  /** Opens arriving in order, each looked at against exactly the entries so far. The call's
      anchor is the entry time as it comes off the stream, cut to milliseconds. */
  function InOrder(ts: seq<int>, n: nat): seq<Call>
    requires n <= |ts|
  {
    seq(n, i requires 0 <= i < n => Call(ts[..i + 1], TruncateMs(ts[i])))
  }

  predicate Aligned(ts: seq<int>) {
    forall x :: x in ts ==> x % NS_PER_MS == 0
  }

  /** One aligned open: the live detector has the same entries in view as the batch window,
      and while nothing was detected before, it records exactly what a hot window would emit. */
  lemma {:induction false} FirstLook(ts: seq<int>, n: nat)
    requires Aligned(ts) && 0 < n <= |ts| && LiveRun(InOrder(ts, n - 1)) == []
    ensures LiveRun(InOrder(ts, n)) ==
      if Hot(ts, n - 1) then [Detected(ts[n - 1] - WINDOW, ts[n - 1], |WindowAt(ts, n - 1)|)] else []
  {
    assert InOrder(ts, n)[..n - 1] == InOrder(ts, n - 1);
    assert ts[n - 1] in ts;
    assert TruncateMs(ts[n - 1]) == ts[n - 1];
  }

  lemma {:induction false} NothingSeenYet(ts: seq<int>, k: nat)
    requires Aligned(ts) && k <= |ts|
    requires forall i :: 0 <= i < k ==> !Hot(ts, i)
    ensures LiveRun(InOrder(ts, k)) == []
  {
    if k > 0 {
      NothingSeenYet(ts, k - 1);
      FirstLook(ts, k);
    }
  }

  lemma {:induction false} SpikesExtend(ts: seq<int>, k: nat, n: nat)
    requires k <= n <= |ts|
    ensures Spikes(ts, k) <= Spikes(ts, n)
    decreases n - k
  {
    if k < n {
      SpikesExtend(ts, k, n - 1);
    }
  }

  ghost predicate FirstHot(ts: seq<int>, k: nat) {
    k < |ts| && Hot(ts, k) && forall i :: 0 <= i < k ==> !Hot(ts, i)
  }

  lemma {:induction false} OneSpike(ts: seq<int>, k: nat)
    requires FirstHot(ts, k)
    ensures Spikes(ts, k + 1) == [SpikeAt(ts, k)]
  {
    SpikesExist(ts, k);
  }

  lemma {:induction false} BatchReportsFirstHot(ts: seq<int>, k: nat)
    requires FirstHot(ts, k)
    ensures Spikes(ts, |ts|) != [] && Spikes(ts, |ts|)[0] == SpikeAt(ts, k)
  {
    OneSpike(ts, k);
    SpikesExtend(ts, k + 1, |ts|);
  }

  lemma {:induction false} OneLook(ts: seq<int>, k: nat)
    requires Aligned(ts) && FirstHot(ts, k)
    ensures LiveRun(InOrder(ts, k + 1)) == [SpikeAt(ts, k).(start := ts[k] - WINDOW)]
  {
    NothingSeenYet(ts, k);
    FirstLook(ts, k + 1);
  }

  lemma {:induction false} LiveReportsFirstHot(ts: seq<int>, k: nat)
    requires Aligned(ts) && FirstHot(ts, k)
    ensures LiveRun(InOrder(ts, |ts|)) != []
    ensures LiveRun(InOrder(ts, |ts|))[0] == SpikeAt(ts, k).(start := ts[k] - WINDOW)
  {
    OneLook(ts, k);
    assert InOrder(ts, |ts|)[..k + 1] == InOrder(ts, k + 1);
    RunsExtend(InOrder(ts, |ts|), k + 1);
  }

  /** On an in-order history of aligned opens (equal instants included) the live detector and the
      batch agree on whether the user overtraded and on the end and count of the first event. */
  lemma {:induction false} LiveAgreesWithBatch(ts: seq<int>)
    requires Sorted(ts) && Aligned(ts)
    ensures var live, batch := LiveRun(InOrder(ts, |ts|)), Spikes(ts, |ts|);
      && (live == [] <==> batch == [])
      && (live != [] ==> live[0].end == batch[0].end && live[0].count == batch[0].count == 11)
  {
    SpikesExist(ts, |ts|);
    if Spikes(ts, |ts|) == [] {
      NothingSeenYet(ts, |ts|);
    } else {
      var k := LeastHot(ts);
      BatchReportsFirstHot(ts, k);
      LiveReportsFirstHot(ts, k);
      SpikeCountIsEleven(ts, |ts|);
      assert Spikes(ts, |ts|)[0] in Spikes(ts, |ts|);
    }
  }

  lemma {:induction false} LeastHot(ts: seq<int>) returns (k: nat)
    requires exists i :: 0 <= i < |ts| && Hot(ts, i)
    ensures FirstHot(ts, k)
  {
    k := 0;
    while !Hot(ts, k)
      invariant k < |ts|
      invariant forall i :: 0 <= i < k ==> !Hot(ts, i)
      invariant exists i :: k <= i < |ts| && Hot(ts, i)
      decreases |ts| - k
    {
      k := k + 1;
    }
  }

  // ---- Exactly when the live detector reports.

  /** The call sees more than ten entries. */
  predicate Crowded(c: Call) {
    |Filter(c.entries, Covers(c.at))| > THRESHOLD
  }

  /** For any calls in any order, something is recorded exactly when some call is crowded. */
  lemma {:induction false} LiveReportsExactly(calls: seq<Call>)
    ensures LiveRun(calls) != [] <==> exists k :: 0 <= k < |calls| && Crowded(calls[k])
  {
    if calls == [] {
      assert LiveRun(calls) == [];
    } else {
      var front := calls[..|calls| - 1];
      LiveReportsExactly(front);
      if k :| 0 <= k < |calls| && Crowded(calls[k]) {
        EveryCrowdedCallIsCovered(calls, k);
      }
      if k :| 0 <= k < |front| && Crowded(front[k]) {
        assert calls[k] == front[k];
      }
    }
  }

  /** A trade as it arrives: its entry, and whether its event makes the worker look. A closed trade
      publishes its close instead, so nobody looks back from its entry. */
  datatype Arrival = Arrival(at: int, isOpen: bool)

  function Instants(hs: seq<Arrival>): seq<int> {
    seq(|hs|, i requires 0 <= i < |hs| => hs[i].at)
  }

  /** The calls that the first `n` arrivals cause, each made against the entries so far. */
  function Looks(hs: seq<Arrival>, n: nat): seq<Call>
    requires n <= |hs|
  {
    if n == 0 then []
    else
      Looks(hs, n - 1) + if hs[n - 1].isOpen then [Call(Instants(hs)[..n], TruncateMs(hs[n - 1].at))] else []
  }

  /** Entry `i` makes the worker look, and what it sees from the whole millisecond is a crowd. */
  predicate SeesCrowd(hs: seq<Arrival>, i: nat)
    requires i < |hs|
  {
    hs[i].isOpen && |Filter(Instants(hs)[..i + 1], Covers(TruncateMs(hs[i].at)))| > THRESHOLD
  }

  lemma {:induction false} CrowdedLooks(hs: seq<Arrival>, n: nat)
    requires n <= |hs|
    ensures (exists k :: 0 <= k < |Looks(hs, n)| && Crowded(Looks(hs, n)[k])) <==>
      exists i :: 0 <= i < n && SeesCrowd(hs, i)
  {
    if n > 0 {
      var front, all := Looks(hs, n - 1), Looks(hs, n);
      CrowdedLooks(hs, n - 1);
      if k :| 0 <= k < |front| && Crowded(front[k]) {
        assert all[k] == front[k];
      }
      if hs[n - 1].isOpen {
        assert all[|front|] == Call(Instants(hs)[..n], TruncateMs(hs[n - 1].at));
      }
      if k :| 0 <= k < |all| && Crowded(all[k]) {
        if k < |front| {
          assert front[k] == all[k];
        } else {
          assert SeesCrowd(hs, n - 1);
        }
      }
    }
  }

  /** The exact law, for any arrivals, aligned or not, in any order: the live detector reports
      exactly when some opened entry, cut to its millisecond, sees more than ten of the entries so
      far in the thirty minutes up to it. */
  lemma {:induction false} LiveSeesExactly(hs: seq<Arrival>)
    ensures LiveRun(Looks(hs, |hs|)) != [] <==> exists i :: 0 <= i < |hs| && SeesCrowd(hs, i)
  {
    LiveReportsExactly(Looks(hs, |hs|));
    CrowdedLooks(hs, |hs|);
  }

  /** It never over-reports: what it reports is crowded in the batch's eyes too. */
  lemma {:induction false} LiveNeverOverReports(hs: seq<Arrival>)
    requires LiveRun(Looks(hs, |hs|)) != []
    ensures exists s :: |Filter(Instants(hs), StartingAt(s))| > THRESHOLD
    ensures Sorted(Instants(hs)) ==> Spikes(Instants(hs), |hs|) != []
  {
    LiveSeesExactly(hs);
    var i :| 0 <= i < |hs| && SeesCrowd(hs, i);
    var ts, at := Instants(hs), TruncateMs(hs[i].at);
    assert ts == ts[..i + 1] + ts[i + 1..];
    FilterAppend(ts[..i + 1], ts[i + 1..], StartingAt(at - WINDOW));
    FilterShrinks(ts[..i + 1], Covers(at), StartingAt(at - WINDOW));
    if Sorted(ts) {
      AnchoredWindowsSuffice(ts);
    }
  }

  /** The histories of `InOrder`, where every entry is looked at, as a special case. */
  lemma {:induction false} InOrderReportsExactly(ts: seq<int>)
    ensures LiveRun(InOrder(ts, |ts|)) != [] <==>
      exists i :: 0 <= i < |ts| && |Filter(ts[..i + 1], Covers(TruncateMs(ts[i])))| > THRESHOLD
  {
    var calls := InOrder(ts, |ts|);
    LiveReportsExactly(calls);
    forall i | 0 <= i < |ts|
      ensures Crowded(calls[i]) <==> |Filter(ts[..i + 1], Covers(TruncateMs(ts[i])))| > THRESHOLD
    {
      assert calls[i] == Call(ts[..i + 1], TruncateMs(ts[i]));
    }
    if i :| 0 <= i < |ts| && |Filter(ts[..i + 1], Covers(TruncateMs(ts[i])))| > THRESHOLD {
      assert Crowded(calls[i]);
    }
  }

  /** Entries of closed trades only are never looked at, however many there are; the batch counts
      them. */
  lemma {:induction false} ClosedEntriesAreNotSeen(hs: seq<Arrival>)
    requires forall i :: 0 <= i < |hs| ==> !hs[i].isOpen
    ensures LiveRun(Looks(hs, |hs|)) == []
  {
    LiveSeesExactly(hs);
  }

  function Repeat(x: int, n: nat): seq<int> {
    seq(n, _ => x)
  }

  lemma {:induction false} InstantRepeated(x: int, at: int, n: nat)
    ensures |Filter(Repeat(x, n), Covers(at))| == if Covers(at)(x) then n else 0
  {
    if Covers(at)(x) {
      FilterAll(Repeat(x, n), Covers(at));
    } else {
      FilterNone(Repeat(x, n), Covers(at));
    }
  }

  /** Alignment is needed: eleven opens at one instant are detected live exactly when that instant
      is a whole millisecond, because the cut anchor lies before the entries. The batch detects them always. */
  lemma {:induction false} UnalignedOpensAreMissed(x: int)
    ensures Spikes(Repeat(x, 11), 11) != []
    ensures LiveRun(InOrder(Repeat(x, 11), 11)) != [] <==> x % NS_PER_MS == 0
  {
    var ts := Repeat(x, 11);
    assert ts[..11] == ts;
    InstantRepeated(x, x, 11);
    SpikesExist(ts, 11);
    assert Hot(ts, 10);
    if x % NS_PER_MS == 0 {
      assert Sorted(ts) && Aligned(ts);
      LiveAgreesWithBatch(ts);
    } else {
      NothingSeen(x, 11);
    }
  }

  lemma {:induction false} NothingSeen(x: int, n: nat)
    requires x % NS_PER_MS != 0 && n <= 11
    ensures LiveRun(InOrder(Repeat(x, 11), n)) == []
  {
    if n > 0 {
      NothingSeen(x, n - 1);
      assert InOrder(Repeat(x, 11), n)[..n - 1] == InOrder(Repeat(x, 11), n - 1);
      assert Repeat(x, 11)[..n] == Repeat(x, n);
      InstantRepeated(x, TruncateMs(x), n);
    }
  }
}
