/** The trade record, the fields the server derives for it, and the event it publishes. */
module Trades {
  import opened Prelude
  import opened Codec

  datatype Direction = Long | Short
  datatype Status = Open | Shut | Cancelled
  datatype Outcome = Win | Loss
  datatype Emotion = Calm | Anxious | Greedy | Fearful | Neutral

  datatype TradeInput = TradeInput(
    id: Uuid, user: Uuid, session: Uuid, direction: Direction,
    entryPrice: real, exitPrice: Option<real>, quantity: real,
    entryAt: int, exitAt: Option<int>, status: Status,
    plan: Option<int>, emotion: Option<Emotion>)

  /** A stored row. The revenge flag is a column of its own and is kept apart from the row. */
  datatype Trade = Trade(input: TradeInput, outcome: Option<Outcome>, pnl: Option<real>)
  {
    predicate ClosedBy(u: Uuid) {
      input.status == Shut && input.user == u
    }
  }

  // ---- Rounding to eight decimals, over exact reals.

  const SCALE := 100_000_000.0
  const HALF_UNIT := 0.000_000_005
  const INT64_LIMIT := 0x8000_0000_0000_0000

  /** Go's conversion from a floating-point value to an integer drops the fraction. */
  function Truncate(x: real): int {
    if x >= 0.0 then x.Floor else -(-x).Floor
  }

  function Sign(x: real): real {
    if x < 0.0 then -1.0 else 1.0
  }

  function ScaledUnits(x: real): int {
    Truncate(x * SCALE + 0.5 * Sign(x))
  }

  function Round8(x: real): real {
    ScaledUnits(x) as real / SCALE
  }

  lemma {:induction false} ScaledSpread(x: real)
    ensures -0.5 <= ScaledUnits(x) as real - x * SCALE <= 0.5
  {
  }

  /** Rounding moves a value by at most half of the last kept place. */
  lemma {:induction false} Round8Near(x: real)
    ensures -HALF_UNIT <= Round8(x) - x <= HALF_UNIT
  {
    ScaledSpread(x);
    var d := ScaledUnits(x) as real - x * SCALE;
    assert Round8(x) - x == d / SCALE;
  }

  lemma {:induction false} Round8Odd(x: real)
    ensures Round8(-x) == -Round8(x)
  {
    assert -x * SCALE == -(x * SCALE);
    assert ScaledUnits(-x) == -ScaledUnits(x);
  }

  lemma {:induction false} Round8Monotone(x: real, y: real)
    requires x <= y
    ensures Round8(x) <= Round8(y)
  {
    assert x * SCALE <= y * SCALE;
    assert ScaledUnits(x) <= ScaledUnits(y);
  }

  /** Whole units are fixed points, so rounding twice is rounding once. */
  lemma {:induction false} Round8Idempotent(x: real)
    ensures Round8(Round8(x)) == Round8(x)
  {
    var n := ScaledUnits(x);
    assert Round8(x) * SCALE == n as real;
    assert ScaledUnits(Round8(x)) == n;
  }

  /** `n` is the whole number nearest to `y`; of two equally near ones, the one further from zero. */
  predicate Nearest(n: int, y: real) {
    && -0.5 <= n as real - y <= 0.5
    && (n as real - y == 0.5 ==> n > 0)
    && (n as real - y == -0.5 ==> n < 0)
  }

  /** Rounding half away from zero to the eighth place: the rounded value is `n` units of that
      place exactly for the nearest whole number `n` of them. */
  lemma {:induction false} Round8Exactly(x: real, n: int)
    ensures Round8(x) == n as real / 100_000_000.0 <==> Nearest(n, x * 100_000_000.0)
  {
    var m, y := ScaledUnits(x), x * SCALE;
    assert Nearest(m, y);
    if Nearest(n, y) {
      assert -1.0 <= (n - m) as real <= 1.0;
    }
    assert Round8(x) * SCALE == m as real;
    assert n as real / SCALE * SCALE == n as real;
  }

  /** Every amount that a NUMERIC(18, 8) column can hold fits the 64-bit conversion;
      the conversion overflows exactly when the shifted value leaves the open interval (-2^63 - 1, 2^63). */
  lemma {:induction false} Round8Fits(x: real)
    ensures -10_000_000_000.0 < x < 10_000_000_000.0 ==> -INT64_LIMIT <= ScaledUnits(x) < INT64_LIMIT
    ensures -INT64_LIMIT <= ScaledUnits(x) < INT64_LIMIT <==>
      -(INT64_LIMIT as real) - 1.0 < x * SCALE + 0.5 * Sign(x) < INT64_LIMIT as real
  {
  }

  // ---- Derived columns.

  function RawPnl(entry: real, exit: real, quantity: real, d: Direction): real {
    (if d == Short then -(exit - entry) else exit - entry) * quantity
  }

  function Derive(in_: TradeInput): (Option<real>, Option<Outcome>) {
    if in_.status != Shut || in_.exitPrice.None? then (None, None)
    else
      var p := Round8(RawPnl(in_.entryPrice, in_.exitPrice.value, in_.quantity, in_.direction));
      (Some(p), Some(if p < 0.0 then Loss else Win))
  }

  function Flip(d: Direction): Direction {
    if d == Long then Short else Long
  }

  lemma {:induction false} RoundedNegative(p: real)
    ensures Round8(p) < 0.0 <==> p <= -HALF_UNIT
  {
    assert p <= -HALF_UNIT <==> p * SCALE <= -0.5;
    assert ScaledUnits(p) < 0 <==> p * SCALE <= -0.5;
  }

  /** A closed trade is a loss exactly when the unrounded PnL is half a unit below zero or less;
      both columns are set exactly when the trade is closed and has an exit price. */
  lemma {:induction false} DeriveOutcome(in_: TradeInput)
    ensures Derive(in_).0.Some? <==> in_.status == Shut && in_.exitPrice.Some?
    ensures Derive(in_).1.Some? <==> Derive(in_).0.Some?
    ensures Derive(in_).1.Some? ==>
      var entry, exit := in_.entryPrice, in_.exitPrice.value;
      var gain := if in_.direction == Long then exit - entry else entry - exit;
      Derive(in_).1.value == Loss <==> gain * in_.quantity <= -0.000_000_005
  {
    if in_.status == Shut && in_.exitPrice.Some? {
      RoundedNegative(RawPnl(in_.entryPrice, in_.exitPrice.value, in_.quantity, in_.direction));
    }
  }

  /** The opposite position earns the opposite amount, and its outcome is opposite
      exactly when the amount is not rounded to zero: a trade that breaks even is a win both ways. */
  lemma {:induction false} DeriveFlipped(in_: TradeInput)
    requires Derive(in_).0.Some?
    ensures var other := Derive(in_.(direction := Flip(in_.direction)));
      && other.0 == Some(-Derive(in_).0.value)
      && (other.1 == Derive(in_).1 <==> Derive(in_).0.value == 0.0)
      && (Derive(in_).0.value == 0.0 ==> other.1 == Some(Win))
  {
    var p := RawPnl(in_.entryPrice, in_.exitPrice.value, in_.quantity, in_.direction);
    assert RawPnl(in_.entryPrice, in_.exitPrice.value, in_.quantity, Flip(in_.direction)) == -p;
    Round8Odd(p);
  }

  // ---- The row that an insert stores, and its event.

  function RowOf(in_: TradeInput): Trade {
    Trade(in_, Derive(in_).1, Derive(in_).0)
  }

  /** What an insert stores, in the columns of the submission: the submission itself, and for a closed
      trade the gain to eight places, which a short position makes when the price falls. It is a loss
      exactly when that gain is at most half a unit below zero. No other trade has either column. */
  lemma {:induction false} StoredAmounts(in_: TradeInput)
    ensures RowOf(in_).input == in_
    ensures in_.status != Shut || in_.exitPrice == None ==> RowOf(in_).pnl == None && RowOf(in_).outcome == None
    ensures in_.status == Shut && in_.exitPrice.Some? ==>
      var change := in_.exitPrice.value - in_.entryPrice;
      var gain := match in_.direction case Long => change * in_.quantity case Short => -change * in_.quantity;
      && RowOf(in_).pnl.Some? && -0.000_000_005 <= RowOf(in_).pnl.value - gain <= 0.000_000_005
      && RowOf(in_).outcome == Some(if gain <= -0.000_000_005 then Loss else Win)
  {
    if in_.status == Shut && in_.exitPrice.Some? {
      var p := RawPnl(in_.entryPrice, in_.exitPrice.value, in_.quantity, in_.direction);
      Round8Near(p);
      RoundedNegative(p);
    }
  }

  /** The table constraint: a closed trade has an exit time and an exit price. */
  predicate Storable(in_: TradeInput) {
    in_.status == Shut ==> in_.exitAt.Some? && in_.exitPrice.Some?
  }

  function EventFor(t: Trade): Event {
    var closed := t.input.status == Shut && t.input.exitAt.Some?;
    Event(if closed then TRADE_CLOSED else TRADE_OPENED,
          UuidText(t.input.id), UuidText(t.input.user), UuidText(t.input.session),
          if closed then t.input.exitAt.value else t.input.entryAt)
  }

  /** The notice that the worker publishes for a detected window. */
  function OvertradingEvent(user: Uuid, end: int): Event {
    Event(OVERTRADING_DETECTED, "", UuidText(user), "", end)
  }

  /** What the consumer makes of a trade's event: the right identifiers and, for a trade
      that is not closed (a cancelled one too), its entry time cut to milliseconds.
      It is discarded as undecodable exactly when the UTC year does not have four digits;
      it is never malformed. */
  lemma {:induction false} EventForReceived(t: Trade)
    requires Storable(t.input)
    ensures Classify(Encode(EventFor(t))) ==
      if !FourDigitYear(if t.input.status == Shut then t.input.exitAt.value else t.input.entryAt) then Undecodable
      else if t.input.status == Shut then Closed(t.input.id, t.input.user, t.input.session)
      else Opened(t.input.id, t.input.user, TruncateMs(t.input.entryAt))
  {
    EventRoundTrip(EventFor(t));
    UuidRoundTrip(t.input.id);
    UuidRoundTrip(t.input.user);
    UuidRoundTrip(t.input.session);
    KindsDiffer();
  }

  /** The stream entry of a trade, field by field: the name of its event, its three ids, and the text of
      its exit time if it is closed and of its entry time if not. */
  lemma {:induction false} EntryOfTrade(t: Trade)
    requires Storable(t.input)
    ensures var v := Encode(EventFor(t));
      && v.Keys == {"type", "tradeId", "userId", "sessionId", "occurredAt"}
      && v["type"] == (if t.input.status == Shut then "trade.closed" else "trade.opened")
      && ParseUuid(v["tradeId"]) == Some(t.input.id) && ParseUuid(v["userId"]) == Some(t.input.user)
      && ParseUuid(v["sessionId"]) == Some(t.input.session)
      && v["occurredAt"] == TimeText(if t.input.status == Shut then t.input.exitAt.value else t.input.entryAt)
  {
    UuidRoundTrip(t.input.id);
    UuidRoundTrip(t.input.user);
    UuidRoundTrip(t.input.session);
    KeysDiffer();
  }

  /** What a reader of the stream makes of a notice: the user and the end of the window, cut to
      milliseconds. */
  lemma {:induction false} OvertradingEventReceived(user: Uuid, end: int)
    ensures Classify(Encode(OvertradingEvent(user, end))) == if FourDigitYear(end) then Notice else Undecodable
    ensures FourDigitYear(end) ==>
      var read := Decode(Encode(OvertradingEvent(user, end)));
      && read.Some? && read.value.kind == "overtrading.detected"
      && ParseUuid(read.value.userId) == Some(user) && read.value.occurredAt == TruncateMs(end)
  {
    EventRoundTrip(OvertradingEvent(user, end));
    UuidRoundTrip(user);
    KindsDiffer();
  }
}
