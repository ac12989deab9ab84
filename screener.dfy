/**
 * The screening policy of the penny-stock screener: market-session resolution,
 * derivation of a quote snapshot from the provider's raw fields, the breakout
 * score, the BUY/WATCH/IGNORE classifier and the admission filter.
 *
 * Every quantity is a `real`; Python's `None` is `Option.None`. Where the source
 * tests a value for truthiness, a zero counts as absent, and the model says so.
 */
module Screener {
  import opened Wrappers

  // ---------------------------------------------------------------------------
  // Sessions
  // ---------------------------------------------------------------------------

  const PRE: string := "PRE"
  const REG: string := "REG"
  const POST: string := "POST"
  /** The caller's request to resolve the session from the clock. */
  const AUTO: string := "AUTO"

  /** Boundaries, in minutes since midnight US/Eastern. */
  const RegularOpen: real := 570.0     // 09:30
  const RegularClose: real := 960.0    // 16:00
  const ExtendedClose: real := 1200.0  // 20:00

  /**
   * The session at time of day `t` (minutes since midnight US/Eastern).
   * The after-hours window is tested first, so 16:00 itself is POST; every
   * time after 20:00 falls through to the final POST as well.
   */
  function SessionAt(t: real): (r: string)
    ensures r == PRE <==> t < RegularOpen
    ensures r == REG <==> RegularOpen <= t < RegularClose
    ensures r == POST <==> RegularClose <= t
  {
    if RegularClose <= t <= ExtendedClose then POST
    else if t < RegularOpen then PRE
    else if t <= RegularClose then REG
    else POST
  }

  /**
   * The session a scan runs in: `None` or "AUTO" is resolved from the clock,
   * anything else is taken as given, even a string that names no session.
   */
  function ResolveSession(requested: Option<string>, t: real): (r: string)
    ensures requested.None? || requested == Some(AUTO) ==> r == SessionAt(t)
    ensures requested.Some? && requested != Some(AUTO) ==> r == requested.value
  {
    if requested.None? || requested.value == AUTO then SessionAt(t) else requested.value
  }

  // ---------------------------------------------------------------------------
  // Snapshots
  // ---------------------------------------------------------------------------

  /**
   * The provider's fields for one ticker after `_safe_float`: previous close,
   * last price, market capitalisation, day volume and ten-day average volume.
   */
  datatype RawQuote = RawQuote(
    prevClose: Option<real>,
    lastPrice: Option<real>,
    marketCap: Option<real>,
    dayVolume: Option<real>,
    tenDayAverageVolume: Option<real>)

  /** One ticker's point-in-time data, as `fetch_snapshot` returns it. */
  datatype Snapshot = Snapshot(
    ticker: string,
    price: Option<real>,
    prevClose: Option<real>,
    percentChange: Option<real>,
    volume: Option<int>,
    marketCap: Option<real>,
    relVolume: Option<real>,
    session: string)

  /** Python truthiness of an optional number: present and non-zero. */
  predicate Truthy(x: Option<real>) {
    x.Some? && x.value != 0.0
  }

  /** Python's `int(x)` on a float: truncation toward zero. */
  function TruncateTowardZero(x: real): (r: int)
    ensures 0.0 <= x ==> 0 <= r && r as real <= x < r as real + 1.0
    ensures x < 0.0 ==> r <= 0 && r as real - 1.0 < x <= r as real
  {
    if 0.0 <= x then x.Floor else -((-x).Floor)
  }

  /**
   * The invariant every snapshot keeps: a percent change exists only beside a
   * price and a non-zero previous close, and a relative volume only beside a
   * volume.
   */
  predicate WellFormed(s: Snapshot) {
    && (s.percentChange.Some? ==> s.price.Some? && s.prevClose.Some? && s.prevClose.value != 0.0)
    && (s.relVolume.Some? ==> s.volume.Some?)
  }

  /** The pure part of `fetch_snapshot`: the snapshot built from a raw quote. */
  function Derive(ticker: string, session: string, q: RawQuote): (r: Snapshot)
    ensures WellFormed(r)
    ensures r.ticker == ticker && r.session == session
    ensures r.price == q.lastPrice && r.prevClose == q.prevClose && r.marketCap == q.marketCap
    ensures r.percentChange.Some? <==> Truthy(q.prevClose) && Truthy(q.lastPrice)
    // the percent change is the move that takes the previous close to the price
    ensures r.percentChange.Some? ==>
      r.prevClose.value * (1.0 + r.percentChange.value / 100.0) == r.price.value
    ensures r.relVolume.Some? <==>
      Truthy(q.tenDayAverageVolume) && Truthy(q.dayVolume) && q.tenDayAverageVolume.value > 0.0
    // the relative volume is the day volume measured in ten-day averages
    ensures r.relVolume.Some? ==>
      r.relVolume.value * q.tenDayAverageVolume.value == q.dayVolume.value
    ensures r.volume.Some? <==> q.dayVolume.Some?
    ensures r.volume.Some? && 0.0 <= q.dayVolume.value ==>
      0 <= r.volume.value && r.volume.value as real <= q.dayVolume.value < r.volume.value as real + 1.0
  {
    var percentChange :=
      if Truthy(q.prevClose) && Truthy(q.lastPrice)
      then Some((q.lastPrice.value - q.prevClose.value) / q.prevClose.value * 100.0)
      else None;
    var relVolume :=
      if Truthy(q.tenDayAverageVolume) && Truthy(q.dayVolume)
      then (if q.tenDayAverageVolume.value > 0.0
            then Some(q.dayVolume.value / q.tenDayAverageVolume.value)
            else None)
      else None;
    var volume := if q.dayVolume.Some? then Some(TruncateTowardZero(q.dayVolume.value)) else None;
    Snapshot(ticker, q.lastPrice, q.prevClose, percentChange, volume, q.marketCap, relVolume, session)
  }

  /** `fetch_snapshot`, with the provider as an oracle that answers `None` on any error. */
  function FetchSnapshot(ticker: string, session: string, provider: string -> Option<RawQuote>): (r: Option<Snapshot>)
    ensures r.Some? <==> provider(ticker).Some?
    ensures r.Some? ==> r.value.ticker == ticker && r.value.session == session && WellFormed(r.value)
    ensures r.Some? ==> r.value == Derive(ticker, session, provider(ticker).value)
  {
    match provider(ticker)
    case None => None
    case Some(q) => Some(Derive(ticker, session, q))
  }

  // ---------------------------------------------------------------------------
  // Breakout score
  // ---------------------------------------------------------------------------

  /** Python's `min` and `max` on two numbers. */
  function Min(x: real, y: real): (r: real)
    ensures r <= x && r <= y && (r == x || r == y)
  {
    if x <= y then x else y
  }

  function Max(x: real, y: real): (r: real)
    ensures r >= x && r >= y && (r == x || r == y)
  {
    if x >= y then x else y
  }

  /** `max(lo, min(x, hi))`. */
  function Clamp(x: real, lo: real, hi: real): (r: real)
    requires lo <= hi
    ensures lo <= r <= hi
    ensures lo <= x <= hi ==> r == x
    ensures hi < x ==> r == hi
    ensures x < lo ==> r == lo
  {
    Max(lo, Min(x, hi))
  }

  /** Python's `round` on a float: to the nearest integer, ties to the even one. */
  function RoundHalfEven(x: real): (r: int)
    ensures -0.5 <= r as real - x <= 0.5
    ensures r as real - x == 0.5 || x - r as real == 0.5 ==> r % 2 == 0
  {
    var f := x.Floor;
    var d := x - f as real;
    if d < 0.5 then f
    else if d > 0.5 then f + 1
    else if f % 2 == 0 then f
    else f + 1
  }

  /** Rounding never reverses the order of two numbers. */
  lemma RoundHalfEvenMonotone(x: real, y: real)
    requires x <= y
    ensures RoundHalfEven(x) <= RoundHalfEven(y)
  {
    var fx, fy := x.Floor, y.Floor;
    assert fx <= fy;
    if fx == fy {
      var dx, dy := x - fx as real, y - fy as real;
      assert dx <= dy;
    }
  }

  /** The fields the score and the classifier read, with `None` as 0. */
  function PercentOrZero(s: Snapshot): (r: real) { s.percentChange.GetOr(0.0) }
  function RelVolumeOrZero(s: Snapshot): (r: real) { s.relVolume.GetOr(0.0) }
  function PriceOrZero(s: Snapshot): (r: real) { s.price.GetOr(0.0) }

  /** The price band that earns the flat bonus. */
  predicate InBonusBand(price: real) { 0.50 <= price <= 2.00 }

  /**
   * The unrounded score: the move capped to [0, 50], ten times the relative
   * volume capped to [0, 3], and 10 more for a price in [0.50, 2.00].
   */
  function RawScore(s: Snapshot): (r: real)
    ensures 0.0 <= r <= 90.0
    ensures InBonusBand(PriceOrZero(s)) ==> 10.0 <= r
  {
    Clamp(PercentOrZero(s), 0.0, 50.0) * 1.0
    + Clamp(RelVolumeOrZero(s), 0.0, 3.0) * 10.0
    + (if InBonusBand(PriceOrZero(s)) then 10.0 else 0.0)
  }

  /** `breakout_score`: the raw score, capped at 100 and rounded. */
  function BreakoutScore(s: Snapshot): (r: int)
    ensures 0 <= r <= 90
    ensures -0.5 <= r as real - RawScore(s) <= 0.5
    ensures InBonusBand(PriceOrZero(s)) ==> 10 <= r
  {
    RoundHalfEven(Min(RawScore(s), 100.0))
  }

  /** A larger move never lowers the score, all else being equal. */
  lemma BreakoutScoreMonotoneInMove(s: Snapshot, move: real)
    requires PercentOrZero(s) <= move
    ensures BreakoutScore(s) <= BreakoutScore(s.(percentChange := Some(move)))
  {
    var t := s.(percentChange := Some(move));
    assert Clamp(PercentOrZero(s), 0.0, 50.0) <= Clamp(PercentOrZero(t), 0.0, 50.0);
    assert RawScore(s) <= RawScore(t);
    RoundHalfEvenMonotone(Min(RawScore(s), 100.0), Min(RawScore(t), 100.0));
  }

  /** A move beyond 50 percent earns nothing more. */
  lemma BreakoutScoreCapsMove(s: Snapshot, move: real)
    requires 50.0 <= PercentOrZero(s) && 50.0 <= move
    ensures BreakoutScore(s.(percentChange := Some(move))) == BreakoutScore(s)
  {
    var t := s.(percentChange := Some(move));
    assert Clamp(PercentOrZero(t), 0.0, 50.0) == 50.0 == Clamp(PercentOrZero(s), 0.0, 50.0);
    assert RawScore(t) == RawScore(s);
  }

  // ---------------------------------------------------------------------------
  // Thresholds, classifier and filter
  // ---------------------------------------------------------------------------

  /** The screening limits (`limits` in the source). */
  datatype Thresholds = Thresholds(
    priceMin: real,
    priceMax: real,
    pctMinRegular: real,
    pctMinPremarket: real,
    volMinRegular: real,
    volMinPremarket: real,
    mktcapMax: real,
    relVolMin: real)

  /** `DEFAULTS`. */
  const Defaults: Thresholds := Thresholds(
    priceMin := 0.50,
    priceMax := 3.00,
    pctMinRegular := 10.0,
    pctMinPremarket := 5.0,
    volMinRegular := 500000.0,
    volMinPremarket := 100000.0,
    mktcapMax := 300000000.0,
    relVolMin := 1.5)

  datatype Signal = Buy | Watch | Ignore

  predicate InPriceBand(price: real, limits: Thresholds) {
    limits.priceMin <= price <= limits.priceMax
  }

  /**
   * `classify_signal`: IGNORE outside the price band (a missing price being 0);
   * inside it BUY for a score of at least 75 with enough relative volume,
   * otherwise WATCH for a score of at least 55, otherwise IGNORE.
   */
  function Classify(s: Snapshot, limits: Thresholds): (r: Signal)
    ensures !InPriceBand(PriceOrZero(s), limits) ==> r == Ignore
    ensures r == Buy <==>
      InPriceBand(PriceOrZero(s), limits) && 75 <= BreakoutScore(s) && RelVolumeOrZero(s) >= limits.relVolMin
    ensures r == Watch <==>
      InPriceBand(PriceOrZero(s), limits) && 55 <= BreakoutScore(s)
      && !(75 <= BreakoutScore(s) && RelVolumeOrZero(s) >= limits.relVolMin)
    ensures r == Ignore <==> !InPriceBand(PriceOrZero(s), limits) || BreakoutScore(s) < 55
  {
    var score := BreakoutScore(s);
    var rv := RelVolumeOrZero(s);
    if InPriceBand(PriceOrZero(s), limits) then
      if score >= 75 && rv >= limits.relVolMin then Buy
      else if score >= 55 then Watch
      else Ignore
    else Ignore
  }

  /**
   * What a signal costs in market terms: anything but IGNORE needs a move of at
   * least 14.5 percent, and BUY one of at least 34.5 percent and a relative
   * volume of at least 1.45, whatever the limits.
   */
  lemma {:induction false} SignalNeedsMove(s: Snapshot, limits: Thresholds)
    ensures Classify(s, limits) != Ignore ==> PercentOrZero(s) >= 14.5
    ensures Classify(s, limits) == Buy ==> PercentOrZero(s) >= 34.5 && RelVolumeOrZero(s) >= 1.45
  {
    var pc := Clamp(PercentOrZero(s), 0.0, 50.0);
    var rv := Clamp(RelVolumeOrZero(s), 0.0, 3.0);
    assert RawScore(s) <= pc + rv * 10.0 + 10.0;
    if Classify(s, limits) != Ignore {
      assert RawScore(s) >= 54.5;
      assert pc >= 14.5;
    }
    if Classify(s, limits) == Buy {
      assert RawScore(s) >= 74.5;
      assert pc >= 34.5;
      assert rv >= 1.45;
    }
  }

  /** Volume as the filter reads it: `None` (or 0) is 0. */
  function VolumeOrZero(s: Snapshot): (r: int) { s.volume.GetOr(0) }

  /** The session-specific minima: the regular ones for "REG", the premarket ones for any other string. */
  function PctMin(session: string, limits: Thresholds): (r: real) {
    if session == REG then limits.pctMinRegular else limits.pctMinPremarket
  }

  function VolMin(session: string, limits: Thresholds): (r: real) {
    if session == REG then limits.volMinRegular else limits.volMinPremarket
  }

  /**
   * `filter_row`: rejects a snapshot without price or percent change; otherwise
   * admits it iff the price is in band, the move and the volume reach the
   * session's minima and the market cap is absent or within the maximum.
   */
  function Admits(s: Snapshot, session: string, limits: Thresholds): (r: bool)
    ensures r ==> s.price.Some? && s.percentChange.Some?
    ensures r <==>
      && s.price.Some? && s.percentChange.Some?
      && InPriceBand(s.price.value, limits)
      && s.percentChange.value >= (if session == REG then limits.pctMinRegular else limits.pctMinPremarket)
      && VolumeOrZero(s) as real >= (if session == REG then limits.volMinRegular else limits.volMinPremarket)
      && (s.marketCap.None? || s.marketCap.value <= limits.mktcapMax)
  {
    if s.price.None? || s.percentChange.None? then false
    else
      && InPriceBand(s.price.value, limits)
      && s.percentChange.value >= PctMin(session, limits)
      && VolumeOrZero(s) as real >= VolMin(session, limits)
      && (s.marketCap.None? || s.marketCap.value <= limits.mktcapMax)
  }

  /** Every session string other than "REG" is screened exactly as PRE is. */
  lemma NonRegularSessionsScreenAlike(s: Snapshot, session: string, limits: Thresholds)
    requires session != REG
    ensures Admits(s, session, limits) == Admits(s, PRE, limits)
    ensures Admits(s, session, limits) == Admits(s, POST, limits)
  {
  }

  /** A missing market cap never blocks admission: dropping it can only admit more. */
  lemma AbsentMarketCapNeverBlocks(s: Snapshot, session: string, limits: Thresholds)
    ensures Admits(s, session, limits) ==> Admits(s.(marketCap := None), session, limits)
    ensures s.price.Some? && s.percentChange.Some? ==>
      (Admits(s.(marketCap := None), session, limits) <==>
        && InPriceBand(s.price.value, limits)
        && s.percentChange.value >= PctMin(session, limits)
        && VolumeOrZero(s) as real >= VolMin(session, limits))
  {
  }

  /** A missing volume is screened as a volume of 0. */
  lemma AbsentVolumeIsZero(s: Snapshot, session: string, limits: Thresholds)
    ensures Admits(s.(volume := None), session, limits) == Admits(s.(volume := Some(0)), session, limits)
  {
  }

  /**
   * The classifier does not re-check the filter: it ignores the market cap and
   * the percent and volume minima, so a snapshot can be a BUY that the filter
   * rejects (here for a market cap over the maximum).
   */
  lemma ClassifyDoesNotImplyAdmits()
    ensures exists q: RawQuote :: Classify(Derive("ABC", REG, q), Defaults) == Buy
                               && !Admits(Derive("ABC", REG, q), REG, Defaults)
  {
    ClassifyDoesNotImplyAdmitsAt();
    var q := CappedBuyQuote();
    assert Classify(Derive("ABC", REG, q), Defaults) == Buy;
  }

  /** The witness: the snapshot of `CappedBuyQuote` is a BUY that the filter rejects. */
  lemma ClassifyDoesNotImplyAdmitsAt()
    ensures Classify(Derive("ABC", REG, CappedBuyQuote()), Defaults) == Buy
    ensures !Admits(Derive("ABC", REG, CappedBuyQuote()), REG, Defaults)
  {
    var q := CappedBuyQuote();
    var s := Derive("ABC", REG, q);
    assert s.percentChange == Some(40.0);
    assert s.relVolume == Some(2.8);
    assert RawScore(s) == 78.0;
    assert BreakoutScore(s) == 78;
    assert Classify(s, Defaults) == Buy;
  }

  /** A quote whose snapshot is a BUY on the defaults but whose market cap, 350M, is over the 300M maximum. */
  function CappedBuyQuote(): (q: RawQuote)
    ensures q.marketCap == Some(350000000.0)
  {
    RawQuote(Some(5.0 / 7.0), Some(1.0), Some(350000000.0), Some(1120000.0), Some(400000.0))
  }

  /**
   * Worked examples on the default limits in the regular session: a move of
   * 18 percent with relative volume 2.1 scores 49 and is ignored; 35 percent
   * with 2.5 scores 70, a WATCH; 40 percent with 2.8 at a price of 1.00 scores
   * 78, a BUY.
   */
  lemma WorkedExamples()
    ensures var s := Derive("ABC", REG, RawQuote(Some(60.0 / 59.0), Some(1.20), Some(50000000.0), Some(840000.0), Some(400000.0)));
      s.percentChange == Some(18.0) && s.relVolume == Some(2.1)
      && Admits(s, REG, Defaults) && BreakoutScore(s) == 49 && Classify(s, Defaults) == Ignore
    ensures var s := Derive("ABC", REG, RawQuote(Some(8.0 / 9.0), Some(1.20), Some(50000000.0), Some(1000000.0), Some(400000.0)));
      s.percentChange == Some(35.0) && s.relVolume == Some(2.5)
      && Admits(s, REG, Defaults) && BreakoutScore(s) == 70 && Classify(s, Defaults) == Watch
    ensures var s := Derive("ABC", REG, RawQuote(Some(5.0 / 7.0), Some(1.00), Some(50000000.0), Some(1120000.0), Some(400000.0)));
      s.percentChange == Some(40.0) && s.relVolume == Some(2.8)
      && Admits(s, REG, Defaults) && BreakoutScore(s) == 78 && Classify(s, Defaults) == Buy
  {
    var s1 := Derive("ABC", REG, RawQuote(Some(60.0 / 59.0), Some(1.20), Some(50000000.0), Some(840000.0), Some(400000.0)));
    assert s1.percentChange == Some(18.0);
    assert RawScore(s1) == 49.0;
    var s2 := Derive("ABC", REG, RawQuote(Some(8.0 / 9.0), Some(1.20), Some(50000000.0), Some(1000000.0), Some(400000.0)));
    assert s2.percentChange == Some(35.0);
    assert RawScore(s2) == 70.0;
    var s3 := Derive("ABC", REG, RawQuote(Some(5.0 / 7.0), Some(1.00), Some(50000000.0), Some(1120000.0), Some(400000.0)));
    assert s3.percentChange == Some(40.0);
    assert RawScore(s3) == 78.0;
  }
}
