/**
 * `scan`: resolve the session once, fetch every ticker of the universe in
 * order, keep the snapshots the filter admits and the classifier does not
 * ignore, annotate them with signal and score, and stable-sort the survivors
 * by `percent_change or -9999`, largest first.
 */
module ScanOrchestrator {
  import opened Wrappers
  import opened Screener
  import StableSort

  /** A snapshot that survived the scan, with the `signal` and `breakout_score` keys added. */
  datatype Row = Row(snap: Snapshot, signal: Signal, breakoutScore: int)

  /** What `percent_change or -9999` yields for a missing or zero change. */
  const Sentinel: real := -9999.0

  /** The sort key: the percent change, except that a missing or zero one sorts as -9999. */
  function SortKey(r: Row): (k: real)
    ensures Truthy(r.snap.percentChange) ==> k == r.snap.percentChange.value
    ensures !Truthy(r.snap.percentChange) ==> k == Sentinel
  {
    if Truthy(r.snap.percentChange) then r.snap.percentChange.value else Sentinel
  }

  /** What one ticker contributes to the scan: a row, or nothing. */
  function RowFor(ticker: string, session: string, limits: Thresholds,
                  provider: string -> Option<RawQuote>): (r: Option<Row>)
    ensures r.Some? <==>
      && provider(ticker).Some?
      && Admits(Derive(ticker, session, provider(ticker).value), session, limits)
      && Classify(Derive(ticker, session, provider(ticker).value), limits) != Ignore
    ensures r.Some? ==>
      && r.value.snap == Derive(ticker, session, provider(ticker).value)
      && r.value.signal == Classify(r.value.snap, limits)
      && r.value.breakoutScore == BreakoutScore(r.value.snap)
  {
    match FetchSnapshot(ticker, session, provider)
    case None => None
    case Some(snap) =>
      if Admits(snap, session, limits) then
        var sig := Classify(snap, limits);
        if sig != Ignore then Some(Row(snap, sig, BreakoutScore(snap))) else None
      else None
  }

  /** The rows the loop of `scan` collects, in universe order. */
  function Survivors(universe: seq<string>, session: string, limits: Thresholds,
                     provider: string -> Option<RawQuote>): (r: seq<Row>)
    ensures |r| <= |universe|
  {
    if universe == [] then []
    else
      var init := universe[..|universe| - 1];
      Survivors(init, session, limits, provider)
      + match RowFor(universe[|universe| - 1], session, limits, provider)
        case Some(row) => [row]
        case None => []
  }

  /** What `scan` returns. */
  function ScanResult(universe: seq<string>, requested: Option<string>, clock: real,
                      limits: Thresholds, provider: string -> Option<RawQuote>): (r: seq<Row>)
    ensures |r| <= |universe|
  {
    var session := ResolveSession(requested, clock);
    StableSort.SortDesc(Survivors(universe, session, limits, provider), SortKey)
  }

  /**
   * `scan` with the clock's reading `clock` (minutes since midnight US/Eastern)
   * and the market-data provider as parameters.
   */
  method Scan(universe: seq<string>, requested: Option<string>, clock: real,
              limits: Thresholds, provider: string -> Option<RawQuote>) returns (rows: seq<Row>)
    ensures rows == ScanResult(universe, requested, clock, limits, provider)
  {
    var session := ResolveSession(requested, clock);
    var results: seq<Row> := [];
    for i := 0 to |universe|
      invariant results == Survivors(universe[..i], session, limits, provider)
    {
      assert universe[..i + 1][..i] == universe[..i];
      var snap := FetchSnapshot(universe[i], session, provider);
      if snap.None? {
        continue;
      }
      if Admits(snap.value, session, limits) {
        var sig := Classify(snap.value, limits);
        if sig != Ignore {
          results := results + [Row(snap.value, sig, BreakoutScore(snap.value))];
        }
      }
    }
    assert universe[..|universe|] == universe;
    rows := StableSort.SortDesc(results, SortKey);
  }

  /** Every survivor is the row of some ticker of the universe. */
  lemma {:induction false} SurvivorsSound(universe: seq<string>, session: string, limits: Thresholds,
                                          provider: string -> Option<RawQuote>, r: Row)
    requires r in Survivors(universe, session, limits, provider)
    ensures exists i :: 0 <= i < |universe| && RowFor(universe[i], session, limits, provider) == Some(r)
  {
    var n := |universe|;
    var init := universe[..n - 1];
    if r in Survivors(init, session, limits, provider) {
      SurvivorsSound(init, session, limits, provider, r);
      var i :| 0 <= i < |init| && RowFor(init[i], session, limits, provider) == Some(r);
      assert universe[i] == init[i];
    } else {
      assert RowFor(universe[n - 1], session, limits, provider) == Some(r);
    }
  }

  /** Every ticker of the universe that yields a row has it among the survivors. */
  lemma {:induction false} SurvivorsComplete(universe: seq<string>, session: string, limits: Thresholds,
                                             provider: string -> Option<RawQuote>, i: nat)
    requires i < |universe| && RowFor(universe[i], session, limits, provider).Some?
    ensures RowFor(universe[i], session, limits, provider).value in Survivors(universe, session, limits, provider)
  {
    var n := |universe|;
    var init := universe[..n - 1];
    if i < n - 1 {
      assert init[i] == universe[i];
      SurvivorsComplete(init, session, limits, provider, i);
    }
  }

  /**
   * Each entry of a scan came from a ticker of the universe whose fetch
   * returned a snapshot that the filter admits; it carries the resolved
   * session, a percent change, a BUY or WATCH signal from the classifier and
   * the breakout score of its snapshot.
   */
  lemma ScanEntriesSound(universe: seq<string>, requested: Option<string>, clock: real,
                         limits: Thresholds, provider: string -> Option<RawQuote>, r: Row)
    requires r in ScanResult(universe, requested, clock, limits, provider)
    ensures var session := ResolveSession(requested, clock);
      && (exists i :: 0 <= i < |universe| && provider(universe[i]).Some?
                      && r.snap == Derive(universe[i], session, provider(universe[i]).value))
      && Admits(r.snap, session, limits)
      && r.snap.session == session
      && r.snap.percentChange.Some? && r.snap.price.Some?
      && (r.signal == Buy || r.signal == Watch)
      && r.signal == Classify(r.snap, limits)
      && r.breakoutScore == BreakoutScore(r.snap)
  {
    var session := ResolveSession(requested, clock);
    var survivors := Survivors(universe, session, limits, provider);
    assert multiset(ScanResult(universe, requested, clock, limits, provider)) == multiset(survivors);
    assert r in multiset(survivors);
    SurvivorsSound(universe, session, limits, provider, r);
  }

  /** No ticker that yields a row is lost by the scan. */
  lemma ScanComplete(universe: seq<string>, requested: Option<string>, clock: real,
                     limits: Thresholds, provider: string -> Option<RawQuote>, i: nat)
    requires i < |universe|
    requires RowFor(universe[i], ResolveSession(requested, clock), limits, provider).Some?
    ensures RowFor(universe[i], ResolveSession(requested, clock), limits, provider).value
            in ScanResult(universe, requested, clock, limits, provider)
  {
    var session := ResolveSession(requested, clock);
    var survivors := Survivors(universe, session, limits, provider);
    SurvivorsComplete(universe, session, limits, provider, i);
    assert multiset(ScanResult(universe, requested, clock, limits, provider)) == multiset(survivors);
    assert RowFor(universe[i], session, limits, provider).value in multiset(survivors);
  }

  /**
   * The scan's output is the survivors reordered: a permutation of them, in
   * non-increasing order of the sort key, with the survivors of each key in
   * universe order.
   */
  lemma ScanOrdered(universe: seq<string>, requested: Option<string>, clock: real,
                    limits: Thresholds, provider: string -> Option<RawQuote>, k: real)
    ensures var survivors := Survivors(universe, ResolveSession(requested, clock), limits, provider);
      var rows := ScanResult(universe, requested, clock, limits, provider);
      && multiset(rows) == multiset(survivors)
      && StableSort.SortedDesc(rows, SortKey)
      && StableSort.WithKey(rows, SortKey, k) == StableSort.WithKey(survivors, SortKey, k)
  {
    var survivors := Survivors(universe, ResolveSession(requested, clock), limits, provider);
    StableSort.SortDescStable(survivors, SortKey, k);
  }

  /**
   * The classifier's BUY does not reach the output on its own: a universe whose
   * only ticker quotes a BUY with a market cap over the maximum scans to nothing.
   */
  lemma CappedBuyNotScanned(clock: real, provider: string -> Option<RawQuote>)
    requires provider("ABC") == Some(CappedBuyQuote())
    ensures Classify(Derive("ABC", REG, CappedBuyQuote()), Defaults) == Buy
    ensures ScanResult(["ABC"], Some(REG), clock, Defaults, provider) == []
  {
    ClassifyDoesNotImplyAdmitsAt();
    assert !Admits(Derive("ABC", REG, CappedBuyQuote()), REG, Defaults);
    assert RowFor("ABC", REG, Defaults, provider).None?;
    assert ["ABC"][..0] == [];
    assert Survivors(["ABC"], REG, Defaults, provider) == [];
  }
}
