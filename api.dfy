/**
 * The parts of the web application that carry policy: the JSON endpoint's
 * threshold overrides and session default, and one cycle of the background
 * alerts loop.
 */
module Api {
  import opened Wrappers
  import opened Screener
  import opened ScanOrchestrator
  import opened Alerts

  /** The query parameters that may override a limit, in the order they are applied. */
  const OverrideKeys: seq<string> :=
    ["price_min", "price_max", "pct_min_regular", "pct_min_premarket",
     "vol_min_regular", "vol_min_premarket", "mktcap_max"]

  /**
   * The numeric query parameters after `float()`: a name that is not a key was
   * not given, and `None` means `float()` rejected the text.
   */
  type Query = map<string, Option<real>>

  /** The limit named `name` in `t`; `rel_vol_min` is the one not among the overridable keys. */
  function LimitNamed(t: Thresholds, name: string): (v: real)
    requires name in OverrideKeys
  {
    if name == "price_min" then t.priceMin
    else if name == "price_max" then t.priceMax
    else if name == "pct_min_regular" then t.pctMinRegular
    else if name == "pct_min_premarket" then t.pctMinPremarket
    else if name == "vol_min_regular" then t.volMinRegular
    else if name == "vol_min_premarket" then t.volMinPremarket
    else t.mktcapMax
  }

  /** `params[name] = v`: the limit named `name` set to `v`, every other limit kept. */
  function WithLimit(t: Thresholds, name: string, v: real): (r: Thresholds)
    requires name in OverrideKeys
    ensures LimitNamed(r, name) == v
    ensures forall other :: other in OverrideKeys && other != name ==> LimitNamed(r, other) == LimitNamed(t, other)
    ensures r.relVolMin == t.relVolMin
  {
    if name == "price_min" then t.(priceMin := v)
    else if name == "price_max" then t.(priceMax := v)
    else if name == "pct_min_regular" then t.(pctMinRegular := v)
    else if name == "pct_min_premarket" then t.(pctMinPremarket := v)
    else if name == "vol_min_regular" then t.(volMinRegular := v)
    else if name == "vol_min_premarket" then t.(volMinPremarket := v)
    else t.(mktcapMax := v)
  }

  /** The value a parameter takes: the parsed query value when there is one, else `default`. */
  function OverrideOr(query: Query, name: string, default: real): (v: real)
    ensures name !in query || query[name].None? ==> v == default
  {
    if name in query && query[name].Some? then query[name].value else default
  }

  /** The limits `api_screener` passes to `scan`. */
  function Merged(query: Query): (t: Thresholds) {
    Thresholds(
      priceMin := OverrideOr(query, "price_min", Defaults.priceMin),
      priceMax := OverrideOr(query, "price_max", Defaults.priceMax),
      pctMinRegular := OverrideOr(query, "pct_min_regular", Defaults.pctMinRegular),
      pctMinPremarket := OverrideOr(query, "pct_min_premarket", Defaults.pctMinPremarket),
      volMinRegular := OverrideOr(query, "vol_min_regular", Defaults.volMinRegular),
      volMinPremarket := OverrideOr(query, "vol_min_premarket", Defaults.volMinPremarket),
      mktcapMax := OverrideOr(query, "mktcap_max", Defaults.mktcapMax),
      relVolMin := Defaults.relVolMin)
  }

  /**
   * The override loop of `api_screener`: start from a copy of the defaults and
   * overwrite, key by key, each limit whose query value parsed.
   */
  method MergeOverrides(query: Query) returns (params: Thresholds)
    ensures forall name :: name in OverrideKeys ==>
      LimitNamed(params, name) == OverrideOr(query, name, LimitNamed(Defaults, name))
    ensures params.relVolMin == Defaults.relVolMin
    ensures params == Merged(query)
  {
    params := Defaults;
    for i := 0 to |OverrideKeys|
      invariant forall k :: 0 <= k < i ==>
        LimitNamed(params, OverrideKeys[k]) == OverrideOr(query, OverrideKeys[k], LimitNamed(Defaults, OverrideKeys[k]))
      invariant forall k :: i <= k < |OverrideKeys| ==>
        LimitNamed(params, OverrideKeys[k]) == LimitNamed(Defaults, OverrideKeys[k])
      invariant params.relVolMin == Defaults.relVolMin
    {
      var p := OverrideKeys[i];
      if p in query && query[p].Some? {
        params := WithLimit(params, p, query[p].value);
      }
    }
    MergedAgrees(query, params);
  }

  /** The limits are determined by their names: two records that agree on every limit are equal. */
  lemma {:induction false} LimitsDetermineThresholds(t: Thresholds, u: Thresholds)
    requires forall name :: name in OverrideKeys ==> LimitNamed(t, name) == LimitNamed(u, name)
    requires t.relVolMin == u.relVolMin
    ensures t == u
  {
    assert LimitNamed(t, OverrideKeys[0]) == LimitNamed(u, OverrideKeys[0]);
    assert LimitNamed(t, OverrideKeys[1]) == LimitNamed(u, OverrideKeys[1]);
    assert LimitNamed(t, OverrideKeys[2]) == LimitNamed(u, OverrideKeys[2]);
    assert LimitNamed(t, OverrideKeys[3]) == LimitNamed(u, OverrideKeys[3]);
    assert LimitNamed(t, OverrideKeys[4]) == LimitNamed(u, OverrideKeys[4]);
    assert LimitNamed(t, OverrideKeys[5]) == LimitNamed(u, OverrideKeys[5]);
    assert LimitNamed(t, OverrideKeys[6]) == LimitNamed(u, OverrideKeys[6]);
  }

  /** The loop computes `Merged`. */
  lemma MergedAgrees(query: Query, params: Thresholds)
    requires forall name :: name in OverrideKeys ==>
      LimitNamed(params, name) == OverrideOr(query, name, LimitNamed(Defaults, name))
    requires params.relVolMin == Defaults.relVolMin
    ensures params == Merged(query)
  {
    forall name | name in OverrideKeys
      ensures LimitNamed(Merged(query), name) == OverrideOr(query, name, LimitNamed(Defaults, name))
    {
    }
    LimitsDetermineThresholds(params, Merged(query));
  }

  /**
   * Only the seven listed parameters matter: two queries that agree on them
   * give the same limits, whatever else they hold (`rel_vol_min` included).
   */
  lemma MergeIgnoresOtherParameters(query: Query, other: Query)
    requires forall name :: name in OverrideKeys ==>
      (name in query <==> name in other) && (name in query ==> query[name] == other[name])
    ensures Merged(query) == Merged(other)
  {
    assert forall name :: name in OverrideKeys ==>
      OverrideOr(query, name, 0.0) == OverrideOr(other, name, 0.0) by {
      forall name | name in OverrideKeys ensures OverrideOr(query, name, 0.0) == OverrideOr(other, name, 0.0) {
      }
    }
    assert "price_min" in OverrideKeys && "price_max" in OverrideKeys && "pct_min_regular" in OverrideKeys;
    assert "pct_min_premarket" in OverrideKeys && "vol_min_regular" in OverrideKeys;
    assert "vol_min_premarket" in OverrideKeys && "mktcap_max" in OverrideKeys;
  }

  /** An absent or unparsable parameter leaves its default in place. */
  lemma UnparsedKeepsDefault(query: Query, name: string)
    requires name in OverrideKeys
    requires name !in query || query[name].None?
    ensures LimitNamed(Merged(query), name) == LimitNamed(Defaults, name)
  {
  }

  /**
   * `api_screener`: the session parameter defaults to "AUTO", the limits are
   * the merged ones, and the result is the scan's.
   */
  method ApiScreener(sessionParam: Option<string>, query: Query, universe: seq<string>,
                     clock: real, provider: string -> Option<RawQuote>) returns (rows: seq<Row>)
    ensures rows == ScanResult(universe, Some(sessionParam.GetOr(AUTO)), clock, Merged(query), provider)
  {
    var session := sessionParam.GetOr(AUTO);
    var params := MergeOverrides(query);
    rows := Scan(universe, Some(session), clock, params, provider);
  }

  /**
   * Without a session parameter the endpoint resolves the session from the
   * clock, once, and every row carries that session.
   */
  lemma ApiSessionDefault(query: Query, universe: seq<string>, clock: real,
                          provider: string -> Option<RawQuote>, r: Row)
    requires r in ScanResult(universe, Some(AUTO), clock, Merged(query), provider)
    ensures r.snap.session == SessionAt(clock)
    ensures r.snap.session in {PRE, REG, POST}
  {
    ScanEntriesSound(universe, Some(AUTO), clock, Merged(query), provider, r);
  }

  /** The first 20 rows of a default-limit scan can all be formatted. */
  lemma AutoRowsFormattable(results: seq<Row>, universe: seq<string>, clock: real,
                            provider: string -> Option<RawQuote>)
    requires results == ScanResult(universe, Some(AUTO), clock, Defaults, provider)
    ensures forall i :: 0 <= i < |Considered(results)| ==> Formattable(Considered(results)[i])
  {
    ScanRowsFormattable(universe, Some(AUTO), clock, Defaults, provider);
    var considered := Considered(results);
    forall i | 0 <= i < |considered| ensures Formattable(considered[i]) {
      assert considered[i] in results;
    }
  }

  /**
   * One cycle of the alerts loop: scan with "AUTO" and the default limits,
   * then dispatch with the literal session "AUTO". The call never raises, and
   * every key it adds to the ledger begins with "AUTO:" whatever session the
   * clock resolved.
   */
  method AlertsCycle(universe: seq<string>, clock: real, provider: string -> Option<RawQuote>,
                     token: Option<string>, chatId: Option<string>, day: string,
                     stored: Option<set<string>>, delivered: nat -> bool) returns (outcome: Dispatch)
    ensures outcome == DispatchSpec(token, chatId, ScanResult(universe, Some(AUTO), clock, Defaults, provider),
                                    AUTO, day, stored, delivered)
    ensures !outcome.Raised?
    ensures outcome.Done? ==>
      forall k :: k in outcome.ledger - stored.GetOr({}) ==> k[..|AUTO| + 1] == "AUTO:"
  {
    var results := Scan(universe, Some(AUTO), clock, Defaults, provider);
    AutoRowsFormattable(results, universe, clock, provider);
    outcome := SendAlerts(token, chatId, results, AUTO, day, stored, delivered);
    LedgerKeysOfCall(token, chatId, results, AUTO, day, stored, delivered);
    assert AUTO + ":" == "AUTO:";
  }
}
