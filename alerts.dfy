/**
 * `send_telegram_alerts`: deduplicate the first 20 scan rows against the
 * ledger of keys `session:ticker:YYYYMMDD` already notified, send one message
 * per new key, record the key only when the send did not raise, and write the
 * whole ledger back.
 *
 * The environment, the ledger file and the notification sink are parameters:
 * `token` and `chatId` are the two environment variables, `stored` is the
 * ledger file's set (`None` when the file is missing or unreadable), `day` is
 * today's date as `YYYYMMDD`, and `delivered(i)` says whether the send for the
 * i-th considered row returned without raising.
 */
module Alerts {
  import opened Wrappers
  import opened Screener
  import opened ScanOrchestrator

  /** Only this many rows, from the front, are considered per call. */
  const MaxAlerts: nat := 20

  /** `k` starts with the session and a colon, and ends with a colon and the day. */
  predicate KeyShaped(k: string, session: string, day: string) {
    && |k| > |session| + |day| + 1
    && k[..|session| + 1] == session + ":"
    && k[|k| - |day| - 1..] == ":" + day
  }

  /** The ledger key of a row: `f"{session}:{ticker}:{today}"`. */
  function AlertKey(session: string, ticker: string, day: string): (k: string)
    ensures |k| == |session| + |ticker| + |day| + 2
    ensures KeyShaped(k, session, day)
    ensures k[|session| + 1..|session| + 1 + |ticker|] == ticker
  {
    session + ":" + ticker + ":" + day
  }

  /** Within one session and day, distinct tickers never share a ledger key. */
  lemma AlertKeySeparatesTickers(session: string, t1: string, t2: string, day: string)
    requires AlertKey(session, t1, day) == AlertKey(session, t2, day)
    ensures t1 == t2
  {
    var k := AlertKey(session, t1, day);
    assert |t1| == |t2|;
    assert t1 == k[|session| + 1..|session| + 1 + |t1|];
  }

  /** The key of the i-th row. */
  function KeyAt(items: seq<Row>, i: nat, session: string, day: string): (k: string)
    requires i < |items|
  {
    AlertKey(session, items[i].snap.ticker, day)
  }

  /**
   * Formatting the message reads price, percent change and volume without a
   * fallback (`:.4f`, `:.2f`, `:,`), and it runs outside the `try`: a row
   * lacking one of them makes the whole call raise.
   */
  predicate Formattable(r: Row) {
    r.snap.price.Some? && r.snap.percentChange.Some? && r.snap.volume.Some?
  }

  /** The loop's state: the ledger set, the `new` counter, the keys sent so far, and whether formatting raised. */
  datatype Progress = Progress(sent: set<string>, added: nat, attempts: seq<string>, raised: bool)

  /** The loop of `send_telegram_alerts` over `items`, starting from the loaded ledger. */
  function Process(items: seq<Row>, session: string, day: string, loaded: set<string>,
                   delivered: nat -> bool): (p: Progress)
    ensures loaded <= p.sent
    ensures |p.attempts| <= |items|
  {
    if items == [] then Progress(loaded, 0, [], false)
    else
      var n := |items| - 1;
      var p := Process(items[..n], session, day, loaded, delivered);
      var key := KeyAt(items, n, session, day);
      if p.raised || key in p.sent then p
      else if !Formattable(items[n]) then p.(raised := true)
      else if delivered(n) then Progress(p.sent + {key}, p.added + 1, p.attempts + [key], false)
      else p.(attempts := p.attempts + [key])
  }

  /** No key of `keys` is in `ledger`. */
  predicate Avoids(keys: seq<string>, ledger: set<string>) {
    forall j :: 0 <= j < |keys| ==> keys[j] !in ledger
  }

  /** Every key of `keys` is the key of one of the rows. */
  predicate KeysOfRows(keys: seq<string>, items: seq<Row>, session: string, day: string) {
    forall j :: 0 <= j < |keys| ==> exists i :: 0 <= i < |items| && keys[j] == KeyAt(items, i, session, day)
  }

  /** No key occurs twice in `keys`. */
  predicate Distinct(keys: seq<string>) {
    forall j, j' :: 0 <= j < j' < |keys| ==> keys[j] != keys[j']
  }

  /** The keys of the rows whose send succeeded. */
  function DeliveredKeys(items: seq<Row>, session: string, day: string, delivered: nat -> bool): (r: set<string>) {
    set i | 0 <= i < |items| && delivered(i) :: KeyAt(items, i, session, day)
  }

  /** A row's key joins the delivered keys exactly when its send succeeds. */
  lemma DeliveredKeysSnoc(items: seq<Row>, session: string, day: string, delivered: nat -> bool)
    requires items != []
    ensures var n := |items| - 1;
      DeliveredKeys(items, session, day, delivered)
        == DeliveredKeys(items[..n], session, day, delivered)
           + (if delivered(n) then {KeyAt(items, n, session, day)} else {})
  {
    var n := |items| - 1;
    var init := items[..n];
    var before := DeliveredKeys(init, session, day, delivered);
    var after := DeliveredKeys(items, session, day, delivered);
    var last: set<string> := if delivered(n) then {KeyAt(items, n, session, day)} else {};
    forall k | k in after ensures k in before + last {
      var i :| 0 <= i < |items| && delivered(i) && k == KeyAt(items, i, session, day);
      if i < n {
        assert KeyAt(init, i, session, day) == k;
      }
    }
    forall k | k in before ensures k in after {
      var i :| 0 <= i < |init| && delivered(i) && k == KeyAt(init, i, session, day);
      assert KeyAt(items, i, session, day) == k;
    }
  }

  /**
   * When nothing raised, the ledger is the loaded one plus the keys of the
   * rows whose send succeeded.
   */
  lemma {:induction false} ProcessLedger(items: seq<Row>, session: string, day: string,
                                         loaded: set<string>, delivered: nat -> bool)
    requires !Process(items, session, day, loaded, delivered).raised
    ensures Process(items, session, day, loaded, delivered).sent
            == loaded + DeliveredKeys(items, session, day, delivered)
  {
    if items != [] {
      var n := |items| - 1;
      var p := Process(items[..n], session, day, loaded, delivered);
      var q := Process(items, session, day, loaded, delivered);
      var key := KeyAt(items, n, session, day);
      assert !p.raised;
      ProcessLedger(items[..n], session, day, loaded, delivered);
      DeliveredKeysSnoc(items, session, day, delivered);
      if key in p.sent {
        assert q.sent == p.sent == p.sent + {key};
      } else if delivered(n) {
        assert q.sent == p.sent + {key};
      } else {
        assert q.sent == p.sent;
      }
    }
  }

  /** Adding a key that is neither recorded nor loaded adds one to the count of added keys. */
  lemma AddedGrowsByOne(sent: set<string>, loaded: set<string>, key: string)
    requires key !in sent && loaded <= sent
    ensures |(sent + {key}) - loaded| == |sent - loaded| + 1
  {
    assert (sent + {key}) - loaded == (sent - loaded) + {key};
  }

  /** The counter is the number of keys the loop added to the ledger. */
  lemma {:induction false} ProcessCountsAdded(items: seq<Row>, session: string, day: string,
                                              loaded: set<string>, delivered: nat -> bool)
    ensures Process(items, session, day, loaded, delivered).added
            == |Process(items, session, day, loaded, delivered).sent - loaded|
  {
    if items == [] {
      assert Process(items, session, day, loaded, delivered).sent - loaded == {};
    } else {
      var n := |items| - 1;
      var p := Process(items[..n], session, day, loaded, delivered);
      var q := Process(items, session, day, loaded, delivered);
      var key := KeyAt(items, n, session, day);
      ProcessCountsAdded(items[..n], session, day, loaded, delivered);
      if !p.raised && key !in p.sent && Formattable(items[n]) && delivered(n) {
        assert q.sent == p.sent + {key} && q.added == p.added + 1;
        AddedGrowsByOne(p.sent, loaded, key);
      } else {
        assert q.sent == p.sent && q.added == p.added;
      }
    }
  }

  /** A key already in the loaded ledger is never sent. */
  lemma {:induction false} AttemptsAreNew(items: seq<Row>, session: string, day: string,
                                          loaded: set<string>, delivered: nat -> bool)
    ensures Avoids(Process(items, session, day, loaded, delivered).attempts, loaded)
  {
    if items != [] {
      var n := |items| - 1;
      AttemptsAreNew(items[..n], session, day, loaded, delivered);
      var p := Process(items[..n], session, day, loaded, delivered);
      var q := Process(items, session, day, loaded, delivered);
      var key := KeyAt(items, n, session, day);
      if !p.raised && key !in p.sent && Formattable(items[n]) {
        assert q.attempts == p.attempts + [key];
        assert key !in loaded;
      } else {
        assert q.attempts == p.attempts;
      }
    }
  }

  /** Every send is for the key of one of the rows. */
  lemma {:induction false} AttemptsFromRows(items: seq<Row>, session: string, day: string,
                                            loaded: set<string>, delivered: nat -> bool)
    ensures KeysOfRows(Process(items, session, day, loaded, delivered).attempts, items, session, day)
  {
    if items != [] {
      var n := |items| - 1;
      var init := items[..n];
      AttemptsFromRows(init, session, day, loaded, delivered);
      var p := Process(init, session, day, loaded, delivered);
      var q := Process(items, session, day, loaded, delivered);
      forall j | 0 <= j < |q.attempts|
        ensures exists i :: 0 <= i < |items| && q.attempts[j] == KeyAt(items, i, session, day)
      {
        if j < |p.attempts| {
          assert q.attempts[j] == p.attempts[j];
          assert exists i :: 0 <= i < |init| && p.attempts[j] == KeyAt(init, i, session, day);
          var i :| 0 <= i < |init| && p.attempts[j] == KeyAt(init, i, session, day);
          assert KeyAt(init, i, session, day) == KeyAt(items, i, session, day);
        } else {
          assert q.attempts[j] == KeyAt(items, n, session, day);
        }
      }
    }
  }

  /** When every send succeeds, each sent key is recorded and none is sent twice. */
  lemma {:induction false} AllDeliveredSendsOnce(items: seq<Row>, session: string, day: string,
                                                 loaded: set<string>, delivered: nat -> bool)
    requires forall i :: delivered(i)
    ensures forall j :: 0 <= j < |Process(items, session, day, loaded, delivered).attempts| ==>
      Process(items, session, day, loaded, delivered).attempts[j] in Process(items, session, day, loaded, delivered).sent
    ensures Distinct(Process(items, session, day, loaded, delivered).attempts)
  {
    if items != [] {
      var n := |items| - 1;
      AllDeliveredSendsOnce(items[..n], session, day, loaded, delivered);
      var p := Process(items[..n], session, day, loaded, delivered);
      var q := Process(items, session, day, loaded, delivered);
      var key := KeyAt(items, n, session, day);
      if !p.raised && key !in p.sent && Formattable(items[n]) {
        assert delivered(n);
        assert q.attempts == p.attempts + [key] && q.sent == p.sent + {key};
        forall j | 0 <= j < |q.attempts| ensures q.attempts[j] in q.sent {
          if j < |p.attempts| {
            assert q.attempts[j] == p.attempts[j];
          }
        }
        forall j, j' | 0 <= j < j' < |q.attempts| ensures q.attempts[j] != q.attempts[j'] {
          assert q.attempts[j] == p.attempts[j] && p.attempts[j] in p.sent;
          if j' < |p.attempts| {
            assert q.attempts[j'] == p.attempts[j'];
          } else {
            assert q.attempts[j'] == key;
          }
        }
      } else {
        assert q == p || q == p.(raised := true);
      }
    }
  }

  /** Once formatting has raised, the rest of the rows change nothing. */
  lemma {:induction false} ProcessRaisedSticks(items: seq<Row>, j: nat, session: string, day: string,
                                               loaded: set<string>, delivered: nat -> bool)
    requires j <= |items|
    requires Process(items[..j], session, day, loaded, delivered).raised
    ensures Process(items, session, day, loaded, delivered) == Process(items[..j], session, day, loaded, delivered)
  {
    if j < |items| {
      var n := |items| - 1;
      assert items[..n][..j] == items[..j];
      ProcessRaisedSticks(items[..n], j, session, day, loaded, delivered);
    } else {
      assert items[..j] == items;
    }
  }

  /** A ledger that already holds every row's key makes the loop do nothing. */
  lemma {:induction false} ProcessAllKnown(items: seq<Row>, session: string, day: string,
                                           loaded: set<string>, delivered: nat -> bool)
    requires forall i :: 0 <= i < |items| ==> KeyAt(items, i, session, day) in loaded
    ensures Process(items, session, day, loaded, delivered) == Progress(loaded, 0, [], false)
  {
    if items != [] {
      var n := |items| - 1;
      forall i | 0 <= i < n ensures KeyAt(items[..n], i, session, day) in loaded {
        assert KeyAt(items[..n], i, session, day) == KeyAt(items, i, session, day);
      }
      ProcessAllKnown(items[..n], session, day, loaded, delivered);
    }
  }

  /** Rows that are all formattable never make a call raise. */
  lemma {:induction false} FormattableNeverRaises(items: seq<Row>, session: string, day: string,
                                                  loaded: set<string>, delivered: nat -> bool)
    ensures (forall i :: 0 <= i < |items| ==> Formattable(items[i])) ==>
      !Process(items, session, day, loaded, delivered).raised
  {
    if items != [] {
      FormattableNeverRaises(items[..|items| - 1], session, day, loaded, delivered);
    }
  }

  /**
   * The converse: the first row the loop reaches that is not yet in the ledger
   * and cannot be formatted makes the loop raise.
   */
  lemma UnformattableNewRowRaises(items: seq<Row>, j: nat, session: string, day: string,
                                  loaded: set<string>, delivered: nat -> bool)
    requires j < |items|
    requires !Process(items[..j], session, day, loaded, delivered).raised
    requires KeyAt(items, j, session, day) !in Process(items[..j], session, day, loaded, delivered).sent
    requires !Formattable(items[j])
    ensures Process(items, session, day, loaded, delivered).raised
  {
    assert items[..j + 1][..j] == items[..j];
    ProcessRaisedSticks(items, j + 1, session, day, loaded, delivered);
  }

  /** The outcome of one call. */
  datatype Dispatch =
    /** Returned 0 without touching the ledger: credentials missing or no rows. */
    | Skipped
    /** Formatting raised: the sends in `attempts` happened, the ledger was not written. */
    | Raised(attempts: seq<string>)
    /** Returned `newCount` after the sends in `attempts`, and wrote `ledger` back whole. */
    | Done(newCount: nat, attempts: seq<string>, ledger: set<string>)

  /** `not token or not chat_id`, negated: both set and non-empty. */
  predicate Configured(token: Option<string>, chatId: Option<string>) {
    token.Some? && token.value != "" && chatId.Some? && chatId.value != ""
  }

  /** The rows the loop looks at: `items[:20]`. */
  function Considered(items: seq<Row>): (r: seq<Row>)
    ensures r <= items
    ensures |r| == if |items| <= MaxAlerts then |items| else MaxAlerts
  {
    if |items| <= MaxAlerts then items else items[..MaxAlerts]
  }

  /** What `send_telegram_alerts` does. */
  function DispatchSpec(token: Option<string>, chatId: Option<string>, items: seq<Row>,
                        session: string, day: string, stored: Option<set<string>>,
                        delivered: nat -> bool): (r: Dispatch)
    ensures r.Skipped? <==> !Configured(token, chatId) || items == []
    ensures r.Done? ==>
      && stored.GetOr({}) <= r.ledger
      && r.ledger == stored.GetOr({}) + DeliveredKeys(Considered(items), session, day, delivered)
      && r.newCount == |r.ledger - stored.GetOr({})|
    ensures !r.Skipped? ==> Avoids(r.attempts, stored.GetOr({}))
    ensures (forall i :: 0 <= i < |Considered(items)| ==> Formattable(Considered(items)[i])) ==> !r.Raised?
  {
    if !Configured(token, chatId) || items == [] then Skipped
    else
      var loaded := stored.GetOr({});
      var p := Process(Considered(items), session, day, loaded, delivered);
      AttemptsAreNew(Considered(items), session, day, loaded, delivered);
      FormattableNeverRaises(Considered(items), session, day, loaded, delivered);
      if p.raised then Raised(p.attempts)
      else
        ProcessLedger(Considered(items), session, day, loaded, delivered);
        ProcessCountsAdded(Considered(items), session, day, loaded, delivered);
        Done(p.added, p.attempts, p.sent)
  }

  /** `send_telegram_alerts`. */
  method SendAlerts(token: Option<string>, chatId: Option<string>, items: seq<Row>,
                    session: string, day: string, stored: Option<set<string>>,
                    delivered: nat -> bool) returns (outcome: Dispatch)
    ensures outcome == DispatchSpec(token, chatId, items, session, day, stored, delivered)
  {
    if !Configured(token, chatId) || items == [] {
      return Skipped;
    }
    var sent := stored.GetOr({});
    var added: nat := 0;
    var attempts: seq<string> := [];
    var considered := Considered(items);
    for i := 0 to |considered|
      invariant Process(considered[..i], session, day, stored.GetOr({}), delivered)
                == Progress(sent, added, attempts, false)
    {
      assert considered[..i + 1][..i] == considered[..i];
      var key := AlertKey(session, considered[i].snap.ticker, day);
      if key in sent {
        continue;
      }
      if !Formattable(considered[i]) {
        ProcessRaisedSticks(considered, i + 1, session, day, stored.GetOr({}), delivered);
        return Raised(attempts);
      }
      attempts := attempts + [key];
      if delivered(i) {
        sent := sent + {key};
        added := added + 1;
      }
    }
    assert considered[..|considered|] == considered;
    return Done(added, attempts, sent);
  }

  /** Rows after the twentieth never matter. */
  lemma OnlyFirstTwenty(token: Option<string>, chatId: Option<string>, items: seq<Row>,
                        session: string, day: string, stored: Option<set<string>>,
                        delivered: nat -> bool)
    requires MaxAlerts <= |items|
    ensures DispatchSpec(token, chatId, items, session, day, stored, delivered)
         == DispatchSpec(token, chatId, items[..MaxAlerts], session, day, stored, delivered)
  {
    assert Considered(items[..MaxAlerts]) == Considered(items);
  }

  /**
   * Calling again on the same day with the same rows and session, after a call
   * whose sends all succeeded, sends nothing, returns 0 and writes the same ledger.
   */
  lemma SecondCallSendsNothing(token: Option<string>, chatId: Option<string>, items: seq<Row>,
                               session: string, day: string, stored: Option<set<string>>,
                               delivered: nat -> bool, deliveredAgain: nat -> bool)
    requires forall i :: delivered(i)
    requires DispatchSpec(token, chatId, items, session, day, stored, delivered).Done?
    ensures var first := DispatchSpec(token, chatId, items, session, day, stored, delivered);
      DispatchSpec(token, chatId, items, session, day, Some(first.ledger), deliveredAgain)
        == Done(0, [], first.ledger)
  {
    var first := DispatchSpec(token, chatId, items, session, day, stored, delivered);
    var considered := Considered(items);
    forall i | 0 <= i < |considered| ensures KeyAt(considered, i, session, day) in first.ledger {
      assert delivered(i);
      assert KeyAt(considered, i, session, day) in DeliveredKeys(considered, session, day, delivered);
    }
    ProcessAllKnown(considered, session, day, first.ledger, deliveredAgain);
  }

  /**
   * A call on scan output never raises when the session's volume minimum is
   * positive: the filter then admits only rows with a price, a percent change
   * and a volume.
   */
  lemma ScanRowsFormattable(universe: seq<string>, requested: Option<string>, clock: real,
                            limits: Thresholds, provider: string -> Option<RawQuote>)
    requires VolMin(ResolveSession(requested, clock), limits) > 0.0
    ensures forall r :: r in ScanResult(universe, requested, clock, limits, provider) ==> Formattable(r)
  {
    forall r | r in ScanResult(universe, requested, clock, limits, provider) ensures Formattable(r) {
      ScanEntriesSound(universe, requested, clock, limits, provider, r);
    }
  }

  /** Whatever the rows, the ledger keys of a call are prefixed by its session and end in its day. */
  lemma LedgerKeysOfCall(token: Option<string>, chatId: Option<string>, items: seq<Row>,
                         session: string, day: string, stored: Option<set<string>>,
                         delivered: nat -> bool)
    ensures var d := DispatchSpec(token, chatId, items, session, day, stored, delivered);
      d.Done? ==> forall k :: k in d.ledger - stored.GetOr({}) ==> KeyShaped(k, session, day)
  {
    var d := DispatchSpec(token, chatId, items, session, day, stored, delivered);
    if d.Done? {
      var considered := Considered(items);
      var newKeys := DeliveredKeys(considered, session, day, delivered);
      assert d.ledger == stored.GetOr({}) + newKeys;
      forall k | k in d.ledger - stored.GetOr({}) ensures KeyShaped(k, session, day) {
        assert k in newKeys;
        var i :| 0 <= i < |considered| && delivered(i) && k == KeyAt(considered, i, session, day);
      }
    }
  }
}
