/** The statistics of `validation/nse.py`: the back-test trade list, the maximum drawdown,
    the exact sign test and the walk-forward folds. */
module Validation {
  import opened Contracts
  import opened Arithmetic
  import opened Indicators
  import opened Features
  import Strings

  // ---------------------------------------------------------------------------------
  // Back-test trades of one symbol
  // ---------------------------------------------------------------------------------

  datatype SignalRecord = Signal(action: Action, referencePrice: real)
  type Signal = s: SignalRecord | s.referencePrice > 0.0 witness Signal(Buy, 1.0)

  /** Any strategy: compatibility and signal generation together, as a function of the
      snapshot it is shown. */
  type Plugin = Snapshot -> Option<Signal>

  datatype Trade = Trade(at: int, gross: real)

  datatype Campaign = Campaign(requestedStart: int, requestedEnd: int)

  /** The trade a snapshot leads to when the next close is known. */
  function TradeOn(snapshot: Snapshot, following: Option<real>, plugin: Plugin, campaign: Campaign): Option<Trade> {
    if !(campaign.requestedStart <= snapshot.eventTime <= campaign.requestedEnd) || following.None? then None
    else
      match plugin(snapshot)
      case None => None
      case Some(signal) =>
        Some(Trade(snapshot.eventTime,
                   (if signal.action.Buy? then 1.0 else -1.0) * (following.value - signal.referencePrice)
                   / signal.referencePrice))
  }

  /** The trade decided on the last bar but one and settled by the last bar's close. */
  function TradeLast(rows: seq<Candle>, plugin: Plugin, campaign: Campaign, s: Settings): Option<Trade>
    requires ValidSettings(s) && |rows| >= 2
  {
    var n := |rows| - 1;
    match SnapshotLast(rows[..n], s)
    case None => None
    case Some(snapshot) => TradeOn(snapshot, Some(rows[n].close), plugin, campaign)
  }

  /** All trades of a series, by the bar that settles them. */
  function Trades(rows: seq<Candle>, plugin: Plugin, campaign: Campaign, s: Settings): seq<Trade>
    requires ValidSettings(s)
  {
    if |rows| < 2 then []
    else
      var init := Trades(rows[..|rows| - 1], plugin, campaign, s);
      match TradeLast(rows, plugin, campaign, s)
      case None => init
      case Some(t) => init + [t]
  }

  ghost predicate StrictlyOrdered(rows: seq<Candle>) {
    forall i, j :: 0 <= i < j < |rows| ==> rows[i].eventTime < rows[j].eventTime
  }

  /** The trades of a series whose signal bar is not later than `at`. */
  function UpTo(trades: seq<Trade>, at: int): seq<Trade> {
    if trades == [] then []
    else
      var n := |trades| - 1;
      if trades[n].at <= at then UpTo(trades[..n], at) + [trades[n]] else UpTo(trades[..n], at)
  }

  lemma {:induction false} TradeLastTime(rows: seq<Candle>, plugin: Plugin, campaign: Campaign, s: Settings)
    requires ValidSettings(s) && |rows| >= 2
    ensures var t := TradeLast(rows, plugin, campaign, s); t.Some? ==> t.value.at == rows[|rows| - 2].eventTime
  {
    hide RowLast;
  }

  lemma {:induction false} AllUpTo(rows: seq<Candle>, plugin: Plugin, campaign: Campaign, s: Settings, at: int)
    requires ValidSettings(s) && StrictlyOrdered(rows)
    requires |rows| >= 2 ==> rows[|rows| - 2].eventTime <= at
    ensures UpTo(Trades(rows, plugin, campaign, s), at) == Trades(rows, plugin, campaign, s)
  {
    hide TradeLast;
    if |rows| >= 2 {
      AllUpTo(rows[..|rows| - 1], plugin, campaign, s, at);
      TradeLastTime(rows, plugin, campaign, s);
    }
  }

  /** Main result: what a strategy did up to bar `k` does not depend on any bar after `k + 1`.
      Removing those bars leaves exactly the trades signalled up to bar `k`, for any plugin. */
  lemma {:induction false} TradesIgnoreTheFuture(rows: seq<Candle>, plugin: Plugin, campaign: Campaign, s: Settings,
                                                 k: nat)
    requires ValidSettings(s) && StrictlyOrdered(rows) && k + 1 < |rows|
    ensures UpTo(Trades(rows, plugin, campaign, s), rows[k].eventTime) == Trades(rows[..k + 2], plugin, campaign, s)
  {
    hide TradeLast;
    var n := |rows| - 1;
    if n == k + 1 {
      assert rows[..k + 2] == rows;
      AllUpTo(rows, plugin, campaign, s, rows[k].eventTime);
    } else {
      TradesIgnoreTheFuture(rows[..n], plugin, campaign, s, k);
      assert rows[..n][..k + 2] == rows[..k + 2];
      TradeLastTime(rows, plugin, campaign, s);
    }
  }

  /** Bar `k` leads to a trade: it is warm and in the campaign, the strategy signals on it, and the
      trade earns the share of the reference price by which the next close is better for its side. */
  ghost predicate Earns(rows: seq<Candle>, plugin: Plugin, campaign: Campaign, s: Settings, k: nat, t: Trade)
    requires ValidSettings(s)
  {
    && k + 1 < |rows| && SnapshotLast(rows[..k + 1], s).Some?
    && campaign.requestedStart <= rows[k].eventTime && rows[k].eventTime <= campaign.requestedEnd
    && var signal := plugin(SnapshotLast(rows[..k + 1], s).value);
       && signal.Some? && t.at == rows[k].eventTime
       && var reference := signal.value.referencePrice;
          && (signal.value.action == Buy ==> t.gross * reference == rows[k + 1].close - reference)
          && (signal.value.action == Sell ==> t.gross * reference == reference - rows[k + 1].close)
  }

  lemma {:induction false} EarnsLast(rows: seq<Candle>, plugin: Plugin, campaign: Campaign, s: Settings, t: Trade)
    requires ValidSettings(s) && |rows| >= 2
    ensures TradeLast(rows, plugin, campaign, s) == Some(t) <==> Earns(rows, plugin, campaign, s, |rows| - 2, t)
  {
    hide RowLast;
    var k := |rows| - 2;
    var x := SnapshotLast(rows[..k + 1], s);
    if x.Some? && plugin(x.value).Some? {
      GrossIs(plugin(x.value).value, rows[k + 1].close, t.gross);
    }
  }

  lemma {:induction false} GrossIs(signal: Signal, close: real, gross: real)
    ensures var reference := signal.referencePrice;
            gross == (if signal.action.Buy? then 1.0 else -1.0) * (close - reference) / reference
            <==> gross * reference == (if signal.action == Buy then close - reference else reference - close)
  {
    var reference := signal.referencePrice;
    var gain := (if signal.action.Buy? then 1.0 else -1.0) * (close - reference);
    assert (gain / reference) * reference == gain;
    if gross * reference == gain {
      SameFactor(gross, gain / reference, reference);
    }
  }

  lemma {:induction false} SameFactor(a: real, b: real, k: real)
    requires k > 0.0 && a * k == b * k
    ensures a == b
  {
    Unscaled(a, b, k);
    Unscaled(b, a, k);
  }

  /** Main result: the trades of a series are exactly those its bars earn, one bar each, in order. */
  lemma {:induction false} TradesAreEarned(rows: seq<Candle>, plugin: Plugin, campaign: Campaign, s: Settings)
    requires ValidSettings(s) && StrictlyOrdered(rows)
    ensures var trades := Trades(rows, plugin, campaign, s);
            && (forall t :: t in trades <==> exists k :: Earns(rows, plugin, campaign, s, k, t))
            && (forall i, j :: 0 <= i < j < |trades| ==> trades[i].at < trades[j].at)
            && (|rows| >= 2 ==> forall t :: t in trades ==> t.at <= rows[|rows| - 2].eventTime)
  {
    hide TradeLast, Earns;
    if |rows| < 2 {
      forall t, k ensures !Earns(rows, plugin, campaign, s, k, t) {
        EarnedInside(rows, plugin, campaign, s, k, t);
      }
    } else {
      var n := |rows| - 1;
      TradesAreEarned(rows[..n], plugin, campaign, s);
      TradeLastTime(rows, plugin, campaign, s);
      TradesOfAll(rows, plugin, campaign, s);
      LaterTrade(rows, plugin, campaign, s);
    }
  }

  lemma {:induction false} EarnedInside(rows: seq<Candle>, plugin: Plugin, campaign: Campaign, s: Settings, k: nat,
                                        t: Trade)
    requires ValidSettings(s)
    ensures Earns(rows, plugin, campaign, s, k, t) ==> k + 1 < |rows|
    ensures k + 2 < |rows| ==>
              (Earns(rows, plugin, campaign, s, k, t) <==> Earns(rows[..|rows| - 1], plugin, campaign, s, k, t))
  {
    hide SnapshotLast;
    if k + 2 < |rows| {
      assert rows[..|rows| - 1][..k + 1] == rows[..k + 1];
    }
  }

  lemma {:induction false} TradesOfAll(rows: seq<Candle>, plugin: Plugin, campaign: Campaign, s: Settings)
    requires ValidSettings(s) && |rows| >= 2
    requires var init := rows[..|rows| - 1];
             forall t :: t in Trades(init, plugin, campaign, s) <==> exists k :: Earns(init, plugin, campaign, s, k, t)
    ensures forall t :: t in Trades(rows, plugin, campaign, s) <==> exists k :: Earns(rows, plugin, campaign, s, k, t)
  {
    hide TradeLast, Earns;
    var n := |rows| - 1;
    forall t ensures t in Trades(rows, plugin, campaign, s) <==> exists k :: Earns(rows, plugin, campaign, s, k, t) {
      EarnsLast(rows, plugin, campaign, s, t);
      assert t in Trades(rows, plugin, campaign, s)
        <==> t in Trades(rows[..n], plugin, campaign, s) || TradeLast(rows, plugin, campaign, s) == Some(t);
      if k :| Earns(rows, plugin, campaign, s, k, t) {
        EarnedInside(rows, plugin, campaign, s, k, t);
        assert k == n - 1 || Earns(rows[..n], plugin, campaign, s, k, t);
      }
      if k :| Earns(rows[..n], plugin, campaign, s, k, t) {
        EarnedInside(rows[..n], plugin, campaign, s, k, t);
        EarnedInside(rows, plugin, campaign, s, k, t);
      }
    }
  }

  lemma {:induction false} LaterTrade(rows: seq<Candle>, plugin: Plugin, campaign: Campaign, s: Settings)
    requires ValidSettings(s) && StrictlyOrdered(rows) && |rows| >= 2
    requires var init := Trades(rows[..|rows| - 1], plugin, campaign, s);
             && (forall i, j :: 0 <= i < j < |init| ==> init[i].at < init[j].at)
             && (|rows| >= 3 ==> forall t :: t in init ==> t.at <= rows[|rows| - 3].eventTime)
    ensures var trades := Trades(rows, plugin, campaign, s);
            && (forall i, j :: 0 <= i < j < |trades| ==> trades[i].at < trades[j].at)
            && (forall t :: t in trades ==> t.at <= rows[|rows| - 2].eventTime)
  {
    hide TradeLast;
    TradeLastTime(rows, plugin, campaign, s);
    var init, trades := Trades(rows[..|rows| - 1], plugin, campaign, s), Trades(rows, plugin, campaign, s);
    forall i | 0 <= i < |init| ensures init[i].at < rows[|rows| - 2].eventTime {
      assert init[i] in init;
    }
    match TradeLast(rows, plugin, campaign, s)
    case None => assert trades == init;
    case Some(t) =>
      assert trades == init + [t];
      assert t.at == rows[|rows| - 2].eventTime;
  }

  /** The loop over snapshots, looking the next close up by event time. */
  function Collect(snapshots: seq<Snapshot>, nextClose: map<int, real>, plugin: Plugin, campaign: Campaign): seq<Trade> {
    if snapshots == [] then []
    else
      var n := |snapshots| - 1;
      var init := Collect(snapshots[..n], nextClose, plugin, campaign);
      init + Decided(snapshots[n], nextClose, plugin, campaign)
  }

  /** The trade of one snapshot, if any. */
  function Decided(snapshot: Snapshot, nextClose: map<int, real>, plugin: Plugin, campaign: Campaign): seq<Trade> {
    var following := if snapshot.eventTime in nextClose then Some(nextClose[snapshot.eventTime]) else None;
    match TradeOn(snapshot, following, plugin, campaign)
    case None => []
    case Some(t) => [t]
  }

  lemma {:induction false} CollectAppend(snapshots: seq<Snapshot>, x: Snapshot, nextClose: map<int, real>,
                                         plugin: Plugin, campaign: Campaign)
    ensures Collect(snapshots + [x], nextClose, plugin, campaign)
            == Collect(snapshots, nextClose, plugin, campaign) + Decided(x, nextClose, plugin, campaign)
  {
    hide Decided;
    assert (snapshots + [x])[..|snapshots|] == snapshots;
  }

  /** Each bar but the last is mapped to the close that follows it. */
  ghost predicate NextCloses(nextClose: map<int, real>, rows: seq<Candle>) {
    && (forall i :: 0 <= i < |rows| - 1 ==>
          rows[i].eventTime in nextClose && nextClose[rows[i].eventTime] == rows[i + 1].close)
    && (rows != [] ==> rows[|rows| - 1].eventTime !in nextClose)
  }

  lemma {:induction false} CollectIsTrades(rows: seq<Candle>, k: nat, nextClose: map<int, real>, plugin: Plugin,
                                           campaign: Campaign, s: Settings)
    requires ValidSettings(s) && 1 <= k <= |rows| && NextCloses(nextClose, rows)
    ensures k < |rows| ==> Collect(Snapshots(rows[..k], s), nextClose, plugin, campaign)
                           == Trades(rows[..k + 1], plugin, campaign, s)
    ensures k == |rows| ==> Collect(Snapshots(rows, s), nextClose, plugin, campaign)
                            == Trades(rows, plugin, campaign, s)
  {
    hide RowLast, TradeOn, ValidSettings, Collect;
    NothingCollected(nextClose, plugin, campaign);
    var bars := rows[..k];
    assert bars[..k - 1] == rows[..k - 1];
    if k > 1 {
      CollectIsTrades(rows, k - 1, nextClose, plugin, campaign, s);
    } else {
      assert Snapshots(bars[..0], s) == [];
      assert Trades(bars, plugin, campaign, s) == [];
    }
    var init := Snapshots(bars[..k - 1], s);
    var snapshot := SnapshotLast(bars, s);
    if snapshot.Some? {
      CollectAppend(init, snapshot.value, nextClose, plugin, campaign);
      assert snapshot.value.eventTime == rows[k - 1].eventTime;
    }
    if k < |rows| {
      assert rows[..k + 1][..k] == bars;
    } else {
      assert bars == rows;
      NoFollowing(snapshot, nextClose, plugin, campaign);
    }
  }

  lemma {:induction false} NothingCollected(nextClose: map<int, real>, plugin: Plugin, campaign: Campaign)
    ensures Collect([], nextClose, plugin, campaign) == []
  {}

  lemma {:induction false} NoFollowing(snapshot: Option<Snapshot>, nextClose: map<int, real>, plugin: Plugin,
                                       campaign: Campaign)
    ensures snapshot.Some? ==> TradeOn(snapshot.value, None, plugin, campaign) == None
  {}

  /** `closes`: the close by open time; of several bars with one open time the last counts. */
  function CloseMap(rows: seq<Candle>): (r: map<int, real>)
    ensures forall i :: 0 <= i < |rows| ==> rows[i].eventTime in r
  {
    if rows == [] then map[]
    else
      var n := |rows| - 1;
      CloseMap(rows[..n])[rows[n].eventTime := rows[n].close]
  }

  /** The first `i` entries of `next_close`. */
  function NextUpTo(rows: seq<Candle>, closes: map<int, real>, i: nat): map<int, real>
    requires i == 0 || i < |rows|
    requires forall k :: 0 <= k < |rows| ==> rows[k].eventTime in closes
  {
    if i == 0 then map[] else NextUpTo(rows, closes, i - 1)[rows[i - 1].eventTime := closes[rows[i].eventTime]]
  }

  function NextClose(rows: seq<Candle>): map<int, real> {
    if rows == [] then map[] else NextUpTo(rows, CloseMap(rows), |rows| - 1)
  }

  /** Of the first `n` bars, bar `m` is the last to open at its time. */
  ghost predicate LastAtItsTime(rows: seq<Candle>, m: nat, n: int) {
    m < n <= |rows| && forall k :: m < k < n ==> rows[k].eventTime != rows[m].eventTime
  }

  lemma {:induction false} CloseMapMeans(rows: seq<Candle>, m: nat)
    requires LastAtItsTime(rows, m, |rows|)
    ensures CloseMap(rows)[rows[m].eventTime] == rows[m].close
  {
    var n := |rows| - 1;
    if m < n {
      CloseMapMeans(rows[..n], m);
      assert rows[..n][m] == rows[m];
    }
  }

  lemma {:induction false} NextUpToMeans(rows: seq<Candle>, closes: map<int, real>, i: nat, m: nat)
    requires i < |rows| && LastAtItsTime(rows, m, i)
    requires forall k :: 0 <= k < |rows| ==> rows[k].eventTime in closes
    ensures rows[m].eventTime in NextUpTo(rows, closes, i)
    ensures NextUpTo(rows, closes, i)[rows[m].eventTime] == closes[rows[m + 1].eventTime]
  {
    if m < i - 1 {
      NextUpToMeans(rows, closes, i - 1, m);
    }
  }

  lemma {:induction false} NextUpToKeys(rows: seq<Candle>, closes: map<int, real>, i: nat, t: int)
    requires i == 0 || i < |rows|
    requires forall k :: 0 <= k < |rows| ==> rows[k].eventTime in closes
    requires forall k :: 0 <= k < i ==> rows[k].eventTime != t
    ensures t !in NextUpTo(rows, closes, i)
  {
    if i > 0 {
      NextUpToKeys(rows, closes, i - 1, t);
    }
  }

  /** Whatever the bars: a bar that is the last at its time, the final bar aside, is followed by the
      close at the time of the next bar, of which again the last bar counts. */
  lemma {:induction false} NextCloseMeans(rows: seq<Candle>, m: nat, p: nat)
    requires LastAtItsTime(rows, m, |rows| - 1) && LastAtItsTime(rows, p, |rows|)
    requires rows[p].eventTime == rows[m + 1].eventTime
    ensures rows[m].eventTime in NextClose(rows) && NextClose(rows)[rows[m].eventTime] == rows[p].close
  {
    NextUpToMeans(rows, CloseMap(rows), |rows| - 1, m);
    CloseMapMeans(rows, p);
  }

  /** With one bar per open time, the next close is the close of the next bar. */
  lemma {:induction false} NextCloseOfNextBar(rows: seq<Candle>)
    requires StrictlyOrdered(rows)
    ensures NextCloses(NextClose(rows), rows)
  {
    hide NextClose;
    if rows != [] {
      var n := |rows| - 1;
      forall i | 0 <= i < n
        ensures rows[i].eventTime in NextClose(rows) && NextClose(rows)[rows[i].eventTime] == rows[i + 1].close
      {
        NextCloseMeans(rows, i, i + 1);
      }
      LastBarUnfollowed(rows);
    }
  }

  lemma {:induction false} LastBarUnfollowed(rows: seq<Candle>)
    requires rows != [] && StrictlyOrdered(rows)
    ensures rows[|rows| - 1].eventTime !in NextClose(rows)
  {
    NextUpToKeys(rows, CloseMap(rows), |rows| - 1, rows[|rows| - 1].eventTime);
  }

  /** Why one bar per open time matters: bar `k` is settled by the same close with and without the bars
      after `k + 1` if and only if the next bar has the close of bar `p`, the last bar at the time
      that follows the last bar at the time of `k`. */
  lemma {:induction false} SettlingCloseStable(rows: seq<Candle>, k: nat, m: nat, p: nat)
    requires k + 1 < |rows|
    requires LastAtItsTime(rows, m, |rows| - 1) && rows[m].eventTime == rows[k].eventTime
    requires LastAtItsTime(rows, p, |rows|) && rows[p].eventTime == rows[m + 1].eventTime
    ensures var t := rows[k].eventTime;
            && t in NextClose(rows) && t in NextClose(rows[..k + 2])
            && (NextClose(rows)[t] == NextClose(rows[..k + 2])[t] <==> rows[p].close == rows[k + 1].close)
  {
    hide NextClose;
    NextCloseMeans(rows, m, p);
    NextCloseMeans(rows[..k + 2], k, k + 1);
  }

  method FollowingCloses(rows: seq<Candle>) returns (nextClose: map<int, real>)
    ensures nextClose == NextClose(rows)
    ensures StrictlyOrdered(rows) ==> NextCloses(nextClose, rows)
  {
    hide NextCloses, StrictlyOrdered;
    var closes: map<int, real> := map[];
    for i := 0 to |rows|
      invariant closes == CloseMap(rows[..i])
    {
      assert rows[..i + 1][..i] == rows[..i];
      closes := closes[rows[i].eventTime := rows[i].close];
    }
    assert rows[..|rows|] == rows;
    nextClose := map[];
    if rows != [] {
      for i := 0 to |rows| - 1
        invariant nextClose == NextUpTo(rows, closes, i)
      {
        nextClose := nextClose[rows[i].eventTime := closes[rows[i + 1].eventTime]];
      }
    }
    if StrictlyOrdered(rows) {
      NextCloseOfNextBar(rows);
    }
  }

  /** The trades of one symbol, from its bars in any order. */
  function SymbolTrades(raw: seq<Candle>, plugin: Plugin, campaign: Campaign, s: Settings): seq<Trade>
    requires ValidSettings(s)
  {
    Collect(Materialized(raw, s), NextClose(SortByTime(raw)), plugin, campaign)
  }

  /** The per-symbol part of `evaluate_nse_strategy`. */
  method BacktestSymbol(raw: seq<Candle>, plugin: Plugin, campaign: Campaign, s: Settings)
    returns (trades: seq<Trade>)
    requires ValidSettings(s)
    ensures trades == SymbolTrades(raw, plugin, campaign, s)
    ensures StrictlyOrdered(SortByTime(raw)) && (forall i :: 0 <= i < |raw| ==> raw[i].settled) ==>
              trades == Trades(SortByTime(raw), plugin, campaign, s)
  {
    hide RowLast, TradeOn, Materialized, Trades, NextClose, StrictlyOrdered, SortByTime;
    var rows := SortByTime(raw);
    var materialized := MaterializeTechnicalFeatures(raw, s);
    var snapshots := materialized.value;
    var nextClose := FollowingCloses(rows);
    trades := [];
    for j := 0 to |snapshots|
      invariant trades == Collect(snapshots[..j], nextClose, plugin, campaign)
    {
      assert snapshots[..j + 1][..j] == snapshots[..j];
      var at := snapshots[j].eventTime;
      var following := if at in nextClose then Some(nextClose[at]) else None;
      var trade := TradeOn(snapshots[j], following, plugin, campaign);
      if trade.Some? {
        trades := trades + [trade.value];
      }
    }
    assert snapshots[..|snapshots|] == snapshots;
    if StrictlyOrdered(rows) && forall i :: 0 <= i < |raw| ==> raw[i].settled {
      SymbolTradesAreTrades(raw, plugin, campaign, s);
    }
  }

  /** With one settled bar per open time, looking closes up by time is settling each bar on the
      next. */
  lemma {:induction false} SymbolTradesAreTrades(raw: seq<Candle>, plugin: Plugin, campaign: Campaign, s: Settings)
    requires ValidSettings(s) && StrictlyOrdered(SortByTime(raw)) && forall i :: 0 <= i < |raw| ==> raw[i].settled
    ensures SymbolTrades(raw, plugin, campaign, s) == Trades(SortByTime(raw), plugin, campaign, s)
  {
    hide Snapshots, Trades, NextClose, SortByTime, NextCloses, Collect;
    var rows := SortByTime(raw);
    SettledAll(raw);
    NextCloseOfNextBar(rows);
    if rows == [] {
      NoBars(plugin, campaign, s);
      NothingCollected(NextClose(rows), plugin, campaign);
    } else {
      CollectIsTrades(rows, |rows|, NextClose(rows), plugin, campaign, s);
    }
  }

  lemma {:induction false} NoBars(plugin: Plugin, campaign: Campaign, s: Settings)
    requires ValidSettings(s)
    ensures Snapshots([], s) == [] && Trades([], plugin, campaign, s) == []
  {}

  // ---------------------------------------------------------------------------------
  // Back-test trades of a campaign
  // ---------------------------------------------------------------------------------

  datatype Listing = Listing(symbol: string, bars: seq<Candle>)

  datatype CampaignTrade = CampaignTrade(at: int, symbol: string, gross: real)

  function Labelled(symbol: string, trades: seq<Trade>): seq<CampaignTrade> {
    if trades == [] then []
    else
      var n := |trades| - 1;
      Labelled(symbol, trades[..n]) + [CampaignTrade(trades[n].at, symbol, trades[n].gross)]
  }

  /** The trades of all symbols, symbol by symbol. */
  function AllTrades(series: seq<Listing>, plugin: string -> Plugin, campaign: Campaign, s: Settings)
    : seq<CampaignTrade>
    requires ValidSettings(s)
  {
    if series == [] then []
    else
      var n := |series| - 1;
      AllTrades(series[..n], plugin, campaign, s)
      + Labelled(series[n].symbol, SymbolTrades(series[n].bars, plugin(series[n].symbol), campaign, s))
  }

  /** The sort key (time, symbol). */
  predicate NotAfter(a: CampaignTrade, b: CampaignTrade) {
    a.at < b.at || (a.at == b.at && Strings.Leq(a.symbol, b.symbol))
  }

  function InsertTrade(trades: seq<CampaignTrade>, t: CampaignTrade): seq<CampaignTrade> {
    if trades == [] || NotAfter(trades[|trades| - 1], t) then trades + [t]
    else InsertTrade(trades[..|trades| - 1], t) + [trades[|trades| - 1]]
  }

  /** `sorted(trades, key=(time, symbol))` */
  function Ordered(trades: seq<CampaignTrade>): seq<CampaignTrade> {
    if trades == [] then [] else InsertTrade(Ordered(trades[..|trades| - 1]), trades[|trades| - 1])
  }

  function Before(trades: seq<CampaignTrade>, at: int): seq<CampaignTrade> {
    if trades == [] then []
    else
      var n := |trades| - 1;
      Before(trades[..n], at) + (if trades[n].at <= at then [trades[n]] else [])
  }

  /** The trade list of `evaluate_nse_strategy`. */
  method BacktestCampaign(series: seq<Listing>, plugin: string -> Plugin, campaign: Campaign, s: Settings)
    returns (ordered: seq<CampaignTrade>)
    requires ValidSettings(s)
    ensures ordered == Ordered(AllTrades(series, plugin, campaign, s))
  {
    hide SymbolTrades, Ordered, StrictlyOrdered, Trades;
    var trades: seq<CampaignTrade> := [];
    for i := 0 to |series|
      invariant trades == AllTrades(series[..i], plugin, campaign, s)
    {
      assert series[..i + 1][..i] == series[..i];
      var own := BacktestSymbol(series[i].bars, plugin(series[i].symbol), campaign, s);
      trades := trades + Labelled(series[i].symbol, own);
    }
    assert series[..|series|] == series;
    ordered := Ordered(trades);
  }

  lemma {:induction false} BeforeAppend(trades: seq<CampaignTrade>, t: CampaignTrade, at: int)
    ensures Before(trades + [t], at) == Before(trades, at) + (if t.at <= at then [t] else [])
  {
    assert (trades + [t])[..|trades|] == trades;
  }

  lemma {:induction false} BeforeConcat(a: seq<CampaignTrade>, b: seq<CampaignTrade>, at: int)
    ensures Before(a + b, at) == Before(a, at) + Before(b, at)
  {
    if b == [] {
      assert a + b == a;
    } else {
      BeforeConcat(a, b[..|b| - 1], at);
      assert (a + b)[..|a| + |b| - 1] == a + b[..|b| - 1];
    }
  }

  lemma {:induction false} BeforeLabelled(symbol: string, trades: seq<Trade>, at: int)
    ensures Before(Labelled(symbol, trades), at) == Labelled(symbol, UpTo(trades, at))
  {
    if trades != [] {
      var n := |trades| - 1;
      BeforeLabelled(symbol, trades[..n], at);
      BeforeAppend(Labelled(symbol, trades[..n]), CampaignTrade(trades[n].at, symbol, trades[n].gross), at);
      var kept := UpTo(trades[..n], at);
      assert (kept + [trades[n]])[..|kept|] == kept;
    }
  }

  lemma {:induction false} InsertAppend(trades: seq<CampaignTrade>, last: CampaignTrade, t: CampaignTrade)
    ensures InsertTrade(trades + [last], t)
            == if NotAfter(last, t) then trades + [last] + [t] else InsertTrade(trades, t) + [last]
  {
    hide NotAfter;
    assert (trades + [last])[..|trades|] == trades;
  }

  /** Inserting and cutting off at an instant commute. */
  lemma {:induction false} InsertThenCut(trades: seq<CampaignTrade>, t: CampaignTrade, at: int)
    ensures Before(InsertTrade(trades, t), at)
            == if t.at <= at then InsertTrade(Before(trades, at), t) else Before(trades, at)
  {
    hide Before, Strings.Leq, InsertTrade;
    if trades == [] {
      InsertFirst(t);
      NothingBefore(at);
      BeforeAppend([], t, at);
      assert [] + [t] == [t];
    } else {
      var n := |trades| - 1;
      var init, last := trades[..n], trades[n];
      assert trades == init + [last];
      var kept := Before(init, at);
      BeforeAppend(init, last, at);
      InsertAppend(init, last, t);
      InsertAppend(kept, last, t);
      assert kept + [] == kept && Before(InsertTrade(init, t), at) + [] == Before(InsertTrade(init, t), at);
      if NotAfter(last, t) {
        BeforeAppend(trades, t, at);
      } else {
        InsertThenCut(init, t, at);
        BeforeAppend(InsertTrade(init, t), last, at);
      }
    }
  }

  lemma {:induction false} InsertFirst(t: CampaignTrade)
    ensures InsertTrade([], t) == [t]
  {}

  lemma {:induction false} OrderedAppend(trades: seq<CampaignTrade>, t: CampaignTrade)
    ensures Ordered(trades + [t]) == InsertTrade(Ordered(trades), t)
  {
    hide InsertTrade;
    assert (trades + [t])[..|trades|] == trades;
  }

  lemma {:induction false} OrderThenCut(trades: seq<CampaignTrade>, at: int)
    ensures Before(Ordered(trades), at) == Ordered(Before(trades, at))
  {
    hide InsertTrade;
    if trades != [] {
      var n := |trades| - 1;
      OrderThenCut(trades[..n], at);
      InsertThenCut(Ordered(trades[..n]), trades[n], at);
      OrderedAppend(Before(trades[..n], at), trades[n]);
      assert Before(trades[..n], at) + [] == Before(trades[..n], at);
    }
  }

  ghost predicate InOrder(trades: seq<CampaignTrade>) {
    forall i, j :: 0 <= i < j < |trades| ==> NotAfter(trades[i], trades[j])
  }

  lemma {:induction false} NotAfterTransitive(a: CampaignTrade, b: CampaignTrade, c: CampaignTrade)
    requires NotAfter(a, b) && NotAfter(b, c)
    ensures NotAfter(a, c)
  {
    if a.at == b.at == c.at {
      Strings.Transitive(a.symbol, b.symbol, c.symbol);
    }
  }

  lemma {:induction false} InsertKeepsOrder(trades: seq<CampaignTrade>, t: CampaignTrade)
    requires InOrder(trades)
    ensures InOrder(InsertTrade(trades, t))
    ensures multiset(InsertTrade(trades, t)) == multiset(trades) + multiset{t}
  {
    hide NotAfter;
    if trades != [] {
      var n := |trades| - 1;
      assert trades == trades[..n] + [trades[n]];
      if NotAfter(trades[n], t) {
        forall i | 0 <= i < n ensures NotAfter(trades[i], t) {
          NotAfterTransitive(trades[i], trades[n], t);
        }
      } else {
        InsertKeepsOrder(trades[..n], t);
        NotAfterTotal(trades[n], t);
        var inserted := InsertTrade(trades[..n], t);
        forall i | 0 <= i < |inserted| ensures NotAfter(inserted[i], trades[n]) {
          assert inserted[i] in multiset(inserted);
          assert inserted[i] in multiset(trades[..n]) || inserted[i] == t;
        }
      }
    }
  }

  lemma {:induction false} NotAfterTotal(a: CampaignTrade, b: CampaignTrade)
    ensures NotAfter(a, b) || NotAfter(b, a)
  {
    Strings.Total(a.symbol, b.symbol);
  }

  /** The trade list is in order of time and symbol and holds every trade once. */
  lemma {:induction false} OrderedSorts(trades: seq<CampaignTrade>)
    ensures InOrder(Ordered(trades)) && multiset(Ordered(trades)) == multiset(trades)
  {
    hide InsertTrade, NotAfter;
    if trades != [] {
      var n := |trades| - 1;
      OrderedSorts(trades[..n]);
      InsertKeepsOrder(Ordered(trades[..n]), trades[n]);
      assert trades == trades[..n] + [trades[n]];
    }
  }

  /** The bars up to and including the first that opens after `at`. */
  function Cut(rows: seq<Candle>, at: int): seq<Candle> {
    if |rows| >= 2 && rows[|rows| - 2].eventTime > at then Cut(rows[..|rows| - 1], at) else rows
  }

  lemma {:induction false} CutIsPrefix(rows: seq<Candle>, at: int)
    ensures Cut(rows, at) <= rows
  {
    if |rows| >= 2 {
      CutIsPrefix(rows[..|rows| - 1], at);
    }
  }

  lemma {:induction false} TradesOfCut(rows: seq<Candle>, plugin: Plugin, campaign: Campaign, s: Settings, at: int)
    requires ValidSettings(s) && StrictlyOrdered(rows)
    ensures UpTo(Trades(rows, plugin, campaign, s), at) == Trades(Cut(rows, at), plugin, campaign, s)
  {
    hide TradeLast;
    if |rows| >= 2 && rows[|rows| - 2].eventTime > at {
      TradesOfCut(rows[..|rows| - 1], plugin, campaign, s, at);
      TradeLastTime(rows, plugin, campaign, s);
    } else {
      AllUpTo(rows, plugin, campaign, s, at);
    }
  }

  ghost predicate CleanBars(rows: seq<Candle>) {
    StrictlyOrdered(rows) && forall i :: 0 <= i < |rows| ==> rows[i].settled
  }

  lemma {:induction false} CleanTrades(rows: seq<Candle>, plugin: Plugin, campaign: Campaign, s: Settings)
    requires ValidSettings(s) && CleanBars(rows)
    ensures SymbolTrades(rows, plugin, campaign, s) == Trades(rows, plugin, campaign, s)
  {
    hide SymbolTrades, Trades;
    SortedAlready(rows);
    SymbolTradesAreTrades(rows, plugin, campaign, s);
  }

  lemma {:induction false} SymbolTradesOfCut(rows: seq<Candle>, plugin: Plugin, campaign: Campaign, s: Settings,
                                             at: int)
    requires ValidSettings(s) && CleanBars(rows)
    ensures SymbolTrades(Cut(rows, at), plugin, campaign, s) == UpTo(SymbolTrades(rows, plugin, campaign, s), at)
  {
    hide SymbolTrades, Trades, Cut, UpTo;
    CutIsPrefix(rows, at);
    TradesOfCut(rows, plugin, campaign, s, at);
    CleanTrades(rows, plugin, campaign, s);
    CleanTrades(Cut(rows, at), plugin, campaign, s);
  }

  function CutAll(series: seq<Listing>, at: int): (r: seq<Listing>)
    ensures |r| == |series|
  {
    seq(|series|, i requires 0 <= i < |series| => Listing(series[i].symbol, Cut(series[i].bars, at)))
  }

  /** Main result over all symbols: the trade list up to an instant does not depend on any bar
      later than the first that opens after it. Cutting every symbol there leaves exactly the
      trades signalled up to the instant, in the same order, for any plugins. */
  lemma {:induction false} CampaignIgnoresTheFuture(series: seq<Listing>, plugin: string -> Plugin,
                                                    campaign: Campaign, s: Settings, at: int)
    requires ValidSettings(s) && forall i :: 0 <= i < |series| ==> CleanBars(series[i].bars)
    ensures Ordered(AllTrades(CutAll(series, at), plugin, campaign, s))
            == Before(Ordered(AllTrades(series, plugin, campaign, s)), at)
  {
    hide Ordered, AllTrades, Before;
    AllTradesOfCut(series, plugin, campaign, s, at);
    OrderThenCut(AllTrades(series, plugin, campaign, s), at);
  }

  lemma {:induction false} AllTradesOfCut(series: seq<Listing>, plugin: string -> Plugin, campaign: Campaign,
                                          s: Settings, at: int)
    requires ValidSettings(s) && forall i :: 0 <= i < |series| ==> CleanBars(series[i].bars)
    ensures AllTrades(CutAll(series, at), plugin, campaign, s) == Before(AllTrades(series, plugin, campaign, s), at)
  {
    hide SymbolTrades, Cut, Before, Labelled, UpTo;
    if series == [] {
      NothingBefore(at);
    } else {
      var n := |series| - 1;
      var own := plugin(series[n].symbol);
      AllTradesOfCut(series[..n], plugin, campaign, s, at);
      assert CutAll(series, at)[..n] == CutAll(series[..n], at);
      SymbolTradesOfCut(series[n].bars, own, campaign, s, at);
      BeforeLabelled(series[n].symbol, SymbolTrades(series[n].bars, own, campaign, s), at);
      BeforeConcat(AllTrades(series[..n], plugin, campaign, s),
                   Labelled(series[n].symbol, SymbolTrades(series[n].bars, own, campaign, s)), at);
    }
  }

  lemma {:induction false} NothingBefore(at: int)
    ensures Before([], at) == []
  {}

  // ---------------------------------------------------------------------------------
  // Maximum drawdown
  // ---------------------------------------------------------------------------------

  /** The equity curve: the starting value 1 and the value after each return. */
  function Equity(netReturns: seq<real>): (r: seq<real>)
    ensures |r| == |netReturns| + 1
    ensures forall i :: 0 <= i < |r| ==> r[i] >= 0.0
    ensures r[0] == 1.0
  {
    if netReturns == [] then [1.0]
    else
      var n := |netReturns| - 1;
      var init := Equity(netReturns[..n]);
      init + [Grow(init[n], netReturns[n])]
  }

  function Grow(equity: real, value: real): (r: real)
    requires equity >= 0.0
    ensures r >= 0.0
  {
    var factor := Max(0.0, 1.0 + value);
    assert equity * factor >= 0.0;
    equity * factor
  }

  function Fall(high: real, low: real): real
    requires high > 0.0
  {
    (high - low) / high
  }

  lemma {:induction false} FallComplement(high: real, low: real)
    requires high > 0.0
    ensures Fall(high, low) == 1.0 - low / high
  {
    var q, a := Fall(high, low), low / high;
    assert q * high == high - low && a * high == low;
    assert (q + a - 1.0) * high == 0.0;
    ZeroFactor(q + a - 1.0, high);
  }

  lemma {:induction false} ZeroFactor(x: real, d: real)
    requires d > 0.0 && x * d == 0.0
    ensures x == 0.0
  {}

  /** A fall from a lower high to the same low is no deeper. */
  lemma {:induction false} FallFromHigher(high: real, higher: real, low: real)
    requires 0.0 < high <= higher && 0.0 <= low
    ensures Fall(high, low) <= Fall(higher, low)
  {}

  lemma {:induction false} FallBetween(high: real, low: real)
    requires 0.0 <= low <= high && high > 0.0
    ensures 0.0 <= Fall(high, low) <= 1.0
  {
    QuotientNonNegative(high - low, high);
    QuotientNonNegative(low, high);
    FallComplement(high, low);
  }

  /** `depth` is the deepest fall of the curve: at least every fall between two of its
      points, in time order, and equal to one of them. */
  ghost predicate DeepestFall(curve: seq<real>, depth: real) {
    && (forall i, j :: 0 <= i <= j < |curve| && curve[i] > 0.0 ==> Fall(curve[i], curve[j]) <= depth)
    && (exists i, j :: 0 <= i <= j < |curve| && curve[i] > 0.0 && Fall(curve[i], curve[j]) == depth)
  }

  ghost predicate Peak(curve: seq<real>, peak: real) {
    && (exists i :: 0 <= i < |curve| && curve[i] == peak)
    && (forall i :: 0 <= i < |curve| ==> curve[i] <= peak)
  }

  /** One more point: the old depth or the fall from the peak, whichever is deeper. */
  lemma {:induction false} DeepestFallExtends(curve: seq<real>, depth: real, point: real, peak: real)
    requires DeepestFall(curve, depth) && Peak(curve + [point], peak) && peak > 0.0 && point >= 0.0
    ensures DeepestFall(curve + [point], Max(depth, Fall(peak, point)))
  {
    hide Fall;
    var more := curve + [point];
    var deeper := Max(depth, Fall(peak, point));
    forall i, j | 0 <= i <= j < |more| && more[i] > 0.0 ensures Fall(more[i], more[j]) <= deeper {
      if j < |curve| {
        assert Fall(curve[i], curve[j]) <= depth;
      } else {
        FallFromHigher(more[i], peak, point);
      }
    }
    var i, j :| 0 <= i <= j < |curve| && curve[i] > 0.0 && Fall(curve[i], curve[j]) == depth;
    assert Fall(more[i], more[j]) == depth;
    var p :| 0 <= p < |more| && more[p] == peak;
    assert Fall(more[p], more[|curve|]) == Fall(peak, point);
  }

  /** The single pass finds the deepest fall over all pairs of points, in [0, 1]. */
  method MaximumDrawdown(netReturns: seq<real>) returns (maximum: real)
    ensures DeepestFall(Equity(netReturns), maximum)
    ensures 0.0 <= maximum <= 1.0
  {
    hide Fall, Grow, DeepestFall;
    var equity, peak := 1.0, 1.0;
    maximum := 0.0;
    FlatStart();
    for i := 0 to |netReturns|
      invariant equity == Equity(netReturns[..i])[i]
      invariant Peak(Equity(netReturns[..i]), peak) && peak >= 1.0
      invariant DeepestFall(Equity(netReturns[..i]), maximum) && 0.0 <= maximum <= 1.0
    {
      assert netReturns[..i + 1][..i] == netReturns[..i];
      ghost var curve := Equity(netReturns[..i]);
      equity := Grow(equity, netReturns[i]);
      assert Equity(netReturns[..i + 1]) == curve + [equity];
      ghost var before := peak;
      peak := Max(peak, equity);
      NewPeak(curve, before, equity);
      FallBetween(peak, equity);
      DeepestFallExtends(curve, maximum, equity, peak);
      maximum := Max(maximum, Fall(peak, equity));
    }
    assert netReturns[..|netReturns|] == netReturns;
  }

  lemma {:induction false} FlatStart()
    ensures DeepestFall([1.0], 0.0) && Peak([1.0], 1.0)
  {
    var start := [1.0];
    assert start[0] == 1.0 && Fall(start[0], start[0]) == 0.0;
  }

  lemma {:induction false} NewPeak(curve: seq<real>, peak: real, point: real)
    requires Peak(curve, peak)
    ensures Peak(curve + [point], Max(peak, point))
  {
    var more := curve + [point];
    var p :| 0 <= p < |curve| && curve[p] == peak;
    assert more[p] == peak && more[|curve|] == point;
  }

  // ---------------------------------------------------------------------------------
  // The exact sign test
  // ---------------------------------------------------------------------------------

  /** `math.comb`, by Pascal's rule. */
  function Choose(n: nat, k: nat): nat {
    if k == 0 then 1 else if n == 0 then 0 else Choose(n - 1, k - 1) + Choose(n - 1, k)
  }

  function Pow2(n: nat): (r: nat)
    ensures r >= 1
  {
    if n == 0 then 1 else 2 * Pow2(n - 1)
  }

  /** The terms from `wins` up to `sample`. */
  function Tail(sample: nat, wins: nat): nat
    decreases sample + 1 - wins
  {
    if wins > sample then 0 else Choose(sample, wins) + Tail(sample, wins + 1)
  }

  method OneSidedSignTest(wins: nat, sample: nat) returns (p: real)
    requires wins <= sample
    ensures p == Tail(sample, wins) as real / Pow2(sample) as real
  {
    if sample == 0 {
      assert Tail(0, 0) == 1 by { assert Tail(0, 1) == 0; }
      return 1.0;
    }
    var tail: nat := 0;
    var index := sample + 1;
    while index > wins
      invariant wins <= index <= sample + 1
      invariant tail == Tail(sample, index)
    {
      index := index - 1;
      tail := tail + Choose(sample, index);
    }
    p := tail as real / Pow2(sample) as real;
    TailAtMostAll(sample, wins);
    AtMostOne(tail, Pow2(sample));
    p := Min(1.0, p);
  }

  lemma {:induction false} AtMostOne(x: nat, d: nat)
    requires d >= 1 && x <= d
    ensures x as real / d as real <= 1.0
  {
    var q := x as real / d as real;
    assert q * d as real == x as real;
  }

  /** Every sequence of `n` wins and losses. */
  ghost function Sequences(n: nat): set<seq<bool>> {
    if n == 0 then {[]} else Extended(Sequences(n - 1), true) + Extended(Sequences(n - 1), false)
  }

  ghost function Extended(s: set<seq<bool>>, last: bool): set<seq<bool>> {
    set x | x in s :: x + [last]
  }

  function WinsIn(x: seq<bool>): nat {
    if x == [] then 0 else WinsIn(x[..|x| - 1]) + (if x[|x| - 1] then 1 else 0)
  }

  ghost function Exactly(n: nat, k: nat): set<seq<bool>> {
    set x | x in Sequences(n) && WinsIn(x) == k
  }

  ghost function AtLeast(n: nat, k: nat): set<seq<bool>> {
    set x | x in Sequences(n) && WinsIn(x) >= k
  }

  lemma {:induction false} ExtendedSize(s: set<seq<bool>>, last: bool)
    ensures |Extended(s, last)| == |s|
  {
    if s != {} {
      var x :| x in s;
      ExtendedSize(s - {x}, last);
      assert Extended(s, last) == Extended(s - {x}, last) + {x + [last]};
      assert x + [last] !in Extended(s - {x}, last) by {
        forall y | y in s - {x} ensures y + [last] != x + [last] {
          assert (y + [last])[..|y|] == y && (x + [last])[..|x|] == x;
        }
      }
    }
  }

  lemma {:induction false} LastDiffers(a: set<seq<bool>>, b: set<seq<bool>>)
    ensures Extended(a, true) !! Extended(b, false)
  {
    forall x | x in Extended(a, true) ensures x !in Extended(b, false) {
      assert x[|x| - 1];
    }
  }

  lemma {:induction false} WinsExtend(x: seq<bool>, last: bool)
    ensures WinsIn(x + [last]) == WinsIn(x) + (if last then 1 else 0)
  {
    assert (x + [last])[..|x|] == x;
  }

  lemma {:induction false} SequenceCount(n: nat)
    ensures |Sequences(n)| == Pow2(n)
  {
    hide Extended;
    if n > 0 {
      SequenceCount(n - 1);
      var s := Sequences(n - 1);
      ExtendedSize(s, true);
      ExtendedSize(s, false);
      LastDiffers(s, s);
    }
  }

  lemma {:induction false} SequenceWins(n: nat, x: seq<bool>)
    requires x in Sequences(n)
    ensures |x| == n && WinsIn(x) <= n
  {
    if n > 0 {
      var s := Sequences(n - 1);
      var y, last :| y in s && x == y + [last];
      SequenceWins(n - 1, y);
      WinsExtend(y, last);
    }
  }

  /** A sequence with `k` wins ends in a win after `k - 1` of them, or in a loss after `k`. */
  lemma {:induction false} ExactlySplit(n: nat, k: nat)
    requires n > 0
    ensures k > 0 ==> Exactly(n, k) == Extended(Exactly(n - 1, k - 1), true) + Extended(Exactly(n - 1, k), false)
    ensures k == 0 ==> Exactly(n, k) == Extended(Exactly(n - 1, k), false)
  {}

  /** The sequences with exactly `k` wins are counted by the binomial coefficient. */
  lemma {:induction false} ExactlyCount(n: nat, k: nat)
    ensures |Exactly(n, k)| == Choose(n, k)
  {
    hide Exactly, Extended;
    if n == 0 {
      OnlyEmpty(k);
    } else {
      ExactlySplit(n, k);
      ExactlyCount(n - 1, k);
      ExtendedSize(Exactly(n - 1, k), false);
      if k > 0 {
        ExactlyCount(n - 1, k - 1);
        ExtendedSize(Exactly(n - 1, k - 1), true);
        LastDiffers(Exactly(n - 1, k - 1), Exactly(n - 1, k));
      } else {
        NoWinsCount(n);
      }
    }
  }

  lemma {:induction false} OnlyEmpty(k: nat)
    ensures |Exactly(0, k)| == Choose(0, k)
  {
    assert Exactly(0, k) == if k == 0 then {[]} else {};
  }

  lemma {:induction false} NoWinsCount(n: nat)
    ensures Choose(n, 0) == 1
  {}

  lemma {:induction false} AtLeastCount(sample: nat, wins: nat)
    ensures |AtLeast(sample, wins)| == Tail(sample, wins)
    decreases sample + 1 - wins
  {
    if wins > sample {
      forall x | x in Sequences(sample) ensures WinsIn(x) < wins {
        SequenceWins(sample, x);
      }
      assert AtLeast(sample, wins) == {};
    } else {
      AtLeastCount(sample, wins + 1);
      ExactlyCount(sample, wins);
      assert AtLeast(sample, wins) == Exactly(sample, wins) + AtLeast(sample, wins + 1);
      assert Exactly(sample, wins) !! AtLeast(sample, wins + 1);
    }
  }

  lemma {:induction false} TailAtMostAll(sample: nat, wins: nat)
    ensures Tail(sample, wins) <= Pow2(sample)
    ensures wins == 0 ==> Tail(sample, wins) == Pow2(sample)
  {
    SequenceCount(sample);
    AtLeastCount(sample, wins);
    SubsetSize(AtLeast(sample, wins), Sequences(sample));
    if wins == 0 {
      assert AtLeast(sample, 0) == Sequences(sample);
    }
  }

  /** Main result: the p-value is the share of the 2^n equally likely win/loss sequences that
      have at least the observed wins; it is 1 at zero wins and strictly falls as wins rise,
      so it never needs its cap. */
  lemma {:induction false} SignTestIsExact(wins: nat, sample: nat)
    requires wins <= sample
    ensures Tail(sample, wins) == |AtLeast(sample, wins)| && Pow2(sample) == |Sequences(sample)|
    ensures Tail(sample, 0) == Pow2(sample)
    ensures Tail(sample, wins) > Tail(sample, wins + 1)
    ensures Tail(sample, wins) <= Pow2(sample)
  {
    AtLeastCount(sample, wins);
    SequenceCount(sample);
    TailAtMostAll(sample, 0);
    TailAtMostAll(sample, wins);
    ChoosePositive(sample, wins);
  }

  lemma {:induction false} ChoosePositive(n: nat, k: nat)
    requires k <= n
    ensures Choose(n, k) >= 1
  {
    if k > 0 {
      ChoosePositive(n - 1, k - 1);
    }
  }

  // ---------------------------------------------------------------------------------
  // Walk-forward folds
  // ---------------------------------------------------------------------------------

  /** `min(windows - 1, index * windows // max(1, total))` */
  function Slot(index: nat, total: nat, windows: nat): nat
    requires windows >= 1
  {
    var raw := index * windows / (if total < 1 then 1 else total);
    if raw < windows - 1 then raw else windows - 1
  }

  /** The first index that falls into fold `j`: the ceiling of j * total / windows. */
  function Start(j: nat, total: nat, windows: nat): nat
    requires windows >= 1
  {
    (j * total + windows - 1) / windows
  }

  lemma {:induction false} DivisionBounds(x: int, d: int)
    requires d >= 1
    ensures d * (x / d) <= x < d * (x / d) + d
  {}

  /** What the ceiling means. */
  lemma {:induction false} StartBounds(j: nat, total: nat, windows: nat)
    requires windows >= 1
    ensures var s := Start(j, total, windows); j * total <= windows * s < j * total + windows
  {
    DivisionBounds(j * total + windows - 1, windows);
  }

  lemma {:induction false} Below(a: int, b: int, d: int)
    requires d >= 1 && d * a < d * b
    ensures a < b
  {
    assert d * (b - a) > 0;
  }

  lemma {:induction false} StartEnds(total: nat, windows: nat)
    requires windows >= 1
    ensures Start(0, total, windows) == 0 && Start(windows, total, windows) == total
  {
    StartBounds(0, total, windows);
    StartBounds(windows, total, windows);
    var s := Start(windows, total, windows);
    assert windows * total <= windows * s < windows * (total + 1);
    Below(s, total + 1, windows);
    Below(total, s + 1, windows);
    var z := Start(0, total, windows);
    Below(z, 1, windows);
  }

  lemma {:induction false} StartMonotone(j: nat, total: nat, windows: nat)
    requires windows >= 1
    ensures Start(j, total, windows) <= Start(j + 1, total, windows)
  {
    StartBounds(j, total, windows);
    StartBounds(j + 1, total, windows);
    var a, b := Start(j, total, windows), Start(j + 1, total, windows);
    assert (j + 1) * total == j * total + total;
    assert windows * a < windows * b + windows == windows * (b + 1);
    Below(a, b + 1, windows);
  }

  lemma {:induction false} SlotToFold(i: nat, j: nat, total: nat, windows: nat, raw: nat)
    requires windows >= 1 && i < total && raw == j
    requires total * raw <= i * windows < total * raw + total
    ensures Start(j, total, windows) <= i < Start(j + 1, total, windows)
  {
    hide Start;
    StartBounds(j, total, windows);
    StartBounds(j + 1, total, windows);
    var a, b := Start(j, total, windows), Start(j + 1, total, windows);
    assert (j + 1) * total == j * total + total;
    assert windows * (i + 1) == i * windows + windows;
    Below(a, i + 1, windows);
    Below(i, b, windows);
  }

  lemma {:induction false} FoldToSlot(i: nat, j: nat, total: nat, windows: nat, raw: nat)
    requires windows >= 1 && i < total
    requires total * raw <= i * windows < total * raw + total
    requires Start(j, total, windows) <= i < Start(j + 1, total, windows)
    ensures raw == j
  {
    hide Start;
    StartBounds(j, total, windows);
    StartBounds(j + 1, total, windows);
    var a, b := Start(j, total, windows), Start(j + 1, total, windows);
    assert (j + 1) * total == j * total + total == total * (j + 1);
    ScaledWhole(a, i, windows);
    ScaledWhole(i + 1, b, windows);
    assert windows * (i + 1) == i * windows + windows;
    assert total * (raw + 1) == total * raw + total;
    Below(raw, j + 1, total);
    Below(j, raw + 1, total);
  }

  lemma {:induction false} ScaledWhole(a: int, b: int, d: int)
    requires d >= 1 && a <= b
    ensures d * a <= d * b
  {
    assert d * (b - a) >= 0;
  }

  lemma {:induction false} RawSlot(i: nat, total: nat, windows: nat) returns (raw: nat)
    requires windows >= 1 && i < total
    ensures raw == Slot(i, total, windows) && total * raw <= i * windows < total * raw + total
  {
    raw := i * windows / total;
    DivisionBounds(i * windows, total);
    assert i * windows < total * windows by {
      assert windows * (total - i) > 0;
    }
    Below(raw, windows, total);
  }

  /** Index `i` goes into fold `j` exactly when it lies between the fold's ends. */
  lemma {:induction false} SlotIsFold(i: nat, j: nat, total: nat, windows: nat)
    requires windows >= 1 && i < total && j < windows
    ensures Slot(i, total, windows) == j <==> Start(j, total, windows) <= i < Start(j + 1, total, windows)
  {
    hide Start;
    var raw := RawSlot(i, total, windows);
    if raw == j {
      SlotToFold(i, j, total, windows, raw);
    }
    if Start(j, total, windows) <= i < Start(j + 1, total, windows) {
      FoldToSlot(i, j, total, windows, raw);
    }
  }

  /** The length of a fold is the quotient of trades and folds, rounded down or up. */
  lemma {:induction false} FoldLength(j: nat, total: nat, windows: nat)
    requires windows >= 1
    ensures var length := Start(j + 1, total, windows) - Start(j, total, windows);
            total < windows * (length + 1) && windows * (length - 1) < total
  {}

  function Joined<T>(folds: seq<seq<T>>): seq<T> {
    if folds == [] then [] else Joined(folds[..|folds| - 1]) + folds[|folds| - 1]
  }

  /** The part of fold `j` filled after `done` rows. */
  function Filled<T>(rows: seq<T>, j: nat, windows: nat, done: nat): seq<T>
    requires windows >= 1 && done <= |rows|
  {
    var from, to := Start(j, |rows|, windows), Start(j + 1, |rows|, windows);
    if done <= from || to <= from then [] else if done < to then rows[from..done]
    else if to <= |rows| then rows[from..to] else []
  }

  /** The folds are contiguous, in order, lose nothing, and differ in size by at most one. */
  method WalkForwardFolds<T>(ordered: seq<T>, windows: nat) returns (folds: seq<seq<T>>)
    requires windows >= 1
    ensures |folds| == windows
    ensures Joined(folds) == ordered
    ensures forall a, b :: 0 <= a < windows && 0 <= b < windows ==> |folds[a]| <= |folds[b]| + 1
  {
    hide Slot, Filled, Joined;
    folds := seq(windows, _ => []);
    forall j | 0 <= j < windows ensures Filled(ordered, j, windows, 0) == [] {
      NothingFilled(ordered, j, windows);
    }
    for index := 0 to |ordered|
      invariant |folds| == windows
      invariant forall j :: 0 <= j < windows ==> folds[j] == Filled(ordered, j, windows, index)
    {
      var slot := Slot(index, |ordered|, windows);
      SlotInRange(index, |ordered|, windows);
      forall j | 0 <= j < windows
        ensures Filled(ordered, j, windows, index + 1)
                == folds[j] + (if slot == j then [ordered[index]] else [])
      {
        FilledStep(ordered, j, windows, index);
      }
      folds := folds[slot := folds[slot] + [ordered[index]]];
    }
    JoinedIsWhole(ordered, folds, windows, windows);
    assert folds[..windows] == folds;
    forall a, b | 0 <= a < windows && 0 <= b < windows ensures |folds[a]| <= |folds[b]| + 1 {
      FoldsEven(ordered, a, b, windows);
    }
  }

  lemma {:induction false} NothingFilled<T>(rows: seq<T>, j: nat, windows: nat)
    requires windows >= 1
    ensures Filled(rows, j, windows, 0) == []
  {
    hide Start;
  }

  lemma {:induction false} SlotInRange(index: nat, total: nat, windows: nat)
    requires windows >= 1
    ensures Slot(index, total, windows) < windows
  {}

  lemma {:induction false} StartBelowTotal(j: nat, total: nat, windows: nat)
    requires windows >= 1 && j <= windows
    ensures Start(j, total, windows) <= total
    decreases windows - j
  {
    hide Start;
    if j == windows {
      StartEnds(total, windows);
    } else {
      StartBelowTotal(j + 1, total, windows);
      StartMonotone(j, total, windows);
    }
  }

  lemma {:induction false} FilledStep<T>(rows: seq<T>, j: nat, windows: nat, index: nat)
    requires windows >= 1 && j < windows && index < |rows|
    ensures Filled(rows, j, windows, index + 1)
            == Filled(rows, j, windows, index)
               + (if Slot(index, |rows|, windows) == j then [rows[index]] else [])
  {
    hide Slot, Start;
    SlotIsFold(index, j, |rows|, windows);
    StartBelowTotal(j + 1, |rows|, windows);
  }

  /** A finished fold is the slice between its two ends. */
  lemma {:induction false} FoldIsSlice<T>(rows: seq<T>, j: nat, windows: nat)
    requires windows >= 1 && j < windows
    ensures 0 <= Start(j, |rows|, windows) <= Start(j + 1, |rows|, windows) <= |rows|
    ensures Filled(rows, j, windows, |rows|) == rows[Start(j, |rows|, windows)..Start(j + 1, |rows|, windows)]
  {
    hide Start;
    StartMonotone(j, |rows|, windows);
    StartBelowTotal(j + 1, |rows|, windows);
  }

  lemma {:induction false} FoldsEven<T>(rows: seq<T>, a: nat, b: nat, windows: nat)
    requires windows >= 1 && a < windows && b < windows
    ensures |Filled(rows, a, windows, |rows|)| <= |Filled(rows, b, windows, |rows|)| + 1
  {
    hide Start, Filled;
    FoldIsSlice(rows, a, windows);
    FoldIsSlice(rows, b, windows);
    FoldLength(a, |rows|, windows);
    FoldLength(b, |rows|, windows);
    var x, y := |Filled(rows, a, windows, |rows|)|, |Filled(rows, b, windows, |rows|)|;
    Below(x - 1, y + 1, windows);
  }

  lemma {:induction false} JoinedIsWhole<T>(rows: seq<T>, folds: seq<seq<T>>, windows: nat, k: nat)
    requires windows >= 1 && |folds| == windows && k <= windows
    requires forall j :: 0 <= j < windows ==> folds[j] == Filled(rows, j, windows, |rows|)
    ensures Start(k, |rows|, windows) <= |rows|
    ensures Joined(folds[..k]) == rows[..Start(k, |rows|, windows)]
    ensures k == windows ==> Joined(folds[..k]) == rows
  {
    hide Start, Filled;
    StartEnds(|rows|, windows);
    if k > 0 {
      JoinedIsWhole(rows, folds, windows, k - 1);
      FoldIsSlice(rows, k - 1, windows);
      assert folds[..k][..k - 1] == folds[..k - 1];
    }
    if k == windows {
      assert rows[..|rows|] == rows;
    }
  }
}
