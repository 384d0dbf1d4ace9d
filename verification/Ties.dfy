/** Bars that share an open time, in the back-test of `validation/nse.py`: its next-close dictionary
    is keyed by open time, so such bars can make a trade depend on later bars. */
module Ties {
  import opened Contracts
  import opened Indicators
  import opened Features
  import opened FeatureBounds
  import opened Validation

  predicate InCampaign(x: Snapshot, campaign: Campaign, at: int) {
    campaign.requestedStart <= x.eventTime <= campaign.requestedEnd && x.eventTime <= at
  }

  /** The snapshots that can lead to a trade up to the instant. */
  function Decisive(xs: seq<Snapshot>, campaign: Campaign, at: int): seq<Snapshot> {
    if xs == [] then []
    else
      var n := |xs| - 1;
      Decisive(xs[..n], campaign, at) + (if InCampaign(xs[n], campaign, at) then [xs[n]] else [])
  }

  lemma {:induction false} DecisiveConcat(xs: seq<Snapshot>, ys: seq<Snapshot>, campaign: Campaign, at: int)
    ensures Decisive(xs + ys, campaign, at) == Decisive(xs, campaign, at) + Decisive(ys, campaign, at)
  {
    if ys == [] {
      assert xs + ys == xs;
    } else {
      DecisiveConcat(xs, ys[..|ys| - 1], campaign, at);
      assert (xs + ys)[..|xs| + |ys| - 1] == xs + ys[..|ys| - 1];
    }
  }

  lemma {:induction false} DecisiveMembers(xs: seq<Snapshot>, campaign: Campaign, at: int)
    ensures forall x :: x in Decisive(xs, campaign, at) <==> x in xs && InCampaign(x, campaign, at)
  {
    if xs != [] {
      DecisiveMembers(xs[..|xs| - 1], campaign, at);
      assert xs == xs[..|xs| - 1] + [xs[|xs| - 1]];
    }
  }

  lemma {:induction false} DecisiveNone(xs: seq<Snapshot>, campaign: Campaign, at: int)
    requires forall i :: 0 <= i < |xs| ==> !InCampaign(xs[i], campaign, at)
    ensures Decisive(xs, campaign, at) == []
  {
    if xs != [] {
      DecisiveNone(xs[..|xs| - 1], campaign, at);
    }
  }

  lemma {:induction false} CollectConcat(xs: seq<Snapshot>, ys: seq<Snapshot>, nc: map<int, real>, plugin: Plugin,
                                         campaign: Campaign)
    ensures Collect(xs + ys, nc, plugin, campaign)
            == Collect(xs, nc, plugin, campaign) + Collect(ys, nc, plugin, campaign)
  {
    hide Decided;
    if ys == [] {
      assert xs + ys == xs;
    } else {
      CollectConcat(xs, ys[..|ys| - 1], nc, plugin, campaign);
      assert (xs + ys)[..|xs| + |ys| - 1] == xs + ys[..|ys| - 1];
    }
  }

  lemma {:induction false} UpToAppend(trades: seq<Trade>, t: Trade, at: int)
    ensures UpTo(trades + [t], at) == UpTo(trades, at) + (if t.at <= at then [t] else [])
  {
    assert (trades + [t])[..|trades|] == trades;
  }

  /** The trades up to an instant are those of the decisive snapshots. */
  lemma {:induction false} CollectUpTo(xs: seq<Snapshot>, nc: map<int, real>, plugin: Plugin, campaign: Campaign,
                                       at: int)
    ensures UpTo(Collect(xs, nc, plugin, campaign), at) == Collect(Decisive(xs, campaign, at), nc, plugin, campaign)
  {
    if xs != [] {
      var n := |xs| - 1;
      CollectUpTo(xs[..n], nc, plugin, campaign, at);
      DecidedUpTo(xs[n], nc, plugin, campaign, at, Collect(xs[..n], nc, plugin, campaign));
      CollectAppend(Decisive(xs[..n], campaign, at), xs[n], nc, plugin, campaign);
      assert Decisive(xs[..n], campaign, at) + [] == Decisive(xs[..n], campaign, at);
    }
  }

  lemma {:induction false} DecidedUpTo(x: Snapshot, nc: map<int, real>, plugin: Plugin, campaign: Campaign, at: int,
                                       before: seq<Trade>)
    ensures UpTo(before + Decided(x, nc, plugin, campaign), at)
            == UpTo(before, at) + (if InCampaign(x, campaign, at) then Decided(x, nc, plugin, campaign) else [])
  {
    var own := Decided(x, nc, plugin, campaign);
    if own == [] {
      assert before + own == before;
    } else {
      UpToAppend(before, own[0], at);
      assert own == [own[0]] && own[0].at == x.eventTime;
    }
  }

  /** Snapshots whose time is no key lead to no trade. */
  lemma {:induction false} CollectKeyed(xs: seq<Snapshot>, nc: map<int, real>, plugin: Plugin, campaign: Campaign,
                                        at: int)
    requires forall i :: 0 <= i < |xs| && xs[i].eventTime > at ==> xs[i].eventTime !in nc
    ensures Collect(xs, nc, plugin, campaign) == Collect(Decisive(xs, campaign, at), nc, plugin, campaign)
  {
    if xs != [] {
      var n := |xs| - 1;
      CollectKeyed(xs[..n], nc, plugin, campaign, at);
      CollectAppend(Decisive(xs[..n], campaign, at), xs[n], nc, plugin, campaign);
      assert Decisive(xs[..n], campaign, at) + [] == Decisive(xs[..n], campaign, at);
      assert !InCampaign(xs[n], campaign, at) ==> Decided(xs[n], nc, plugin, campaign) == [];
    }
  }

  /** Buys on every snapshot. */
  function AlwaysBuy(): Plugin {
    x => Some(Signal(Buy, 1.0))
  }

  /** Every snapshot is in the campaign and has a settling close. */
  ghost predicate AllSettle(xs: seq<Snapshot>, nc: map<int, real>, campaign: Campaign, at: int) {
    forall i :: 0 <= i < |xs| ==> InCampaign(xs[i], campaign, at) && xs[i].eventTime in nc
  }

  lemma {:induction false} CollectBuys(xs: seq<Snapshot>, nc: map<int, real>, campaign: Campaign, at: int)
    requires AllSettle(xs, nc, campaign, at)
    ensures var trades := Collect(xs, nc, AlwaysBuy(), campaign);
            && |trades| == |xs|
            && forall i :: 0 <= i < |xs| ==> trades[i] == Trade(xs[i].eventTime, nc[xs[i].eventTime] - 1.0)
  {
    if xs != [] {
      var n := |xs| - 1;
      CollectBuys(xs[..n], nc, campaign, at);
      OneBuy(xs[n], nc, campaign);
    }
  }

  lemma {:induction false} OneBuy(x: Snapshot, nc: map<int, real>, campaign: Campaign)
    requires campaign.requestedStart <= x.eventTime <= campaign.requestedEnd && x.eventTime in nc
    ensures Decided(x, nc, AlwaysBuy(), campaign) == [Trade(x.eventTime, nc[x.eventTime] - 1.0)]
  {
    var close := nc[x.eventTime];
    assert 1.0 * (close - 1.0) / 1.0 == close - 1.0;
  }

  lemma {:induction false} CollectSame(xs: seq<Snapshot>, nc: map<int, real>, nc': map<int, real>, plugin: Plugin,
                                       campaign: Campaign)
    requires forall i :: 0 <= i < |xs| ==>
               xs[i].eventTime in nc && xs[i].eventTime in nc' && nc[xs[i].eventTime] == nc'[xs[i].eventTime]
    ensures Collect(xs, nc, plugin, campaign) == Collect(xs, nc', plugin, campaign)
  {
    hide TradeOn;
    if xs != [] {
      CollectSame(xs[..|xs| - 1], nc, nc', plugin, campaign);
    }
  }

  // ---------------------------------------------------------------------------------
  // Time-ordered bars, ties allowed
  // ---------------------------------------------------------------------------------

  ghost predicate Clean(rows: seq<Candle>) {
    TimeOrdered(rows) && forall i :: 0 <= i < |rows| ==> rows[i].settled
  }

  lemma {:induction false} CleanTradesAre(rows: seq<Candle>, plugin: Plugin, campaign: Campaign, s: Settings)
    requires ValidSettings(s) && Clean(rows)
    ensures SymbolTrades(rows, plugin, campaign, s)
            == Collect(Snapshots(rows, s), NextClose(rows), plugin, campaign)
  {
    hide Snapshots, NextClose, Collect;
    SettledAll(rows);
    SortedAlready(rows);
  }

  lemma {:induction false} SnapshotTimes(rows: seq<Candle>, s: Settings, k: nat)
    requires ValidSettings(s) && k < |Snapshots(rows, s)|
    ensures exists i :: 0 <= i < |rows| && rows[i].eventTime == Snapshots(rows, s)[k].eventTime
  {
    hide RowLast;
    var n := |rows| - 1;
    var init := Snapshots(rows[..n], s);
    if k < |init| {
      SnapshotTimes(rows[..n], s, k);
      var i :| 0 <= i < n && rows[..n][i].eventTime == init[k].eventTime;
      assert rows[i].eventTime == Snapshots(rows, s)[k].eventTime;
    } else {
      assert rows[n].eventTime == Snapshots(rows, s)[k].eventTime;
    }
  }

  lemma {:induction false} HasNext(rows: seq<Candle>, closes: map<int, real>, n: nat, i: nat)
    requires i < n < |rows| && forall k :: 0 <= k < |rows| ==> rows[k].eventTime in closes
    ensures rows[i].eventTime in NextUpTo(rows, closes, n)
  {
    if i < n - 1 {
      HasNext(rows, closes, n - 1, i);
    }
  }

  /** Up to bar `k` every snapshot has a settling close, before and after cutting; later ones of the
      cut series have none. */
  lemma {:induction false} SettlingKeys(rows: seq<Candle>, s: Settings, k: nat, j: nat)
    requires ValidSettings(s) && Clean(rows) && k + 1 < |rows| && j < |Snapshots(rows, s)|
    ensures var t := Snapshots(rows, s)[j].eventTime;
            && (t <= rows[k].eventTime ==> t in NextClose(rows) && t in NextClose(rows[..k + 2]))
            && (t > rows[k].eventTime ==> t !in NextClose(rows[..k + 2]))
  {
    hide Snapshots;
    SnapshotTimes(rows, s, j);
    var t, cut := Snapshots(rows, s)[j].eventTime, rows[..k + 2];
    var i :| 0 <= i < |rows| && rows[i].eventTime == t;
    if t <= rows[k].eventTime {
      var m := if i <= k then i else k;
      assert rows[m].eventTime == t;
      HasNext(rows, CloseMap(rows), |rows| - 1, m);
      HasNext(cut, CloseMap(cut), k + 1, m);
    } else {
      NextUpToKeys(cut, CloseMap(cut), k + 1, t);
    }
  }

  /** The back-test up to bar `k` does not see the bars after `k + 1`: each snapshot that counts has
      the same settling close with and without them, and none of them adds a snapshot that counts. */
  ghost predicate SeesNoFurther(rows: seq<Candle>, campaign: Campaign, s: Settings, k: nat)
    requires ValidSettings(s) && k + 1 < |rows|
  {
    var at, cut := rows[k].eventTime, rows[..k + 2];
    var all, kept := Snapshots(rows, s), Snapshots(cut, s);
    && (forall i :: 0 <= i < |kept| && InCampaign(kept[i], campaign, at) ==>
          Settling(rows, kept[i].eventTime) == Settling(cut, kept[i].eventTime))
    && (forall i :: |kept| <= i < |all| ==> !InCampaign(all[i], campaign, at))
  }

  function Settling(rows: seq<Candle>, t: int): Option<real> {
    if t in NextClose(rows) then Some(NextClose(rows)[t]) else None
  }

  /** The trades with and without the bars after `k + 1`, over the decisive snapshots. */
  lemma {:induction false} BothSides(rows: seq<Candle>, plugin: Plugin, campaign: Campaign, s: Settings, k: nat)
    requires ValidSettings(s) && Clean(rows) && k + 1 < |rows|
    ensures var at, cut := rows[k].eventTime, rows[..k + 2];
            var all, kept := Snapshots(rows, s), Snapshots(cut, s);
            && kept <= all
            && UpTo(SymbolTrades(rows, plugin, campaign, s), at)
               == Collect(Decisive(kept, campaign, at), NextClose(rows), plugin, campaign)
                  + Collect(Decisive(all[|kept|..], campaign, at), NextClose(rows), plugin, campaign)
            && SymbolTrades(cut, plugin, campaign, s)
               == Collect(Decisive(kept, campaign, at), NextClose(cut), plugin, campaign)
  {
    hide Snapshots, NextClose, Collect, Decisive, SymbolTrades, UpTo;
    var at, cut := rows[k].eventTime, rows[..k + 2];
    var all, kept := Snapshots(rows, s), Snapshots(cut, s);
    SnapshotsPrefix(rows, s, k + 2);
    assert all == kept + all[|kept|..];
    CleanTradesAre(rows, plugin, campaign, s);
    CleanTradesAre(cut, plugin, campaign, s);
    CollectUpTo(all, NextClose(rows), plugin, campaign, at);
    DecisiveConcat(kept, all[|kept|..], campaign, at);
    CollectConcat(Decisive(kept, campaign, at), Decisive(all[|kept|..], campaign, at), NextClose(rows), plugin, campaign);
    forall i | 0 <= i < |kept| && kept[i].eventTime > at ensures kept[i].eventTime !in NextClose(cut) {
      SettlingKeys(rows, s, k, i);
    }
    CollectKeyed(kept, NextClose(cut), plugin, campaign, at);
  }

  lemma {:induction false} DecisiveSettle(rows: seq<Candle>, campaign: Campaign, s: Settings, k: nat)
    requires ValidSettings(s) && Clean(rows) && k + 1 < |rows|
    ensures var at, cut := rows[k].eventTime, rows[..k + 2];
            var all, kept := Snapshots(rows, s), Snapshots(cut, s);
            && kept <= all
            && AllSettle(Decisive(kept, campaign, at), NextClose(rows), campaign, at)
            && AllSettle(Decisive(kept, campaign, at), NextClose(cut), campaign, at)
            && AllSettle(Decisive(all[|kept|..], campaign, at), NextClose(rows), campaign, at)
  {
    hide Snapshots, NextClose, Decisive;
    var at, cut := rows[k].eventTime, rows[..k + 2];
    var all, kept := Snapshots(rows, s), Snapshots(cut, s);
    SnapshotsPrefix(rows, s, k + 2);
    DecisiveMembers(kept, campaign, at);
    DecisiveMembers(all[|kept|..], campaign, at);
    forall x | x in all && InCampaign(x, campaign, at)
      ensures x.eventTime in NextClose(rows) && x.eventTime in NextClose(cut)
    {
      var j :| 0 <= j < |all| && all[j] == x;
      SettlingKeys(rows, s, k, j);
    }
    forall x | x in Decisive(kept, campaign, at) ensures x in all {
      var j :| 0 <= j < |kept| && kept[j] == x;
      assert all[j] == x;
    }
  }

  /** If the strategy that always buys cannot tell, the back-test sees no further. */
  lemma {:induction false} BuyingTells(rows: seq<Candle>, campaign: Campaign, s: Settings, k: nat)
    requires ValidSettings(s) && Clean(rows) && k + 1 < |rows|
    requires UpTo(SymbolTrades(rows, AlwaysBuy(), campaign, s), rows[k].eventTime)
             == SymbolTrades(rows[..k + 2], AlwaysBuy(), campaign, s)
    ensures SeesNoFurther(rows, campaign, s, k)
  {
    hide Snapshots, NextClose, Collect, Decisive, SymbolTrades, UpTo, AlwaysBuy;
    var at, cut := rows[k].eventTime, rows[..k + 2];
    var all, kept := Snapshots(rows, s), Snapshots(cut, s);
    BothSides(rows, AlwaysBuy(), campaign, s, k);
    var counts, extra := Decisive(kept, campaign, at), Decisive(all[|kept|..], campaign, at);
    DecisiveSettle(rows, campaign, s, k);
    CollectBuys(counts, NextClose(rows), campaign, at);
    CollectBuys(counts, NextClose(cut), campaign, at);
    CollectBuys(extra, NextClose(rows), campaign, at);
    assert extra == [];
    DecisiveMembers(kept, campaign, at);
    DecisiveMembers(all[|kept|..], campaign, at);
    forall i | 0 <= i < |kept| && InCampaign(kept[i], campaign, at)
      ensures Settling(rows, kept[i].eventTime) == Settling(cut, kept[i].eventTime)
    {
      assert kept[i] in counts;
      var j :| 0 <= j < |counts| && counts[j] == kept[i];
      assert Collect(counts, NextClose(rows), AlwaysBuy(), campaign)[j]
             == Collect(counts, NextClose(cut), AlwaysBuy(), campaign)[j];
    }
    forall i | |kept| <= i < |all| ensures !InCampaign(all[i], campaign, at) {
      assert all[|kept|..][i - |kept|] == all[i];
      assert all[i] in all[|kept|..];
      assert all[i] !in extra;
    }
  }

  /** If the back-test sees no further, no strategy can tell. */
  lemma {:induction false} NobodyTells(rows: seq<Candle>, plugin: Plugin, campaign: Campaign, s: Settings, k: nat)
    requires ValidSettings(s) && Clean(rows) && k + 1 < |rows| && SeesNoFurther(rows, campaign, s, k)
    ensures UpTo(SymbolTrades(rows, plugin, campaign, s), rows[k].eventTime)
            == SymbolTrades(rows[..k + 2], plugin, campaign, s)
  {
    hide Snapshots, NextClose, Collect, Decisive, SymbolTrades, UpTo;
    var at, cut := rows[k].eventTime, rows[..k + 2];
    var all, kept := Snapshots(rows, s), Snapshots(cut, s);
    BothSides(rows, plugin, campaign, s, k);
    var counts, extra := Decisive(kept, campaign, at), Decisive(all[|kept|..], campaign, at);
    DecisiveSettle(rows, campaign, s, k);
    DecisiveMembers(kept, campaign, at);
    forall i | 0 <= i < |counts|
      ensures NextClose(rows)[counts[i].eventTime] == NextClose(cut)[counts[i].eventTime]
    {
      assert counts[i] in counts;
      var j :| 0 <= j < |kept| && kept[j] == counts[i];
    }
    CollectSame(counts, NextClose(rows), NextClose(cut), plugin, campaign);
    DecisiveNone(all[|kept|..], campaign, at);
    NothingCollected(NextClose(rows), plugin, campaign);
  }

  /** Main result, ties allowed: removing the bars after `k + 1` leaves exactly the trades up to bar
      `k`, for every strategy, if and only if the back-test sees no further than bar `k + 1`. */
  lemma {:induction false} TradesStableExactly(rows: seq<Candle>, campaign: Campaign, s: Settings, k: nat)
    requires ValidSettings(s) && Clean(rows) && k + 1 < |rows|
    ensures (forall plugin: Plugin ::
               UpTo(SymbolTrades(rows, plugin, campaign, s), rows[k].eventTime)
               == SymbolTrades(rows[..k + 2], plugin, campaign, s))
            <==> SeesNoFurther(rows, campaign, s, k)
  {
    hide SymbolTrades, UpTo, SeesNoFurther;
    if SeesNoFurther(rows, campaign, s, k) {
      forall plugin: Plugin
        ensures UpTo(SymbolTrades(rows, plugin, campaign, s), rows[k].eventTime)
                == SymbolTrades(rows[..k + 2], plugin, campaign, s)
      {
        NobodyTells(rows, plugin, campaign, s, k);
      }
    } else if UpTo(SymbolTrades(rows, AlwaysBuy(), campaign, s), rows[k].eventTime)
              == SymbolTrades(rows[..k + 2], AlwaysBuy(), campaign, s) {
      BuyingTells(rows, campaign, s, k);
    }
  }

  // ---------------------------------------------------------------------------------
  // A series on which it looks ahead
  // ---------------------------------------------------------------------------------

  /** With two warm bars at one time, the trade of the first depends on a bar two places later. */
  lemma {:induction false} TiedBarsLookAhead(rows: seq<Candle>, campaign: Campaign, s: Settings, k: nat)
    requires ValidSettings(s) && Clean(rows) && Lively(rows) && |rows| == k + 3 && k + 1 >= WarmUp(s)
    requires rows[k].eventTime == rows[k + 1].eventTime < rows[k + 2].eventTime
    requires rows[k + 1].close != rows[k + 2].close
    requires campaign.requestedStart <= rows[k].eventTime <= campaign.requestedEnd
    ensures UpTo(SymbolTrades(rows, AlwaysBuy(), campaign, s), rows[k].eventTime)
            != SymbolTrades(rows[..k + 2], AlwaysBuy(), campaign, s)
  {
    hide SymbolTrades, UpTo, AlwaysBuy, NextClose, SnapshotLast, WarmUp;
    var cut, x := rows[..k + 2], SnapshotLast(rows[..k + 1], s);
    WarmWhenLively(rows[..k + 1], s);
    SnapshotsPrefix(cut, s, k + 1);
    assert cut[..k + 1] == rows[..k + 1];
    var kept := Snapshots(rows[..k + 1], s);
    assert Snapshots(cut, s)[|kept| - 1] == kept[|kept| - 1] == x.value;
    NextCloseMeans(rows, k + 1, k + 2);
    NextCloseMeans(cut, k, k + 1);
    if UpTo(SymbolTrades(rows, AlwaysBuy(), campaign, s), rows[k].eventTime)
       == SymbolTrades(cut, AlwaysBuy(), campaign, s) {
      BuyingTells(rows, campaign, s, k);
    }
  }

  function Bar(at: int, close: real): Candle
    requires 1.0 <= close <= 3.0
  {
    Candle(at, 2.0, 3.0, 1.0, close, 1.0, true)
  }

  /** A hundred one-minute bars, the last of them again, and one more at another close. */
  function TiedSeries(): seq<Candle> {
    seq(100, i requires 0 <= i < 100 => Bar(60 * i, 2.0)) + [Bar(5940, 2.0), Bar(6000, 3.0)]
  }

  /** Such a series, with the default settings. */
  lemma {:induction false} TiedSeriesLooksAhead()
    ensures var rows, s, campaign := TiedSeries(), Settings(14, 14, 14, 3.0), Campaign(0, 6000);
            UpTo(SymbolTrades(rows, AlwaysBuy(), campaign, s), 5940)
            != SymbolTrades(rows[..101], AlwaysBuy(), campaign, s)
  {
    hide SymbolTrades, UpTo, AlwaysBuy;
    TiedBarsLookAhead(TiedSeries(), Campaign(0, 6000), Settings(14, 14, 14, 3.0), 99);
  }
}
