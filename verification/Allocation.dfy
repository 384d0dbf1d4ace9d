/** Portfolio construction and entry revalidation of `orchestration/decision_pipeline.py`. */
module Allocation {
  import opened Contracts
  import opened Arithmetic
  import opened Ranking

  datatype PolicyRecord = Policy(
    equity: real,
    riskFraction: real,
    maxOrderNotional: real,
    maxTotalNewNotional: real,
    maxPositions: nat,
    maxSectorPositions: nat,
    maxCorrelation: real,
    maxEntryDrift: real,
    minRewardRisk: real)

  /** What `AllocationPolicy.__post_init__` admits. */
  type Policy = p: PolicyRecord
    | p.equity > 0.0 && p.riskFraction > 0.0 && p.maxOrderNotional > 0.0 && p.maxTotalNewNotional > 0.0
      && p.maxPositions > 0 && p.maxSectorPositions > 0 && 0.0 <= p.maxCorrelation <= 1.0
      && p.maxEntryDrift >= 0.0 && p.minRewardRisk > 0.0
    witness Policy(1.0, 1.0, 1.0, 1.0, 1, 1, 0.0, 0.0, 1.0)

  type Correlations = map<(string, string), real>

  datatype Allocated = Allocated(item: Scored, quantity: real, entryPrice: real, stopPrice: real, targetPrice: real)

  function RiskCash(policy: Policy): real {
    policy.equity * policy.riskFraction
  }

  function StopDistance(c: Candidate): (r: real)
    ensures r > 0.0
  {
    Abs(c.referencePrice - c.stopPrice)
  }

  function Quantity(policy: Policy, c: Candidate): real {
    Min(RiskCash(policy) / StopDistance(c), policy.maxOrderNotional / c.referencePrice)
  }

  /** The allocation a candidate gets if it is selected. */
  function Sized(policy: Policy, item: Scored): Allocated {
    var c := item.candidate;
    Allocated(item, Quantity(policy, c), c.referencePrice, c.stopPrice, c.targetPrice)
  }

  function Notional(a: Allocated): real {
    a.quantity * a.entryPrice
  }

  function Total(batch: seq<Allocated>): real {
    if batch == [] then 0.0 else Total(batch[..|batch| - 1]) + Notional(batch[|batch| - 1])
  }

  function SectorOf(a: Allocated): string {
    var sector := a.item.candidate.sector;
    if sector.Some? && sector.value != "" then sector.value else "UNCLASSIFIED"
  }

  function InSector(batch: seq<Allocated>, sector: string): nat {
    if batch == [] then 0
    else InSector(batch[..|batch| - 1], sector) + (if SectorOf(batch[|batch| - 1]) == sector then 1 else 0)
  }

  /** Allocations whose candidate has exactly this sector entry. */
  function Entered(batch: seq<Allocated>, entry: Option<string>): nat {
    if batch == [] then 0
    else
      Entered(batch[..|batch| - 1], entry) + (if batch[|batch| - 1].item.candidate.sector == entry then 1 else 0)
  }

  /** What a sector count counts: the candidates entered under the name and, for the name that stands
      for none, those without a sector or with an empty one. */
  lemma {:induction false} SectorCounts(batch: seq<Allocated>, sector: string)
    ensures InSector(batch, sector)
            == (if sector == "" then 0 else Entered(batch, Some(sector)))
               + (if sector == "UNCLASSIFIED" then Entered(batch, None) + Entered(batch, Some("")) else 0)
  {
    if batch != [] {
      SectorCounts(batch[..|batch| - 1], sector);
    }
  }

  /** `correlations.get((symbol, other), correlations.get((other, symbol), 0.0))` */
  function Correlation(correlations: Correlations, symbol: string, other: string): real {
    if (symbol, other) in correlations then correlations[(symbol, other)]
    else if (other, symbol) in correlations then correlations[(other, symbol)]
    else 0.0
  }

  /** The lookup is directed, the entry in the order asked for coming first: it is the same both ways
      unless both entries are there and differ. */
  lemma {:induction false} CorrelationBothWays(correlations: Correlations, a: string, b: string)
    ensures (a, b) in correlations ==> Correlation(correlations, a, b) == correlations[(a, b)]
    ensures (a, b) !in correlations && (b, a) !in correlations ==> Correlation(correlations, a, b) == 0.0
    ensures Correlation(correlations, a, b) == Correlation(correlations, b, a) <==>
            ((a, b) in correlations && (b, a) in correlations ==> correlations[(a, b)] == correlations[(b, a)])
  {}

  function SymbolOf(a: Allocated): string {
    a.item.candidate.symbol
  }

  // ---------------------------------------------------------------------------------
  // What a batch must satisfy
  // ---------------------------------------------------------------------------------

  /** The limits of one allocation on its own. */
  ghost predicate OrderFits(policy: Policy, existing: set<(Market, string)>, a: Allocated) {
    && (a.item.candidate.market, SymbolOf(a)) !in existing
    && a.quantity > 0.0
    && a.quantity * StopDistance(a.item.candidate) <= RiskCash(policy)
    && Notional(a) <= policy.maxOrderNotional
  }

  /** The limits between two allocations, the later one looked up first. */
  ghost predicate PairFits(policy: Policy, correlations: Correlations, earlier: Allocated, later: Allocated) {
    && SymbolOf(earlier) != SymbolOf(later)
    && Abs(Correlation(correlations, SymbolOf(later), SymbolOf(earlier))) <= policy.maxCorrelation
  }

  /** The limits of the batch as a whole: count, sectors and total notional. */
  ghost predicate TotalsFit(policy: Policy, batch: seq<Allocated>) {
    && |batch| <= policy.maxPositions
    && (forall sector :: InSector(batch, sector) <= policy.maxSectorPositions)
    && Total(batch) <= policy.maxTotalNewNotional
  }

  /** Every limit of the policy at once. */
  ghost predicate Feasible(policy: Policy, existing: set<(Market, string)>, correlations: Correlations,
                           batch: seq<Allocated>)
  {
    && (forall i :: 0 <= i < |batch| ==> OrderFits(policy, existing, batch[i]))
    && (forall i, j :: 0 <= i < j < |batch| ==> PairFits(policy, correlations, batch[i], batch[j]))
    && TotalsFit(policy, batch)
  }

  /** The size is the largest that keeps both the loss to the stop within the risk budget and the
      notional within the order limit: one of the two is used up. */
  lemma {:induction false} QuantityBounds(policy: Policy, c: Candidate)
    ensures var q, cash := Quantity(policy, c), policy.equity * policy.riskFraction;
            && q > 0.0
            && q * Abs(c.referencePrice - c.stopPrice) <= cash
            && q * c.referencePrice <= policy.maxOrderNotional
            && (q * Abs(c.referencePrice - c.stopPrice) == cash || q * c.referencePrice == policy.maxOrderNotional)
            && cash == RiskCash(policy)
  {}

  // ---------------------------------------------------------------------------------
  // The greedy allocator
  // ---------------------------------------------------------------------------------

  predicate Correlated(policy: Policy, correlations: Correlations, symbol: string, batch: seq<Allocated>) {
    exists i :: 0 <= i < |batch| && Abs(Correlation(correlations, symbol, SymbolOf(batch[i]))) > policy.maxCorrelation
  }

  predicate SymbolTaken(symbol: string, batch: seq<Allocated>) {
    exists i :: 0 <= i < |batch| && SymbolOf(batch[i]) == symbol
  }

  /** The checks of `_allocate` against the batch so far; None if all pass. */
  function Refusal(policy: Policy, existing: set<(Market, string)>, correlations: Correlations, batch: seq<Allocated>,
                   item: Scored): Option<string>
  {
    var a := Sized(policy, item);
    if (item.candidate.market, item.candidate.symbol) in existing then Some("EXISTING_POSITION")
    else if SymbolTaken(item.candidate.symbol, batch) then Some("SYMBOL_ALREADY_SELECTED")
    else if |batch| >= policy.maxPositions then Some("POSITION_CAPACITY_REACHED")
    else if InSector(batch, SectorOf(a)) >= policy.maxSectorPositions then Some("SECTOR_CONCENTRATION")
    else if Correlated(policy, correlations, item.candidate.symbol, batch) then Some("CORRELATION_LIMIT")
    else if Total(batch) + Notional(a) > policy.maxTotalNewNotional then Some("INSUFFICIENT_BATCH_CAPITAL")
    else None
  }

  ghost predicate Crowded(policy: Policy, batch: seq<Allocated>) {
    exists sector :: InSector(batch, sector) > policy.maxSectorPositions
  }

  /** The limits of the batch with one more allocation, in the order they are checked. */
  ghost predicate Breaks(policy: Policy, existing: set<(Market, string)>, correlations: Correlations,
                         batch: seq<Allocated>, a: Allocated, limit: nat)
  {
    var longer := batch + [a];
    match limit
    case 0 => (a.item.candidate.market, SymbolOf(a)) in existing
    case 1 => exists i :: 0 <= i < |batch| && SymbolOf(batch[i]) == SymbolOf(a)
    case 2 => |longer| > policy.maxPositions
    case 3 => Crowded(policy, longer)
    case 4 => exists i :: 0 <= i < |batch|
                          && Abs(Correlation(correlations, SymbolOf(a), SymbolOf(batch[i]))) > policy.maxCorrelation
    case 5 => Total(longer) > policy.maxTotalNewNotional
    case _ => false
  }

  const LIMIT_NAMES := ["EXISTING_POSITION", "SYMBOL_ALREADY_SELECTED", "POSITION_CAPACITY_REACHED",
                        "SECTOR_CONCENTRATION", "CORRELATION_LIMIT", "INSUFFICIENT_BATCH_CAPITAL"]

  /** A refusal names the first limit that the batch with the candidate would break. */
  lemma {:induction false} RefusalNamesTheLimit(policy: Policy, existing: set<(Market, string)>,
                                                correlations: Correlations, batch: seq<Allocated>, item: Scored, k: nat)
    requires k < 6 && !Crowded(policy, batch)
    ensures var a := Sized(policy, item);
            Refusal(policy, existing, correlations, batch, item) == Some(LIMIT_NAMES[k])
            <==> Breaks(policy, existing, correlations, batch, a, k)
                 && forall j :: 0 <= j < k ==> !Breaks(policy, existing, correlations, batch, a, j)
  {
    hide Quantity, Notional, Total, InSector, Correlation, SectorOf, Crowded;
    var a := Sized(policy, item);
    TotalAppend(batch, a);
    LongerSector(policy, batch, a);
    NamesDiffer();
    assert Breaks(policy, existing, correlations, batch, a, 0)
        == ((item.candidate.market, item.candidate.symbol) in existing);
    assert Breaks(policy, existing, correlations, batch, a, 1) == SymbolTaken(item.candidate.symbol, batch);
    assert Breaks(policy, existing, correlations, batch, a, 2) == (|batch| >= policy.maxPositions);
    assert Breaks(policy, existing, correlations, batch, a, 3)
        == (InSector(batch, SectorOf(a)) >= policy.maxSectorPositions);
    assert Breaks(policy, existing, correlations, batch, a, 4)
        == Correlated(policy, correlations, item.candidate.symbol, batch);
    assert Breaks(policy, existing, correlations, batch, a, 5)
        == (Total(batch) + Notional(a) > policy.maxTotalNewNotional);
    assert k == 0 || k == 1 || k == 2 || k == 3 || k == 4 || k == 5;
    hide Breaks, Sized, Correlated, SymbolTaken;
  }

  lemma {:induction false} NamesDiffer()
    ensures forall i, j :: 0 <= i < j < 6 ==> LIMIT_NAMES[i] != LIMIT_NAMES[j]
  {
    assert forall i :: 0 <= i < 6 ==> LIMIT_NAMES[i][0] in {'E', 'S', 'P', 'C', 'I'};
    assert LIMIT_NAMES[1][1] == 'Y' && LIMIT_NAMES[3][1] == 'E';
  }

  lemma {:induction false} LongerSector(policy: Policy, batch: seq<Allocated>, a: Allocated)
    requires !Crowded(policy, batch)
    ensures Crowded(policy, batch + [a]) <==> InSector(batch, SectorOf(a)) >= policy.maxSectorPositions
  {
    hide SectorOf, InSector;
    SectorAppend(batch, a, SectorOf(a));
    forall sector
      ensures InSector(batch + [a], sector) == InSector(batch, sector) + (if sector == SectorOf(a) then 1 else 0)
    {
      SectorAppend(batch, a, sector);
    }
  }

  function Allocate(policy: Policy, existing: set<(Market, string)>, correlations: Correlations, items: seq<Scored>)
    : seq<Allocated>
  {
    if items == [] then []
    else
      var n := |items| - 1;
      var batch := Allocate(policy, existing, correlations, items[..n]);
      if Refusal(policy, existing, correlations, batch, items[n]).None? then batch + [Sized(policy, items[n])] else batch
  }

  lemma {:induction false} TotalAppend(batch: seq<Allocated>, a: Allocated)
    ensures Total(batch + [a]) == Total(batch) + Notional(a)
  {
    assert (batch + [a])[..|batch|] == batch;
  }

  lemma {:induction false} SectorAppend(batch: seq<Allocated>, a: Allocated, sector: string)
    ensures InSector(batch + [a], sector) == InSector(batch, sector) + (if SectorOf(a) == sector then 1 else 0)
  {
    assert (batch + [a])[..|batch|] == batch;
  }

  /** The checks are exact: on a feasible batch, a candidate passes them if and only if the
      batch with it is feasible. */
  lemma {:induction false} RefusalIsExact(policy: Policy, existing: set<(Market, string)>, correlations: Correlations,
                                          batch: seq<Allocated>, item: Scored)
    requires Feasible(policy, existing, correlations, batch)
    ensures Refusal(policy, existing, correlations, batch, item).None?
            <==> Feasible(policy, existing, correlations, batch + [Sized(policy, item)])
  {
    hide InSector, Total, Correlation, Quantity, SectorOf;
    var a := Sized(policy, item);
    var more := batch + [a];
    var n := |batch|;
    QuantityBounds(policy, item.candidate);
    TotalAppend(batch, a);
    SectorAppend(batch, a, SectorOf(a));
    if Refusal(policy, existing, correlations, batch, item).None? {
      forall i, j | 0 <= i < j < |more| ensures PairFits(policy, correlations, more[i], more[j]) {
        if j < n {
          assert PairFits(policy, correlations, batch[i], batch[j]);
        } else {
          assert SymbolOf(batch[i]) != item.candidate.symbol;
        }
      }
      forall i | 0 <= i < |more| ensures OrderFits(policy, existing, more[i]) {
        if i < n {
          assert OrderFits(policy, existing, batch[i]);
        }
      }
      forall sector ensures InSector(more, sector) <= policy.maxSectorPositions {
        SectorAppend(batch, a, sector);
      }
    }
    if Feasible(policy, existing, correlations, more) {
      assert OrderFits(policy, existing, more[n]);
      forall i | 0 <= i < n ensures PairFits(policy, correlations, batch[i], a) {
        assert PairFits(policy, correlations, more[i], more[n]);
      }
      assert InSector(more, SectorOf(a)) <= policy.maxSectorPositions;
    }
  }

  lemma {:induction false} EmptyFeasible(policy: Policy, existing: set<(Market, string)>, correlations: Correlations)
    ensures Feasible(policy, existing, correlations, [])
  {}

  /** Whatever the candidates, the batch obeys every limit of the policy. */
  lemma {:induction false} AllocationFeasible(policy: Policy, existing: set<(Market, string)>,
                                              correlations: Correlations, items: seq<Scored>)
    ensures Feasible(policy, existing, correlations, Allocate(policy, existing, correlations, items))
  {
    hide Refusal, Feasible, Sized;
    if items == [] {
      EmptyFeasible(policy, existing, correlations);
    } else {
      var n := |items| - 1;
      AllocationFeasible(policy, existing, correlations, items[..n]);
      RefusalIsExact(policy, existing, correlations, Allocate(policy, existing, correlations, items[..n]), items[n]);
    }
  }

  // -- feasibility only shrinks as batches grow ----------------------------------------------

  lemma {:induction false} TotalOfPrefix(batch: seq<Allocated>, k: nat)
    requires k <= |batch| && forall i :: 0 <= i < |batch| ==> Notional(batch[i]) >= 0.0
    ensures Total(batch[..k]) <= Total(batch)
  {
    if k == |batch| {
      assert batch[..k] == batch;
    } else {
      TotalOfPrefix(batch[..|batch| - 1], k);
      assert batch[..|batch| - 1][..k] == batch[..k];
    }
  }

  lemma {:induction false} SectorOfPrefix(batch: seq<Allocated>, k: nat, sector: string)
    requires k <= |batch|
    ensures InSector(batch[..k], sector) <= InSector(batch, sector)
  {
    if k == |batch| {
      assert batch[..k] == batch;
    } else {
      SectorOfPrefix(batch[..|batch| - 1], k, sector);
      assert batch[..|batch| - 1][..k] == batch[..k];
    }
  }

  /** If a batch stays feasible with one more order, so does every prefix of it. */
  lemma {:induction false} FeasibleWithoutTail(policy: Policy, existing: set<(Market, string)>,
                                               correlations: Correlations, batch: seq<Allocated>, k: nat, a: Allocated)
    requires k <= |batch| && Feasible(policy, existing, correlations, batch + [a])
    requires forall i :: 0 <= i < |batch| ==> Notional(batch[i]) >= 0.0
    ensures Feasible(policy, existing, correlations, batch[..k] + [a])
  {
    hide InSector, Total, Notional, OrderFits, PairFits;
    var more, less := batch + [a], batch[..k] + [a];
    var n := |batch|;
    forall i | 0 <= i < |less| ensures OrderFits(policy, existing, less[i]) {
      assert less[i] == more[if i < k then i else n];
    }
    forall i, j | 0 <= i < j < |less| ensures PairFits(policy, correlations, less[i], less[j]) {
      assert less[i] == more[i];
      assert less[j] == more[if j < k then j else n];
    }
    TotalAppend(batch, a);
    TotalAppend(batch[..k], a);
    TotalOfPrefix(batch, k);
    forall sector ensures InSector(less, sector) <= policy.maxSectorPositions {
      SectorAppend(batch, a, sector);
      SectorAppend(batch[..k], a, sector);
      SectorOfPrefix(batch, k, sector);
      assert InSector(more, sector) <= policy.maxSectorPositions;
    }
  }

  lemma {:induction false} AllocationGrows(policy: Policy, existing: set<(Market, string)>, correlations: Correlations,
                                           items: seq<Scored>, k: nat)
    requires k <= |items|
    ensures Allocate(policy, existing, correlations, items[..k]) <= Allocate(policy, existing, correlations, items)
  {
    hide Refusal, Sized;
    if k == |items| {
      assert items[..k] == items;
    } else {
      var n := |items| - 1;
      AllocationGrows(policy, existing, correlations, items[..n], k);
      assert items[..n][..k] == items[..k];
    }
  }

  ghost predicate AllSized(policy: Policy, batch: seq<Allocated>) {
    forall i :: 0 <= i < |batch| ==> batch[i] == Sized(policy, batch[i].item) && Notional(batch[i]) > 0.0
  }

  lemma {:induction false} AllocationSized(policy: Policy, existing: set<(Market, string)>, correlations: Correlations,
                                           items: seq<Scored>)
    ensures AllSized(policy, Allocate(policy, existing, correlations, items))
  {
    hide Refusal, Sized, Notional;
    if items != [] {
      var n := |items| - 1;
      AllocationSized(policy, existing, correlations, items[..n]);
      SizedPositive(policy, items[n]);
      var batch := Allocate(policy, existing, correlations, items);
      forall i | 0 <= i < |batch| ensures batch[i] == Sized(policy, batch[i].item) && Notional(batch[i]) > 0.0 {
        if i < |Allocate(policy, existing, correlations, items[..n])| {
          assert batch[i] == Allocate(policy, existing, correlations, items[..n])[i];
        }
      }
    }
  }

  lemma {:induction false} SizedPositive(policy: Policy, item: Scored)
    ensures Sized(policy, item).item == item && Notional(Sized(policy, item)) > 0.0
  {
    QuantityBounds(policy, item.candidate);
    assert Quantity(policy, item.candidate) * item.candidate.referencePrice > 0.0;
  }

  /** Main result: the batch is maximal. The k-th candidate was selected if and only if the
      batch so far could take it, and no candidate left out fits into the final batch. */
  lemma {:induction false} AllocationMaximal(policy: Policy, existing: set<(Market, string)>,
                                             correlations: Correlations, items: seq<Scored>, k: nat)
    requires k < |items|
    ensures var before := Allocate(policy, existing, correlations, items[..k]);
            var final := Allocate(policy, existing, correlations, items);
            var refused := Refusal(policy, existing, correlations, before, items[k]).Some?;
            && (refused <==> !Feasible(policy, existing, correlations, before + [Sized(policy, items[k])]))
            && (refused ==> !Feasible(policy, existing, correlations, final + [Sized(policy, items[k])]))
            && (!refused ==> Sized(policy, items[k]) in final)
  {
    hide Refusal, Feasible, Sized, Notional;
    var before := Allocate(policy, existing, correlations, items[..k]);
    var final := Allocate(policy, existing, correlations, items);
    AllocationFeasible(policy, existing, correlations, items[..k]);
    RefusalIsExact(policy, existing, correlations, before, items[k]);
    AllocationGrows(policy, existing, correlations, items, k);
    assert final[..|before|] == before;
    AllocationSized(policy, existing, correlations, items);
    if Feasible(policy, existing, correlations, final + [Sized(policy, items[k])]) {
      FeasibleWithoutTail(policy, existing, correlations, final, |before|, Sized(policy, items[k]));
    }
    AllocationGrows(policy, existing, correlations, items, k + 1);
    assert items[..k + 1][..k] == items[..k];
    var next := Allocate(policy, existing, correlations, items[..k + 1]);
    if Refusal(policy, existing, correlations, before, items[k]).None? {
      assert next == before + [Sized(policy, items[k])];
      assert final[|before|] == next[|before|];
    }
  }

  // ---------------------------------------------------------------------------------
  // Revalidation against live quotes
  // ---------------------------------------------------------------------------------

  type Quotes = map<(Market, string), real>

  function RewardRisk(c: Candidate, quote: real): real {
    var risk := Abs(quote - c.stopPrice);
    if risk > 0.0 then Abs(c.targetPrice - quote) / risk else 0.0
  }

  function Drift(c: Candidate, quote: real): real {
    Abs(quote - c.referencePrice) / c.referencePrice
  }

  predicate Geometry(c: Candidate, quote: real) {
    if c.action.Buy? then c.stopPrice < quote < c.targetPrice else c.targetPrice < quote < c.stopPrice
  }

  /** The checks of `_revalidate`; None if all pass. */
  function EntryRefusal(policy: Policy, quotes: Quotes, a: Allocated): Option<string> {
    var c := a.item.candidate;
    if (c.market, c.symbol) !in quotes || quotes[(c.market, c.symbol)] <= 0.0 then Some("LIVE_QUOTE_UNAVAILABLE")
    else
      var quote := quotes[(c.market, c.symbol)];
      if Drift(c, quote) > policy.maxEntryDrift then Some("ENTRY_DRIFT_EXCEEDED")
      else if !Geometry(c, quote) || RewardRisk(c, quote) < policy.minRewardRisk then Some("RR_DEGRADED_AT_ENTRY")
      else None
  }

  function Requoted(quotes: Quotes, a: Allocated): Allocated {
    var key := (a.item.candidate.market, a.item.candidate.symbol);
    if key in quotes then a.(entryPrice := quotes[key]) else a
  }

  function Revalidate(policy: Policy, quotes: Quotes, batch: seq<Allocated>): seq<Allocated> {
    if batch == [] then []
    else
      var n := |batch| - 1;
      var init := Revalidate(policy, quotes, batch[..n]);
      if EntryRefusal(policy, quotes, batch[n]).None? then init + [Requoted(quotes, batch[n])] else init
  }

  /** What entry revalidation asks of a candidate, in prices: a positive quote, within the drift limit
      of the reference, with stop and target on their sides and enough reward for the risk. */
  ghost predicate Quoted(c: Candidate, quotes: Quotes) {
    (c.market, c.symbol) in quotes && quotes[(c.market, c.symbol)] > 0.0
  }

  ghost predicate NearReference(policy: Policy, c: Candidate, quote: real) {
    Abs(quote - c.referencePrice) <= policy.maxEntryDrift * c.referencePrice
  }

  ghost predicate WorthTheRisk(policy: Policy, c: Candidate, quote: real) {
    && (c.action == Buy ==> c.stopPrice < quote < c.targetPrice)
    && (c.action == Sell ==> c.targetPrice < quote < c.stopPrice)
    && Abs(c.targetPrice - quote) >= policy.minRewardRisk * Abs(quote - c.stopPrice)
  }

  ghost predicate Survives(policy: Policy, quotes: Quotes, c: Candidate) {
    && Quoted(c, quotes)
    && NearReference(policy, c, quotes[(c.market, c.symbol)])
    && WorthTheRisk(policy, c, quotes[(c.market, c.symbol)])
  }

  lemma {:induction false} QuotientBound(x: real, d: real, bound: real)
    requires d > 0.0
    ensures x / d <= bound <==> x <= bound * d
    ensures x / d < bound <==> x < bound * d
  {
    assert (x / d) * d == x;
    ProductBound(x / d, d, bound);
  }

  lemma {:induction false} ProductBound(q: real, d: real, bound: real)
    requires d > 0.0
    ensures q <= bound <==> q * d <= bound * d
    ensures q < bound <==> q * d < bound * d
  {
    if q < bound {
      StrictlyScaled(q, bound, d);
    } else if q > bound {
      StrictlyScaled(bound, q, d);
    }
  }

  /** Entry revalidation is exact, and its refusals say which of the three it is, in that order. */
  lemma {:induction false} RevalidationExact(policy: Policy, quotes: Quotes, a: Allocated)
    ensures var c := a.item.candidate;
            var refusal := EntryRefusal(policy, quotes, a);
            && (refusal == None <==> Survives(policy, quotes, c))
            && (refusal == Some("LIVE_QUOTE_UNAVAILABLE") <==> !Quoted(c, quotes))
            && (refusal == Some("ENTRY_DRIFT_EXCEEDED") <==>
                  Quoted(c, quotes) && !NearReference(policy, c, quotes[(c.market, c.symbol)]))
            && (refusal == Some("RR_DEGRADED_AT_ENTRY") <==>
                  && Quoted(c, quotes) && NearReference(policy, c, quotes[(c.market, c.symbol)])
                  && !WorthTheRisk(policy, c, quotes[(c.market, c.symbol)]))
  {
    hide Drift, RewardRisk, Quoted, NearReference, WorthTheRisk, Abs;
    var c := a.item.candidate;
    RefusalTexts();
    QuotedMeans(c, quotes);
    if Quoted(c, quotes) {
      DriftMeans(policy, c, quotes[(c.market, c.symbol)]);
      RewardMeans(policy, c, quotes[(c.market, c.symbol)]);
    }
  }

  lemma {:induction false} QuotedMeans(c: Candidate, quotes: Quotes)
    ensures Quoted(c, quotes) <==> (c.market, c.symbol) in quotes && quotes[(c.market, c.symbol)] > 0.0
  {}

  lemma {:induction false} DriftMeans(policy: Policy, c: Candidate, quote: real)
    ensures NearReference(policy, c, quote) <==> Drift(c, quote) <= policy.maxEntryDrift
  {
    QuotientBound(Abs(quote - c.referencePrice), c.referencePrice, policy.maxEntryDrift);
  }

  lemma {:induction false} RewardMeans(policy: Policy, c: Candidate, quote: real)
    ensures WorthTheRisk(policy, c, quote) <==> Geometry(c, quote) && RewardRisk(c, quote) >= policy.minRewardRisk
  {
    if Geometry(c, quote) {
      QuotientBound(Abs(c.targetPrice - quote), Abs(quote - c.stopPrice), policy.minRewardRisk);
    }
  }

  lemma {:induction false} RefusalTexts()
    ensures "LIVE_QUOTE_UNAVAILABLE" != "ENTRY_DRIFT_EXCEEDED" && "LIVE_QUOTE_UNAVAILABLE" != "RR_DEGRADED_AT_ENTRY"
    ensures "ENTRY_DRIFT_EXCEEDED" != "RR_DEGRADED_AT_ENTRY"
  {
    assert "LIVE_QUOTE_UNAVAILABLE"[0] == 'L' && "ENTRY_DRIFT_EXCEEDED"[0] == 'E' && "RR_DEGRADED_AT_ENTRY"[0] == 'R';
  }

  /** The surviving orders, in order, each as planned but for its price, which is the quote. */
  ghost function Survivors(policy: Policy, quotes: Quotes, batch: seq<Allocated>): seq<Allocated> {
    if batch == [] then []
    else
      var n := |batch| - 1;
      var c := batch[n].item.candidate;
      var init := Survivors(policy, quotes, batch[..n]);
      if Survives(policy, quotes, c) then
        init + [Allocated(batch[n].item, batch[n].quantity, quotes[(c.market, c.symbol)], batch[n].stopPrice,
                          batch[n].targetPrice)]
      else init
  }

  /** Main result: revalidation keeps exactly the orders that survive, at their quotes. */
  lemma {:induction false} RevalidatesSurvivors(policy: Policy, quotes: Quotes, batch: seq<Allocated>)
    ensures Revalidate(policy, quotes, batch) == Survivors(policy, quotes, batch)
  {
    hide EntryRefusal;
    if batch != [] {
      var n := |batch| - 1;
      RevalidatesSurvivors(policy, quotes, batch[..n]);
      RevalidationExact(policy, quotes, batch[n]);
    }
  }

  /** A quote within the drift limit moves the price by at most that share of it. */
  lemma {:induction false} DriftBounds(policy: Policy, quotes: Quotes, a: Allocated)
    requires EntryRefusal(policy, quotes, a).None?
    ensures var c := a.item.candidate;
            var quote := Requoted(quotes, a).entryPrice;
            && 0.0 < quote
            && Abs(quote - c.referencePrice) <= policy.maxEntryDrift * c.referencePrice
            && Geometry(c, quote)
  {}

  /** An amount grown by the drift limit. */
  function Drifted(policy: Policy, amount: real): real {
    (1.0 + policy.maxEntryDrift) * amount
  }

  function LossToStop(quantity: real, price: real, stop: real): real {
    quantity * Abs(price - stop)
  }

  /** The risk budget plus the drift on the largest order. */
  function LossLimit(policy: Policy): real {
    RiskCash(policy) + policy.maxEntryDrift * policy.maxOrderNotional
  }

  /** One surviving order at its quote: notional within (1 + d) of its planned notional, and
      loss to its stop within the risk budget plus the drift on its notional. */
  lemma {:induction false} OrderAtQuote(policy: Policy, quotes: Quotes, item: Scored)
    requires EntryRefusal(policy, quotes, Sized(policy, item)).None?
    ensures var planned := Sized(policy, item);
            var live := Requoted(quotes, planned);
            && 0.0 < Notional(live) <= Drifted(policy, Notional(planned))
            && LossToStop(live.quantity, live.entryPrice, live.stopPrice) <= LossLimit(policy)
  {
    hide Quantity, RiskCash, EntryRefusal, Drifted, LossToStop, LossLimit;
    var planned := Sized(policy, item);
    var c := item.candidate;
    DriftBounds(policy, quotes, planned);
    QuantityBounds(policy, c);
    var live := Requoted(quotes, planned);
    var quote := live.entryPrice;
    LiveNotional(policy, planned, live);
    LiveLoss(policy, planned.quantity, c.referencePrice, quote, c.stopPrice);
    assert live.stopPrice == c.stopPrice && live.quantity == planned.quantity;
  }

  lemma {:induction false} LiveNotional(policy: Policy, planned: Allocated, live: Allocated)
    requires planned.quantity == live.quantity > 0.0 && planned.entryPrice > 0.0 && live.entryPrice > 0.0
    requires Abs(live.entryPrice - planned.entryPrice) <= policy.maxEntryDrift * planned.entryPrice
    ensures 0.0 < Notional(live) <= Drifted(policy, Notional(planned))
  {}

  lemma {:induction false} LiveLoss(policy: Policy, q: real, p: real, quote: real, stop: real)
    requires q > 0.0 && p > 0.0 && Abs(quote - p) <= policy.maxEntryDrift * p
    requires q * Abs(p - stop) <= RiskCash(policy) && q * p <= policy.maxOrderNotional
    ensures LossToStop(q, quote, stop) <= LossLimit(policy)
  {}

  lemma {:induction false} DriftedAdds(policy: Policy, x: real, y: real, total: real, planned: real)
    requires x <= Drifted(policy, total) && y <= Drifted(policy, planned)
    ensures x + y <= Drifted(policy, total + planned)
  {
    var k := 1.0 + policy.maxEntryDrift;
    assert k * (total + planned) == k * total + k * planned;
  }

  lemma {:induction false} DriftedMonotone(policy: Policy, x: real, y: real)
    requires x <= y
    ensures Drifted(policy, x) <= Drifted(policy, y) && Drifted(policy, 0.0) == 0.0
  {
    var k := 1.0 + policy.maxEntryDrift;
    Scaled(x, y, k);
    assert k * x == x * k && k * y == y * k;
  }

  lemma {:induction false} TotalAtQuotes(policy: Policy, quotes: Quotes, batch: seq<Allocated>)
    requires AllSized(policy, batch)
    ensures Total(Revalidate(policy, quotes, batch)) <= Drifted(policy, Total(batch))
    ensures Total(batch) >= 0.0
  {
    hide Notional, EntryRefusal, Requoted, Sized, Drifted, LossToStop, LossLimit;
    DriftedMonotone(policy, 0.0, 0.0);
    if batch != [] {
      var n := |batch| - 1;
      var init := Revalidate(policy, quotes, batch[..n]);
      TotalAtQuotes(policy, quotes, batch[..n]);
      var planned := Notional(batch[n]);
      DriftedMonotone(policy, 0.0, planned);
      var live := 0.0;
      if EntryRefusal(policy, quotes, batch[n]).None? {
        OrderAtQuote(policy, quotes, batch[n].item);
        TotalAppend(init, Requoted(quotes, batch[n]));
        live := Notional(Requoted(quotes, batch[n]));
      }
      DriftedAdds(policy, Total(init), live, Total(batch[..n]), planned);
    }
  }

  /** Main result: after allocation and revalidation with drift limit d, the batch's notional
      at live quotes is at most (1 + d) times the total limit. */
  lemma {:induction false} LiveTotalBounded(policy: Policy, existing: set<(Market, string)>,
                                            correlations: Correlations, quotes: Quotes, items: seq<Scored>)
    ensures var live := Revalidate(policy, quotes, Allocate(policy, existing, correlations, items));
            Total(live) <= Drifted(policy, policy.maxTotalNewNotional)
  {
    hide Allocate, Total, Revalidate, Notional, Sized, Drifted;
    var batch := Allocate(policy, existing, correlations, items);
    AllocationFeasible(policy, existing, correlations, items);
    AllocationSized(policy, existing, correlations, items);
    TotalAtQuotes(policy, quotes, batch);
    DriftedMonotone(policy, Total(batch), policy.maxTotalNewNotional);
  }

  /** Every order of the revalidated batch is some planned order at its live quote; it has
      valid stop and target around that quote, and its loss to the stop is within the risk
      budget plus the drift on the order limit. */
  lemma {:induction false} EveryLiveOrder(policy: Policy, quotes: Quotes, batch: seq<Allocated>, i: nat)
    requires AllSized(policy, batch)
    requires i < |Revalidate(policy, quotes, batch)|
    ensures var live := Revalidate(policy, quotes, batch)[i];
            && (exists k :: 0 <= k < |batch| && live == Requoted(quotes, batch[k]))
            && Geometry(live.item.candidate, live.entryPrice)
            && live.stopPrice == live.item.candidate.stopPrice && live.targetPrice == live.item.candidate.targetPrice
            && LossToStop(live.quantity, live.entryPrice, live.stopPrice) <= LossLimit(policy)
  {
    hide EntryRefusal, Sized, Geometry, Requoted, Notional, LossToStop, LossLimit, Drifted;
    var n := |batch| - 1;
    RequotedPrices(policy, quotes, batch[n].item);
    var init := Revalidate(policy, quotes, batch[..n]);
    RequotedItem(quotes, batch[n]);
    if i < |init| {
      EveryLiveOrder(policy, quotes, batch[..n], i);
      var k :| 0 <= k < n && init[i] == Requoted(quotes, batch[..n][k]);
      assert Revalidate(policy, quotes, batch)[i] == Requoted(quotes, batch[k]);
    } else {
      assert Revalidate(policy, quotes, batch)[i] == Requoted(quotes, batch[n]);
      OrderAtQuote(policy, quotes, batch[n].item);
      DriftBounds(policy, quotes, batch[n]);
    }
  }

  lemma {:induction false} RequotedPrices(policy: Policy, quotes: Quotes, item: Scored)
    ensures var live := Requoted(quotes, Sized(policy, item));
            live.stopPrice == item.candidate.stopPrice && live.targetPrice == item.candidate.targetPrice
  {}

  lemma {:induction false} RequotedItem(quotes: Quotes, a: Allocated)
    ensures Requoted(quotes, a).item == a.item
  {}

  // -- exposure of the whole book -------------------------------------------------------

  type Instrument = (Market, string)

  function InstrumentOf(a: Allocated): Instrument {
    (a.item.candidate.market, a.item.candidate.symbol)
  }

  /** The signed quantities held once the orders are filled. */
  function Filled(book: map<Instrument, real>, orders: seq<Allocated>): map<Instrument, real> {
    if orders == [] then book
    else
      FillOne(Filled(book, orders[..|orders| - 1]), orders[|orders| - 1])
  }

  function FillOne(book: map<Instrument, real>, a: Allocated): map<Instrument, real> {
    var held := if InstrumentOf(a) in book then book[InstrumentOf(a)] else 0.0;
    book[InstrumentOf(a) := held + Signed(a.item.candidate.action, a.quantity)]
  }

  function Exposure(book: map<Instrument, real>, price: Instrument -> real, key: Instrument): real {
    if key in book then Abs(book[key]) * Abs(price(key)) else 0.0
  }

  /** Gross exposure over a list of instruments. */
  function Gross(book: map<Instrument, real>, price: Instrument -> real, keys: seq<Instrument>): real {
    if keys == [] then 0.0
    else Gross(book, price, keys[..|keys| - 1]) + Exposure(book, price, keys[|keys| - 1])
  }

  lemma {:induction false} FillExposure(book: map<Instrument, real>, price: Instrument -> real, a: Allocated)
    requires a.quantity >= 0.0 && price(InstrumentOf(a)) == a.entryPrice >= 0.0
    ensures Exposure(FillOne(book, a), price, InstrumentOf(a))
            <= Exposure(book, price, InstrumentOf(a)) + Notional(a)
  {}

  lemma {:induction false} GrossElsewhere(book: map<Instrument, real>, other: map<Instrument, real>,
                                          price: Instrument -> real, keys: seq<Instrument>, k: Instrument)
    requires k !in keys && forall x :: x != k ==> Exposure(book, price, x) == Exposure(other, price, x)
    ensures Gross(book, price, keys) == Gross(other, price, keys)
  {
    hide Exposure;
    if keys != [] {
      GrossElsewhere(book, other, price, keys[..|keys| - 1], k);
    }
  }

  lemma {:induction false} FillGross(book: map<Instrument, real>, price: Instrument -> real, keys: seq<Instrument>,
                                     a: Allocated)
    requires forall i, j :: 0 <= i < j < |keys| ==> keys[i] != keys[j]
    requires a.quantity >= 0.0 && price(InstrumentOf(a)) == a.entryPrice >= 0.0
    ensures Gross(FillOne(book, a), price, keys) <= Gross(book, price, keys) + Notional(a)
  {
    var k := InstrumentOf(a);
    var after := FillOne(book, a);
    assert after.Keys == book.Keys + {k} && forall x :: x in book && x != k ==> after[x] == book[x];
    forall x | x != k ensures Exposure(after, price, x) == Exposure(book, price, x) {
      assert x in after <==> x in book;
    }
    hide Exposure, FillOne, InstrumentOf;
    if keys == [] {
      assert a.quantity * a.entryPrice >= 0.0;
    } else if keys[|keys| - 1] == k {
      GrossElsewhere(after, book, price, keys[..|keys| - 1], k);
      FillExposure(book, price, a);
    } else {
      FillGross(book, price, keys[..|keys| - 1], a);
    }
  }

  /** Filling orders at the quotes adds at most their total notional to the gross exposure,
      whatever was held and over whichever instruments it is taken. */
  lemma {:induction false} GrossAfterFills(book: map<Instrument, real>, price: Instrument -> real,
                                           keys: seq<Instrument>, orders: seq<Allocated>)
    requires forall i, j :: 0 <= i < j < |keys| ==> keys[i] != keys[j]
    requires forall i :: 0 <= i < |orders| ==>
               orders[i].quantity >= 0.0 && price(InstrumentOf(orders[i])) == orders[i].entryPrice >= 0.0
    ensures Gross(Filled(book, orders), price, keys) <= Gross(book, price, keys) + Total(orders)
  {
    hide Gross, Notional, InstrumentOf, FillOne;
    if orders != [] {
      var n := |orders| - 1;
      GrossAfterFills(book, price, keys, orders[..n]);
      FillGross(Filled(book, orders[..n]), price, keys, orders[n]);
    }
  }

  /** Main result: with the book valued at the quotes, allocation, revalidation and filling
      raise its gross exposure by at most (1 + d) times the total limit. */
  lemma {:induction false} PostBatchExposure(policy: Policy, existing: set<(Market, string)>,
                                             correlations: Correlations, quotes: Quotes, items: seq<Scored>,
                                             book: map<Instrument, real>, price: Instrument -> real,
                                             keys: seq<Instrument>)
    requires forall i, j :: 0 <= i < j < |keys| ==> keys[i] != keys[j]
    requires forall k :: k in quotes ==> price(k) == quotes[k]
    ensures var live := Revalidate(policy, quotes, Allocate(policy, existing, correlations, items));
            Gross(Filled(book, live), price, keys)
            <= Gross(book, price, keys) + Drifted(policy, policy.maxTotalNewNotional)
  {
    hide Gross, Filled, Total, Allocate, Revalidate, Notional, Sized, Drifted;
    var batch := Allocate(policy, existing, correlations, items);
    var live := Revalidate(policy, quotes, batch);
    AllocationSized(policy, existing, correlations, items);
    forall i | 0 <= i < |live|
      ensures live[i].quantity >= 0.0 && price(InstrumentOf(live[i])) == live[i].entryPrice >= 0.0
    {
      LiveAtQuote(policy, quotes, batch, i);
    }
    LiveTotalBounded(policy, existing, correlations, quotes, items);
    GrossAfterFills(book, price, keys, live);
  }

  lemma {:induction false} LiveAtQuote(policy: Policy, quotes: Quotes, batch: seq<Allocated>, i: nat)
    requires AllSized(policy, batch)
    requires i < |Revalidate(policy, quotes, batch)|
    ensures var live := Revalidate(policy, quotes, batch)[i];
            && live.quantity > 0.0
            && InstrumentOf(live) in quotes
            && live.entryPrice == quotes[InstrumentOf(live)] > 0.0
  {
    hide Quantity, Drift, RewardRisk, Geometry;
    var n := |batch| - 1;
    if i < |Revalidate(policy, quotes, batch[..n])| {
      LiveAtQuote(policy, quotes, batch[..n], i);
    } else {
      QuantityBounds(policy, batch[n].item.candidate);
    }
  }

  // ---------------------------------------------------------------------------------
  // The stage loops
  // ---------------------------------------------------------------------------------

  function AllocatedIds(batch: seq<Allocated>): (r: seq<string>)
    ensures |r| == |batch|
  {
    seq(|batch|, i requires 0 <= i < |batch| => batch[i].item.candidate.id)
  }

  /** The dictionary of sector counts agrees with the batch. */
  ghost predicate Counts(sectors: map<string, nat>, batch: seq<Allocated>) {
    forall s :: (if s in sectors then sectors[s] else 0) == InSector(batch, s)
  }

  lemma {:induction false} CountsStep(sectors: map<string, nat>, batch: seq<Allocated>, a: Allocated, count: nat)
    requires Counts(sectors, batch)
    requires count == if SectorOf(a) in sectors then sectors[SectorOf(a)] else 0
    ensures count == InSector(batch, SectorOf(a)) && Counts(sectors[SectorOf(a) := count + 1], batch + [a])
  {
    hide InSector, SectorOf;
    var after := sectors[SectorOf(a) := count + 1];
    forall s ensures (if s in after then after[s] else 0) == InSector(batch + [a], s) {
      SectorAppend(batch, a, s);
    }
  }

  /** The chain of checks of `_allocate` for one candidate, from the running values. */
  method CheckOne(policy: Policy, existing: set<(Market, string)>, correlations: Correlations, batch: seq<Allocated>,
                  item: Scored, a: Allocated, count: nat, totalNotional: real) returns (refusal: Option<string>)
    requires a == Sized(policy, item)
    requires count == InSector(batch, SectorOf(a)) && totalNotional == Total(batch)
    ensures refusal == Refusal(policy, existing, correlations, batch, item)
  {
    hide Quantity, SectorOf, InSector, Total;
    var c := item.candidate;
    if (c.market, c.symbol) in existing {
      return Some("EXISTING_POSITION");
    }
    if SymbolTaken(c.symbol, batch) {
      return Some("SYMBOL_ALREADY_SELECTED");
    }
    if |batch| >= policy.maxPositions {
      return Some("POSITION_CAPACITY_REACHED");
    }
    if count >= policy.maxSectorPositions {
      return Some("SECTOR_CONCENTRATION");
    }
    var correlated := IsCorrelated(policy, correlations, c.symbol, batch);
    if correlated {
      return Some("CORRELATION_LIMIT");
    }
    if totalNotional + a.quantity * a.entryPrice > policy.maxTotalNewNotional {
      return Some("INSUFFICIENT_BATCH_CAPITAL");
    }
    return None;
  }

  /** `_correlated` */
  method IsCorrelated(policy: Policy, correlations: Correlations, symbol: string, batch: seq<Allocated>)
    returns (found: bool)
    ensures found == Correlated(policy, correlations, symbol, batch)
  {
    for i := 0 to |batch|
      invariant !Correlated(policy, correlations, symbol, batch[..i])
    {
      if Abs(Correlation(correlations, symbol, SymbolOf(batch[i]))) > policy.maxCorrelation {
        return true;
      }
    }
    assert batch[..|batch|] == batch;
    return false;
  }

  /** The decision on one item of an allocation. */
  function AllocationDecision(policy: Policy, existing: set<(Market, string)>, correlations: Correlations,
                              items: seq<Scored>, k: nat): Decision
    requires k < |items|
  {
    var before := Allocate(policy, existing, correlations, items[..k]);
    var refusal := Refusal(policy, existing, correlations, before, items[k]);
    Decision(items[k].candidate.id, PortfolioConstruction, if refusal.None? then Passed else Rejected,
             if refusal.None? then "PORTFOLIO_SELECTED" else refusal.value)
  }

  lemma {:induction false} DecisionOn(policy: Policy, existing: set<(Market, string)>, correlations: Correlations,
                                      items: seq<Scored>, k: nat, refusal: Option<string>)
    requires k < |items|
    requires refusal
             == Refusal(policy, existing, correlations, Allocate(policy, existing, correlations, items[..k]), items[k])
    ensures AllocationDecision(policy, existing, correlations, items, k)
            == if refusal.None? then Decision(items[k].candidate.id, PortfolioConstruction, Passed, "PORTFOLIO_SELECTED")
               else Decision(items[k].candidate.id, PortfolioConstruction, Rejected, refusal.value)
  {
    hide Refusal, Allocate;
  }

  /** `_allocate`: running sector counts and a running total decide as the checks over the
      whole batch do. */
  method AllocateBatch(policy: Policy, existing: set<(Market, string)>, correlations: Correlations, items: seq<Scored>)
    returns (batch: seq<Allocated>, emitted: seq<Decision>)
    requires Distinct(Ids(items))
    ensures batch == Allocate(policy, existing, correlations, items)
    ensures Staged(emitted, PortfolioConstruction, Ids(items), AllocatedIds(batch)) && Distinct(AllocatedIds(batch))
    ensures |emitted| == |items|
    ensures forall k :: 0 <= k < |items| ==>
              emitted[k] == AllocationDecision(policy, existing, correlations, items, k)
  {
    hide Staged, Distinct, Walked, Counts, Refusal, SectorOf, Total, Quantity, AllocationDecision;
    batch, emitted := [], [];
    WalkStart(PortfolioConstruction);
    assert Ids(items[..0]) == [] && AllocatedIds([]) == [];
    var sectors: map<string, nat> := map[];
    var totalNotional := 0.0;
    NothingAllocated();
    for i := 0 to |items|
      invariant batch == Allocate(policy, existing, correlations, items[..i])
      invariant totalNotional == Total(batch) && Counts(sectors, batch)
      invariant |emitted| == i
      invariant forall k :: 0 <= k < i ==> emitted[k] == AllocationDecision(policy, existing, correlations, items, k)
      invariant Walked(emitted, PortfolioConstruction, Ids(items[..i]), AllocatedIds(batch))
    {
      assert items[..i + 1][..i] == items[..i];
      var item := items[i];
      var id := item.candidate.id;
      var a := Sized(policy, item);
      var sector := SectorOf(a);
      var count := if sector in sectors then sectors[sector] else 0;
      CountsStep(sectors, batch, a, count);
      TotalAppend(batch, a);
      var refusal := CheckOne(policy, existing, correlations, batch, item, a, count, totalNotional);
      var d := if refusal.None? then Decision(id, PortfolioConstruction, Passed, "PORTFOLIO_SELECTED")
               else Decision(id, PortfolioConstruction, Rejected, refusal.value);
      WalkStep(emitted, PortfolioConstruction, Ids(items[..i]), AllocatedIds(batch), d);
      DecisionOn(policy, existing, correlations, items, i, refusal);
      emitted := emitted + [d];
      assert Ids(items[..i + 1]) == Ids(items[..i]) + [id];
      if refusal.None? {
        assert AllocatedIds(batch + [a]) == AllocatedIds(batch) + [id];
        batch := batch + [a];
        totalNotional := totalNotional + a.quantity * a.entryPrice;
        sectors := sectors[sector := count + 1];
      } else {
        assert AllocatedIds(batch) + [] == AllocatedIds(batch);
      }
    }
    assert items[..|items|] == items;
    WalkEnd(emitted, PortfolioConstruction, Ids(items), AllocatedIds(batch));
  }

  lemma {:induction false} NothingAllocated()
    ensures Counts(map[], []) && Total([]) == 0.0
  {}

  /** The decision on one order of a revalidation. */
  function EntryVerdict(policy: Policy, quotes: Quotes, a: Allocated): Decision {
    var refusal := EntryRefusal(policy, quotes, a);
    Decision(a.item.candidate.id, EntryRevalidation, if refusal.None? then Passed else Rejected,
             if refusal.None? then "ENTRY_REVALIDATED" else refusal.value)
  }

  /** `_revalidate` */
  method RevalidateBatch(policy: Policy, quotes: Quotes, batch: seq<Allocated>)
    returns (valid: seq<Allocated>, emitted: seq<Decision>)
    requires Distinct(AllocatedIds(batch))
    ensures valid == Revalidate(policy, quotes, batch)
    ensures Staged(emitted, EntryRevalidation, AllocatedIds(batch), AllocatedIds(valid))
    ensures Distinct(AllocatedIds(valid)) && |emitted| == |batch|
    ensures forall k :: 0 <= k < |batch| ==> emitted[k] == EntryVerdict(policy, quotes, batch[k])
  {
    hide Staged, Distinct, Walked, EntryRefusal;
    valid, emitted := [], [];
    WalkStart(EntryRevalidation);
    assert AllocatedIds(batch[..0]) == [] && AllocatedIds([]) == [];
    for i := 0 to |batch|
      invariant valid == Revalidate(policy, quotes, batch[..i]) && |emitted| == i
      invariant forall k :: 0 <= k < i ==> emitted[k] == EntryVerdict(policy, quotes, batch[k])
      invariant Walked(emitted, EntryRevalidation, AllocatedIds(batch[..i]), AllocatedIds(valid))
    {
      assert batch[..i + 1][..i] == batch[..i];
      var a := batch[i];
      var id := a.item.candidate.id;
      var refusal := EntryRefusal(policy, quotes, a);
      var d := if refusal.None? then Decision(id, EntryRevalidation, Passed, "ENTRY_REVALIDATED")
               else Decision(id, EntryRevalidation, Rejected, refusal.value);
      WalkStep(emitted, EntryRevalidation, AllocatedIds(batch[..i]), AllocatedIds(valid), d);
      emitted := emitted + [d];
      assert AllocatedIds(batch[..i + 1]) == AllocatedIds(batch[..i]) + [id];
      if refusal.None? {
        assert AllocatedIds(valid + [Requoted(quotes, a)]) == AllocatedIds(valid) + [id];
        valid := valid + [Requoted(quotes, a)];
      } else {
        assert AllocatedIds(valid) + [] == AllocatedIds(valid);
      }
    }
    assert batch[..|batch|] == batch;
    WalkEnd(emitted, EntryRevalidation, AllocatedIds(batch), AllocatedIds(valid));
  }
}
