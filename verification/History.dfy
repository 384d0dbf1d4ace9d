/** The history engine of `history/engine.py` and `history/timeframes.py`: paging, coverage,
    watermarks, gap grouping, repair and readiness. Instants are in microseconds; what the
    providers return is an input. */
module History {
  import opened Contracts
  import opened Arithmetic

  const SECOND := 1_000_000

  type Provider = string

  /** The coverage key (market, symbol, timeframe). */
  datatype Series = Series(market: Market, symbol: string, timeframe: string)

  datatype Watermark = Watermark(eventTime: int, updatedAt: int)

  datatype RunState = Running | Succeeded | Failed
  datatype RunId = RunId(series: Series, now: int)
  datatype HistoryRun = HistoryRun(id: RunId, state: RunState, provider: Option<Provider>)

  datatype History = History(
    watermarks: map<(Series, Provider), Watermark>, coverage: map<Series, set<int>>, runs: map<RunId, HistoryRun>)

  datatype JobRecord = Job(
    series: Series, stepSeconds: nat, targetSpan: nat, overlapBars: nat, requestLimit: int, window: Option<(int, int)>)

  /** What `HistoryJob.__post_init__` admits; the request limit is not checked there. */
  type Job = j: JobRecord
    | j.stepSeconds >= 1 && j.targetSpan >= 1 && (j.window.Some? ==> j.window.value.0 < j.window.value.1)
    witness Job(Series(Nse, "s", "1m"), 60, 1, 0, 1, None)

  function Step(job: Job): (r: int)
    ensures r >= SECOND
  {
    job.stepSeconds * SECOND
  }

  /** `last_settled_open` */
  function LastSettled(now: int, stepSeconds: nat): int
    requires stepSeconds >= 1
  {
    var seconds := now / SECOND;
    (seconds - seconds % stepSeconds - stepSeconds) * SECOND
  }

  /** The last settled open is the latest bar that has closed: it has, the next one has not. */
  lemma {:induction false} LastSettledIsLatestClosed(now: int, stepSeconds: nat)
    requires stepSeconds >= 1
    ensures var open, step := LastSettled(now, stepSeconds), stepSeconds * SECOND;
            open + step <= now < open + 2 * step
  {}

  // ---------------------------------------------------------------------------------
  // Pages
  // ---------------------------------------------------------------------------------

  datatype Page = Page(start: int, end: int)

  /** The pages run from `start` to `stop` without hole or overlap, none of them empty. */
  ghost predicate Tiles(pages: seq<Page>, start: int, stop: int) {
    if pages == [] then start == stop
    else
      var last := pages[|pages| - 1];
      last.start < last.end && last.end == stop && Tiles(pages[..|pages| - 1], start, last.start)
  }

  lemma {:induction false} TilesAppend(pages: seq<Page>, start: int, stop: int, page: Page)
    requires Tiles(pages, start, stop) && page.start == stop && page.start < page.end
    ensures Tiles(pages + [page], start, page.end)
  {
    assert (pages + [page])[..|pages|] == pages;
  }

  /** Every instant of a tiled range lies in exactly one page, and no page leaves the range. */
  lemma {:induction false} TilesExactlyOnce(pages: seq<Page>, start: int, stop: int, t: int)
    requires Tiles(pages, start, stop)
    ensures start <= stop
    ensures start <= t < stop <==> exists i :: 0 <= i < |pages| && pages[i].start <= t < pages[i].end
    ensures forall i, j :: 0 <= i < j < |pages| ==>
              !(pages[i].start <= t < pages[i].end && pages[j].start <= t < pages[j].end)
  {
    if pages != [] {
      var n := |pages| - 1;
      var init := pages[..n];
      TilesExactlyOnce(init, start, pages[n].start, t);
      if start <= t < pages[n].start {
        var i :| 0 <= i < |init| && init[i].start <= t < init[i].end;
        assert pages[i].start <= t < pages[i].end;
      }
      assert forall i :: 0 <= i < n ==> init[i] == pages[i];
    }
  }

  /** What the requests of one provider amount to. */
  ghost predicate WellPaged(job: Job, pages: seq<Page>, start: int, end: int) {
    && (forall i :: 0 <= i < |pages| ==> pages[i].end - pages[i].start <= Step(job) * job.requestLimit)
    && exists stop :: Tiles(pages, start, stop) && (start <= end ==> end < stop <= end + Step(job))
                      && (start <= end && (end - start) % Step(job) == 0 ==> stop == end + Step(job))
                      && (start > end ==> pages == [])
  }

  // ---------------------------------------------------------------------------------
  // State
  // ---------------------------------------------------------------------------------

  function Covered(h: History, series: Series): set<int> {
    if series in h.coverage then h.coverage[series] else {}
  }

  /** Every watermark stands on a covered bar. */
  ghost predicate Grounded(h: History) {
    forall k :: k in h.watermarks ==> h.watermarks[k].eventTime in Covered(h, k.0)
  }

  /** Coverage only grows and watermarks only advance; only bars up to `end` of one series are
      added. */
  ghost predicate Grows(before: History, after: History, series: Series, end: int) {
    && (forall s :: s != series ==> Covered(after, s) == Covered(before, s))
    && Covered(before, series) <= Covered(after, series)
    && (forall t :: t in Covered(after, series) && t !in Covered(before, series) ==> t <= end)
    && (forall k :: k in before.watermarks ==>
          k in after.watermarks && before.watermarks[k].eventTime <= after.watermarks[k].eventTime)
  }

  lemma {:induction false} GrowsTransitive(a: History, b: History, c: History, series: Series, end: int)
    requires Grows(a, b, series, end) && Grows(b, c, series, end)
    ensures Grows(a, c, series, end)
  {
    hide Covered;
  }

  lemma {:induction false} GrowsWeaker(a: History, b: History, series: Series, end: int, later: int)
    requires Grows(a, b, series, end) && end <= later
    ensures Grows(a, b, series, later)
  {
    hide Covered;
  }

  /** Saving a run touches neither coverage nor watermarks. */
  lemma {:induction false} RunsDoNotMatter(a: History, b: History, c: History, series: Series, end: int)
    requires Grounded(b) && Grows(a, b, series, end) && c.coverage == b.coverage && c.watermarks == b.watermarks
    ensures Grounded(c) && Grows(a, c, series, end)
  {}

  lemma {:induction false} GrowsReflexive(h: History, series: Series, end: int)
    ensures Grows(h, h, series, end)
  {}

  class InMemoryHistoryState {
    var watermarks: map<(Series, Provider), Watermark>
    var coverage: map<Series, set<int>>
    var runs: map<RunId, HistoryRun>

    ghost function View(): History
      reads this
    {
      History(watermarks, coverage, runs)
    }

    constructor ()
      ensures View() == History(map[], map[], map[]) && Grounded(View())
    {
      watermarks, coverage, runs := map[], map[], map[];
    }

    method RecordOpen(series: Series, value: int)
      modifies this`coverage
      ensures Covered(View(), series) == old(Covered(View(), series)) + {value}
      ensures forall s :: s != series ==> Covered(View(), s) == old(Covered(View(), s))
    {
      var current := if series in coverage then coverage[series] else {};
      coverage := coverage[series := current + {value}];
    }

    /** A mark replaces an earlier or equal one and is dropped otherwise, whatever it says; marks on
        covered bars keep every mark on a covered bar. */
    method CommitWatermark(series: Series, provider: Provider, mark: Watermark)
      modifies this`watermarks
      ensures var key := (series, provider);
              && watermarks.Keys == old(watermarks).Keys + {key}
              && (forall k :: k in old(watermarks) && k != key ==> watermarks[k] == old(watermarks)[k])
              && (if key in old(watermarks) && mark.eventTime < old(watermarks)[key].eventTime
                  then watermarks[key] == old(watermarks)[key] else watermarks[key] == mark)
      ensures forall end :: Grows(old(View()), View(), series, end)
      ensures old(Grounded(View())) && mark.eventTime in old(Covered(View(), series)) ==> Grounded(View())
    {
      var key := (series, provider);
      if key !in watermarks || mark.eventTime >= watermarks[key].eventTime {
        watermarks := watermarks[key := mark];
      }
    }

    method SaveRun(run: HistoryRun)
      modifies this`runs
      ensures runs == old(runs)[run.id := run]
    {
      runs := runs[run.id := run];
    }
  }

  // ---------------------------------------------------------------------------------
  // Synchronising one job
  // ---------------------------------------------------------------------------------

  /** A returned row after ingestion: a settled candle of the job's series, something else, or an
      ingestion error. */
  datatype Row = Settled(open: int) | Other | Broken

  predicate InWindow(row: Row, start: int, end: int) {
    row.Settled? && start <= row.open <= end
  }

  /** None is a failed request. */
  type Source = (Provider, Page) -> Option<seq<Row>>

  /** `HistoricalRequest.__post_init__` */
  predicate ValidRequest(page: Page, limit: int) {
    page.start < page.end && 1 <= limit <= 5000
  }

  function Earlier(x: int, y: int): int {
    if x <= y then x else y
  }

  function Later(x: int, y: int): int {
    if x >= y then x else y
  }

  /** The answer was given and every row of it can be ingested. */
  ghost predicate Sane(answer: Option<seq<Row>>) {
    answer.Some? && Broken !in answer.value
  }

  /** The answer has a settled bar at `t`. */
  ghost predicate Reports(answer: Option<seq<Row>>, t: int) {
    answer.Some? && Settled(t) in answer.value
  }

  /** The requests of a window, in order: full pages, the last one ending a bar after the window. */
  function PagesFrom(cursor: int, end: int, step: int, limit: int): seq<Page>
    requires step > 0 && limit >= 1
    decreases end + step - cursor
  {
    if cursor > end then []
    else
      Multiples(step, limit);
      var next := Earlier(end + step, cursor + step * limit);
      [Page(cursor, next)] + PagesFrom(next, end, step, limit)
  }

  /** Every bar a provider added was reported by it, inside the window. */
  ghost predicate NothingInvented(before: History, after: History, series: Series, source: Source, provider: Provider,
                                  start: int, end: int)
  {
    forall t :: t in Covered(after, series) && t !in Covered(before, series) ==>
      start <= t <= end && exists page :: Reports(source(provider, page), t)
  }

  /** Records the rows of one page; false if ingesting a row raised, with what came before kept. */
  method RecordRows(state: InMemoryHistoryState, job: Job, rows: seq<Row>, start: int, end: int)
    returns (ok: bool, opens: seq<int>)
    requires Grounded(state.View())
    modifies state`coverage
    ensures Grounded(state.View()) && Grows(old(state.View()), state.View(), job.series, end)
    ensures Covered(state.View(), job.series) == old(Covered(state.View(), job.series)) + (set t | t in opens)
    ensures forall t :: t in opens ==> Settled(t) in rows && start <= t <= end
    ensures ok <==> Broken !in rows
    ensures ok ==> forall t :: Settled(t) in rows && start <= t <= end ==> t in opens
  {
    opens := [];
    for i := 0 to |rows|
      invariant Grounded(state.View()) && Grows(old(state.View()), state.View(), job.series, end)
      invariant Covered(state.View(), job.series) == old(Covered(state.View(), job.series)) + (set t | t in opens)
      invariant forall t :: t in opens ==> Settled(t) in rows && start <= t <= end
      invariant Broken !in rows[..i]
      invariant forall t :: Settled(t) in rows[..i] && start <= t <= end ==> t in opens
    {
      assert rows[..i + 1] == rows[..i] + [rows[i]];
      if rows[i].Broken? {
        return false, opens;
      }
      if InWindow(rows[i], start, end) {
        state.RecordOpen(job.series, rows[i].open);
        opens := opens + [rows[i].open];
      }
    }
    assert rows[..|rows|] == rows;
    return true, opens;
  }

  /** Every settled row of the requested pages that lies in the window is covered. */
  ghost predicate Recorded(h: History, series: Series, source: Source, provider: Provider, pages: seq<Page>, start: int,
                           end: int)
  {
    forall i :: 0 <= i < |pages| ==> RowsRecorded(h, series, source(provider, pages[i]), start, end)
  }

  ghost predicate RowsRecorded(h: History, series: Series, answer: Option<seq<Row>>, start: int, end: int) {
    answer.Some? && forall k :: 0 <= k < |answer.value| && InWindow(answer.value[k], start, end) ==>
                      answer.value[k].open in Covered(h, series)
  }

  /** A cursor past the end and at most one bar past it, on the grid of `start`, is the bar after
      `end`, if `end` is on that grid. */
  lemma {:induction false} CursorOnGrid(start: int, end: int, cursor: int, step: int, q: int)
    requires step > 0 && end < cursor <= end + step
    requires cursor == end + step || cursor - start == step * q
    ensures (end - start) % step == 0 ==> cursor == end + step
  {
    if (end - start) % step == 0 && cursor != end + step {
      var m := (end - start) / step;
      assert end - start == step * m;
      assert cursor - end == step * (q - m);
      Multiples(step, q - m);
      assert false;
    }
  }

  ghost predicate AllSane(source: Source, provider: Provider, pages: seq<Page>) {
    forall i :: 0 <= i < |pages| ==> Sane(source(provider, pages[i]))
  }

  ghost predicate ReportedOn(source: Source, provider: Provider, pages: seq<Page>, t: int) {
    exists i :: 0 <= i < |pages| && Reports(source(provider, pages[i]), t)
  }

  /** The opens are exactly the settled bars of the window that the pages reported. */
  ghost predicate OpensExactly(opens: seq<int>, source: Source, provider: Provider, pages: seq<Page>, start: int,
                               end: int)
  {
    forall t :: t in opens <==> start <= t <= end && ReportedOn(source, provider, pages, t)
  }

  /** How far the requests have come: what is left to ask, what was found, and that all of it and
      nothing else is covered. */
  ghost predicate Under(job: Job, before: History, now: History, source: Source, provider: Provider, pages: seq<Page>,
                        opens: seq<int>, start: int, end: int, cursor: int)
  {
    && AllSane(source, provider, pages) && OpensExactly(opens, source, provider, pages, start, end)
    && Covered(now, job.series) == Covered(before, job.series) + (set t | t in opens)
    && (job.requestLimit >= 1 ==>
          pages + PagesFrom(cursor, end, Step(job), job.requestLimit)
          == PagesFrom(start, end, Step(job), job.requestLimit))
  }

  lemma {:induction false} UnderWay(job: Job, h: History, source: Source, provider: Provider, start: int, end: int)
    ensures Under(job, h, h, source, provider, [], [], start, end, start)
  {
    if job.requestLimit >= 1 {
      var all := PagesFrom(start, end, Step(job), job.requestLimit);
      assert [] + all == all;
    }
  }

  lemma {:induction false} UnderStep(job: Job, before: History, middle: History, now: History, source: Source,
                                     provider: Provider, pages: seq<Page>, opens: seq<int>, found: seq<int>, start: int,
                                     end: int, page: Page, ok: bool)
    requires job.requestLimit >= 1 && page.start <= end
    requires page.end == Earlier(end + Step(job), page.start + Step(job) * job.requestLimit)
    requires Under(job, before, middle, source, provider, pages, opens, start, end, page.start)
    requires Covered(now, job.series) == Covered(middle, job.series) + (set t | t in found)
    requires forall t :: t in found ==> Reports(source(provider, page), t) && start <= t <= end
    requires source(provider, page).Some? && (ok <==> Broken !in source(provider, page).value)
    requires ok ==> forall t :: Reports(source(provider, page), t) && start <= t <= end ==> t in found
    ensures ok ==> Under(job, before, now, source, provider, pages + [page], opens + found, start, end, page.end)
    ensures NothingInvented(before, now, job.series, source, provider, start, end)
    ensures !ok ==> !AllSane(source, provider, PagesFrom(start, end, Step(job), job.requestLimit))
  {
    hide Covered, Step, PagesFrom, Earlier, AllSane, OpensExactly, NothingInvented;
    FirstPage(job, source, provider, pages, start, end, page);
    StillSane(source, provider, pages, page);
    AddedSoFar(job, before, middle, now, source, provider, pages, opens, found, start, end, page);
    if ok {
      ReportedMore(source, provider, pages, opens, found, start, end, page);
      var rest := PagesFrom(page.end, end, Step(job), job.requestLimit);
      assert pages + [page] + rest == pages + ([page] + rest);
      assert (set t | t in opens + found) == (set t | t in opens) + (set t | t in found);
    }
  }

  lemma {:induction false} StillSane(source: Source, provider: Provider, pages: seq<Page>, page: Page)
    requires AllSane(source, provider, pages) && source(provider, page).Some?
    ensures Broken !in source(provider, page).value ==> AllSane(source, provider, pages + [page])
    ensures Broken in source(provider, page).value ==> !Sane(source(provider, page))
  {}

  lemma {:induction false} AddedSoFar(job: Job, before: History, middle: History, now: History, source: Source,
                                      provider: Provider, pages: seq<Page>, opens: seq<int>, found: seq<int>, start: int,
                                      end: int, page: Page)
    requires OpensExactly(opens, source, provider, pages, start, end)
    requires Covered(middle, job.series) == Covered(before, job.series) + (set t | t in opens)
    requires Covered(now, job.series) == Covered(middle, job.series) + (set t | t in found)
    requires forall t :: t in found ==> Reports(source(provider, page), t) && start <= t <= end
    ensures NothingInvented(before, now, job.series, source, provider, start, end)
  {
    hide Covered, Reports;
    forall t | t in Covered(now, job.series) && t !in Covered(before, job.series)
      ensures start <= t <= end && exists x :: Reports(source(provider, x), t)
    {
      if t in opens {
        var i :| 0 <= i < |pages| && Reports(source(provider, pages[i]), t);
      } else {
        assert t in found;
      }
    }
  }

  lemma {:induction false} FirstPage(job: Job, source: Source, provider: Provider, pages: seq<Page>, start: int, end: int,
                                     page: Page)
    requires job.requestLimit >= 1 && page.start <= end
    requires page.end == Earlier(end + Step(job), page.start + Step(job) * job.requestLimit)
    requires pages + PagesFrom(page.start, end, Step(job), job.requestLimit)
             == PagesFrom(start, end, Step(job), job.requestLimit)
    ensures PagesFrom(page.start, end, Step(job), job.requestLimit)
            == [page] + PagesFrom(page.end, end, Step(job), job.requestLimit)
    ensures !Sane(source(provider, page)) ==>
              !AllSane(source, provider, PagesFrom(start, end, Step(job), job.requestLimit))
  {
    var all := PagesFrom(start, end, Step(job), job.requestLimit);
    assert all[|pages|] == page;
  }

  lemma {:induction false} ReportedMore(source: Source, provider: Provider, pages: seq<Page>, opens: seq<int>,
                                        found: seq<int>, start: int, end: int, page: Page)
    requires OpensExactly(opens, source, provider, pages, start, end)
    requires forall t :: t in found <==> Reports(source(provider, page), t) && start <= t <= end
    ensures OpensExactly(opens + found, source, provider, pages + [page], start, end)
  {
    hide Reports;
    forall t ensures ReportedOn(source, provider, pages + [page], t)
                     <==> ReportedOn(source, provider, pages, t) || Reports(source(provider, page), t) {
      var all := pages + [page];
      assert all[|pages|] == page;
      if i :| 0 <= i < |pages| && Reports(source(provider, pages[i]), t) {
        assert all[i] == pages[i];
      }
    }
  }

  /** What became of the requests of one provider: they succeed if and only if nothing was to be asked
      or the limit is one a request accepts and every page of the window was answered with rows that
      can be ingested; then exactly the settled bars reported inside the window were added. */
  ghost predicate Asked(job: Job, before: History, after: History, source: Source, provider: Provider, start: int,
                        end: int, ok: bool, opens: seq<int>, pages: seq<Page>)
  {
    && (ok <==> start > end
                || (1 <= job.requestLimit <= 5000
                    && AllSane(source, provider, PagesFrom(start, end, Step(job), job.requestLimit))))
    && (ok ==>
          && pages == (if start > end then [] else PagesFrom(start, end, Step(job), job.requestLimit))
          && OpensExactly(opens, source, provider, pages, start, end)
          && Covered(after, job.series) == Covered(before, job.series) + (set t | t in opens))
    && NothingInvented(before, after, job.series, source, provider, start, end)
  }

  lemma {:induction false} AskedNothing(job: Job, before: History, after: History, source: Source, provider: Provider,
                                        start: int, end: int, pages: seq<Page>, opens: seq<int>, cursor: int)
    requires Under(job, before, after, source, provider, pages, opens, start, end, cursor) && cursor > end
    requires pages == [] ==> cursor == start
    requires start <= end ==> 1 <= job.requestLimit <= 5000
    requires start > end ==> pages == []
    ensures Asked(job, before, after, source, provider, start, end, true, opens, pages)
  {
    if job.requestLimit >= 1 {
      assert PagesFrom(cursor, end, Step(job), job.requestLimit) == [];
      assert pages + [] == pages;
    }
    InventedNot(job, before, after, source, provider, pages, opens, start, end);
  }

  lemma {:induction false} InventedNot(job: Job, before: History, after: History, source: Source, provider: Provider,
                                       pages: seq<Page>, opens: seq<int>, start: int, end: int)
    requires OpensExactly(opens, source, provider, pages, start, end)
    requires Covered(after, job.series) == Covered(before, job.series) + (set t | t in opens)
    ensures NothingInvented(before, after, job.series, source, provider, start, end)
  {
    forall t | t in Covered(after, job.series) && t !in Covered(before, job.series)
      ensures start <= t <= end && exists x :: Reports(source(provider, x), t)
    {
      var i :| 0 <= i < |pages| && Reports(source(provider, pages[i]), t);
    }
  }

  lemma {:induction false} AskedBroken(job: Job, before: History, after: History, source: Source, provider: Provider,
                                       start: int, end: int, opens: seq<int>, pages: seq<Page>)
    requires job.requestLimit >= 1 && start <= end
    requires !AllSane(source, provider, PagesFrom(start, end, Step(job), job.requestLimit))
    requires NothingInvented(before, after, job.series, source, provider, start, end)
    ensures Asked(job, before, after, source, provider, start, end, false, opens, pages)
  {}

  lemma {:induction false} AskedInVain(job: Job, before: History, after: History, source: Source, provider: Provider,
                                       start: int, end: int, pages: seq<Page>, opens: seq<int>, cursor: int)
    requires Under(job, before, after, source, provider, pages, opens, start, end, cursor)
    requires start <= end && cursor <= end
    requires !(1 <= job.requestLimit <= 5000)
             || !Sane(source(provider, Page(cursor, Earlier(end + Step(job), cursor + Step(job) * job.requestLimit))))
    ensures Asked(job, before, after, source, provider, start, end, false, opens, pages)
  {
    InventedNot(job, before, after, source, provider, pages, opens, start, end);
    if 1 <= job.requestLimit <= 5000 {
      FirstPage(job, source, provider, pages, start, end,
                Page(cursor, Earlier(end + Step(job), cursor + Step(job) * job.requestLimit)));
    }
  }

  /** The paging loop of `sync` for one provider. Whatever the request limit, it ends: a limit the
      request rejects fails at once, any other advances the cursor. */
  method FetchPages(state: InMemoryHistoryState, job: Job, provider: Provider, source: Source, start: int, end: int)
    returns (ok: bool, opens: seq<int>, pages: seq<Page>)
    requires Grounded(state.View())
    modifies state`coverage
    ensures Grounded(state.View()) && Grows(old(state.View()), state.View(), job.series, end)
    ensures forall t :: t in opens ==> t in Covered(state.View(), job.series)
    ensures ok ==> WellPaged(job, pages, start, end)
                   && Recorded(state.View(), job.series, source, provider, pages, start, end)
    ensures start <= end && !(1 <= job.requestLimit <= 5000) ==> !ok && pages == []
    ensures Asked(job, old(state.View()), state.View(), source, provider, start, end, ok, opens, pages)
  {
    hide Covered, Tiles, Recorded, Grows, Grounded, Step, Under, Asked, AllSane, NothingInvented, PagesFrom;
    var step := Step(job);
    var span := step * job.requestLimit;
    Multiples(step, job.requestLimit);
    opens, pages := [], [];
    var cursor := start;
    ghost var q := 0;
    FetchStarts(state.View(), job, source, provider, start, end);
    UnderWay(job, state.View(), source, provider, start, end);
    while cursor <= end
      invariant Grounded(state.View()) && Grows(old(state.View()), state.View(), job.series, end)
      invariant forall t :: t in opens ==> t in Covered(state.View(), job.series)
      invariant Under(job, old(state.View()), state.View(), source, provider, pages, opens, start, end, cursor)
      invariant Tiles(pages, start, cursor)
      invariant Recorded(state.View(), job.series, source, provider, pages, start, end)
      invariant forall i :: 0 <= i < |pages| ==> pages[i].end - pages[i].start <= span
      invariant pages != [] ==> 1 <= job.requestLimit <= 5000
      invariant cursor == start || pages != []
      invariant if start <= end then cursor <= end + step else cursor == start && pages == []
      invariant cursor == end + step || cursor - start == step * q
      decreases end + step - cursor
    {
      var windowEnd := Earlier(end + step, cursor + span);
      var page := Page(cursor, windowEnd);
      if !ValidRequest(page, job.requestLimit) {
        AskedInVain(job, old(state.View()), state.View(), source, provider, start, end, pages, opens, cursor);
        return false, opens, pages;
      }
      var answer := source(provider, page);
      if answer.None? {
        AskedInVain(job, old(state.View()), state.View(), source, provider, start, end, pages, opens, cursor);
        return false, opens, pages;
      }
      ghost var before := state.View();
      var recorded, found := RecordRows(state, job, answer.value, start, end);
      RecordedStep(before, state.View(), job.series, source, provider, pages, page, found, start, end, recorded);
      GrowsTransitive(old(state.View()), before, state.View(), job.series, end);
      CoverageOf(before, state.View(), job.series, end);
      UnderStep(job, old(state.View()), before, state.View(), source, provider, pages, opens, found, start, end, page,
                recorded);
      opens := opens + found;
      if !recorded {
        AskedBroken(job, old(state.View()), state.View(), source, provider, start, end, opens, pages);
        return false, opens, pages;
      }
      TilesAppend(pages, start, cursor, page);
      pages := pages + [page];
      if windowEnd == cursor + span {
        q := q + job.requestLimit;
      }
      cursor := windowEnd;
    }
    if start <= end {
      CursorOnGrid(start, end, cursor, step, q);
    }
    AskedNothing(job, old(state.View()), state.View(), source, provider, start, end, pages, opens, cursor);
    ok := true;
  }

  lemma {:induction false} FetchStarts(h: History, job: Job, source: Source, provider: Provider, start: int, end: int)
    ensures Grows(h, h, job.series, end) && Tiles([], start, start)
    ensures Recorded(h, job.series, source, provider, [], start, end)
  {}

  lemma {:induction false} CoverageOf(before: History, after: History, series: Series, end: int)
    requires Grows(before, after, series, end)
    ensures Covered(before, series) <= Covered(after, series)
  {}

  lemma {:induction false} RecordedStep(before: History, after: History, series: Series, source: Source,
                                        provider: Provider, pages: seq<Page>, page: Page, found: seq<int>, start: int,
                                        end: int, complete: bool)
    requires Recorded(before, series, source, provider, pages, start, end) && Grows(before, after, series, end)
    requires forall t :: t in found ==> t in Covered(after, series)
    requires var answer := source(provider, page);
             && answer.Some?
             && (complete ==> forall i :: 0 <= i < |answer.value| && InWindow(answer.value[i], start, end) ==>
                                answer.value[i].open in found)
    ensures Recorded(after, series, source, provider, pages, start, end)
    ensures complete ==> Recorded(after, series, source, provider, pages + [page], start, end)
  {}

  lemma {:induction false} RecordedStays(before: History, after: History, series: Series, source: Source,
                                         provider: Provider, pages: seq<Page>, start: int, end: int)
    requires Recorded(before, series, source, provider, pages, start, end) && after.coverage == before.coverage
    ensures Recorded(after, series, source, provider, pages, start, end)
  {}

  // ---------------------------------------------------------------------------------
  // The engine
  // ---------------------------------------------------------------------------------

  function EndOf(job: Job, now: int): int {
    var settled := LastSettled(now, job.stepSeconds);
    if job.window.Some? then Earlier(job.window.value.1, settled) else settled
  }

  function StartOf(job: Job, end: int, mark: Option<Watermark>): int {
    if job.window.Some? then job.window.value.0
    else
      var target := end - job.targetSpan;
      if mark.Some? then Later(target, mark.value.eventTime - Step(job) * job.overlapBars) else target
  }

  method Greatest(values: seq<int>) returns (r: int)
    requires values != []
    ensures r in values && forall v :: v in values ==> v <= r
  {
    r := values[0];
    for i := 1 to |values|
      invariant r in values && forall k :: 0 <= k < i ==> values[k] <= r
    {
      if values[i] > r {
        r := values[i];
      }
    }
  }

  /** What one run leaves behind: coverage grows with settled bars only, watermarks advance and
      stand on covered bars, and the run is saved, finished, under its id. */
  ghost predicate Synced(before: History, after: History, job: Job, now: int, source: Source, run: HistoryRun) {
    && Grounded(after) && Grows(before, after, job.series, now - Step(job))
    && run.id == RunId(job.series, now) && !run.state.Running?
    && after.runs == before.runs[run.id := run]
    && (run.state.Succeeded? ==> run.provider.Some? && Fetched(before, after, job, now, source, run.provider.value))
  }

  function MarkOf(h: History, series: Series, provider: Provider): Option<Watermark> {
    if (series, provider) in h.watermarks then Some(h.watermarks[(series, provider)]) else None
  }

  /** What a succeeded run stands for: its provider was asked for pages that tile the window from
      its watermark to the end, every settled row it returned is covered, and it has a mark. */
  ghost predicate Fetched(before: History, after: History, job: Job, now: int, source: Source, provider: Provider) {
    var end := EndOf(job, now);
    var start := StartOf(job, end, MarkOf(before, job.series, provider));
    && (job.series, provider) in after.watermarks
    && exists pages :: WellPaged(job, pages, start, end)
                       && Recorded(after, job.series, source, provider, pages, start, end)
  }

  lemma {:induction false} FetchedBy(before: History, middle: History, after: History, job: Job, now: int,
                                     source: Source, provider: Provider, pages: seq<Page>)
    requires after.coverage == middle.coverage && (job.series, provider) in after.watermarks
    requires var end := EndOf(job, now);
             var start := StartOf(job, end, MarkOf(before, job.series, provider));
             WellPaged(job, pages, start, end) && Recorded(middle, job.series, source, provider, pages, start, end)
    ensures Fetched(before, after, job, now, source, provider)
  {
    hide WellPaged, Recorded, EndOf, StartOf, MarkOf;
    var end := EndOf(job, now);
    RecordedStays(middle, after, job.series, source, provider, pages,
                  StartOf(job, end, MarkOf(before, job.series, provider)), end);
  }

  /** Only watermarks before and coverage and watermarks after matter to what was fetched. */
  lemma {:induction false} FetchedSame(a: History, a': History, b: History, b': History, job: Job, now: int,
                                       source: Source, provider: Provider)
    requires Fetched(a', b, job, now, source, provider) && a'.watermarks == a.watermarks
    requires b'.coverage == b.coverage && b'.watermarks == b.watermarks
    ensures Fetched(a, b', job, now, source, provider)
  {
    hide WellPaged, Recorded, EndOf, StartOf;
    var end := EndOf(job, now);
    var start := StartOf(job, end, MarkOf(a', job.series, provider));
    var pages :| WellPaged(job, pages, start, end) && Recorded(b, job.series, source, provider, pages, start, end);
    RecordedStays(b, b', job.series, source, provider, pages, start, end);
  }

  lemma {:induction false} EndIsClosed(job: Job, now: int)
    ensures EndOf(job, now) <= now - Step(job)
  {
    hide LastSettled;
    LastSettledIsLatestClosed(now, job.stepSeconds);
  }

  /** The window a job asks a provider for: a given one up to the last settled bar, or the target span
      before that bar, but no further back than the overlap before the provider's mark. */
  lemma {:induction false} WindowAsked(job: Job, now: int, mark: Option<Watermark>)
    ensures var settled := LastSettled(now, job.stepSeconds);
            var end := EndOf(job, now);
            var start := StartOf(job, end, mark);
            && end <= settled
            && (job.window.Some? ==>
                  && start == job.window.value.0 && end <= job.window.value.1
                  && (end == settled || end == job.window.value.1))
            && (job.window.None? ==>
                  && end == settled && start >= end - job.targetSpan
                  && (mark.None? ==> start == end - job.targetSpan)
                  && (mark.Some? ==>
                        var again := mark.value.eventTime - job.stepSeconds * SECOND * job.overlapBars;
                        start >= again && (start == again || start == end - job.targetSpan)))
  {
    hide LastSettled;
  }

  /** The provider delivers: something is to be asked, the limit is one a request accepts, every page
      of the window is answered with rows that can be ingested, and some settled bar of the window is
      among them. */
  ghost predicate Delivers(job: Job, h: History, now: int, source: Source, provider: Provider) {
    var end := EndOf(job, now);
    var start := StartOf(job, end, MarkOf(h, job.series, provider));
    && start <= end && 1 <= job.requestLimit <= 5000
    && var pages := PagesFrom(start, end, Step(job), job.requestLimit);
       && AllSane(source, provider, pages)
       && exists t :: start <= t <= end && ReportedOn(source, provider, pages, t)
  }

  /** What a delivery leaves: exactly the settled bars of the window it reported are added, and the
      provider's mark is the latest of them, unless it stood on a later one. */
  ghost predicate Credited(job: Job, before: History, after: History, now: int, source: Source, provider: Provider) {
    var end := EndOf(job, now);
    var start := StartOf(job, end, MarkOf(before, job.series, provider));
    && start <= end && job.requestLimit >= 1
    && exists opens, top ::
         && OpensExactly(opens, source, provider, PagesFrom(start, end, Step(job), job.requestLimit), start, end)
         && Covered(after, job.series) == Covered(before, job.series) + (set t | t in opens)
         && top in opens && (forall t :: t in opens ==> t <= top)
         && MarkOf(after, job.series, provider)
            == Some(match MarkOf(before, job.series, provider)
                    case None => Watermark(top, now)
                    case Some(mark) => if top < mark.eventTime then mark else Watermark(top, now))
  }

  lemma {:induction false} DeliveryDecided(job: Job, before: History, after: History, now: int, source: Source,
                                           provider: Provider, ok: bool, opens: seq<int>, pages: seq<Page>)
    requires var end := EndOf(job, now);
             var start := StartOf(job, end, MarkOf(before, job.series, provider));
             Asked(job, before, after, source, provider, start, end, ok, opens, pages)
    ensures ok && opens != [] <==> Delivers(job, before, now, source, provider)
  {
    hide EndOf, StartOf, AllSane, PagesFrom, Reports, Covered, NothingInvented;
    var end := EndOf(job, now);
    var start := StartOf(job, end, MarkOf(before, job.series, provider));
    if ok && opens != [] {
      var t := opens[0];
      assert t in opens;
      assert start <= t <= end && ReportedOn(source, provider, pages, t);
      assert pages == PagesFrom(start, end, Step(job), job.requestLimit);
    }
    if Delivers(job, before, now, source, provider) {
      assert ok && pages == PagesFrom(start, end, Step(job), job.requestLimit);
      var t :| start <= t <= end && ReportedOn(source, provider, pages, t);
      assert t in opens;
    }
  }

  lemma {:induction false} CreditedBy(job: Job, before: History, middle: History, after: History, now: int,
                                      source: Source, provider: Provider, opens: seq<int>, pages: seq<Page>, top: int)
    requires var end := EndOf(job, now);
             var start := StartOf(job, end, MarkOf(before, job.series, provider));
             Asked(job, before, middle, source, provider, start, end, true, opens, pages)
    requires top in opens && (forall t :: t in opens ==> t <= top) && middle.watermarks == before.watermarks
    requires after.coverage == middle.coverage
    requires MarkOf(after, job.series, provider)
             == Some(match MarkOf(before, job.series, provider)
                     case None => Watermark(top, now)
                     case Some(mark) => if top < mark.eventTime then mark else Watermark(top, now))
    ensures Credited(job, before, after, now, source, provider)
  {
    hide EndOf, StartOf, AllSane, PagesFrom, Reports, NothingInvented;
    var end := EndOf(job, now);
    var start := StartOf(job, end, MarkOf(before, job.series, provider));
    assert Covered(after, job.series) == Covered(middle, job.series);
    assert start <= end;
  }

  lemma {:induction false} AskedInvents(job: Job, before: History, middle: History, after: History, source: Source,
                                        provider: Provider, start: int, end: int, ok: bool, opens: seq<int>,
                                        pages: seq<Page>)
    requires Asked(job, before, middle, source, provider, start, end, ok, opens, pages)
    requires after.coverage == middle.coverage
    ensures NothingInvented(before, after, job.series, source, provider, start, end)
  {}

  /** Only watermarks before, and coverage and watermarks after, matter. */
  lemma {:induction false} DeliversSame(job: Job, h: History, h': History, now: int, source: Source, provider: Provider)
    requires h'.watermarks == h.watermarks
    ensures Delivers(job, h, now, source, provider) <==> Delivers(job, h', now, source, provider)
  {}

  /** Every bar that was added was reported by some provider. */
  ghost predicate AllReported(before: History, after: History, series: Series, source: Source) {
    forall t :: t in Covered(after, series) && t !in Covered(before, series) ==>
      exists provider, page :: Reports(source(provider, page), t)
  }

  lemma {:induction false} NothingAdded(before: History, after: History, series: Series, source: Source)
    requires after.coverage == before.coverage
    ensures AllReported(before, after, series, source)
  {}

  lemma {:induction false} ReportedAsBefore(before: History, middle: History, after: History, series: Series,
                                            source: Source)
    requires AllReported(before, middle, series, source) && after.coverage == middle.coverage
    ensures AllReported(before, after, series, source)
  {}

  lemma {:induction false} AllReportedStep(a: History, b: History, c: History, job: Job, source: Source,
                                           provider: Provider, start: int, end: int)
    requires AllReported(a, b, job.series, source)
    requires NothingInvented(b, c, job.series, source, provider, start, end)
    ensures AllReported(a, c, job.series, source)
  {
    hide Covered, Reports;
  }

  /** The run is that of the first available provider of the route that delivers, and fails if none
      does. */
  ghost predicate Won(route: seq<Provider>, available: set<Provider>, job: Job, before: History, now: int,
                      source: Source, run: HistoryRun)
  {
    if run.state.Succeeded? then
      exists i :: FirstToDeliver(route, available, job, before, now, source, i) && run.provider == Some(route[i])
    else
      run.provider.None? && forall i :: 0 <= i < |route| ==> !Yields(route[i], available, job, before, now, source)
  }

  ghost predicate Yields(provider: Provider, available: set<Provider>, job: Job, before: History, now: int,
                         source: Source)
  {
    provider in available && Delivers(job, before, now, source, provider)
  }

  ghost predicate FirstToDeliver(route: seq<Provider>, available: set<Provider>, job: Job, before: History, now: int,
                                 source: Source, i: int)
  {
    && 0 <= i < |route| && Yields(route[i], available, job, before, now, source)
    && forall k :: 0 <= k < i ==> !Yields(route[k], available, job, before, now, source)
  }

  class BackfillEngine {
    const route: seq<Provider>
    const available: set<Provider>
    const state: InMemoryHistoryState

    constructor (route: seq<Provider>, available: set<Provider>, state: InMemoryHistoryState)
      ensures this.route == route && this.available == available && this.state == state
    {
      this.route, this.available, this.state := route, available, state;
    }

    /** One provider's turn: its pages, and its mark if they brought settled bars. */
    method TryProvider(job: Job, now: int, source: Source, provider: Provider) returns (won: bool)
      requires Grounded(state.View())
      modifies state`coverage, state`watermarks
      ensures Grounded(state.View()) && Grows(old(state.View()), state.View(), job.series, now - Step(job))
      ensures if won then Fetched(old(state.View()), state.View(), job, now, source, provider)
                          && Credited(job, old(state.View()), state.View(), now, source, provider)
              else state.watermarks == old(state.watermarks)
      ensures won <==> Delivers(job, old(state.View()), now, source, provider)
      ensures exists start, end ::
                NothingInvented(old(state.View()), state.View(), job.series, source, provider, start, end)
    {
      hide Grows, Grounded, Covered, WellPaged, Recorded, EndOf, StartOf, Step, Fetched, Credited, Delivers, Asked;
      hide NothingInvented;
      ghost var before, limit := state.View(), now - Step(job);
      var end := EndOf(job, now);
      EndIsClosed(job, now);
      var key := (job.series, provider);
      var mark := if key in state.watermarks then Some(state.watermarks[key]) else None;
      var start := StartOf(job, end, mark);
      var ok, opens, pages := FetchPages(state, job, provider, source, start, end);
      ghost var fetched := state.View();
      GrowsWeaker(before, fetched, job.series, end, limit);
      assert mark == MarkOf(before, job.series, provider);
      DeliveryDecided(job, before, fetched, now, source, provider, ok, opens, pages);
      AskedInvents(job, before, fetched, fetched, source, provider, start, end, ok, opens, pages);
      if !ok || opens == [] {
        return false;
      }
      var top := Greatest(opens);
      state.CommitWatermark(job.series, provider, Watermark(top, now));
      assert Grows(fetched, state.View(), job.series, limit);
      GrowsTransitive(before, fetched, state.View(), job.series, limit);
      FetchedBy(before, fetched, state.View(), job, now, source, provider, pages);
      CreditedBy(job, before, fetched, state.View(), now, source, provider, opens, pages, top);
      AskedInvents(job, before, fetched, state.View(), source, provider, start, end, ok, opens, pages);
      return true;
    }

    /** `sync`: the first provider of the route that yields settled bars wins. */
    method Sync(job: Job, now: int, source: Source) returns (run: HistoryRun)
      requires Grounded(state.View())
      modifies state
      ensures Synced(old(state.View()), state.View(), job, now, source, run)
      ensures Won(route, available, job, old(state.View()), now, source, run)
      ensures AllReported(old(state.View()), state.View(), job.series, source)
    {
      hide Grows, Grounded, Covered, Step, Fetched, Delivers, Credited, AllReported, NothingInvented;
      ghost var before, limit := state.View(), now - Step(job);
      run := HistoryRun(RunId(job.series, now), Running, None);
      state.SaveRun(run);
      GrowsReflexive(before, job.series, limit);
      RunsDoNotMatter(before, before, state.View(), job.series, limit);
      NothingAdded(before, state.View(), job.series, source);
      for i := 0 to |route|
        invariant Grounded(state.View()) && Grows(before, state.View(), job.series, limit)
        invariant state.runs == before.runs[run.id := run] && run == HistoryRun(RunId(job.series, now), Running, None)
        invariant state.watermarks == before.watermarks
        invariant AllReported(before, state.View(), job.series, source)
        invariant forall k :: 0 <= k < i ==> !Yields(route[k], available, job, before, now, source)
      {
        var provider := route[i];
        if provider !in available {
          continue;
        }
        ghost var middle := state.View();
        DeliversSame(job, before, middle, now, source, provider);
        var won := TryProvider(job, now, source, provider);
        ghost var tried := state.View();
        ghost var start, end :| NothingInvented(middle, tried, job.series, source, provider, start, end);
        AllReportedStep(before, middle, tried, job, source, provider, start, end);
        GrowsTransitive(before, middle, tried, job.series, limit);
        if won {
          run := run.(state := Succeeded, provider := Some(provider));
          state.SaveRun(run);
          RunsDoNotMatter(before, tried, state.View(), job.series, limit);
          FetchedSame(before, middle, tried, state.View(), job, now, source, provider);
          ReportedAsBefore(before, tried, state.View(), job.series, source);
          assert FirstToDeliver(route, available, job, before, now, source, i);
          return;
        }
      }
      run := run.(state := Failed);
      ghost var last := state.View();
      state.SaveRun(run);
      ReportedAsBefore(before, last, state.View(), job.series, source);
      RunsDoNotMatter(before, last, state.View(), job.series, limit);
    }

    /** `repair`: one run per maximal group of adjacent gaps; a run that left a gap of its group
        open is turned into a failure. All runs succeeding means every gap is covered. */
    method Repair(job: Job, gaps: seq<int>, now: int, sources: nat -> Source)
      returns (runs: seq<HistoryRun>, ghost groups: seq<seq<int>>)
      requires Grounded(state.View())
      modifies state
      ensures Grounded(state.View()) && Grows(old(state.View()), state.View(), job.series, now + |gaps| - Step(job))
      ensures Grouped(groups, Step(job)) && (forall g :: g in gaps <==> g in Flatten(groups))
      ensures |runs| == |groups|
      ensures forall i, k :: 0 <= i < |runs| && runs[i].state.Succeeded? && 0 <= k < |groups[i]| ==>
                groups[i][k] in Covered(state.View(), job.series)
      ensures (forall i :: 0 <= i < |runs| ==> runs[i].state.Succeeded?) ==>
                forall g :: g in gaps ==> g in Covered(state.View(), job.series)
      ensures IsRunning(state.View(), job.series) ==> old(IsRunning(state.View(), job.series))
    {
      hide Grows, Grounded, Covered, Grouped, Flatten, IsRunning;
      var step := Step(job);
      var limit := now + |gaps| - step;
      var ordered := SortDistinct(gaps);
      var pieces := GroupGaps(ordered, step);
      groups := pieces;
      GroupsAtMost(pieces, step);
      runs := [];
      ghost var before := state.View();
      GrowsReflexive(before, job.series, limit);
      for i := 0 to |pieces|
        invariant Grounded(state.View()) && Grows(before, state.View(), job.series, limit)
        invariant |runs| == i
        invariant forall j, k :: 0 <= j < i && runs[j].state.Succeeded? && 0 <= k < |pieces[j]| ==>
                    pieces[j][k] in Covered(state.View(), job.series)
        invariant IsRunning(state.View(), job.series) ==> IsRunning(before, job.series)
      {
        var group := pieces[i];
        GroupBounds(pieces, step, i);
        var window := (group[0], group[|group| - 1] + step);
        ghost var h0 := state.View();
        var run := Sync(job.(window := Some(window)), now + i, sources(i));
        ghost var h1 := state.View();
        SyncedKeeps(h0, h1, job.(window := Some(window)), now + i, sources(i), run, limit);
        GrowsTransitive(before, h0, h1, job.series, limit);
        CoverageOf(h0, h1, job.series, limit);
        var covered := CoveredNow(job.series);
        if run.state.Succeeded? && exists k :: 0 <= k < |group| && group[k] !in covered {
          run := run.(state := Failed);
          state.SaveRun(run);
          RunsDoNotMatter(before, h1, state.View(), job.series, limit);
          SavedFinished(h1, state.View(), job.series, run);
          GrowsReflexive(h1, job.series, limit);
          RunsDoNotMatter(h1, h1, state.View(), job.series, limit);
          CoverageOf(h1, state.View(), job.series, limit);
        }
        runs := runs + [run];
      }
      forall g | g in gaps && forall i :: 0 <= i < |runs| ==> runs[i].state.Succeeded?
        ensures g in Covered(state.View(), job.series)
      {
        var i, k := InSomeGroup(pieces, g);
        assert runs[i].state.Succeeded?;
      }
    }

    method CoveredNow(series: Series) returns (r: set<int>)
      ensures r == Covered(state.View(), series)
    {
      r := if series in state.coverage then state.coverage[series] else {};
    }
  }

  lemma {:induction false} SyncedKeeps(before: History, after: History, job: Job, now: int, source: Source,
                                       run: HistoryRun, limit: int)
    requires Synced(before, after, job, now, source, run) && now - Step(job) <= limit
    ensures Grows(before, after, job.series, limit)
    ensures IsRunning(after, job.series) ==> IsRunning(before, job.series)
  {
    GrowsWeaker(before, after, job.series, now - Step(job), limit);
    SavedFinished(before, after, job.series, run);
  }

  lemma {:induction false} SavedFinished(before: History, after: History, series: Series, run: HistoryRun)
    requires after.runs == before.runs[run.id := run] && !run.state.Running?
    ensures IsRunning(after, series) ==> IsRunning(before, series)
  {}

  // ---------------------------------------------------------------------------------
  // Gap groups
  // ---------------------------------------------------------------------------------

  ghost predicate Ascending(values: seq<int>) {
    forall i, j :: 0 <= i < j < |values| ==> values[i] < values[j]
  }

  /** `sorted(set(values))` */
  method SortDistinct(values: seq<int>) returns (r: seq<int>)
    ensures Ascending(r) && |r| <= |values|
    ensures forall v :: v in r <==> v in values
  {
    r := [];
    for i := 0 to |values|
      invariant Ascending(r) && |r| <= i
      invariant forall v :: v in r <==> v in values[..i]
    {
      assert values[..i + 1] == values[..i] + [values[i]];
      r := Inserted(r, values[i]);
    }
    assert values[..|values|] == values;
  }

  function Inserted(sorted: seq<int>, v: int): (r: seq<int>)
    requires Ascending(sorted)
    ensures Ascending(r) && |sorted| <= |r| <= |sorted| + 1
    ensures forall x :: x in r <==> x in sorted || x == v
  {
    if sorted == [] then [v]
    else
      var n := |sorted| - 1;
      assert sorted == sorted[..n] + [sorted[n]];
      if sorted[n] < v then sorted + [v]
      else if sorted[n] == v then sorted
      else
        var init := Inserted(sorted[..n], v);
        assert forall i :: 0 <= i < |init| ==> init[i] in init;
        init + [sorted[n]]
  }

  function Flatten(groups: seq<seq<int>>): seq<int> {
    if groups == [] then [] else Flatten(groups[..|groups| - 1]) + groups[|groups| - 1]
  }

  /** A non-empty run of adjacent bars. */
  ghost predicate Adjacent(group: seq<int>, step: int) {
    group != [] && forall k :: 0 <= k < |group| - 1 ==> group[k + 1] == group[k] + step
  }

  /** The second group does not continue the first. */
  ghost predicate Separate(a: seq<int>, b: seq<int>, step: int) {
    a != [] && b != [] && b[0] != a[|a| - 1] + step
  }

  /** Maximal runs of adjacent bars. */
  ghost predicate Grouped(groups: seq<seq<int>>, step: int) {
    && (forall g :: 0 <= g < |groups| ==> Adjacent(groups[g], step))
    && (forall g :: 0 <= g < |groups| - 1 ==> Separate(groups[g], groups[g + 1], step))
  }

  lemma {:induction false} FlattenAppend(groups: seq<seq<int>>, group: seq<int>)
    ensures Flatten(groups + [group]) == Flatten(groups) + group
  {
    assert (groups + [group])[..|groups|] == groups;
  }

  /** The last group takes one more bar, or a new group starts. */
  lemma {:induction false} GroupStep(groups: seq<seq<int>>, step: int, v: int)
    requires groups != [] && Grouped(groups, step)
    ensures var n := |groups| - 1;
            var last := groups[n];
            var next := if last != [] && v == last[|last| - 1] + step then groups[..n] + [last + [v]]
                        else groups + [[v]];
            Grouped(next, step) && Flatten(next) == Flatten(groups) + [v]
  {
    hide Flatten;
    var n := |groups| - 1;
    var last := groups[n];
    assert Adjacent(last, step);
    assert groups == groups[..n] + [last];
    FlattenAppend(groups[..n], last);
    FlattenAppend(groups[..n], last + [v]);
    FlattenAppend(groups, [v]);
    var longer := groups[..n] + [last + [v]];
    if v == last[|last| - 1] + step {
      assert forall g :: 0 <= g < n - 1 ==> Separate(groups[g], groups[g + 1], step);
      assert n > 0 ==> Separate(groups[n - 1], groups[n - 1 + 1], step);
      assert Grouped(longer, step);
    } else {
      assert Separate(last, [v], step);
    }
  }

  lemma {:induction false} GroupStart(step: int, v: int)
    ensures Grouped([], step) && Flatten([]) == []
    ensures Grouped([[v]], step) && Flatten([[v]]) == [v]
  {
    FlattenAppend([], [v]);
    assert [] + [[v]] == [[v]];
  }

  /** The grouping loop of `repair`: the groups partition the gaps, in order. */
  method GroupGaps(ordered: seq<int>, step: int) returns (groups: seq<seq<int>>)
    ensures Grouped(groups, step) && Flatten(groups) == ordered
  {
    hide Grouped, Flatten;
    GroupStart(step, if ordered == [] then 0 else ordered[0]);
    if ordered == [] {
      return [];
    }
    groups := [[ordered[0]]];
    assert ordered[..1] == [ordered[0]];
    for i := 1 to |ordered|
      invariant groups != [] && Grouped(groups, step)
      invariant Flatten(groups) == ordered[..i]
    {
      GroupStep(groups, step, ordered[i]);
      var n := |groups| - 1;
      var last := groups[n];
      if last != [] && ordered[i] == last[|last| - 1] + step {
        groups := groups[..n] + [last + [ordered[i]]];
      } else {
        groups := groups + [[ordered[i]]];
      }
      assert ordered[..i + 1] == ordered[..i] + [ordered[i]];
    }
    assert ordered[..|ordered|] == ordered;
  }

  lemma {:induction false} GroupsAtMost(groups: seq<seq<int>>, step: int)
    requires Grouped(groups, step)
    ensures |groups| <= |Flatten(groups)|
  {
    if groups != [] {
      assert Adjacent(groups[|groups| - 1], step);
      GroupsAtMost(groups[..|groups| - 1], step);
    }
  }

  lemma {:induction false} GroupBounds(groups: seq<seq<int>>, step: int, g: nat)
    requires Grouped(groups, step) && g < |groups| && step > 0
    ensures groups[g] != [] && groups[g][0] < groups[g][|groups[g]| - 1] + step
  {
    assert Adjacent(groups[g], step);
    Climbs(groups[g], step);
  }

  lemma {:induction false} Climbs(group: seq<int>, step: int)
    requires Adjacent(group, step) && step > 0
    ensures group[0] <= group[|group| - 1]
  {
    if |group| > 1 {
      Climbs(group[..|group| - 1], step);
    }
  }

  lemma {:induction false} InSomeGroup(groups: seq<seq<int>>, t: int) returns (g: nat, k: nat)
    requires t in Flatten(groups)
    ensures g < |groups| && k < |groups[g]| && groups[g][k] == t
  {
    var n := |groups| - 1;
    if t in groups[n] {
      k :| 0 <= k < |groups[n]| && groups[n][k] == t;
      g := n;
    } else {
      g, k := InSomeGroup(groups[..n], t);
    }
  }

  // ---------------------------------------------------------------------------------
  // Readiness
  // ---------------------------------------------------------------------------------

  type Calendar = int -> bool

  function Opens(calendar: Calendar, cursor: int, end: int, step: int): seq<int>
    requires step > 0
    decreases end - cursor + step
  {
    if cursor > end then []
    else (if calendar(cursor) then [cursor] else []) + Opens(calendar, cursor + step, end, step)
  }

  /** `expected_opens` */
  method ExpectedOpens(calendar: Calendar, start: int, end: int, step: int) returns (r: seq<int>)
    requires step > 0
    ensures r == Opens(calendar, start, end, step)
  {
    r := [];
    var cursor := start;
    while cursor <= end
      invariant r + Opens(calendar, cursor, end, step) == Opens(calendar, start, end, step)
      decreases end - cursor + step
    {
      if calendar(cursor) {
        r := r + [cursor];
      }
      cursor := cursor + step;
    }
  }

  /** Exactly the calendar's bars on the grid from `start` to `end`. */
  lemma {:induction false} OpensAreExact(calendar: Calendar, start: int, end: int, step: int, t: int)
    requires step > 0
    ensures t in Opens(calendar, start, end, step)
            <==> start <= t <= end && (t - start) % step == 0 && calendar(t)
    decreases end - start + step
  {
    if start <= end {
      OpensAreExact(calendar, start + step, end, step, t);
      GridShift(t, start, step);
      GridStart(step);
    }
  }

  lemma {:induction false} GridStart(step: int)
    requires step > 0
    ensures 0 % step == 0
  {
    DivisionUnique(0, step, 0, 0);
  }

  lemma {:induction false} GridShift(t: int, start: int, step: int)
    requires step > 0
    ensures (t - start) % step == (t - (start + step)) % step
    ensures start <= t < start + step && (t - start) % step == 0 ==> t == start
  {
    var q, r := (t - start) / step, (t - start) % step;
    assert t - (start + step) == step * (q - 1) + r;
    DivisionUnique(t - (start + step), step, q - 1, r);
    if start <= t < start + step {
      DivisionUnique(t - start, step, 0, t - start);
    }
  }

  datatype Readiness = Ready | Backfilling | InsufficientData | Stale | FailedRuns

  ghost predicate IsRunning(h: History, series: Series) {
    HasRun(h, series, Running)
  }

  ghost predicate HasRun(h: History, series: Series, state: RunState) {
    exists id :: id in h.runs && id.series == series && h.runs[id].state == state
  }

  function Missing(expected: seq<int>, covered: set<int>): seq<int> {
    if expected == [] then []
    else
      var n := |expected| - 1;
      Missing(expected[..n], covered) + (if expected[n] in covered then [] else [expected[n]])
  }

  function Expected(job: Job, calendar: Calendar, now: int): seq<int> {
    var end := LastSettled(now, job.stepSeconds);
    Opens(calendar, end - job.targetSpan, end, Step(job))
  }

  /** There are covered bars and the latest of them, hence each of them, is more than a step old. */
  ghost predicate Behind(covered: set<int>, end: int, step: int) {
    covered != {} && forall t :: t in covered ==> end - t > step
  }

  /** The state `status` reports. */
  ghost function Status(h: History, job: Job, calendar: Calendar, now: int): Readiness {
    if IsRunning(h, job.series) then Backfilling
    else if Missing(Expected(job, calendar, now), Covered(h, job.series)) == [] then Ready
    else if Behind(Covered(h, job.series), LastSettled(now, job.stepSeconds), Step(job)) then Stale
    else if HasRun(h, job.series, Failed) then FailedRuns
    else InsufficientData
  }

  lemma {:induction false} MissingAre(expected: seq<int>, covered: set<int>)
    ensures forall t :: t in Missing(expected, covered) <==> t in expected && t !in covered
  {
    if expected != [] {
      MissingAre(expected[..|expected| - 1], covered);
      assert expected == expected[..|expected| - 1] + [expected[|expected| - 1]];
    }
  }

  ghost predicate FullyCovered(h: History, job: Job, calendar: Calendar, now: int) {
    var end := LastSettled(now, job.stepSeconds);
    var start := end - job.targetSpan;
    forall t :: start <= t <= end && (t - start) % Step(job) == 0 && calendar(t) ==> t in Covered(h, job.series)
  }

  lemma {:induction false} NoneMissing(expected: seq<int>, covered: set<int>)
    requires forall i :: 0 <= i < |expected| ==> expected[i] in covered
    ensures Missing(expected, covered) == []
  {
    if expected != [] {
      NoneMissing(expected[..|expected| - 1], covered);
    }
  }

  /** READY means exactly that no run is in flight and every bar the calendar expects between the
      target start and the last settled bar is covered. */
  lemma {:induction false} ReadyMeansCovered(h: History, job: Job, calendar: Calendar, now: int)
    ensures Status(h, job, calendar, now) == Ready <==>
            !IsRunning(h, job.series) && FullyCovered(h, job, calendar, now)
  {
    hide Covered, LastSettled, Missing, Opens, HasRun, Step;
    var end := LastSettled(now, job.stepSeconds);
    var start := end - job.targetSpan;
    var expected := Expected(job, calendar, now);
    var gaps := Missing(expected, Covered(h, job.series));
    MissingAre(expected, Covered(h, job.series));
    forall t ensures t in expected <==> start <= t <= end && (t - start) % Step(job) == 0 && calendar(t) {
      OpensAreExact(calendar, start, end, Step(job), t);
    }
    if gaps == [] {
      forall t | start <= t <= end && (t - start) % Step(job) == 0 && calendar(t) ensures t in Covered(h, job.series) {
        assert t in expected;
        assert t !in gaps;
      }
    } else {
      var t := gaps[0];
      assert t in gaps;
      assert t in expected && t !in Covered(h, job.series);
    }
  }

  lemma {:induction false} NothingMissingAfter(before: History, after: History, job: Job, calendar: Calendar, now: int)
    requires Covered(before, job.series) <= Covered(after, job.series) && !IsRunning(after, job.series)
    requires forall g :: g in Missing(Expected(job, calendar, now), Covered(before, job.series)) ==>
               g in Covered(after, job.series)
    ensures Status(after, job, calendar, now) == Ready
  {
    hide Covered, Expected, Missing, HasRun;
    var expected := Expected(job, calendar, now);
    MissingAre(expected, Covered(before, job.series));
    forall i | 0 <= i < |expected| ensures expected[i] in Covered(after, job.series) {
      var t := expected[i];
      assert t in expected;
      assert t in Covered(before, job.series) || t in Missing(expected, Covered(before, job.series));
    }
    NoneMissing(expected, Covered(after, job.series));
  }

  /** Main result: repairing the gaps that `status` reports, with every run succeeding and no other
      run in flight, makes the series READY at the same instant. */
  method RepairReported(engine: BackfillEngine, job: Job, calendar: Calendar, now: int, sources: nat -> Source)
    returns (runs: seq<HistoryRun>)
    requires Grounded(engine.state.View()) && !IsRunning(engine.state.View(), job.series)
    modifies engine.state
    ensures Grounded(engine.state.View())
    ensures (forall i :: 0 <= i < |runs| ==> runs[i].state.Succeeded?) ==>
              Status(engine.state.View(), job, calendar, now) == Ready
  {
    hide Grounded, Grows, Covered, Missing, Opens, LastSettled, Grouped, Flatten, IsRunning, Status, Step;
    var end := LastSettled(now, job.stepSeconds);
    var expected := ExpectedOpens(calendar, end - job.targetSpan, end, Step(job));
    var covered := engine.CoveredNow(job.series);
    var gaps := Missing(expected, covered);
    ghost var before := engine.state.View();
    ghost var groups;
    runs, groups := engine.Repair(job, gaps, now, sources);
    CoverageOf(before, engine.state.View(), job.series, now + |gaps| - Step(job));
    if forall i :: 0 <= i < |runs| ==> runs[i].state.Succeeded? {
      NothingMissingAfter(before, engine.state.View(), job, calendar, now);
    }
  }
}
