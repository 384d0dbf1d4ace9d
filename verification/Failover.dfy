/** Provider failover of `RealtimeMarketCycle` in `runtime/realtime.py`: fall forward along the
    route when a provider fails, return to the primary after enough good probes. Providers and
    the clock are inputs; cancellation is not modelled. */
module Failover {
  import opened Contracts

  type Provider = string

  datatype FeedState = Healthy | Degraded | FailedOverState

  datatype ConfigRecord = Config(route: seq<Provider>, recoverySuccesses: nat, cooldown: int)
  type Config = c: ConfigRecord | c.route != [] && c.recoverySuccesses > 0
    witness Config(["p"], 1, 0)

  datatype Feed = Feed(
    activeIndex: nat,
    primarySuccesses: nat,
    failedOverAt: Option<int>,
    activeProvider: Provider,
    state: FeedState,
    failoverCount: nat)

  /** How consuming one provider went: whether it delivered, whether it delivered any quote
      before that was decided, and the clock if it failed. */
  datatype Attempt = Attempt(delivered: bool, observed: bool, failedAt: int)

  /** What the outside does during one `run_once`. */
  datatype Weather = Weather(now: int, probe: bool, attempts: nat -> Attempt)

  datatype Event =
    | Probed(good: bool)
    | FailedOver(index: nat, at: int)
    | Returned(at: int)
    | Restarted(index: nat)

  datatype Run = Run(feed: Feed, log: seq<Event>)

  // ---------------------------------------------------------------------------------
  // One cycle
  // ---------------------------------------------------------------------------------

  predicate RecoveryDue(cfg: Config, feed: Feed, now: int) {
    feed.failedOverAt.Some? && now >= feed.failedOverAt.value + cfg.cooldown
  }

  /** The probe of the primary and, after enough good ones in a row, the return to it. */
  function Recover(cfg: Config, run: Run, w: Weather): Run {
    var feed := run.feed;
    if feed.activeIndex == 0 || !RecoveryDue(cfg, feed, w.now) then run
    else if !w.probe then Run(feed.(primarySuccesses := 0), run.log + [Probed(false)])
    else if feed.primarySuccesses + 1 >= cfg.recoverySuccesses then
      Run(feed.(activeIndex := 0, primarySuccesses := 0), run.log + [Probed(true), Returned(w.now)])
    else Run(feed.(primarySuccesses := feed.primarySuccesses + 1), run.log + [Probed(true)])
  }

  datatype Outcome = Outcome(run: Run, normal: bool)

  /** Consuming the route from `index` on until a provider delivers or the last one fails. */
  function Consume(cfg: Config, run: Run, index: nat, w: Weather): Outcome
    requires index < |cfg.route|
    decreases |cfg.route| - index
  {
    var attempt := w.attempts(index);
    var feed := if attempt.observed then run.feed.(activeProvider := cfg.route[index]) else run.feed;
    if attempt.delivered then
      Outcome(Run(feed.(activeIndex := index, activeProvider := cfg.route[index],
                        state := if index == 0 then Healthy else FailedOverState), run.log), true)
    else if index + 1 == |cfg.route| then
      Outcome(Run(feed.(state := Degraded), run.log), false)
    else
      Consume(cfg, Advanced(cfg, run.(feed := feed), index, attempt.failedAt), index + 1, w)
  }

  function Advanced(cfg: Config, run: Run, index: nat, at: int): Run
    requires index + 1 < |cfg.route|
  {
    Run(run.feed.(activeIndex := index + 1, failedOverAt := Some(at), activeProvider := cfg.route[index + 1],
                  state := FailedOverState, failoverCount := run.feed.failoverCount + 1),
        run.log + [FailedOver(index, at)])
  }

  function RunOnce(cfg: Config, run: Run, w: Weather): Outcome
    requires run.feed.activeIndex < |cfg.route|
  {
    var ready := Recover(cfg, run, w);
    Consume(cfg, ready, ready.feed.activeIndex, w)
  }

  /** A restart reloads the saved snapshot; the count of good probes is not saved. */
  function Restart(cfg: Config, run: Run): Run {
    if run.feed.activeProvider !in cfg.route then Run(Initial(cfg), run.log)
    else
      var index := IndexOf(cfg.route, run.feed.activeProvider);
      Run(run.feed.(activeIndex := index, primarySuccesses := 0), run.log + [Restarted(index)])
  }

  function IndexOf(route: seq<Provider>, p: Provider): (i: nat)
    requires p in route
    ensures i < |route| && route[i] == p && forall j :: 0 <= j < i ==> route[j] != p
  {
    if route[0] == p then 0 else 1 + IndexOf(route[1..], p)
  }

  function Initial(cfg: Config): Feed {
    Feed(0, 0, None, cfg.route[0], Healthy, 0)
  }

  // ---------------------------------------------------------------------------------
  // What the log of a run says
  // ---------------------------------------------------------------------------------

  /** The probes of a log, in order. */
  function Probes(log: seq<Event>): seq<bool> {
    if log == [] then []
    else
      var last := log[|log| - 1];
      Probes(log[..|log| - 1]) + (if last.Probed? then [last.good] else [])
  }

  /** Good probes at the end of the log, since the last bad one, return or restart. */
  function GoodInARow(log: seq<Event>): nat {
    if log == [] then 0
    else
      var last, init := log[|log| - 1], GoodInARow(log[..|log| - 1]);
      match last
      case Probed(good) => if good then init + 1 else 0
      case FailedOver(_, _) => init
      case Returned(_) => 0
      case Restarted(_) => 0
  }

  function LatestFailover(log: seq<Event>): Option<int> {
    if log == [] then None
    else if log[|log| - 1].FailedOver? then Some(log[|log| - 1].at)
    else LatestFailover(log[..|log| - 1])
  }

  function Failovers(log: seq<Event>): nat {
    if log == [] then 0
    else Failovers(log[..|log| - 1]) + (if log[|log| - 1].FailedOver? then 1 else 0)
  }

  /** Where the route stands after the log. */
  function Position(log: seq<Event>): nat {
    if log == [] then 0
    else
      match log[|log| - 1]
      case Probed(_) => Position(log[..|log| - 1])
      case FailedOver(index, _) => index + 1
      case Returned(_) => 0
      case Restarted(index) => index
  }

  /** What each event of a run promises about the log before it. */
  ghost predicate Justified(cfg: Config, before: seq<Event>, e: Event) {
    match e
    case Probed(_) =>
      Position(before) > 0 && GoodInARow(before) < cfg.recoverySuccesses
    case FailedOver(index, _) =>
      Position(before) == index && index + 1 < |cfg.route| && GoodInARow(before) < cfg.recoverySuccesses
    case Returned(at) =>
      && GoodInARow(before) == cfg.recoverySuccesses
      && LatestFailover(before).Some? && at >= LatestFailover(before).value + cfg.cooldown
      && Position(before) > 0
    case Restarted(index) =>
      && index < |cfg.route| && Position(before) < |cfg.route|
      && cfg.route[index] == cfg.route[Position(before)]
      && GoodInARow(before) < cfg.recoverySuccesses
  }

  ghost predicate Lawful(cfg: Config, log: seq<Event>) {
    forall i :: 0 <= i < |log| ==> Justified(cfg, log[..i], log[i])
  }

  /** The fields are what the log says. */
  ghost predicate Tracks(cfg: Config, run: Run) {
    && Lawful(cfg, run.log)
    && run.feed.activeIndex == Position(run.log) < |cfg.route|
    && run.feed.primarySuccesses == GoodInARow(run.log) < cfg.recoverySuccesses
    && run.feed.failedOverAt == LatestFailover(run.log)
    && run.feed.failoverCount == Failovers(run.log)
  }

  ghost predicate Consistent(cfg: Config, run: Run) {
    Tracks(cfg, run) && run.feed.activeProvider == cfg.route[run.feed.activeIndex]
  }

  lemma {:induction false} LogAppend(cfg: Config, log: seq<Event>, e: Event)
    ensures var more := log + [e];
            && GoodInARow(more) == (match e
                                    case Probed(good) => if good then GoodInARow(log) + 1 else 0
                                    case FailedOver(_, _) => GoodInARow(log)
                                    case Returned(_) => 0
                                    case Restarted(_) => 0)
            && LatestFailover(more) == (if e.FailedOver? then Some(e.at) else LatestFailover(log))
            && Failovers(more) == Failovers(log) + (if e.FailedOver? then 1 else 0)
            && Position(more) == (match e
                                  case Probed(_) => Position(log)
                                  case FailedOver(index, _) => index + 1
                                  case Returned(_) => 0
                                  case Restarted(index) => index)
    ensures Lawful(cfg, log) && Justified(cfg, log, e) ==> Lawful(cfg, log + [e])
  {
    var more := log + [e];
    assert more[..|log|] == log;
    if Lawful(cfg, log) && Justified(cfg, log, e) {
      forall i | 0 <= i < |more| ensures Justified(cfg, more[..i], more[i]) {
        if i < |log| {
          assert more[..i] == log[..i] && Justified(cfg, log[..i], log[i]);
        }
      }
    }
  }

  lemma {:induction false} RecoverTracks(cfg: Config, run: Run, w: Weather)
    requires Consistent(cfg, run)
    ensures var ready := Recover(cfg, run, w);
            && Tracks(cfg, ready)
            && (ready.feed.activeProvider == cfg.route[ready.feed.activeIndex]
                || (ready.feed.activeIndex == 0 && |cfg.route| > 1))
  {
    hide Lawful, GoodInARow, LatestFailover, Failovers, Position;
    var ready := Recover(cfg, run, w);
    if ready != run {
      var probed := run.log + [Probed(w.probe)];
      LogAppend(cfg, run.log, Probed(w.probe));
      if w.probe && run.feed.primarySuccesses + 1 >= cfg.recoverySuccesses {
        LogAppend(cfg, probed, Returned(w.now));
        assert ready.log == probed + [Returned(w.now)];
      }
    }
  }

  lemma {:induction false} ConsumeTracks(cfg: Config, run: Run, w: Weather)
    requires Tracks(cfg, run)
    requires run.feed.activeProvider == cfg.route[run.feed.activeIndex]
             || run.feed.activeIndex + 1 < |cfg.route|
    ensures var out := Consume(cfg, run, run.feed.activeIndex, w);
            && Consistent(cfg, out.run)
            && (out.normal ==> (out.run.feed.state.Healthy? <==> out.run.feed.activeIndex == 0))
            && (!out.normal ==> out.run.feed.state.Degraded? && out.run.feed.activeIndex + 1 == |cfg.route|)
            && out.run.feed.activeIndex >= run.feed.activeIndex
            && out.run.feed.failoverCount - run.feed.failoverCount
               == out.run.feed.activeIndex - run.feed.activeIndex
    decreases |cfg.route| - run.feed.activeIndex
  {
    hide Lawful, GoodInARow, LatestFailover, Failovers, Position;
    var index := run.feed.activeIndex;
    var attempt := w.attempts(index);
    if !attempt.delivered && index + 1 < |cfg.route| {
      var feed := if attempt.observed then run.feed.(activeProvider := cfg.route[index]) else run.feed;
      LogAppend(cfg, run.log, FailedOver(index, attempt.failedAt));
      ConsumeTracks(cfg, Advanced(cfg, run.(feed := feed), index, attempt.failedAt), w);
    }
  }

  /** Every `run_once` keeps the feed consistent: the active provider is the one at the active
      index, a normal return is HEALTHY exactly at the primary, and the failover count grows by
      the number of steps along the route. */
  lemma {:induction false} RunOnceKeeps(cfg: Config, run: Run, w: Weather)
    requires Consistent(cfg, run)
    ensures var out := RunOnce(cfg, run, w);
            var started := Recover(cfg, run, w).feed.activeIndex;
            && Consistent(cfg, out.run)
            && (out.normal ==> (out.run.feed.state.Healthy? <==> out.run.feed.activeIndex == 0))
            && (!out.normal ==> out.run.feed.state.Degraded? && out.run.feed.activeIndex + 1 == |cfg.route|)
            && out.run.feed.failoverCount - run.feed.failoverCount == out.run.feed.activeIndex - started
  {
    hide Lawful, GoodInARow, LatestFailover, Failovers, Position;
    RecoverTracks(cfg, run, w);
    ConsumeTracks(cfg, Recover(cfg, run, w), w);
  }

  /** A probe is due: a fallback is active and the cooldown after the latest failover is over. */
  ghost predicate ProbeDue(cfg: Config, log: seq<Event>, now: int) {
    Position(log) > 0 && LatestFailover(log).Some? && now - LatestFailover(log).value >= cfg.cooldown
  }

  /** What the head of a cycle adds to the log: the probe if one is due, and the return if that makes
      enough good ones in a row. */
  ghost function ProbeEvents(cfg: Config, log: seq<Event>, w: Weather): seq<Event> {
    if !ProbeDue(cfg, log, w.now) then []
    else if w.probe && GoodInARow(log) + 1 == cfg.recoverySuccesses then [Probed(true), Returned(w.now)]
    else [Probed(w.probe)]
  }

  /** One failover per provider that failed, in route order. */
  function FailoverEvents(w: Weather, start: nat, stop: nat): seq<Event>
    requires start <= stop
  {
    seq(stop - start, i requires 0 <= i < stop - start => FailedOver(start + i, w.attempts(start + i).failedAt))
  }

  /** The provider a cycle ends at: the first from `start` on that delivers, or the last of the route. */
  ghost predicate EndsAt(cfg: Config, w: Weather, start: nat, stop: nat) {
    && start <= stop < |cfg.route|
    && (forall k :: start <= k < stop ==> !w.attempts(k).delivered)
    && (w.attempts(stop).delivered || stop + 1 == |cfg.route|)
  }

  lemma {:induction false} ConsumeDecided(cfg: Config, run: Run, index: nat, w: Weather) returns (stop: nat)
    requires index < |cfg.route| && run.feed.activeIndex == index
    ensures EndsAt(cfg, w, index, stop)
    ensures var out := Consume(cfg, run, index, w);
            && out.normal == w.attempts(stop).delivered && out.run.feed.activeIndex == stop
            && out.run.log == run.log + FailoverEvents(w, index, stop)
    decreases |cfg.route| - index
  {
    var attempt := w.attempts(index);
    if attempt.delivered || index + 1 == |cfg.route| {
      stop := index;
      assert run.log + FailoverEvents(w, index, stop) == run.log;
    } else {
      var feed := if attempt.observed then run.feed.(activeProvider := cfg.route[index]) else run.feed;
      stop := ConsumeDecided(cfg, Advanced(cfg, run.(feed := feed), index, attempt.failedAt), index + 1, w);
      assert FailoverEvents(w, index, stop)
          == [FailedOver(index, attempt.failedAt)] + FailoverEvents(w, index + 1, stop);
      assert run.log + [FailedOver(index, attempt.failedAt)] + FailoverEvents(w, index + 1, stop)
          == run.log + FailoverEvents(w, index, stop);
    }
  }

  /** Main result: what a cycle does is decided by its log so far and the outside. It probes if and
      only if a probe is due, returns if and only if that probe is good and the last one needed, and
      then goes along the route to the first provider that delivers, or to the last one. */
  lemma {:induction false} CycleDecided(cfg: Config, run: Run, w: Weather) returns (stop: nat)
    requires Consistent(cfg, run)
    ensures var probed := run.log + ProbeEvents(cfg, run.log, w);
            var start := Position(probed);
            var out := RunOnce(cfg, run, w);
            && EndsAt(cfg, w, start, stop)
            && out.normal == w.attempts(stop).delivered && out.run.feed.activeIndex == stop
            && out.run.log == probed + FailoverEvents(w, start, stop)
  {
    hide Lawful, GoodInARow, LatestFailover, Failovers, Position;
    RecoverTracks(cfg, run, w);
    var ready := Recover(cfg, run, w);
    assert run.log + [] == run.log;
    assert ready.log == run.log + ProbeEvents(cfg, run.log, w);
    stop := ConsumeDecided(cfg, ready, ready.feed.activeIndex, w);
  }

  lemma {:induction false} RestartKeeps(cfg: Config, run: Run)
    requires Consistent(cfg, run)
    ensures Consistent(cfg, Restart(cfg, run))
  {
    hide Lawful, GoodInARow, LatestFailover, Failovers, Position;
    LogAppend(cfg, run.log, Restarted(IndexOf(cfg.route, run.feed.activeProvider)));
  }

  // ---------------------------------------------------------------------------------
  // Whole runs
  // ---------------------------------------------------------------------------------

  datatype Step = Cycle(weather: Weather) | Crash

  function After(cfg: Config, steps: seq<Step>): (run: Run)
    ensures Consistent(cfg, run)
  {
    if steps == [] then Run(Initial(cfg), [])
    else
      var before := After(cfg, steps[..|steps| - 1]);
      match steps[|steps| - 1]
      case Cycle(w) =>
        RunOnceKeeps(cfg, before, w);
        RunOnce(cfg, before, w).run
      case Crash =>
        RestartKeeps(cfg, before);
        Restart(cfg, before)
  }

  /** The last good probes in a row are the last probes there were. */
  lemma {:induction false} GoodInARowAreLatest(log: seq<Event>)
    ensures GoodInARow(log) <= |Probes(log)|
    ensures forall j :: |Probes(log)| - GoodInARow(log) <= j < |Probes(log)| ==> Probes(log)[j]
  {
    if log != [] {
      GoodInARowAreLatest(log[..|log| - 1]);
    }
  }

  /** Main result: over every run of cycles and restarts, whatever the providers do, a return to
      the primary happens only right after the last `recoverySuccesses` probes all succeeded and
      no earlier than the cooldown after the latest failover. */
  lemma {:induction false} ReturnsAreEarned(cfg: Config, steps: seq<Step>, i: nat)
    requires i < |After(cfg, steps).log| && After(cfg, steps).log[i].Returned?
    ensures var log := After(cfg, steps).log;
            var probes := Probes(log[..i]);
            && cfg.recoverySuccesses <= |probes|
            && (forall j :: |probes| - cfg.recoverySuccesses <= j < |probes| ==> probes[j])
            && LatestFailover(log[..i]).Some?
            && log[i].at >= LatestFailover(log[..i]).value + cfg.cooldown
  {
    hide After, GoodInARow, Probes, LatestFailover;
    var log := After(cfg, steps).log;
    assert Justified(cfg, log[..i], log[i]);
    GoodInARowAreLatest(log[..i]);
  }

  /** The other direction: with a fallback active, enough good probes in a row return at once.
      The log never continues past that point with anything but the return. */
  lemma {:induction false} EarnedReturnsHappen(cfg: Config, steps: seq<Step>, i: nat)
    requires i <= |After(cfg, steps).log| && GoodInARow(After(cfg, steps).log[..i]) >= cfg.recoverySuccesses
    ensures i < |After(cfg, steps).log| && After(cfg, steps).log[i].Returned?
  {
    hide After, GoodInARow, Position, LatestFailover;
    var log := After(cfg, steps).log;
    assert log[..|log|] == log;
    if i < |log| {
      assert Justified(cfg, log[..i], log[i]);
    }
  }

  // ---------------------------------------------------------------------------------
  // The component
  // ---------------------------------------------------------------------------------

  class RealtimeMarketCycle {
    const cfg: Config
    var activeIndex: nat
    var primarySuccesses: nat
    var failedOverAt: Option<int>
    var activeProvider: Provider
    var state: FeedState
    var failoverCount: nat
    ghost var log: seq<Event>

    ghost function View(): Run
      reads this
    {
      Run(Feed(activeIndex, primarySuccesses, failedOverAt, activeProvider, state, failoverCount), log)
    }

    constructor (cfg: Config)
      ensures this.cfg == cfg && View() == Run(Initial(cfg), []) && Consistent(cfg, View())
    {
      this.cfg := cfg;
      activeIndex, primarySuccesses, failedOverAt := 0, 0, None;
      activeProvider, state, failoverCount, log := cfg.route[0], Healthy, 0, [];
    }

    /** The probe at the head of `run_once`. */
    method TryRecovery(w: Weather)
      modifies this
      ensures View() == Recover(cfg, old(View()), w)
    {
      if activeIndex != 0 && failedOverAt.Some? && w.now >= failedOverAt.value + cfg.cooldown {
        log := log + [Probed(w.probe)];
        if w.probe {
          primarySuccesses := primarySuccesses + 1;
          if primarySuccesses >= cfg.recoverySuccesses {
            activeIndex, primarySuccesses := 0, 0;
            assert log + [Returned(w.now)] == old(log) + [Probed(true), Returned(w.now)];
            log := log + [Returned(w.now)];
          }
        } else {
          primarySuccesses := 0;
        }
      }
    }

    /** `run_once`; false when the last provider's error is raised. */
    method RunOneCycle(w: Weather) returns (normal: bool)
      requires Consistent(cfg, View())
      modifies this
      ensures var out := RunOnce(cfg, old(View()), w); View() == out.run && normal == out.normal
      ensures Consistent(cfg, View())
    {
      hide Consistent, Tracks, Recover;
      RunOnceKeeps(cfg, View(), w);
      RecoverInRange(cfg, View(), w);
      TryRecovery(w);
      var index := activeIndex;
      while true
        invariant index < |cfg.route|
        invariant Consume(cfg, View(), index, w) == RunOnce(cfg, old(View()), w)
        decreases |cfg.route| - index
      {
        var attempt := w.attempts(index);
        if attempt.observed {
          activeProvider := cfg.route[index];
        }
        if attempt.delivered {
          activeIndex, activeProvider := index, cfg.route[index];
          state := if index == 0 then Healthy else FailedOverState;
          return true;
        }
        if index + 1 == |cfg.route| {
          state := Degraded;
          return false;
        }
        activeIndex := index + 1;
        failedOverAt := Some(attempt.failedAt);
        activeProvider, state := cfg.route[index + 1], FailedOverState;
        failoverCount := failoverCount + 1;
        log := log + [FailedOver(index, attempt.failedAt)];
        index := index + 1;
      }
    }
  }

  lemma {:induction false} RecoverInRange(cfg: Config, run: Run, w: Weather)
    requires Consistent(cfg, run)
    ensures run.feed.activeIndex < |cfg.route| && Recover(cfg, run, w).feed.activeIndex < |cfg.route|
  {
    hide Lawful, Position, GoodInARow, LatestFailover, Failovers;
  }
}
