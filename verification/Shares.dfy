/**
 Share accounting of one job: the worker reports cumulative engine counters,
 which restart with the engine; handleMetrics turns them into per-interval
 deltas and adds those up (internal/swarm/hub.go).
 */
module Shares {

  // ---------------------------------------------------------------------
  // The hub's counter
  // ---------------------------------------------------------------------

  /** The delta stored for a report, given the last cumulative value seen. */
  function Delta(last: nat, cur: nat): (d: nat)
    ensures d <= cur
  {
    if cur - last < 0 then cur else cur - last
  }

  /** Sum of the deltas of a report sequence. */
  function Total(last: nat, reports: seq<nat>): nat
    decreases |reports|
  {
    if reports == [] then 0 else Delta(last, reports[0]) + Total(reports[0], reports[1..])
  }

  /** What the hub has last seen after a report sequence. */
  function Final(last: nat, reports: seq<nat>): nat {
    if reports == [] then last else reports[|reports| - 1]
  }

  /** The counter values that were followed by a smaller one. */
  function Dropped(last: nat, reports: seq<nat>): nat
    decreases |reports|
  {
    if reports == [] then 0
    else (if reports[0] < last then last else 0) + Dropped(reports[0], reports[1..])
  }

  predicate NeverDrops(last: nat, reports: seq<nat>)
    decreases |reports|
  {
    reports == [] || (last <= reports[0] && NeverDrops(reports[0], reports[1..]))
  }

  /** The summed deltas are the last counter plus everything counted before each visible restart. */
  lemma {:induction false} TotalExact(last: nat, reports: seq<nat>)
    ensures last + Total(last, reports) == Final(last, reports) + Dropped(last, reports)
    decreases |reports|
  {
    if reports != [] {
      TotalExact(reports[0], reports[1..]);
    }
  }

  lemma {:induction false} DroppedZeroIff(last: nat, reports: seq<nat>)
    ensures Dropped(last, reports) == 0 <==> NeverDrops(last, reports)
    decreases |reports|
  {
    if reports != [] {
      DroppedZeroIff(reports[0], reports[1..]);
    }
  }

  /** After an acknowledgement the deltas sum to the last counter exactly when no report ever fell. */
  lemma {:induction false} TotalIsLastCounterIff(reports: seq<nat>)
    ensures Total(0, reports) == Final(0, reports) <==> NeverDrops(0, reports)
  {
    TotalExact(0, reports);
    DroppedZeroIff(0, reports);
  }

  // ---------------------------------------------------------------------
  // The engine behind the reports
  // ---------------------------------------------------------------------

  datatype EngineEvent = Found(n: nat) | Restart | Report

  /**
   An engine and the hub's view of it. `counter` is what the engine would report now,
   `produced` what it has truly found since the acknowledgement, `last` and `total` are
   the hub's, and `restarted` says whether the engine restarted since the last report.
   */
  datatype World = World(counter: nat, produced: nat, last: nat, total: nat, restarted: bool)

  const ACKED := World(0, 0, 0, 0, false)

  function Next(w: World, e: EngineEvent): World {
    match e
    case Found(n) => w.(counter := w.counter + n, produced := w.produced + n)
    case Restart => w.(counter := 0, restarted := true)
    case Report => w.(last := w.counter, total := w.total + Delta(w.last, w.counter), restarted := false)
  }

  function After(w: World, evs: seq<EngineEvent>): World
    decreases |evs|
  {
    if evs == [] then w else After(Next(w, evs[0]), evs[1..])
  }

  /** What the run's reports were. */
  function Reports(w: World, evs: seq<EngineEvent>): seq<nat>
    decreases |evs|
  {
    if evs == [] then []
    else (if evs[0].Report? then [w.counter] else []) + Reports(Next(w, evs[0]), evs[1..])
  }

  /**
   Shares a run loses: at a restart what the dying engine had not reported,
   and at the first report after a restart whatever the hub still subtracts
   because the new counter has already overtaken the old one.
   */
  function Lost(w: World, evs: seq<EngineEvent>): nat
    decreases |evs|
  {
    if evs == [] then 0 else LostAt(w, evs[0]) + Lost(Next(w, evs[0]), evs[1..])
  }

  function LostAt(w: World, e: EngineEvent): nat {
    match e
    case Found(_) => 0
    case Restart => if w.restarted then w.counter else if w.last <= w.counter then w.counter - w.last else 0
    case Report => if w.restarted && w.last <= w.counter then w.last else 0
  }

  /** Shares found by the current engine run and not yet reported. */
  function Pending(w: World): int {
    if w.restarted then w.counter else w.counter - w.last
  }

  predicate Inv(w: World) { !w.restarted ==> w.last <= w.counter }

  /** Conservation: every share found is counted, lost as described, or still to be reported. */
  lemma {:induction false} SharesConserved(w: World, evs: seq<EngineEvent>)
    requires Inv(w)
    ensures Inv(After(w, evs))
    ensures After(w, evs).produced - w.produced
            == (After(w, evs).total - w.total) + Lost(w, evs) + (Pending(After(w, evs)) - Pending(w))
    decreases |evs|
  {
    if evs != [] {
      SharesConserved(Next(w, evs[0]), evs[1..]);
    }
  }

  /** Honest counts: in every run the hub's total never exceeds what the engine truly found. */
  lemma {:induction false} NeverOvercounts(evs: seq<EngineEvent>)
    ensures After(ACKED, evs).total <= After(ACKED, evs).produced
  {
    SharesConserved(ACKED, evs);
  }

  lemma {:induction false} NothingPending(w: World)
    ensures Pending(Next(w, Report)) == 0
  {
  }

  lemma {:induction false} ExactWhenNothingPending(run: seq<EngineEvent>)
    requires Pending(After(ACKED, run)) == 0
    ensures After(ACKED, run).total == After(ACKED, run).produced <==> Lost(ACKED, run) == 0
  {
    SharesConserved(ACKED, run);
  }

  /** ... and right after a report it is exact if and only if nothing was lost to a restart. */
  lemma {:induction false} ExactIffNothingLost(evs: seq<EngineEvent>)
    ensures var run := evs + [Report];
            After(ACKED, run).total == After(ACKED, run).produced <==> Lost(ACKED, run) == 0
  {
    AfterSnoc(ACKED, evs, Report);
    NothingPending(After(ACKED, evs));
    ExactWhenNothingPending(evs + [Report]);
  }

  lemma {:induction false} AfterSnoc(w: World, evs: seq<EngineEvent>, e: EngineEvent)
    ensures After(w, evs + [e]) == Next(After(w, evs), e)
    decreases |evs|
  {
    if evs == [] {
      assert evs + [e] == [e];
      assert After(w, [e]) == After(Next(w, e), [e][1..]);
    } else {
      assert (evs + [e])[1..] == evs[1..] + [e];
      AfterSnoc(Next(w, evs[0]), evs[1..], e);
    }
  }

  lemma {:induction false} NoRestartLosesNothing(w: World, evs: seq<EngineEvent>)
    requires Inv(w) && !w.restarted && forall e | e in evs :: !e.Restart?
    ensures Lost(w, evs) == 0 && !After(w, evs).restarted
    decreases |evs|
  {
    if evs != [] {
      assert evs[0] in evs;
      NoRestartLosesNothing(Next(w, evs[0]), evs[1..]);
    }
  }

  /** Without a restart the hub's total is at every moment the counter it saw last. */
  lemma {:induction false} ExactWithoutRestart(evs: seq<EngineEvent>)
    requires forall e | e in evs :: !e.Restart?
    ensures After(ACKED, evs).total == After(ACKED, evs).last
    ensures After(ACKED, evs).produced == After(ACKED, evs).counter
  {
    SharesConserved(ACKED, evs);
    NoRestartLosesNothing(ACKED, evs);
    CounterIsProduced(ACKED, evs);
  }

  lemma {:induction false} CounterIsProduced(w: World, evs: seq<EngineEvent>)
    requires forall e | e in evs :: !e.Restart?
    ensures After(w, evs).produced - w.produced == After(w, evs).counter - w.counter
    decreases |evs|
  {
    if evs != [] {
      assert evs[0] in evs;
      CounterIsProduced(Next(w, evs[0]), evs[1..]);
    }
  }

  /** The two views agree: the world's total is the hub's sum over the reports it was sent. */
  lemma {:induction false} TotalOfReports(w: World, evs: seq<EngineEvent>)
    ensures After(w, evs).total == w.total + Total(w.last, Reports(w, evs))
    ensures After(w, evs).last == Final(w.last, Reports(w, evs))
    decreases |evs|
  {
    if evs != [] {
      TotalOfReports(Next(w, evs[0]), evs[1..]);
      var r := Reports(Next(w, evs[0]), evs[1..]);
      assert [w.counter] + r != [] && ([w.counter] + r)[1..] == r && [] + r == r;
    }
  }

  function HiddenRun(a: nat, b: nat): seq<EngineEvent> {
    [Found(a)] + ([Report] + ([Restart] + ([Found(b)] + ([Report] + []))))
  }

  /** A restart the counters hide: a shares reported, a restart, b >= a more found; a of them are never counted. */
  lemma {:induction false} HiddenRestart(a: nat, b: nat)
    requires a <= b
    ensures After(ACKED, HiddenRun(a, b)).produced == a + b && After(ACKED, HiddenRun(a, b)).total == b
    ensures NeverDrops(0, Reports(ACKED, HiddenRun(a, b)))
  {
    var w1 := Next(ACKED, Found(a));
    var w2 := Next(w1, Report);
    var w3 := Next(w2, Restart);
    var w4 := Next(w3, Found(b));
    RunCons(w4, Report, []);
    RunCons(w3, Found(b), [Report] + []);
    RunCons(w2, Restart, [Found(b)] + ([Report] + []));
    RunCons(w1, Report, [Restart] + ([Found(b)] + ([Report] + [])));
    RunCons(ACKED, Found(a), [Report] + ([Restart] + ([Found(b)] + ([Report] + []))));
    var last := Reports(w4, [Report] + []);
    assert last == [b];
    assert Reports(ACKED, HiddenRun(a, b)) == [] + ([a] + ([] + ([] + last))) == [a, b];
    assert [a, b][1..] == [b];
  }

  lemma {:induction false} RunCons(w: World, e: EngineEvent, rest: seq<EngineEvent>)
    ensures After(w, [e] + rest) == After(Next(w, e), rest)
    ensures Reports(w, [e] + rest) == (if e.Report? then [w.counter] else []) + Reports(Next(w, e), rest)
  {
    assert ([e] + rest)[1..] == rest;
  }
}
