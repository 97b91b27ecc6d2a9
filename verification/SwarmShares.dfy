/**
 Share counts through the whole system: in every run, however the handlers, the
 workers and the connections interleave, the hub's totals of an open job are the
 summed deltas of exactly the reports handled for it since its acknowledgement.
 */
module SwarmShares {

  import opened Base
  import opened Swarm
  import opened SwarmInvariant
  import opened SwarmSteps
  import opened SwarmRuns
  import opened SwarmTheorems
  import Shares

  datatype Report = Report(acc: nat, rej: nat)

  /** The report of job j that an event hands to the hub, if it does. */
  predicate Reports(s: Sys, e: Event, j: Id)
    requires Enabled(s, e)
  {
    e.ServerRead? && s.net[e.c].up[0].Metrics? && s.net[e.c].up[0].job == j
  }

  ghost function Handled(s: Sys, run: seq<Event>, j: Id): seq<Report>
    requires Feasible(s, run)
    decreases |run|
  {
    if run == [] then []
    else
      (if Reports(s, run[0], j) then [Report(s.net[run[0].c].up[0].acc, s.net[run[0].c].up[0].rej)] else [])
      + Handled(Next(s, run[0]), run[1..], j)
  }

  function Accepted(rs: seq<Report>): (xs: seq<nat>)
    ensures |xs| == |rs| && forall i | 0 <= i < |rs| :: xs[i] == rs[i].acc
  {
    seq(|rs|, i requires 0 <= i < |rs| => rs[i].acc)
  }

  function Rejected(rs: seq<Report>): (xs: seq<nat>)
    ensures |xs| == |rs| && forall i | 0 <= i < |rs| :: xs[i] == rs[i].rej
  {
    seq(|rs|, i requires 0 <= i < |rs| => rs[i].rej)
  }

  /** The hub's state of a job after a report. */
  function Measured(b: JobState, r: Report): JobState {
    JobState(b.miner, r.acc, r.rej, b.totAcc + Shares.Delta(b.lastAcc, r.acc), b.totRej + Shares.Delta(b.lastRej, r.rej))
  }

  ghost predicate Untouched(states: States, states': States, j: Id) {
    j in states ==> j in states' && states'[j] == states[j]
  }

  // ---------------------------------------------------------------------
  // Steps
  // ---------------------------------------------------------------------

  lemma {:induction false} CancelOneStates(s: Sys, m: Id, i: Id)
    requires i in s.jobs
    ensures CancelOne(s, m, i).states == s.states - {i}
  {
    CancelOneReordered(s, m, i);
  }

  lemma {:induction false} CancelAllStates(s: Sys, m: Id, order: seq<Id>, j: Id)
    requires Cancellable(s, order) && j !in order
    ensures Untouched(s.states, CancelAll(s, m, order).states, j)
    decreases |order|
  {
    if order != [] {
      CancelOneStates(s, m, order[0]);
      CancelStep(s, m, order);
      CancelAllStates(CancelOne(s, m, order[0]), m, order[1..], j);
    }
  }

  /** A job still open after CancelMiner was not one of those cancelled. */
  lemma {:induction false} CancelKeepsOthers(s: Sys, m: Id, order: seq<Id>, j: Id)
    requires Enumerates(order, OpenJobsOf(s, m)) && Open(CancelAll(s, m, order), j)
    ensures Untouched(s.states, CancelAll(s, m, order).states, j)
  {
    AllCancellable(s, m, order);
    CancelAllJobs(s, m, order);
    CancelAllStates(s, m, order, j);
  }

  lemma {:induction false} AssignStates(s: Sys, m: Id, target: Option<Id>)
    requires IsTarget(s, m, target)
    ensures AssignMiner(s, m, target).states == s.states
  {
  }

  lemma {:induction false} AssignAllStates(s: Sys, choices: seq<Choice>)
    requires AssignableAll(s, choices)
    ensures AssignAll(s, choices).states == s.states
    decreases |choices|
  {
    if choices != [] {
      AssignStates(s, choices[0].miner, choices[0].target);
      AssignAllStates(AssignMiner(s, choices[0].miner, choices[0].target), choices[1..]);
    }
  }

  lemma {:induction false} AckStates(s: Sys, w: Id, i: Id, ok: bool, j: Id)
    requires ok ==> i != j
    ensures Untouched(s.states, HandleAck(s, w, i, ok).states, j)
  {
  }

  lemma {:induction false} MetricsStates(s: Sys, w: Id, i: Id, acc: nat, rej: nat, j: Id)
    requires j in s.states
    ensures var t := HandleMetrics(s, w, i, acc, rej);
            j in t.states && t.states[j] == if i == j && OpenFor(s, j, w) then Measured(s.states[j], Report(acc, rej)) else s.states[j]
  {
  }

  /** Reading a message touches the state of another job only. */
  lemma {:induction false} ReadStates(s: Sys, c: Id, j: Id)
    requires Inv(s) && Enabled(s, ServerRead(c)) && j in s.states && Open(s, j)
    ensures var t, r := Next(s, ServerRead(c)), s.net[c].up[0];
            j in t.states && t.states[j] == if Reports(s, ServerRead(c), j) then Measured(s.states[j], Report(r.acc, r.rej)) else s.states[j]
  {
    HeadAtHome(s, c);
    match s.net[c].up[0]
    case Ack(i, ok) =>
      if ok { AckPending(s, c, i); }
      AckStates(Popped(s, c), s.net[c].worker, i, ok, j);
    case Metrics(i, acc, rej) => MetricsStates(Popped(s, c), s.net[c].worker, i, acc, rej, j);
  }

  lemma {:induction false} RevokeStates(s: Sys, owner: string, w: Id)
    ensures Next(s, RevokeWorker(owner, w)).states == s.states
  {
  }

  lemma {:induction false} DropWorkerStates(s: Sys, owner: string, w: Id)
    ensures Next(s, DeleteWorker(owner, w)).states == s.states
  {
  }

  lemma {:induction false} StopStates(s: Sys, owner: string, m: Id, order: seq<Id>, j: Id)
    requires Enabled(s, StopMiner(owner, m, order)) && Open(Next(s, StopMiner(owner, m, order)), j)
    ensures Untouched(s.states, Next(s, StopMiner(owner, m, order)).states, j)
  {
    if Owns(s, owner, m) {
      CancelKeepsOthers(s, m, order, j);
    }
  }

  lemma {:induction false} DeleteStates(s: Sys, owner: string, m: Id, order: seq<Id>, j: Id)
    requires Enabled(s, DeleteMiner(owner, m, order)) && Open(Next(s, DeleteMiner(owner, m, order)), j)
    ensures Untouched(s.states, Next(s, DeleteMiner(owner, m, order)).states, j)
  {
    CancelKeepsOthers(s, m, order, j);
  }

  lemma {:induction false} ConnectStates(s: Sys, w: Id, choices: seq<Choice>)
    requires Enabled(s, Connect(w, choices))
    ensures Next(s, Connect(w, choices)).states == s.states
  {
    AssignAllStates(Joined(s, w), choices);
  }

  lemma {:induction false} EndStates(s: Sys, c: Id)
    requires Enabled(s, ServerEnd(c))
    ensures Next(s, ServerEnd(c)).states == s.states
  {
  }

  /** The hub's state of a job after an event that may be a report of it. */
  function StateAfter(s: Sys, e: Event, j: Id): JobState
    requires Enabled(s, e) && j in s.states
  {
    if Reports(s, e, j) then Measured(s.states[j], Report(s.net[e.c].up[0].acc, s.net[e.c].up[0].rej)) else s.states[j]
  }

  /** While a job is open, nothing but its own reports moves its totals. */
  lemma {:induction false} StepStates(s: Sys, e: Event, j: Id)
    requires Inv(s) && Enabled(s, e) && j in s.states && Open(s, j) && Open(Next(s, e), j)
    ensures j in Next(s, e).states
    ensures Next(s, e).states[j] == StateAfter(s, e, j)
  {
    if e.ServerRead? {
      ReadStates(s, e.c, j);
    } else {
      OtherStates(s, e, j);
    }
  }

  lemma {:induction false} OtherStates(s: Sys, e: Event, j: Id)
    requires Enabled(s, e) && !e.ServerRead? && Open(Next(s, e), j)
    ensures Untouched(s.states, Next(s, e).states, j)
  {
    if e.StopMiner? {
      StopStates(s, e.owner, e.m, e.order, j);
    } else if e.DeleteMiner? {
      DeleteStates(s, e.owner, e.m, e.order, j);
    } else if Transports(e) || e.Tick? {
      TransportFrame(s, e);
    } else {
      SameStates(s, e);
    }
  }

  lemma {:induction false} SameStates(s: Sys, e: Event)
    requires Enabled(s, e)
    requires !e.ServerRead? && !e.StopMiner? && !e.DeleteMiner?
    requires !e.WorkerRead? && !e.WorkerReport? && !e.SessionEnd? && !e.Break? && !e.Tick?
    ensures Next(s, e).states == s.states
  {
    match e
    case Connect(w, choices) => ConnectStates(s, w, choices);
    case ServerEnd(c) => EndStates(s, c);
    case RevokeWorker(owner, w) => RevokeStates(s, owner, w);
    case DeleteWorker(owner, w) => DropWorkerStates(s, owner, w);
    case _ => QuietStates(s, e);
  }

  lemma {:induction false} QuietStates(s: Sys, e: Event)
    requires Enabled(s, e) && (e.CreateMiner? || e.EnrollWorker? || e.StartMiner? || e.UpdateAllocation?)
    ensures Next(s, e).states == s.states
  {
    match e
    case StartMiner(owner, m, target) => if Startable(s, owner, m) { AssignStates(Started(s, m), m, target); }
    case UpdateAllocation(owner, m, order) => AllocateFrame(s, order);
    case CreateMiner(_, _, _) =>
    case EnrollWorker(_, _) =>
  }

  // ---------------------------------------------------------------------
  // Runs
  // ---------------------------------------------------------------------

  /** A job open at the end of a run was open all along. */
  lemma {:induction false} OpenAllAlong(s: Sys, run: seq<Event>, j: Id)
    requires Inv(s) && Feasible(s, run) && j in s.homes && Open(After(s, run), j)
    ensures Open(s, j)
  {
    RunFinal(s, run);
  }

  lemma {:induction false} ReportsCons(r: Report, rs: seq<Report>, last: nat)
    ensures Shares.Total(last, Accepted([r] + rs)) == Shares.Delta(last, r.acc) + Shares.Total(r.acc, Accepted(rs))
    ensures Shares.Total(last, Rejected([r] + rs)) == Shares.Delta(last, r.rej) + Shares.Total(r.rej, Rejected(rs))
  {
    assert Accepted([r] + rs)[1..] == Accepted(rs);
    assert Rejected([r] + rs)[1..] == Rejected(rs);
  }

  /** b grown by the summed deltas of some reports. */
  ghost predicate Grown(b: JobState, rs: seq<Report>, c: JobState) {
    && c.totAcc == b.totAcc + Shares.Total(b.lastAcc, Accepted(rs))
    && c.totRej == b.totRej + Shares.Total(b.lastRej, Rejected(rs))
  }

  /** In every run the totals of an open job grow by the summed deltas of the reports handled for it. */
  lemma {:induction false} TotalsFollowReports(s: Sys, run: seq<Event>, j: Id)
    requires Inv(s) && Feasible(s, run) && j in s.states && Open(After(s, run), j)
    ensures j in After(s, run).states && Grown(s.states[j], Handled(s, run, j), After(s, run).states[j])
    decreases |run|
  {
    if run == [] {
      assert Accepted([]) == [] && Rejected([]) == [];
    } else {
      var u := Next(s, run[0]);
      StepKeepsInv(s, run[0]);
      StillOpen(s, run, j);
      StepStates(s, run[0], j);
      TotalsFollowReports(u, run[1..], j);
      GrownFirst(s, run, j, After(s, run).states[j]);
    }
  }

  lemma {:induction false} StillOpen(s: Sys, run: seq<Event>, j: Id)
    requires run != [] && Feasible(s, run) && Inv(s) && Inv(Next(s, run[0])) && j in s.states && Open(After(s, run), j)
    ensures Open(s, j) && Open(Next(s, run[0]), j)
  {
    StepFinal(s, run[0]);
    OpenAllAlong(s, run, j);
    OpenAllAlong(Next(s, run[0]), run[1..], j);
  }

  lemma {:induction false} GrownFirst(s: Sys, run: seq<Event>, j: Id, c: JobState)
    requires Feasible(s, run) && run != [] && j in s.states && j in Next(s, run[0]).states
    requires Next(s, run[0]).states[j] == StateAfter(s, run[0], j)
    requires Grown(Next(s, run[0]).states[j], Handled(Next(s, run[0]), run[1..], j), c)
    ensures Grown(s.states[j], Handled(s, run, j), c)
  {
    if Reports(s, run[0], j) {
      var b, x := s.states[j], s.net[run[0].c].up[0];
      FirstReport(s, run, j, Report(x.acc, x.rej), b.lastAcc, b.lastRej);
    } else {
      NoReport(s, run, j);
    }
  }

  lemma {:induction false} FirstReport(s: Sys, run: seq<Event>, j: Id, r: Report, lastAcc: nat, lastRej: nat)
    requires Feasible(s, run) && run != [] && Reports(s, run[0], j)
    requires r == Report(s.net[run[0].c].up[0].acc, s.net[run[0].c].up[0].rej)
    ensures var all, rest := Handled(s, run, j), Handled(Next(s, run[0]), run[1..], j);
            && Shares.Total(lastAcc, Accepted(all)) == Shares.Delta(lastAcc, r.acc) + Shares.Total(r.acc, Accepted(rest))
            && Shares.Total(lastRej, Rejected(all)) == Shares.Delta(lastRej, r.rej) + Shares.Total(r.rej, Rejected(rest))
  {
    var rest := Handled(Next(s, run[0]), run[1..], j);
    assert Handled(s, run, j) == [r] + rest;
    ReportsCons(r, rest, lastAcc);
    ReportsCons(r, rest, lastRej);
  }

  lemma {:induction false} NoReport(s: Sys, run: seq<Event>, j: Id)
    requires Feasible(s, run) && run != [] && !Reports(s, run[0], j)
    ensures Handled(s, run, j) == Handled(Next(s, run[0]), run[1..], j)
  {
  }

  /** A job has just been acknowledged after `before`, and is open after `rest` too. */
  ghost predicate AckedThenOpen(before: seq<Event>, rest: seq<Event>, j: Id) {
    && Feasible(INIT, before) && Feasible(After(INIT, before), rest)
    && j in After(INIT, before).states
    && After(INIT, before).states[j] == JobState(After(INIT, before).states[j].miner, 0, 0, 0, 0)
    && Open(After(After(INIT, before), rest), j)
  }

  /** The histories of the engine's two counters that the reports handled for the job were read from. */
  ghost predicate ReportedBy(before: seq<Event>, rest: seq<Event>, j: Id, accepted: seq<Shares.EngineEvent>, rejected: seq<Shares.EngineEvent>)
    requires AckedThenOpen(before, rest, j)
  {
    && Accepted(Handled(After(INIT, before), rest, j)) == Shares.Reports(Shares.ACKED, accepted)
    && Rejected(Handled(After(INIT, before), rest, j)) == Shares.Reports(Shares.ACKED, rejected)
  }

  /** A total built from the reports of a counter's history: honest, and exact when the counter is not seen to fall. */
  ghost predicate Honest(total: nat, engine: seq<Shares.EngineEvent>) {
    && total <= Shares.After(Shares.ACKED, engine).produced
    && (total == Shares.Final(0, Shares.Reports(Shares.ACKED, engine)) <==> Shares.NeverDrops(0, Shares.Reports(Shares.ACKED, engine)))
  }

  lemma {:induction false} HonestTotal(engine: seq<Shares.EngineEvent>)
    ensures Honest(Shares.Total(0, Shares.Reports(Shares.ACKED, engine)), engine)
  {
    Shares.NeverOvercounts(engine);
    Shares.TotalOfReports(Shares.ACKED, engine);
    Shares.TotalIsLastCounterIff(Shares.Reports(Shares.ACKED, engine));
  }

  /**
   Honest share counts, end to end: take any run in which a job has just been
   acknowledged after `before` and is still open at the end, and any engine whose
   counters are the reports handled in between. The accepted and the rejected shares
   stored as samples for the job sum to the hub's totals, never to more than the engine
   truly produced, and to the last counter exactly when the counter never fell.
   */
  lemma {:induction false} HonestShares(before: seq<Event>, rest: seq<Event>, j: Id,
                                        accepted: seq<Shares.EngineEvent>, rejected: seq<Shares.EngineEvent>)
    requires AckedThenOpen(before, rest, j) && ReportedBy(before, rest, j, accepted, rejected)
    ensures var t := After(After(INIT, before), rest);
            && j in t.states && t.states[j].totAcc == SumAcc(t.samples, j) && t.states[j].totRej == SumRej(t.samples, j)
            && Honest(SumAcc(t.samples, j), accepted) && Honest(SumRej(t.samples, j), rejected)
  {
    var s := After(INIT, before);
    var t := After(s, rest);
    RunKeepsInv(before);
    RunKeeps(s, rest);
    TotalsFollowReports(s, rest, j);
    assert IsOpen(t.jobs, j);
    HonestTotal(accepted);
    HonestTotal(rejected);
  }

  /** ... and when the miner, having no other open job, is then cancelled, its open runs close with exactly those sums. */
  lemma {:induction false} ClosedRunIsHonest(before: seq<Event>, rest: seq<Event>, j: Id,
                                             accepted: seq<Shares.EngineEvent>, rejected: seq<Shares.EngineEvent>, r: Id)
    requires AckedThenOpen(before, rest, j) && ReportedBy(before, rest, j, accepted, rejected)
    requires var t := After(After(INIT, before), rest);
             && Enumerates([j], OpenJobsOf(t, t.jobs[j].miner))
             && r in t.runs && t.runs[r].miner == t.jobs[j].miner && t.runs[r].stoppedAt.None?
    ensures var t := After(After(INIT, before), rest);
            var u := CancelAll(t, t.jobs[j].miner, [j]);
            && r in u.runs && u.runs[r].acc == SumAcc(t.samples, j) && u.runs[r].rej == SumRej(t.samples, j)
            && Honest(u.runs[r].acc, accepted) && Honest(u.runs[r].rej, rejected)
  {
    var t := After(After(INIT, before), rest);
    HonestShares(before, rest, j, accepted, rejected);
    RunConcat(INIT, before, rest);
    FinalisationConserves(before + rest, t.jobs[j].miner, [j], r);
  }
}
