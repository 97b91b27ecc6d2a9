/**
 A miner with two open jobs. A miner that is still queued is placed again when its
 worker reconnects, so a run can be closed with the totals of the wrong job: here is
 one that ends with no share although a share was recorded during it.
 */
module SwarmTwoJobs {

  import opened Base
  import opened Swarm
  import opened SwarmInvariant
  import opened SwarmSteps
  import opened SwarmRuns
  import opened SwarmTheorems
  import Shares

  const SOLO: string := "owner"

  const FRESH := Session(0, [], [], Up, true, true, {})
  const IDLE := Live(SOLO, Native, map[])
  const FIRST := Job(1, 0, JobAssigned, None)

  /** One owner with worker 0 and miner 1, whose run 3 is open. */
  function Solo(next: Id, miner: MinerStatus, worker: WorkerStatus, jobs: Jobs, samples: seq<Sample>, conns: map<Id, Id>, live: Live,
                states: States, net: Net, homes: Homes): Sys
  {
    Sys(0, next, map[1 := Miner(SOLO, miner, true, false)], map[0 := Worker(SOLO, Native, worker, None)], jobs,
        map[3 := Run(1, None, 0, 0)], samples, conns, map[0 := live], states, net, homes)
  }

  function Placed1(): Sys {
    Solo(5, Queued, Assigned, map[4 := FIRST], [], map[0 := 2], IDLE, map[], map[2 := FRESH.(down := [Assign(4)])], map[4 := 2])
  }

  const LEFT := Session(0, [Assign(4)], [], Down, true, true, {})

  /** Placed again on the new connection; x is the session there. */
  function Placed2(miner: MinerStatus, worker: WorkerStatus, second: JobStatus, samples: seq<Sample>, live: Live, states: States, x: Session): Sys {
    Solo(7, miner, worker, map[4 := FIRST, 6 := Job(1, 0, second, None)], samples, map[0 := 5], live, states,
         map[2 := LEFT, 5 := x], map[4 := 2, 6 := 5])
  }

  const BUSY := Live(SOLO, Native, map[6 := 1])

  function Sent(): Sys { Placed2(Queued, Assigned, JobAssigned, [], IDLE, map[], FRESH.(down := [Assign(6)])) }

  function Started6(): Sys {
    Placed2(Queued, Assigned, JobAssigned, [], IDLE, map[], FRESH.(up := [Ack(6, true)], running := {6}))
  }

  function Acked(up: seq<ToServer>): Sys {
    Placed2(Running, Mining, JobAck, [], BUSY, map[6 := JobState(1, 0, 0, 0, 0)], FRESH.(up := up, running := {6}))
  }

  function Counted(): Sys {
    Placed2(Running, Mining, JobAck, [Sample(1, 6, 1, 0)], BUSY, map[6 := JobState(1, 1, 0, 1, 0)], FRESH.(running := {6}))
  }

  lemma {:induction false} NobodyQueued(s: Sys)
    requires forall m | m in s.miners :: s.miners[m].status == Created
    ensures Enumerates([], QueuedMiners(s, SOLO)) && MinersOf([]) == []
  {
  }

  lemma {:induction false} Opening() returns (run: seq<Event>, s: Sys)
    ensures Feasible(INIT, run) && After(INIT, run) == s
    ensures s == Sys(0, 3, map[1 := Miner(SOLO, Created, true, false)], map[0 := Worker(SOLO, Native, Connected, None)], map[], map[], [],
                     map[0 := 2], map[0 := IDLE], map[], map[2 := FRESH], map[])
  {
    var e0, e1, e2 := EnrollWorker(SOLO, Native), CreateMiner(SOLO, true, false), Connect(0, []);
    var s0 := Sys(0, 1, map[], map[0 := Worker(SOLO, Native, Enrolled, None)], map[], map[], [], map[], map[], map[], map[], map[]);
    var s1 := s0.(next := 2, miners := map[1 := Miner(SOLO, Created, true, false)]);
    s := Sys(0, 3, map[1 := Miner(SOLO, Created, true, false)], map[0 := Worker(SOLO, Native, Connected, None)], map[], map[], [],
             map[0 := 2], map[0 := IDLE], map[], map[2 := FRESH], map[]);
    assert Next(INIT, e0) == s0;
    assert Next(s0, e1) == s1;
    NobodyQueued(s1);
    assert Joined(s1, 0) == s;
    RunCons(s1, e2, []);
    RunCons(s0, e1, [e2] + []);
    RunCons(INIT, e0, [e1] + ([e2] + []));
    run := [e0] + ([e1] + ([e2] + []));
  }

  lemma {:induction false} StartStep(s: Sys)
    requires s == Sys(0, 3, map[1 := Miner(SOLO, Created, true, false)], map[0 := Worker(SOLO, Native, Connected, None)], map[], map[], [],
                      map[0 := 2], map[0 := IDLE], map[], map[2 := FRESH], map[])
    ensures Enabled(s, StartMiner(SOLO, 1, Some(0))) && Next(s, StartMiner(SOLO, 1, Some(0))) == Placed1()
  {
    var t := Started(s, 1);
    assert t == Solo(4, Queued, Connected, map[], [], map[0 := 2], IDLE, map[], map[2 := FRESH], map[]);
    PlaceStep(t);
  }

  lemma {:induction false} PlaceStep(t: Sys)
    requires t == Solo(4, Queued, Connected, map[], [], map[0 := 2], IDLE, map[], map[2 := FRESH], map[])
    ensures IsTarget(t, 1, Some(0)) && AssignMiner(t, 1, Some(0)) == Placed1()
  {
    PlacedOut(t, 1, 0);
    assert FRESH.down + [Assign(4)] == [Assign(4)];
    assert AssignTo(t, 1, 0) == Placed1();
  }

  lemma {:induction false} JoinAgain(s: Sys)
    requires s == Placed1()
    ensures Joined(s, 0) == Solo(6, Queued, Connected, map[4 := FIRST], [], map[0 := 5], IDLE, map[], map[2 := LEFT, 5 := FRESH], map[4 := 2])
  {
    assert WorkersWith(s.workers, 0, Connected) == map[0 := Worker(SOLO, Native, Connected, None)];
  }

  lemma {:induction false} ReconnectStep(s: Sys)
    requires s == Placed1()
    ensures Enabled(s, Connect(0, [Choice(1, Some(0))])) && Next(s, Connect(0, [Choice(1, Some(0))])) == Sent()
  {
    var t := Joined(s, 0);
    JoinAgain(s);
    PlaceAgain(t);
    OneChoice(t, Choice(1, Some(0)));
    OnlyOneQueued(s);
  }

  lemma {:induction false} OneChoice(t: Sys, x: Choice)
    requires IsTarget(t, x.miner, x.target)
    ensures AssignableAll(t, [x]) && AssignAll(t, [x]) == AssignMiner(t, x.miner, x.target)
  {
    assert [x][1..] == [];
    assert AssignAll(t, [x]) == AssignAll(AssignMiner(t, x.miner, x.target), [x][1..]);
  }

  lemma {:induction false} OnlyOneQueued(s: Sys)
    requires s == Placed1()
    ensures Enumerates(MinersOf([Choice(1, Some(0))]), QueuedMiners(s, SOLO))
  {
    assert MinersOf([Choice(1, Some(0))])[0] == 1;
    assert QueuedMiners(s, SOLO) == {1};
  }

  lemma {:induction false} PlaceAgain(t: Sys)
    requires t == Solo(6, Queued, Connected, map[4 := FIRST], [], map[0 := 5], IDLE, map[], map[2 := LEFT, 5 := FRESH], map[4 := 2])
    ensures IsTarget(t, 1, Some(0)) && AssignMiner(t, 1, Some(0)) == Sent()
  {
    assert FRESH.down + [Assign(6)] == [Assign(6)];
    assert AssignTo(t, 1, 0) == Sent();
  }

  lemma {:induction false} EngineStep(s: Sys)
    requires s == Sent()
    ensures Enabled(s, WorkerRead(5, true)) && Next(s, WorkerRead(5, true)) == Started6()
  {
    assert [Assign(6)][1..] == [];
    assert FRESH.running + {6} == {6} && FRESH.up + [Ack(6, true)] == [Ack(6, true)];
    assert WorkerHandle(FRESH, Assign(6), true) == FRESH.(up := [Ack(6, true)], running := {6});
  }

  lemma {:induction false} AckStep(s: Sys)
    requires s == Started6()
    ensures Enabled(s, ServerRead(5)) && Next(s, ServerRead(5)) == Acked([])
  {
    assert [Ack(6, true)][1..] == [];
    var t := Placed2(Queued, Assigned, JobAssigned, [], IDLE, map[], FRESH.(running := {6}));
    assert Popped(s, 5) == t;
    HandleAckStep(t);
  }

  lemma {:induction false} AckRows()
    ensures JobsWith(map[4 := FIRST, 6 := Job(1, 0, JobAssigned, None)], 6, JobAck, 0) == map[4 := FIRST, 6 := Job(1, 0, JobAck, None)]
    ensures MinersWith(map[1 := Miner(SOLO, Queued, true, false)], 1, Running) == map[1 := Miner(SOLO, Running, true, false)]
    ensures WorkersWith(map[0 := Worker(SOLO, Native, Assigned, None)], 0, Mining) == map[0 := Worker(SOLO, Native, Mining, None)]
  {
  }

  lemma {:induction false} HandleAckStep(t: Sys)
    requires t == Placed2(Queued, Assigned, JobAssigned, [], IDLE, map[], FRESH.(running := {6}))
    ensures HandleAck(t, 0, 6, true) == Acked([])
  {
    AckRows();
    var u := t.(jobs := map[4 := FIRST, 6 := Job(1, 0, JobAck, None)], miners := map[1 := Miner(SOLO, Running, true, false)],
                workers := map[0 := Worker(SOLO, Native, Mining, None)]);
    assert HandleAck(t, 0, 6, true) == AckSection(u, 0, 6, 1);
    assert u.live[0 := BUSY] == map[0 := BUSY] && IDLE.(jobs := IDLE.jobs[6 := 1]) == BUSY;
  }

  lemma {:induction false} ReportStep(s: Sys)
    requires s == Acked([])
    ensures Enabled(s, WorkerReport(5, 6, 1, 0)) && Next(s, WorkerReport(5, 6, 1, 0)) == Acked([Metrics(6, 1, 0)])
  {
    assert [] + [Metrics(6, 1, 0)] == [Metrics(6, 1, 0)];
  }

  lemma {:induction false} CountReport(s: Sys)
    requires s == Acked([])
    ensures HandleMetrics(s, 0, 6, 1, 0) == Counted()
  {
    MetricsForm(s, 0, 6, 1, 0);
    assert s.states[6 := JobState(1, 1, 0, 1, 0)] == map[6 := JobState(1, 1, 0, 1, 0)];
    assert [] + [Sample(1, 6, 1, 0)] == [Sample(1, 6, 1, 0)];
  }

  lemma {:induction false} MeasureStep(s: Sys)
    requires s == Acked([Metrics(6, 1, 0)])
    ensures Enabled(s, ServerRead(5)) && Next(s, ServerRead(5)) == Counted()
  {
    assert [Metrics(6, 1, 0)][1..] == [];
    assert Popped(s, 5) == Acked([]);
    CountReport(Acked([]));
  }

  lemma {:induction false} ToCounted() returns (run: seq<Event>)
    ensures Feasible(INIT, run) && After(INIT, run) == Counted()
  {
    var opening, s := Opening();
    var start, join := StartMiner(SOLO, 1, Some(0)), Connect(0, [Choice(1, Some(0))]);
    var read, report := ServerRead(5), WorkerReport(5, 6, 1, 0);
    StartStep(s);
    ReconnectStep(Placed1());
    EngineStep(Sent());
    AckStep(Started6());
    ReportStep(Acked([]));
    MeasureStep(Acked([Metrics(6, 1, 0)]));
    RunCons(Acked([Metrics(6, 1, 0)]), read, []);
    RunCons(Acked([]), report, [read] + []);
    RunCons(Started6(), read, [report] + ([read] + []));
    RunCons(Sent(), WorkerRead(5, true), [read] + ([report] + ([read] + [])));
    RunCons(Placed1(), join, [WorkerRead(5, true)] + ([read] + ([report] + ([read] + []))));
    RunCons(s, start, [join] + ([WorkerRead(5, true)] + ([read] + ([report] + ([read] + [])))));
    RunConcat(INIT, opening, [start] + ([join] + ([WorkerRead(5, true)] + ([read] + ([report] + ([read] + []))))));
    run := opening + ([start] + ([join] + ([WorkerRead(5, true)] + ([read] + ([report] + ([read] + []))))));
  }

  lemma {:induction false} TwoOpen()
    ensures Enumerates([4, 6], OpenJobsOf(Counted(), 1))
    ensures SumAcc(Counted().samples, 6) == 1 && SumAcc(Counted().samples, 4) == 0
    ensures SumAccOver(Counted().samples, [4, 6]) == 1 && SumAccOver(Counted().samples, [4, 6][1..]) == 1
  {
    var xs := Counted().samples;
    assert OpenJobsOf(Counted(), 1) == {4, 6};
    assert [4, 6][0] == 4 && [4, 6][1] == 6;
    assert [] + [Sample(1, 6, 1, 0)] == xs;
    SumsSnoc([], Sample(1, 6, 1, 0), 6);
    SumsSnoc([], Sample(1, 6, 1, 0), 4);
    assert [4, 6][1..] == [6] && [6][1..] == [];
    assert SumAccOver(xs, [6]) == SumAcc(xs, 6) + SumAccOver(xs, [6][1..]);
    assert SumAccOver(xs, [4, 6]) == SumAcc(xs, 4) + SumAccOver(xs, [4, 6][1..]);
  }

  /**
   A run after which a stop, visiting the miner's two open jobs in this order, closes
   the open run with fewer shares than were stored as samples for those jobs.
   */
  lemma {:induction false} RunClosedShort() returns (run: seq<Event>, order: seq<Id>, r: Id)
    ensures Feasible(INIT, run)
    ensures var s := After(INIT, run);
            && Owns(s, SOLO, 1) && Enabled(s, StopMiner(SOLO, 1, order)) && r in s.runs && s.runs[r] == Run(1, None, 0, 0)
            && r in CancelAll(s, 1, order).runs
            && CancelAll(s, 1, order).runs[r].stoppedAt.Some?
            && CancelAll(s, 1, order).runs[r].acc < SumAccOver(s.samples, order)
  {
    run := ToCounted();
    order, r := [4, 6], 3;
    TwoOpen();
    FinalisationConserves(run, 1, order, r);
  }
}
