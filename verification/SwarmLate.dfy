/**
 Late acknowledgements. Between the statements of one handler those of others run:
 an acknowledgement looked up while its job was open may be written after the job
 has ended and its miner has been stopped. This is exactly what it can then undo.
 */
module SwarmLate {

  import opened Base
  import opened Swarm
  import opened SwarmInvariant
  import opened SwarmSections
  import SwarmTheorems

  // ---------------------------------------------------------------------
  // Rows are read while they are open
  // ---------------------------------------------------------------------

  lemma {:induction false} SeenStep(f: Fine, e: Step, r: Row)
    requires Ready(f, e) && r in Do(f, e).seen && r !in f.seen
    ensures e == LookUp(r.job) && Open(f.s, r.job) && r == RowOf(f.s.jobs, r.job)
  {
  }

  /** Every row known at the end of a run was known at its beginning or looked up during it. */
  lemma {:induction false} SeenWasLookedUp(f: Fine, run: seq<Step>, r: Row)
    requires Runs(f, run) && r in End(f, run).seen && r !in f.seen
    ensures LookUp(r.job) in run
    decreases |run|
  {
    var g := Do(f, run[0]);
    if r in g.seen {
      SeenStep(f, run[0], r);
    } else {
      SeenWasLookedUp(g, run[1..], r);
    }
  }

  // ---------------------------------------------------------------------
  // The status of an ended job
  // ---------------------------------------------------------------------

  /** An acknowledgement of the job is written during the run. */
  ghost predicate AckWritten(run: seq<Step>, j: Id) { exists i :: 0 <= i < |run| && LateAck(run[i], j) }

  lemma {:induction false} AckWrittenFirst(run: seq<Step>, j: Id)
    requires run != []
    ensures AckWritten(run, j) <==> LateAck(run[0], j) || AckWritten(run[1..], j)
  {
    if AckWritten(run[1..], j) {
      var i :| 0 <= i < |run[1..]| && LateAck(run[1..][i], j);
      assert LateAck(run[i + 1], j);
    }
    if AckWritten(run, j) && !LateAck(run[0], j) {
      var i :| 0 <= i < |run| && LateAck(run[i], j);
      assert LateAck(run[1..][i - 1], j);
    }
  }

  /** Ended jobs stay ended for as long as their rows exist. */
  lemma {:induction false} StaysEnded(f: Fine, run: seq<Step>, j: Id)
    requires FineInv(f) && Runs(f, run) && j in f.s.jobs && f.s.jobs[j].endedAt.Some? && j in End(f, run).s.jobs && run != []
    ensures j in Do(f, run[0]).s.jobs && Do(f, run[0]).s.jobs[j].endedAt.Some?
  {
    var g := Do(f, run[0]);
    JobIdIssued(f, j);
    DoEffect(f, run[0]);
    StepKeeps(f, run[0]);
    EffectKeeps(f.s, run[0]);
    RunKeepsEnds(g, run[1..]);
  }

  lemma {:induction false} EndedStatusFrom(f: Fine, run: seq<Step>, j: Id)
    requires FineInv(f) && Runs(f, run) && j in f.s.jobs && f.s.jobs[j].endedAt.Some? && j in End(f, run).s.jobs
    ensures End(f, run).s.jobs[j].status == if AckWritten(run, j) then JobAck else f.s.jobs[j].status
    decreases |run|
  {
    if run != [] {
      StepKeeps(f, run[0]);
      StaysEnded(f, run, j);
      EndedStatusChangesIff(f, run[0], j);
      if LateAck(run[0], j) { LateAckWrites(f, run[0], j); }
      AckWrittenFirst(run, j);
      EndedStatusFrom(Do(f, run[0]), run[1..], j);
    }
  }

  lemma {:induction false} LateAckWrites(f: Fine, e: Step, j: Id)
    requires Ready(f, e) && LateAck(e, j) && j in f.s.jobs
    ensures j in Do(f, e).s.jobs && Do(f, e).s.jobs[j].status == JobAck
  {
    DoEffect(f, e);
    LateAckRow(f.s, j);
  }

  lemma {:induction false} AckedWasSeen(f: Fine, run: seq<Step>, j: Id)
    requires FineInv(f) && Runs(f, run) && j < f.s.next && !Open(f.s, j) && AckWritten(run, j)
    ensures exists r :: r in f.seen && r.job == j
    decreases |run|
  {
    if LateAck(run[0], j) {
      assert run[0].row in f.seen;
    } else {
      var g := Do(f, run[0]);
      AckWrittenFirst(run, j);
      StepKeeps(f, run[0]);
      NotReopened(f, run[0], j);
      AckedWasSeen(g, run[1..], j);
      var r :| r in g.seen && r.job == j;
      if r !in f.seen {
        SeenStep(f, run[0], r);
      }
    }
  }

  /** A job that is over, or gone, is not open again. */
  lemma {:induction false} NotReopened(f: Fine, e: Step, j: Id)
    requires FineInv(f) && Ready(f, e) && j < f.s.next && !Open(f.s, j)
    ensures j < Do(f, e).s.next && !Open(Do(f, e).s, j)
  {
    DoEffect(f, e);
    EffectKeeps(f.s, e);
    OverStays(f.s, Effect(f.s, e), j);
  }

  lemma {:induction false} OverStays(s: Sys, t: Sys, j: Id)
    requires Kept(s, t) && j < s.next && !Open(s, j)
    ensures j < t.next && !Open(t, j)
  {
  }

  /**
   The status text of an ended job over any run: it is at the end the one written
   with ended_at if and only if no acknowledgement of the job is written after it; and
   one that is was looked up before the end, while the job was open.
   */
  lemma {:induction false} EndedStatusIff(before: seq<Step>, rest: seq<Step>, j: Id)
    requires Runs(START, before) && Runs(End(START, before), rest)
    requires var s := End(START, before).s; j in s.jobs && s.jobs[j].endedAt.Some? && s.jobs[j].status in {JobEnded, JobError}
    requires j in End(End(START, before), rest).s.jobs
    ensures var s, t := End(START, before).s, End(End(START, before), rest).s;
            && (t.jobs[j].status == s.jobs[j].status <==> !AckWritten(rest, j))
            && (t.jobs[j].status != s.jobs[j].status ==> t.jobs[j].status == JobAck && LookUp(j) in before)
            && t.jobs[j].endedAt == s.jobs[j].endedAt
  {
    var f := End(START, before);
    RunsKeep(START, before);
    EndedStatusFrom(f, rest, j);
    RunKeepsEnds(f, rest);
    JobIdIssued(f, j);
    if AckWritten(rest, j) {
      AckedWasSeen(f, rest, j);
      var r :| r in f.seen && r.job == j;
      SeenWasLookedUp(START, before, r);
    }
  }

  // ---------------------------------------------------------------------
  // The status of a stopped miner
  // ---------------------------------------------------------------------

  predicate AckOf(e: Step, m: Id) { e.AckStatus? && e.row.miner == m }

  /** An acknowledgement's status for m is written in the run, and no stop of m after it. */
  ghost predicate Revives(run: seq<Step>, m: Id)
    decreases |run|
  {
    run != [] && (Revives(run[1..], m) || (AckOf(run[0], m) && MarkStopped(m) !in run[1..]))
  }

  /** Nobody starts the miner, and no job of it is created. */
  ghost predicate LeftAlone(run: seq<Step>, m: Id) {
    forall i | 0 <= i < |run| :: run[i] != MarkQueued(m) && !(run[i].InsertJob? && run[i].t.miner == m)
  }

  lemma {:induction false} LeftAloneRest(run: seq<Step>, m: Id)
    requires run != [] && LeftAlone(run, m)
    ensures LeftAlone(run[1..], m)
  {
    assert forall i | 0 <= i < |run| - 1 :: run[1..][i] == run[i + 1];
  }

  /** One step's effect on the status of one miner. */
  function StatusWritten(e: Step, m: Id, st: MinerStatus): MinerStatus {
    if AckOf(e, m) then (if e.ok then Running else Errored)
    else if e == MarkQueued(m) then Queued
    else if e == MarkStopped(m) then Stopped
    else st
  }

  lemma {:induction false} MinerStep(s: Sys, e: Step, m: Id)
    requires m in s.miners && m < s.next && m in Effect(s, e).miners
    ensures Effect(s, e).miners[m].status == StatusWritten(e, m, s.miners[m].status)
  {
    if OnMiner(e) {
      MinerWritten(s, e, m);
    } else if Adds(e) || Drops(e) {
      MinerRowKept(s, e, m);
    } else {
      MinersUntouched(s, e);
    }
  }

  lemma {:induction false} MinerRowKept(s: Sys, e: Step, m: Id)
    requires (Adds(e) || Drops(e)) && m < s.next && m in Effect(s, e).miners
    ensures m in s.miners && Effect(s, e).miners[m] == s.miners[m]
  {
  }

  lemma {:induction false} MinerWritten(s: Sys, e: Step, m: Id)
    requires m in s.miners && OnMiner(e)
    ensures m in Effect(s, e).miners
    ensures Effect(s, e).miners[m].status == StatusWritten(e, m, s.miners[m].status)
  {
  }

  lemma {:induction false} NoMinerWritten(s: Sys, e: Step, m: Id)
    requires OnMiner(e) && m !in s.miners
    ensures m !in Effect(s, e).miners
  {
  }

  lemma {:induction false} MinersUntouched(s: Sys, e: Step)
    requires !OnMiner(e) && !Adds(e) && !Drops(e)
    ensures Effect(s, e).miners == s.miners
  {
    if OnJob(e) {
      JobEffectFrame(s, e);
    } else if OnWorker(e) {
      WorkerEffectFrame(s, e);
    } else if OnRun(e) {
      RunEffectFrame(s, e);
    } else if OnMaps(e) {
      MapEffectFrame(s, e);
    }
  }

  lemma {:induction false} JobEffectFrame(s: Sys, e: Step)
    requires OnJob(e)
    ensures Effect(s, e).miners == s.miners
  {
    match e
    case JobStatus(row, st) =>
    case FailJob(j) =>
    case EndJobs(_) =>
    case InsertJob(_) =>
  }

  lemma {:induction false} MinerStays(f: Fine, run: seq<Step>, m: Id)
    requires FineInv(f) && Runs(f, run) && run != [] && m < f.s.next && m in End(f, run).s.miners
    ensures m in f.s.miners && m in Do(f, run[0]).s.miners && m < Do(f, run[0]).s.next
    decreases |run|
  {
    var g := Do(f, run[0]);
    DoEffect(f, run[0]);
    StepKeeps(f, run[0]);
    EffectKeeps(f.s, run[0]);
    if |run| > 1 {
      MinerStays(g, run[1..], m);
    }
    MinerNotRecreated(f.s, run[0], m);
  }

  lemma {:induction false} MinerNotRecreated(s: Sys, e: Step, m: Id)
    requires m < s.next && m in Effect(s, e).miners
    ensures m in s.miners
  {
    if OnMiner(e) {
      if m !in s.miners { NoMinerWritten(s, e, m); }
    } else if Adds(e) || Drops(e) {
      MinerRowKept(s, e, m);
    } else {
      MinersUntouched(s, e);
    }
  }

  /** What the last write of the run says. */
  lemma {:induction false} StatusAtEnd(f: Fine, run: seq<Step>, m: Id)
    requires FineInv(f) && Runs(f, run) && m in f.s.miners && m < f.s.next && m in End(f, run).s.miners && LeftAlone(run, m)
    ensures End(f, run).s.miners[m].status != Stopped
       <==> Revives(run, m) || (f.s.miners[m].status != Stopped && MarkStopped(m) !in run)
    decreases |run|
  {
    if run != [] {
      var g := Do(f, run[0]);
      MinerStays(f, run, m);
      DoEffect(f, run[0]);
      MinerStep(f.s, run[0], m);
      StepKeeps(f, run[0]);
      LeftAloneRest(run, m);
      StatusAtEnd(g, run[1..], m);
      assert MarkStopped(m) in run <==> run[0] == MarkStopped(m) || MarkStopped(m) in run[1..];
      assert run[0] != MarkQueued(m);
    }
  }

  ghost predicate NoOpenJobOf(s: Sys, m: Id) { forall j | Open(s, j) :: s.jobs[j].miner != m }

  lemma {:induction false} NoNewOpenJob(f: Fine, e: Step, m: Id)
    requires FineInv(f) && Ready(f, e) && NoOpenJobOf(f.s, m) && !(e.InsertJob? && e.t.miner == m)
    ensures NoOpenJobOf(Do(f, e).s, m)
  {
    DoEffect(f, e);
    EffectKeeps(f.s, e);
    StepKeeps(f, e);
    var t := Do(f, e).s;
    forall j | j in t.jobs && t.jobs[j].endedAt.None? ensures t.jobs[j].miner != m {
      if j < f.s.next {
        if !Open(f.s, j) { NotReopened(f, e, j); }
        JobKeepsRow(f, e, j);
      } else {
        if j in f.s.jobs { JobIdIssued(f, j); }
        NewJobs(f.s, e, j);
      }
    }
  }

  lemma {:induction false} NewJobs(s: Sys, e: Step, j: Id)
    requires j in Effect(s, e).jobs && j !in s.jobs
    ensures e.InsertJob? && Effect(s, e).jobs[j].miner == e.t.miner
  {
    if !e.InsertJob? {
      NoNewJobs(s, e);
    }
  }

  /** No row is new and every row keeps its job, worker and miner. */
  ghost predicate SameRows(jobs: Jobs, jobs': Jobs) {
    forall j | j in jobs' :: j in jobs && RowOf(jobs', j) == RowOf(jobs, j)
  }

  lemma {:induction false} RowReplaced(jobs: Jobs, j: Id, row: Job)
    requires j in jobs && row.worker == jobs[j].worker && row.miner == jobs[j].miner
    ensures SameRows(jobs, jobs[j := row])
  {
  }

  lemma {:induction false} StatusSameRows(jobs: Jobs, j: Id, st: JobStatus, now: nat)
    ensures SameRows(jobs, JobsWith(jobs, j, st, now))
  {
    if j in jobs && st != JobEnded && st != JobError {
      RowReplaced(jobs, j, jobs[j].(status := st));
    } else if j in jobs && jobs[j].endedAt.None? {
      RowReplaced(jobs, j, jobs[j].(status := st, endedAt := Some(now)));
    }
  }

  lemma {:induction false} EndSameRows(s: Sys, w: Id)
    ensures SameRows(s.jobs, EndJobsOfWorker(s, w).jobs)
  {
  }

  lemma {:induction false} DropSameRows(s: Sys, e: Step)
    requires Drops(e)
    ensures SameRows(s.jobs, Effect(s, e).jobs)
  {
    forall j | j in Effect(s, e).jobs ensures j in s.jobs && Effect(s, e).jobs[j] == s.jobs[j] {
      match e
      case DropWorker(owner, w) => assert j in Swarm.DropWorker(s, owner, w).jobs;
      case DropMiner(owner, m) => assert j in Swarm.DropMiner(s, owner, m).jobs;
    }
  }

  lemma {:induction false} JobSameRows(s: Sys, e: Step)
    requires OnJob(e) && !e.InsertJob?
    ensures SameRows(s.jobs, Effect(s, e).jobs)
  {
    match e
    case JobStatus(row, st) => StatusSameRows(s.jobs, row.job, st, s.now);
    case FailJob(j) => StatusSameRows(s.jobs, j, JobError, s.now);
    case EndJobs(w) => EndSameRows(s, w);
  }

  lemma {:induction false} NoNewJobs(s: Sys, e: Step)
    requires !e.InsertJob?
    ensures SameRows(s.jobs, Effect(s, e).jobs)
  {
    if OnJob(e) {
      JobSameRows(s, e);
    } else if Drops(e) {
      DropSameRows(s, e);
    } else {
      JobsUntouched(s, e);
    }
  }

  lemma {:induction false} JobKeepsRow(f: Fine, e: Step, j: Id)
    requires FineInv(f) && Ready(f, e) && Open(f.s, j) && j in Do(f, e).s.jobs
    ensures Do(f, e).s.jobs[j].miner == f.s.jobs[j].miner
  {
    DoEffect(f, e);
    if e.InsertJob? {
      assert f.s.next !in f.s.homes;
    } else {
      NoNewJobs(f.s, e);
    }
  }

  /** While no job of a miner is open, no acknowledgement for it is looked up. */
  lemma {:induction false} AcksWereSeen(f: Fine, run: seq<Step>, m: Id, i: nat)
    requires FineInv(f) && Runs(f, run) && NoOpenJobOf(f.s, m) && LeftAlone(run, m) && i < |run| && AckOf(run[i], m)
    ensures run[i].row in f.seen
    decreases |run|
  {
    var r := run[i].row;
    if i > 0 {
      var g := Do(f, run[0]);
      StepKeeps(f, run[0]);
      assert !(run[0].InsertJob? && run[0].t.miner == m);
      NoNewOpenJob(f, run[0], m);
      LeftAloneRest(run, m);
      assert run[1..][i - 1] == run[i];
      AcksWereSeen(g, run[1..], m, i - 1);
      if r !in f.seen {
        SeenStep(f, run[0], r);
      }
    }
  }

  /**
   Revival at statement granularity. Take any run to a moment where a miner is stopped
   and has no open job, and go on without a start or a new job for it: at the end it is
   no longer stopped if and only if an acknowledgement's status has been written for it
   since, with no stop of it after that; and every such acknowledgement was looked up
   before that moment.
   */
  lemma {:induction false} RevivedIff(before: seq<Step>, rest: seq<Step>, m: Id)
    requires Runs(START, before) && Runs(End(START, before), rest) && LeftAlone(rest, m)
    requires var s := End(START, before).s; m in s.miners && s.miners[m].status == Stopped && NoOpenJobOf(s, m)
    requires m in End(End(START, before), rest).s.miners
    ensures End(End(START, before), rest).s.miners[m].status != Stopped <==> Revives(rest, m)
    ensures forall i | 0 <= i < |rest| && AckOf(rest[i], m) :: LookUp(rest[i].row.job) in before
  {
    var f := End(START, before);
    RunsKeep(START, before);
    assert m < f.s.next;
    StatusAtEnd(f, rest, m);
    forall i | 0 <= i < |rest| && AckOf(rest[i], m) ensures LookUp(rest[i].row.job) in before {
      AcksWereSeen(f, rest, m, i);
      SeenWasLookedUp(START, before, rest[i].row);
    }
  }

  // ---------------------------------------------------------------------
  // A run in which both happen
  // ---------------------------------------------------------------------

  lemma {:induction false} Then(f: Fine, e: Step, rest: seq<Step>)
    ensures Runs(f, [e] + rest) <==> Ready(f, e) && Runs(Do(f, e), rest)
    ensures Runs(f, [e] + rest) ==> End(f, [e] + rest) == End(Do(f, e), rest)
  {
    assert ([e] + rest)[0] == e && ([e] + rest)[1..] == rest;
  }

  const SOLO: string := "owner"
  const TARGET := Target(0, 1)
  const ROW := Row(3, 1, 0)
  const CREDENTIAL := Credential(1, SOLO, Native)

  /** Miner 0 and connected worker 1. */
  function Solo(next: Id, miner: MinerStatus, jobs: Jobs, homes: Homes): Sys {
    Sys(0, next, map[0 := Miner(SOLO, miner, true, false)], map[1 := Worker(SOLO, Native, Enrolled, None)], jobs, map[], [],
        map[1 := 2], map[1 := Live(SOLO, Native, map[])], map[], map[], homes)
  }

  function Assigned3(miner: MinerStatus, job: JobStatus, endedAt: Option<nat>): Sys {
    Solo(4, miner, map[3 := Job(0, 1, job, endedAt)], map[3 := 3])
  }

  lemma {:induction false} ToConnected() returns (run: seq<Step>, f: Fine)
    ensures Runs(START, run) && End(START, run) == f
    ensures f == Fine(Solo(3, Created, map[], map[]), {CREDENTIAL}, {}, {}, {}, {})
  {
    var e0, e1 := Step.CreateMiner(SOLO, true, false), Step.EnrollWorker(SOLO, Native);
    var s0 := Sys(0, 1, map[0 := Miner(SOLO, Created, true, false)], map[], map[], map[], [], map[], map[], map[], map[], map[]);
    var s1 := s0.(next := 2, workers := map[1 := Worker(SOLO, Native, Enrolled, None)]);
    f := Fine(Solo(3, Created, map[], map[]), {CREDENTIAL}, {}, {}, {}, {});
    assert Do(START, e0) == START.(s := s0);
    assert Do(START.(s := s0), e1) == START.(s := s1);
    assert Do(START.(s := s1), Authenticate(1)) == START.(s := s1, auth := {CREDENTIAL});
    assert Do(START.(s := s1, auth := {CREDENTIAL}), Register(CREDENTIAL)) == f;
    Then(START.(s := s1, auth := {CREDENTIAL}), Register(CREDENTIAL), []);
    Then(START.(s := s1), Authenticate(1), [Register(CREDENTIAL)] + []);
    Then(START.(s := s0), e1, [Authenticate(1)] + ([Register(CREDENTIAL)] + []));
    Then(START, e0, [e1] + ([Authenticate(1)] + ([Register(CREDENTIAL)] + [])));
    run := [e0] + ([e1] + ([Authenticate(1)] + ([Register(CREDENTIAL)] + [])));
  }

  lemma {:induction false} ToPlaced(f: Fine) returns (run: seq<Step>, g: Fine)
    requires f == Fine(Solo(3, Created, map[], map[]), {CREDENTIAL}, {}, {}, {}, {})
    ensures Runs(f, run) && End(f, run) == g
    ensures g == Fine(Assigned3(Queued, JobAssigned, None), {CREDENTIAL}, {}, {TARGET}, {TARGET}, {0})
  {
    var f1 := f.(startable := {0});
    var f2 := f1.(s := Solo(3, Queued, map[], map[]));
    var f3 := f2.(scanned := {TARGET});
    var f4 := f3.(checked := {TARGET});
    g := f4.(s := Assigned3(Queued, JobAssigned, None));
    assert Do(f, ReadMiner(0)) == f1;
    assert Do(f1, MarkQueued(0)) == f2;
    assert Do(f2, Scan(TARGET)) == f3;
    assert Do(f3, GetWorker(TARGET)) == f4;
    assert Do(f4, InsertJob(TARGET)) == g;
    Then(f4, InsertJob(TARGET), []);
    Then(f3, GetWorker(TARGET), [InsertJob(TARGET)] + []);
    Then(f2, Scan(TARGET), [GetWorker(TARGET)] + ([InsertJob(TARGET)] + []));
    Then(f1, MarkQueued(0), [Scan(TARGET)] + ([GetWorker(TARGET)] + ([InsertJob(TARGET)] + [])));
    Then(f, ReadMiner(0), [MarkQueued(0)] + ([Scan(TARGET)] + ([GetWorker(TARGET)] + ([InsertJob(TARGET)] + []))));
    run := [ReadMiner(0)] + ([MarkQueued(0)] + ([Scan(TARGET)] + ([GetWorker(TARGET)] + ([InsertJob(TARGET)] + []))));
  }

  /** The row is read, by the acknowledgement and by the stop alike; the stop then runs to its end. */
  lemma {:induction false} ToStopped(f: Fine) returns (run: seq<Step>, g: Fine)
    requires f == Fine(Assigned3(Queued, JobAssigned, None), {CREDENTIAL}, {}, {TARGET}, {TARGET}, {0})
    ensures Runs(f, run) && End(f, run) == g
    ensures g == Fine(Assigned3(Stopped, JobEnded, Some(0)), {CREDENTIAL}, {ROW}, {TARGET}, {TARGET}, {0})
  {
    var f1 := f.(seen := {ROW});
    var f2 := f1.(s := Assigned3(Queued, JobEnded, Some(0)));
    g := f2.(s := Assigned3(Stopped, JobEnded, Some(0)));
    assert Do(f, LookUp(3)) == f1;
    assert Do(f1, Step.JobStatus(ROW, JobEnded)) == f2;
    assert Do(f2, MarkStopped(0)) == g;
    Then(f2, MarkStopped(0), []);
    Then(f1, Step.JobStatus(ROW, JobEnded), [MarkStopped(0)] + []);
    Then(f, LookUp(3), [Step.JobStatus(ROW, JobEnded)] + ([MarkStopped(0)] + []));
    run := [LookUp(3)] + ([Step.JobStatus(ROW, JobEnded)] + ([MarkStopped(0)] + []));
  }

  /** Only now the acknowledgement's statements run. */
  lemma {:induction false} ToRevived(f: Fine) returns (run: seq<Step>, g: Fine)
    requires f == Fine(Assigned3(Stopped, JobEnded, Some(0)), {CREDENTIAL}, {ROW}, {TARGET}, {TARGET}, {0})
    ensures Runs(f, run) && End(f, run) == g
    ensures g.s == Assigned3(Running, JobAck, Some(0))
  {
    var f1 := f.(s := Assigned3(Stopped, JobAck, Some(0)));
    g := f1.(s := Assigned3(Running, JobAck, Some(0)));
    assert Do(f, Step.JobStatus(ROW, JobAck)) == f1;
    assert Do(f1, AckStatus(ROW, true)) == g;
    Then(f1, AckStatus(ROW, true), []);
    Then(f, Step.JobStatus(ROW, JobAck), [AckStatus(ROW, true)] + []);
    run := [Step.JobStatus(ROW, JobAck)] + ([AckStatus(ROW, true)] + []);
  }

  lemma {:induction false} EndConcat(f: Fine, xs: seq<Step>, ys: seq<Step>)
    requires Runs(f, xs) && Runs(End(f, xs), ys)
    ensures Runs(f, xs + ys) && End(f, xs + ys) == End(End(f, xs), ys)
    decreases |xs|
  {
    if xs == [] {
      assert xs + ys == ys;
    } else {
      assert (xs + ys)[0] == xs[0] && (xs + ys)[1..] == xs[1..] + ys;
      EndConcat(Do(f, xs[0]), xs[1..], ys);
    }
  }

  /**
   A run from the empty server: an acknowledgement is looked up, a whole stop runs, and
   then the acknowledgement's writes land. The ended job reads as acknowledged and the
   stopped miner as running.
   */
  lemma {:induction false} LateAcknowledgement() returns (before: seq<Step>, rest: seq<Step>, j: Id, m: Id)
    ensures Runs(START, before) && Runs(End(START, before), rest)
    ensures var s := End(START, before).s;
            && j in s.jobs && s.jobs[j].endedAt.Some? && s.jobs[j].status == JobEnded
            && m in s.miners && s.miners[m].status == Stopped && NoOpenJobOf(s, m)
    ensures var t := End(End(START, before), rest).s;
            j in t.jobs && t.jobs[j].endedAt.Some? && t.jobs[j].status == JobAck && m in t.miners && t.miners[m].status == Running
  {
    j, m := 3, 0;
    var r1, f1 := ToConnected();
    var r2, f2 := ToPlaced(f1);
    var r3, f3 := ToStopped(f2);
    var r4, _ := ToRevived(f3);
    EndConcat(START, r1, r2);
    EndConcat(START, r1 + r2, r3);
    before, rest := r1 + r2 + r3, r4;
  }
}
