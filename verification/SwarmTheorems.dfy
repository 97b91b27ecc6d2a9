/**
 What the invariant gives over whole runs: ended jobs and revoked workers stay
 that way, a stopped miner is not revived by anything still in flight, and
 cancelling a miner writes the sums of its samples into its run.
 */
module SwarmTheorems {

  import opened Base
  import opened Swarm
  import opened SwarmInvariant
  import opened SwarmSteps
  import opened SwarmRuns
  import Shares

  // ---------------------------------------------------------------------
  // Terminal states
  // ---------------------------------------------------------------------

  /** Rows ended earlier are untouched, rows that are gone do not come back, and a job keeps its miner and worker. */
  ghost predicate JobsFinal(jobs: Jobs, homes: Homes, jobs': Jobs, homes': Homes) {
    && homes.Keys <= homes'.Keys
    && (forall j | j in jobs && j in jobs' && jobs[j].endedAt.Some? :: jobs'[j] == jobs[j])
    && (forall j | j in jobs' && j in homes :: j in jobs && jobs'[j].miner == jobs[j].miner && jobs'[j].worker == jobs[j].worker)
  }

  /** A revoked row is untouched for as long as it exists; rows that are gone do not come back. */
  ghost predicate WorkersFinal(workers: map<Id, Worker>, next: Id, workers': map<Id, Worker>, next': Id) {
    && next <= next'
    && (forall w | w in workers && w in workers' && workers[w].revokedAt.Some? :: workers'[w] == workers[w])
    && (forall w | w in workers' && w < next :: w in workers && workers'[w].owner == workers[w].owner && workers'[w].kind == workers[w].kind)
  }

  ghost predicate Final(s: Sys, t: Sys) {
    JobsFinal(s.jobs, s.homes, t.jobs, t.homes) && WorkersFinal(s.workers, s.next, t.workers, t.next)
  }

  lemma {:induction false} FinalTrans(s: Sys, t: Sys, u: Sys)
    requires Final(s, t) && Final(t, u) && s.jobs.Keys <= s.homes.Keys && Below(s.workers.Keys, s.next)
    ensures Final(s, u)
  {
    forall j | j in s.jobs && j in u.jobs && s.jobs[j].endedAt.Some? ensures u.jobs[j] == s.jobs[j] {
      assert j in t.jobs;
    }
    forall w | w in s.workers && w in u.workers && s.workers[w].revokedAt.Some? ensures u.workers[w] == s.workers[w] {
      assert w in t.workers;
    }
  }

  /** Nothing the theorem speaks of has changed. */
  lemma {:induction false} FinalSame(s: Sys, t: Sys)
    requires t.jobs == s.jobs && t.homes == s.homes && t.workers == s.workers && t.next == s.next
    ensures Final(s, t)
  {
  }

  lemma {:induction false} JobsSame(jobs: Jobs, homes: Homes)
    ensures JobsFinal(jobs, homes, jobs, homes)
  {
  }

  lemma {:induction false} WorkersSame(workers: map<Id, Worker>, next: Id, next': Id)
    requires next <= next'
    ensures WorkersFinal(workers, next, workers, next')
  {
  }

  lemma {:induction false} WorkerRowFinal(workers: map<Id, Worker>, next: Id, next': Id, w: Id, st: WorkerStatus)
    requires w in workers && workers[w].revokedAt.None? && next <= next'
    ensures WorkersFinal(workers, next, workers[w := workers[w].(status := st)], next')
  {
  }

  lemma {:induction false} FinalWorkerStatus(s: Sys, w: Id, st: WorkerStatus)
    requires RevokedOk(s.workers)
    ensures Final(s, SetWorkerStatus(s, w, st))
  {
    WorkersWithFinal(s.workers, s.next, s.next, w, st);
    JobsSame(s.jobs, s.homes);
  }

  lemma {:induction false} WorkersWithFinal(workers: map<Id, Worker>, next: Id, next': Id, w: Id, st: WorkerStatus)
    requires RevokedOk(workers) && next <= next'
    ensures WorkersFinal(workers, next, WorkersWith(workers, w, st), next')
  {
    if w in workers && workers[w].status != Revoked {
      WorkerRowFinal(workers, next, next', w, st);
      assert WorkersWith(workers, w, st) == workers[w := workers[w].(status := st)];
    } else {
      WorkersSame(workers, next, next');
    }
  }

  lemma {:induction false} JobsWithFinal(jobs: Jobs, homes: Homes, j: Id, st: JobStatus, now: nat)
    requires st == JobAck ==> IsOpen(jobs, j)
    requires st != JobAssigned
    ensures JobsFinal(jobs, homes, JobsWith(jobs, j, st, now), homes)
  {
  }

  lemma {:induction false} FinalJobStatus(s: Sys, j: Id, st: JobStatus)
    requires st == JobAck ==> Open(s, j)
    requires st != JobAssigned
    ensures Final(s, SetJobStatus(s, j, st))
  {
    JobsWithFinal(s.jobs, s.homes, j, st, s.now);
    WorkersSame(s.workers, s.next, s.next);
  }

  lemma {:induction false} FinalCreate(s: Sys, m: Id, w: Id, c: Id)
    requires s.next !in s.homes && s.jobs.Keys <= s.homes.Keys
    ensures Final(s, CreateJob(s, m, w, c))
  {
  }

  lemma {:induction false} RowsKnown(s: Sys)
    requires Inv(s)
    ensures s.jobs.Keys <= s.homes.Keys && Below(s.workers.Keys, s.next) && s.next !in s.homes && RevokedOk(s.workers)
  {
  }

  lemma {:induction false} FinalAssignTo(s: Sys, m: Id, w: Id)
    requires Inv(s) && w in s.conns
    ensures Final(s, AssignTo(s, m, w))
  {
    var c, j := s.conns[w], s.next;
    var t := CreateJob(s, m, w, c);
    RowsKnown(s);
    FinalCreate(s, m, w, c);
    if CanSend(s, c) {
      var u := Send(t, c, Assign(j));
      FinalSame(t, u);
      FinalTrans(s, t, u);
      FinalWorkerStatus(u, w, Assigned);
      FinalTrans(s, u, AssignTo(s, m, w));
    } else {
      FinalJobStatus(t, j, JobError);
      FinalTrans(s, t, AssignTo(s, m, w));
    }
  }

  lemma {:induction false} FinalAssign(s: Sys, m: Id, target: Option<Id>)
    requires Inv(s) && IsTarget(s, m, target)
    ensures Final(s, AssignMiner(s, m, target))
  {
    if target.Some? && WorkerStillThere(s, m, target.value) {
      FinalAssignTo(s, m, target.value);
    } else {
      FinalSame(s, s);
    }
  }

  lemma {:induction false} FinalAssignAll(s: Sys, choices: seq<Choice>)
    requires Inv(s) && AssignableAll(s, choices)
    requires forall i | 0 <= i < |choices| :: choices[i].miner in s.miners && Active(s.miners[choices[i].miner].status)
    ensures Final(s, AssignAll(s, choices))
    decreases |choices|
  {
    if choices == [] {
      FinalSame(s, s);
    } else {
      var m, target := choices[0].miner, choices[0].target;
      var t := AssignMiner(s, m, target);
      FinalAssign(s, m, target);
      AssignMinerMiners(s, m, target);
      AssignMinerKeeps(s, m, target);
      FinalAssignAll(t, choices[1..]);
      RowsKnown(s);
      FinalTrans(s, t, AssignAll(s, choices));
    }
  }

  lemma {:induction false} FinalJoined(s: Sys, w: Id)
    requires Inv(s) && w in s.workers
    ensures Final(s, Joined(s, w))
  {
    RowsKnown(s);
    JobsSame(s.jobs, s.homes);
    WorkersWithFinal(s.workers, s.next, s.next + 1, w, Connected);
    JoinedFrame(s, w);
  }

  lemma {:induction false} JoinedFrame(s: Sys, w: Id)
    requires w in s.workers
    ensures Joined(s, w).jobs == s.jobs && Joined(s, w).homes == s.homes && Joined(s, w).next == s.next + 1
    ensures Joined(s, w).workers == WorkersWith(s.workers, w, Connected) && Joined(s, w).miners == s.miners
  {
  }

  lemma {:induction false} QueuedChoices(s: Sys, w: Id, choices: seq<Choice>)
    requires w in s.workers && Enumerates(MinersOf(choices), QueuedMiners(s, s.workers[w].owner))
    ensures forall i | 0 <= i < |choices| :: choices[i].miner in s.miners && s.miners[choices[i].miner].status == Queued
  {
    forall i | 0 <= i < |choices|
      ensures choices[i].miner in s.miners && s.miners[choices[i].miner].status == Queued
    {
      assert MinersOf(choices)[i] in QueuedMiners(s, s.workers[w].owner);
    }
  }

  lemma {:induction false} FinalConnect(s: Sys, w: Id, choices: seq<Choice>)
    requires Inv(s) && Enabled(s, Connect(w, choices))
    ensures Final(s, Next(s, Connect(w, choices)))
  {
    var t := Joined(s, w);
    FinalJoined(s, w);
    JoinedKeeps(s, w);
    JoinedFrame(s, w);
    QueuedChoices(s, w, choices);
    FinalAssignAll(t, choices);
    RowsKnown(s);
    FinalTrans(s, t, AssignAll(t, choices));
  }

  lemma {:induction false} CancelledFinal(jobs: Jobs, homes: Homes, jobs': Jobs, order: seq<Id>, now: nat)
    requires jobs'.Keys == jobs.Keys
    requires forall j | j in order :: j in jobs && jobs[j].endedAt.None?
    requires forall j | j in jobs && j !in order :: jobs'[j] == jobs[j]
    requires forall j | j in order :: jobs'[j] == jobs[j].(status := JobEnded, endedAt := Some(now))
    ensures JobsFinal(jobs, homes, jobs', homes)
  {
    forall j | j in jobs
      ensures jobs[j].endedAt.Some? ==> jobs'[j] == jobs[j]
      ensures jobs'[j].miner == jobs[j].miner && jobs'[j].worker == jobs[j].worker
    {
      if j in order { assert jobs[j].endedAt.None?; }
    }
  }

  lemma {:induction false} FinalCancelAll(s: Sys, m: Id, order: seq<Id>)
    requires Inv(s) && Enumerates(order, OpenJobsOf(s, m))
    ensures Final(s, CancelAll(s, m, order))
  {
    AllCancellable(s, m, order);
    CancelAllJobs(s, m, order);
    CancelledFinal(s.jobs, s.homes, CancelAll(s, m, order).jobs, order, s.now);
    WorkersSame(s.workers, s.next, s.next);
  }

  lemma {:induction false} AllocateFrame(s: Sys, order: seq<Id>)
    ensures AllocateAll(s, order) == s.(net := AllocateAll(s, order).net)
    decreases |order|
  {
    if order != [] {
      var j := order[0];
      if j in s.jobs && s.jobs[j].worker in s.conns {
        AllocateFrame(Send(s, s.conns[s.jobs[j].worker], Allocation(j)), order[1..]);
      } else {
        AllocateFrame(s, order[1..]);
      }
    }
  }

  /** What an acknowledgement changes of the tables. */
  lemma {:induction false} AckFrame(s: Sys, w: Id, j: Id, ok: bool)
    requires OpenFor(s, j, w)
    ensures var t, m := HandleAck(s, w, j, ok), s.jobs[j].miner;
            && t.homes == s.homes && t.next == s.next && t.samples == s.samples
            && t.miners == MinersWith(s.miners, m, if ok then Running else Errored)
            && t.jobs == JobsWith(s.jobs, j, if ok then JobAck else JobError, s.now)
            && t.workers == if ok then WorkersWith(s.workers, w, Mining) else s.workers
  {
  }

  lemma {:induction false} MetricsFrame(s: Sys, w: Id, j: Id, acc: nat, rej: nat)
    ensures var t := HandleMetrics(s, w, j, acc, rej);
            && t.homes == s.homes && t.next == s.next && t.miners == s.miners && t.jobs == s.jobs && t.workers == s.workers
            && (!OpenFor(s, j, w) ==> t.samples == s.samples)
            && (OpenFor(s, j, w) ==> exists x: Sample :: x.miner == s.jobs[j].miner && t.samples == s.samples + [x])
  {
    if OpenFor(s, j, w) {
      var b := Baseline(s, j, s.jobs[j].miner, acc, rej);
      var x := Sample(s.jobs[j].miner, j, Shares.Delta(b.lastAcc, acc), Shares.Delta(b.lastRej, rej));
      assert HandleMetrics(s, w, j, acc, rej).samples == s.samples + [x];
    }
  }

  lemma {:induction false} FinalAck(s: Sys, w: Id, j: Id, ok: bool)
    requires RevokedOk(s.workers) && OpenFor(s, j, w)
    ensures Final(s, HandleAck(s, w, j, ok))
  {
    AckFrame(s, w, j, ok);
    JobsWithFinal(s.jobs, s.homes, j, if ok then JobAck else JobError, s.now);
    WorkersWithFinal(s.workers, s.next, s.next, w, Mining);
    WorkersSame(s.workers, s.next, s.next);
  }

  lemma {:induction false} FinalHandle(s: Sys, w: Id, msg: ToServer)
    requires RevokedOk(s.workers)
    ensures Final(s, ServerHandle(s, w, msg))
  {
    match msg
    case Ack(j, ok) =>
      if OpenFor(s, j, w) {
        FinalAck(s, w, j, ok);
      } else {
        FinalSame(s, s);
      }
    case Metrics(j, acc, rej) =>
      MetricsFrame(s, w, j, acc, rej);
      FinalSame(s, HandleMetrics(s, w, j, acc, rej));
  }

  lemma {:induction false} FinalDropMiner(s: Sys, owner: string, m: Id)
    ensures Final(s, DropMiner(s, owner, m))
  {
  }

  lemma {:induction false} FinalRevoke(s: Sys, owner: string, w: Id)
    ensures Final(s, EndJobsOfWorker(MarkRevoked(s, owner, w), w))
  {
    EndingFinal(s.jobs, s.homes, EndJobsOfWorker(MarkRevoked(s, owner, w), w).jobs, s.now, w);
    RevokingFinal(s.workers, s.next, owner, w, s.now);
  }

  lemma {:induction false} EndingFinal(jobs: Jobs, homes: Homes, jobs': Jobs, now: nat, w: Id)
    requires jobs' == map j | j in jobs ::
               if jobs[j].worker == w && jobs[j].endedAt.None? then jobs[j].(status := JobEnded, endedAt := Some(now)) else jobs[j]
    ensures JobsFinal(jobs, homes, jobs', homes)
  {
  }

  lemma {:induction false} RevokedRowFinal(workers: map<Id, Worker>, next: Id, w: Id, row: Worker)
    requires w in workers && workers[w].revokedAt.None? && row.owner == workers[w].owner && row.kind == workers[w].kind
    ensures WorkersFinal(workers, next, workers[w := row], next)
  {
  }

  lemma {:induction false} RevokingFinal(workers: map<Id, Worker>, next: Id, owner: string, w: Id, now: nat)
    ensures WorkersFinal(workers, next, WorkersRevoking(workers, owner, w, now), next)
  {
    if w in workers && workers[w].owner == owner && workers[w].revokedAt.None? {
      RevokedRowFinal(workers, next, w, workers[w].(status := Revoked, revokedAt := Some(now)));
    } else {
      WorkersSame(workers, next, next);
    }
  }

  lemma {:induction false} FinalRevokeWorker(s: Sys, owner: string, w: Id)
    ensures Final(s, Next(s, RevokeWorker(owner, w)))
  {
    if w in s.workers && s.workers[w].owner == owner && s.workers[w].revokedAt.None? {
      FinalRevoke(s, owner, w);
      assert Next(s, RevokeWorker(owner, w)) == HubRevoke(EndJobsOfWorker(MarkRevoked(s, owner, w), w), w);
    } else {
      FinalSame(s, s);
    }
  }

  lemma {:induction false} FinalDeleteWorker(s: Sys, owner: string, w: Id)
    ensures Final(s, Next(s, DeleteWorker(owner, w)))
  {
    DroppingFinal(s.jobs, s.homes, w);
    assert WorkersFinal(s.workers, s.next, s.workers - {w}, s.next);
    JobsSame(s.jobs, s.homes);
    WorkersSame(s.workers, s.next, s.next);
  }

  lemma {:induction false} DroppingFinal(jobs: Jobs, homes: Homes, w: Id)
    ensures JobsFinal(jobs, homes, WithoutWorker(jobs, w), homes)
  {
  }

  lemma {:induction false} FinalStart(s: Sys, owner: string, m: Id, target: Option<Id>)
    requires Inv(s) && Startable(s, owner, m) && IsTarget(Started(s, m), m, target)
    ensures Final(s, AssignMiner(Started(s, m), m, target))
  {
    var t := Started(s, m);
    RowsKnown(s);
    OpenRunKeeps(s, m);
    SetMinerStatusKeeps(OpenRun(s, m), m, Queued);
    FinalStarted(s, m);
    FinalAssign(t, m, target);
    FinalTrans(s, t, AssignMiner(t, m, target));
  }

  lemma {:induction false} FinalStarted(s: Sys, m: Id)
    ensures Final(s, Started(s, m))
  {
    JobsSame(s.jobs, s.homes);
    WorkersSame(s.workers, s.next, s.next + 1);
    StartedFrame(s, m);
  }

  lemma {:induction false} StartedFrame(s: Sys, m: Id)
    ensures var t := Started(s, m); t.jobs == s.jobs && t.homes == s.homes && t.workers == s.workers && t.next == s.next + 1
  {
  }

  lemma {:induction false} FinalServerEnd(s: Sys, c: Id)
    requires Enabled(s, ServerEnd(c)) && RevokedOk(s.workers)
    ensures Final(s, Next(s, ServerEnd(c)))
  {
    var x := s.net[c];
    var t := UnregisterSection(s.(net := s.net[c := x.(serving := false, phase := Hangup(x.phase))]), x.worker);
    FinalWorkerStatus(t, x.worker, Offline);
  }

  lemma {:induction false} NewWorkerFinal(workers: map<Id, Worker>, next: Id, row: Worker)
    requires next !in workers
    ensures WorkersFinal(workers, next, workers[next := row], next + 1)
  {
  }

  lemma {:induction false} FinalCreated(s: Sys, e: Event)
    requires Inv(s) && (e.CreateMiner? || e.EnrollWorker?)
    ensures Final(s, Next(s, e))
  {
    assert s.next !in s.workers;
    JobsSame(s.jobs, s.homes);
    WorkersSame(s.workers, s.next, s.next + 1);
    if e.EnrollWorker? {
      NewWorkerFinal(s.workers, s.next, Worker(e.owner, e.kind, Enrolled, None));
    }
  }

  lemma {:induction false} FinalStop(s: Sys, owner: string, m: Id, order: seq<Id>)
    requires Inv(s) && Enabled(s, StopMiner(owner, m, order))
    ensures Final(s, Next(s, StopMiner(owner, m, order)))
  {
    FinalSame(s, s);
    if Owns(s, owner, m) {
      FinalCancelAll(s, m, order);
    }
  }

  lemma {:induction false} FinalDelete(s: Sys, owner: string, m: Id, order: seq<Id>)
    requires Inv(s) && Enabled(s, DeleteMiner(owner, m, order))
    ensures Final(s, Next(s, DeleteMiner(owner, m, order)))
  {
    var t := CancelAll(s, m, order);
    FinalCancelAll(s, m, order);
    FinalDropMiner(t, owner, m);
    RowsKnown(s);
    FinalTrans(s, t, DropMiner(t, owner, m));
  }

  lemma {:induction false} HandlerFinal(s: Sys, e: Event)
    requires Inv(s) && Enabled(s, e)
    requires Handles(e)
    ensures Final(s, Next(s, e))
  {
    match e
    case StartMiner(owner, m, target) => if Startable(s, owner, m) { FinalStart(s, owner, m, target); } else { FinalSame(s, s); }
    case StopMiner(owner, m, order) => FinalStop(s, owner, m, order);
    case DeleteMiner(owner, m, order) => FinalDelete(s, owner, m, order);
    case UpdateAllocation(owner, m, order) => AllocateFrame(s, order); FinalSame(s, Next(s, e));
    case RevokeWorker(owner, w) => FinalRevokeWorker(s, owner, w);
    case DeleteWorker(owner, w) => FinalDeleteWorker(s, owner, w);
  }

  /** One step leaves every ended job and every revoked worker alone. */
  lemma {:induction false} StepFinal(s: Sys, e: Event)
    requires Inv(s) && Enabled(s, e)
    ensures Final(s, Next(s, e))
  {
    if Transports(e) || e.Tick? {
      TransportFrame(s, e);
      FinalSame(s, Next(s, e));
    } else if e.CreateMiner? || e.EnrollWorker? {
      FinalCreated(s, e);
    } else if e.Connect? {
      FinalConnect(s, e.w, e.choices);
    } else if e.ServerRead? {
      FinalHandle(Popped(s, e.c), s.net[e.c].worker, s.net[e.c].up[0]);
    } else if e.ServerEnd? {
      FinalServerEnd(s, e.c);
    } else {
      HandlerFinal(s, e);
    }
  }

  lemma {:induction false} RunFinal(s: Sys, run: seq<Event>)
    requires Inv(s) && Feasible(s, run)
    ensures Final(s, After(s, run))
    decreases |run|
  {
    if run == [] {
      FinalSame(s, s);
    } else {
      StepKeepsInv(s, run[0]);
      StepFinal(s, run[0]);
      RunFinal(Next(s, run[0]), run[1..]);
      RowsKnown(s);
      FinalTrans(s, Next(s, run[0]), After(s, run));
    }
  }

  /**
   Terminal states and placement, in every run: a job once ended keeps its row
   unchanged, so ended_at is written at most once; a worker once revoked keeps its
   row unchanged, and revoked is its status exactly when revoked_at is set; and
   every job pairs a miner with a non-browser worker of the same owner.
   */
  lemma {:induction false} TerminalStates(before: seq<Event>, rest: seq<Event>)
    requires Feasible(INIT, before + rest)
    ensures Feasible(INIT, before)
    ensures var s, t := After(INIT, before), After(INIT, before + rest);
            && (forall j | j in s.jobs && s.jobs[j].endedAt.Some? && j in t.jobs :: t.jobs[j] == s.jobs[j])
            && (forall w | w in s.workers && s.workers[w].revokedAt.Some? && w in t.workers :: t.workers[w] == s.workers[w])
            && (forall w | w in t.workers :: t.workers[w].status == Revoked <==> t.workers[w].revokedAt.Some?)
            && (forall j | j in t.jobs :: t.jobs[j].worker in t.workers && t.jobs[j].miner in t.miners
                  && t.workers[t.jobs[j].worker].owner == t.miners[t.jobs[j].miner].owner
                  && t.workers[t.jobs[j].worker].kind != Browser)
  {
    RunConcat(INIT, before, rest);
    RunKeepsInv(before);
    RunFinal(After(INIT, before), rest);
    RunKeepsInv(before + rest);
  }

  // ---------------------------------------------------------------------
  // No revival after a stop
  // ---------------------------------------------------------------------

  function SamplesOf(xs: seq<Sample>, m: Id): seq<Sample> {
    Filter((x: Sample) => x.miner == m, xs)
  }

  /** The miner is stopped, or gone, and its samples are still xs. */
  ghost predicate Halted(miners: map<Id, Miner>, samples: seq<Sample>, next: Id, m: Id, xs: seq<Sample>) {
    && m < next
    && (m in miners ==> miners[m].status == Stopped && SamplesOf(samples, m) == xs)
  }

  ghost predicate HaltedIn(s: Sys, m: Id, xs: seq<Sample>) { Halted(s.miners, s.samples, s.next, m, xs) }

  /** A status update for an open job's miner is not about a stopped miner. */
  lemma {:induction false} OpenElsewhere(s: Sys, m: Id, xs: seq<Sample>, j: Id)
    requires Statuses(s.jobs, s.miners) && HaltedIn(s, m, xs) && Open(s, j)
    ensures s.jobs[j].miner != m
  {
    assert IsOpen(s.jobs, j);
  }

  lemma {:induction false} SampleElsewhere(samples: seq<Sample>, x: Sample, m: Id)
    requires x.miner != m
    ensures SamplesOf(samples + [x], m) == SamplesOf(samples, m)
  {
    FilterConcat((y: Sample) => y.miner == m, samples, [x]);
    FilterOne((y: Sample) => y.miner == m, x);
    assert SamplesOf(samples, m) + [] == SamplesOf(samples, m);
  }

  lemma {:induction false} SamplesOfOthersDropped(xs: seq<Sample>, m: Id, other: Id)
    requires m != other
    ensures SamplesOf(SamplesWithout(xs, other), m) == SamplesOf(xs, m)
  {
    FilterFilter((x: Sample) => x.miner == m, (x: Sample) => x.miner != other, (x: Sample) => x.miner == m, xs);
  }

  lemma {:induction false} HaltedRead(s: Sys, m: Id, xs: seq<Sample>, w: Id, msg: ToServer)
    requires Statuses(s.jobs, s.miners) && HaltedIn(s, m, xs)
    ensures HaltedIn(ServerHandle(s, w, msg), m, xs)
  {
    if OpenFor(s, msg.job, w) {
      OpenElsewhere(s, m, xs, msg.job);
      match msg
      case Ack(j, ok) => AckFrame(s, w, j, ok);
      case Metrics(j, acc, rej) =>
        MetricsFrame(s, w, j, acc, rej);
        var x: Sample :| x.miner == s.jobs[j].miner && HandleMetrics(s, w, j, acc, rej).samples == s.samples + [x];
        SampleElsewhere(s.samples, x, m);
    }
  }

  lemma {:induction false} CancelAllHalted(s: Sys, m: Id, xs: seq<Sample>, other: Id, order: seq<Id>)
    requires Enumerates(order, OpenJobsOf(s, other)) && HaltedIn(s, m, xs)
    ensures HaltedIn(CancelAll(s, other, order), m, xs)
  {
    AllCancellable(s, other, order);
    CancelAllJobs(s, other, order);
  }

  lemma {:induction false} DropHalted(s: Sys, owner: string, other: Id, m: Id, xs: seq<Sample>)
    requires HaltedIn(s, m, xs)
    ensures HaltedIn(DropMiner(s, owner, other), m, xs)
  {
    if Owns(s, owner, other) && m != other {
      SamplesOfOthersDropped(s.samples, m, other);
    }
  }

  lemma {:induction false} ConnectFrame(s: Sys, w: Id, choices: seq<Choice>)
    requires Inv(s) && Enabled(s, Connect(w, choices))
    ensures Next(s, Connect(w, choices)).miners == s.miners && Next(s, Connect(w, choices)).samples == s.samples
    ensures s.next <= Next(s, Connect(w, choices)).next
  {
    AssignAllFrame(Joined(s, w), choices);
  }

  lemma {:induction false} AssignAllFrame(s: Sys, choices: seq<Choice>)
    requires AssignableAll(s, choices)
    ensures AssignAll(s, choices).miners == s.miners && AssignAll(s, choices).samples == s.samples
    ensures s.next <= AssignAll(s, choices).next
    decreases |choices|
  {
    if choices != [] {
      AssignFrame(s, choices[0].miner, choices[0].target);
      AssignAllFrame(AssignMiner(s, choices[0].miner, choices[0].target), choices[1..]);
    }
  }

  lemma {:induction false} AssignToFrame(s: Sys, m: Id, w: Id)
    requires w in s.conns
    ensures AssignTo(s, m, w).miners == s.miners && AssignTo(s, m, w).samples == s.samples
    ensures AssignTo(s, m, w).next == s.next + 1
  {
    var c, t := s.conns[w], CreateJob(s, m, w, s.conns[w]);
    if CanSend(s, c) {
      assert AssignTo(s, m, w) == SetWorkerStatus(Send(t, c, Assign(s.next)), w, Assigned);
    } else {
      assert AssignTo(s, m, w) == SetJobStatus(t, s.next, JobError);
    }
  }

  lemma {:induction false} AssignFrame(s: Sys, m: Id, target: Option<Id>)
    requires IsTarget(s, m, target)
    ensures AssignMiner(s, m, target).miners == s.miners && AssignMiner(s, m, target).samples == s.samples
    ensures s.next <= AssignMiner(s, m, target).next
  {
    if target.Some? && WorkerStillThere(s, m, target.value) {
      AssignToFrame(s, m, target.value);
    }
  }

  /** In every reachable state an open job's miner exists and is queued, running or in error. */
  lemma {:induction false} OpenJobsAreActive(run: seq<Event>, j: Id)
    requires Feasible(INIT, run) && Open(After(INIT, run), j)
    ensures var s := After(INIT, run);
            && s.jobs[j].miner in s.miners
            && s.miners[s.jobs[j].miner].status in {Queued, Running, Errored}
  {
    RunKeepsInv(run);
    assert IsOpen(After(INIT, run).jobs, j);
  }

  predicate Starts(e: Event, m: Id) { e.StartMiner? && e.m == m }

  lemma {:induction false} StartHalted(s: Sys, owner: string, other: Id, target: Option<Id>, m: Id, xs: seq<Sample>)
    requires Startable(s, owner, other) && IsTarget(Started(s, other), other, target) && HaltedIn(s, m, xs) && m != other
    ensures HaltedIn(AssignMiner(Started(s, other), other, target), m, xs)
  {
    AssignFrame(Started(s, other), other, target);
  }

  lemma {:induction false} StopHalted(s: Sys, owner: string, other: Id, order: seq<Id>, m: Id, xs: seq<Sample>)
    requires Enabled(s, StopMiner(owner, other, order)) && HaltedIn(s, m, xs)
    ensures HaltedIn(Next(s, StopMiner(owner, other, order)), m, xs)
  {
    CancelAllHalted(s, m, xs, other, order);
  }

  lemma {:induction false} DeleteWorkerFrame(s: Sys, owner: string, w: Id)
    ensures Next(s, DeleteWorker(owner, w)).miners == s.miners && Next(s, DeleteWorker(owner, w)).samples == s.samples
    ensures Next(s, DeleteWorker(owner, w)).next == s.next
  {
  }

  lemma {:induction false} RevokeFrame(s: Sys, owner: string, w: Id)
    ensures Next(s, RevokeWorker(owner, w)).miners == s.miners && Next(s, RevokeWorker(owner, w)).samples == s.samples
    ensures Next(s, RevokeWorker(owner, w)).next == s.next
  {
  }

  lemma {:induction false} HandlerHalted(s: Sys, e: Event, m: Id, xs: seq<Sample>)
    requires Enabled(s, e) && Handles(e) && HaltedIn(s, m, xs) && !Starts(e, m)
    ensures HaltedIn(Next(s, e), m, xs)
  {
    match e
    case StartMiner(owner, other, target) =>
      if Startable(s, owner, other) { StartHalted(s, owner, other, target, m, xs); }
    case StopMiner(owner, other, order) => StopHalted(s, owner, other, order, m, xs);
    case DeleteMiner(owner, other, order) =>
      CancelAllHalted(s, m, xs, other, order);
      DropHalted(CancelAll(s, other, order), owner, other, m, xs);
    case UpdateAllocation(owner, other, order) => AllocateFrame(s, order);
    case RevokeWorker(owner, w) => RevokeFrame(s, owner, w);
    case DeleteWorker(owner, w) => DeleteWorkerFrame(s, owner, w);
  }

  lemma {:induction false} StepHalted(s: Sys, e: Event, m: Id, xs: seq<Sample>)
    requires Inv(s) && Enabled(s, e) && HaltedIn(s, m, xs) && !Starts(e, m)
    ensures HaltedIn(Next(s, e), m, xs)
  {
    if Handles(e) {
      HandlerHalted(s, e, m, xs);
    } else if Transports(e) {
      TransportFrame(s, e);
    } else if e.Connect? {
      ConnectFrame(s, e.w, e.choices);
    } else if e.ServerRead? {
      HaltedRead(Popped(s, e.c), m, xs, s.net[e.c].worker, s.net[e.c].up[0]);
    } else if e.ServerEnd? {
      ServerEndFrame(s, e.c);
    }
  }

  lemma {:induction false} ServerEndFrame(s: Sys, c: Id)
    requires Enabled(s, ServerEnd(c))
    ensures Next(s, ServerEnd(c)).miners == s.miners && Next(s, ServerEnd(c)).samples == s.samples && Next(s, ServerEnd(c)).next == s.next
  {
  }

  /** Workers, connections and the clock do not touch the tables. */
  lemma {:induction false} TransportFrame(s: Sys, e: Event)
    requires Enabled(s, e) && (Transports(e) || e.Tick?)
    ensures Next(s, e) == s.(net := Next(s, e).net, now := Next(s, e).now)
  {
  }

  lemma {:induction false} RunHalted(s: Sys, run: seq<Event>, m: Id, xs: seq<Sample>)
    requires Inv(s) && Feasible(s, run) && HaltedIn(s, m, xs) && forall e | e in run :: !Starts(e, m)
    ensures HaltedIn(After(s, run), m, xs)
    decreases |run|
  {
    if run != [] {
      assert run[0] in run;
      StepHalted(s, run[0], m, xs);
      StepKeepsInv(s, run[0]);
      RunHalted(Next(s, run[0]), run[1..], m, xs);
    }
  }

  /**
   No revival: after its owner has stopped a miner, whatever is still queued on
   any connection, until its next Start the miner is stopped (or deleted) and no
   sample of it is recorded.
   */
  lemma {:induction false} NoRevival(before: seq<Event>, owner: string, m: Id, order: seq<Id>, rest: seq<Event>)
    requires Feasible(INIT, before + ([StopMiner(owner, m, order)] + rest))
    requires Feasible(INIT, before) && Owns(After(INIT, before), owner, m)
    requires forall e | e in rest :: !Starts(e, m)
    ensures var s, t := After(INIT, before), After(INIT, before + ([StopMiner(owner, m, order)] + rest));
            m in t.miners ==> t.miners[m].status == Stopped && SamplesOf(t.samples, m) == SamplesOf(s.samples, m)
  {
    var s, stop := After(INIT, before), StopMiner(owner, m, order);
    RunConcat(INIT, before, [stop] + rest);
    assert ([stop] + rest)[0] == stop && ([stop] + rest)[1..] == rest;
    RunKeepsInv(before);
    StepKeepsInv(s, stop);
    AllCancellable(s, m, order);
    CancelAllJobs(s, m, order);
    RunHalted(Next(s, stop), rest, m, SamplesOf(s.samples, m));
  }

  // ---------------------------------------------------------------------
  // Run finalisation
  // ---------------------------------------------------------------------

  function RunsClosed(runs: map<Id, Run>, m: Id, now: nat, acc: nat, rej: nat): map<Id, Run> {
    map r | r in runs :: if runs[r].miner == m && runs[r].stoppedAt.None? then Run(m, Some(now), acc, rej) else runs[r]
  }

  lemma {:induction false} CancelOneRuns(s: Sys, m: Id, j: Id)
    requires j in s.jobs
    ensures CancelOne(s, m, j).runs == RunsClosed(s.runs, m, s.now, TotalsOf(s, j).0, TotalsOf(s, j).1)
  {
    var w := s.jobs[j].worker;
    var u := SendTo(CancelSection(SetJobStatus(s, j, JobEnded), w, j), w, CancelJob(j));
    CancelOneReordered(s, m, j);
    assert u.runs == s.runs && u.now == s.now;
  }

  lemma {:induction false} ClosingTwice(runs: map<Id, Run>, m: Id, now: nat, acc: nat, rej: nat, acc': nat, rej': nat)
    ensures RunsClosed(RunsClosed(runs, m, now, acc, rej), m, now, acc', rej') == RunsClosed(runs, m, now, acc, rej)
  {
  }

  lemma {:induction false} CancelMoreRuns(s: Sys, m: Id, order: seq<Id>, runs: map<Id, Run>, acc: nat, rej: nat)
    requires Cancellable(s, order) && s.runs == RunsClosed(runs, m, s.now, acc, rej)
    ensures CancelAll(s, m, order).runs == s.runs
    decreases |order|
  {
    if order != [] {
      CancelStep(s, m, order);
      CancelOneRuns(s, m, order[0]);
      ClosingTwice(runs, m, s.now, acc, rej, TotalsOf(s, order[0]).0, TotalsOf(s, order[0]).1);
      CancelMoreRuns(CancelOne(s, m, order[0]), m, order[1..], runs, acc, rej);
    }
  }

  lemma {:induction false} TotalsAreSums(s: Sys, j: Id)
    requires Inv(s) && Open(s, j)
    ensures TotalsOf(s, j) == (SumAcc(s.samples, j), SumRej(s.samples, j))
  {
    assert IsOpen(s.jobs, j);
  }

  /** Only the first of the cancelled jobs reaches the runs, with exactly the sums of the samples stored for it. */
  lemma {:induction false} RunsAfterCancel(s: Sys, m: Id, order: seq<Id>)
    requires Inv(s) && Enumerates(order, OpenJobsOf(s, m)) && order != []
    ensures CancelAll(s, m, order).runs == RunsClosed(s.runs, m, s.now, SumAcc(s.samples, order[0]), SumRej(s.samples, order[0]))
  {
    AllCancellable(s, m, order);
    assert Open(s, order[0]);
    TotalsAreSums(s, order[0]);
    CancelStep(s, m, order);
    CancelOneRuns(s, m, order[0]);
    CancelMoreRuns(CancelOne(s, m, order[0]), m, order[1..], s.runs, SumAcc(s.samples, order[0]), SumRej(s.samples, order[0]));
  }

  predicate HasOpenRun(s: Sys, m: Id) { exists r :: r in s.runs && s.runs[r].miner == m && s.runs[r].stoppedAt.None? }

  /**
   CancelMiner in any reachable state: no open job of the miner is left, and an
   open run is left exactly when there was one and the miner had no open job.
   */
  lemma {:induction false} CancelLeavesNothingOpen(before: seq<Event>, m: Id, order: seq<Id>)
    requires Feasible(INIT, before) && Enumerates(order, OpenJobsOf(After(INIT, before), m))
    ensures var s, t := After(INIT, before), CancelAll(After(INIT, before), m, order);
            OpenJobsOf(t, m) == {} && (HasOpenRun(t, m) <==> HasOpenRun(s, m) && OpenJobsOf(s, m) == {})
  {
    var s := After(INIT, before);
    RunKeepsInv(before);
    NoOpenJobAfterCancel(s, m, order);
    OpenRunLeftIff(s, m, order);
  }

  lemma {:induction false} OpenRunLeftIff(s: Sys, m: Id, order: seq<Id>)
    requires Inv(s) && Enumerates(order, OpenJobsOf(s, m))
    ensures HasOpenRun(CancelAll(s, m, order), m) <==> HasOpenRun(s, m) && OpenJobsOf(s, m) == {}
  {
    if order == [] {
      NoneListed(s, m, order);
    } else {
      RunsAfterCancel(s, m, order);
      assert order[0] in OpenJobsOf(s, m);
    }
  }

  lemma {:induction false} NoneListed(s: Sys, m: Id, order: seq<Id>)
    requires Enumerates(order, OpenJobsOf(s, m)) && order == []
    ensures OpenJobsOf(s, m) == {}
  {
  }

  function SumAccOver(xs: seq<Sample>, order: seq<Id>): nat {
    if order == [] then 0 else SumAcc(xs, order[0]) + SumAccOver(xs, order[1..])
  }

  function SumRejOver(xs: seq<Sample>, order: seq<Id>): nat {
    if order == [] then 0 else SumRej(xs, order[0]) + SumRejOver(xs, order[1..])
  }

  /**
   Run finalisation in any reachable state, for a miner with open jobs: every open
   run is closed with no more than the shares stored as samples for those jobs, and
   with exactly those if and only if the jobs after the first have none. In
   particular it is exact when there is one job.
   */
  lemma {:induction false} FinalisationConserves(before: seq<Event>, m: Id, order: seq<Id>, r: Id)
    requires Feasible(INIT, before) && Enumerates(order, OpenJobsOf(After(INIT, before), m)) && order != []
    requires var s := After(INIT, before); r in s.runs && s.runs[r].miner == m && s.runs[r].stoppedAt.None?
    ensures var s, t := After(INIT, before), CancelAll(After(INIT, before), m, order);
            && r in t.runs && t.runs[r].miner == m && t.runs[r].stoppedAt == Some(s.now)
            && t.runs[r].acc <= SumAccOver(s.samples, order) && t.runs[r].rej <= SumRejOver(s.samples, order)
            && (t.runs[r].acc == SumAccOver(s.samples, order) <==> SumAccOver(s.samples, order[1..]) == 0)
            && (t.runs[r].rej == SumRejOver(s.samples, order) <==> SumRejOver(s.samples, order[1..]) == 0)
            && (|order| == 1 ==> t.runs[r] == Run(m, Some(s.now), SumAcc(s.samples, order[0]), SumRej(s.samples, order[0])))
  {
    RunKeepsInv(before);
    RunsAfterCancel(After(INIT, before), m, order);
  }

  // ---------------------------------------------------------------------
  // Placement
  // ---------------------------------------------------------------------

  lemma {:induction false} PlacedOut(s: Sys, m: Id, w: Id)
    requires w in s.conns && CanSend(s, s.conns[w])
    ensures AssignTo(s, m, w).jobs == s.jobs[s.next := Job(m, w, JobAssigned, None)]
    ensures AssignTo(s, m, w).net == s.net[s.conns[w] := s.net[s.conns[w]].(down := s.net[s.conns[w]].down + [Assign(s.next)])]
    ensures AssignTo(s, m, w).runs == s.runs
  {
    var t := CreateJob(s, m, w, s.conns[w]);
    assert CanSend(t, s.conns[w]);
  }

  lemma {:induction false} PlacedLost(s: Sys, m: Id, w: Id)
    requires w in s.conns && !CanSend(s, s.conns[w])
    ensures AssignTo(s, m, w).jobs == s.jobs[s.next := Job(m, w, JobError, Some(s.now))]
    ensures AssignTo(s, m, w).net == s.net && AssignTo(s, m, w).runs == s.runs
  {
  }

  lemma {:induction false} StartedRun(s: Sys, m: Id)
    requires m in s.miners
    ensures var t := Started(s, m);
            && t.miners[m] == s.miners[m].(status := Queued) && s.next in t.runs && t.runs[s.next] == Run(m, None, 0, 0)
            && t.jobs == s.jobs && t.net == s.net && t.conns == s.conns && t.live == s.live && t.workers == s.workers
            && t.next == s.next + 1
  {
  }
}
