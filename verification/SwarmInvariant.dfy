/**
 The inductive invariant of the swarm: table integrity and placement, the
 coherence of the hub's maps, the order in which a job's messages travel, the
 share tally of every open job, and the miner status that goes with an open job.
 Each part is a predicate of just the fields it reads.
 */
module SwarmInvariant {

  import opened Base
  import opened Swarm
  import Shares

  type Jobs = map<Id, Job>
  type Net = map<Id, Session>
  type States = map<Id, JobState>
  type Homes = map<Id, Id>

  // ---------------------------------------------------------------------
  // Statement
  // ---------------------------------------------------------------------

  ghost predicate Below(ids: set<Id>, next: Id) { forall x | x in ids :: x < next }

  /** Ids handed out so far are below the next one. */
  ghost predicate Fresh(next: Id, miners: set<Id>, workers: set<Id>, conns: set<Id>, homes: set<Id>, runs: set<Id>, net: set<Id>) {
    Below(miners, next) && Below(workers, next) && Below(conns, next) && Below(homes, next) && Below(runs, next) && Below(net, next)
  }

  /** Every job pairs an existing miner with an existing non-browser worker of the same owner. */
  ghost predicate Placed(jobs: Jobs, miners: map<Id, Miner>, workers: map<Id, Worker>) {
    forall j | j in jobs ::
      && jobs[j].miner in miners && jobs[j].worker in workers
      && workers[jobs[j].worker].owner == miners[jobs[j].miner].owner
      && workers[jobs[j].worker].kind != Browser
  }

  /** A job has an end exactly when its status says so. */
  ghost predicate Ends(jobs: Jobs) {
    forall j | j in jobs :: jobs[j].endedAt.None? <==> jobs[j].status == JobAssigned || jobs[j].status == JobAck
  }

  /** Every job ever created has a home session, with the worker it was created for. */
  ghost predicate Housed(jobs: Jobs, homes: Homes, net: Net) {
    && (forall j | j in homes :: homes[j] in net)
    && (forall j | j in jobs :: j in homes && homes[j] in net && net[homes[j]].worker == jobs[j].worker)
  }

  /** The hub indexes only jobs that were created, and under their own miner. */
  ghost predicate Indexed(states: States, jobs: Jobs, homes: Homes) {
    forall j | j in states :: j in homes && (j in jobs ==> states[j].miner == jobs[j].miner)
  }

  ghost predicate SamplesOk(samples: seq<Sample>, jobs: Jobs, homes: Homes) {
    forall x | x in samples :: x.job in homes && (x.job in jobs ==> jobs[x.job].miner == x.miner)
  }

  ghost predicate RunsOk(runs: map<Id, Run>, miners: set<Id>) {
    forall r | r in runs :: runs[r].miner in miners
  }

  ghost predicate RevokedOk(workers: map<Id, Worker>) {
    forall w | w in workers :: workers[w].revokedAt.Some? <==> workers[w].status == Revoked
  }

  /** conns and live have the same keys, and a registered session is that worker's and still served. */
  ghost predicate Paired(conns: map<Id, Id>, live: set<Id>, net: Net) {
    && conns.Keys == live
    && forall w | w in conns :: conns[w] in net && net[conns[w]].worker == w && net[conns[w]].serving
  }

  ghost predicate LiveOk(live: map<Id, Live>, workers: map<Id, Worker>) {
    forall w | w in live && w in workers :: live[w].owner == workers[w].owner && live[w].kind == workers[w].kind
  }

  /** A live worker's jobs are in the hub's index with the same miner, and are its own. */
  ghost predicate LiveJobs(live: map<Id, Live>, states: States, homes: Homes, net: Net) {
    forall w, j | w in live && j in live[w].jobs ::
      && j in states && states[j].miner == live[w].jobs[j]
      && j in homes && homes[j] in net && net[homes[j]].worker == w
  }

  predicate IsOpen(jobs: Jobs, j: Id) { j in jobs && jobs[j].endedAt.None? }

  ghost predicate Active(st: MinerStatus) { st == Queued || st == Running || st == Errored }

  ghost predicate Statuses(jobs: Jobs, miners: map<Id, Miner>) {
    forall j | IsOpen(jobs, j) :: jobs[j].miner in miners && Active(miners[jobs[j].miner].status)
  }

  function SumAcc(xs: seq<Sample>, j: Id): nat {
    if xs == [] then 0 else SumAcc(xs[..|xs| - 1], j) + (if xs[|xs| - 1].job == j then xs[|xs| - 1].acc else 0)
  }

  function SumRej(xs: seq<Sample>, j: Id): nat {
    if xs == [] then 0 else SumRej(xs[..|xs| - 1], j) + (if xs[|xs| - 1].job == j then xs[|xs| - 1].rej else 0)
  }

  /** The hub's running totals of an open job are the sums of the samples stored for it. */
  ghost predicate Tally(jobs: Jobs, states: States, samples: seq<Sample>) {
    forall j | IsOpen(jobs, j) ::
      if j in states then states[j].totAcc == SumAcc(samples, j) && states[j].totRej == SumRej(samples, j)
      else SumAcc(samples, j) == 0 && SumRej(samples, j) == 0
  }

  /** A job whose acknowledgement no longer matters: it has arrived, or the job is over. */
  ghost predicate Known(states: set<Id>, jobs: Jobs, j: Id) { j in states || !IsOpen(jobs, j) }

  ghost predicate InUp(up: seq<ToServer>, j: Id) { exists i :: 0 <= i < |up| && up[i].job == j }

  ghost predicate Mentions(x: Session, j: Id) {
    j in x.running || Assign(j) in x.down || InUp(x.up, j)
  }

  /** A job is assigned at most once, and only before anything else happens to it. */
  ghost predicate DownOk(x: Session, states: set<Id>) {
    && (forall i, k | 0 <= i < k < |x.down| && x.down[i].Assign? && x.down[k].Assign? :: x.down[i].job != x.down[k].job)
    && (forall j | Assign(j) in x.down :: j !in x.running && j !in states && !InUp(x.up, j))
  }

  /** A job is acknowledged at most once, and acknowledged before anything is reported for it. */
  ghost predicate UpOk(x: Session, states: set<Id>, jobs: Jobs) {
    && (forall i, k | 0 <= i < k < |x.up| && x.up[i].Ack? && x.up[k].Ack? :: x.up[i].job != x.up[k].job)
    && (forall j, ok | Ack(j, ok) in x.up :: j !in states && (!ok ==> j !in x.running))
    && (forall k | 0 <= k < |x.up| && x.up[k].Metrics? :: Known(states, jobs, x.up[k].job) || Ack(x.up[k].job, true) in x.up[..k])
    && (x.phase == Up ==> forall j | j in x.running :: Known(states, jobs, j) || Ack(j, true) in x.up)
  }

  /** Every job a session mentions is at home there. */
  ghost predicate AtHome(x: Session, c: Id, homes: Homes) {
    forall j | Mentions(x, j) :: j in homes && homes[j] == c
  }

  ghost predicate Sessions(net: Net, homes: Homes, states: set<Id>, jobs: Jobs) {
    forall c | c in net :: AtHome(net[c], c, homes) && DownOk(net[c], states) && UpOk(net[c], states, jobs)
  }

  ghost predicate Inv(s: Sys) {
    && Fresh(s.next, s.miners.Keys, s.workers.Keys, s.conns.Keys, s.homes.Keys, s.runs.Keys, s.net.Keys)
    && Placed(s.jobs, s.miners, s.workers)
    && Ends(s.jobs)
    && Housed(s.jobs, s.homes, s.net)
    && Indexed(s.states, s.jobs, s.homes)
    && SamplesOk(s.samples, s.jobs, s.homes)
    && RunsOk(s.runs, s.miners.Keys)
    && RevokedOk(s.workers)
    && Paired(s.conns, s.live.Keys, s.net)
    && LiveOk(s.live, s.workers)
    && LiveJobs(s.live, s.states, s.homes, s.net)
    && Statuses(s.jobs, s.miners)
    && Tally(s.jobs, s.states, s.samples)
    && Sessions(s.net, s.homes, s.states.Keys, s.jobs)
  }

  // ---------------------------------------------------------------------
  // Sessions under a changing server
  // ---------------------------------------------------------------------

  /** The server moved on without forgetting a job's home, an acknowledgement, or the end of a job. */
  ghost predicate Moved(homes: Homes, states: set<Id>, jobs: Jobs, homes': Homes, states': set<Id>, jobs': Jobs) {
    forall j | j in homes ::
      && j in homes' && homes'[j] == homes[j]
      && (j in states' ==> j in states)
      && (Known(states, jobs, j) ==> Known(states', jobs', j))
  }

  /** The same session, perhaps with a message that assigns nothing queued to it, or hung up. */
  ghost predicate Told(x: Session, y: Session) {
    && y.worker == x.worker && y.up == x.up && y.running <= x.running
    && (y.down == x.down || exists msg: ToWorker :: !msg.Assign? && y.down == x.down + [msg])
    && (y.phase == Up ==> x.phase == Up)
  }

  lemma {:induction false} ToldDown(x: Session, y: Session)
    requires Told(x, y)
    ensures forall i | 0 <= i < |y.down| && y.down[i].Assign? :: i < |x.down| && x.down[i] == y.down[i]
    ensures forall j | Assign(j) in y.down :: Assign(j) in x.down
  {
  }

  lemma {:induction false} SessionFrame(x: Session, y: Session, c: Id, homes: Homes, states: set<Id>, jobs: Jobs,
                                        homes': Homes, states': set<Id>, jobs': Jobs)
    requires AtHome(x, c, homes) && DownOk(x, states) && UpOk(x, states, jobs)
    requires Moved(homes, states, jobs, homes', states', jobs') && Told(x, y)
    ensures AtHome(y, c, homes') && DownOk(y, states') && UpOk(y, states', jobs')
  {
    ToldDown(x, y);
    forall j | Mentions(y, j) ensures Mentions(x, j) {}
    forall j | j in x.running ensures Mentions(x, j) {}
    forall i | 0 <= i < |x.up| ensures Mentions(x, x.up[i].job) { assert InUp(x.up, x.up[i].job); }
    forall j | Assign(j) in x.down ensures Mentions(x, j) {}
    forall j, ok | Ack(j, ok) in x.up ensures Mentions(x, j) {
      var i :| 0 <= i < |x.up| && x.up[i] == Ack(j, ok);
      assert x.up[i].job == j;
    }
  }

  lemma {:induction false} SessionsFrame(net: Net, homes: Homes, states: set<Id>, jobs: Jobs,
                                         net': Net, homes': Homes, states': set<Id>, jobs': Jobs)
    requires Sessions(net, homes, states, jobs)
    requires Moved(homes, states, jobs, homes', states', jobs')
    requires net'.Keys == net.Keys && forall c | c in net :: Told(net[c], net'[c])
    ensures Sessions(net', homes', states', jobs')
  {
    forall c | c in net'
      ensures AtHome(net'[c], c, homes') && DownOk(net'[c], states') && UpOk(net'[c], states', jobs')
    {
      SessionFrame(net[c], net'[c], c, homes, states, jobs, homes', states', jobs');
    }
  }

  /** No session changes, only what the server knows. */
  lemma {:induction false} SessionsStay(net: Net, homes: Homes, states: set<Id>, jobs: Jobs, homes': Homes,
      states': set<Id>, jobs': Jobs)
    requires Sessions(net, homes, states, jobs)
    requires Moved(homes, states, jobs, homes', states', jobs')
    ensures Sessions(net, homes', states', jobs')
  {
    NetUntouched(net);
    SessionsFrame(net, homes, states, jobs, net, homes', states', jobs');
  }

  // ---------------------------------------------------------------------
  // Sums of samples
  // ---------------------------------------------------------------------

  lemma {:induction false} SumsSnoc(xs: seq<Sample>, x: Sample, j: Id)
    ensures SumAcc(xs + [x], j) == SumAcc(xs, j) + (if x.job == j then x.acc else 0)
    ensures SumRej(xs + [x], j) == SumRej(xs, j) + (if x.job == j then x.rej else 0)
  {
    assert (xs + [x])[..|xs|] == xs;
  }

  lemma {:induction false} SumsAbsent(xs: seq<Sample>, j: Id)
    requires forall x | x in xs :: x.job != j
    ensures SumAcc(xs, j) == 0 && SumRej(xs, j) == 0
  {
    if xs != [] {
      assert xs[|xs| - 1] in xs;
      SumsAbsent(xs[..|xs| - 1], j);
    }
  }

  lemma {:induction false} FilteredSnoc(pre: seq<Sample>, x: Sample, m: Id)
    ensures SamplesWithout(pre + [x], m) == SamplesWithout(pre, m) + (if x.miner != m then [x] else [])
  {
    var p := (y: Sample) => y.miner != m;
    FilterConcat(p, pre, [x]);
    FilterOne(p, x);
  }

  lemma {:induction false} SumsFiltered(xs: seq<Sample>, m: Id, j: Id)
    requires forall x | x in xs && x.job == j :: x.miner != m
    ensures SumAcc(SamplesWithout(xs, m), j) == SumAcc(xs, j)
    ensures SumRej(SamplesWithout(xs, m), j) == SumRej(xs, j)
  {
    if xs != [] {
      var pre, x := xs[..|xs| - 1], xs[|xs| - 1];
      assert xs == pre + [x] && x in xs;
      assert forall y | y in pre :: y in xs;
      SumsFiltered(pre, m, j);
      FilteredSnoc(pre, x, m);
      SumsSnoc(SamplesWithout(pre, m), x, j);
      assert SamplesWithout(pre, m) + [] == SamplesWithout(pre, m);
    }
  }

  lemma {:induction false} FilterOne(p: Sample -> bool, x: Sample)
    ensures Filter(p, [x]) == if p(x) then [x] else []
  {
    assert [x][1..] == [];
  }

  // ---------------------------------------------------------------------
  // Rows that no session depends on
  // ---------------------------------------------------------------------

  /** miners' only gains rows or changes their status, never to an inactive one under an open job. */
  ghost predicate Staffed(jobs: Jobs, miners: map<Id, Miner>, miners': map<Id, Miner>) {
    && (forall m | m in miners :: m in miners' && miners'[m].owner == miners[m].owner)
    && (forall j | IsOpen(jobs, j) && jobs[j].miner in miners && Active(miners[jobs[j].miner].status) :: Active(miners'[jobs[j].miner].status))
  }

  lemma {:induction false} StaffedKeeps(jobs: Jobs, miners: map<Id, Miner>, workers: map<Id, Worker>,
      runs: map<Id, Run>, miners': map<Id, Miner>)
    requires Placed(jobs, miners, workers) && RunsOk(runs, miners.Keys) && Statuses(jobs, miners)
    requires Staffed(jobs, miners, miners')
    ensures Placed(jobs, miners', workers) && RunsOk(runs, miners'.Keys) && Statuses(jobs, miners')
  {
  }

  lemma {:induction false} MinersKeep(s: Sys, next: Id, miners: map<Id, Miner>)
    requires Inv(s) && Staffed(s.jobs, s.miners, miners) && s.next <= next && Below(miners.Keys, next)
    ensures Inv(s.(next := next, miners := miners))
  {
    StaffedKeeps(s.jobs, s.miners, s.workers, s.runs, miners);
  }

  lemma {:induction false} StaffedByCreation(jobs: Jobs, miners: map<Id, Miner>, next: Id, row: Miner)
    requires Below(miners.Keys, next)
    ensures Staffed(jobs, miners, miners[next := row]) && Below(miners[next := row].Keys, next + 1)
  {
    assert next !in miners;
  }

  lemma {:induction false} CreateMinerKeeps(s: Sys, owner: string, hasWallet: bool, simulated: bool)
    requires Inv(s)
    ensures Inv(Next(s, CreateMiner(owner, hasWallet, simulated)))
  {
    var row := Miner(owner, Created, hasWallet, simulated);
    StaffedByCreation(s.jobs, s.miners, s.next, row);
    MinersKeep(s, s.next + 1, s.miners[s.next := row]);
  }

  lemma {:induction false} WorkerAdded(jobs: Jobs, miners: map<Id, Miner>, workers: map<Id, Worker>,
      live: map<Id, Live>, w: Id, row: Worker)
    requires Placed(jobs, miners, workers) && RevokedOk(workers) && LiveOk(live, workers)
    requires w !in workers && w !in live && row.status != Revoked && row.revokedAt.None?
    ensures Placed(jobs, miners, workers[w := row]) && RevokedOk(workers[w := row]) && LiveOk(live, workers[w := row])
  {
  }

  lemma {:induction false} EnrollWorkerKeeps(s: Sys, owner: string, kind: Kind)
    requires Inv(s)
    ensures Inv(Next(s, EnrollWorker(owner, kind)))
  {
    assert s.next !in s.workers && s.next !in s.conns;
    WorkerAdded(s.jobs, s.miners, s.workers, s.live, s.next, Worker(owner, kind, Enrolled, None));
  }

  lemma {:induction false} StaffedByStatus(s: Sys, m: Id, st: MinerStatus)
    requires m in s.miners && (Active(st) || OpenJobsOf(s, m) == {})
    ensures Staffed(s.jobs, s.miners, s.miners[m := s.miners[m].(status := st)])
  {
    forall j | IsOpen(s.jobs, j) && s.jobs[j].miner == m ensures Active(st) { assert j in OpenJobsOf(s, m); }
  }

  lemma {:induction false} SetMinerStatusKeeps(s: Sys, m: Id, st: MinerStatus)
    requires Inv(s) && (Active(st) || OpenJobsOf(s, m) == {})
    ensures Inv(SetMinerStatus(s, m, st))
  {
    if m in s.miners {
      StaffedByStatus(s, m, st);
      MinersKeep(s, s.next, s.miners[m := s.miners[m].(status := st)]);
    }
  }

  lemma {:induction false} WorkerStatusRow(jobs: Jobs, miners: map<Id, Miner>, workers: map<Id, Worker>,
      live: map<Id, Live>, w: Id, st: WorkerStatus)
    requires Placed(jobs, miners, workers) && RevokedOk(workers) && LiveOk(live, workers)
    requires w in workers && workers[w].status != Revoked && st != Revoked
    ensures var workers' := workers[w := workers[w].(status := st)];
            Placed(jobs, miners, workers') && RevokedOk(workers') && LiveOk(live, workers') && workers'.Keys == workers.Keys
  {
  }

  lemma {:induction false} WorkersWithKeep(jobs: Jobs, miners: map<Id, Miner>, workers: map<Id, Worker>,
      live: map<Id, Live>, w: Id, st: WorkerStatus)
    requires Placed(jobs, miners, workers) && RevokedOk(workers) && LiveOk(live, workers) && st != Revoked
    ensures var workers' := WorkersWith(workers, w, st);
            Placed(jobs, miners, workers') && RevokedOk(workers') && LiveOk(live, workers') && workers'.Keys == workers.Keys
  {
    if w in workers && workers[w].status != Revoked {
      WorkerStatusRow(jobs, miners, workers, live, w, st);
    }
  }

  lemma {:induction false} SetWorkerStatusKeeps(s: Sys, w: Id, st: WorkerStatus)
    requires Inv(s) && st != Revoked
    ensures Inv(SetWorkerStatus(s, w, st))
  {
    WorkersWithKeep(s.jobs, s.miners, s.workers, s.live, w, st);
  }

  lemma {:induction false} RunOpened(runs: map<Id, Run>, miners: set<Id>, next: Id, row: Run)
    requires RunsOk(runs, miners) && Below(runs.Keys, next) && row.miner in miners
    ensures RunsOk(runs[next := row], miners) && Below(runs[next := row].Keys, next + 1)
  {
  }

  lemma {:induction false} OpenRunKeeps(s: Sys, m: Id)
    requires Inv(s) && m in s.miners
    ensures Inv(OpenRun(s, m))
  {
    RunOpened(s.runs, s.miners.Keys, s.next, Run(m, None, 0, 0));
    var runs := s.runs[s.next := Run(m, None, 0, 0)];
    assert Fresh(s.next + 1, s.miners.Keys, s.workers.Keys, s.conns.Keys, s.homes.Keys, runs.Keys, s.net.Keys);
  }

  lemma {:induction false} CloseRunKeeps(s: Sys, m: Id, acc: nat, rej: nat)
    requires Inv(s)
    ensures Inv(CloseRun(s, m, acc, rej))
  {
    assert CloseRun(s, m, acc, rej).runs.Keys == s.runs.Keys;
  }

  lemma {:induction false} RevokedRow(jobs: Jobs, miners: map<Id, Miner>, workers: map<Id, Worker>,
      live: map<Id, Live>, w: Id, now: nat)
    requires Placed(jobs, miners, workers) && RevokedOk(workers) && LiveOk(live, workers) && w in workers
    ensures var workers' := workers[w := workers[w].(status := Revoked, revokedAt := Some(now))];
            Placed(jobs, miners, workers') && RevokedOk(workers') && LiveOk(live, workers') && workers'.Keys == workers.Keys
  {
  }

  lemma {:induction false} MarkRevokedKeeps(s: Sys, owner: string, w: Id)
    requires Inv(s)
    ensures Inv(MarkRevoked(s, owner, w))
  {
    if w in s.workers && s.workers[w].owner == owner && s.workers[w].revokedAt.None? {
      RevokedRow(s.jobs, s.miners, s.workers, s.live, w, s.now);
    }
  }

  // ---------------------------------------------------------------------
  // Jobs ending and disappearing
  // ---------------------------------------------------------------------

  /** Rows may be closed or dropped, and their status may change while they stay open. */
  ghost predicate Shrunk(jobs: Jobs, jobs': Jobs) {
    forall j | j in jobs' ::
      && j in jobs && jobs'[j].miner == jobs[j].miner && jobs'[j].worker == jobs[j].worker
      && (jobs'[j].endedAt.None? ==> jobs[j].endedAt.None?)
  }

  lemma {:induction false} ShrunkRows(jobs: Jobs, jobs': Jobs, miners: map<Id, Miner>, workers: map<Id, Worker>,
      homes: Homes, net: Net,
                                       states: States, samples: seq<Sample>)
    requires Shrunk(jobs, jobs')
    ensures Placed(jobs, miners, workers) ==> Placed(jobs', miners, workers)
    ensures Housed(jobs, homes, net) ==> Housed(jobs', homes, net)
    ensures Indexed(states, jobs, homes) ==> Indexed(states, jobs', homes)
    ensures SamplesOk(samples, jobs, homes) ==> SamplesOk(samples, jobs', homes)
    ensures Statuses(jobs, miners) ==> Statuses(jobs', miners)
    ensures Tally(jobs, states, samples) ==> Tally(jobs', states, samples)
    ensures Moved(homes, states.Keys, jobs, homes, states.Keys, jobs')
  {
  }

  lemma {:induction false} JobsKeep(s: Sys, jobs: Jobs)
    requires Inv(s) && Shrunk(s.jobs, jobs) && Ends(jobs)
    ensures Inv(s.(jobs := jobs))
  {
    ShrunkRows(s.jobs, jobs, s.miners, s.workers, s.homes, s.net, s.states, s.samples);
    NetUntouched(s.net);
    SessionsFrame(s.net, s.homes, s.states.Keys, s.jobs, s.net, s.homes, s.states.Keys, jobs);
  }

  lemma {:induction false} NetUntouched(net: Net)
    ensures forall c | c in net :: Told(net[c], net[c])
  {
  }

  lemma {:induction false} ShrunkByStatus(s: Sys, j: Id, st: JobStatus)
    requires Ends(s.jobs) && (st == JobAck ==> Open(s, j)) && st != JobAssigned
    ensures Shrunk(s.jobs, SetJobStatus(s, j, st).jobs) && Ends(SetJobStatus(s, j, st).jobs)
  {
  }

  lemma {:induction false} SetJobStatusKeeps(s: Sys, j: Id, st: JobStatus)
    requires Inv(s) && (st == JobAck ==> Open(s, j)) && st != JobAssigned
    ensures Inv(SetJobStatus(s, j, st))
  {
    ShrunkByStatus(s, j, st);
    JobsKeep(s, SetJobStatus(s, j, st).jobs);
  }

  lemma {:induction false} EndJobsKeeps(s: Sys, w: Id)
    requires Inv(s)
    ensures Inv(EndJobsOfWorker(s, w))
  {
    ShrunkByEnding(s, w);
    JobsKeep(s, EndJobsOfWorker(s, w).jobs);
  }

  lemma {:induction false} ShrunkByEnding(s: Sys, w: Id)
    requires Ends(s.jobs)
    ensures Shrunk(s.jobs, EndJobsOfWorker(s, w).jobs) && Ends(EndJobsOfWorker(s, w).jobs)
  {
  }

  lemma {:induction false} JobsDropped(jobs: Jobs, jobs': Jobs)
    requires Ends(jobs) && forall j | j in jobs' :: j in jobs && jobs'[j] == jobs[j]
    ensures Shrunk(jobs, jobs') && Ends(jobs')
  {
  }

  lemma {:induction false} WorkerGone(jobs: Jobs, miners: map<Id, Miner>, workers: map<Id, Worker>,
      live: map<Id, Live>, w: Id)
    requires Placed(jobs, miners, workers) && forall j | j in jobs :: jobs[j].worker != w
    ensures Placed(jobs, miners, workers - {w})
    ensures RevokedOk(workers) ==> RevokedOk(workers - {w})
    ensures LiveOk(live, workers) ==> LiveOk(live, workers - {w})
  {
  }

  lemma {:induction false} DropWorkerKeeps(s: Sys, owner: string, w: Id)
    requires Inv(s)
    ensures Inv(DropWorker(s, owner, w))
  {
    if w in s.workers && s.workers[w].owner == owner {
      var jobs := WithoutWorker(s.jobs, w);
      var t := s.(jobs := jobs);
      assert DropWorker(s, owner, w) == t.(workers := t.workers - {w});
      JobsDropped(s.jobs, jobs);
      JobsKeep(s, jobs);
      WorkerRowKeeps(t, w);
    }
  }

  lemma {:induction false} WorkerRowKeeps(s: Sys, w: Id)
    requires Inv(s) && forall j | j in s.jobs :: s.jobs[j].worker != w
    ensures Inv(s.(workers := s.workers - {w}))
  {
    WorkerGone(s.jobs, s.miners, s.workers, s.live, w);
    assert (s.workers - {w}).Keys <= s.workers.Keys;
  }

  lemma {:induction false} MinerGone(jobs: Jobs, miners: map<Id, Miner>, workers: map<Id, Worker>, runs: map<Id, Run>,
      m: Id)
    requires Placed(jobs, miners, workers) && Statuses(jobs, miners) && RunsOk(runs, miners.Keys)
    requires forall j | j in jobs :: jobs[j].miner != m
    ensures Placed(jobs, miners - {m}, workers) && Statuses(jobs, miners - {m})
    ensures RunsOk(RunsWithout(runs, m), (miners - {m}).Keys)
  {
  }

  lemma {:induction false} SamplesGone(jobs: Jobs, homes: Homes, states: States, samples: seq<Sample>, m: Id)
    requires SamplesOk(samples, jobs, homes) && Tally(jobs, states, samples) && forall j | j in jobs :: jobs[j].miner != m
    ensures SamplesOk(SamplesWithout(samples, m), jobs, homes)
    ensures Tally(jobs, states, SamplesWithout(samples, m))
  {
    var left := SamplesWithout(samples, m);
    forall x | x in left ensures x in samples { FilterMember((x: Sample) => x.miner != m, samples, x); }
    forall j | IsOpen(jobs, j) ensures SumAcc(left, j) == SumAcc(samples, j) && SumRej(left, j) == SumRej(samples, j) {
      SumsFiltered(samples, m, j);
    }
  }

  lemma {:induction false} DropMinerKeeps(s: Sys, owner: string, m: Id)
    requires Inv(s)
    ensures Inv(DropMiner(s, owner, m))
  {
    if Owns(s, owner, m) {
      var jobs := WithoutMiner(s.jobs, m);
      var t := s.(jobs := jobs);
      assert DropMiner(s, owner, m) == MinerRowDropped(t, m);
      JobsDropped(s.jobs, jobs);
      JobsKeep(s, jobs);
      MinerRowKeeps(t, m);
    }
  }

  function MinerRowDropped(s: Sys, m: Id): Sys {
    s.(miners := s.miners - {m},
       runs := RunsWithout(s.runs, m),
       samples := SamplesWithout(s.samples, m))
  }

  lemma {:induction false} MinerRowKeeps(s: Sys, m: Id)
    requires Inv(s) && forall j | j in s.jobs :: s.jobs[j].miner != m
    ensures Inv(MinerRowDropped(s, m))
  {
    MinerGone(s.jobs, s.miners, s.workers, s.runs, m);
    SamplesGone(s.jobs, s.homes, s.states, s.samples, m);
    assert (s.miners - {m}).Keys <= s.miners.Keys;
    assert RunsWithout(s.runs, m).Keys <= s.runs.Keys;
  }

  // ---------------------------------------------------------------------
  // Connections
  // ---------------------------------------------------------------------

  /** What the tables and maps need of the sessions: who the worker is, and that registered ones are served. */
  ghost predicate SameEnds(net: Net, net': Net, conns: map<Id, Id>) {
    && net'.Keys == net.Keys
    && (forall c | c in net :: net'[c].worker == net[c].worker)
    && (forall w | w in conns && conns[w] in net && net[conns[w]].serving :: net'[conns[w]].serving)
  }

  lemma {:induction false} SameEndsKeeps(net: Net, net': Net, jobs: Jobs, homes: Homes, conns: map<Id, Id>,
      live: map<Id, Live>, states: States)
    requires SameEnds(net, net', conns)
    ensures Housed(jobs, homes, net) ==> Housed(jobs, homes, net')
    ensures Paired(conns, live.Keys, net) ==> Paired(conns, live.Keys, net')
    ensures LiveJobs(live, states, homes, net) ==> LiveJobs(live, states, homes, net')
  {
  }

  lemma {:induction false} NothingMoved(homes: Homes, states: set<Id>, jobs: Jobs)
    ensures Moved(homes, states, jobs, homes, states, jobs)
  {
  }

  /** Only sessions change, and only by being told something or hung up. */
  lemma {:induction false} SessionsToldKeep(s: Sys, net: Net)
    requires Inv(s) && SameEnds(s.net, net, s.conns) && forall c | c in s.net :: Told(s.net[c], net[c])
    ensures Inv(s.(net := net))
  {
    SameEndsKeeps(s.net, net, s.jobs, s.homes, s.conns, s.live, s.states);
    NothingMoved(s.homes, s.states.Keys, s.jobs);
    SessionsFrame(s.net, s.homes, s.states.Keys, s.jobs, net, s.homes, s.states.Keys, s.jobs);
  }

  lemma {:induction false} OneTold(net: Net, conns: map<Id, Id>, c: Id, y: Session)
    requires c in net && Told(net[c], y) && (net[c].serving ==> y.serving)
    ensures SameEnds(net, net[c := y], conns) && forall d | d in net :: Told(net[d], net[c := y][d])
  {
    NetUntouched(net);
  }

  lemma {:induction false} NetKeeps(s: Sys, c: Id, y: Session)
    requires Inv(s) && c in s.net && Told(s.net[c], y) && (s.net[c].serving ==> y.serving)
    ensures Inv(s.(net := s.net[c := y]))
  {
    OneTold(s.net, s.conns, c, y);
    SessionsToldKeep(s, s.net[c := y]);
  }

  lemma {:induction false} SendKeeps(s: Sys, c: Id, msg: ToWorker)
    requires Inv(s) && !msg.Assign?
    ensures Inv(Send(s, c, msg))
  {
    if CanSend(s, c) {
      NetKeeps(s, c, s.net[c].(down := s.net[c].down + [msg]));
    }
  }

  lemma {:induction false} RevokingTold(net: Net, conns: map<Id, Id>, w: Id)
    ensures SameEnds(net, NetRevoking(net, conns, w), conns)
    ensures forall d | d in net :: Told(net[d], NetRevoking(net, conns, w)[d])
  {
    if w in conns && conns[w] in net && net[conns[w]].phase == Up {
      var c := conns[w];
      OneTold(net, conns, c, net[c].(down := net[c].down + [RevokeMsg], phase := Closing));
    } else {
      NetUntouched(net);
    }
  }

  lemma {:induction false} HubRevokeKeeps(s: Sys, w: Id)
    requires Inv(s)
    ensures Inv(HubRevoke(s, w))
  {
    RevokingTold(s.net, s.conns, w);
    SessionsToldKeep(s, NetRevoking(s.net, s.conns, w));
  }

  lemma {:induction false} BreakKeeps(s: Sys, c: Id)
    requires Inv(s) && c in s.net
    ensures Inv(s.(net := s.net[c := s.net[c].(phase := Down)]))
  {
    NetKeeps(s, c, s.net[c].(phase := Down));
  }

  lemma {:induction false} SessionEndKeeps(s: Sys, c: Id)
    requires Inv(s) && Enabled(s, SessionEnd(c))
    ensures Inv(Next(s, SessionEnd(c)))
  {
    var x := s.net[c];
    NetKeeps(s, c, x.(listening := false, running := {}, phase := Hangup(x.phase)));
  }

  lemma {:induction false} UnregisterMaps(net: Net, conns: map<Id, Id>, live: map<Id, Live>, workers: map<Id, Worker>,
      states: States, homes: Homes, w: Id)
    requires Paired(conns, live.Keys, net) && LiveOk(live, workers) && LiveJobs(live, states, homes, net)
    ensures Paired(conns - {w}, (live - {w}).Keys, net) && LiveOk(live - {w}, workers) && LiveJobs(live - {w}, states, homes, net)
    ensures (conns - {w}).Keys <= conns.Keys
  {
  }

  lemma {:induction false} UnregisterKeeps(s: Sys, w: Id)
    requires Inv(s)
    ensures Inv(UnregisterSection(s, w))
  {
    UnregisterMaps(s.net, s.conns, s.live, s.workers, s.states, s.homes, w);
  }

  lemma {:induction false} ServerEndKeeps(s: Sys, c: Id)
    requires Inv(s) && Enabled(s, ServerEnd(c))
    ensures Inv(Next(s, ServerEnd(c)))
  {
    var x := s.net[c];
    var y := x.(serving := false, phase := Hangup(x.phase));
    var t := UnregisterSection(s, x.worker);
    var u := t.(net := t.net[c := y]);
    assert Next(s, ServerEnd(c)) == SetWorkerStatus(u, x.worker, Offline);
    UnregisterKeeps(s, x.worker);
    HangUpKeeps(s, t, c, y);
    SetWorkerStatusKeeps(u, x.worker, Offline);
  }

  lemma {:induction false} HangUpKeeps(s: Sys, t: Sys, c: Id, y: Session)
    requires Paired(s.conns, s.live.Keys, s.net) && c in s.net && Told(s.net[c], y)
    requires t == UnregisterSection(s, s.net[c].worker) && Inv(t)
    ensures Inv(t.(net := t.net[c := y]))
  {
    UnregisteredUnserved(s.net, s.conns, s.live.Keys, c, y);
    SessionsToldKeep(t, t.net[c := y]);
  }

  lemma {:induction false} UnregisteredUnserved(net: Net, conns: map<Id, Id>, live: set<Id>, c: Id, y: Session)
    requires Paired(conns, live, net) && c in net && Told(net[c], y)
    ensures SameEnds(net, net[c := y], conns - {net[c].worker})
    ensures forall d | d in net :: Told(net[d], net[c := y][d])
  {
    NetUntouched(net);
  }

  lemma {:induction false} NewSession(net: Net, homes: Homes, states: States, jobs: Jobs, conns: map<Id, Id>,
      live: map<Id, Live>, c: Id, w: Id)
    requires c !in net
    ensures var net' := net[c := Session(w, [], [], Up, true, true, {})];
            && (Sessions(net, homes, states.Keys, jobs) ==> Sessions(net', homes, states.Keys, jobs))
            && (Housed(jobs, homes, net) ==> Housed(jobs, homes, net'))
            && (Paired(conns, live.Keys, net) ==> Paired(conns, live.Keys, net'))
            && (LiveJobs(live, states, homes, net) ==> LiveJobs(live, states, homes, net'))
  {
  }

  lemma {:induction false} OpenSessionKeeps(s: Sys, w: Id)
    requires Inv(s)
    ensures Inv(s.(next := s.next + 1, net := s.net[s.next := Session(w, [], [], Up, true, true, {})]))
  {
    assert s.next !in s.net;
    NewSession(s.net, s.homes, s.states, s.jobs, s.conns, s.live, s.next, w);
  }

  lemma {:induction false} RegisterMaps(net: Net, conns: map<Id, Id>, live: map<Id, Live>, workers: map<Id, Worker>,
      states: States, homes: Homes, w: Id, c: Id, l: Live)
    requires w in workers && c in net && net[c].worker == w && net[c].serving
    requires l == Live(workers[w].owner, workers[w].kind, map[])
    ensures Paired(conns, live.Keys, net) ==> Paired(conns[w := c], live[w := l].Keys, net)
    ensures LiveOk(live, workers) ==> LiveOk(live[w := l], workers)
    ensures LiveJobs(live, states, homes, net) ==> LiveJobs(live[w := l], states, homes, net)
  {
  }

  lemma {:induction false} RegisterMapsKeep(s: Sys, w: Id, c: Id, l: Live)
    requires Inv(s) && w in s.workers && c in s.net && s.net[c].worker == w && s.net[c].serving
    requires l == Live(s.workers[w].owner, s.workers[w].kind, map[])
    ensures Inv(s.(conns := s.conns[w := c], live := s.live[w := l]))
  {
    RegisterMaps(s.net, s.conns, s.live, s.workers, s.states, s.homes, w, c, l);
    assert s.conns[w := c].Keys == s.conns.Keys + {w};
  }

  lemma {:induction false} RegisterKeeps(s: Sys, w: Id, c: Id)
    requires Inv(s) && w in s.workers && c in s.net && s.net[c].worker == w && s.net[c].serving
    ensures Inv(RegisterSection(s, w, s.workers[w].owner, s.workers[w].kind, c))
  {
    var l := Live(s.workers[w].owner, s.workers[w].kind, map[]);
    if w in s.conns && s.conns[w] in s.net {
      var t := s.(net := s.net[s.conns[w] := s.net[s.conns[w]].(phase := Down)]);
      assert RegisterSection(s, w, l.owner, l.kind, c) == t.(conns := t.conns[w := c], live := t.live[w := l]);
      BreakKeeps(s, s.conns[w]);
      RegisterMapsKeep(t, w, c, l);
    } else {
      RegisterMapsKeep(s, w, c, l);
    }
  }

  lemma {:induction false} JoinedForm(s: Sys, w: Id, t: Sys, u: Sys)
    requires w in s.workers && t == s.(next := s.next + 1, net := s.net[s.next := Session(w, [], [], Up, true, true, {})])
    requires u == RegisterSection(t, w, s.workers[w].owner, s.workers[w].kind, s.next)
    ensures Joined(s, w) == SetWorkerStatus(u, w, Connected)
  {
  }

  lemma {:induction false} JoinedKeeps(s: Sys, w: Id)
    requires Inv(s) && w in s.workers
    ensures Inv(Joined(s, w))
  {
    var t := s.(next := s.next + 1, net := s.net[s.next := Session(w, [], [], Up, true, true, {})]);
    var u := RegisterSection(t, w, s.workers[w].owner, s.workers[w].kind, s.next);
    JoinedForm(s, w, t, u);
    OpenSessionKeeps(s, w);
    RegisterKeeps(t, w, s.next);
    SetWorkerStatusKeeps(u, w, Connected);
  }
}
