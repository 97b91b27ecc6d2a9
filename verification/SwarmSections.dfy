/**
 The same server one critical section and one SQL statement at a time. Handlers
 interleave freely: a step needs only what its handler has read at some earlier
 moment, however stale. What was read is kept for ever, so every interleaving of
 any number of handlers is a run here. Sends change no table and no hub map and
 are left out.
 */
module SwarmSections {

  import opened Base
  import opened Swarm
  import opened SwarmInvariant
  import SwarmTheorems

  // ---------------------------------------------------------------------
  // Steps
  // ---------------------------------------------------------------------

  /** What AuthenticateWorker returned. */
  datatype Credential = Credential(worker: Id, owner: string, kind: Kind)

  /** A row returned by ActiveJobForWorker or ActiveJobsForMiner. */
  datatype Row = Row(job: Id, worker: Id, miner: Id)

  /** A target of Assign's scan. */
  datatype Target = Target(miner: Id, worker: Id)

  // startable: miners that handleStartMiner has read and found startable
  datatype Fine = Fine(s: Sys, auth: set<Credential>, seen: set<Row>, scanned: set<Target>, checked: set<Target>, startable: set<Id>)

  const START := Fine(INIT, {}, {}, {}, {}, {})

  datatype Step =
    | CreateMiner(owner: string, hasWallet: bool, simulated: bool)
    | EnrollWorker(owner: string, kind: Kind)
    // reads
    | Authenticate(w: Id)
    | LookUp(j: Id)
    | Scan(t: Target)
    | GetWorker(t: Target)
    | ReadMiner(m: Id)
    // statements
    | AckStatus(row: Row, ok: bool)
    | MarkQueued(m: Id)
    | MarkStopped(m: Id)
    | WorkerStatus(w: Id, worker: WorkerStatus)
    | JobStatus(row: Row, job: JobStatus)
    | InsertJob(t: Target)
    | FailJob(j: Id)
    | OpenRun(m: Id)
    | CloseRun(m: Id, acc: nat, rej: nat)
    | InsertSample(row: Row, acc: nat, rej: nat)
    | MarkRevoked(owner: string, w: Id)
    | EndJobs(w: Id)
    | DropWorker(owner: string, w: Id)
    | DropMiner(owner: string, m: Id)
    // critical sections
    | Register(a: Credential)
    | Unregister(w: Id)
    | IndexAck(row: Row)
    | IndexMetrics(row: Row, acc: nat, rej: nat)
    | Forget(row: Row)
    | Tick(to: nat)

  predicate Ready(f: Fine, e: Step) {
    match e
    case Authenticate(w) => w in f.s.workers && f.s.workers[w].revokedAt.None?
    case LookUp(j) => Open(f.s, j)
    case Scan(t) => Eligible(f.s, t.miner, t.worker)
    case GetWorker(t) => t in f.scanned && WorkerStillThere(f.s, t.miner, t.worker)
    case ReadMiner(m) => m in f.s.miners && Startable(f.s, f.s.miners[m].owner, m)
    case AckStatus(row, _) => row in f.seen
    case MarkQueued(m) => m in f.startable
    case WorkerStatus(_, st) => st != Revoked
    case JobStatus(row, st) => row in f.seen && st != JobAssigned
    case InsertJob(t) => t in f.checked && t.miner in f.s.miners && t.worker in f.s.workers
    case FailJob(j) => j in f.s.homes
    case InsertSample(row, _, _) => row in f.seen && row.miner in f.s.miners
    case OpenRun(m) => m in f.s.miners
    case Register(a) => a in f.auth
    case IndexAck(row) => row in f.seen
    case IndexMetrics(row, _, _) => row in f.seen
    case Forget(row) => row in f.seen
    case Tick(to) => f.s.now <= to
    case _ => true
  }

  function RowOf(jobs: Jobs, j: Id): Row
    requires j in jobs
  {
    Row(j, jobs[j].worker, jobs[j].miner)
  }

  predicate OnMiner(e: Step) { e.AckStatus? || e.MarkQueued? || e.MarkStopped? }

  predicate OnJob(e: Step) { e.JobStatus? || e.FailJob? || e.EndJobs? || e.InsertJob? }

  predicate OnWorker(e: Step) { e.WorkerStatus? || e.MarkRevoked? }

  predicate OnRun(e: Step) { e.OpenRun? || e.CloseRun? || e.InsertSample? }

  predicate Adds(e: Step) { e.CreateMiner? || e.EnrollWorker? }

  predicate Drops(e: Step) { e.DropWorker? || e.DropMiner? }

  predicate OnMaps(e: Step) { e.Register? || e.Unregister? || e.IndexAck? || e.IndexMetrics? || e.Forget? }

  /** What a statement or critical section does to the shared state. */
  function Effect(s: Sys, e: Step): Sys {
    match e
    case CreateMiner(owner, hasWallet, simulated) =>
      s.(next := s.next + 1, miners := s.miners[s.next := Miner(owner, Created, hasWallet, simulated)])
    case EnrollWorker(owner, kind) => s.(next := s.next + 1, workers := s.workers[s.next := Worker(owner, kind, Enrolled, None)])
    case AckStatus(row, ok) => SetMinerStatus(s, row.miner, if ok then Running else Errored)
    case MarkQueued(m) => SetMinerStatus(s, m, Queued)
    case MarkStopped(m) => SetMinerStatus(s, m, Stopped)
    case WorkerStatus(w, st) => SetWorkerStatus(s, w, st)
    case JobStatus(row, st) => SetJobStatus(s, row.job, st)
    case InsertJob(t) => CreateJob(s, t.miner, t.worker, s.next)
    case FailJob(j) => SetJobStatus(s, j, JobError)
    case OpenRun(m) => Swarm.OpenRun(s, m)
    case CloseRun(m, acc, rej) => Swarm.CloseRun(s, m, acc, rej)
    case InsertSample(row, acc, rej) => Swarm.InsertSample(s, row.miner, row.job, acc, rej)
    case MarkRevoked(owner, w) => Swarm.MarkRevoked(s, owner, w)
    case EndJobs(w) => EndJobsOfWorker(s, w)
    case DropWorker(owner, w) => Swarm.DropWorker(s, owner, w)
    case DropMiner(owner, m) => Swarm.DropMiner(s, owner, m)
    case Register(a) => RegisterSection(s.(next := s.next + 1), a.worker, a.owner, a.kind, s.next)
    case Unregister(w) => UnregisterSection(s, w)
    case IndexAck(row) => AckSection(s, row.worker, row.job, row.miner)
    case IndexMetrics(row, acc, rej) => MetricsSection(s, row.job, row.miner, acc, rej)
    case Forget(row) => CancelSection(s, row.worker, row.job)
    case Tick(to) => s.(now := to)
    case _ => s
  }

  function Do(f: Fine, e: Step): Fine
    requires Ready(f, e)
  {
    match e
    case Authenticate(w) => f.(auth := f.auth + {Credential(w, f.s.workers[w].owner, f.s.workers[w].kind)})
    case LookUp(j) => f.(seen := f.seen + {RowOf(f.s.jobs, j)})
    case Scan(t) => f.(scanned := f.scanned + {t})
    case GetWorker(t) => f.(checked := f.checked + {t})
    case ReadMiner(m) => f.(startable := f.startable + {m})
    case _ => f.(s := Effect(f.s, e))
  }

  ghost predicate Runs(f: Fine, run: seq<Step>)
    decreases |run|
  {
    run == [] || (Ready(f, run[0]) && Runs(Do(f, run[0]), run[1..]))
  }

  ghost function End(f: Fine, run: seq<Step>): Fine
    requires Runs(f, run)
    decreases |run|
  {
    if run == [] then f else End(Do(f, run[0]), run[1..])
  }

  // ---------------------------------------------------------------------
  // What holds between any two steps
  // ---------------------------------------------------------------------

  /** Ids are never handed out twice. */
  ghost predicate Issued(next: Id, miners: set<Id>, workers: set<Id>, homes: set<Id>, jobs: set<Id>, live: set<Id>) {
    Below(miners, next) && Below(workers, next) && Below(homes, next) && Below(live, next) && jobs <= homes
  }

  ghost predicate AuthOk(auth: set<Credential>, workers: map<Id, Worker>, next: Id) {
    forall a | a in auth :: a.worker < next && (a.worker in workers ==> workers[a.worker].owner == a.owner && workers[a.worker].kind == a.kind)
  }

  /** Rows read earlier still tell the truth about their job, whether or not it still exists. */
  ghost predicate SeenOk(seen: set<Row>, jobs: Jobs, homes: Homes) {
    && (forall r | r in seen :: r.job in homes && (r.job in jobs ==> RowOf(jobs, r.job) == r))
    && (forall r, q | r in seen && q in seen && r.job == q.job :: r == q)
  }

  ghost predicate ScannedOk(scanned: set<Target>, workers: map<Id, Worker>, next: Id) {
    forall t | t in scanned :: t.miner < next && t.worker < next && (t.worker in workers ==> workers[t.worker].kind != Browser)
  }

  ghost predicate CheckedOk(checked: set<Target>, miners: map<Id, Miner>, workers: map<Id, Worker>) {
    forall t | t in checked :: t.miner in miners && t.worker in workers ==> workers[t.worker].owner == miners[t.miner].owner
  }

  /** Every job in a live worker's Jobs was looked up for that worker and is in the hub's index with the same miner. */
  ghost predicate LiveIndexed(live: map<Id, Live>, states: States, seen: set<Row>) {
    forall w, j | w in live && j in live[w].jobs ::
      Row(j, w, live[w].jobs[j]) in seen && j in states && states[j].miner == live[w].jobs[j]
  }

  /** An index entry carries the miner its job was looked up with. */
  ghost predicate StatesSeen(states: States, seen: set<Row>) {
    && (forall j | j in states :: exists r :: r in seen && r.job == j)
    && (forall r | r in seen && r.job in states :: states[r.job].miner == r.miner)
  }

  ghost predicate FineInv(f: Fine) {
    && Issued(f.s.next, f.s.miners.Keys, f.s.workers.Keys, f.s.homes.Keys, f.s.jobs.Keys, f.s.live.Keys)
    && Placed(f.s.jobs, f.s.miners, f.s.workers)
    && RevokedOk(f.s.workers)
    && f.s.conns.Keys == f.s.live.Keys
    && LiveOk(f.s.live, f.s.workers)
    && AuthOk(f.auth, f.s.workers, f.s.next)
    && SeenOk(f.seen, f.s.jobs, f.s.homes)
    && ScannedOk(f.scanned, f.s.workers, f.s.next)
    && f.checked <= f.scanned && CheckedOk(f.checked, f.s.miners, f.s.workers)
    && LiveIndexed(f.s.live, f.s.states, f.seen)
    && StatesSeen(f.s.states, f.seen)
  }

  // ---------------------------------------------------------------------
  // Tables
  // ---------------------------------------------------------------------

  /** Rows may appear under fresh ids, disappear, or change without changing owner or kind. */
  ghost predicate SameWorkers(workers: map<Id, Worker>, next: Id, workers': map<Id, Worker>) {
    forall w | w in workers' && w < next :: w in workers && workers'[w].owner == workers[w].owner && workers'[w].kind == workers[w].kind
  }

  ghost predicate SameMiners(miners: map<Id, Miner>, next: Id, miners': map<Id, Miner>) {
    forall m | m in miners' && m < next :: m in miners && miners'[m].owner == miners[m].owner
  }

  lemma {:induction false} KnowledgeAges(f: Fine, miners: map<Id, Miner>, workers: map<Id, Worker>, next: Id)
    requires AuthOk(f.auth, f.s.workers, f.s.next) && ScannedOk(f.scanned, f.s.workers, f.s.next)
    requires f.checked <= f.scanned && CheckedOk(f.checked, f.s.miners, f.s.workers)
    requires LiveOk(f.s.live, f.s.workers) && Below(f.s.live.Keys, f.s.next)
    requires SameMiners(f.s.miners, f.s.next, miners) && SameWorkers(f.s.workers, f.s.next, workers) && f.s.next <= next
    ensures AuthOk(f.auth, workers, next) && ScannedOk(f.scanned, workers, next)
    ensures CheckedOk(f.checked, miners, workers) && LiveOk(f.s.live, workers)
  {
    forall t | t in f.checked && t.miner in miners && t.worker in workers
      ensures workers[t.worker].owner == miners[t.miner].owner
    {
      assert t in f.scanned;
    }
  }

  /** The placement of the jobs that are left survives. */
  ghost predicate StillPlaced(jobs: Jobs, jobs': Jobs, miners: map<Id, Miner>, miners': map<Id, Miner>,
                              workers: map<Id, Worker>, workers': map<Id, Worker>) {
    forall j | j in jobs' ::
      && j in jobs && RowOf(jobs', j) == RowOf(jobs, j)
      && jobs[j].miner in miners' && jobs[j].worker in workers'
  }

  lemma {:induction false} TablesKeep(f: Fine, t: Sys)
    requires FineInv(f) && t.next >= f.s.next
    requires t.homes == f.s.homes && t.conns == f.s.conns && t.live == f.s.live && t.states == f.s.states
    requires Below(t.miners.Keys, t.next) && Below(t.workers.Keys, t.next) && RevokedOk(t.workers)
    requires SameMiners(f.s.miners, f.s.next, t.miners) && SameWorkers(f.s.workers, f.s.next, t.workers)
    requires StillPlaced(f.s.jobs, t.jobs, f.s.miners, t.miners, f.s.workers, t.workers)
    ensures FineInv(f.(s := t))
  {
    KnowledgeAges(f, t.miners, t.workers, t.next);
    PlacedStays(f.s.jobs, t.jobs, f.s.miners, t.miners, f.s.workers, t.workers, f.s.next);
    SeenStays(f.seen, f.s.jobs, t.jobs, f.s.homes);
  }

  lemma {:induction false} PlacedStays(jobs: Jobs, jobs': Jobs, miners: map<Id, Miner>, miners': map<Id, Miner>,
                                       workers: map<Id, Worker>, workers': map<Id, Worker>, next: Id)
    requires Placed(jobs, miners, workers) && StillPlaced(jobs, jobs', miners, miners', workers, workers')
    requires Below(miners.Keys, next) && Below(workers.Keys, next)
    requires SameMiners(miners, next, miners') && SameWorkers(workers, next, workers')
    ensures Placed(jobs', miners', workers')
  {
    forall j | j in jobs'
      ensures jobs'[j].miner in miners' && jobs'[j].worker in workers'
      ensures workers'[jobs'[j].worker].owner == miners'[jobs'[j].miner].owner && workers'[jobs'[j].worker].kind != Browser
    {
      var m, w := jobs[j].miner, jobs[j].worker;
      assert m in miners && w in workers && m < next && w < next;
    }
  }

  lemma {:induction false} SeenStays(seen: set<Row>, jobs: Jobs, jobs': Jobs, homes: Homes)
    requires SeenOk(seen, jobs, homes) && forall j | j in jobs' :: j in jobs && RowOf(jobs', j) == RowOf(jobs, j)
    ensures SeenOk(seen, jobs', homes)
  {
  }

  lemma {:induction false} InsertJobKeeps(f: Fine, t: Target)
    requires FineInv(f) && Ready(f, InsertJob(t))
    ensures FineInv(Do(f, InsertJob(t)))
  {
    var j, u := f.s.next, Effect(f.s, InsertJob(t));
    assert t in f.scanned;
    assert j !in f.s.homes;
    KnowledgeAges(f, u.miners, u.workers, u.next);
    SeenGrows(f.seen, f.s.jobs, f.s.homes, j, Job(t.miner, t.worker, JobAssigned, None));
    assert u.homes.Keys == f.s.homes.Keys + {j} && u.jobs.Keys == f.s.jobs.Keys + {j};
  }

  lemma {:induction false} SeenGrows(seen: set<Row>, jobs: Jobs, homes: Homes, j: Id, job: Job)
    requires SeenOk(seen, jobs, homes) && j !in homes
    ensures SeenOk(seen, jobs[j := job], homes[j := j])
  {
  }

  lemma {:induction false} MinerStatusRow(jobs: Jobs, miners: map<Id, Miner>, workers: map<Id, Worker>, next: Id,
      m: Id, row: Miner)
    requires Placed(jobs, miners, workers) && m in miners && row.owner == miners[m].owner
    ensures SameMiners(miners, next, miners[m := row]) && miners[m := row].Keys == miners.Keys
    ensures StillPlaced(jobs, jobs, miners, miners[m := row], workers, workers)
  {
  }

  lemma {:induction false} MinerStatusKeeps(f: Fine, m: Id, st: MinerStatus)
    requires FineInv(f)
    ensures FineInv(f.(s := SetMinerStatus(f.s, m, st)))
  {
    if m in f.s.miners {
      MinerStatusRow(f.s.jobs, f.s.miners, f.s.workers, f.s.next, m, f.s.miners[m].(status := st));
      TablesKeep(f, SetMinerStatus(f.s, m, st));
    }
  }

  lemma {:induction false} WorkerStatusRows(workers: map<Id, Worker>, next: Id, w: Id, st: WorkerStatus)
    requires RevokedOk(workers) && Below(workers.Keys, next) && st != Revoked
    ensures var workers' := WorkersWith(workers, w, st);
            RevokedOk(workers') && workers'.Keys == workers.Keys && SameWorkers(workers, next, workers')
  {
  }

  lemma {:induction false} WorkerStatusKeeps(f: Fine, w: Id, st: WorkerStatus)
    requires FineInv(f) && st != Revoked
    ensures FineInv(f.(s := SetWorkerStatus(f.s, w, st)))
  {
    WorkerStatusRows(f.s.workers, f.s.next, w, st);
    TablesKeep(f, SetWorkerStatus(f.s, w, st));
  }

  lemma {:induction false} JobRowReplaced(jobs: Jobs, miners: map<Id, Miner>, workers: map<Id, Worker>, j: Id, row: Job)
    requires Placed(jobs, miners, workers) && j in jobs && row.miner == jobs[j].miner && row.worker == jobs[j].worker
    ensures StillPlaced(jobs, jobs[j := row], miners, miners, workers, workers)
  {
  }

  lemma {:induction false} JobRowKeeps(f: Fine, j: Id, row: Job)
    requires FineInv(f) && j in f.s.jobs && row.miner == f.s.jobs[j].miner && row.worker == f.s.jobs[j].worker
    ensures FineInv(f.(s := f.s.(jobs := f.s.jobs[j := row])))
  {
    JobRowReplaced(f.s.jobs, f.s.miners, f.s.workers, j, row);
    TablesKeep(f, f.s.(jobs := f.s.jobs[j := row]));
  }

  lemma {:induction false} JobStatusKeeps(f: Fine, j: Id, st: JobStatus)
    requires FineInv(f)
    ensures FineInv(f.(s := SetJobStatus(f.s, j, st)))
  {
    if j in f.s.jobs && st != JobEnded && st != JobError {
      JobRowKeeps(f, j, f.s.jobs[j].(status := st));
    } else if j in f.s.jobs && f.s.jobs[j].endedAt.None? {
      JobRowKeeps(f, j, f.s.jobs[j].(status := st, endedAt := Some(f.s.now)));
    }
  }

  lemma {:induction false} StatusKeeps(f: Fine, e: Step)
    requires FineInv(f) && Ready(f, e) && (e.AckStatus? || e.MarkQueued? || e.MarkStopped? || e.WorkerStatus? || e.JobStatus? || e.FailJob?)
    ensures FineInv(Do(f, e))
  {
    match e
    case AckStatus(row, ok) => MinerStatusKeeps(f, row.miner, if ok then Running else Errored);
    case MarkQueued(m) => MinerStatusKeeps(f, m, Queued);
    case MarkStopped(m) => MinerStatusKeeps(f, m, Stopped);
    case WorkerStatus(w, st) => WorkerStatusKeeps(f, w, st);
    case JobStatus(row, st) => JobStatusKeeps(f, row.job, st);
    case FailJob(j) => JobStatusKeeps(f, j, JobError);
  }

  lemma {:induction false} CreateKeeps(f: Fine, e: Step)
    requires FineInv(f) && (e.CreateMiner? || e.EnrollWorker?)
    ensures FineInv(Do(f, e))
  {
    assert f.s.next !in f.s.miners && f.s.next !in f.s.workers;
    TablesKeep(f, Effect(f.s, e));
  }

  lemma {:induction false} RevokedRow(workers: map<Id, Worker>, next: Id, owner: string, w: Id, now: nat)
    requires RevokedOk(workers)
    ensures var workers' := WorkersRevoking(workers, owner, w, now);
            RevokedOk(workers') && workers'.Keys == workers.Keys && SameWorkers(workers, next, workers')
  {
  }

  lemma {:induction false} RevokeKeeps(f: Fine, owner: string, w: Id)
    requires FineInv(f)
    ensures FineInv(Do(f, MarkRevoked(owner, w)))
  {
    RevokedRow(f.s.workers, f.s.next, owner, w, f.s.now);
    TablesKeep(f, Swarm.MarkRevoked(f.s, owner, w));
  }

  lemma {:induction false} EndJobsKeeps(f: Fine, w: Id)
    requires FineInv(f)
    ensures FineInv(Do(f, EndJobs(w)))
  {
    TablesKeep(f, EndJobsOfWorker(f.s, w));
  }

  lemma {:induction false} WorkerDropped(jobs: Jobs, miners: map<Id, Miner>, workers: map<Id, Worker>, next: Id, w: Id)
    requires Placed(jobs, miners, workers) && RevokedOk(workers) && Below(workers.Keys, next)
    ensures RevokedOk(workers - {w}) && Below((workers - {w}).Keys, next) && SameWorkers(workers, next, workers - {w})
    ensures StillPlaced(jobs, WithoutWorker(jobs, w), miners, miners, workers, workers - {w})
  {
  }

  lemma {:induction false} DropWorkerKeeps(f: Fine, owner: string, w: Id)
    requires FineInv(f)
    ensures FineInv(Do(f, DropWorker(owner, w)))
  {
    if w in f.s.workers && f.s.workers[w].owner == owner {
      WorkerDropped(f.s.jobs, f.s.miners, f.s.workers, f.s.next, w);
      TablesKeep(f, Swarm.DropWorker(f.s, owner, w));
    }
  }

  lemma {:induction false} MinerDropped(jobs: Jobs, miners: map<Id, Miner>, workers: map<Id, Worker>, next: Id, m: Id)
    requires Placed(jobs, miners, workers) && Below(miners.Keys, next)
    ensures Below((miners - {m}).Keys, next) && SameMiners(miners, next, miners - {m})
    ensures StillPlaced(jobs, WithoutMiner(jobs, m), miners, miners - {m}, workers, workers)
  {
  }

  lemma {:induction false} DropMinerKeeps(f: Fine, owner: string, m: Id)
    requires FineInv(f)
    ensures FineInv(Do(f, DropMiner(owner, m)))
  {
    if Owns(f.s, owner, m) {
      MinerDropped(f.s.jobs, f.s.miners, f.s.workers, f.s.next, m);
      TablesKeep(f, Swarm.DropMiner(f.s, owner, m));
    }
  }

  lemma {:induction false} RunRowsKeep(f: Fine, e: Step)
    requires FineInv(f) && Ready(f, e) && (e.OpenRun? || e.CloseRun? || e.InsertSample? || e.Tick?)
    ensures FineInv(Do(f, e))
  {
    TablesKeep(f, Effect(f.s, e));
  }

  // ---------------------------------------------------------------------
  // Reads
  // ---------------------------------------------------------------------

  lemma {:induction false} LookUpKeeps(f: Fine, j: Id)
    requires FineInv(f) && Open(f.s, j)
    ensures FineInv(Do(f, LookUp(j)))
  {
    var r := RowOf(f.s.jobs, j);
    assert j in f.s.homes;
    forall q | q in f.seen && q.job == j ensures q == r {}
  }

  lemma {:induction false} ReadKeeps(f: Fine, e: Step)
    requires FineInv(f) && Ready(f, e) && (e.Authenticate? || e.Scan? || e.GetWorker? || e.ReadMiner?)
    ensures FineInv(Do(f, e))
  {
  }

  // ---------------------------------------------------------------------
  // Critical sections
  // ---------------------------------------------------------------------

  lemma {:induction false} RegisterKeeps(f: Fine, a: Credential)
    requires FineInv(f) && a in f.auth
    ensures FineInv(Do(f, Register(a)))
  {
    var l := f.s.live[a.worker := Live(a.owner, a.kind, map[])];
    assert f.s.conns[a.worker := f.s.next].Keys == l.Keys;
    KnowledgeAges(f, f.s.miners, f.s.workers, f.s.next + 1);
    LiveRegistered(f.s.live, f.s.states, f.seen, f.s.workers, a);
  }

  lemma {:induction false} SeenLive(live: map<Id, Live>, states: States, seen: set<Row>, w: Id, j: Id)
    requires LiveIndexed(live, states, seen) && w in live && j in live[w].jobs
    ensures Row(j, w, live[w].jobs[j]) in seen && j in states && states[j].miner == live[w].jobs[j]
  {
  }

  lemma {:induction false} LiveRegistered(live: map<Id, Live>, states: States, seen: set<Row>,
      workers: map<Id, Worker>, a: Credential)
    requires LiveIndexed(live, states, seen) && LiveOk(live, workers)
    requires a.worker in workers ==> workers[a.worker].owner == a.owner && workers[a.worker].kind == a.kind
    ensures var l := live[a.worker := Live(a.owner, a.kind, map[])]; LiveIndexed(l, states, seen) && LiveOk(l, workers)
  {
    var l := live[a.worker := Live(a.owner, a.kind, map[])];
    forall w, j | w in l && j in l[w].jobs
      ensures Row(j, w, l[w].jobs[j]) in seen && j in states && states[j].miner == l[w].jobs[j]
    {
      SeenLive(live, states, seen, w, j);
    }
  }

  lemma {:induction false} LiveUnregistered(live: map<Id, Live>, states: States, seen: set<Row>,
      workers: map<Id, Worker>, w: Id)
    requires LiveIndexed(live, states, seen) && LiveOk(live, workers)
    ensures LiveIndexed(live - {w}, states, seen) && LiveOk(live - {w}, workers)
  {
    var l := live - {w};
    forall v, j | v in l && j in l[v].jobs
      ensures Row(j, v, l[v].jobs[j]) in seen && j in states && states[j].miner == l[v].jobs[j]
    {
      SeenLive(live, states, seen, v, j);
    }
  }

  lemma {:induction false} UnregisterKeeps(f: Fine, w: Id)
    requires FineInv(f)
    ensures FineInv(Do(f, Unregister(w)))
  {
    LiveUnregistered(f.s.live, f.s.states, f.seen, f.s.workers, w);
    assert (f.s.conns - {w}).Keys == (f.s.live - {w}).Keys;
  }

  function LiveAcked(live: map<Id, Live>, r: Row): map<Id, Live> {
    if r.worker in live then live[r.worker := live[r.worker].(jobs := live[r.worker].jobs[r.job := r.miner])] else live
  }

  function LiveForgotten(live: map<Id, Live>, r: Row): map<Id, Live> {
    if r.worker in live then live[r.worker := live[r.worker].(jobs := live[r.worker].jobs - {r.job})] else live
  }

  lemma {:induction false} StatesIndexed(live: map<Id, Live>, states: States, seen: set<Row>, r: Row, b: JobState)
    requires LiveIndexed(live, states, seen) && StatesSeen(states, seen) && r in seen && b.miner == r.miner
    requires forall q, p | q in seen && p in seen && q.job == p.job :: q == p
    ensures LiveIndexed(live, states[r.job := b], seen) && StatesSeen(states[r.job := b], seen)
  {
    var states' := states[r.job := b];
    forall w, j | w in live && j in live[w].jobs
      ensures Row(j, w, live[w].jobs[j]) in seen && j in states' && states'[j].miner == live[w].jobs[j]
    {
      SeenLive(live, states, seen, w, j);
      assert j == r.job ==> Row(j, w, live[w].jobs[j]) == r;
    }
  }

  lemma {:induction false} AckIndexed(live: map<Id, Live>, states: States, seen: set<Row>, workers: map<Id, Worker>,
      r: Row)
    requires LiveIndexed(live, states, seen) && LiveOk(live, workers)
    requires r in seen && r.job in states && states[r.job].miner == r.miner
    ensures LiveIndexed(LiveAcked(live, r), states, seen)
    ensures LiveOk(LiveAcked(live, r), workers) && LiveAcked(live, r).Keys == live.Keys
  {
    var l := LiveAcked(live, r);
    forall w, j | w in l && j in l[w].jobs
      ensures Row(j, w, l[w].jobs[j]) in seen && j in states && states[j].miner == l[w].jobs[j]
    {
      if w == r.worker && j == r.job {
        assert Row(j, w, l[w].jobs[j]) == r;
      } else {
        assert w in live && j in live[w].jobs && l[w].jobs[j] == live[w].jobs[j];
        SeenLive(live, states, seen, w, j);
      }
    }
  }

  lemma {:induction false} IndexAckKeeps(f: Fine, r: Row)
    requires FineInv(f) && r in f.seen
    ensures FineInv(Do(f, IndexAck(r)))
  {
    var states := f.s.states[r.job := JobState(r.miner, 0, 0, 0, 0)];
    StatesIndexed(f.s.live, f.s.states, f.seen, r, JobState(r.miner, 0, 0, 0, 0));
    AckIndexed(f.s.live, states, f.seen, f.s.workers, r);
    assert Effect(f.s, IndexAck(r)) == f.s.(live := LiveAcked(f.s.live, r), states := f.s.states[r.job := JobState(r.miner, 0, 0, 0, 0)]);
  }

  lemma {:induction false} IndexMetricsKeeps(f: Fine, r: Row, acc: nat, rej: nat)
    requires FineInv(f) && r in f.seen
    ensures FineInv(Do(f, IndexMetrics(r, acc, rej)))
  {
    var b := Effect(f.s, IndexMetrics(r, acc, rej)).states[r.job];
    StatesIndexed(f.s.live, f.s.states, f.seen, r, b);
    assert Effect(f.s, IndexMetrics(r, acc, rej)) == f.s.(states := f.s.states[r.job := b]);
  }

  lemma {:induction false} Forgotten(live: map<Id, Live>, states: States, seen: set<Row>, r: Row)
    requires LiveIndexed(live, states, seen) && r in seen
    requires forall q, p | q in seen && p in seen && q.job == p.job :: q == p
    ensures LiveIndexed(LiveForgotten(live, r), states - {r.job}, seen)
  {
    var l := LiveForgotten(live, r);
    forall w, j | w in l && j in l[w].jobs
      ensures Row(j, w, l[w].jobs[j]) in seen && j in states - {r.job} && (states - {r.job})[j].miner == l[w].jobs[j]
    {
      assert w in live && j in live[w].jobs && l[w].jobs[j] == live[w].jobs[j];
      SeenLive(live, states, seen, w, j);
      assert j == r.job ==> w == r.worker;
    }
  }

  lemma {:induction false} ForgottenRest(live: map<Id, Live>, states: States, seen: set<Row>, workers: map<Id, Worker>,
      r: Row)
    requires StatesSeen(states, seen) && LiveOk(live, workers)
    ensures StatesSeen(states - {r.job}, seen)
    ensures LiveOk(LiveForgotten(live, r), workers) && LiveForgotten(live, r).Keys == live.Keys
  {
  }

  lemma {:induction false} ForgetKeeps(f: Fine, r: Row)
    requires FineInv(f) && r in f.seen
    ensures FineInv(Do(f, Forget(r)))
  {
    Forgotten(f.s.live, f.s.states, f.seen, r);
    ForgottenRest(f.s.live, f.s.states, f.seen, f.s.workers, r);
    assert Effect(f.s, Forget(r)) == f.s.(live := LiveForgotten(f.s.live, r), states := f.s.states - {r.job});
  }

  // ---------------------------------------------------------------------
  // Runs
  // ---------------------------------------------------------------------

  lemma {:induction false} StepKeeps(f: Fine, e: Step)
    requires FineInv(f) && Ready(f, e)
    ensures FineInv(Do(f, e))
  {
    match e
    case CreateMiner(_, _, _) => CreateKeeps(f, e);
    case EnrollWorker(_, _) => CreateKeeps(f, e);
    case LookUp(j) => LookUpKeeps(f, j);
    case Authenticate(_) => ReadKeeps(f, e);
    case Scan(_) => ReadKeeps(f, e);
    case GetWorker(_) => ReadKeeps(f, e);
    case ReadMiner(_) => ReadKeeps(f, e);
    case InsertJob(t) => InsertJobKeeps(f, t);
    case MarkRevoked(owner, w) => RevokeKeeps(f, owner, w);
    case EndJobs(w) => EndJobsKeeps(f, w);
    case DropWorker(owner, w) => DropWorkerKeeps(f, owner, w);
    case DropMiner(owner, m) => DropMinerKeeps(f, owner, m);
    case Register(a) => RegisterKeeps(f, a);
    case Unregister(w) => UnregisterKeeps(f, w);
    case IndexAck(r) => IndexAckKeeps(f, r);
    case IndexMetrics(r, acc, rej) => IndexMetricsKeeps(f, r, acc, rej);
    case Forget(r) => ForgetKeeps(f, r);
    case OpenRun(_) => RunRowsKeep(f, e);
    case CloseRun(_, _, _) => RunRowsKeep(f, e);
    case InsertSample(_, _, _) => RunRowsKeep(f, e);
    case Tick(_) => RunRowsKeep(f, e);
    case _ => StatusKeeps(f, e);
  }

  lemma {:induction false} RunsKeep(f: Fine, run: seq<Step>)
    requires FineInv(f) && Runs(f, run)
    ensures FineInv(End(f, run))
    decreases |run|
  {
    if run != [] {
      StepKeeps(f, run[0]);
      RunsKeep(Do(f, run[0]), run[1..]);
    }
  }

  /**
   Coherence of the hub's maps at lock granularity, in every interleaving: conns and
   live have the same keys, every job in a live worker's Jobs is in the hub's index
   with the same miner, and each job appears under one worker only.
   */
  lemma {:induction false} MapsCohere(run: seq<Step>)
    requires Runs(START, run)
    ensures var s := End(START, run).s;
            && s.conns.Keys == s.live.Keys
            && (forall w, j | w in s.live && j in s.live[w].jobs :: j in s.states && s.states[j].miner == s.live[w].jobs[j])
            && (forall w, v, j | w in s.live && v in s.live && j in s.live[w].jobs && j in s.live[v].jobs :: w == v)
  {
    RunsKeep(START, run);
    var f := End(START, run);
    OneWorkerEach(f.s.live, f.s.states, f.seen);
  }

  lemma {:induction false} OneWorkerEach(live: map<Id, Live>, states: States, seen: set<Row>)
    requires LiveIndexed(live, states, seen) && forall r, q | r in seen && q in seen && r.job == q.job :: r == q
    ensures forall w, j | w in live && j in live[w].jobs :: j in states && states[j].miner == live[w].jobs[j]
    ensures forall w, v, j | w in live && v in live && j in live[w].jobs && j in live[v].jobs :: w == v
  {
    forall w, v, j | w in live && v in live && j in live[w].jobs && j in live[v].jobs ensures w == v {
      SeenLive(live, states, seen, w, j);
      SeenLive(live, states, seen, v, j);
      assert Row(j, w, live[w].jobs[j]) == Row(j, v, live[v].jobs[j]);
    }
  }

  /** Placement at statement granularity: however stale the scan, every job pairs a miner with a non-browser worker of its owner. */
  lemma {:induction false} PlacedInEveryInterleaving(run: seq<Step>)
    requires Runs(START, run)
    ensures var s := End(START, run).s; Placed(s.jobs, s.miners, s.workers) && RevokedOk(s.workers)
  {
    RunsKeep(START, run);
  }

  // ---------------------------------------------------------------------
  // Terminal states
  // ---------------------------------------------------------------------

  ghost predicate JobsKept(jobs: Jobs, next: Id, jobs': Jobs) {
    forall j | j in jobs' && j < next :: j in jobs && (jobs[j].endedAt.Some? ==> jobs'[j].endedAt == jobs[j].endedAt)
  }

  ghost predicate WorkersKept(workers: map<Id, Worker>, next: Id, workers': map<Id, Worker>) {
    forall w | w in workers' && w < next :: w in workers && (workers[w].revokedAt.Some? ==> workers'[w] == workers[w])
  }

  /** What no statement does to an ended job or a revoked worker. */
  ghost predicate Kept(s: Sys, t: Sys) {
    s.next <= t.next && JobsKept(s.jobs, s.next, t.jobs) && WorkersKept(s.workers, s.next, t.workers)
  }

  lemma {:induction false} Untouched(s: Sys, t: Sys)
    requires t.jobs == s.jobs && t.workers == s.workers && s.next <= t.next
    ensures Kept(s, t)
  {
  }

  lemma {:induction false} OnlyJobs(s: Sys, t: Sys)
    requires t.workers == s.workers && s.next <= t.next && JobsKept(s.jobs, s.next, t.jobs)
    ensures Kept(s, t)
  {
  }

  lemma {:induction false} OnlyWorkers(s: Sys, t: Sys)
    requires t.jobs == s.jobs && s.next <= t.next && WorkersKept(s.workers, s.next, t.workers)
    ensures Kept(s, t)
  {
  }

  lemma {:induction false} JobRowOnce(jobs: Jobs, next: Id, j: Id, job: Job)
    requires j in jobs && (jobs[j].endedAt.Some? ==> job.endedAt == jobs[j].endedAt)
    ensures JobsKept(jobs, next, jobs[j := job])
  {
  }

  lemma {:induction false} JobsWithKept(jobs: Jobs, next: Id, j: Id, st: JobStatus, now: nat)
    ensures JobsKept(jobs, next, JobsWith(jobs, j, st, now))
  {
    if j in jobs && st != JobEnded && st != JobError {
      JobRowOnce(jobs, next, j, jobs[j].(status := st));
    } else if j in jobs && jobs[j].endedAt.None? {
      JobRowOnce(jobs, next, j, jobs[j].(status := st, endedAt := Some(now)));
    }
  }

  lemma {:induction false} JobStatusOnce(s: Sys, j: Id, st: JobStatus)
    ensures Kept(s, SetJobStatus(s, j, st))
  {
    JobsWithKept(s.jobs, s.next, j, st, s.now);
    OnlyJobs(s, SetJobStatus(s, j, st));
  }

  lemma {:induction false} EndJobsOnce(s: Sys, w: Id)
    ensures Kept(s, EndJobsOfWorker(s, w))
  {
    OnlyJobs(s, EndJobsOfWorker(s, w));
  }

  lemma {:induction false} InsertJobOnce(s: Sys, t: Target)
    ensures Kept(s, CreateJob(s, t.miner, t.worker, s.next))
  {
    OnlyJobs(s, CreateJob(s, t.miner, t.worker, s.next));
  }

  lemma {:induction false} WorkersWithKept(workers: map<Id, Worker>, next: Id, w: Id, st: WorkerStatus)
    requires RevokedOk(workers)
    ensures WorkersKept(workers, next, WorkersWith(workers, w, st))
  {
    if w in workers && workers[w].status != Revoked {
      WorkerRowOnce(workers, next, w, workers[w].(status := st));
    }
  }

  lemma {:induction false} WorkerStatusOnce(s: Sys, w: Id, st: WorkerStatus)
    requires RevokedOk(s.workers)
    ensures Kept(s, SetWorkerStatus(s, w, st))
  {
    WorkersWithKept(s.workers, s.next, w, st);
    OnlyWorkers(s, SetWorkerStatus(s, w, st));
  }

  lemma {:induction false} WorkerRowOnce(workers: map<Id, Worker>, next: Id, w: Id, row: Worker)
    requires w in workers && workers[w].revokedAt.None?
    ensures WorkersKept(workers, next, workers[w := row])
  {
  }

  lemma {:induction false} RevokingKept(workers: map<Id, Worker>, next: Id, owner: string, w: Id, now: nat)
    ensures WorkersKept(workers, next, WorkersRevoking(workers, owner, w, now))
  {
  }

  lemma {:induction false} RevokedOnce(s: Sys, owner: string, w: Id)
    ensures Kept(s, Swarm.MarkRevoked(s, owner, w))
  {
    RevokingKept(s.workers, s.next, owner, w, s.now);
    OnlyWorkers(s, Swarm.MarkRevoked(s, owner, w));
  }

  lemma {:induction false} RowsDroppedOnce(jobs: Jobs, workers: map<Id, Worker>, next: Id, w: Id)
    ensures JobsKept(jobs, next, WithoutWorker(jobs, w)) && WorkersKept(workers, next, workers - {w})
  {
  }

  lemma {:induction false} DropWorkerOnce(s: Sys, owner: string, w: Id)
    ensures Kept(s, Swarm.DropWorker(s, owner, w))
  {
    Untouched(s, s);
    RowsDroppedOnce(s.jobs, s.workers, s.next, w);
  }

  lemma {:induction false} DropMinerOnce(s: Sys, owner: string, m: Id)
    ensures Kept(s, Swarm.DropMiner(s, owner, m))
  {
    assert JobsKept(s.jobs, s.next, WithoutMiner(s.jobs, m));
  }

  lemma {:induction false} AckTouchesNoRow(s: Sys, w: Id, j: Id, m: Id)
    ensures Kept(s, AckSection(s, w, j, m))
  {
    Untouched(s, AckSection(s, w, j, m));
  }

  lemma {:induction false} MetricsTouchNoRow(s: Sys, j: Id, m: Id, acc: nat, rej: nat)
    ensures Kept(s, MetricsSection(s, j, m, acc, rej))
  {
    Untouched(s, MetricsSection(s, j, m, acc, rej));
  }

  lemma {:induction false} ForgetTouchesNoRow(s: Sys, w: Id, j: Id)
    ensures Kept(s, CancelSection(s, w, j))
  {
    Untouched(s, CancelSection(s, w, j));
  }

  lemma {:induction false} RegisterTouchesNoRow(s: Sys, a: Credential)
    ensures Kept(s, Effect(s, Register(a)))
  {
    Untouched(s, Effect(s, Register(a)));
  }

  lemma {:induction false} UnregisterTouchesNoRow(s: Sys, w: Id)
    ensures Kept(s, UnregisterSection(s, w))
  {
    Untouched(s, UnregisterSection(s, w));
  }

  lemma {:induction false} MinerStatusOnce(s: Sys, m: Id, st: MinerStatus)
    ensures Kept(s, SetMinerStatus(s, m, st))
  {
    Untouched(s, SetMinerStatus(s, m, st));
  }

  lemma {:induction false} RunsOnce(s: Sys, m: Id, acc: nat, rej: nat)
    ensures Kept(s, Swarm.OpenRun(s, m)) && Kept(s, Swarm.CloseRun(s, m, acc, rej))
  {
    Untouched(s, Swarm.OpenRun(s, m));
    Untouched(s, Swarm.CloseRun(s, m, acc, rej));
  }

  lemma {:induction false} NewWorkerOnce(s: Sys, owner: string, kind: Kind)
    ensures Kept(s, Effect(s, Step.EnrollWorker(owner, kind)))
  {
    OnlyWorkers(s, Effect(s, Step.EnrollWorker(owner, kind)));
  }

  lemma {:induction false} JobEffectKeeps(s: Sys, e: Step)
    requires OnJob(e)
    ensures Kept(s, Effect(s, e))
  {
    match e
    case JobStatus(r, st) => JobStatusOnce(s, r.job, st);
    case FailJob(j) => JobStatusOnce(s, j, JobError);
    case EndJobs(w) => EndJobsOnce(s, w);
    case InsertJob(t) => InsertJobOnce(s, t);
  }

  lemma {:induction false} MinerEffectKeeps(s: Sys, e: Step)
    requires OnMiner(e)
    ensures Kept(s, Effect(s, e))
  {
    match e
    case AckStatus(row, ok) => MinerStatusOnce(s, row.miner, if ok then Running else Errored);
    case MarkQueued(m) => MinerStatusOnce(s, m, Queued);
    case MarkStopped(m) => MinerStatusOnce(s, m, Stopped);
  }

  lemma {:induction false} WorkerEffectKeeps(s: Sys, e: Step)
    requires RevokedOk(s.workers) && OnWorker(e)
    ensures Kept(s, Effect(s, e))
  {
    match e
    case WorkerStatus(w, st) => WorkerStatusOnce(s, w, st);
    case MarkRevoked(owner, w) => RevokedOnce(s, owner, w);
  }

  lemma {:induction false} RunEffectKeeps(s: Sys, e: Step)
    requires OnRun(e)
    ensures Kept(s, Effect(s, e))
  {
    match e
    case OpenRun(m) => RunsOnce(s, m, 0, 0);
    case CloseRun(m, acc, rej) => RunsOnce(s, m, acc, rej);
    case InsertSample(_, _, _) => Untouched(s, Effect(s, e));
  }

  lemma {:induction false} AddEffectKeeps(s: Sys, e: Step)
    requires Adds(e)
    ensures Kept(s, Effect(s, e))
  {
    match e
    case EnrollWorker(owner, kind) => NewWorkerOnce(s, owner, kind);
    case CreateMiner(_, _, _) => Untouched(s, Effect(s, e));
  }

  lemma {:induction false} DropEffectKeeps(s: Sys, e: Step)
    requires Drops(e)
    ensures Kept(s, Effect(s, e))
  {
    match e
    case DropWorker(owner, w) => DropWorkerOnce(s, owner, w);
    case DropMiner(owner, m) => DropMinerOnce(s, owner, m);
  }

  lemma {:induction false} MapEffectKeeps(s: Sys, e: Step)
    requires OnMaps(e)
    ensures Kept(s, Effect(s, e))
  {
    match e
    case Register(a) => RegisterTouchesNoRow(s, a);
    case Unregister(w) => UnregisterTouchesNoRow(s, w);
    case IndexAck(row) => AckTouchesNoRow(s, row.worker, row.job, row.miner);
    case Forget(row) => ForgetTouchesNoRow(s, row.worker, row.job);
    case IndexMetrics(row, acc, rej) => MetricsTouchNoRow(s, row.job, row.miner, acc, rej);
  }

  lemma {:induction false} EffectKeeps(s: Sys, e: Step)
    requires RevokedOk(s.workers)
    ensures Kept(s, Effect(s, e))
  {
    if OnMiner(e) {
      MinerEffectKeeps(s, e);
    } else if OnJob(e) {
      JobEffectKeeps(s, e);
    } else if OnWorker(e) {
      WorkerEffectKeeps(s, e);
    } else if OnRun(e) {
      RunEffectKeeps(s, e);
    } else if Adds(e) {
      AddEffectKeeps(s, e);
    } else if Drops(e) {
      DropEffectKeeps(s, e);
    } else if OnMaps(e) {
      MapEffectKeeps(s, e);
    } else {
      Untouched(s, Effect(s, e));
    }
  }

  lemma {:induction false} RunKeepsEnds(f: Fine, run: seq<Step>)
    requires FineInv(f) && Runs(f, run)
    ensures Kept(f.s, End(f, run).s)
    decreases |run|
  {
    if run != [] {
      var g := Do(f, run[0]);
      StepKeeps(f, run[0]);
      EffectKeeps(f.s, run[0]);
      RunKeepsEnds(g, run[1..]);
      assert Kept(f.s, g.s);
      KeptTrans(f.s, g.s, End(f, run).s);
    }
  }

  lemma {:induction false} KeptTrans(s: Sys, t: Sys, u: Sys)
    requires Kept(s, t) && Kept(t, u)
    ensures Kept(s, u)
  {
  }

  /** How often ended_at of a job is written. */
  ghost function EndWrites(f: Fine, run: seq<Step>, j: Id): nat
    requires Runs(f, run)
    decreases |run|
  {
    if run == [] then 0
    else
      var g := Do(f, run[0]);
      (if j in f.s.jobs && j in g.s.jobs && g.s.jobs[j].endedAt != f.s.jobs[j].endedAt then 1 else 0) + EndWrites(g, run[1..], j)
  }

  lemma {:induction false} WrittenOnce(f: Fine, run: seq<Step>, j: Id)
    requires FineInv(f) && Runs(f, run)
    ensures EndWrites(f, run, j) <= 1
    ensures j < f.s.next && (j !in f.s.jobs || f.s.jobs[j].endedAt.Some?) ==> EndWrites(f, run, j) == 0
    decreases |run|
  {
    if run != [] {
      StepKeeps(f, run[0]);
      EffectKeeps(f.s, run[0]);
      WrittenOnce(Do(f, run[0]), run[1..], j);
    }
  }

  /** In every interleaving ended_at is written at most once per job. */
  lemma {:induction false} EndedAtMostOnce(run: seq<Step>, j: Id)
    requires Runs(START, run)
    ensures EndWrites(START, run, j) <= 1
  {
    WrittenOnce(START, run, j);
  }

  /** In every interleaving a worker once revoked stays so, and is so exactly when revoked_at is set. */
  lemma {:induction false} RevokedForGood(f: Fine, run: seq<Step>, w: Id)
    requires FineInv(f) && Runs(f, run) && w in f.s.workers && f.s.workers[w].revokedAt.Some?
    ensures var t := End(f, run).s; w in t.workers ==> t.workers[w] == f.s.workers[w] && t.workers[w].status == Revoked
  {
    RunKeepsEnds(f, run);
    RunsKeep(f, run);
  }

  /** The status an acknowledgement writes into its job, without testing ended_at. */
  predicate LateAck(e: Step, j: Id) { e.JobStatus? && e.row.job == j && e.job == JobAck }

  /** Statements that leave the row of an ended job alone. */
  lemma {:induction false} EndedRowStays(s: Sys, e: Step, j: Id)
    requires j in s.jobs && s.jobs[j].endedAt.Some? && j < s.next && j in Effect(s, e).jobs
    requires e.JobStatus? ==> e.row.job != j || e.job == JobEnded || e.job == JobError
    ensures Effect(s, e).jobs[j] == s.jobs[j]
  {
    if OnJob(e) {
      JobRowStays(s, e, j);
    } else if Drops(e) {
      DroppedRowStays(s, e, j);
    } else {
      JobsUntouched(s, e);
    }
  }

  lemma {:induction false} JobRowStays(s: Sys, e: Step, j: Id)
    requires j in s.jobs && s.jobs[j].endedAt.Some? && j < s.next && OnJob(e)
    requires e.JobStatus? ==> e.row.job != j || e.job == JobEnded || e.job == JobError
    ensures j in Effect(s, e).jobs && Effect(s, e).jobs[j] == s.jobs[j]
  {
    if e.JobStatus? {
      EndedRowFixed(s.jobs, e.row.job, e.job, s.now, j);
    } else if e.FailJob? {
      EndedRowFixed(s.jobs, e.j, JobError, s.now, j);
    } else {
      RowsEndedOrAdded(s, e, j);
    }
  }

  lemma {:induction false} RowsEndedOrAdded(s: Sys, e: Step, j: Id)
    requires j in s.jobs && s.jobs[j].endedAt.Some? && j < s.next && (e.EndJobs? || e.InsertJob?)
    ensures j in Effect(s, e).jobs && Effect(s, e).jobs[j] == s.jobs[j]
  {
  }

  lemma {:induction false} EndedRowFixed(jobs: Jobs, k: Id, st: JobStatus, now: nat, j: Id)
    requires j in jobs && jobs[j].endedAt.Some? && (k == j ==> st == JobEnded || st == JobError)
    ensures j in JobsWith(jobs, k, st, now) && JobsWith(jobs, k, st, now)[j] == jobs[j]
  {
  }

  lemma {:induction false} DroppedRowStays(s: Sys, e: Step, j: Id)
    requires j in s.jobs && Drops(e) && j in Effect(s, e).jobs
    ensures Effect(s, e).jobs[j] == s.jobs[j]
  {
    match e
    case DropWorker(owner, w) => assert j in Swarm.DropWorker(s, owner, w).jobs;
    case DropMiner(owner, m) => assert j in Swarm.DropMiner(s, owner, m).jobs;
  }

  lemma {:induction false} JobsUntouched(s: Sys, e: Step)
    requires !OnJob(e) && !Drops(e)
    ensures Effect(s, e).jobs == s.jobs
  {
    if OnMiner(e) {
      MinerEffectFrame(s, e);
    } else if OnWorker(e) {
      WorkerEffectFrame(s, e);
    } else if OnRun(e) {
      RunEffectFrame(s, e);
    } else if OnMaps(e) {
      MapEffectFrame(s, e);
    }
  }

  lemma {:induction false} MinerEffectFrame(s: Sys, e: Step)
    requires OnMiner(e)
    ensures Effect(s, e).jobs == s.jobs
  {
    match e
    case AckStatus(row, ok) =>
    case MarkQueued(m) =>
    case MarkStopped(m) =>
  }

  lemma {:induction false} WorkerEffectFrame(s: Sys, e: Step)
    requires OnWorker(e)
    ensures Effect(s, e).jobs == s.jobs && Effect(s, e).miners == s.miners
  {
    match e
    case WorkerStatus(w, st) =>
    case MarkRevoked(_, _) =>
  }

  lemma {:induction false} RunEffectFrame(s: Sys, e: Step)
    requires OnRun(e)
    ensures Effect(s, e).jobs == s.jobs && Effect(s, e).miners == s.miners
  {
    if e.OpenRun? {
      assert Effect(s, e) == Swarm.OpenRun(s, e.m);
    } else if e.CloseRun? {
      assert Effect(s, e) == Swarm.CloseRun(s, e.m, e.acc, e.rej);
    } else {
      assert Effect(s, e) == Swarm.InsertSample(s, e.row.miner, e.row.job, e.acc, e.rej);
    }
  }

  lemma {:induction false} MapEffectFrame(s: Sys, e: Step)
    requires OnMaps(e)
    ensures Effect(s, e).jobs == s.jobs && Effect(s, e).miners == s.miners
  {
    if e.Register? {
      assert Effect(s, e) == RegisterSection(s.(next := s.next + 1), e.a.worker, e.a.owner, e.a.kind, s.next);
    } else if e.Unregister? {
      assert Effect(s, e) == UnregisterSection(s, e.w);
    } else if e.IndexAck? {
      assert Effect(s, e) == AckSection(s, e.row.worker, e.row.job, e.row.miner);
    } else if e.IndexMetrics? {
      assert Effect(s, e) == MetricsSection(s, e.row.job, e.row.miner, e.acc, e.rej);
    } else {
      assert Effect(s, e) == CancelSection(s, e.row.worker, e.row.job);
    }
  }

  lemma {:induction false} JobIdIssued(f: Fine, j: Id)
    requires FineInv(f) && j in f.s.jobs
    ensures j < f.s.next
  {
    assert j in f.s.homes;
  }

  lemma {:induction false} DoEffect(f: Fine, e: Step)
    requires Ready(f, e)
    ensures Do(f, e).s == Effect(f.s, e)
  {
  }

  lemma {:induction false} LateAckRow(s: Sys, j: Id)
    requires j in s.jobs
    ensures SetJobStatus(s, j, JobAck).jobs == s.jobs[j := s.jobs[j].(status := JobAck)]
  {
  }

  lemma {:induction false} EndedStatusIn(s: Sys, e: Step, j: Id)
    requires j in s.jobs && s.jobs[j].endedAt.Some? && j < s.next && j in Effect(s, e).jobs
    requires e.JobStatus? ==> e.job != JobAssigned
    ensures Effect(s, e).jobs[j].status != s.jobs[j].status <==> LateAck(e, j) && s.jobs[j].status != JobAck
  {
    if LateAck(e, j) {
      LateAckRow(s, j);
    } else {
      EndedRowStays(s, e, j);
    }
  }

  lemma {:induction false} EndedStatusDone(f: Fine, e: Step, j: Id)
    requires Ready(f, e) && j in f.s.jobs && f.s.jobs[j].endedAt.Some? && j < f.s.next && j in Do(f, e).s.jobs
    ensures Do(f, e).s.jobs[j].status != f.s.jobs[j].status <==> LateAck(e, j) && f.s.jobs[j].status != JobAck
  {
    DoEffect(f, e);
    EndedStatusIn(f.s, e, j);
  }

  /**
   While ended_at is final at statement granularity, the status text beside it is
   not: a step changes it exactly when it writes an acknowledgement, because that
   UPDATE does not test ended_at. SwarmLate says what follows over whole runs.
   */
  lemma {:induction false} EndedStatusChangesIff(f: Fine, e: Step, j: Id)
    requires FineInv(f) && Ready(f, e) && j in f.s.jobs && f.s.jobs[j].endedAt.Some? && j in Do(f, e).s.jobs
    ensures Do(f, e).s.jobs[j].status != f.s.jobs[j].status <==> LateAck(e, j) && f.s.jobs[j].status != JobAck
  {
    JobIdIssued(f, j);
    EndedStatusDone(f, e, j);
  }
}
