/**
 The swarm control plane as a transition system: the hub
 (internal/swarm/hub.go), the rows it owns (internal/store/store.go), the API
 handlers that drive it (internal/api/handlers.go) and the workers at the other
 end of its connections (cmd/worker/main.go).

 The functions of the first half are the SQL statements and the hub's critical
 sections; the handlers of the second half are composed of them. A run is a
 sequence of events, each of which is one whole handler, one message handled by
 a worker, or one thing happening to a connection.
 */
module Swarm {

  import opened Base
  import Shares

  // ---------------------------------------------------------------------
  // Data model
  // ---------------------------------------------------------------------

  datatype Kind = Native | Browser
  datatype MinerStatus = Created | Queued | Running | Stopped | Errored
  datatype WorkerStatus = Enrolled | Connected | Assigned | Mining | Offline | Revoked
  datatype JobStatus = JobAssigned | JobAck | JobEnded | JobError

  datatype Miner = Miner(owner: string, status: MinerStatus, hasWallet: bool, simulated: bool)
  datatype Worker = Worker(owner: string, kind: Kind, status: WorkerStatus, revokedAt: Option<nat>)
  datatype Job = Job(miner: Id, worker: Id, status: JobStatus, endedAt: Option<nat>)
  datatype Run = Run(miner: Id, stoppedAt: Option<nat>, acc: nat, rej: nat)
  // job: which job's report the sample came from (history; not a column)
  datatype Sample = Sample(miner: Id, job: Id, acc: nat, rej: nat)

  datatype Live = Live(owner: string, kind: Kind, jobs: map<Id, Id>)
  datatype JobState = JobState(miner: Id, lastAcc: nat, lastRej: nat, totAcc: nat, totRej: nat)

  datatype ToWorker = Assign(job: Id) | CancelJob(job: Id) | Allocation(job: Id) | RevokeMsg
  datatype ToServer = Ack(job: Id, ok: bool) | Metrics(job: Id, acc: nat, rej: nat)

  /** Up both ways; closed by the server after a revoke; or broken. */
  datatype Phase = Up | Closing | Down

  /**
   One websocket connection: FIFO queues both ways, whether the server's handler
   still serves it, whether the worker's session on it is still alive, and the
   engines that session runs.
   */
  datatype Session = Session(worker: Id, down: seq<ToWorker>, up: seq<ToServer>, phase: Phase,
                             serving: bool, listening: bool, running: set<Id>)

  datatype Sys = Sys(
    now: nat,
    next: Id,
    miners: map<Id, Miner>,
    workers: map<Id, Worker>,
    jobs: map<Id, Job>,
    runs: map<Id, Run>,
    samples: seq<Sample>,
    conns: map<Id, Id>,         // worker -> session
    live: map<Id, Live>,
    states: map<Id, JobState>,  // the hub's jobs map
    net: map<Id, Session>,
    homes: map<Id, Id>)         // the session each job was assigned on (history)

  const INIT := Sys(0, 0, map[], map[], map[], map[], [], map[], map[], map[], map[], map[])

  predicate Open(s: Sys, j: Id) { j in s.jobs && s.jobs[j].endedAt.None? }

  predicate OpenFor(s: Sys, j: Id, w: Id) { Open(s, j) && s.jobs[j].worker == w }

  // ---------------------------------------------------------------------
  // SQL statements
  // ---------------------------------------------------------------------

  // Each statement is given by what it does to its table.

  function MinersWith(miners: map<Id, Miner>, m: Id, st: MinerStatus): map<Id, Miner> {
    if m in miners then miners[m := miners[m].(status := st)] else miners
  }

  function SetMinerStatus(s: Sys, m: Id, st: MinerStatus): Sys {
    s.(miners := MinersWith(s.miners, m, st))
  }

  function WorkersWith(workers: map<Id, Worker>, w: Id, st: WorkerStatus): map<Id, Worker> {
    if w in workers && workers[w].status != Revoked then workers[w := workers[w].(status := st)] else workers
  }

  function SetWorkerStatus(s: Sys, w: Id, st: WorkerStatus): Sys {
    s.(workers := WorkersWith(s.workers, w, st))
  }

  function JobsWith(jobs: map<Id, Job>, j: Id, st: JobStatus, now: nat): map<Id, Job> {
    if j !in jobs then jobs
    else if st == JobEnded || st == JobError then
      if jobs[j].endedAt.None? then jobs[j := jobs[j].(status := st, endedAt := Some(now))] else jobs
    else jobs[j := jobs[j].(status := st)]
  }

  function SetJobStatus(s: Sys, j: Id, st: JobStatus): Sys {
    s.(jobs := JobsWith(s.jobs, j, st, s.now))
  }

  function OpenRun(s: Sys, m: Id): Sys {
    s.(next := s.next + 1, runs := s.runs[s.next := Run(m, None, 0, 0)])
  }

  function CloseRun(s: Sys, m: Id, acc: nat, rej: nat): Sys {
    s.(runs := map r | r in s.runs ::
         if s.runs[r].miner == m && s.runs[r].stoppedAt.None? then Run(m, Some(s.now), acc, rej) else s.runs[r])
  }

  function InsertSample(s: Sys, m: Id, j: Id, acc: nat, rej: nat): Sys {
    s.(samples := s.samples + [Sample(m, j, acc, rej)])
  }

  /** CreateSwarmJob; its home is the session the assignment goes out on. */
  function CreateJob(s: Sys, m: Id, w: Id, home: Id): Sys {
    s.(next := s.next + 1, jobs := s.jobs[s.next := Job(m, w, JobAssigned, None)], homes := s.homes[s.next := home])
  }

  function WorkersRevoking(workers: map<Id, Worker>, owner: string, w: Id, now: nat): map<Id, Worker> {
    if w in workers && workers[w].owner == owner && workers[w].revokedAt.None?
    then workers[w := workers[w].(status := Revoked, revokedAt := Some(now))] else workers
  }

  /** First statement of Store.RevokeWorker. */
  function MarkRevoked(s: Sys, owner: string, w: Id): Sys {
    s.(workers := WorkersRevoking(s.workers, owner, w, s.now))
  }

  /** Second statement of Store.RevokeWorker. */
  function EndJobsOfWorker(s: Sys, w: Id): Sys {
    s.(jobs := map j | j in s.jobs ::
         if s.jobs[j].worker == w && s.jobs[j].endedAt.None? then s.jobs[j].(status := JobEnded, endedAt := Some(s.now)) else s.jobs[j])
  }

  function WithoutWorker(jobs: map<Id, Job>, w: Id): map<Id, Job> {
    map j | j in jobs && jobs[j].worker != w :: jobs[j]
  }

  function WithoutMiner(jobs: map<Id, Job>, m: Id): map<Id, Job> {
    map j | j in jobs && jobs[j].miner != m :: jobs[j]
  }

  function RunsWithout(runs: map<Id, Run>, m: Id): map<Id, Run> {
    map r | r in runs && runs[r].miner != m :: runs[r]
  }

  function SamplesWithout(xs: seq<Sample>, m: Id): seq<Sample> {
    Filter((x: Sample) => x.miner != m, xs)
  }

  /** DELETE FROM workers, with its cascade. */
  function DropWorker(s: Sys, owner: string, w: Id): Sys {
    if w in s.workers && s.workers[w].owner == owner
    then s.(workers := s.workers - {w}, jobs := WithoutWorker(s.jobs, w)) else s
  }

  /** DELETE FROM miners, with its cascades. */
  function DropMiner(s: Sys, owner: string, m: Id): Sys {
    if m in s.miners && s.miners[m].owner == owner
    then s.(miners := s.miners - {m},
            jobs := WithoutMiner(s.jobs, m),
            runs := RunsWithout(s.runs, m),
            samples := SamplesWithout(s.samples, m))
    else s
  }

  // ---------------------------------------------------------------------
  // Critical sections of the hub, and sends
  // ---------------------------------------------------------------------

  function RegisterSection(s: Sys, w: Id, owner: string, kind: Kind, c: Id): Sys {
    var closed := if w in s.conns && s.conns[w] in s.net then s.net[s.conns[w] := s.net[s.conns[w]].(phase := Down)] else s.net;
    s.(net := closed, conns := s.conns[w := c], live := s.live[w := Live(owner, kind, map[])])
  }

  function UnregisterSection(s: Sys, w: Id): Sys {
    s.(conns := s.conns - {w}, live := s.live - {w})
  }

  function AckSection(s: Sys, w: Id, j: Id, m: Id): Sys {
    s.(live := if w in s.live then s.live[w := s.live[w].(jobs := s.live[w].jobs[j := m])] else s.live,
       states := s.states[j := JobState(m, 0, 0, 0, 0)])
  }

  function Baseline(s: Sys, j: Id, m: Id, acc: nat, rej: nat): JobState {
    if j in s.states then s.states[j] else JobState(m, acc, rej, 0, 0)
  }

  function MetricsSection(s: Sys, j: Id, m: Id, acc: nat, rej: nat): Sys {
    var b := Baseline(s, j, m, acc, rej);
    s.(states := s.states[j := JobState(b.miner, acc, rej, b.totAcc + Shares.Delta(b.lastAcc, acc), b.totRej + Shares.Delta(b.lastRej, rej))])
  }

  function CancelSection(s: Sys, w: Id, j: Id): Sys {
    s.(states := s.states - {j},
       live := if w in s.live then s.live[w := s.live[w].(jobs := s.live[w].jobs - {j})] else s.live)
  }

  predicate CanSend(s: Sys, c: Id) { c in s.net && s.net[c].phase == Up }

  function NetWith(net: map<Id, Session>, c: Id, msg: ToWorker): map<Id, Session> {
    if c in net && net[c].phase == Up then net[c := net[c].(down := net[c].down + [msg])] else net
  }

  function Send(s: Sys, c: Id, msg: ToWorker): Sys {
    s.(net := NetWith(s.net, c, msg))
  }

  /** A message for the connection the worker is registered with, if any. */
  function SendTo(s: Sys, w: Id, msg: ToWorker): Sys {
    s.(net := if w in s.conns then NetWith(s.net, s.conns[w], msg) else s.net)
  }

  // ---------------------------------------------------------------------
  // Hub operations
  // ---------------------------------------------------------------------

  predicate Eligible(s: Sys, m: Id, w: Id) {
    && m in s.miners && w in s.live && w in s.conns
    && s.live[w].owner == s.miners[m].owner && s.live[w].kind != Browser
  }

  /** The scan of Assign: some least-loaded eligible worker, or none when none is eligible. */
  predicate IsTarget(s: Sys, m: Id, target: Option<Id>) {
    match target
    case None => forall w | w in s.live :: !Eligible(s, m, w)
    case Some(t) => Eligible(s, m, t) && forall w | w in s.live && Eligible(s, m, w) :: |s.live[t].jobs| <= |s.live[w].jobs|
  }

  predicate WorkerStillThere(s: Sys, m: Id, w: Id) {
    w in s.workers && m in s.miners && s.workers[w].owner == s.miners[m].owner
  }

  function AssignTo(s: Sys, m: Id, w: Id): Sys
    requires w in s.conns
  {
    var c, j := s.conns[w], s.next;
    var t := CreateJob(s, m, w, c);
    if CanSend(s, c) then SetWorkerStatus(Send(t, c, Assign(j)), w, Assigned) else SetJobStatus(t, j, JobError)
  }

  function AssignMiner(s: Sys, m: Id, target: Option<Id>): Sys
    requires IsTarget(s, m, target)
  {
    if target.Some? && WorkerStillThere(s, m, target.value) then AssignTo(s, m, target.value) else s
  }

  datatype Choice = Choice(miner: Id, target: Option<Id>)

  /** Each queued miner in turn; a choice says which worker the scan came up with. */
  predicate AssignableAll(s: Sys, choices: seq<Choice>)
    decreases |choices|
  {
    choices == [] || (IsTarget(s, choices[0].miner, choices[0].target)
                      && AssignableAll(AssignMiner(s, choices[0].miner, choices[0].target), choices[1..]))
  }

  function AssignAll(s: Sys, choices: seq<Choice>): Sys
    requires AssignableAll(s, choices)
    decreases |choices|
  {
    if choices == [] then s else AssignAll(AssignMiner(s, choices[0].miner, choices[0].target), choices[1..])
  }

  function QueuedMiners(s: Sys, owner: string): set<Id> {
    set m | m in s.miners && s.miners[m].owner == owner && s.miners[m].status == Queued
  }

  predicate Enumerates(order: seq<Id>, all: set<Id>) {
    && (forall i | 0 <= i < |order| :: order[i] in all)
    && (forall i, k | 0 <= i < k < |order| :: order[i] != order[k])
    && (forall x | x in all :: x in order)
  }

  function MinersOf(choices: seq<Choice>): (ms: seq<Id>)
    ensures |ms| == |choices| && forall i | 0 <= i < |ms| :: ms[i] == choices[i].miner
  {
    if choices == [] then [] else [choices[0].miner] + MinersOf(choices[1..])
  }

  function OpenJobsOf(s: Sys, m: Id): set<Id> {
    set j | j in s.jobs && s.jobs[j].miner == m && s.jobs[j].endedAt.None?
  }

  function TotalsOf(s: Sys, j: Id): (nat, nat) {
    if j in s.states then (s.states[j].totAcc, s.states[j].totRej) else (0, 0)
  }

  /** One iteration of CancelMiner. */
  function CancelOne(s: Sys, m: Id, j: Id): Sys
    requires j in s.jobs
  {
    var w, tot := s.jobs[j].worker, TotalsOf(s, j);
    var t := CancelSection(s, w, j);
    CloseRun(SetJobStatus(SendTo(t, w, CancelJob(j)), j, JobEnded), m, tot.0, tot.1)
  }

  function CancelAll(s: Sys, m: Id, order: seq<Id>): Sys
    requires forall i | 0 <= i < |order| :: order[i] in s.jobs
    decreases |order|
  {
    if order == [] then s else CancelAll(CancelOne(s, m, order[0]), m, order[1..])
  }

  function AllocateAll(s: Sys, order: seq<Id>): Sys
    decreases |order|
  {
    if order == [] then s
    else
      var j := order[0];
      AllocateAll(if j in s.jobs then SendTo(s, s.jobs[j].worker, Allocation(j)) else s, order[1..])
  }

  function NetRevoking(net: map<Id, Session>, conns: map<Id, Id>, w: Id): map<Id, Session> {
    if w in conns && conns[w] in net && net[conns[w]].phase == Up
    then net[conns[w] := net[conns[w]].(down := net[conns[w]].down + [RevokeMsg], phase := Closing)] else net
  }

  /** Hub.RevokeWorker: tell the worker, then close. */
  function HubRevoke(s: Sys, w: Id): Sys {
    s.(net := NetRevoking(s.net, s.conns, w))
  }

  function HandleAck(s: Sys, w: Id, j: Id, ok: bool): Sys {
    if !OpenFor(s, j, w) then s
    else
      var m := s.jobs[j].miner;
      if ok then AckSection(SetWorkerStatus(SetMinerStatus(SetJobStatus(s, j, JobAck), m, Running), w, Mining), w, j, m)
      else SetMinerStatus(SetJobStatus(s, j, JobError), m, Errored)
  }

  function HandleMetrics(s: Sys, w: Id, j: Id, acc: nat, rej: nat): Sys {
    if !OpenFor(s, j, w) then s
    else
      var m := s.jobs[j].miner;
      var b := Baseline(s, j, m, acc, rej);
      InsertSample(MetricsSection(s, j, m, acc, rej), m, j, Shares.Delta(b.lastAcc, acc), Shares.Delta(b.lastRej, rej))
  }

  // ---------------------------------------------------------------------
  // Events
  // ---------------------------------------------------------------------

  datatype Event =
    | CreateMiner(owner: string, hasWallet: bool, simulated: bool)
    | EnrollWorker(owner: string, kind: Kind)
    | StartMiner(owner: string, m: Id, target: Option<Id>)
    | StopMiner(owner: string, m: Id, order: seq<Id>)
    | DeleteMiner(owner: string, m: Id, order: seq<Id>)
    | UpdateAllocation(owner: string, m: Id, order: seq<Id>)
    | RevokeWorker(owner: string, w: Id)
    | DeleteWorker(owner: string, w: Id)
    | Connect(w: Id, choices: seq<Choice>)
    | ServerRead(c: Id)
    | ServerEnd(c: Id)
    | WorkerRead(c: Id, started: bool)
    | WorkerReport(c: Id, j: Id, acc: nat, rej: nat)
    | SessionEnd(c: Id)
    | Break(c: Id)
    | Tick(to: nat)

  predicate Owns(s: Sys, owner: string, m: Id) { m in s.miners && s.miners[m].owner == owner }

  /** The guards of handleStartMiner before it touches anything. */
  predicate Startable(s: Sys, owner: string, m: Id) {
    && Owns(s, owner, m)
    && s.miners[m].status != Running && s.miners[m].status != Queued
    && (s.miners[m].hasWallet || s.miners[m].simulated)
  }

  function Started(s: Sys, m: Id): Sys {
    SetMinerStatus(OpenRun(s, m), m, Queued)
  }

  /** HandleWS up to AssignQueued: the worker row is known, a session opens and registers. */
  function Joined(s: Sys, w: Id): Sys
    requires w in s.workers
  {
    var c := s.next;
    var t := s.(next := s.next + 1, net := s.net[c := Session(w, [], [], Up, true, true, {})]);
    SetWorkerStatus(RegisterSection(t, w, s.workers[w].owner, s.workers[w].kind, c), w, Connected)
  }

  predicate Enabled(s: Sys, e: Event) {
    match e
    case StartMiner(owner, m, target) => Startable(s, owner, m) ==> IsTarget(Started(s, m), m, target)
    case StopMiner(owner, m, order) => Enumerates(order, OpenJobsOf(s, m))
    case DeleteMiner(owner, m, order) => Enumerates(order, OpenJobsOf(s, m))
    case UpdateAllocation(owner, m, order) => Enumerates(order, OpenJobsOf(s, m))
    case Connect(w, choices) =>
      && w in s.workers && s.workers[w].revokedAt.None?
      && AssignableAll(Joined(s, w), choices)
      && Enumerates(MinersOf(choices), QueuedMiners(s, s.workers[w].owner))
    case ServerRead(c) => c in s.net && s.net[c].serving && s.net[c].up != []
    case ServerEnd(c) => c in s.net && s.net[c].serving
    case WorkerRead(c, _) => c in s.net && s.net[c].listening && s.net[c].down != []
    case WorkerReport(c, j, _, _) => c in s.net && s.net[c].listening && j in s.net[c].running
    case SessionEnd(c) => c in s.net && s.net[c].listening
    case Break(c) => c in s.net
    case Tick(to) => s.now <= to
    case _ => true
  }

  /** A worker's write: lost unless the connection is up. */
  function Reply(x: Session, msg: ToServer): Session {
    if x.phase == Up then x.(up := x.up + [msg]) else x
  }

  /** The message loop of runSession, for one message; `started` says whether the engine came up. */
  function WorkerHandle(x: Session, msg: ToWorker, started: bool): Session {
    match msg
    case Assign(j) => if started then Reply(x.(running := x.running + {j}), Ack(j, true)) else Reply(x, Ack(j, false))
    case CancelJob(j) => x.(running := x.running - {j})
    case Allocation(_) => x
    case RevokeMsg => x.(listening := false, running := {})
  }

  function ServerHandle(s: Sys, w: Id, msg: ToServer): Sys {
    match msg
    case Ack(j, ok) => HandleAck(s, w, j, ok)
    case Metrics(j, acc, rej) => HandleMetrics(s, w, j, acc, rej)
  }

  function Hangup(p: Phase): Phase { if p == Up then Down else p }

  /** Requests of the API. */
  predicate Handles(e: Event) {
    e.StartMiner? || e.StopMiner? || e.DeleteMiner? || e.UpdateAllocation? || e.RevokeWorker? || e.DeleteWorker?
  }

  /** What workers and the network do to the connections. */
  predicate Transports(e: Event) { e.WorkerRead? || e.WorkerReport? || e.SessionEnd? || e.Break? }

  function Next(s: Sys, e: Event): Sys
    requires Enabled(s, e)
  {
    match e
    case CreateMiner(owner, hasWallet, simulated) =>
      s.(next := s.next + 1, miners := s.miners[s.next := Miner(owner, Created, hasWallet, simulated)])
    case EnrollWorker(owner, kind) =>
      s.(next := s.next + 1, workers := s.workers[s.next := Worker(owner, kind, Enrolled, None)])
    case StartMiner(owner, m, target) =>
      if Startable(s, owner, m) then AssignMiner(Started(s, m), m, target) else s
    case StopMiner(owner, m, order) =>
      if Owns(s, owner, m) then SetMinerStatus(CancelAll(s, m, order), m, Stopped) else s
    case DeleteMiner(owner, m, order) => DropMiner(CancelAll(s, m, order), owner, m)
    case UpdateAllocation(owner, m, order) => if Owns(s, owner, m) then AllocateAll(s, order) else s
    case RevokeWorker(owner, w) =>
      if w in s.workers && s.workers[w].owner == owner && s.workers[w].revokedAt.None?
      then HubRevoke(EndJobsOfWorker(MarkRevoked(s, owner, w), w), w) else s
    case DeleteWorker(owner, w) => DropWorker(HubRevoke(s, w), owner, w)
    case Connect(w, choices) => AssignAll(Joined(s, w), choices)
    case ServerRead(c) =>
      var x := s.net[c];
      ServerHandle(s.(net := s.net[c := x.(up := x.up[1..])]), x.worker, x.up[0])
    case ServerEnd(c) =>
      var x := s.net[c];
      var t := s.(net := s.net[c := x.(serving := false, phase := Hangup(x.phase))]);
      SetWorkerStatus(UnregisterSection(t, x.worker), x.worker, Offline)
    case WorkerRead(c, started) =>
      var x := s.net[c];
      s.(net := s.net[c := WorkerHandle(x.(down := x.down[1..]), x.down[0], started)])
    case WorkerReport(c, j, acc, rej) => s.(net := s.net[c := Reply(s.net[c], Metrics(j, acc, rej))])
    case SessionEnd(c) =>
      var x := s.net[c];
      s.(net := s.net[c := x.(listening := false, running := {}, phase := Hangup(x.phase))])
    case Break(c) => s.(net := s.net[c := s.net[c].(phase := Down)])
    case Tick(to) => s.(now := to)
  }

  ghost predicate Feasible(s: Sys, run: seq<Event>)
    decreases |run|
  {
    run == [] || (Enabled(s, run[0]) && Feasible(Next(s, run[0]), run[1..]))
  }

  ghost function After(s: Sys, run: seq<Event>): Sys
    requires Feasible(s, run)
    decreases |run|
  {
    if run == [] then s else After(Next(s, run[0]), run[1..])
  }
}
