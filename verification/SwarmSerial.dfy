/**
 The two models of the server agree: every run of whole handlers (module Swarm) is one
 of the interleavings of statements and critical sections (module SwarmSections), the
 one in which no handler starts before the previous one has finished.
 */
module SwarmSerial {

  import opened Base
  import opened Swarm
  import opened SwarmSections
  import opened SwarmInvariant
  import opened SwarmSteps
  import opened SwarmRuns
  import SwarmTheorems
  import Shares

  /** The same tables and the same hub maps; the statement level keeps no queues, and names a job's home differently. */
  ghost predicate Mirrors(t: Sys, s: Sys) {
    t == s.(net := t.net, homes := t.homes) && t.homes.Keys == s.homes.Keys
  }

  /** Some sequence of steps takes f to g. */
  ghost predicate Leads(f: Fine, g: Fine) { exists run :: Runs(f, run) && End(f, run) == g }

  lemma {:induction false} NoSteps(f: Fine)
    ensures Leads(f, f)
  {
    assert Runs(f, []) && End(f, []) == f;
  }

  /** One step first. */
  lemma {:induction false} StepLeads(f: Fine, e: Step, g: Fine)
    requires Ready(f, e) && Leads(Do(f, e), g)
    ensures Leads(f, g)
  {
    var run :| Runs(Do(f, e), run) && End(Do(f, e), run) == g;
    assert ([e] + run)[0] == e && ([e] + run)[1..] == run;
    assert Runs(f, [e] + run) && End(f, [e] + run) == g;
  }

  lemma {:induction false} RunLeads(f: Fine, run: seq<Step>, h: Fine)
    requires Runs(f, run) && Leads(End(f, run), h)
    ensures Leads(f, h)
    decreases |run|
  {
    if run != [] {
      RunLeads(Do(f, run[0]), run[1..], h);
      StepLeads(f, run[0], h);
    }
  }

  lemma {:induction false} LeadsOn(f: Fine, g: Fine, h: Fine)
    requires Leads(f, g) && Leads(g, h)
    ensures Leads(f, h)
  {
    var run :| Runs(f, run) && End(f, run) == g;
    RunLeads(f, run, h);
  }

  /** One step more. */
  lemma {:induction false} OneMore(f: Fine, g: Fine, e: Step) returns (h: Fine)
    requires Leads(f, g) && Ready(g, e)
    ensures h == Do(g, e) && Leads(f, h)
  {
    h := Do(g, e);
    NoSteps(h);
    StepLeads(g, e, h);
    LeadsOn(f, g, h);
  }

  // ---------------------------------------------------------------------
  // Statements
  // ---------------------------------------------------------------------

  lemma {:induction false} WorkerStatusSerial(f: Fine, g: Fine, s: Sys, w: Id, st: WorkerStatus) returns (h: Fine)
    requires Leads(f, g) && Mirrors(g.s, s) && st != Revoked
    ensures Leads(f, h) && Mirrors(h.s, SetWorkerStatus(s, w, st)) && h.seen == g.seen
  {
    h := OneMore(f, g, Step.WorkerStatus(w, st));
  }

  lemma {:induction false} JobStatusSerial(f: Fine, g: Fine, s: Sys, row: Row, st: JobStatus) returns (h: Fine)
    requires Leads(f, g) && Mirrors(g.s, s) && row in g.seen && st != JobAssigned
    ensures Leads(f, h) && Mirrors(h.s, SetJobStatus(s, row.job, st)) && h.seen == g.seen
  {
    h := OneMore(f, g, Step.JobStatus(row, st));
  }

  lemma {:induction false} MinerStatusSerial(f: Fine, g: Fine, s: Sys, row: Row, ok: bool) returns (h: Fine)
    requires Leads(f, g) && Mirrors(g.s, s) && row in g.seen
    ensures Leads(f, h) && Mirrors(h.s, SetMinerStatus(s, row.miner, if ok then Running else Errored)) && h.seen == g.seen
  {
    h := OneMore(f, g, Step.AckStatus(row, ok));
  }

  lemma {:induction false} IndexSerial(f: Fine, g: Fine, s: Sys, row: Row) returns (h: Fine)
    requires Leads(f, g) && Mirrors(g.s, s) && row in g.seen
    ensures Leads(f, h) && Mirrors(h.s, AckSection(s, row.worker, row.job, row.miner))
  {
    h := OneMore(f, g, Step.IndexAck(row));
  }

  lemma {:induction false} LookUpOne(f: Fine, s: Sys, j: Id) returns (g: Fine)
    requires Mirrors(f.s, s) && Open(s, j)
    ensures Leads(f, g) && g.s == f.s && RowOf(s.jobs, j) in g.seen
  {
    NoSteps(f);
    g := OneMore(f, f, Step.LookUp(j));
  }

  lemma {:induction false} ForgetSerial(f: Fine, s: Sys, row: Row) returns (g: Fine)
    requires Mirrors(f.s, s) && row in f.seen
    ensures Leads(f, g) && Mirrors(g.s, CancelSection(s, row.worker, row.job)) && g.seen == f.seen
  {
    NoSteps(f);
    g := OneMore(f, f, Step.Forget(row));
  }

  lemma {:induction false} CloseRunSerial(f: Fine, g: Fine, s: Sys, m: Id, acc: nat, rej: nat) returns (h: Fine)
    requires Leads(f, g) && Mirrors(g.s, s)
    ensures Leads(f, h) && Mirrors(h.s, Swarm.CloseRun(s, m, acc, rej)) && h.seen == g.seen
  {
    h := OneMore(f, g, Step.CloseRun(m, acc, rej));
  }

  lemma {:induction false} SendMirrors(t: Sys, s: Sys, c: Id, msg: ToWorker)
    requires Mirrors(t, s)
    ensures Mirrors(t, Send(s, c, msg))
  {
  }

  lemma {:induction false} SendToMirrors(t: Sys, s: Sys, w: Id, msg: ToWorker)
    requires Mirrors(t, s)
    ensures Mirrors(t, SendTo(s, w, msg))
  {
  }

  // ---------------------------------------------------------------------
  // Assigning
  // ---------------------------------------------------------------------

  /** Assign up to the insert: the scan, GetWorker, CreateSwarmJob. */
  lemma {:induction false} InsertSerial(f: Fine, s: Sys, m: Id, w: Id, c: Id) returns (g: Fine)
    requires Mirrors(f.s, s) && Eligible(s, m, w) && WorkerStillThere(s, m, w)
    ensures Leads(f, g) && Mirrors(g.s, CreateJob(s, m, w, c))
  {
    var t := Target(m, w);
    NoSteps(f);
    g := OneMore(f, f, Step.Scan(t));
    g := OneMore(f, g, Step.GetWorker(t));
    g := OneMore(f, g, Step.InsertJob(t));
  }

  lemma {:induction false} SentSerial(f: Fine, s: Sys, m: Id, w: Id) returns (g: Fine)
    requires Mirrors(f.s, s) && Eligible(s, m, w) && WorkerStillThere(s, m, w) && CanSend(s, s.conns[w])
    ensures Leads(f, g) && Mirrors(g.s, AssignTo(s, m, w))
  {
    var u := CreateJob(s, m, w, s.conns[w]);
    var h := InsertSerial(f, s, m, w, s.conns[w]);
    SendMirrors(h.s, u, s.conns[w], Assign(s.next));
    g := WorkerStatusSerial(f, h, Send(u, s.conns[w], Assign(s.next)), w, Assigned);
  }

  lemma {:induction false} FailSerial(f: Fine, g: Fine, s: Sys, j: Id) returns (h: Fine)
    requires Leads(f, g) && Mirrors(g.s, s) && j in s.homes
    ensures Leads(f, h) && Mirrors(h.s, SetJobStatus(s, j, JobError))
  {
    h := OneMore(f, g, Step.FailJob(j));
  }

  lemma {:induction false} LostSerial(f: Fine, s: Sys, m: Id, w: Id) returns (g: Fine)
    requires Mirrors(f.s, s) && Eligible(s, m, w) && WorkerStillThere(s, m, w) && !CanSend(s, s.conns[w])
    ensures Leads(f, g) && Mirrors(g.s, AssignTo(s, m, w))
  {
    var h := InsertSerial(f, s, m, w, s.conns[w]);
    g := FailSerial(f, h, CreateJob(s, m, w, s.conns[w]), s.next);
  }

  lemma {:induction false} AssignSerial(f: Fine, s: Sys, m: Id, target: Option<Id>) returns (g: Fine)
    requires Mirrors(f.s, s) && IsTarget(s, m, target)
    ensures Leads(f, g) && Mirrors(g.s, AssignMiner(s, m, target))
  {
    if target.Some? && WorkerStillThere(s, m, target.value) {
      if CanSend(s, s.conns[target.value]) { g := SentSerial(f, s, m, target.value); } else { g := LostSerial(f, s, m, target.value); }
    } else {
      g := f;
      NoSteps(f);
    }
  }

  lemma {:induction false} AssignAllSerial(f: Fine, s: Sys, choices: seq<Choice>) returns (g: Fine)
    requires Mirrors(f.s, s) && AssignableAll(s, choices)
    ensures Leads(f, g) && Mirrors(g.s, AssignAll(s, choices))
    decreases |choices|
  {
    if choices == [] {
      g := f;
      NoSteps(f);
    } else {
      var h := AssignSerial(f, s, choices[0].miner, choices[0].target);
      g := AssignAllSerial(h, AssignMiner(s, choices[0].miner, choices[0].target), choices[1..]);
      LeadsOn(f, h, g);
    }
  }

  // ---------------------------------------------------------------------
  // Cancelling
  // ---------------------------------------------------------------------

  /** The rows of these jobs have been read. */
  ghost predicate AllSeen(f: Fine, s: Sys, order: seq<Id>) {
    forall i | 0 <= i < |order| :: order[i] in s.jobs && RowOf(s.jobs, order[i]) in f.seen
  }

  /** ActiveJobsForMiner. */
  lemma {:induction false} LookUpSerial(f: Fine, s: Sys, order: seq<Id>) returns (g: Fine)
    requires Mirrors(f.s, s) && Cancellable(s, order)
    ensures Leads(f, g) && g.s == f.s && AllSeen(g, s, order) && f.seen <= g.seen
  {
    NoSteps(f);
    g := f;
    var i := 0;
    while i < |order|
      invariant i <= |order| && Leads(f, g) && g.s == f.s && f.seen <= g.seen
      invariant forall k | 0 <= k < i :: RowOf(s.jobs, order[k]) in g.seen
    {
      g := OneMore(f, g, Step.LookUp(order[i]));
      i := i + 1;
    }
  }

  lemma {:induction false} CancelOneSerial(f: Fine, s: Sys, m: Id, j: Id) returns (g: Fine)
    requires Mirrors(f.s, s) && j in s.jobs && RowOf(s.jobs, j) in f.seen
    ensures Leads(f, g) && Mirrors(g.s, CancelOne(s, m, j)) && g.seen == f.seen
  {
    var row, w, tot := RowOf(s.jobs, j), s.jobs[j].worker, TotalsOf(s, j);
    var u := SendTo(CancelSection(s, w, j), w, CancelJob(j));
    g := ForgetSerial(f, s, row);
    SendToMirrors(g.s, CancelSection(s, w, j), w, CancelJob(j));
    g := JobStatusSerial(f, g, u, row, JobEnded);
    g := CloseRunSerial(f, g, SetJobStatus(u, j, JobEnded), m, tot.0, tot.1);
  }

  lemma {:induction false} SeenRest(f: Fine, g: Fine, s: Sys, t: Sys, order: seq<Id>, job: Job)
    requires order != [] && AllSeen(f, s, order) && g.seen == f.seen && order[0] in s.jobs
    requires t.jobs == s.jobs[order[0] := job] && job.worker == s.jobs[order[0]].worker && job.miner == s.jobs[order[0]].miner
    ensures AllSeen(g, t, order[1..])
  {
    forall i | 0 <= i < |order| - 1 ensures order[1..][i] in t.jobs && RowOf(t.jobs, order[1..][i]) in g.seen {
      assert order[1..][i] == order[i + 1] && RowOf(t.jobs, order[i + 1]) == RowOf(s.jobs, order[i + 1]);
    }
  }

  lemma {:induction false} CancelSerial(f: Fine, s: Sys, m: Id, order: seq<Id>) returns (g: Fine)
    requires Mirrors(f.s, s) && Cancellable(s, order) && AllSeen(f, s, order)
    ensures Leads(f, g) && Mirrors(g.s, CancelAll(s, m, order))
    decreases |order|
  {
    if order == [] {
      g := f;
      NoSteps(f);
    } else {
      var j, t := order[0], CancelOne(s, m, order[0]);
      var h := CancelOneSerial(f, s, m, j);
      CancelStep(s, m, order);
      SeenRest(f, h, s, t, order, s.jobs[j].(status := JobEnded, endedAt := Some(s.now)));
      g := CancelSerial(h, t, m, order[1..]);
      LeadsOn(f, h, g);
    }
  }

  lemma {:induction false} CancelMinerSerial(f: Fine, s: Sys, m: Id, order: seq<Id>) returns (g: Fine)
    requires Mirrors(f.s, s) && Enumerates(order, OpenJobsOf(s, m))
    ensures Leads(f, g) && Mirrors(g.s, CancelAll(s, m, order))
  {
    AllCancellable(s, m, order);
    var h := LookUpSerial(f, s, order);
    g := CancelSerial(h, s, m, order);
    LeadsOn(f, h, g);
  }

  // ---------------------------------------------------------------------
  // The requests
  // ---------------------------------------------------------------------

  lemma {:induction false} StartSerial(f: Fine, s: Sys, owner: string, m: Id, target: Option<Id>) returns (g: Fine)
    requires Mirrors(f.s, s) && Enabled(s, StartMiner(owner, m, target)) && Startable(s, owner, m)
    ensures Leads(f, g) && Mirrors(g.s, Next(s, StartMiner(owner, m, target)))
  {
    var h := StartedSerial(f, s, owner, m);
    g := AssignSerial(h, Started(s, m), m, target);
    LeadsOn(f, h, g);
  }

  lemma {:induction false} StartedSerial(f: Fine, s: Sys, owner: string, m: Id) returns (h: Fine)
    requires Mirrors(f.s, s) && Startable(s, owner, m)
    ensures Leads(f, h) && Mirrors(h.s, Started(s, m))
  {
    h := OpenRunSerial(f, s, owner, m);
    h := QueuedSerial(f, h, Swarm.OpenRun(s, m), m);
  }

  lemma {:induction false} OpenRunSerial(f: Fine, s: Sys, owner: string, m: Id) returns (h: Fine)
    requires Mirrors(f.s, s) && Startable(s, owner, m)
    ensures Leads(f, h) && Mirrors(h.s, Swarm.OpenRun(s, m)) && m in h.startable
  {
    NoSteps(f);
    h := OneMore(f, f, Step.ReadMiner(m));
    h := OneMore(f, h, Step.OpenRun(m));
  }

  lemma {:induction false} QueuedSerial(f: Fine, g: Fine, s: Sys, m: Id) returns (h: Fine)
    requires Leads(f, g) && Mirrors(g.s, s) && m in g.startable
    ensures Leads(f, h) && Mirrors(h.s, SetMinerStatus(s, m, Queued))
  {
    h := OneMore(f, g, Step.MarkQueued(m));
  }

  lemma {:induction false} StopSerial(f: Fine, s: Sys, owner: string, m: Id, order: seq<Id>) returns (g: Fine)
    requires Mirrors(f.s, s) && Enabled(s, StopMiner(owner, m, order)) && Owns(s, owner, m)
    ensures Leads(f, g) && Mirrors(g.s, Next(s, StopMiner(owner, m, order)))
  {
    g := CancelMinerSerial(f, s, m, order);
    g := OneMore(f, g, Step.MarkStopped(m));
  }

  lemma {:induction false} DeleteSerial(f: Fine, s: Sys, owner: string, m: Id, order: seq<Id>) returns (g: Fine)
    requires Mirrors(f.s, s) && Enabled(s, DeleteMiner(owner, m, order))
    ensures Leads(f, g) && Mirrors(g.s, Next(s, DeleteMiner(owner, m, order)))
  {
    g := CancelMinerSerial(f, s, m, order);
    g := OneMore(f, g, Step.DropMiner(owner, m));
  }

  lemma {:induction false} RevokeSerial(f: Fine, s: Sys, owner: string, w: Id) returns (g: Fine)
    requires Mirrors(f.s, s) && w in s.workers && s.workers[w].owner == owner && s.workers[w].revokedAt.None?
    ensures Leads(f, g) && Mirrors(g.s, Next(s, RevokeWorker(owner, w)))
  {
    NoSteps(f);
    g := OneMore(f, f, Step.MarkRevoked(owner, w));
    g := OneMore(f, g, Step.EndJobs(w));
    assert Mirrors(g.s, EndJobsOfWorker(Swarm.MarkRevoked(s, owner, w), w));
  }

  lemma {:induction false} RevokeMirrors(t: Sys, s: Sys, w: Id)
    requires Mirrors(t, s)
    ensures Mirrors(t, HubRevoke(s, w))
  {
  }

  lemma {:induction false} DropMirrors(t: Sys, s: Sys, owner: string, w: Id)
    requires Mirrors(t, s)
    ensures Mirrors(Swarm.DropWorker(t, owner, w), Swarm.DropWorker(s, owner, w))
  {
  }

  lemma {:induction false} DeleteWorkerSerial(f: Fine, s: Sys, owner: string, w: Id) returns (g: Fine)
    requires Mirrors(f.s, s)
    ensures Leads(f, g) && Mirrors(g.s, Next(s, DeleteWorker(owner, w)))
  {
    NoSteps(f);
    g := OneMore(f, f, Step.DropWorker(owner, w));
    RevokeMirrors(f.s, s, w);
    DropMirrors(f.s, HubRevoke(s, w), owner, w);
  }

  lemma {:induction false} HandlerSerial(f: Fine, s: Sys, e: Event) returns (g: Fine)
    requires Mirrors(f.s, s) && Enabled(s, e) && Handles(e)
    ensures Leads(f, g) && Mirrors(g.s, Next(s, e))
  {
    NoSteps(f);
    g := f;
    match e
    case StartMiner(owner, m, target) => if Startable(s, owner, m) { g := StartSerial(f, s, owner, m, target); }
    case StopMiner(owner, m, order) => if Owns(s, owner, m) { g := StopSerial(f, s, owner, m, order); }
    case DeleteMiner(owner, m, order) => g := DeleteSerial(f, s, owner, m, order);
    case UpdateAllocation(owner, m, order) => SwarmTheorems.AllocateFrame(s, order);
    case RevokeWorker(owner, w) =>
      if w in s.workers && s.workers[w].owner == owner && s.workers[w].revokedAt.None? { g := RevokeSerial(f, s, owner, w); }
    case DeleteWorker(owner, w) => g := DeleteWorkerSerial(f, s, owner, w);
  }

  // ---------------------------------------------------------------------
  // The connections
  // ---------------------------------------------------------------------

  lemma {:induction false} ConnectSerial(f: Fine, s: Sys, w: Id, choices: seq<Choice>) returns (g: Fine)
    requires Mirrors(f.s, s) && Enabled(s, Connect(w, choices))
    ensures Leads(f, g) && Mirrors(g.s, Next(s, Connect(w, choices)))
  {
    var h := RegisterSerial(f, s, w);
    g := AssignAllSerial(h, Joined(s, w), choices);
    LeadsOn(f, h, g);
  }

  lemma {:induction false} RegisterSerial(f: Fine, s: Sys, w: Id) returns (h: Fine)
    requires Mirrors(f.s, s) && w in s.workers && s.workers[w].revokedAt.None?
    ensures Leads(f, h) && Mirrors(h.s, Joined(s, w))
  {
    NoSteps(f);
    h := OneMore(f, f, Step.Authenticate(w));
    h := OneMore(f, h, Step.Register(Credential(w, s.workers[w].owner, s.workers[w].kind)));
    h := OneMore(f, h, Step.WorkerStatus(w, Connected));
  }

  lemma {:induction false} AckSerial(f: Fine, s: Sys, w: Id, j: Id, ok: bool) returns (g: Fine)
    requires Mirrors(f.s, s) && OpenFor(s, j, w)
    ensures Leads(f, g) && Mirrors(g.s, HandleAck(s, w, j, ok))
  {
    var row := RowOf(s.jobs, j);
    g := LookUpOne(f, s, j);
    g := JobStatusSerial(f, g, s, row, if ok then JobAck else JobError);
    var t := SetJobStatus(s, j, if ok then JobAck else JobError);
    g := MinerStatusSerial(f, g, t, row, ok);
    if ok {
      t := SetMinerStatus(t, row.miner, Running);
      g := WorkerStatusSerial(f, g, t, w, Mining);
      g := IndexSerial(f, g, SetWorkerStatus(t, w, Mining), row);
    }
  }

  lemma {:induction false} MetricsSerial(f: Fine, s: Sys, w: Id, j: Id, acc: nat, rej: nat) returns (g: Fine)
    requires Mirrors(f.s, s) && OpenFor(s, j, w) && s.jobs[j].miner in s.miners
    ensures Leads(f, g) && Mirrors(g.s, HandleMetrics(s, w, j, acc, rej))
  {
    var row, b := RowOf(s.jobs, j), Baseline(s, j, s.jobs[j].miner, acc, rej);
    g := LookUpOne(f, s, j);
    g := MeasureSerial(f, g, s, row, acc, rej);
    g := SampleSerial(f, g, MetricsSection(s, j, row.miner, acc, rej), row, Shares.Delta(b.lastAcc, acc), Shares.Delta(b.lastRej, rej));
  }

  lemma {:induction false} MeasureSerial(f: Fine, g: Fine, s: Sys, row: Row, acc: nat, rej: nat) returns (h: Fine)
    requires Leads(f, g) && Mirrors(g.s, s) && row in g.seen
    ensures Leads(f, h) && Mirrors(h.s, MetricsSection(s, row.job, row.miner, acc, rej)) && h.seen == g.seen
  {
    h := OneMore(f, g, Step.IndexMetrics(row, acc, rej));
  }

  lemma {:induction false} SampleSerial(f: Fine, g: Fine, s: Sys, row: Row, acc: nat, rej: nat) returns (h: Fine)
    requires Leads(f, g) && Mirrors(g.s, s) && row in g.seen && row.miner in s.miners
    ensures Leads(f, h) && Mirrors(h.s, Swarm.InsertSample(s, row.miner, row.job, acc, rej))
  {
    h := OneMore(f, g, Step.InsertSample(row, acc, rej));
  }

  lemma {:induction false} ReadSerial(f: Fine, s: Sys, w: Id, msg: ToServer) returns (g: Fine)
    requires Mirrors(f.s, s) && Placed(s.jobs, s.miners, s.workers)
    ensures Leads(f, g) && Mirrors(g.s, ServerHandle(s, w, msg))
  {
    NoSteps(f);
    g := f;
    if OpenFor(s, msg.job, w) {
      match msg
      case Ack(j, ok) => g := AckSerial(f, s, w, j, ok);
      case Metrics(j, acc, rej) => g := MetricsSerial(f, s, w, j, acc, rej);
    }
  }

  lemma {:induction false} EndSerial(f: Fine, s: Sys, c: Id) returns (g: Fine)
    requires Mirrors(f.s, s) && Enabled(s, ServerEnd(c))
    ensures Leads(f, g) && Mirrors(g.s, Next(s, ServerEnd(c)))
  {
    var x := s.net[c];
    var t := s.(net := s.net[c := x.(serving := false, phase := Hangup(x.phase))]);
    g := UnregisterSerial(f, t, x.worker);
    g := WorkerStatusSerial(f, g, UnregisterSection(t, x.worker), x.worker, Offline);
  }

  lemma {:induction false} UnregisterSerial(f: Fine, s: Sys, w: Id) returns (g: Fine)
    requires Mirrors(f.s, s)
    ensures Leads(f, g) && Mirrors(g.s, UnregisterSection(s, w))
  {
    NoSteps(f);
    g := OneMore(f, f, Step.Unregister(w));
  }

  lemma {:induction false} PlainSerial(f: Fine, s: Sys, e: Event) returns (g: Fine)
    requires Mirrors(f.s, s) && Enabled(s, e) && (e.CreateMiner? || e.EnrollWorker? || e.Tick?)
    ensures Leads(f, g) && Mirrors(g.s, Next(s, e))
  {
    NoSteps(f);
    match e
    case CreateMiner(owner, hasWallet, simulated) => g := OneMore(f, f, Step.CreateMiner(owner, hasWallet, simulated));
    case EnrollWorker(owner, kind) => g := OneMore(f, f, Step.EnrollWorker(owner, kind));
    case Tick(to) => g := OneMore(f, f, Step.Tick(to));
  }

  lemma {:induction false} StepSerial(f: Fine, s: Sys, e: Event) returns (g: Fine)
    requires Mirrors(f.s, s) && Placed(s.jobs, s.miners, s.workers) && Enabled(s, e)
    ensures Leads(f, g) && Mirrors(g.s, Next(s, e))
  {
    if Handles(e) {
      g := HandlerSerial(f, s, e);
    } else if Transports(e) {
      SwarmTheorems.TransportFrame(s, e);
      NoSteps(f);
      g := f;
    } else if e.Connect? {
      g := ConnectSerial(f, s, e.w, e.choices);
    } else if e.ServerRead? {
      g := ReadSerial(f, Popped(s, e.c), s.net[e.c].worker, s.net[e.c].up[0]);
    } else if e.ServerEnd? {
      g := EndSerial(f, s, e.c);
    } else {
      g := PlainSerial(f, s, e);
    }
  }

  lemma {:induction false} JobsPlaced(s: Sys)
    requires Inv(s)
    ensures Placed(s.jobs, s.miners, s.workers)
  {
  }

  lemma {:induction false} RunSerial(f: Fine, s: Sys, run: seq<Event>) returns (g: Fine)
    requires Mirrors(f.s, s) && Inv(s) && Feasible(s, run)
    ensures Leads(f, g) && Mirrors(g.s, After(s, run))
    decreases |run|
  {
    if run == [] {
      g := f;
      NoSteps(f);
    } else {
      JobsPlaced(s);
      var h := StepSerial(f, s, run[0]);
      StepKeepsInv(s, run[0]);
      g := RunSerial(h, Next(s, run[0]), run[1..]);
      LeadsOn(f, h, g);
    }
  }

  /** Every run of whole handlers has an interleaving of statements and critical sections with the same tables and hub maps at its end. */
  lemma {:induction false} EveryRunIsAnInterleaving(run: seq<Event>) returns (steps: seq<Step>)
    requires Feasible(INIT, run)
    ensures Runs(START, steps) && Mirrors(End(START, steps).s, After(INIT, run))
  {
    RunKeepsInv([]);
    var g := RunSerial(START, INIT, run);
    steps :| Runs(START, steps) && End(START, steps) == g;
  }
}
