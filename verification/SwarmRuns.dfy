/**
 The handlers, composed of the steps of SwarmSteps, and the invariant over
 every run from the empty system.
 */
module SwarmRuns {

  import opened Base
  import opened Swarm
  import opened SwarmInvariant
  import opened SwarmSteps

  // ---------------------------------------------------------------------
  // The server reads a message
  // ---------------------------------------------------------------------

  /** A job mentioned on a connection is, while it is open, that connection's worker's. */
  lemma {:induction false} HeadAtHome(s: Sys, c: Id)
    requires Inv(s) && c in s.net && s.net[c].up != []
    ensures var j := s.net[c].up[0].job; Open(s, j) ==> OpenFor(s, j, s.net[c].worker)
  {
    var j := s.net[c].up[0].job;
    assert Mentions(s.net[c], j) by { assert InUp(s.net[c].up, j); }
    assert AtHome(s.net[c], c, s.homes);
  }

  lemma {:induction false} AckPastWorker(s: Sys, w: Id, j: Id, m: Id, st: WorkerStatus)
    ensures AckSection(SetWorkerStatus(s, w, st), w, j, m) == SetWorkerStatus(AckSection(s, w, j, m), w, st)
  {
  }

  lemma {:induction false} AckPastMiner(s: Sys, w: Id, j: Id, m: Id, st: MinerStatus)
    ensures AckSection(SetMinerStatus(s, m, st), w, j, m) == SetMinerStatus(AckSection(s, w, j, m), m, st)
  {
  }

  lemma {:induction false} AckPastRows(s: Sys, jobs: Jobs, w: Id, j: Id, m: Id)
    ensures AckSection(s.(jobs := jobs), w, j, m) == AckSection(s, w, j, m).(jobs := jobs)
  {
  }

  lemma {:induction false} AckPastJob(s: Sys, w: Id, j: Id, m: Id)
    ensures AckSection(SetJobStatus(s, j, JobAck), w, j, m) == SetJobStatus(AckSection(s, w, j, m), j, JobAck)
  {
    if j in s.jobs {
      AckPastRows(s, s.jobs[j := s.jobs[j].(status := JobAck)], w, j, m);
    }
  }

  /** The index entry may as well be made before the three status updates. */
  lemma {:induction false} AckCommutes(s: Sys, w: Id, j: Id, m: Id)
    ensures AckSection(SetWorkerStatus(SetMinerStatus(SetJobStatus(s, j, JobAck), m, Running), w, Mining), w, j, m)
         == SetWorkerStatus(SetMinerStatus(SetJobStatus(AckSection(s, w, j, m), j, JobAck), m, Running), w, Mining)
  {
    AckPastWorker(SetMinerStatus(SetJobStatus(s, j, JobAck), m, Running), w, j, m, Mining);
    AckPastMiner(SetJobStatus(s, j, JobAck), w, j, m, Running);
    AckPastJob(s, w, j, m);
  }

  lemma {:induction false} AckReadKeeps(s: Sys, c: Id, j: Id)
    requires Inv(s) && c in s.net && s.net[c].up != [] && s.net[c].up[0] == Ack(j, true)
    ensures Inv(HandleAck(Popped(s, c), s.net[c].worker, j, true))
  {
    var w, t := s.net[c].worker, Popped(s, c);
    HeadAtHome(s, c);
    if OpenFor(t, j, w) {
      var m := t.jobs[j].miner;
      var u := AckSection(t, w, j, m);
      var v := SetJobStatus(u, j, JobAck);
      AckArrivesKeeps(s, c, j);
      AckCommutes(t, w, j, m);
      SetJobStatusKeeps(u, j, JobAck);
      SetMinerStatusKeeps(v, m, Running);
      SetWorkerStatusKeeps(SetMinerStatus(v, m, Running), w, Mining);
    } else {
      PopKeeps(s, c);
    }
  }

  lemma {:induction false} RefusalReadKeeps(s: Sys, c: Id, j: Id)
    requires Inv(s) && c in s.net && s.net[c].up != [] && s.net[c].up[0] == Ack(j, false)
    ensures Inv(HandleAck(Popped(s, c), s.net[c].worker, j, false))
  {
    var w, t := s.net[c].worker, Popped(s, c);
    PopKeeps(s, c);
    if OpenFor(t, j, w) {
      SetJobStatusKeeps(t, j, JobError);
      SetMinerStatusKeeps(SetJobStatus(t, j, JobError), t.jobs[j].miner, Errored);
    }
  }

  lemma {:induction false} MetricsReadKeeps(s: Sys, c: Id, j: Id, acc: nat, rej: nat)
    requires Inv(s) && c in s.net && s.net[c].up != [] && s.net[c].up[0] == Metrics(j, acc, rej)
    ensures Inv(HandleMetrics(Popped(s, c), s.net[c].worker, j, acc, rej))
  {
    assert UpOk(s.net[c], s.states.Keys, s.jobs);
    assert Known(s.states.Keys, s.jobs, j);
    PopKeeps(s, c);
    HandleMetricsKeeps(Popped(s, c), s.net[c].worker, j, acc, rej);
  }

  lemma {:induction false} ServerReadKeeps(s: Sys, c: Id)
    requires Inv(s) && Enabled(s, ServerRead(c))
    ensures Inv(Next(s, ServerRead(c)))
  {
    var x := s.net[c];
    match x.up[0]
    case Ack(j, ok) =>
      if ok { AckReadKeeps(s, c, j); } else { RefusalReadKeeps(s, c, j); }
    case Metrics(j, acc, rej) => MetricsReadKeeps(s, c, j, acc, rej);
  }

  // ---------------------------------------------------------------------
  // API handlers
  // ---------------------------------------------------------------------

  lemma {:induction false} StartMinerKeeps(s: Sys, owner: string, m: Id, target: Option<Id>)
    requires Inv(s) && Enabled(s, StartMiner(owner, m, target))
    ensures Inv(Next(s, StartMiner(owner, m, target)))
  {
    if Startable(s, owner, m) {
      OpenRunKeeps(s, m);
      SetMinerStatusKeeps(OpenRun(s, m), m, Queued);
      AssignMinerKeeps(Started(s, m), m, target);
    }
  }

  lemma {:induction false} StopMinerKeeps(s: Sys, owner: string, m: Id, order: seq<Id>)
    requires Inv(s) && Enabled(s, StopMiner(owner, m, order))
    ensures Inv(Next(s, StopMiner(owner, m, order)))
  {
    if Owns(s, owner, m) {
      AllCancellable(s, m, order);
      CancelAllKeeps(s, m, order);
      NoOpenJobAfterCancel(s, m, order);
      SetMinerStatusKeeps(CancelAll(s, m, order), m, Stopped);
    }
  }

  lemma {:induction false} DeleteMinerKeeps(s: Sys, owner: string, m: Id, order: seq<Id>)
    requires Inv(s) && Enabled(s, DeleteMiner(owner, m, order))
    ensures Inv(Next(s, DeleteMiner(owner, m, order)))
  {
    AllCancellable(s, m, order);
    CancelAllKeeps(s, m, order);
    DropMinerKeeps(CancelAll(s, m, order), owner, m);
  }

  lemma {:induction false} AllocateAllKeeps(s: Sys, order: seq<Id>)
    requires Inv(s)
    ensures Inv(AllocateAll(s, order))
    decreases |order|
  {
    if order != [] {
      var j := order[0];
      if j in s.jobs && s.jobs[j].worker in s.conns {
        SendKeeps(s, s.conns[s.jobs[j].worker], Allocation(j));
        AllocateAllKeeps(Send(s, s.conns[s.jobs[j].worker], Allocation(j)), order[1..]);
      } else {
        AllocateAllKeeps(s, order[1..]);
      }
    }
  }

  lemma {:induction false} RevokeWorkerKeeps(s: Sys, owner: string, w: Id)
    requires Inv(s)
    ensures Inv(Next(s, RevokeWorker(owner, w)))
  {
    if w in s.workers && s.workers[w].owner == owner && s.workers[w].revokedAt.None? {
      var t := MarkRevoked(s, owner, w);
      MarkRevokedKeeps(s, owner, w);
      EndJobsKeeps(t, w);
      HubRevokeKeeps(EndJobsOfWorker(t, w), w);
    }
  }

  lemma {:induction false} DeleteWorkerKeeps(s: Sys, owner: string, w: Id)
    requires Inv(s)
    ensures Inv(Next(s, DeleteWorker(owner, w)))
  {
    HubRevokeKeeps(s, w);
    DropWorkerKeeps(HubRevoke(s, w), owner, w);
  }

  lemma {:induction false} ConnectKeeps(s: Sys, w: Id, choices: seq<Choice>)
    requires Inv(s) && Enabled(s, Connect(w, choices))
    ensures Inv(Next(s, Connect(w, choices)))
  {
    JoinedKeeps(s, w);
    forall i | 0 <= i < |choices|
      ensures choices[i].miner in s.miners && s.miners[choices[i].miner].status == Queued
    {
      assert MinersOf(choices)[i] in QueuedMiners(s, s.workers[w].owner);
    }
    AssignAllKeeps(Joined(s, w), choices);
  }

  // ---------------------------------------------------------------------
  // Runs
  // ---------------------------------------------------------------------

  lemma {:induction false} HandlerKeepsInv(s: Sys, e: Event)
    requires Inv(s) && Enabled(s, e) && Handles(e)
    ensures Inv(Next(s, e))
  {
    match e
    case StartMiner(owner, m, target) => StartMinerKeeps(s, owner, m, target);
    case StopMiner(owner, m, order) => StopMinerKeeps(s, owner, m, order);
    case DeleteMiner(owner, m, order) => DeleteMinerKeeps(s, owner, m, order);
    case UpdateAllocation(owner, m, order) => AllocateAllKeeps(s, order);
    case RevokeWorker(owner, w) => RevokeWorkerKeeps(s, owner, w);
    case DeleteWorker(owner, w) => DeleteWorkerKeeps(s, owner, w);
  }

  lemma {:induction false} TransportKeepsInv(s: Sys, e: Event)
    requires Inv(s) && Enabled(s, e) && Transports(e)
    ensures Inv(Next(s, e))
  {
    match e
    case WorkerRead(c, started) => WorkerReadKeeps(s, c, started);
    case WorkerReport(c, j, acc, rej) => WorkerReportKeeps(s, c, j, acc, rej);
    case SessionEnd(c) => SessionEndKeeps(s, c);
    case Break(c) => BreakKeeps(s, c);
  }

  lemma {:induction false} StepKeepsInv(s: Sys, e: Event)
    requires Inv(s) && Enabled(s, e)
    ensures Inv(Next(s, e))
  {
    if Handles(e) {
      HandlerKeepsInv(s, e);
    } else if Transports(e) {
      TransportKeepsInv(s, e);
    } else if e.Connect? {
      ConnectKeeps(s, e.w, e.choices);
    } else if e.ServerRead? {
      ServerReadKeeps(s, e.c);
    } else if e.ServerEnd? {
      ServerEndKeeps(s, e.c);
    } else if e.CreateMiner? {
      CreateMinerKeeps(s, e.owner, e.hasWallet, e.simulated);
    } else if e.EnrollWorker? {
      EnrollWorkerKeeps(s, e.owner, e.kind);
    } else {
      TickKeeps(s, e.to);
    }
  }

  lemma {:induction false} TickKeeps(s: Sys, to: nat)
    requires Inv(s)
    ensures Inv(s.(now := to))
  {
  }

  lemma {:induction false} RunKeeps(s: Sys, run: seq<Event>)
    requires Inv(s) && Feasible(s, run)
    ensures Inv(After(s, run))
    decreases |run|
  {
    if run != [] {
      StepKeepsInv(s, run[0]);
      RunKeeps(Next(s, run[0]), run[1..]);
    }
  }

  /** The invariant holds after every run from the empty system. */
  lemma {:induction false} RunKeepsInv(run: seq<Event>)
    requires Feasible(INIT, run)
    ensures Inv(After(INIT, run))
  {
    RunKeeps(INIT, run);
  }

  lemma {:induction false} RunConcat(s: Sys, xs: seq<Event>, ys: seq<Event>)
    ensures Feasible(s, xs + ys) <==> Feasible(s, xs) && Feasible(After(s, xs), ys)
    ensures Feasible(s, xs + ys) ==> After(s, xs + ys) == After(After(s, xs), ys)
    decreases |xs|
  {
    if xs == [] {
      assert xs + ys == ys;
    } else {
      assert (xs + ys)[0] == xs[0] && (xs + ys)[1..] == xs[1..] + ys;
      if Enabled(s, xs[0]) {
        RunConcat(Next(s, xs[0]), xs[1..], ys);
      }
    }
  }

  lemma {:induction false} RunCons(s: Sys, e: Event, rest: seq<Event>)
    ensures Feasible(s, [e] + rest) <==> Enabled(s, e) && Feasible(Next(s, e), rest)
    ensures Feasible(s, [e] + rest) ==> After(s, [e] + rest) == After(Next(s, e), rest)
  {
    assert ([e] + rest)[0] == e && ([e] + rest)[1..] == rest;
  }
}
