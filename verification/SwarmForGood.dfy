/** What a revocation or a deletion means for the rest of every run. */
module SwarmForGood {

  import opened Base
  import opened Swarm
  import opened SwarmInvariant
  import opened SwarmSteps
  import opened SwarmRuns
  import opened SwarmTheorems
  import opened SwarmAgreement
  import opened SwarmDelivery
  import opened SwarmEffects

  // ---------------------------------------------------------------------
  // A revoked worker
  // ---------------------------------------------------------------------

  /** Sessions live on, and none that was not up comes up. */
  ghost predicate NetAges(net: Net, net': Net) {
    forall c | c in net :: c in net' && (net'[c].phase == Up ==> net[c].phase == Up)
  }

  /** The worker's row is revoked or gone, its session is not up, and no job of it is open. */
  ghost predicate Out(s: Sys, w: Id) {
    && w < s.next && (w in s.workers ==> s.workers[w].revokedAt.Some?)
    && (w in s.conns && s.conns[w] in s.net ==> s.net[s.conns[w]].phase != Up)
    && (forall j | j in s.jobs && s.jobs[j].worker == w :: s.jobs[j].endedAt.Some?)
  }

  lemma {:induction false} NetAgesTrans(a: Net, b: Net, c: Net)
    requires NetAges(a, b) && NetAges(b, c)
    ensures NetAges(a, c)
  {
  }

  lemma {:induction false} OneAges(net: Net, c: Id, y: Session)
    requires c in net && (y.phase == Up ==> net[c].phase == Up)
    ensures NetAges(net, net[c := y])
  {
  }

  lemma {:induction false} SendAges(net: Net, c: Id, msg: ToWorker)
    ensures NetAges(net, NetWith(net, c, msg))
  {
    if c in net && net[c].phase == Up {
      OneAges(net, c, net[c].(down := net[c].down + [msg]));
    }
  }

  lemma {:induction false} RevokingAges(net: Net, conns: map<Id, Id>, w: Id)
    ensures NetAges(net, NetRevoking(net, conns, w))
  {
    if w in conns && conns[w] in net && net[conns[w]].phase == Up {
      OneAges(net, conns[w], net[conns[w]].(down := net[conns[w]].down + [RevokeMsg], phase := Closing));
    }
  }

  lemma {:induction false} CancelAllAges(s: Sys, m: Id, order: seq<Id>)
    requires Cancellable(s, order)
    ensures NetAges(s.net, CancelAll(s, m, order).net)
    decreases |order|
  {
    if order != [] {
      var j := order[0];
      CancelStep(s, m, order);
      CancelledNet(s, m, j);
      if s.jobs[j].worker in s.conns { SendAges(s.net, s.conns[s.jobs[j].worker], CancelJob(j)); }
      CancelAllAges(CancelOne(s, m, j), m, order[1..]);
      NetAgesTrans(s.net, CancelOne(s, m, j).net, CancelAll(s, m, order).net);
    }
  }

  lemma {:induction false} AllocateAllAges(s: Sys, order: seq<Id>)
    ensures NetAges(s.net, AllocateAll(s, order).net)
    decreases |order|
  {
    if order != [] {
      var j := order[0];
      if j in s.jobs && s.jobs[j].worker in s.conns {
        var t := Send(s, s.conns[s.jobs[j].worker], Allocation(j));
        SendAges(s.net, s.conns[s.jobs[j].worker], Allocation(j));
        AllocateAllAges(t, order[1..]);
        NetAgesTrans(s.net, t.net, AllocateAll(t, order[1..]).net);
      } else {
        AllocateAllAges(s, order[1..]);
      }
    }
  }

  /** New jobs go to sessions that were up, or are over at once. */
  ghost predicate GivenOut(s: Sys, t: Sys) {
    && NetAges(s.net, t.net) && t.conns == s.conns
    && (forall j | j in s.jobs :: j in t.jobs && t.jobs[j] == s.jobs[j])
    && (forall j | j in t.jobs && j !in s.jobs && t.jobs[j].endedAt.None? ::
          t.jobs[j].worker in s.conns && s.conns[t.jobs[j].worker] in s.net && s.net[s.conns[t.jobs[j].worker]].phase == Up)
  }

  lemma {:induction false} OutGives(s: Sys, m: Id, w: Id)
    requires w in s.conns && CanSend(s, s.conns[w]) && s.next !in s.jobs
    ensures GivenOut(s, AssignTo(s, m, w))
  {
    var c := s.conns[w];
    PlacedMaps(s, m, w);
    PlacedOut(s, m, w);
    OneAges(s.net, c, s.net[c].(down := s.net[c].down + [Assign(s.next)]));
    NewJobGiven(s, AssignTo(s, m, w), Job(m, w, JobAssigned, None));
  }

  lemma {:induction false} LostGives(s: Sys, m: Id, w: Id)
    requires w in s.conns && !CanSend(s, s.conns[w]) && s.next !in s.jobs
    ensures GivenOut(s, AssignTo(s, m, w))
  {
    PlacedMaps(s, m, w);
    PlacedLost(s, m, w);
    NewJobGiven(s, AssignTo(s, m, w), Job(m, w, JobError, Some(s.now)));
  }

  lemma {:induction false} NewJobGiven(s: Sys, t: Sys, job: Job)
    requires s.next !in s.jobs && t.jobs == s.jobs[s.next := job] && t.conns == s.conns && NetAges(s.net, t.net)
    requires job.endedAt.None? ==> job.worker in s.conns && CanSend(s, s.conns[job.worker])
    ensures GivenOut(s, t)
  {
  }

  lemma {:induction false} NothingGiven(s: Sys)
    ensures GivenOut(s, s)
  {
  }

  lemma {:induction false} AssignGives(s: Sys, m: Id, target: Option<Id>)
    requires Inv(s) && IsTarget(s, m, target)
    ensures GivenOut(s, AssignMiner(s, m, target))
  {
    if target.Some? && WorkerStillThere(s, m, target.value) {
      RowsKnown(s);
      if CanSend(s, s.conns[target.value]) { OutGives(s, m, target.value); } else { LostGives(s, m, target.value); }
    } else {
      NothingGiven(s);
    }
  }

  lemma {:induction false} GivenTrans(s: Sys, t: Sys, u: Sys)
    requires GivenOut(s, t) && GivenOut(t, u) && (forall w | w in s.conns :: s.conns[w] in s.net)
    ensures GivenOut(s, u)
  {
    NetAgesTrans(s.net, t.net, u.net);
    forall j | j in u.jobs && j !in s.jobs && u.jobs[j].endedAt.None?
      ensures u.jobs[j].worker in s.conns && s.conns[u.jobs[j].worker] in s.net && s.net[s.conns[u.jobs[j].worker]].phase == Up
    {
      if j in t.jobs {
        assert u.jobs[j] == t.jobs[j];
      }
    }
  }

  lemma {:induction false} AssignAllGives(s: Sys, choices: seq<Choice>)
    requires Inv(s) && AssignableAll(s, choices)
    requires forall i | 0 <= i < |choices| :: choices[i].miner in s.miners && Active(s.miners[choices[i].miner].status)
    ensures GivenOut(s, AssignAll(s, choices))
    decreases |choices|
  {
    if choices != [] {
      var t := AssignMiner(s, choices[0].miner, choices[0].target);
      AssignGives(s, choices[0].miner, choices[0].target);
      AssignMinerMiners(s, choices[0].miner, choices[0].target);
      AssignMinerKeeps(s, choices[0].miner, choices[0].target);
      AssignAllGives(t, choices[1..]);
      NextSession(s);
      GivenTrans(s, t, AssignAll(t, choices[1..]));
    }
  }

  lemma {:induction false} GivenOutStays(s: Sys, t: Sys, w: Id)
    requires Out(s, w) && GivenOut(s, t) && WorkersFinal(s.workers, s.next, t.workers, t.next)
    requires forall v | v in s.conns :: s.conns[v] in s.net
    ensures Out(t, w)
  {
    forall j | j in t.jobs && t.jobs[j].worker == w ensures t.jobs[j].endedAt.Some? {
      if j in s.jobs {
        assert t.jobs[j] == s.jobs[j];
      }
    }
  }

  /** A step that creates no job: registrations stay or go, sessions age, and the rows are final. */
  lemma {:induction false} QuietOut(s: Sys, t: Sys, w: Id)
    requires Out(s, w) && Final(s, t) && t.homes == s.homes && t.jobs.Keys <= t.homes.Keys
    requires NetAges(s.net, t.net)
    requires (w in t.conns ==> w in s.conns && t.conns[w] == s.conns[w]) && (w in s.conns ==> s.conns[w] in s.net)
    ensures Out(t, w)
  {
    forall j | j in t.jobs && t.jobs[j].worker == w ensures t.jobs[j].endedAt.Some? {
      assert j in s.homes && j in s.jobs && s.jobs[j].worker == w;
    }
  }

  lemma {:induction false} StartOut(s: Sys, owner: string, m: Id, target: Option<Id>, w: Id)
    requires Inv(s) && Startable(s, owner, m) && IsTarget(Started(s, m), m, target) && Out(s, w)
    ensures Out(AssignMiner(Started(s, m), m, target), w)
  {
    var t := Started(s, m);
    StartedRun(s, m);
    OpenRunKeeps(s, m);
    SetMinerStatusKeeps(OpenRun(s, m), m, Queued);
    AssignGives(t, m, target);
    FinalAssign(t, m, target);
    NextSession(t);
    GivenOutStays(t, AssignMiner(t, m, target), w);
  }

  lemma {:induction false} JoinedOut(s: Sys, v: Id, t: Sys, w: Id)
    requires Out(s, w) && v in s.workers && v != w && t.jobs == s.jobs && s.next <= t.next
    requires t.net == JoinedNet(s.net, s.conns, v, s.next) && t.conns == s.conns[v := s.next] && s.next !in s.net
    requires WorkersFinal(s.workers, s.next, t.workers, t.next) && (w in s.conns ==> s.conns[w] in s.net)
    ensures Out(t, w)
  {
  }

  lemma {:induction false} ConnectOut(s: Sys, v: Id, choices: seq<Choice>, w: Id)
    requires Inv(s) && Enabled(s, Connect(v, choices)) && Out(s, w)
    ensures Out(Next(s, Connect(v, choices)), w)
  {
    var t := Joined(s, v);
    NextSession(s);
    JoinedForms(s, v);
    FinalJoined(s, v);
    JoinedOut(s, v, t, w);
    JoinedKeeps(s, v);
    QueuedChoices(s, v, choices);
    AssignedOut(t, choices, w);
  }

  lemma {:induction false} AssignedOut(t: Sys, choices: seq<Choice>, w: Id)
    requires Inv(t) && AssignableAll(t, choices) && Out(t, w)
    requires forall i | 0 <= i < |choices| :: choices[i].miner in t.miners && Active(t.miners[choices[i].miner].status)
    ensures Out(AssignAll(t, choices), w)
  {
    AssignAllGives(t, choices);
    FinalAssignAll(t, choices);
    NextSession(t);
    GivenOutStays(t, AssignAll(t, choices), w);
  }

  lemma {:induction false} HandlerAges(s: Sys, e: Event)
    requires Enabled(s, e) && Handles(e) && !e.StartMiner?
    ensures NetAges(s.net, Next(s, e).net) && Next(s, e).conns == s.conns && Next(s, e).homes == s.homes
  {
    match e
    case StopMiner(owner, m, order) => StopAges(s, owner, m, order);
    case DeleteMiner(owner, m, order) => CancelAges(s, m, order);
    case UpdateAllocation(owner, m, order) => AllocateAges(s, order);
    case RevokeWorker(owner, w) => RevokingAges(s.net, s.conns, w);
    case DeleteWorker(owner, w) => RevokingAges(s.net, s.conns, w);
  }

  lemma {:induction false} StopAges(s: Sys, owner: string, m: Id, order: seq<Id>)
    requires Enabled(s, StopMiner(owner, m, order))
    ensures var t := Next(s, StopMiner(owner, m, order)); NetAges(s.net, t.net) && t.conns == s.conns && t.homes == s.homes
  {
    if Owns(s, owner, m) {
      CancelAges(s, m, order);
      assert Next(s, StopMiner(owner, m, order)) == SetMinerStatus(CancelAll(s, m, order), m, Stopped);
    } else {
      assert Next(s, StopMiner(owner, m, order)) == s;
    }
  }

  lemma {:induction false} AllocateAges(s: Sys, order: seq<Id>)
    ensures var t := AllocateAll(s, order); NetAges(s.net, t.net) && t.conns == s.conns && t.homes == s.homes
  {
    AllocateFrame(s, order);
    AllocateAllAges(s, order);
  }

  lemma {:induction false} CancelAges(s: Sys, m: Id, order: seq<Id>)
    requires Enumerates(order, OpenJobsOf(s, m))
    ensures var t := CancelAll(s, m, order); NetAges(s.net, t.net) && t.conns == s.conns && t.homes == s.homes
  {
    AllCancellable(s, m, order);
    CancelAllJobs(s, m, order);
    CancelAllAges(s, m, order);
  }

  lemma {:induction false} TransportAges(s: Sys, e: Event)
    requires Enabled(s, e) && (Transports(e) || e.Tick?)
    ensures NetAges(s.net, Next(s, e).net) && Next(s, e).conns == s.conns && Next(s, e).homes == s.homes
  {
    TransportFrame(s, e);
    if e.WorkerRead? {
      HandleAges(s.net[e.c].(down := s.net[e.c].down[1..]), s.net[e.c].down[0], e.started);
    }
    if Transports(e) {
      OneAges(s.net, e.c, Next(s, e).net[e.c]);
    }
  }

  lemma {:induction false} HandleAges(x: Session, msg: ToWorker, started: bool)
    ensures WorkerHandle(x, msg, started).phase == x.phase
  {
  }

  lemma {:induction false} ReadAges(s: Sys, c: Id)
    requires Enabled(s, ServerRead(c))
    ensures var t := Next(s, ServerRead(c)); NetAges(s.net, t.net) && t.conns == s.conns && t.homes == s.homes
  {
    var t, w, msg := Popped(s, c), s.net[c].worker, s.net[c].up[0];
    OneAges(s.net, c, s.net[c].(up := s.net[c].up[1..]));
    HandledNet(t, w, msg);
    match msg
    case Ack(j, ok) => if OpenFor(t, j, w) { AckFrame(t, w, j, ok); }
    case Metrics(j, acc, rej) => MetricsFrame(t, w, j, acc, rej);
  }

  lemma {:induction false} EndAges(s: Sys, c: Id)
    requires Enabled(s, ServerEnd(c))
    ensures var t, x := Next(s, ServerEnd(c)), s.net[c]; NetAges(s.net, t.net) && t.conns == s.conns - {x.worker} && t.homes == s.homes
  {
    OneAges(s.net, c, s.net[c].(serving := false, phase := Hangup(s.net[c].phase)));
  }

  lemma {:induction false} QuietStepOut(s: Sys, e: Event, w: Id)
    requires Inv(s) && Enabled(s, e) && Out(s, w) && !e.StartMiner? && !e.Connect?
    ensures Out(Next(s, e), w)
  {
    var t := Next(s, e);
    StepRows(s, e);
    Registrations(s, w);
    QuietAges(s, e);
    QuietOut(s, t, w);
  }

  lemma {:induction false} Registrations(s: Sys, w: Id)
    requires Inv(s)
    ensures w in s.conns ==> s.conns[w] in s.net
  {
  }

  lemma {:induction false} StepRows(s: Sys, e: Event)
    requires Inv(s) && Enabled(s, e)
    ensures Final(s, Next(s, e)) && Next(s, e).jobs.Keys <= Next(s, e).homes.Keys
  {
    StepKeepsInv(s, e);
    StepFinal(s, e);
    RowsKnown(Next(s, e));
  }

  lemma {:induction false} QuietAges(s: Sys, e: Event)
    requires Enabled(s, e) && !e.StartMiner? && !e.Connect?
    ensures NetAges(s.net, Next(s, e).net) && Next(s, e).homes == s.homes
    ensures Next(s, e).conns == if e.ServerEnd? then s.conns - {s.net[e.c].worker} else s.conns
  {
    if e.ServerRead? {
      ReadAges(s, e.c);
    } else if e.ServerEnd? {
      EndAges(s, e.c);
    } else if Handles(e) {
      HandlerAges(s, e);
    } else if !e.CreateMiner? && !e.EnrollWorker? {
      TransportAges(s, e);
    }
  }

  lemma {:induction false} StepOut(s: Sys, e: Event, w: Id)
    requires Inv(s) && Enabled(s, e) && Out(s, w)
    ensures Out(Next(s, e), w)
  {
    if e.Connect? {
      ConnectOut(s, e.w, e.choices, w);
    } else if e.StartMiner? {
      if Startable(s, e.owner, e.m) { StartOut(s, e.owner, e.m, e.target, w); }
    } else {
      QuietStepOut(s, e, w);
    }
  }

  lemma {:induction false} RunOut(s: Sys, run: seq<Event>, w: Id)
    requires Inv(s) && Feasible(s, run) && Out(s, w)
    ensures Out(After(s, run), w)
    decreases |run|
  {
    if run != [] {
      StepOut(s, run[0], w);
      StepKeepsInv(s, run[0]);
      RunOut(Next(s, run[0]), run[1..], w);
    }
  }

  lemma {:induction false} RevocationOut(s: Sys, t: Sys, w: Id)
    requires w in s.workers && Revocation(s, t, w) && Below(s.workers.Keys, s.next)
    ensures Out(t, w)
  {
  }

  lemma {:induction false} RevokedIsOut(s: Sys, owner: string, w: Id)
    requires Inv(s) && w in s.workers && s.workers[w].owner == owner && s.workers[w].revokedAt.None?
    ensures Inv(Next(s, RevokeWorker(owner, w))) && Out(Next(s, RevokeWorker(owner, w)), w)
  {
    RevokeTakesEffect(s, owner, w);
    StepKeepsInv(s, RevokeWorker(owner, w));
    RowsKnown(s);
    RevocationOut(s, Next(s, RevokeWorker(owner, w)), w);
  }

  /**
   Revoked for good: whatever happens after its owner has revoked a worker, it is never
   let in again, and none of its jobs, old or new, is ever open.
   */
  lemma {:induction false} RevokedGetsNothing(before: seq<Event>, owner: string, w: Id, rest: seq<Event>, choices: seq<Choice>)
    requires Feasible(INIT, before)
    requires var s := After(INIT, before);
             w in s.workers && s.workers[w].owner == owner && s.workers[w].revokedAt.None? && Feasible(Next(s, RevokeWorker(owner, w)), rest)
    ensures var u := After(Next(After(INIT, before), RevokeWorker(owner, w)), rest);
            && !Enabled(u, Connect(w, choices))
            && forall j | j in u.jobs && u.jobs[j].worker == w :: u.jobs[j].endedAt.Some?
  {
    var s := After(INIT, before);
    RunKeepsInv(before);
    RevokedIsOut(s, owner, w);
    RunOut(Next(s, RevokeWorker(owner, w)), rest, w);
  }

  // ---------------------------------------------------------------------
  // A deleted worker
  // ---------------------------------------------------------------------

  /** Deleted for good: the row never comes back, so the worker is never let in again, and no job is ever its. */
  lemma {:induction false} DeletedWorkerIsGone(before: seq<Event>, owner: string, w: Id, rest: seq<Event>, choices: seq<Choice>)
    requires Feasible(INIT, before)
    requires var s := After(INIT, before);
             w in s.workers && s.workers[w].owner == owner && Feasible(Next(s, DeleteWorker(owner, w)), rest)
    ensures var u := After(Next(After(INIT, before), DeleteWorker(owner, w)), rest);
            w !in u.workers && !Enabled(u, Connect(w, choices)) && forall j | j in u.jobs :: u.jobs[j].worker != w
  {
    var s := After(INIT, before);
    RunKeepsInv(before);
    DeletedIsOut(s, owner, w);
    StaysOut(Next(s, DeleteWorker(owner, w)), rest, w);
  }

  lemma {:induction false} DeletedIsOut(s: Sys, owner: string, w: Id)
    requires Inv(s) && w in s.workers && s.workers[w].owner == owner
    ensures var t := Next(s, DeleteWorker(owner, w)); Inv(t) && w !in t.workers && w < t.next
  {
    StepKeepsInv(s, DeleteWorker(owner, w));
    DeleteWorkerTakesEffect(s, owner, w);
    RowsKnown(s);
  }

  lemma {:induction false} StaysOut(s: Sys, run: seq<Event>, w: Id)
    requires Inv(s) && Feasible(s, run) && w !in s.workers && w < s.next
    ensures var t := After(s, run); w !in t.workers && forall j | j in t.jobs :: t.jobs[j].worker != w
  {
    RunFinal(s, run);
    RunKeeps(s, run);
    JobsHaveWorkers(After(s, run));
  }

  lemma {:induction false} JobsHaveWorkers(s: Sys)
    requires Inv(s)
    ensures forall j | j in s.jobs :: s.jobs[j].worker in s.workers && s.jobs[j].miner in s.miners
    ensures forall r | r in s.runs :: s.runs[r].miner in s.miners
  {
  }

  // ---------------------------------------------------------------------
  // A deleted miner
  // ---------------------------------------------------------------------

  /** The miner existed once, and has neither row nor samples. */
  ghost predicate Absent(miners: set<Id>, samples: seq<Sample>, next: Id, m: Id) {
    m < next && m !in miners && SamplesOf(samples, m) == []
  }

  ghost predicate AbsentIn(s: Sys, m: Id) { Absent(s.miners.Keys, s.samples, s.next, m) }

  lemma {:induction false} AbsentRead(s: Sys, m: Id, w: Id, msg: ToServer)
    requires AbsentIn(s, m) && Placed(s.jobs, s.miners, s.workers)
    ensures AbsentIn(ServerHandle(s, w, msg), m)
  {
    if OpenFor(s, msg.job, w) {
      match msg
      case Ack(j, ok) => AckFrame(s, w, j, ok);
      case Metrics(j, acc, rej) =>
        MetricsFrame(s, w, j, acc, rej);
        var x: Sample :| x.miner == s.jobs[j].miner && HandleMetrics(s, w, j, acc, rej).samples == s.samples + [x];
        SampleElsewhere(s.samples, x, m);
    }
  }

  lemma {:induction false} CancelAbsent(s: Sys, m: Id, other: Id, order: seq<Id>)
    requires Enumerates(order, OpenJobsOf(s, other)) && AbsentIn(s, m)
    ensures AbsentIn(CancelAll(s, other, order), m)
  {
    AllCancellable(s, other, order);
    CancelAllJobs(s, other, order);
  }

  lemma {:induction false} StopAbsent(s: Sys, m: Id, owner: string, other: Id, order: seq<Id>)
    requires Enabled(s, StopMiner(owner, other, order)) && AbsentIn(s, m)
    ensures AbsentIn(Next(s, StopMiner(owner, other, order)), m)
  {
    CancelAbsent(s, m, other, order);
  }

  lemma {:induction false} DropAbsent(s: Sys, m: Id, owner: string, other: Id)
    requires AbsentIn(s, m)
    ensures AbsentIn(DropMiner(s, owner, other), m)
  {
    if Owns(s, owner, other) {
      SamplesOfOthersDropped(s.samples, m, other);
    }
  }

  lemma {:induction false} StartAbsent(s: Sys, m: Id, owner: string, other: Id, target: Option<Id>)
    requires Enabled(s, StartMiner(owner, other, target)) && AbsentIn(s, m)
    ensures AbsentIn(Next(s, StartMiner(owner, other, target)), m)
  {
    if Startable(s, owner, other) {
      AssignFrame(Started(s, other), other, target);
    }
  }

  lemma {:induction false} HandlerAbsent(s: Sys, e: Event, m: Id)
    requires Enabled(s, e) && Handles(e) && AbsentIn(s, m)
    ensures AbsentIn(Next(s, e), m)
  {
    match e
    case StartMiner(owner, other, target) => StartAbsent(s, m, owner, other, target);
    case StopMiner(owner, other, order) => StopAbsent(s, m, owner, other, order);
    case DeleteMiner(owner, other, order) =>
      CancelAbsent(s, m, other, order);
      DropAbsent(CancelAll(s, other, order), m, owner, other);
    case UpdateAllocation(owner, other, order) => AllocateFrame(s, order);
    case RevokeWorker(owner, w) => RevokeFrame(s, owner, w);
    case DeleteWorker(owner, w) => DeleteWorkerFrame(s, owner, w);
  }

  lemma {:induction false} ReadAbsent(s: Sys, c: Id, m: Id)
    requires Placed(s.jobs, s.miners, s.workers) && Enabled(s, ServerRead(c)) && AbsentIn(s, m)
    ensures AbsentIn(Next(s, ServerRead(c)), m)
  {
    AbsentRead(Popped(s, c), m, s.net[c].worker, s.net[c].up[0]);
  }

  lemma {:induction false} CreatedAbsent(s: Sys, e: Event, m: Id)
    requires AbsentIn(s, m) && (e.CreateMiner? || e.EnrollWorker? || e.Tick?) && Enabled(s, e)
    ensures AbsentIn(Next(s, e), m)
  {
  }

  lemma {:induction false} StepAbsent(s: Sys, e: Event, m: Id)
    requires Inv(s) && Enabled(s, e) && AbsentIn(s, m)
    ensures AbsentIn(Next(s, e), m)
  {
    if Handles(e) {
      HandlerAbsent(s, e, m);
    } else if Transports(e) {
      TransportFrame(s, e);
    } else if e.Connect? {
      ConnectFrame(s, e.w, e.choices);
    } else if e.ServerRead? {
      ReadAbsent(s, e.c, m);
    } else if e.ServerEnd? {
      ServerEndFrame(s, e.c);
    } else {
      CreatedAbsent(s, e, m);
    }
  }

  lemma {:induction false} RunAbsent(s: Sys, run: seq<Event>, m: Id)
    requires Inv(s) && Feasible(s, run) && AbsentIn(s, m)
    ensures Inv(After(s, run)) && AbsentIn(After(s, run), m)
    decreases |run|
  {
    if run != [] {
      StepAbsent(s, run[0], m);
      StepKeepsInv(s, run[0]);
      RunAbsent(Next(s, run[0]), run[1..], m);
    }
  }

  lemma {:induction false} NoSamples(xs: seq<Sample>, m: Id)
    ensures SamplesOf(xs, m) == [] <==> forall x | x in xs :: x.miner != m
  {
    forall x ensures x in SamplesOf(xs, m) <==> x in xs && x.miner == m {
      FilterMember((y: Sample) => y.miner == m, xs, x);
    }
    assert SamplesOf(xs, m) != [] ==> SamplesOf(xs, m)[0] in SamplesOf(xs, m);
  }

  lemma {:induction false} DeletedIsAbsent(s: Sys, owner: string, m: Id, order: seq<Id>)
    requires Inv(s) && Enabled(s, DeleteMiner(owner, m, order)) && m in s.miners && s.miners[m].owner == owner
    ensures Inv(Next(s, DeleteMiner(owner, m, order))) && AbsentIn(Next(s, DeleteMiner(owner, m, order)), m)
  {
    StepKeepsInv(s, DeleteMiner(owner, m, order));
    DeleteTakesEffect(s, owner, m, order);
    NoSamples(Next(s, DeleteMiner(owner, m, order)).samples, m);
    NoSuchRow(s);
    MinersKnown(s);
  }

  lemma {:induction false} MinersKnown(s: Sys)
    requires Inv(s)
    ensures Below(s.miners.Keys, s.next)
  {
  }

  /** Deleted for good: whatever was in flight, and in every later run, no table has a row about the miner. */
  lemma {:induction false} DeletedMinerIsGone(before: seq<Event>, owner: string, m: Id, order: seq<Id>, rest: seq<Event>)
    requires Feasible(INIT, before)
    requires var s := After(INIT, before);
             && Enabled(s, DeleteMiner(owner, m, order)) && m in s.miners && s.miners[m].owner == owner
             && Feasible(Next(s, DeleteMiner(owner, m, order)), rest)
    ensures var u := After(Next(After(INIT, before), DeleteMiner(owner, m, order)), rest);
            && m !in u.miners
            && (forall j | j in u.jobs :: u.jobs[j].miner != m)
            && (forall r | r in u.runs :: u.runs[r].miner != m)
            && (forall x | x in u.samples :: x.miner != m)
  {
    var s := After(INIT, before);
    var t := Next(s, DeleteMiner(owner, m, order));
    RunKeepsInv(before);
    DeletedIsAbsent(s, owner, m, order);
    RunAbsent(t, rest, m);
    JobsHaveWorkers(After(t, rest));
    NoSamples(After(t, rest).samples, m);
  }
}
